/** Temporary media files of backend/api.py over an abstract working
    directory (the set of file names in it): the glob sweep
    `cleanup_temp_files` and the file naming and steps of
    `download_youtube_audio`. */
module TempFiles {
  import opened Wrappers

  /** The fixed name every upload is written to. */
  const UPLOAD_NAME: string := "temp_audio.wav"
  /** What the glob pattern `temp_audio_*` requires of a name. */
  const TEMP_PREFIX: string := "temp_audio_"

  predicate HasPrefix(s: string, prefix: string)
  {
    |prefix| <= |s| && s[..|prefix|] == prefix
  }

  /** A name matched by `glob.glob("temp_audio_*")`: the literal prefix
      followed by any characters at all, none included. */
  predicate IsTempAudio(name: string)
    ensures IsTempAudio(name) <==> exists rest :: name == TEMP_PREFIX + rest
  {
    if HasPrefix(name, TEMP_PREFIX) then
      assert name == TEMP_PREFIX + name[|TEMP_PREFIX|..];
      true
    else
      assert forall rest :: (TEMP_PREFIX + rest)[..|TEMP_PREFIX|] == TEMP_PREFIX;
      false
  }

  /** The yt-dlp output template: both named files and the downloader's
      intermediate files start with it. */
  function Stem(id: string): string
  {
    TEMP_PREFIX + id
  }

  function Mp3Name(id: string): string
  {
    Stem(id) + ".mp3"
  }

  function WavName(id: string): string
  {
    Stem(id) + ".wav"
  }

  /** Whatever a YouTube request names after its id is caught by the sweep. */
  lemma StemNamesAreSwept(id: string, name: string)
    requires HasPrefix(name, Stem(id))
    ensures IsTempAudio(name)
  {
  }

  /** Both files named by `download_youtube_audio` match the sweep pattern,
      and they are two different files. */
  lemma YoutubeNamesAreSwept(id: string)
    ensures IsTempAudio(Mp3Name(id)) && IsTempAudio(WavName(id))
    ensures Mp3Name(id) != WavName(id)
  {
    assert Mp3Name(id)[..|Stem(id)|] == Stem(id);
    assert WavName(id)[..|Stem(id)|] == Stem(id);
    StemNamesAreSwept(id, Mp3Name(id));
    StemNamesAreSwept(id, WavName(id));
    assert Mp3Name(id)[|Stem(id)| + 1] != WavName(id)[|Stem(id)| + 1];
  }

  /** The upload file does not match `temp_audio_*`: the sweep never removes it. */
  lemma UploadNameIsNotSwept()
    ensures !IsTempAudio(UPLOAD_NAME)
  {
    assert UPLOAD_NAME[10] != TEMP_PREFIX[10];
  }

  /** The directory after the sweep: every matching name gone, every other
      name kept. */
  function Swept(files: set<string>): (r: set<string>)
    ensures forall f :: f in r <==> f in files && !IsTempAudio(f)
  {
    set f | f in files && !IsTempAudio(f)
  }

  /** Sweeping twice is sweeping once, and the sweep only looks at names
      outside the pattern: two directories that agree there sweep alike. */
  lemma SweptAgrees(a: set<string>, b: set<string>)
    requires forall f :: !IsTempAudio(f) ==> (f in a <==> f in b)
    ensures Swept(a) == Swept(b)
  {
  }

  /** How the external downloader (yt-dlp with its mp3 post-processor) ran:
      whether it raised, and the files it left on disk (the mp3 or not, and
      any intermediate files; all named after its output template). */
  datatype DownloaderRun = DownloaderRun(raised: bool, written: set<string>)

  /** How the external transcoder (ffmpeg) ran: it either writes the wav, or
      raises, possibly after writing part of it. */
  datatype TranscoderRun = Transcoded | TranscodeFailed(partialWav: bool)

  predicate WritesNamedAfter(run: DownloaderRun, id: string)
  {
    forall f :: f in run.written ==> HasPrefix(f, Stem(id))
  }

  /** The working directory, as the set of file names in it. */
  class FileSystem {
    var files: set<string>

    constructor (initial: set<string>)
      ensures files == initial
    {
      files := initial;
    }

    /** `os.path.exists` */
    function Exists(name: string): bool
      reads this
    {
      name in files
    }

    /** Opening a name for writing creates (or truncates) it. */
    method Create(name: string)
      modifies this
      ensures files == old(files) + {name}
    {
      files := files + {name};
    }

    /** `os.remove`: `ok` is false when the name is missing, where Python
        raises. */
    method Remove(name: string) returns (ok: bool)
      modifies this
      ensures ok <==> name in old(files)
      ensures files == old(files) - {name}
    {
      ok := name in files;
      files := files - {name};
    }

    /** `cleanup_temp_files`: snapshot the names matching `temp_audio_*`,
        then remove them one at a time (a failed removal is only reported). */
    method CleanupTempFiles()
      modifies this
      ensures files == Swept(old(files))
    {
      var pending := set f | f in files && IsTempAudio(f);
      while pending != {}
        invariant pending <= files
        invariant forall f :: f in pending ==> IsTempAudio(f)
        invariant files - pending == Swept(old(files))
        decreases pending
      {
        var f :| f in pending;
        var _ := Remove(f);
        pending := pending - {f};
      }
    }

    /** `download_youtube_audio` for the request id `id` (the uuid4 string):
        the downloader runs; the mp3 must then exist; ffmpeg writes the wav;
        the mp3 is removed and the wav's name returned. Any exception, and a
        missing mp3, give `None`. */
    method DownloadYoutubeAudio(id: string, downloader: DownloaderRun, transcoder: TranscoderRun)
      returns (path: Option<string>)
      requires WritesNamedAfter(downloader, id)
      modifies this
      ensures path.Some? <==>
        && !downloader.raised
        && Mp3Name(id) in old(files) + downloader.written
        && transcoder.Transcoded?
      ensures path.Some? ==> path.value == WavName(id) && WavName(id) in files && Mp3Name(id) !in files
      ensures files ==
        if path.Some? then old(files) + downloader.written + {WavName(id)} - {Mp3Name(id)}
        else if !downloader.raised && Mp3Name(id) in old(files) + downloader.written
                && transcoder.TranscodeFailed? && transcoder.partialWav
        then old(files) + downloader.written + {WavName(id)}
        else old(files) + downloader.written
      ensures forall f :: f in files && f !in old(files) ==> IsTempAudio(f)
      ensures forall f :: f in old(files) && f !in files ==> f == Mp3Name(id)
    {
      YoutubeNamesAreSwept(id);
      forall f | f in downloader.written
        ensures IsTempAudio(f)
      {
        StemNamesAreSwept(id, f);
      }
      files := files + downloader.written;
      if downloader.raised {
        return None;
      }
      if !Exists(Mp3Name(id)) {
        return None;
      }
      match transcoder
      case TranscodeFailed(partialWav) =>
        if partialWav {
          Create(WavName(id));
        }
        return None;
      case Transcoded =>
        Create(WavName(id));
        var _ := Remove(Mp3Name(id));
        return Some(WavName(id));
    }
  }
}
