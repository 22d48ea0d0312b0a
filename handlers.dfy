/** The four HTTP endpoints of backend/api.py. Each wraps its work in
    `try / except Exception / finally`: every exception, the HTTPException(400)
    raised inside the `try` included, is re-raised as a 500, and the
    `finally` clean-up runs on every path. */
module Handlers {
  import opened Wrappers
  import opened Preprocessing
  import opened Prediction
  import opened TempFiles

  const LABELS_ESC10: seq<string> :=
    ["chainsaw", "crackling_fire", "dog", "rain", "sea_waves",
     "clock_tick", "crying_baby", "helicopter", "rooster", "sneezing"]
  const LABELS_US8K: seq<string> :=
    ["air_conditioner", "car_horn", "children_playing", "dog_bark", "drilling",
     "engine_idling", "gun_shot", "jackhammer", "siren", "street_music"]

  /** The response: the prediction as the body, or an HTTP error status. */
  datatype Response = Ok(body: PredictionResult) | HttpError(status: nat)

  /** How writing the uploaded bytes went: `open(..., "wb")` failing leaves
      no file; a failing read or write leaves the (truncated) file behind. */
  datatype UploadRun = Stored | OpenFailed | WriteFailed

  /** The `except Exception` clause: any failure of the `try` body becomes a
      500, whatever status it carried. */
  function ToResponse(outcome: Result<PredictionResult, RequestError>): (r: Response)
    ensures r.HttpError? <==> outcome.Failure?
    ensures r.HttpError? ==> r.status == 500
    ensures r.Ok? ==> r.body == outcome.value
  {
    match outcome
    case Success(p) => Ok(p)
    case Failure(_) => HttpError(500)
  }

  /** Audio the extractor cannot process never reaches the client as a 400. */
  lemma UnprocessableAudioIsServerError(moments: Spectrogram -> Moments, classify: Classifier,
                                        labels: seq<string>, maxTimeSteps: nat)
    ensures ToResponse(PredictFromFile(None, moments, classify, labels, maxTimeSteps)) == HttpError(500)
  {
  }

  /** Both label sets name ten distinct classes, so `all_confidences` has an
      entry for each of them. */
  lemma LabelSetsDistinct()
    ensures |LABELS_ESC10| == 10 && Distinct(LABELS_ESC10)
    ensures |LABELS_US8K| == 10 && Distinct(LABELS_US8K)
  {
  }

  /** The entries of `all_confidences` name the labels in order, one per label
      at most. */
  predicate InLabelOrder(all: Dict<real>, labels: seq<string>)
  {
    |all| <= |labels| && forall k :: 0 <= k < |all| ==> all[k].0 == labels[k]
  }

  /** For distinct labels, a successful prediction lists its confidences in
      label order (their values are given by AllConfidencesInLabelOrder). */
  lemma SuccessfulPredictionInLabelOrder(mel: Option<Spectrogram>, moments: Spectrogram -> Moments,
                                         classify: Classifier, labels: seq<string>, maxTimeSteps: nat)
    requires mel.Some? ==> Rectangular(mel.value, N_MELS)
    requires Distinct(labels)
    requires PredictFromFile(mel, moments, classify, labels, maxTimeSteps).Success?
    ensures InLabelOrder(PredictFromFile(mel, moments, classify, labels, maxTimeSteps).value.allConfidences, labels)
  {
    var input := PreprocessAudio(mel, maxTimeSteps, moments).value;
    AllConfidencesInLabelOrder(labels, classify(input).value[0]);
  }

  /** What the `try` body of a YouTube endpoint yields: the prediction when
      the downloader did not raise, left the mp3 and ffmpeg converted it;
      otherwise the HTTPException(400) for a failed download. The sweep
      before the download has removed any older mp3 of that name. */
  function YoutubeOutcome(id: string, downloader: DownloaderRun, transcoder: TranscoderRun,
                          mel: Option<Spectrogram>, moments: Spectrogram -> Moments, classify: Classifier,
                          labels: seq<string>, maxTimeSteps: nat): (r: Result<PredictionResult, RequestError>)
    requires mel.Some? ==> Rectangular(mel.value, N_MELS)
    ensures r == Failure(Unprocessable) <==>
      || mel.None?
      || downloader.raised || Mp3Name(id) !in downloader.written || transcoder.TranscodeFailed?
    ensures !downloader.raised && Mp3Name(id) in downloader.written && transcoder.Transcoded? ==>
      r == PredictFromFile(mel, moments, classify, labels, maxTimeSteps)
  {
    if !downloader.raised && Mp3Name(id) in downloader.written && transcoder.Transcoded? then
      PredictFromFile(mel, moments, classify, labels, maxTimeSteps)
    else
      Failure(Unprocessable)
  }

  /** The upload endpoints' shared body: write the upload to UPLOAD_NAME,
      predict from it, and in `finally` remove UPLOAD_NAME if it exists. */
  method PredictUpload(fs: FileSystem, upload: UploadRun, mel: Option<Spectrogram>,
                       moments: Spectrogram -> Moments, classify: Classifier,
                       labels: seq<string>, maxTimeSteps: nat) returns (r: Response)
    requires mel.Some? ==> Rectangular(mel.value, N_MELS)
    modifies fs
    ensures fs.files == old(fs.files) - {UPLOAD_NAME}
    ensures r.HttpError? ==> r.status == 500
    ensures r == ToResponse(
      if upload.Stored? then PredictFromFile(mel, moments, classify, labels, maxTimeSteps)
      else Failure(Raised))
  {
    var outcome: Result<PredictionResult, RequestError>;
    // try
    if upload.OpenFailed? {
      outcome := Failure(Raised);
    } else {
      fs.Create(UPLOAD_NAME);
      if upload.WriteFailed? {
        outcome := Failure(Raised);
      } else {
        outcome := PredictFromFile(mel, moments, classify, labels, maxTimeSteps);
      }
    }
    // except Exception
    r := ToResponse(outcome);
    // finally
    if fs.Exists(UPLOAD_NAME) {
      var _ := fs.Remove(UPLOAD_NAME);
    }
  }

  /** The YouTube endpoints' shared body: sweep, download, predict from the
      wav; a failed download raises the 400; `finally` sweeps again. */
  method PredictYoutube(fs: FileSystem, id: string, downloader: DownloaderRun, transcoder: TranscoderRun,
                        mel: Option<Spectrogram>, moments: Spectrogram -> Moments, classify: Classifier,
                        labels: seq<string>, maxTimeSteps: nat) returns (r: Response)
    requires WritesNamedAfter(downloader, id)
    requires mel.Some? ==> Rectangular(mel.value, N_MELS)
    modifies fs
    ensures fs.files == Swept(old(fs.files))
    ensures r.HttpError? ==> r.status == 500
    ensures r == ToResponse(YoutubeOutcome(id, downloader, transcoder, mel, moments, classify, labels, maxTimeSteps))
  {
    var outcome: Result<PredictionResult, RequestError>;
    // try
    fs.CleanupTempFiles();
    ghost var afterSweep := fs.files;
    YoutubeNamesAreSwept(id);
    assert Mp3Name(id) !in afterSweep;
    var location := fs.DownloadYoutubeAudio(id, downloader, transcoder);
    if location.None? {
      outcome := Failure(Unprocessable);
    } else {
      outcome := PredictFromFile(mel, moments, classify, labels, maxTimeSteps);
    }
    // except Exception
    r := ToResponse(outcome);
    // finally
    SweptAgrees(fs.files, afterSweep);
    fs.CleanupTempFiles();
  }

  /** POST /predict/esc10 */
  method PredictEsc10(fs: FileSystem, upload: UploadRun, mel: Option<Spectrogram>,
                      moments: Spectrogram -> Moments, classify: Classifier) returns (r: Response)
    requires mel.Some? ==> Rectangular(mel.value, N_MELS)
    modifies fs
    ensures fs.files == old(fs.files) - {UPLOAD_NAME}
    ensures r.HttpError? ==> r.status == 500
    ensures r == ToResponse(
      if upload.Stored? then PredictFromFile(mel, moments, classify, LABELS_ESC10, MAX_TIME_STEPS_ESC10)
      else Failure(Raised))
    ensures r.Ok? ==> r.body.predictedLabel in LABELS_ESC10 && InLabelOrder(r.body.allConfidences, LABELS_ESC10)
  {
    r := PredictUpload(fs, upload, mel, moments, classify, LABELS_ESC10, MAX_TIME_STEPS_ESC10);
    if r.Ok? {
      LabelSetsDistinct();
      SuccessfulPredictionInLabelOrder(mel, moments, classify, LABELS_ESC10, MAX_TIME_STEPS_ESC10);
    }
  }

  /** POST /predict/urbansound */
  method PredictUrbanSound(fs: FileSystem, upload: UploadRun, mel: Option<Spectrogram>,
                           moments: Spectrogram -> Moments, classify: Classifier) returns (r: Response)
    requires mel.Some? ==> Rectangular(mel.value, N_MELS)
    modifies fs
    ensures fs.files == old(fs.files) - {UPLOAD_NAME}
    ensures r.HttpError? ==> r.status == 500
    ensures r == ToResponse(
      if upload.Stored? then PredictFromFile(mel, moments, classify, LABELS_US8K, MAX_TIME_STEPS_US8K)
      else Failure(Raised))
    ensures r.Ok? ==> r.body.predictedLabel in LABELS_US8K && InLabelOrder(r.body.allConfidences, LABELS_US8K)
  {
    r := PredictUpload(fs, upload, mel, moments, classify, LABELS_US8K, MAX_TIME_STEPS_US8K);
    if r.Ok? {
      LabelSetsDistinct();
      SuccessfulPredictionInLabelOrder(mel, moments, classify, LABELS_US8K, MAX_TIME_STEPS_US8K);
    }
  }

  /** POST /predict_youtube/esc10 */
  method PredictYoutubeEsc10(fs: FileSystem, id: string, downloader: DownloaderRun, transcoder: TranscoderRun,
                             mel: Option<Spectrogram>, moments: Spectrogram -> Moments, classify: Classifier)
    returns (r: Response)
    requires WritesNamedAfter(downloader, id)
    requires mel.Some? ==> Rectangular(mel.value, N_MELS)
    modifies fs
    ensures fs.files == Swept(old(fs.files))
    ensures r.HttpError? ==> r.status == 500
    ensures r == ToResponse(YoutubeOutcome(id, downloader, transcoder, mel, moments, classify, LABELS_ESC10, MAX_TIME_STEPS_ESC10))
    ensures r.Ok? ==> r.body.predictedLabel in LABELS_ESC10 && InLabelOrder(r.body.allConfidences, LABELS_ESC10)
  {
    r := PredictYoutube(fs, id, downloader, transcoder, mel, moments, classify, LABELS_ESC10, MAX_TIME_STEPS_ESC10);
    if r.Ok? {
      LabelSetsDistinct();
      SuccessfulPredictionInLabelOrder(mel, moments, classify, LABELS_ESC10, MAX_TIME_STEPS_ESC10);
    }
  }

  /** POST /predict_youtube/urbansound */
  method PredictYoutubeUrbanSound(fs: FileSystem, id: string, downloader: DownloaderRun, transcoder: TranscoderRun,
                                  mel: Option<Spectrogram>, moments: Spectrogram -> Moments, classify: Classifier)
    returns (r: Response)
    requires WritesNamedAfter(downloader, id)
    requires mel.Some? ==> Rectangular(mel.value, N_MELS)
    modifies fs
    ensures fs.files == Swept(old(fs.files))
    ensures r.HttpError? ==> r.status == 500
    ensures r == ToResponse(YoutubeOutcome(id, downloader, transcoder, mel, moments, classify, LABELS_US8K, MAX_TIME_STEPS_US8K))
    ensures r.Ok? ==> r.body.predictedLabel in LABELS_US8K && InLabelOrder(r.body.allConfidences, LABELS_US8K)
  {
    r := PredictYoutube(fs, id, downloader, transcoder, mel, moments, classify, LABELS_US8K, MAX_TIME_STEPS_US8K);
    if r.Ok? {
      LabelSetsDistinct();
      SuccessfulPredictionInLabelOrder(mel, moments, classify, LABELS_US8K, MAX_TIME_STEPS_US8K);
    }
  }
}
