# TimeScaleNet API: preprocessing, result selection and temp-file lifecycle

A Dafny model of the deterministic part of the TimeScaleNet audio
classification API (`backend/api.py`). The service accepts an uploaded audio
clip or a YouTube URL, turns the audio into a log-mel spectrogram, shapes it
to the fixed input of one of two pretrained classifiers (ESC-10: 200 time
steps, UrbanSound8K: 87 time steps, 128 mel bands each), and reports the top
class with its confidence and the confidence of every class.

The model covers:

- `preprocessing.dfy` (module `Preprocessing`): the FFT window guard
  `min(2048, len(audio))`, `pad_or_truncate` on a spectrogram given as rows
  of time steps, the z-score normalisation as an element-wise map, and the
  two `expand_dims` calls of `preprocess_audio`. The spectrogram extractor,
  `np.mean` and `np.std` are parameters.
- `prediction.dfy` (module `Prediction`): `np.argmax` with its
  first-occurrence tie-break, the label and confidence chosen in
  `predict_from_file`, `zip`, and the dict comprehension for
  `all_confidences` modelled as an insertion-ordered Python dict. The
  classifier is a parameter (a function from the input tensor to a batch of
  probability vectors, or `None` when it raises).
- `temp_files.dfy` (module `TempFiles`): the working directory as a set of
  file names in a `FileSystem` class, the `cleanup_temp_files` sweep as a
  loop over the matched names, and `download_youtube_audio` with yt-dlp
  and ffmpeg described by how they ran (raised or not, which files they
  left).
- `handlers.dfy` (module `Handlers`): the two upload endpoints and the two
  YouTube endpoints with their `try / except Exception / finally` structure.

Two consequences of the code worth stating:

- Every handler error is a 500. The `HTTPException(400)` raised at
  `backend/api.py:100` and `:189` sits inside the handler's `try`, so
  `except Exception` catches it and re-raises it as a 500 (`:123-124`,
  `:191-192`).
- Half a second of audio at 22050 Hz is 11025 samples, so
  `min(2048, len(audio))` at `backend/api.py:45` keeps the 2048-sample window
  for such a clip; only clips under 2048 samples (about 93 ms) shrink it.

## Model

| member | source | states |
|---|---|---|
| `Preprocessing.FftWindow` | backend/api.py:45 | the window never exceeds 2048 or the sample count, and equals one of them |
| `Preprocessing.PadOrTruncate` | backend/api.py:59-63 | exactly `max_time_steps` rows of the input width; input rows kept unchanged at the front; every row past the input's end all zeros |
| `Preprocessing.PadOrTruncateDetermined` | backend/api.py:59-63 | any spectrogram meeting those shape, prefix and zero-tail conditions is the result, so truncation keeps the first rows and padding is at the end only |
| `Preprocessing.PadOrTruncateIdempotent` | backend/api.py:59-63 | shaping an already shaped spectrogram changes nothing |
| `Preprocessing.PadOrTruncateShorter` | backend/api.py:59-63 | shaping to a longer length and then a shorter one equals shaping to the shorter one |
| `Preprocessing.Normalize` | backend/api.py:70-72 | the z-score acts element by element and keeps the shape |
| `Preprocessing.AddChannelAxis` | backend/api.py:73 | every element becomes a one-element channel, shape otherwise kept |
| `Preprocessing.PreprocessAudio` | backend/api.py:65-75 | `None` exactly when extraction returned `None`; otherwise a 1 x `max_time_steps` x 128 x 1 tensor whose entries are the z-scores of the shaped spectrogram |
| `Preprocessing.PreprocessAudioFrames` | backend/api.py:65-75 | each tensor entry is the z-score of the extracted frame where one was kept, of 0.0 in the padded tail |
| `Prediction.ArgMax` | backend/api.py:102 | the index holds the maximum and every earlier value is strictly smaller (first-occurrence tie-break) |
| `Prediction.FirstMaxUnique` | backend/api.py:102 | any first index of the maximum is the one argmax returns |
| `Prediction.Zip` | backend/api.py:105 | pairs elements by index and stops at the shorter sequence |
| `Prediction.Insert` | backend/api.py:105 | dict assignment: a new key is appended, an existing key keeps its position and takes the new value |
| `Prediction.FromPairs` | backend/api.py:105 | the comprehension's dict has distinct keys, exactly the keys of the pairs, and holds the last pair assigned |
| `Prediction.InsertKeys` | backend/api.py:105 | dict assignment adds exactly its key, keeps keys distinct and stores the assigned pair |
| `Prediction.FromPairsDistinct` | backend/api.py:105 | with distinct keys the dict comprehension keeps every pair in order |
| `Prediction.FromPairsLength` | backend/api.py:105 | the dict has no more entries than the pairs it was built from |
| `Prediction.SelectResult` | backend/api.py:101-110 | fails (as a raised exception) exactly on an empty vector or an argmax past the labels; otherwise the label is one of the labels and `all_confidences` is no longer than either input |
| `Prediction.SelectedLabelIsFirstMax` | backend/api.py:102-104 | the reported label is `labels[i]` and the confidence comes from `predictions[i]` for the first maximum `i` |
| `Prediction.AllConfidencesInLabelOrder` | backend/api.py:105 | for distinct labels, one entry per zipped label, in label order, each with the prediction at the same index |
| `Prediction.SumPercents` | backend/api.py:104-105 | the percentages sum to 100 times the probabilities' sum |
| `Prediction.ConfidencesSumTo100` | backend/api.py:105 | with distinct labels covering every prediction and predictions summing to 1, the `all_confidences` values sum to 100 |
| `Prediction.PredictFromFile` | backend/api.py:97-110 | the 400 error exactly when extraction failed; otherwise a raised exception when the classifier raises or returns an empty batch, and else the selection from the classifier's first batch row for the preprocessed tensor |
| `TempFiles.IsTempAudio` | backend/api.py:176 | a name matches `temp_audio_*` exactly when it is the prefix followed by any characters |
| `TempFiles.StemNamesAreSwept` | backend/api.py:152-176 | every file named after the yt-dlp output template matches `temp_audio_*` |
| `TempFiles.YoutubeNamesAreSwept` | backend/api.py:147-149 | both `temp_audio_<id>.mp3` and `temp_audio_<id>.wav` match the sweep pattern and are different names |
| `TempFiles.UploadNameIsNotSwept` | backend/api.py:118 | `temp_audio.wav` does not match `temp_audio_*` |
| `TempFiles.Swept` | backend/api.py:176 | the swept directory keeps exactly the names not matching the pattern |
| `TempFiles.SweptAgrees` | backend/api.py:175-180 | the sweep's outcome depends only on the names outside the pattern |
| `TempFiles.FileSystem.Create` | backend/api.py:120 | opening a name for writing adds it to the directory |
| `TempFiles.FileSystem.Remove` | backend/api.py:178 | removes the name, and reports failure exactly when it was missing |
| `TempFiles.FileSystem.CleanupTempFiles` | backend/api.py:175-180 | removes every name matching `temp_audio_*` and nothing else |
| `TempFiles.FileSystem.DownloadYoutubeAudio` | backend/api.py:146-173 | returns the wav name exactly when the downloader did not raise, the mp3 exists and ffmpeg succeeded; the new directory for each outcome: the downloader's files always stay, a partial wav stays after a failed conversion, on success the wav is added and the mp3 removed; it only adds names matching the sweep and only removes the mp3 |
| `Handlers.ToResponse` | backend/api.py:123-124 | every failure, the 400 included, becomes status 500; success passes the result through |
| `Handlers.UnprocessableAudioIsServerError` | backend/api.py:99-124 | audio the extractor cannot process yields a 500 response |
| `Handlers.LabelSetsDistinct` | backend/api.py:84-91 | both label sets have ten distinct labels |
| `Handlers.SuccessfulPredictionInLabelOrder` | backend/api.py:97-105 | for distinct labels a successful prediction lists `all_confidences` in label order, at most one per label |
| `Handlers.YoutubeOutcome` | backend/api.py:185-190 | the 400 exactly when extraction or the download failed (raised, no mp3, or ffmpeg failed); otherwise the prediction from the file |
| `Handlers.PredictUpload` | backend/api.py:118-127 | afterwards `temp_audio.wav` is gone and nothing else changed; errors are 500; the response is that of `predict_from_file` when the upload was stored |
| `Handlers.PredictYoutube` | backend/api.py:184-194 | afterwards no `temp_audio_*` file is left and nothing else changed; the response is the `try` body's outcome with every error turned into a 500, a failed download included |
| `Handlers.PredictEsc10` | backend/api.py:116-127 | the ESC-10 upload endpoint: upload file removed; the response is the 200-step prediction over the ESC-10 labels, or 500; `all_confidences` in ESC-10 label order |
| `Handlers.PredictUrbanSound` | backend/api.py:129-140 | the UrbanSound8K upload endpoint: upload file removed; the response is the 87-step prediction over the UrbanSound8K labels, or 500; `all_confidences` in label order |
| `Handlers.PredictYoutubeEsc10` | backend/api.py:182-194 | the ESC-10 YouTube endpoint: directory swept; the response is the 200-step prediction over the ESC-10 labels after a successful download, or 500; `all_confidences` in label order |
| `Handlers.PredictYoutubeUrbanSound` | backend/api.py:196-208 | the UrbanSound8K YouTube endpoint: directory swept; the response is the 87-step prediction over the UrbanSound8K labels after a successful download, or 500; `all_confidences` in label order |

## Left out

- Audio decoding and the mel spectrogram (librosa, `backend/api.py:44-57`): floating-point signal processing in a foreign library. Its output, `Option` of a spectrogram with 128 columns, is a parameter of every operation that uses it.
- `np.mean`, `np.std` and the `1e-9` guard's floating-point behaviour: the mean and the (non-negative) standard deviation are supplied by a parameter; only the element-wise, shape-preserving z-score over real numbers is modelled.
- Prediction.Percent: `round(p * 100, 2)` and the f-string rendering with `%` are not modelled; confidences are the unrounded reals `p * 100`, so `ConfidencesSumTo100` holds exactly, where the rounded strings sum to 100 only within rounding.
- Model loading and `model.predict` (TensorFlow): a parameter returning a batch of probability vectors or failing. NaN values, whose argmax differs, are not modelled.
- yt-dlp and ffmpeg (network, external processes): described only by whether they raised and which files they left; the URL itself is not modelled, and the uuid4 id is a parameter. The model assumes every file the downloader leaves is named after its output template `temp_audio_<id>` (`WritesNamedAfter`); the YouTube handlers' promise that nothing outside `temp_audio_*` changes rests on that assumption.
- TempFiles.FileSystem.CleanupTempFiles: glob also matches directories, whose removal fails and is only reported; the directory model holds file names only, so every matched name is removed.
- Handlers: the `detail` text of the error responses and the printed log lines are not modelled, only the status.
- FastAPI routing, CORS, uvicorn startup and the asynchronous upload read: framework plumbing; the bytes read are summarised by how writing them went.
- Concurrency: requests are modelled one at a time, so the race on the shared `temp_audio.wav` name and the global sweep deleting another request's files are out of scope.
- The web front end (`app/page.js`, `app/predict/page.js`): UI code with no logic beyond picking an endpoint.
