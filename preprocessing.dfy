/** The shape-level preprocessing pipeline of backend/api.py: the FFT window
    guard of the spectrogram extractor, time-axis padding or truncation,
    element-wise z-score normalisation, and the two `expand_dims` calls that
    give the classifier its 1 x time x mels x 1 input. */
module Preprocessing {
  import opened Wrappers

  const SAMPLE_RATE: nat := 22050
  const N_MELS: nat := 128
  const HOP_LENGTH: nat := 512
  const DEFAULT_N_FFT: nat := 2048
  const MAX_TIME_STEPS_US8K: nat := 87
  const MAX_TIME_STEPS_ESC10: nat := 200
  /** The 1e-9 guard added to the standard deviation. */
  const EPSILON: real := 0.000000001

  /** Rows are time steps, columns mel bands. */
  type Spectrogram = seq<seq<real>>
  /** batch x time x mels x channel */
  type Tensor = seq<seq<seq<seq<real>>>>

  type NonNegReal = r: real | 0.0 <= r

  /** What `np.mean` and `np.std` report for a spectrogram; the arithmetic
      itself is floating point and is not modelled. */
  datatype Moments = Moments(mean: real, std: NonNegReal)

  predicate Rectangular(m: Spectrogram, width: nat)
  {
    forall i :: 0 <= i < |m| ==> |m[i]| == width
  }

  predicate IsZeroRow(row: seq<real>)
  {
    forall j :: 0 <= j < |row| ==> row[j] == 0.0
  }

  /** `min(2048, len(audio))`: the window never exceeds the clip, and a clip
      of at least 2048 samples keeps the default window. */
  function FftWindow(sampleCount: nat): (n: nat)
    ensures n <= DEFAULT_N_FFT && n <= sampleCount
    ensures n == DEFAULT_N_FFT || n == sampleCount
  {
    if sampleCount < DEFAULT_N_FFT then sampleCount else DEFAULT_N_FFT
  }

  function ZeroRow(width: nat): (row: seq<real>)
    ensures |row| == width && IsZeroRow(row)
  {
    seq(width, _ => 0.0)
  }

  /** Keeps the first `maxTimeSteps` rows, or appends all-zero rows at the
      end: exactly `maxTimeSteps` rows of the input's width, the input's
      rows unchanged at the front, zeros after them. */
  function PadOrTruncate(spec: Spectrogram, width: nat, maxTimeSteps: nat): (r: Spectrogram)
    requires Rectangular(spec, width)
    ensures |r| == maxTimeSteps && Rectangular(r, width)
    ensures forall i :: 0 <= i < |spec| && i < maxTimeSteps ==> r[i] == spec[i]
    ensures forall i :: |spec| <= i < maxTimeSteps ==> IsZeroRow(r[i])
  {
    if |spec| > maxTimeSteps then spec[..maxTimeSteps]
    else spec + seq(maxTimeSteps - |spec|, _ => ZeroRow(width))
  }

  /** The postcondition of PadOrTruncate pins its result down completely. */
  lemma PadOrTruncateDetermined(spec: Spectrogram, width: nat, maxTimeSteps: nat, r: Spectrogram)
    requires Rectangular(spec, width)
    requires |r| == maxTimeSteps && Rectangular(r, width)
    requires forall i :: 0 <= i < |spec| && i < maxTimeSteps ==> r[i] == spec[i]
    requires forall i :: |spec| <= i < maxTimeSteps ==> IsZeroRow(r[i])
    ensures r == PadOrTruncate(spec, width, maxTimeSteps)
  {
    var p := PadOrTruncate(spec, width, maxTimeSteps);
    forall i | 0 <= i < maxTimeSteps
      ensures r[i] == p[i]
    {
      if i >= |spec| {
        assert |r[i]| == |p[i]| == width;
        assert forall j :: 0 <= j < width ==> r[i][j] == 0.0 == p[i][j];
      }
    }
  }

  /** Shaping an already shaped spectrogram changes nothing. */
  lemma PadOrTruncateIdempotent(spec: Spectrogram, width: nat, maxTimeSteps: nat)
    requires Rectangular(spec, width)
    ensures PadOrTruncate(PadOrTruncate(spec, width, maxTimeSteps), width, maxTimeSteps)
            == PadOrTruncate(spec, width, maxTimeSteps)
  {
  }

  /** Shaping to a longer length first and then to a shorter one is the same
      as shaping to the shorter length directly. */
  lemma PadOrTruncateShorter(spec: Spectrogram, width: nat, n: nat, m: nat)
    requires Rectangular(spec, width) && m <= n
    ensures PadOrTruncate(PadOrTruncate(spec, width, n), width, m) == PadOrTruncate(spec, width, m)
  {
  }

  function ZScore(x: real, mo: Moments): real
  {
    (x - mo.mean) / (mo.std + EPSILON)
  }

  /** `(mel_spec - mean) / std` acts on every element and keeps the shape. */
  function Normalize(m: Spectrogram, mo: Moments): (r: Spectrogram)
    ensures |r| == |m|
    ensures forall i :: 0 <= i < |m| ==> |r[i]| == |m[i]|
    ensures forall i, j :: 0 <= i < |m| && 0 <= j < |m[i]| ==> r[i][j] == ZScore(m[i][j], mo)
  {
    seq(|m|, i requires 0 <= i < |m| => seq(|m[i]|, j requires 0 <= j < |m[i]| => ZScore(m[i][j], mo)))
  }

  /** `np.expand_dims(x, axis=-1)`: every element becomes a one-element channel. */
  function AddChannelAxis(m: Spectrogram): (r: seq<seq<seq<real>>>)
    ensures |r| == |m|
    ensures forall i :: 0 <= i < |m| ==> |r[i]| == |m[i]|
    ensures forall i, j :: 0 <= i < |m| && 0 <= j < |m[i]| ==> r[i][j] == [m[i][j]]
  {
    seq(|m|, i requires 0 <= i < |m| => seq(|m[i]|, j requires 0 <= j < |m[i]| => [m[i][j]]))
  }

  predicate HasShape(t: Tensor, steps: nat, width: nat)
  {
    && |t| == 1
    && |t[0]| == steps
    && (forall i :: 0 <= i < steps ==> |t[0][i]| == width)
    && (forall i, j :: 0 <= i < steps && 0 <= j < width ==> |t[0][i][j]| == 1)
  }

  /** `preprocess_audio` given what the extractor returned for the file:
      `None` exactly when extraction failed, otherwise a 1 x maxTimeSteps x
      N_MELS x 1 tensor holding the z-scored shaped spectrogram. */
  function PreprocessAudio(mel: Option<Spectrogram>, maxTimeSteps: nat, moments: Spectrogram -> Moments)
    : (r: Option<Tensor>)
    requires mel.Some? ==> Rectangular(mel.value, N_MELS)
    ensures r.None? <==> mel.None?
    ensures r.Some? ==> HasShape(r.value, maxTimeSteps, N_MELS)
    ensures r.Some? ==>
      var shaped := PadOrTruncate(mel.value, N_MELS, maxTimeSteps);
      forall i, j :: 0 <= i < maxTimeSteps && 0 <= j < N_MELS ==>
        r.value[0][i][j][0] == ZScore(shaped[i][j], moments(shaped))
  {
    match mel
    case None => None
    case Some(spec) =>
      var shaped := PadOrTruncate(spec, N_MELS, maxTimeSteps);
      Some([AddChannelAxis(Normalize(shaped, moments(shaped)))])
  }

  /** Element by element, the tensor holds the z-score of the extracted frame
      where one was kept and the z-score of 0.0 in the padded tail. */
  lemma PreprocessAudioFrames(spec: Spectrogram, maxTimeSteps: nat, moments: Spectrogram -> Moments, i: nat, j: nat)
    requires Rectangular(spec, N_MELS)
    requires i < maxTimeSteps && j < N_MELS
    ensures
      var shaped := PadOrTruncate(spec, N_MELS, maxTimeSteps);
      var t := PreprocessAudio(Some(spec), maxTimeSteps, moments).value;
      t[0][i][j][0] == ZScore(if i < |spec| then spec[i][j] else 0.0, moments(shaped))
  {
  }
}
