/**
 * Shape handling of src/ai/audio_processor.py: the down-mix to one channel, the
 * resampling branch, and the step that brings every spectrogram to exactly
 * FIXED_WIDTH time frames before it is wrapped to the network's input shape
 * (1, 1, rows, width). The mel transform, the dB conversion, the z-score
 * normalisation and the resampler itself are parameters.
 */
module AudioProcessor {
  import opened Sequences

  const SR: int := 44100
  const N_MELS: nat := 128
  const FIXED_WIDTH: nat := 431

  /** A 2-D tensor: rows of equal length. */
  type Matrix = seq<seq<real>>

  /** `shape[1]` of a 2-D tensor (0 when it has no rows). */
  function Width(m: Matrix): nat {
    if m == [] then 0 else |m[0]|
  }

  predicate IsTensor(m: Matrix) {
    forall i :: 0 <= i < |m| ==> |m[i]| == Width(m)
  }

  function Zeros(n: nat): (z: seq<real>)
    ensures |z| == n && forall j :: 0 <= j < n ==> z[j] == 0.0
  {
    seq(n, _ => 0.0)
  }

  /**
   * `F.pad(spec, (0, width - cols))` when the tensor is narrower than `width`,
   * `spec[:, :width]` otherwise: every row is right-padded with zeros or cut.
   */
  function PadOrCrop(spec: Matrix, width: nat): (r: Matrix)
    requires IsTensor(spec)
    ensures |r| == |spec| && IsTensor(r)
    ensures forall i :: 0 <= i < |r| ==> |r[i]| == width
    ensures forall i, j :: 0 <= i < |r| && 0 <= j < width && j < Width(spec) ==> r[i][j] == spec[i][j]
    ensures forall i, j :: 0 <= i < |r| && Width(spec) <= j < width ==> r[i][j] == 0.0
    ensures Width(spec) < width ==> forall i :: 0 <= i < |r| ==> r[i][..Width(spec)] == spec[i]
    ensures width <= Width(spec) ==> forall i :: 0 <= i < |r| ==> r[i] == spec[i][..width]
  {
    if Width(spec) < width then
      var pad := Zeros(width - Width(spec));
      var r := seq(|spec|, i requires 0 <= i < |spec| => spec[i] + pad);
      assert forall i :: 0 <= i < |r| ==> r[i] == spec[i] + pad && |spec[i]| == Width(spec);
      r
    else
      seq(|spec|, i requires 0 <= i < |spec| => spec[i][..width])
  }

  /** A tensor already `width` frames wide comes back unchanged, so padding or cropping twice is doing it once. */
  lemma {:induction false} PadOrCropIdempotent(spec: Matrix, width: nat)
    requires IsTensor(spec)
    ensures |spec| > 0 && Width(spec) == width ==> PadOrCrop(spec, width) == spec
    ensures PadOrCrop(PadOrCrop(spec, width), width) == PadOrCrop(spec, width)
  {
    var once := PadOrCrop(spec, width);
    if |spec| > 0 && Width(spec) == width {
      forall i | 0 <= i < |spec| ensures once[i] == spec[i] {
        assert spec[i][..width] == spec[i];
      }
    }
    if |once| > 0 {
      var twice := PadOrCrop(once, width);
      forall i | 0 <= i < |once| ensures twice[i] == once[i] {
        assert once[i][..width] == once[i];
      }
    }
  }

  /** `spec.unsqueeze(0).unsqueeze(0)`: a batch of one, with one channel. */
  function AddBatchAndChannel(spec: Matrix): (t: seq<seq<Matrix>>)
    ensures |t| == 1 && |t[0]| == 1 && t[0][0] == spec
  {
    [[spec]]
  }

  /**
   * `preprocess_for_model` after its normalisation: the normalised spectrogram
   * padded or cropped to `targetWidth` and wrapped to shape (1, 1, rows, targetWidth).
   */
  function PreprocessForModel(normalised: Matrix, targetWidth: nat := FIXED_WIDTH): (t: seq<seq<Matrix>>)
    requires IsTensor(normalised)
    ensures |t| == 1 && |t[0]| == 1 && |t[0][0]| == |normalised|
    ensures forall i :: 0 <= i < |normalised| ==> |t[0][0][i]| == targetWidth
    ensures t[0][0] == PadOrCrop(normalised, targetWidth)
  {
    AddBatchAndChannel(PadOrCrop(normalised, targetWidth))
  }

  /** The samples of all channels at time `t`. */
  function Column(waveform: Matrix, t: nat): (c: seq<real>)
    requires IsTensor(waveform) && t < Width(waveform)
    ensures |c| == |waveform| && forall ch :: 0 <= ch < |waveform| ==> c[ch] == waveform[ch][t]
  {
    seq(|waveform|, ch requires 0 <= ch < |waveform| => waveform[ch][t])
  }

  /** `waveform.mean(0, keepdim=True)` when there is more than one channel; one channel is kept as is. */
  function ToMono(waveform: Matrix): (m: Matrix)
    requires IsTensor(waveform)
    ensures |waveform| <= 1 ==> m == waveform
    ensures |waveform| > 1 ==> |m| == 1 && |m[0]| == Width(waveform)
    ensures |waveform| > 1 ==> forall t :: 0 <= t < Width(waveform) ==>
              m[0][t] * (|waveform| as real) == Sum(Column(waveform, t))
  {
    if |waveform| > 1 then
      var n := |waveform| as real;
      var mean := seq(Width(waveform), t requires 0 <= t < Width(waveform) => Sum(Column(waveform, t)) / n);
      [mean]
    else waveform
  }

  /** A down-mix of channels that agree at every instant is that channel. */
  lemma {:induction false} MonoOfEqualChannels(waveform: Matrix)
    requires IsTensor(waveform) && |waveform| > 1
    requires forall ch :: 0 <= ch < |waveform| ==> waveform[ch] == waveform[0]
    ensures ToMono(waveform) == [waveform[0]]
  {
    var m := ToMono(waveform)[0];
    forall t | 0 <= t < Width(waveform) ensures m[t] == waveform[0][t] {
      SumOfCopies(Column(waveform, t), waveform[0][t]);
    }
    assert m == waveform[0];
  }

  lemma {:induction false} SumOfCopies(xs: seq<real>, x: real)
    requires forall i :: 0 <= i < |xs| ==> xs[i] == x
    ensures Sum(xs) == (|xs| as real) * x
  {
    if xs != [] {
      SumOfCopies(xs[..|xs| - 1], x);
    }
  }

  /** `T.Resample(sr, SR)` is applied only when the source rate differs from SR. */
  function ResampleIfNeeded(waveform: Matrix, sr: int, resample: (Matrix, int) -> Matrix): (r: Matrix)
    ensures sr == SR ==> r == waveform
    ensures sr != SR ==> r == resample(waveform, sr)
  {
    if sr != SR then resample(waveform, sr) else waveform
  }

  /**
   * `load_and_preprocess_audio` after loading: down-mix, resample, then the
   * mel/dB/normalisation stages `toNormalisedSpec`, then the fixed width. For
   * a spectrogram of N_MELS rows the result has shape (1, 1, 128, 431).
   */
  function LoadAndPreprocess(waveform: Matrix, sr: int, resample: (Matrix, int) -> Matrix,
                             toNormalisedSpec: Matrix -> Matrix): (t: seq<seq<Matrix>>)
    requires IsTensor(waveform)
    requires IsTensor(toNormalisedSpec(ResampleIfNeeded(ToMono(waveform), sr, resample)))
    ensures var spec := toNormalisedSpec(ResampleIfNeeded(ToMono(waveform), sr, resample));
      && |t| == 1 && |t[0]| == 1 && |t[0][0]| == |spec|
      && t[0][0] == PadOrCrop(spec, FIXED_WIDTH)
      && forall i :: 0 <= i < |spec| ==> |t[0][0][i]| == FIXED_WIDTH
  {
    var spec := toNormalisedSpec(ResampleIfNeeded(ToMono(waveform), sr, resample));
    AddBatchAndChannel(PadOrCrop(spec, FIXED_WIDTH))
  }
}
