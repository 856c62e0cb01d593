/**
 * The processing pipeline of `SpectrumContainer::update_spectrum`, stated as
 * functions over a snapshot of the container's state, together with the
 * in-place zero-phase low-pass filter.
 *
 * Routines whose definitions are outside the modelled files (the
 * linearisation curves, the biquad low-pass and the per-index scaling
 * factor lookup) are parameters bundled in `Numerics`.
 */
module Pipeline {
  import opened Wrappers
  import opened Matrix
  import opened Config

  /** Frame timestamps are opaque: the pipeline only copies them. */
  type Timestamp(==)

  datatype Timestamped<T> = Timestamped(start: Timestamp, end: Timestamp, data: T)

  /** A raw 3 x N spectrum (rows R, G, B) with the time span of its frame. */
  type RawEntry = Timestamped<Matrix>

  /** The two delay registers of a direct-form-II-transposed biquad. */
  datatype BiquadState = BiquadState(s1: real, s2: real)

  /** A freshly constructed biquad has both registers at zero. */
  const InitialBiquad: BiquadState := BiquadState(0.0, 0.0)

  /** One `run` of a biquad: the new registers and the output sample. */
  type BiquadRun = (BiquadState, real) -> (BiquadState, real)

  datatype Numerics = Numerics(
    linearize: (Linearize, real) -> real,     // Linearize::linearize
    lowPass: real -> BiquadRun,               // Butterworth low-pass at 2 Hz for a cutoff
    scalingFactor: (seq<real>, nat) -> real)  // get_scaling_factor_from_index on the scaling vector

  predicate IsRgbSpectrum(m: Matrix)
  {
    IsMatrix(m, 3, Cols(m))
  }

  predicate AllRgb(buffer: seq<RawEntry>, cols: nat)
  {
    forall k :: 0 <= k < |buffer| ==> IsMatrix(buffer[k].data, 3, cols)
  }

  function Data(buffer: seq<RawEntry>): (ms: seq<Matrix>)
    ensures |ms| == |buffer| && forall k :: 0 <= k < |buffer| ==> ms[k] == buffer[k].data
  {
    seq(|buffer|, k requires 0 <= k < |buffer| => buffer[k].data)
  }

  function Linearized(m: Matrix, cal: SpectrumCalibration, num: Numerics): (r: Matrix)
    requires IsRgbSpectrum(m)
    ensures IsMatrix(r, 3, Cols(m))
  {
    if cal.linearize == Off then m
    else
      seq(3, i requires 0 <= i < 3 =>
        seq(Cols(m), j requires 0 <= j < Cols(m) => num.linearize(cal.linearize, m[i][j])))
  }

  /** `push_front` followed by `truncate(size)` on the buffer. */
  function PushFront(buffer: seq<RawEntry>, entry: RawEntry, size: nat): (r: seq<RawEntry>)
  {
    var b := [entry] + buffer;
    if |b| > size then b[..size] else b
  }

  /** Mean of the buffered raw spectra; zeros when the buffer is empty. */
  function Mean(buffer: seq<RawEntry>, cols: nat): (m: Matrix)
    requires AllRgb(buffer, cols)
    ensures IsMatrix(m, 3, cols)
  {
    if buffer == [] then Zeros(3, cols)
    else Div(SumAll(Data(buffer), 3, cols), 3, cols, |buffer| as real)
  }

  function Gain(cal: SpectrumCalibration, c: nat): real
  {
    if c == 0 then cal.gainR else if c == 1 then cal.gainG else cal.gainB
  }

  function Gained(m: Matrix, cal: SpectrumCalibration): (r: Matrix)
    requires IsMatrix(m, 3, Cols(m))
    ensures IsMatrix(r, 3, Cols(m))
  {
    seq(3, c requires 0 <= c < 3 => seq(Cols(m), j requires 0 <= j < Cols(m) => m[c][j] * Gain(cal, c)))
  }

  /** The Sum row: column sums over R, G, B, scaled per index when a scaling vector is present, over 3. */
  function SumRow(m: Matrix, cal: SpectrumCalibration, num: Numerics): (r: seq<real>)
    requires IsMatrix(m, 3, Cols(m))
    ensures |r| == Cols(m)
  {
    seq(Cols(m), j requires 0 <= j < Cols(m) =>
      var sum := m[0][j] + m[1][j] + m[2][j];
      if cal.scaling.Some? then sum * num.scalingFactor(cal.scaling.value, j) / 3.0
      else sum / 3.0)
  }

  function WithSumRow(m: Matrix, cal: SpectrumCalibration, num: Numerics): (r: Matrix)
    requires IsMatrix(m, 3, Cols(m))
    ensures IsMatrix(r, 4, Cols(m))
  {
    m + [SumRow(m, cal, num)]
  }

  /** `f32::clamp`. */
  function Clamp(x: real, lo: real, hi: real): real
  {
    if x < lo then lo else if x > hi then hi else x
  }

  /**
   * One pass of a biquad over `xs` from the first sample to the last, starting
   * from registers `st`; every output is clamped to be non-negative.
   */
  function Pass(run: BiquadRun, st: BiquadState, xs: seq<real>): (r: (BiquadState, seq<real>))
    ensures |r.1| == |xs|
    ensures forall k :: 0 <= k < |xs| ==> r.1[k] >= 0.0
    decreases |xs|
  {
    if xs == [] then (st, [])
    else
      var (st', ys) := Pass(run, st, xs[..|xs| - 1]);
      var (st'', y) := run(st', xs[|xs| - 1]);
      (st'', ys + [Max(y, 0.0)])
  }

  /**
   * One pass of a biquad over `xs` from the last sample to the first,
   * starting from registers `st`; outputs stay at their sample's position and
   * are clamped to be non-negative.
   */
  function PassBackward(run: BiquadRun, st: BiquadState, xs: seq<real>): (r: (BiquadState, seq<real>))
    ensures |r.1| == |xs|
    ensures forall k :: 0 <= k < |xs| ==> r.1[k] >= 0.0
    decreases |xs|
  {
    if xs == [] then (st, [])
    else
      var (st', zs) := PassBackward(run, st, xs[1..]);
      var (st'', y) := run(st', xs[0]);
      (st'', [Max(y, 0.0)] + zs)
  }

  /**
   * Forward pass, then a backward pass over the forward output with the same
   * biquad (its registers are not reset in between).
   */
  function ZeroPhase(run: BiquadRun, xs: seq<real>): (r: seq<real>)
    ensures |r| == |xs|
    ensures forall k :: 0 <= k < |xs| ==> r[k] >= 0.0
  {
    var (st, ys) := Pass(run, InitialBiquad, xs);
    PassBackward(run, st, ys).1
  }

  function Filtered(m: Matrix, post: PostprocessingConfig, num: Numerics): (r: Matrix)
    requires IsMatrix(m, 4, Cols(m))
    ensures IsMatrix(r, 4, Cols(m))
  {
    if !post.spectrumFilterActive then m
    else
      var run := num.lowPass(Clamp(post.spectrumFilterCutoff, 0.001, 1.0));
      seq(4, i requires 0 <= i < 4 => ZeroPhase(run, m[i]))
  }

  /** Mean, gains, Sum row and optional filter: the spectrum before the zero reference. */
  function Processed(buffer: seq<RawEntry>, cols: nat, config: SpectrometerConfig, num: Numerics): (r: Matrix)
    requires AllRgb(buffer, cols)
    ensures IsMatrix(r, 4, cols)
  {
    var cal := config.spectrumCalibration;
    Filtered(WithSumRow(Gained(Mean(buffer, cols), cal), cal, num), config.postprocessingConfig, num)
  }

  function ZeroReferenced(m: Matrix, zero: Option<Matrix>): (r: Matrix)
    requires IsMatrix(m, 4, Cols(m))
    requires zero.Some? ==> IsMatrix(zero.value, 4, Cols(m))
    ensures IsMatrix(r, 4, Cols(m))
  {
    if zero.None? then m else Sub(m, zero.value, 4, Cols(m))
  }

  /** The three fields of the container. */
  datatype Snapshot = Snapshot(spectrum: Matrix, buffer: seq<RawEntry>, zeroReference: Option<Matrix>)

  /**
   * The spectrum has 4 rows of one width, and every buffered spectrum and the
   * zero reference share that width.
   */
  predicate WellFormed(s: Snapshot)
  {
    var w := Cols(s.spectrum);
    IsMatrix(s.spectrum, 4, w) && AllRgb(s.buffer, w)
    && (s.zeroReference.Some? ==> IsMatrix(s.zeroReference.value, 4, w))
  }

  /** A new container: an empty 4 x 0 spectrum, no buffer, no zero reference. */
  function Empty(): (s: Snapshot)
    ensures WellFormed(s)
  {
    Snapshot(Zeros(4, 0), [], None)
  }

  /** The front of the buffer has a different column count than the input. */
  predicate WidthChanged(s: Snapshot, cols: nat)
  {
    s.buffer != [] && Cols(s.buffer[0].data) != cols
  }

  /** A zero reference is held whose width differs from the input's. */
  predicate StaleZeroReference(s: Snapshot, cols: nat)
  {
    s.zeroReference.Some? && Cols(s.zeroReference.value) != cols
  }

  /**
   * The zero reference the source subtracts: it is dropped only together
   * with a non-empty buffer of another width, so one held over an empty
   * buffer survives an input of another width.
   */
  function AsWrittenZeroReference(s: Snapshot, cols: nat): Option<Matrix>
  {
    if WidthChanged(s, cols) then None else s.zeroReference
  }

  /**
   * The zero reference kept by `Step`: as in the source, plus one of another
   * width is dropped as well, so the subtraction always has matching shapes.
   */
  function KeptZeroReference(s: Snapshot, cols: nat): (r: Option<Matrix>)
    ensures r.Some? ==> Cols(r.value) == cols && r == s.zeroReference
  {
    if WidthChanged(s, cols) || StaleZeroReference(s, cols) then None else s.zeroReference
  }

  /** What `update_spectrum(input)` needs: a well-formed state and a 3-row input. */
  predicate CanStep(s: Snapshot, input: RawEntry)
  {
    WellFormed(s) && IsRgbSpectrum(input.data)
  }

  /** The state after `update_spectrum(input)`. */
  function Step(s: Snapshot, input: RawEntry, config: SpectrometerConfig, num: Numerics): (r: Snapshot)
    requires CanStep(s, input)
    ensures WellFormed(r) && Cols(r.spectrum) == Cols(input.data)
  {
    var cols := Cols(input.data);
    var cal := config.spectrumCalibration;
    var kept := if WidthChanged(s, cols) then [] else s.buffer;
    var zero := KeptZeroReference(s, cols);
    var entry := input.(data := Linearized(input.data, cal, num));
    var buffer := PushFront(kept, entry, config.postprocessingConfig.spectrumBufferSize);
    Snapshot(ZeroReferenced(Processed(buffer, cols, config, num), zero), buffer, zero)
  }

  predicate AllRgbInputs(inputs: seq<RawEntry>)
  {
    forall k :: 0 <= k < |inputs| ==> IsRgbSpectrum(inputs[k].data)
  }

  /** `update`: `update_spectrum` applied to each queued input in arrival order. */
  function Run(s: Snapshot, inputs: seq<RawEntry>, config: SpectrometerConfig, num: Numerics): (r: Snapshot)
    requires WellFormed(s) && AllRgbInputs(inputs)
    ensures WellFormed(r)
    decreases |inputs|
  {
    if inputs == [] then s else Run(Step(s, inputs[0], config, num), inputs[1..], config, num)
  }

  /** The forward loop over one channel: returns the biquad registers it ends with. */
  method ForwardPass(channel: array<real>, run: BiquadRun) returns (st: BiquadState)
    modifies channel
    ensures (st, channel[..]) == Pass(run, InitialBiquad, old(channel[..]))
  {
    ghost var xs := channel[..];
    var n := channel.Length;
    st := InitialBiquad;
    var i := 0;
    while i < n
      invariant 0 <= i <= n
      invariant st == Pass(run, InitialBiquad, xs[..i]).0
      invariant channel[..i] == Pass(run, InitialBiquad, xs[..i]).1
      invariant channel[i..] == xs[i..]
    {
      ghost var done := channel[..i];
      assert xs[..i + 1][..i] == xs[..i] && xs[..i + 1][i] == channel[i];
      var (st', y) := run(st, channel[i]);
      st := st';
      // The filter can make a value negative, so clamp to zero.
      channel[i] := Max(y, 0.0);
      assert channel[..i + 1] == done + [Max(y, 0.0)];
      i := i + 1;
    }
    assert xs[..n] == xs && channel[..n] == channel[..];
  }

  /** The backward loop: visits the samples from the last to the first. */
  method BackwardPass(channel: array<real>, run: BiquadRun, st0: BiquadState)
    modifies channel
    ensures channel[..] == PassBackward(run, st0, old(channel[..])).1
  {
    ghost var ys := channel[..];
    var n := channel.Length;
    var st := st0;
    var j := n;
    while j > 0
      invariant 0 <= j <= n
      invariant channel[..j] == ys[..j]
      invariant st == PassBackward(run, st0, ys[j..]).0
      invariant channel[j..] == PassBackward(run, st0, ys[j..]).1
    {
      ghost var done := channel[j..];
      assert ys[j - 1..][1..] == ys[j..] && ys[j - 1..][0] == channel[j - 1];
      var (st', y) := run(st, channel[j - 1]);
      st := st';
      channel[j - 1] := Max(y, 0.0);
      assert channel[j - 1..] == [Max(y, 0.0)] + done;
      j := j - 1;
    }
    assert ys[0..] == ys && channel[0..] == channel[..];
  }

  /** The two filter loops over one channel, rewriting its samples in place. */
  method FilterChannel(channel: array<real>, run: BiquadRun)
    modifies channel
    ensures channel[..] == ZeroPhase(run, old(channel[..]))
  {
    var st := ForwardPass(channel, run);
    // Run the filter in reverse to compensate the phase error.
    BackwardPass(channel, run, st);
  }

  /** The optional low-pass step: each of the 4 rows filtered with a fresh biquad. */
  method Filter(m: Matrix, post: PostprocessingConfig, num: Numerics) returns (r: Matrix)
    requires IsMatrix(m, 4, Cols(m))
    ensures r == Filtered(m, post, num)
  {
    if !post.spectrumFilterActive {
      return m;
    }
    var cutoff := Clamp(post.spectrumFilterCutoff, 0.001, 1.0);
    var run := num.lowPass(cutoff);
    r := [];
    var i := 0;
    while i < 4
      invariant 0 <= i <= 4
      invariant |r| == i && forall k :: 0 <= k < i ==> r[k] == ZeroPhase(run, m[k])
    {
      var channel := new real[|m[i]|](k requires 0 <= k < |m[i]| => m[i][k]);
      assert channel[..] == m[i];
      FilterChannel(channel, run);
      r := r + [channel[..]];
      i := i + 1;
    }
  }
}
