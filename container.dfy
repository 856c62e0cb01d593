/**
 * `SpectrumContainer`: the buffered, post-processed spectrum, its zero
 * reference, and the queries the GUI and the feed server make of it.
 *
 * The container's state-changing operations are methods of the class; its
 * read-only queries are functions of the state snapshot (`Pipeline.Snapshot`),
 * so that lemmas can speak about the state after any sequence of updates.
 */
module Container {
  import opened Wrappers
  import opened Matrix
  import opened Config
  import opened Pipeline
  import opened PipelineLemmas
  import opened PeaksDips

  /** One column of the spectrum with its wavelength, as written to CSV. */
  datatype SpectrumExportPoint = SpectrumExportPoint(wavelength: real, r: real, g: real, b: real, sum: real)

  /** The JSON document: the time span of the buffered frames and the Sum channel. */
  datatype SpectrumJson = SpectrumJson(start: Timestamp, end: Timestamp, spectrum: seq<SpectrumPoint>)

  /**
   * Why a reference calibration cannot be committed: a wavelength has no
   * reference value (the source panics on `unwrap`), or a Sum sample is zero
   * (the source stores a non-finite factor).
   */
  datatype CalibrationError = MissingReference | NonFiniteFactor

  /** The channel (0 R, 1 G, 2 B, 3 Sum) of an export point. */
  function Field(p: SpectrumExportPoint, channel: nat): real
  {
    if channel == 0 then p.r else if channel == 1 then p.g else if channel == 2 then p.b else p.sum
  }

  lemma WavelengthsIncreasing(cal: SpectrumCalibration)
    requires IsOrdered(cal)
    ensures cal.low.wavelength < cal.high.wavelength ==>
      forall i: nat, j: nat :: i < j ==> WavelengthFromIndex(cal, i) < WavelengthFromIndex(cal, j)
  {
    if cal.low.wavelength < cal.high.wavelength {
      forall i: nat, j: nat | i < j ensures WavelengthFromIndex(cal, i) < WavelengthFromIndex(cal, j) {
        WavelengthStrictlyIncreasing(cal, i, j);
      }
    }
  }

  /** `get_spectrum_channel`: one row of the spectrum against wavelength. */
  function SpectrumChannel(s: Snapshot, channel: nat, cal: SpectrumCalibration): (r: seq<SpectrumPoint>)
    requires WellFormed(s) && channel < 4 && IsOrdered(cal)
    ensures |r| == Cols(s.spectrum)
    ensures forall i :: 0 <= i < |r| ==> r[i].value == s.spectrum[channel][i]
    ensures forall i :: 0 <= i < |r| ==> r[i].wavelength == WavelengthFromIndex(cal, i)
    ensures cal.low.wavelength < cal.high.wavelength ==>
      forall i, j :: 0 <= i < j < |r| ==> r[i].wavelength < r[j].wavelength
    ensures cal.low.index < |r| ==> r[cal.low.index].wavelength == cal.low.wavelength as real
    ensures cal.high.index < |r| ==> r[cal.high.index].wavelength == cal.high.wavelength as real
  {
    var r := seq(Cols(s.spectrum), i requires 0 <= i < Cols(s.spectrum) =>
      SpectrumPoint(WavelengthFromIndex(cal, i), s.spectrum[channel][i]));
    WavelengthAtCalibrationPoints(cal);
    WavelengthsIncreasing(cal);
    r
  }

  /** `spectrum_to_point_vec`: every column with its wavelength and its four channels. */
  function SpectrumToPointVec(s: Snapshot, cal: SpectrumCalibration): (r: seq<SpectrumExportPoint>)
    requires WellFormed(s) && IsOrdered(cal)
    ensures |r| == Cols(s.spectrum)
    ensures forall c, i :: 0 <= c < 4 && 0 <= i < |r| ==>
      r[i].wavelength == SpectrumChannel(s, c, cal)[i].wavelength
      && Field(r[i], c) == SpectrumChannel(s, c, cal)[i].value
  {
    seq(Cols(s.spectrum), i requires 0 <= i < Cols(s.spectrum) =>
      SpectrumExportPoint(WavelengthFromIndex(cal, i),
        s.spectrum[0][i], s.spectrum[1][i], s.spectrum[2][i], s.spectrum[3][i]))
  }

  /**
   * `to_json_with_timestamps`: fails with the source's message on an empty
   * buffer; otherwise spans from the start of the oldest buffered frame to
   * the end of the newest and carries the Sum channel.
   */
  function ToJsonWithTimestamps(s: Snapshot, cal: SpectrumCalibration): (r: Result<SpectrumJson, string>)
    requires WellFormed(s) && IsOrdered(cal)
    ensures r.Failure? <==> s.buffer == []
    ensures r.Failure? ==> r.error == "No spectrum data available"
    ensures r.Success? ==>
      && r.value.start == s.buffer[|s.buffer| - 1].start
      && r.value.end == s.buffer[0].end
      && r.value.spectrum == SpectrumChannel(s, 3, cal)
  {
    if s.buffer == [] then Failure("No spectrum data available")
    else
      var start := s.buffer[|s.buffer| - 1].start;
      var end := s.buffer[0].end;
      var points := SpectrumToPointVec(s, cal);
      Success(SpectrumJson(start, end,
        seq(|points|, i requires 0 <= i < |points| => SpectrumPoint(points[i].wavelength, points[i].sum))))
  }

  /** `get_spectrum_max_value`: the largest value over all four rows; None for an empty spectrum. */
  function GetSpectrumMaxValue(s: Snapshot): (r: Option<real>)
    requires WellFormed(s)
    ensures r.None? <==> Cols(s.spectrum) == 0
    ensures r.Some? ==> forall c, j :: 0 <= c < 4 && 0 <= j < Cols(s.spectrum) ==> s.spectrum[c][j] <= r.value
    ensures r.Some? ==> exists c, j :: 0 <= c < 4 && 0 <= j < Cols(s.spectrum) && s.spectrum[c][j] == r.value
  {
    assert Cols(s.spectrum) > 0 ==> s.spectrum[0] != [];
    MaxEntry(s.spectrum)
  }

  function HasZeroReference(s: Snapshot): bool
  {
    s.zeroReference.Some?
  }

  /**
   * `set_calibration`: the scaling vector that maps the current Sum channel
   * onto the reference spectrum, one factor per column, all other settings
   * unchanged. `lookup` is the reference's value at a wavelength.
   */
  function SetCalibration(s: Snapshot, cal: SpectrumCalibration, lookup: real -> Option<real>): (r: Result<SpectrumCalibration, CalibrationError>)
    requires WellFormed(s) && IsOrdered(cal)
    ensures r == Failure(MissingReference) <==>
      exists i :: 0 <= i < Cols(s.spectrum) && lookup(WavelengthFromIndex(cal, i)).None?
    ensures r == Failure(NonFiniteFactor) <==>
      (forall i :: 0 <= i < Cols(s.spectrum) ==> lookup(WavelengthFromIndex(cal, i)).Some?)
      && exists i :: 0 <= i < Cols(s.spectrum) && s.spectrum[3][i] == 0.0
    ensures r.Success? ==>
      && r.value == cal.(scaling := r.value.scaling)
      && r.value.scaling.Some? && |r.value.scaling.value| == Cols(s.spectrum)
      && forall i :: 0 <= i < Cols(s.spectrum) ==>
           r.value.scaling.value[i] * s.spectrum[3][i] == lookup(WavelengthFromIndex(cal, i)).value
  {
    var n := Cols(s.spectrum);
    if exists i :: 0 <= i < n && lookup(WavelengthFromIndex(cal, i)).None? then Failure(MissingReference)
    else if exists i :: 0 <= i < n && s.spectrum[3][i] == 0.0 then Failure(NonFiniteFactor)
    else
      Success(cal.(scaling := Some(seq(n, i requires 0 <= i < n =>
        lookup(WavelengthFromIndex(cal, i)).value / s.spectrum[3][i]))))
  }

  /** What `update` publishes for one state: its JSON document, if it serialises. */
  function Message(s: Snapshot, cal: SpectrumCalibration): (r: seq<SpectrumJson>)
    requires WellFormed(s) && IsOrdered(cal)
    ensures |r| <= 1 && (r == [] <==> s.buffer == [])
  {
    var json := ToJsonWithTimestamps(s, cal);
    if json.Success? then [json.value] else []
  }

  /** The JSON documents `update` publishes: one after each input whose state serialises. */
  function Published(s: Snapshot, inputs: seq<RawEntry>, config: SpectrometerConfig, num: Numerics): (r: seq<SpectrumJson>)
    requires WellFormed(s) && AllRgbInputs(inputs) && IsOrdered(config.spectrumCalibration)
    ensures |r| <= |inputs|
    decreases |inputs|
  {
    if inputs == [] then []
    else
      var next := Step(s, inputs[0], config, num);
      Message(next, config.spectrumCalibration) + Published(next, inputs[1..], config, num)
  }

  lemma RunUnfold(s: Snapshot, inputs: seq<RawEntry>, i: nat, config: SpectrometerConfig, num: Numerics)
    requires WellFormed(s) && AllRgbInputs(inputs) && i < |inputs|
    ensures AllRgbInputs(inputs[i..]) && AllRgbInputs(inputs[i + 1..])
    ensures Run(s, inputs[i..], config, num) == Run(Step(s, inputs[i], config, num), inputs[i + 1..], config, num)
  {
    assert inputs[i..][0] == inputs[i] && inputs[i..][1..] == inputs[i + 1..];
  }

  lemma PublishedUnfold(s: Snapshot, inputs: seq<RawEntry>, i: nat, config: SpectrometerConfig, num: Numerics)
    requires WellFormed(s) && AllRgbInputs(inputs) && IsOrdered(config.spectrumCalibration) && i < |inputs|
    ensures AllRgbInputs(inputs[i..]) && AllRgbInputs(inputs[i + 1..])
    ensures var next := Step(s, inputs[i], config, num);
      Published(s, inputs[i..], config, num)
      == Message(next, config.spectrumCalibration) + Published(next, inputs[i + 1..], config, num)
  {
    assert inputs[i..][0] == inputs[i] && inputs[i..][1..] == inputs[i + 1..];
  }

  /** The loop invariant of `update` holds again after one more input is applied and published. */
  lemma UpdateLoopStep(s0: Snapshot, inputs: seq<RawEntry>, i: nat, config: SpectrometerConfig, num: Numerics,
                       before: Snapshot, sentBefore: seq<SpectrumJson>)
    requires WellFormed(s0) && WellFormed(before) && AllRgbInputs(inputs) && IsOrdered(config.spectrumCalibration)
    requires i < |inputs|
    requires Run(before, inputs[i..], config, num) == Run(s0, inputs, config, num)
    requires sentBefore + Published(before, inputs[i..], config, num) == Published(s0, inputs, config, num)
    ensures AllRgbInputs(inputs[i + 1..]) && CanStep(before, inputs[i])
    ensures var after := Step(before, inputs[i], config, num);
      && Run(after, inputs[i + 1..], config, num) == Run(s0, inputs, config, num)
      && sentBefore + Message(after, config.spectrumCalibration) + Published(after, inputs[i + 1..], config, num)
         == Published(s0, inputs, config, num)
  {
    RunUnfold(before, inputs, i, config, num);
    PublishedUnfold(before, inputs, i, config, num);
    var after := Step(before, inputs[i], config, num);
    var msg := Message(after, config.spectrumCalibration);
    var rest := Published(after, inputs[i + 1..], config, num);
    ConcatAssociates(sentBefore, msg, rest);
  }

  lemma ConcatAssociates<T>(a: seq<T>, b: seq<T>, c: seq<T>)
    ensures a + b + c == a + (b + c)
  {
  }

  /**
   * With a buffer of at least one entry, `update` publishes one document per
   * input, and each ends where the frame of its input ended.
   */
  lemma {:induction false} PublishedEnds(s: Snapshot, inputs: seq<RawEntry>, config: SpectrometerConfig, num: Numerics)
    requires WellFormed(s) && AllRgbInputs(inputs) && IsOrdered(config.spectrumCalibration)
    requires BufferSize(config) > 0
    ensures var out := Published(s, inputs, config, num);
      |out| == |inputs| && forall k :: 0 <= k < |inputs| ==> out[k].end == inputs[k].end
    decreases |inputs|
  {
    if inputs != [] {
      var next := Step(s, inputs[0], config, num);
      StepMessage(s, inputs[0], config, num);
      assert AllRgbInputs(inputs[1..]);
      PublishedEnds(next, inputs[1..], config, num);
      var rest := Published(next, inputs[1..], config, num);
      var out := Published(s, inputs, config, num);
      var m := Message(next, config.spectrumCalibration);
      assert out == m + rest;
      forall k | 0 <= k < |inputs| ensures out[k].end == inputs[k].end {
        if k == 0 {
          assert out[0] == m[0];
        } else {
          assert out[k] == rest[k - 1] && inputs[k] == inputs[1..][k - 1];
        }
      }
    }
  }

  /** With a buffer to fill, every input yields exactly one document, ending where that input's frame ended. */
  lemma StepMessage(s: Snapshot, input: RawEntry, config: SpectrometerConfig, num: Numerics)
    requires CanStep(s, input) && IsOrdered(config.spectrumCalibration) && BufferSize(config) > 0
    ensures var m := Message(Step(s, input, config, num), config.spectrumCalibration);
      |m| == 1 && m[0].end == input.end
  {
    StepBuffer(s, input, config, num);
  }

  /** With a buffer size of zero nothing is ever buffered, so every document fails and none is published. */
  lemma {:induction false} NothingPublishedWithoutBuffer(s: Snapshot, inputs: seq<RawEntry>, config: SpectrometerConfig, num: Numerics)
    requires WellFormed(s) && AllRgbInputs(inputs) && IsOrdered(config.spectrumCalibration)
    requires BufferSize(config) == 0
    ensures Published(s, inputs, config, num) == []
    decreases |inputs|
  {
    if inputs != [] {
      StepBuffer(s, inputs[0], config, num);
      assert AllRgbInputs(inputs[1..]);
      NothingPublishedWithoutBuffer(Step(s, inputs[0], config, num), inputs[1..], config, num);
    }
  }

  /**
   * The point of a reference calibration: the same frames, processed again
   * with the committed scaling vector, give the reference value in every
   * column (without the filter and from an unscaled calibration, and with a
   * scaling lookup that returns the stored factor of an in-range index).
   */
  lemma CalibrationMatchesReference(buffer: seq<RawEntry>, cols: nat, config: SpectrometerConfig, num: Numerics,
                                    lookup: real -> Option<real>, j: nat)
    requires AllRgb(buffer, cols) && j < cols && IsOrdered(config.spectrumCalibration)
    requires config.spectrumCalibration.scaling.None? && !config.postprocessingConfig.spectrumFilterActive
    requires forall v: seq<real>, k: nat :: k < |v| ==> num.scalingFactor(v, k) == v[k]
    requires SetCalibration(Snapshot(Processed(buffer, cols, config, num), buffer, None),
                            config.spectrumCalibration, lookup).Success?
    ensures var cal := config.spectrumCalibration;
      var s := Snapshot(Processed(buffer, cols, config, num), buffer, None);
      var scaled := config.(spectrumCalibration := SetCalibration(s, cal, lookup).value);
      Processed(buffer, cols, scaled, num)[3][j] == lookup(WavelengthFromIndex(cal, j)).value
  {
    var cal := config.spectrumCalibration;
    var s := Snapshot(Processed(buffer, cols, config, num), buffer, None);
    var cal' := SetCalibration(s, cal, lookup).value;
    FactorAt(s, cal, lookup, j);
    var f := cal'.scaling.value;
    assert cal' == cal.(scaling := Some(f));
    ScaledToReference(buffer, cols, config, num, f, j, lookup(WavelengthFromIndex(cal, j)).value);
  }

  /** A committed factor is the reference value divided by the (non-zero) Sum sample it was computed from. */
  lemma FactorAt(s: Snapshot, cal: SpectrumCalibration, lookup: real -> Option<real>, j: nat)
    requires WellFormed(s) && IsOrdered(cal) && j < Cols(s.spectrum)
    requires SetCalibration(s, cal, lookup).Success?
    ensures var r := SetCalibration(s, cal, lookup).value;
      && r == cal.(scaling := r.scaling) && r.scaling.Some? && j < |r.scaling.value|
      && s.spectrum[3][j] != 0.0
      && r.scaling.value[j] == lookup(WavelengthFromIndex(cal, j)).value / s.spectrum[3][j]
  {
  }

  /** Adding a scaling vector to an unscaled, unfiltered configuration multiplies each Sum sample by its factor. */
  lemma ScaledSumRow(buffer: seq<RawEntry>, cols: nat, config: SpectrometerConfig, num: Numerics, f: seq<real>, j: nat)
    requires AllRgb(buffer, cols) && j < cols
    requires config.spectrumCalibration.scaling.None? && !config.postprocessingConfig.spectrumFilterActive
    requires j < |f| && num.scalingFactor(f, j) == f[j]
    ensures var scaled := config.(spectrumCalibration := config.spectrumCalibration.(scaling := Some(f)));
      Processed(buffer, cols, scaled, num)[3][j] == f[j] * Processed(buffer, cols, config, num)[3][j]
  {
    var cal := config.spectrumCalibration;
    var scaled := config.(spectrumCalibration := cal.(scaling := Some(f)));
    var p, p' := Processed(buffer, cols, config, num), Processed(buffer, cols, scaled, num);
    forall c | 0 <= c < 3
      ensures p'[c][j] == p[c][j]
    {
      ProcessedChannel(buffer, cols, config, num, c, j);
      ProcessedChannel(buffer, cols, scaled, num, c, j);
    }
    ProcessedSum(buffer, cols, config, num, j);
    ProcessedSum(buffer, cols, scaled, num, j);
    var sum := p[0][j] + p[1][j] + p[2][j];
    assert p'[0][j] + p'[1][j] + p'[2][j] == sum;
    ScaledSum(sum, f[j]);
  }

  /** A factor that maps the unscaled Sum sample to the reference makes the rescaled Sum sample the reference. */
  lemma ScaledToReference(buffer: seq<RawEntry>, cols: nat, config: SpectrometerConfig, num: Numerics,
                          f: seq<real>, j: nat, ref: real)
    requires AllRgb(buffer, cols) && j < cols
    requires config.spectrumCalibration.scaling.None? && !config.postprocessingConfig.spectrumFilterActive
    requires j < |f| && num.scalingFactor(f, j) == f[j]
    requires Processed(buffer, cols, config, num)[3][j] != 0.0
    requires f[j] == ref / Processed(buffer, cols, config, num)[3][j]
    ensures var scaled := config.(spectrumCalibration := config.spectrumCalibration.(scaling := Some(f)));
      Processed(buffer, cols, scaled, num)[3][j] == ref
  {
    ScaledSumRow(buffer, cols, config, num, f, j);
    var x := Processed(buffer, cols, config, num)[3][j];
    assert f[j] * x == ref;
  }

  lemma ScaledSum(sum: real, factor: real)
    ensures sum * factor / 3.0 == factor * (sum / 3.0)
  {
  }

  /**
   * A new container fed one uniform raw spectrum of value v under the default
   * calibration and post-processing reports v as its largest value.
   */
  lemma DefaultConfigMaxValue(input: RawEntry, v: real, config: SpectrometerConfig, num: Numerics)
    requires IsRgbSpectrum(input.data) && Cols(input.data) > 0
    requires forall c, j :: 0 <= c < 3 && 0 <= j < Cols(input.data) ==> input.data[c][j] == v
    requires config.spectrumCalibration == DefaultCalibration()
    requires config.postprocessingConfig == DefaultPostprocessing()
    ensures CanStep(Empty(), input)
    ensures GetSpectrumMaxValue(Step(Empty(), input, config, num)) == Some(v)
  {
    var cols := Cols(input.data);
    var r := Step(Empty(), input, config, num);
    StepBuffer(Empty(), input, config, num);
    assert r.buffer == [input];
    forall i, j | 0 <= i < 4 && 0 <= j < cols
      ensures r.spectrum[i][j] == v
    {
      forall c | 0 <= c < 3
        ensures r.spectrum[c][j] == v
      {
        ProcessedChannel(r.buffer, cols, config, num, c, j);
        assert EntrySum(Data(r.buffer), 3, cols, c, j) == v;
      }
      ProcessedSum(r.buffer, cols, config, num, j);
    }
    assert r.spectrum[0][0] == v;
  }

  class SpectrumContainer {
    var spectrum: Matrix
    var spectrumBuffer: seq<RawEntry>
    var zeroReference: Option<Matrix>

    function State(): Snapshot
      reads this
    {
      Snapshot(spectrum, spectrumBuffer, zeroReference)
    }

    predicate Valid()
      reads this
    {
      WellFormed(State())
    }

    /** An empty 4 x 0 spectrum, an empty buffer and no zero reference. */
    constructor ()
      ensures State() == Empty() && Valid()
    {
      spectrum := Zeros(4, 0);
      spectrumBuffer := [];
      zeroReference := None;
    }

    method ClearBuffer()
      requires Valid()
      modifies this
      ensures State() == old(State()).(buffer := []) && Valid()
    {
      spectrumBuffer := [];
    }

    /** Remembers the current spectrum; later spectra are reported relative to it. */
    method SetZeroReference()
      requires Valid()
      modifies this
      ensures State() == old(State()).(zeroReference := Some(old(spectrum))) && Valid()
      ensures HasZeroReference(State())
    {
      zeroReference := Some(spectrum);
    }

    method ClearZeroReference()
      requires Valid()
      modifies this
      ensures State() == old(State()).(zeroReference := None) && Valid()
      ensures !HasZeroReference(State())
    {
      zeroReference := None;
    }

    /**
     * `update_spectrum`: reset on a width change, linearise, buffer, average,
     * apply gains, append the Sum row, filter and subtract the zero reference.
     */
    method UpdateSpectrum(timedSpectrum: RawEntry, config: SpectrometerConfig, num: Numerics)
      requires CanStep(State(), timedSpectrum)
      modifies this
      ensures State() == Step(old(State()), timedSpectrum, config, num) && Valid()
    {
      ghost var s0 := State();
      var ncols := Cols(timedSpectrum.data);
      var cal := config.spectrumCalibration;
      if spectrumBuffer != [] && Cols(spectrumBuffer[0].data) != ncols {
        spectrumBuffer := [];
        zeroReference := None;
      }
      // A zero reference of another width could not be subtracted.
      if zeroReference.Some? && Cols(zeroReference.value) != ncols {
        zeroReference := None;
      }
      assert zeroReference == KeptZeroReference(s0, ncols);
      var entry := timedSpectrum;
      if cal.linearize != Off {
        entry := entry.(data := Linearized(entry.data, cal, num));
      }
      spectrumBuffer := PushFront(spectrumBuffer, entry, config.postprocessingConfig.spectrumBufferSize);
      ghost var next := Step(s0, timedSpectrum, config, num);
      assert spectrumBuffer == next.buffer && zeroReference == next.zeroReference;
      var combined := Mean(spectrumBuffer, ncols);
      combined := Gained(combined, cal);
      var current := WithSumRow(combined, cal, num);
      current := Filter(current, config.postprocessingConfig, num);
      assert current == Processed(spectrumBuffer, ncols, config, num);
      if zeroReference.Some? {
        current := Sub(current, zeroReference.value, 4, ncols);
      }
      spectrum := current;
    }

    /**
     * `update`: every queued spectrum in arrival order, publishing the JSON
     * document after each one that serialises.
     */
    method Update(inputs: seq<RawEntry>, config: SpectrometerConfig, num: Numerics) returns (sent: seq<SpectrumJson>)
      requires Valid() && AllRgbInputs(inputs) && IsOrdered(config.spectrumCalibration)
      modifies this
      ensures State() == Run(old(State()), inputs, config, num) && Valid()
      ensures sent == Published(old(State()), inputs, config, num)
    {
      sent := [];
      ghost var s0 := State();
      var i := 0;
      assert inputs[0..] == inputs;
      while i < |inputs|
        invariant 0 <= i <= |inputs| && Valid()
        invariant Run(State(), inputs[i..], config, num) == Run(s0, inputs, config, num)
        invariant sent + Published(State(), inputs[i..], config, num) == Published(s0, inputs, config, num)
      {
        UpdateLoopStep(s0, inputs, i, config, num, State(), sent);
        UpdateSpectrum(inputs[i], config, num);
        var msg := Publish(config.spectrumCalibration);
        sent := sent + msg;
        i := i + 1;
      }
      assert inputs[i..] == [];
    }

    /** The JSON document sent after an update; a state that does not serialise is only logged. */
    method Publish(cal: SpectrumCalibration) returns (msg: seq<SpectrumJson>)
      requires Valid() && IsOrdered(cal)
      ensures msg == Message(State(), cal)
    {
      match ToJsonWithTimestamps(State(), cal)
      case Success(json) =>
        msg := [json];
      case Failure(_) =>
        msg := [];
    }

    /** `spectrum_to_peaks_and_dips` on the Sum row with the view settings. */
    method SpectrumToPeaksAndDips(peaks: bool, config: SpectrometerConfig) returns (r: seq<SpectrumPoint>)
      requires Valid() && IsOrdered(config.spectrumCalibration)
      requires config.viewConfig.peaksDipsUniqueWindow > 0.0
      ensures r == PeaksAndDips(spectrum[3], config.viewConfig.peaksDipsFindWindow,
        config.viewConfig.peaksDipsUniqueWindow, peaks, config.spectrumCalibration)
    {
      var cands := FindCandidates(spectrum[3], config.viewConfig.peaksDipsFindWindow, peaks, config.spectrumCalibration);
      r := Dedupe(cands, config.viewConfig.peaksDipsUniqueWindow, peaks);
    }
  }
}
