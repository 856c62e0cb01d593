/**
 * Properties of the `update_spectrum` pipeline and of `update`, its in-order
 * application to every queued input.
 */
module PipelineLemmas {
  import opened Wrappers
  import opened Matrix
  import opened Config
  import opened Pipeline

  function BufferSize(config: SpectrometerConfig): nat
  {
    config.postprocessingConfig.spectrumBufferSize
  }

  /** The buffer the new entry is pushed onto: emptied by a width change. */
  function Retained(s: Snapshot, cols: nat): seq<RawEntry>
  {
    if WidthChanged(s, cols) then [] else s.buffer
  }

  /** The entry that is buffered for an input: its data linearised if configured. */
  function Incoming(input: RawEntry, config: SpectrometerConfig, num: Numerics): RawEntry
    requires IsRgbSpectrum(input.data)
  {
    input.(data := Linearized(input.data, config.spectrumCalibration, num))
  }

  /**
   * Buffering: the buffer never exceeds the configured size, grows by exactly
   * one while below it, holds the new entry at the front and the retained
   * older entries behind it in their previous order.
   */
  lemma StepBuffer(s: Snapshot, input: RawEntry, config: SpectrometerConfig, num: Numerics)
    requires CanStep(s, input)
    ensures var r := Step(s, input, config, num);
      var kept := Retained(s, Cols(input.data));
      && |r.buffer| <= BufferSize(config)
      && |r.buffer| == (if |kept| < BufferSize(config) then |kept| + 1 else BufferSize(config))
      && (BufferSize(config) > 0 ==> r.buffer[0] == Incoming(input, config, num))
      && forall k :: 1 <= k < |r.buffer| ==> r.buffer[k] == kept[k - 1]
  {
  }

  /**
   * A width change clears the buffer and drops the zero reference before the
   * push; a zero reference of another width is dropped as well; otherwise the
   * zero reference is kept.
   */
  lemma StepWidthChange(s: Snapshot, input: RawEntry, config: SpectrometerConfig, num: Numerics)
    requires CanStep(s, input)
    ensures var r := Step(s, input, config, num);
      var cols := Cols(input.data);
      && (WidthChanged(s, cols) ==>
            r.zeroReference == None
            && (BufferSize(config) > 0 ==> r.buffer == [Incoming(input, config, num)]))
      && (StaleZeroReference(s, cols) ==> r.zeroReference == None)
      && (!WidthChanged(s, cols) && !StaleZeroReference(s, cols) ==> r.zeroReference == s.zeroReference)
  {
  }

  /**
   * What `set_zero_reference` stores on a new container, before any spectrum
   * arrived: the 4 x 0 initial spectrum. The source then keeps it for the
   * first input, whatever its width, and subtracts a 4 x 0 matrix from a
   * 4 x cols one.
   */
  lemma ZeroReferenceBeforeFirstSpectrum(input: RawEntry)
    requires IsRgbSpectrum(input.data) && Cols(input.data) > 0
    ensures var s := Empty().(zeroReference := Some(Empty().spectrum));
      && WellFormed(s)
      && AsWrittenZeroReference(s, Cols(input.data)) == Some(Zeros(4, 0))
      && Cols(AsWrittenZeroReference(s, Cols(input.data)).value) != Cols(input.data)
  {
    var s := Empty().(zeroReference := Some(Empty().spectrum));
    assert !WidthChanged(s, Cols(input.data));
  }

  /**
   * The corrected step keeps exactly the zero reference the source keeps
   * whenever the source's subtraction has matching shapes, so the two agree
   * on every input the source handles; in the state above it drops the
   * mismatched reference instead.
   */
  lemma StepAgreesWithSource(s: Snapshot, input: RawEntry)
    requires CanStep(s, input)
    ensures var cols := Cols(input.data);
      var src := AsWrittenZeroReference(s, cols);
      (src.None? || Cols(src.value) == cols) <==> KeptZeroReference(s, cols) == src
  {
    var cols := Cols(input.data);
    if WidthChanged(s, cols) {
    } else if s.zeroReference.Some? {
      assert StaleZeroReference(s, cols) <==> Cols(s.zeroReference.value) != cols;
    }
  }

  /** With linearisation off the input is buffered unchanged; otherwise every sample goes through the curve. */
  lemma LinearizedSpec(m: Matrix, cal: SpectrumCalibration, num: Numerics)
    requires IsRgbSpectrum(m)
    ensures cal.linearize == Off ==> Linearized(m, cal, num) == m
    ensures cal.linearize != Off ==>
      forall i, j :: 0 <= i < 3 && 0 <= j < Cols(m) ==>
        Linearized(m, cal, num)[i][j] == num.linearize(cal.linearize, m[i][j])
  {
  }

  /** Averaging: each entry of the mean is the entry summed over the buffer, divided by its length. */
  lemma MeanAt(buffer: seq<RawEntry>, cols: nat, c: nat, j: nat)
    requires AllRgb(buffer, cols) && c < 3 && j < cols
    ensures Mean(buffer, cols)[c][j]
      == if buffer == [] then 0.0 else EntrySum(Data(buffer), 3, cols, c, j) / |buffer| as real
  {
    if buffer != [] {
      SumAllAt(Data(buffer), 3, cols, c, j);
    }
  }

  /** Without the filter, row c < 3 is the buffer mean of channel c times the channel's gain. */
  lemma ProcessedChannel(buffer: seq<RawEntry>, cols: nat, config: SpectrometerConfig, num: Numerics, c: nat, j: nat)
    requires AllRgb(buffer, cols) && c < 3 && j < cols
    requires !config.postprocessingConfig.spectrumFilterActive
    ensures Processed(buffer, cols, config, num)[c][j]
      == (if buffer == [] then 0.0 else EntrySum(Data(buffer), 3, cols, c, j) / |buffer| as real)
         * Gain(config.spectrumCalibration, c)
  {
    var cal := config.spectrumCalibration;
    var m := Mean(buffer, cols);
    var g := Gained(m, cal);
    assert Processed(buffer, cols, config, num) == g + [SumRow(g, cal, num)];
    assert Processed(buffer, cols, config, num)[c] == g[c];
    MeanAt(buffer, cols, c, j);
  }

  /**
   * Without the filter, the Sum row is the column sum of the three gained rows
   * over 3, times the scaling factor of the column when a scaling vector is present.
   */
  lemma ProcessedSum(buffer: seq<RawEntry>, cols: nat, config: SpectrometerConfig, num: Numerics, j: nat)
    requires AllRgb(buffer, cols) && j < cols
    requires !config.postprocessingConfig.spectrumFilterActive
    ensures var p := Processed(buffer, cols, config, num);
      var cal := config.spectrumCalibration;
      p[3][j] == (if cal.scaling.Some?
                  then (p[0][j] + p[1][j] + p[2][j]) * num.scalingFactor(cal.scaling.value, j) / 3.0
                  else (p[0][j] + p[1][j] + p[2][j]) / 3.0)
  {
    var cal := config.spectrumCalibration;
    var g := Gained(Mean(buffer, cols), cal);
    var p := Processed(buffer, cols, config, num);
    assert p == g + [SumRow(g, cal, num)];
    assert p[3][j] == SumRow(g, cal, num)[j];
  }

  /** With the filter active every sample of every row is non-negative after both passes. */
  lemma ProcessedFilteredNonNegative(buffer: seq<RawEntry>, cols: nat, config: SpectrometerConfig, num: Numerics)
    requires AllRgb(buffer, cols)
    requires config.postprocessingConfig.spectrumFilterActive
    ensures forall i, j :: 0 <= i < 4 && 0 <= j < cols ==> Processed(buffer, cols, config, num)[i][j] >= 0.0
  {
  }

  /**
   * The new spectrum is computed from the new buffer alone (it replaces the
   * old one wholesale), minus the zero reference if one is kept, unclamped.
   */
  lemma StepSpectrum(s: Snapshot, input: RawEntry, config: SpectrometerConfig, num: Numerics)
    requires CanStep(s, input)
    ensures var r := Step(s, input, config, num);
      var cols := Cols(input.data);
      forall i, j :: 0 <= i < 4 && 0 <= j < cols ==>
        r.spectrum[i][j] == Processed(r.buffer, cols, config, num)[i][j]
                            - (if r.zeroReference.Some? then r.zeroReference.value[i][j] else 0.0)
  {
  }

  /** After any sequence of updates the buffer holds at most the configured number of entries. */
  lemma {:induction false} RunBufferBounded(s: Snapshot, inputs: seq<RawEntry>, config: SpectrometerConfig, num: Numerics)
    requires WellFormed(s) && AllRgbInputs(inputs)
    requires inputs != [] || |s.buffer| <= BufferSize(config)
    ensures |Run(s, inputs, config, num).buffer| <= BufferSize(config)
    decreases |inputs|
  {
    if inputs != [] {
      StepBuffer(s, inputs[0], config, num);
      RunBufferBounded(Step(s, inputs[0], config, num), inputs[1..], config, num);
    }
  }

  /**
   * Inputs of one width fill the buffer one entry per update until it holds
   * the configured number of entries.
   */
  lemma {:induction false} RunFillsBuffer(s: Snapshot, inputs: seq<RawEntry>, cols: nat, config: SpectrometerConfig, num: Numerics)
    requires WellFormed(s) && AllRgbInputs(inputs)
    requires forall k :: 0 <= k < |inputs| ==> Cols(inputs[k].data) == cols
    requires s.buffer == [] || Cols(s.spectrum) == cols
    requires |s.buffer| <= BufferSize(config)
    ensures |Run(s, inputs, config, num).buffer|
      == if |s.buffer| + |inputs| <= BufferSize(config) then |s.buffer| + |inputs| else BufferSize(config)
    decreases |inputs|
  {
    if inputs != [] {
      var x := inputs[0];
      StepBuffer(s, x, config, num);
      assert !WidthChanged(s, cols) by {
        if s.buffer != [] {
          assert IsMatrix(s.buffer[0].data, 3, Cols(s.spectrum));
        }
      }
      RunFillsBuffer(Step(s, x, config, num), inputs[1..], cols, config, num);
    }
  }

  /** After a non-empty sequence of updates the newest input is at the front of the buffer. */
  lemma {:induction false} RunNewestFirst(s: Snapshot, inputs: seq<RawEntry>, config: SpectrometerConfig, num: Numerics)
    requires WellFormed(s) && AllRgbInputs(inputs)
    requires inputs != [] && BufferSize(config) > 0
    ensures var r := Run(s, inputs, config, num);
      r.buffer != [] && r.buffer[0] == Incoming(inputs[|inputs| - 1], config, num)
    decreases |inputs|
  {
    StepBuffer(s, inputs[0], config, num);
    if |inputs| > 1 {
      RunNewestFirst(Step(s, inputs[0], config, num), inputs[1..], config, num);
    }
  }
}
