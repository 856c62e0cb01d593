/**
 * The configuration records read by the spectrum pipeline (src/config.rs):
 * the two-point wavelength calibration and its affine index-to-wavelength map,
 * post-processing settings, the camera window, and their defaults.
 */
module Config {
  import opened Wrappers

  datatype Vec2 = Vec2(x: real, y: real)

  /** The cropped rectangle of the camera frame that holds the spectral line. */
  datatype SpectrumWindow = SpectrumWindow(offset: Vec2, size: Vec2)

  datatype CameraControl = CameraControl(id: nat, name: string, value: int)

  datatype ImageConfig = ImageConfig(controls: seq<CameraControl>, window: SpectrumWindow, flip: bool)

  /** A wavelength (nm) with an intensity. */
  datatype SpectrumPoint = SpectrumPoint(wavelength: real, value: real)

  /** A known wavelength (nm, u32) observed at a pixel column (usize). */
  datatype CalibrationPoint = CalibrationPoint(wavelength: nat, index: nat)

  /** Gamma-decoding curve applied to raw samples before buffering. */
  datatype Linearize = Off | Rec601 | Rec709 | SRgb

  /**
   * The calibration: the two anchor points, per-channel gains, the
   * linearisation mode and the optional per-column scaling vector
   * committed by a reference calibration.
   */
  datatype SpectrumCalibration = SpectrumCalibration(
    low: CalibrationPoint,
    high: CalibrationPoint,
    linearize: Linearize,
    gainR: real,
    gainG: real,
    gainB: real,
    scaling: Option<seq<real>>)

  datatype PostprocessingConfig = PostprocessingConfig(
    spectrumBufferSize: nat,
    spectrumFilterActive: bool,
    spectrumFilterCutoff: real)

  /** The two peak/dip settings of the view configuration read by the container. */
  datatype ViewConfig = ViewConfig(peaksDipsFindWindow: nat, peaksDipsUniqueWindow: real)

  datatype SpectrometerConfig = SpectrometerConfig(
    imageConfig: ImageConfig,
    spectrumCalibration: SpectrumCalibration,
    postprocessingConfig: PostprocessingConfig,
    viewConfig: ViewConfig)

  /**
   * What the delta computation needs: the unsigned subtraction of the
   * wavelengths must not underflow and the index difference must not be zero.
   */
  predicate IsOrdered(cal: SpectrumCalibration)
  {
    cal.low.wavelength <= cal.high.wavelength && cal.low.index < cal.high.index
  }

  /** Nanometres per pixel column: the slope of the line through the two anchors. */
  function WavelengthDelta(cal: SpectrumCalibration): (d: real)
    requires IsOrdered(cal)
    ensures d >= 0.0
    ensures d * (cal.high.index - cal.low.index) as real == (cal.high.wavelength - cal.low.wavelength) as real
  {
    (cal.high.wavelength - cal.low.wavelength) as real / (cal.high.index - cal.low.index) as real
  }

  function WavelengthFromIndex(cal: SpectrumCalibration, index: nat): real
    requires IsOrdered(cal)
  {
    cal.low.wavelength as real + (index as real - cal.low.index as real) * WavelengthDelta(cal)
  }

  /** The map passes through both anchor points. */
  lemma WavelengthAtCalibrationPoints(cal: SpectrumCalibration)
    requires IsOrdered(cal)
    ensures WavelengthFromIndex(cal, cal.low.index) == cal.low.wavelength as real
    ensures WavelengthFromIndex(cal, cal.high.index) == cal.high.wavelength as real
  {
    var d := WavelengthDelta(cal);
    assert (cal.high.index as real - cal.low.index as real) * d
      == (cal.high.wavelength - cal.low.wavelength) as real;
  }

  /**
   * The map is the straight line through the two anchors, also outside them
   * (no clamping): (hi.index - lo.index) * w(i)
   *   == (hi.index - i) * lo.wavelength + (i - lo.index) * hi.wavelength.
   */
  lemma WavelengthIsLinearInterpolation(cal: SpectrumCalibration, index: nat)
    requires IsOrdered(cal)
    ensures var span := (cal.high.index - cal.low.index) as real;
      span * WavelengthFromIndex(cal, index)
      == (cal.high.index as real - index as real) * cal.low.wavelength as real
       + (index as real - cal.low.index as real) * cal.high.wavelength as real
  {
    var span := (cal.high.index - cal.low.index) as real;
    var d := WavelengthDelta(cal);
    var lw, hw := cal.low.wavelength as real, cal.high.wavelength as real;
    var x := index as real - cal.low.index as real;
    calc {
      span * WavelengthFromIndex(cal, index);
      span * (lw + x * d);
      span * lw + x * (d * span);
      { assert d * span == hw - lw; }
      span * lw + x * (hw - lw);
      (cal.high.index as real - index as real) * lw + x * hw;
    }
  }

  /** Consecutive columns are exactly one delta apart. */
  lemma WavelengthStep(cal: SpectrumCalibration, index: nat)
    requires IsOrdered(cal)
    ensures WavelengthFromIndex(cal, index + 1) == WavelengthFromIndex(cal, index) + WavelengthDelta(cal)
  {
  }

  /** With distinct anchor wavelengths the map is strictly increasing. */
  lemma WavelengthStrictlyIncreasing(cal: SpectrumCalibration, i: nat, j: nat)
    requires IsOrdered(cal) && cal.low.wavelength < cal.high.wavelength
    requires i < j
    ensures WavelengthFromIndex(cal, i) < WavelengthFromIndex(cal, j)
  {
    var d := WavelengthDelta(cal);
    assert d > 0.0;
    assert (j as real - cal.low.index as real) * d - (i as real - cal.low.index as real) * d
      == (j - i) as real * d;
  }

  /** The calibration 436 nm @ 50 and 546 nm @ 100 of the unit test. */
  function ExampleCalibration(): SpectrumCalibration
  {
    SpectrumCalibration(CalibrationPoint(436, 50), CalibrationPoint(546, 100), Off, 1.0, 1.0, 1.0, None)
  }

  lemma ExampleCalibrationValues()
    ensures IsOrdered(ExampleCalibration())
    ensures WavelengthDelta(ExampleCalibration()) == 2.2
    ensures WavelengthFromIndex(ExampleCalibration(), 49) == 433.8
    ensures WavelengthFromIndex(ExampleCalibration(), 50) == 436.0
    ensures WavelengthFromIndex(ExampleCalibration(), 51) == 438.2
    ensures WavelengthFromIndex(ExampleCalibration(), 100) == 546.0
    ensures WavelengthFromIndex(ExampleCalibration(), 101) == 548.2
  {
  }

  /**
   * Default calibration: 436 nm at column 261 and 546 nm at column 486.
   * Linearisation off, unit gains and no scaling are the values the
   * container's default-configuration test depends on.
   */
  function DefaultCalibration(): (c: SpectrumCalibration)
    ensures c.low == CalibrationPoint(436, 261) && c.high == CalibrationPoint(546, 486)
    ensures c.linearize == Off && c.gainR == 1.0 && c.gainG == 1.0 && c.gainB == 1.0 && c.scaling.None?
    ensures IsOrdered(c) && c.low.wavelength < c.high.wavelength
  {
    SpectrumCalibration(CalibrationPoint(436, 261), CalibrationPoint(546, 486), Off, 1.0, 1.0, 1.0, None)
  }

  /** Default post-processing: average 10 frames, filter off, cutoff 0.5. */
  function DefaultPostprocessing(): (p: PostprocessingConfig)
    ensures p.spectrumBufferSize == 10 && !p.spectrumFilterActive && p.spectrumFilterCutoff == 0.5
    ensures 1 <= p.spectrumBufferSize <= 100
    ensures 0.001 <= p.spectrumFilterCutoff <= 1.0
  {
    PostprocessingConfig(10, false, 0.5)
  }

  /** Default camera window: a 1500 x 1 strip at (100, 500), horizontally flipped. */
  function DefaultImageConfig(): (c: ImageConfig)
    ensures c.window == SpectrumWindow(Vec2(100.0, 500.0), Vec2(1500.0, 1.0)) && c.flip && c.controls == []
    ensures c.window.offset.x + c.window.size.x <= 1920.0
    ensures c.window.offset.y + c.window.size.y <= 1080.0
    ensures c.window.size.y == 1.0
  {
    ImageConfig([], SpectrumWindow(Vec2(100.0, 500.0), Vec2(1500.0, 1.0)), true)
  }
}
