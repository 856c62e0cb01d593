/**
 * The reference spectrum of a tungsten-halogen lamp at a given filament
 * temperature: the emissivity fit of tungsten in eight wavelength bands,
 * times the black-body law, sampled at every nanometre of a fixed grid and
 * normalised to a peak of one.
 *
 * The black-body factor needs `exp`, which has no counterpart over the reals
 * here; it is a parameter `planck(wavelength_nm, temperature_K)`.
 */
module TungstenHalogen {
  import opened Wrappers
  import opened Matrix
  import opened Config

  /** The filament temperature in kelvin, an unsigned 16-bit value. */
  type U16 = x: int | 0 <= x < 0x1_0000

  /** Reference temperature of the fit, in thousands of kelvin. */
  const T0: real := 2.2

  /**
   * The fit coefficients of one band: the band centre l0 in micrometres and
   * the temperature (a, b) and wavelength (b, c) coefficients.
   */
  datatype Band = Band(l0: real, a0: real, a1: real, b0: real, b1: real, b2: real, c0: real, c1: real)

  /** Band limits in nanometres: band k covers [Limits[k], Limits[k + 1]), the last one closed. */
  const Limits: seq<real> := [340.0, 420.0, 480.0, 580.0, 640.0, 760.0, 940.0, 1600.0, 2600.0]

  const Bands: seq<Band> := [
    Band(0.380, 0.47245, -0.0155, -0.0086, -0.0229, 0.0, -2.86, 0.0),
    Band(0.450, 0.46361, -0.0172, -0.1304, 0.0, 0.0, 0.52, 0.0),
    Band(0.530, 0.45549, -0.0173, -0.1150, 0.0, 0.0, -0.5, 0.0),
    Band(0.610, 0.44297, -0.0177, -0.1482, 0.0, 0.0, 0.723, 0.0),
    Band(0.700, 0.43151, -0.0207, -0.1441, -0.0551, 0.0, -0.278, -0.190),
    Band(0.850, 0.40610, -0.0259, -0.1889, 0.0087, 0.0290, -0.126, 0.246),
    Band(1.270, 0.32835, 0.0, -0.1686, 0.0737, 0.0, 0.046, 0.016),
    Band(2.100, 0.22631, 0.0431, -0.0829, 0.0241, 0.0, 0.04, -0.026)]

  predicate InBand(w: real, k: nat)
  {
    k < 8 && Limits[k] <= w && (w < Limits[k + 1] || (k == 7 && w == Limits[8]))
  }

  /**
   * The `match` of `emissivity`: no band below 340 nm or above 2600 nm,
   * otherwise the coefficients of the band the wavelength falls in.
   */
  function EmissivityBand(w: real): (r: Option<Band>)
    ensures r.None? <==> w < 340.0 || w > 2600.0
    ensures forall k: nat :: InBand(w, k) ==> r == Some(Bands[k])
  {
    if w < 340.0 then None
    else if w < 420.0 then Some(Band(0.380, 0.47245, -0.0155, -0.0086, -0.0229, 0.0, -2.86, 0.0))
    else if w < 480.0 then Some(Band(0.450, 0.46361, -0.0172, -0.1304, 0.0, 0.0, 0.52, 0.0))
    else if w < 580.0 then Some(Band(0.530, 0.45549, -0.0173, -0.1150, 0.0, 0.0, -0.5, 0.0))
    else if w < 640.0 then Some(Band(0.610, 0.44297, -0.0177, -0.1482, 0.0, 0.0, 0.723, 0.0))
    else if w < 760.0 then Some(Band(0.700, 0.43151, -0.0207, -0.1441, -0.0551, 0.0, -0.278, -0.190))
    else if w < 940.0 then Some(Band(0.850, 0.40610, -0.0259, -0.1889, 0.0087, 0.0290, -0.126, 0.246))
    else if w < 1600.0 then Some(Band(1.270, 0.32835, 0.0, -0.1686, 0.0737, 0.0, 0.046, 0.016))
    else if w <= 2600.0 then Some(Band(2.100, 0.22631, 0.0431, -0.0829, 0.0241, 0.0, 0.04, -0.026))
    else None
  }

  /** Every wavelength of the fitted range lies in exactly one band. */
  lemma BandsPartition(w: real)
    requires 340.0 <= w <= 2600.0
    ensures exists k: nat :: InBand(w, k)
    ensures forall k1: nat, k2: nat :: InBand(w, k1) && InBand(w, k2) ==> k1 == k2
  {
    if w < 420.0 { assert InBand(w, 0); }
    else if w < 480.0 { assert InBand(w, 1); }
    else if w < 580.0 { assert InBand(w, 2); }
    else if w < 640.0 { assert InBand(w, 3); }
    else if w < 760.0 { assert InBand(w, 4); }
    else if w < 940.0 { assert InBand(w, 5); }
    else if w < 1600.0 { assert InBand(w, 6); }
    else { assert InBand(w, 7); }
  }

  /**
   * A band limit belongs to the band above it (the guards are strict
   * upper bounds), except 2600 nm, which closes the last band: 420 nm uses
   * the coefficients centred on 0.450 um.
   */
  lemma BandLimitsBelongAbove(k: nat)
    requires 1 <= k <= 8
    ensures EmissivityBand(Limits[k]) == Some(Bands[if k == 8 then 7 else k])
    ensures EmissivityBand(420.0).value.l0 == 0.450
  {
    assert InBand(Limits[k], if k == 8 then 7 else k);
    assert InBand(420.0, 1);
  }

  /** Each band's centre l0 (in micrometres) lies inside the band. */
  lemma BandCentresInBand(k: nat)
    requires k < 8
    ensures InBand(1000.0 * Bands[k].l0, k)
  {
  }

  /**
   * `emissivity`: the fit a0 + a1 dT + (b0 + b1 dT + b2 dT^2) dL + (c0 + c1 dT) dL^2
   * with dT the temperature in thousands of kelvin minus T0 and dL the
   * wavelength in micrometres minus the band centre.
   */
  function Emissivity(wavelength: real, filamentTemp: real): (r: Option<real>)
    ensures r.Some? <==> 340.0 <= wavelength <= 2600.0
  {
    var t := filamentTemp / 1000.0;
    match EmissivityBand(wavelength)
    case None => None
    case Some(b) =>
      var dt := t - T0;
      var dl := wavelength / 1000.0 - b.l0;
      Some(b.a0 + b.a1 * dt + (b.b0 + b.b1 * dt + b.b2 * dt * dt) * dl + (b.c0 + b.c1 * dt) * dl * dl)
  }

  /**
   * At its band centre the fit depends on the temperature alone: a0 + a1 dT;
   * at the reference temperature of 2200 K it is a0.
   */
  lemma EmissivityAtBandCentre(k: nat, filamentTemp: real)
    requires k < 8
    ensures Emissivity(1000.0 * Bands[k].l0, filamentTemp)
      == Some(Bands[k].a0 + Bands[k].a1 * (filamentTemp / 1000.0 - T0))
    ensures Emissivity(1000.0 * Bands[k].l0, 2200.0) == Some(Bands[k].a0)
  {
    BandCentresInBand(k);
    var b := Bands[k];
    assert 1000.0 * b.l0 / 1000.0 - b.l0 == 0.0;
  }

  /** `spectral_irradiance`: emissivity times the black-body law, where the fit is defined. */
  function SpectralIrradiance(wavelength: real, filamentTemp: real, planck: (real, real) -> real): (r: Option<real>)
    ensures r.Some? <==> 340.0 <= wavelength <= 2600.0
    ensures r.Some? ==> r.value == Emissivity(wavelength, filamentTemp).value * planck(wavelength, filamentTemp)
  {
    match Emissivity(wavelength, filamentTemp)
    case None => None
    case Some(e) => Some(e * planck(wavelength, filamentTemp))
  }

  /** The reference grid: every whole nanometre from 340 up to, not including, 2000. */
  const GridStart: nat := 340
  const GridEnd: nat := 2000

  function Values(ps: seq<SpectrumPoint>): (r: seq<real>)
    ensures |r| == |ps| && forall i :: 0 <= i < |ps| ==> r[i] == ps[i].value
  {
    seq(|ps|, i requires 0 <= i < |ps| => ps[i].value)
  }

  /** The irradiance at each grid wavelength, before normalisation; never undefined on the grid. */
  function RawReference(filamentTemp: U16, planck: (real, real) -> real): (r: seq<SpectrumPoint>)
    ensures |r| == GridEnd - GridStart
    ensures forall i :: 0 <= i < |r| ==> r[i].wavelength == (GridStart + i) as real
  {
    seq(GridEnd - GridStart, i requires 0 <= i < GridEnd - GridStart =>
      var w := (GridStart + i) as real;
      SpectrumPoint(w, SpectralIrradiance(w, filamentTemp as real, planck).value))
  }

  function RawMax(filamentTemp: U16, planck: (real, real) -> real): real
  {
    SeqMax(Values(RawReference(filamentTemp, planck)))
  }

  /** Every point with its value divided by m. */
  function DividedBy(ps: seq<SpectrumPoint>, m: real): (r: seq<SpectrumPoint>)
    requires m != 0.0
    ensures |r| == |ps|
    ensures forall i :: 0 <= i < |ps| ==> r[i].wavelength == ps[i].wavelength && r[i].value * m == ps[i].value
  {
    seq(|ps|, i requires 0 <= i < |ps| => ps[i].(value := ps[i].value / m))
  }

  /** Every grid value divided by the largest one. */
  function Normalised(filamentTemp: U16, planck: (real, real) -> real): (r: seq<SpectrumPoint>)
    requires RawMax(filamentTemp, planck) != 0.0
    ensures |r| == GridEnd - GridStart
  {
    DividedBy(RawReference(filamentTemp, planck), RawMax(filamentTemp, planck))
  }

  /** Every grid wavelength lies in the fitted range, so the irradiance `unwrap` of the grid never fails. */
  lemma GridIrradianceDefined(filamentTemp: U16, planck: (real, real) -> real, i: nat)
    requires i < GridEnd - GridStart
    ensures SpectralIrradiance((GridStart + i) as real, filamentTemp as real, planck).Some?
  {
  }

  /**
   * Normalisation changes values only: point i keeps the grid wavelength
   * 340 + i, and its value times the maximum is the raw value there.
   */
  lemma NormalisedGrid(filamentTemp: U16, planck: (real, real) -> real, i: nat)
    requires RawMax(filamentTemp, planck) != 0.0 && i < GridEnd - GridStart
    ensures var r := Normalised(filamentTemp, planck);
      && r[i].wavelength == (GridStart + i) as real
      && r[i].value * RawMax(filamentTemp, planck) == RawReference(filamentTemp, planck)[i].value
  {
  }

  lemma QuotientAtMostOne(a: real, m: real)
    requires a <= m && m > 0.0
    ensures a / m <= 1.0
  {
  }

  /**
   * The reference has 1660 points from 340 nm to 1999 nm, one per nanometre,
   * and, when the irradiance has a positive peak, its largest value is exactly 1.
   */
  lemma NormalisedPeakIsOne(filamentTemp: U16, planck: (real, real) -> real)
    requires RawMax(filamentTemp, planck) > 0.0
    ensures var r := Normalised(filamentTemp, planck);
      && |r| == 1660 && r[0].wavelength == 340.0 && r[|r| - 1].wavelength == 1999.0
      && SeqMax(Values(r)) == 1.0
  {
    var raw := RawReference(filamentTemp, planck);
    var m := RawMax(filamentTemp, planck);
    var vs := Values(Normalised(filamentTemp, planck));
    forall k | 0 <= k < |vs| ensures vs[k] <= 1.0 {
      QuotientAtMostOne(Values(raw)[k], m);
    }
    var top :| 0 <= top < |raw| && Values(raw)[top] == m;
    assert vs[top] == 1.0;
    SeqMaxUnique(vs, 1.0);
  }

  /**
   * `reference_from_filament_temp`: fill the grid, reduce it to its maximum,
   * then divide every point by that maximum in place.
   */
  method ReferenceFromFilamentTemp(filamentTemp: U16, planck: (real, real) -> real) returns (refPoints: seq<SpectrumPoint>)
    requires RawMax(filamentTemp, planck) != 0.0
    ensures refPoints == Normalised(filamentTemp, planck)
  {
    var points := FillGrid(filamentTemp, planck);
    var max := LargestValue(points);
    DivideAll(points, max);
    refPoints := points[..];
  }

  /** The first loop: one irradiance point per nanometre of the grid. */
  method FillGrid(filamentTemp: U16, planck: (real, real) -> real) returns (points: array<SpectrumPoint>)
    ensures fresh(points) && points[..] == RawReference(filamentTemp, planck)
  {
    ghost var raw := RawReference(filamentTemp, planck);
    var n := GridEnd - GridStart;
    points := new SpectrumPoint[n];
    for i := 0 to n
      invariant points[..i] == raw[..i]
    {
      var wavelength := (GridStart + i) as real;
      points[i] := SpectrumPoint(wavelength, SpectralIrradiance(wavelength, filamentTemp as real, planck).value);
    }
    assert points[..] == points[..n];
  }

  /** The second loop: the largest value, folded from the first point onwards. */
  method LargestValue(points: array<SpectrumPoint>) returns (max: real)
    requires points.Length > 0
    ensures max == SeqMax(Values(points[..]))
  {
    ghost var vs := Values(points[..]);
    max := points[0].value;
    for i := 1 to points.Length
      invariant max == SeqMax(vs[..i])
    {
      assert vs[..i + 1][..i] == vs[..i];
      max := Max(max, points[i].value);
    }
    assert vs[..points.Length] == vs;
  }

  /** The third loop: every point divided by the maximum, in place. */
  method DivideAll(points: array<SpectrumPoint>, max: real)
    requires max != 0.0
    modifies points
    ensures points[..] == DividedBy(old(points[..]), max)
  {
    ghost var before := points[..];
    for i := 0 to points.Length
      invariant points[..i] == DividedBy(before, max)[..i]
      invariant points[i..] == before[i..]
    {
      points[i] := points[i].(value := points[i].value / max);
    }
  }
}
