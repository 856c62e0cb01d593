/**
 * Peak and dip extraction over the Sum row (`spectrum_to_peaks_and_dips`):
 * a sliding window of 2 * fw + 1 samples marks its middle sample when it is
 * strictly above (peaks) or below (dips) every other sample of the window;
 * the marked points are then thinned to the best one per wavelength
 * neighbourhood of width `window`.
 */
module PeaksDips {
  import opened Wrappers
  import opened Matrix
  import opened Config

  /** `v` loses against the middle value `mid`: below it for peaks, above it for dips. */
  predicate Beats(mid: real, v: real, peaks: bool)
  {
    if peaks then v < mid else v > mid
  }

  /**
   * k is the middle of a full window of 2 * fw + 1 samples and strictly beats
   * every other sample in it.
   */
  predicate IsStrictExtremum(s: seq<real>, fw: nat, peaks: bool, k: int)
  {
    fw <= k && k + fw < |s|
    && forall j :: k - fw <= j <= k + fw && j != k ==> Beats(s[k], s[j], peaks)
  }

  /** The strict extrema below index n, in increasing order. */
  function ExtremaBelow(s: seq<real>, fw: nat, peaks: bool, n: nat): (r: seq<nat>)
    ensures forall t :: 0 <= t < |r| ==> r[t] < n && IsStrictExtremum(s, fw, peaks, r[t])
  {
    if n == 0 then []
    else ExtremaBelow(s, fw, peaks, n - 1) + (if IsStrictExtremum(s, fw, peaks, n - 1) then [n - 1] else [])
  }

  function Extrema(s: seq<real>, fw: nat, peaks: bool): (r: seq<nat>)
    ensures forall t :: 0 <= t < |r| ==> r[t] < |s|
  {
    ExtremaBelow(s, fw, peaks, |s|)
  }

  function Point(s: seq<real>, cal: SpectrumCalibration, k: nat): SpectrumPoint
    requires IsOrdered(cal) && k < |s|
  {
    SpectrumPoint(WavelengthFromIndex(cal, k), s[k])
  }

  function PointsAt(s: seq<real>, idx: seq<nat>, cal: SpectrumCalibration): (r: seq<SpectrumPoint>)
    requires IsOrdered(cal) && forall t :: 0 <= t < |idx| ==> idx[t] < |s|
    ensures |r| == |idx|
  {
    seq(|idx|, t requires 0 <= t < |idx| => Point(s, cal, idx[t]))
  }

  /** The candidate peaks (dips) before deduplication. */
  function Candidates(s: seq<real>, fw: nat, peaks: bool, cal: SpectrumCalibration): seq<SpectrumPoint>
    requires IsOrdered(cal)
  {
    PointsAt(s, Extrema(s, fw, peaks), cal)
  }

  /** q lies strictly within window / 2 of p's wavelength. */
  predicate InNeighbourhood(p: SpectrumPoint, q: SpectrumPoint, window: real)
  {
    q.wavelength > p.wavelength - window / 2.0 && q.wavelength < p.wavelength + window / 2.0
  }

  /** No point of `all` in p's neighbourhood is better than p. */
  predicate IsNeighbourhoodBest(all: seq<SpectrumPoint>, p: SpectrumPoint, window: real, peaks: bool)
  {
    forall q :: q in all && InNeighbourhood(p, q, window) ==>
      if peaks then q.value <= p.value else q.value >= p.value
  }

  /** The points of `cands`, in order, that are the best of their neighbourhood within `all`. */
  function Deduped(cands: seq<SpectrumPoint>, all: seq<SpectrumPoint>, window: real, peaks: bool): (r: seq<SpectrumPoint>)
  {
    if cands == [] then []
    else
      var last := cands[|cands| - 1];
      Deduped(cands[..|cands| - 1], all, window, peaks)
      + (if IsNeighbourhoodBest(all, last, window, peaks) then [last] else [])
  }

  /** What `spectrum_to_peaks_and_dips` returns for the Sum row `s`. */
  function PeaksAndDips(s: seq<real>, fw: nat, window: real, peaks: bool, cal: SpectrumCalibration): seq<SpectrumPoint>
    requires IsOrdered(cal)
  {
    var cands := Candidates(s, fw, peaks, cal);
    Deduped(cands, cands, window, peaks)
  }

  /** The window test of the source: all samples left and right of the middle lose against it. */
  predicate WindowQualifies(win: seq<real>, mid: nat, peaks: bool)
    requires mid < |win|
  {
    var lower, upper := win[..mid], win[mid..];
    (forall v :: v in lower ==> Beats(win[mid], v, peaks))
    && (forall v :: v in upper[1..] ==> Beats(win[mid], v, peaks))
  }

  lemma WindowQualifiesIff(s: seq<real>, fw: nat, peaks: bool, i: nat)
    requires i + 2 * fw + 1 <= |s|
    ensures WindowQualifies(s[i..i + 2 * fw + 1], fw, peaks) <==> IsStrictExtremum(s, fw, peaks, i + fw)
  {
    var win := s[i..i + 2 * fw + 1];
    if WindowQualifies(win, fw, peaks) {
      forall j | i <= j <= i + 2 * fw && j != i + fw
        ensures Beats(s[i + fw], s[j], peaks)
      {
        if j < i + fw {
          assert win[..fw][j - i] == s[j];
        } else {
          assert win[fw..][1..][j - i - fw - 1] == s[j];
        }
      }
    }
    if IsStrictExtremum(s, fw, peaks, i + fw) {
      forall v | v in win[..fw] ensures Beats(win[fw], v, peaks) {
        var t :| 0 <= t < fw && win[..fw][t] == v;
        assert v == s[i + t];
      }
      forall v | v in win[fw..][1..] ensures Beats(win[fw], v, peaks) {
        var t :| 0 <= t < |win[fw..][1..]| && win[fw..][1..][t] == v;
        assert v == s[i + fw + 1 + t];
      }
    }
  }

  /** Extending the bound over indices that are not extrema adds nothing. */
  lemma {:induction false} ExtremaBelowStable(s: seq<real>, fw: nat, peaks: bool, m: nat, n: nat)
    requires m <= n
    requires forall k :: m <= k < n ==> !IsStrictExtremum(s, fw, peaks, k)
    ensures ExtremaBelow(s, fw, peaks, n) == ExtremaBelow(s, fw, peaks, m)
    decreases n - m
  {
    if m < n {
      ExtremaBelowStable(s, fw, peaks, m, n - 1);
    }
  }

  /** Every index is a candidate exactly when it is a strict extremum. */
  lemma {:induction false} ExtremaBelowMembership(s: seq<real>, fw: nat, peaks: bool, n: nat, k: nat)
    ensures k in ExtremaBelow(s, fw, peaks, n) <==> k < n && IsStrictExtremum(s, fw, peaks, k)
  {
    if n > 0 {
      ExtremaBelowMembership(s, fw, peaks, n - 1, k);
    }
  }

  lemma ExtremaMembership(s: seq<real>, fw: nat, peaks: bool, k: nat)
    ensures k in Extrema(s, fw, peaks) <==> IsStrictExtremum(s, fw, peaks, k)
  {
    ExtremaBelowMembership(s, fw, peaks, |s|, k);
  }

  predicate StrictlyIncreasing(r: seq<nat>)
  {
    forall a, b :: 0 <= a < b < |r| ==> r[a] < r[b]
  }

  /** Candidates are listed in strictly increasing index order. */
  lemma {:induction false} ExtremaBelowIncreasing(s: seq<real>, fw: nat, peaks: bool, n: nat)
    ensures StrictlyIncreasing(ExtremaBelow(s, fw, peaks, n))
  {
    if n > 0 {
      var r0 := ExtremaBelow(s, fw, peaks, n - 1);
      ExtremaBelowIncreasing(s, fw, peaks, n - 1);
      if IsStrictExtremum(s, fw, peaks, n - 1) {
        var r := r0 + [n - 1];
        forall a, b | 0 <= a < b < |r| ensures r[a] < r[b] {
          if b == |r0| {
            assert r[a] == r0[a];
          }
        }
      }
    }
  }

  lemma ExtremaIncreasing(s: seq<real>, fw: nat, peaks: bool)
    ensures StrictlyIncreasing(Extrema(s, fw, peaks))
  {
    ExtremaBelowIncreasing(s, fw, peaks, |s|);
  }

  /** A spectrum shorter than one window has no candidates. */
  lemma NoExtremaInShortSpectrum(s: seq<real>, fw: nat, peaks: bool)
    requires |s| < 2 * fw + 1
    ensures Extrema(s, fw, peaks) == []
  {
    ExtremaBelowStable(s, fw, peaks, 0, |s|);
  }

  /** Two equal neighbouring samples are neither of them a candidate (for fw >= 1). */
  lemma PlateauHasNoExtremum(s: seq<real>, fw: nat, peaks: bool, k: nat)
    requires fw >= 1 && k + 1 < |s| && s[k] == s[k + 1]
    ensures !IsStrictExtremum(s, fw, peaks, k) && !IsStrictExtremum(s, fw, peaks, k + 1)
  {
  }

  function Negated(s: seq<real>): (r: seq<real>)
    ensures |r| == |s|
  {
    seq(|s|, i requires 0 <= i < |s| => -s[i])
  }

  function NegatedValues(ps: seq<SpectrumPoint>): (r: seq<SpectrumPoint>)
    ensures |r| == |ps|
  {
    seq(|ps|, i requires 0 <= i < |ps| => ps[i].(value := -ps[i].value))
  }

  function Wavelengths(ps: seq<SpectrumPoint>): (r: seq<real>)
    ensures |r| == |ps|
  {
    seq(|ps|, i requires 0 <= i < |ps| => ps[i].wavelength)
  }

  lemma NegatedExtremum(s: seq<real>, fw: nat, k: nat)
    ensures IsStrictExtremum(Negated(s), fw, false, k) <==> IsStrictExtremum(s, fw, true, k)
  {
    var ns := Negated(s);
    if IsStrictExtremum(s, fw, true, k) {
      forall j | k - fw <= j <= k + fw && j != k ensures Beats(ns[k], ns[j], false) {
        assert Beats(s[k], s[j], true);
      }
    }
    if IsStrictExtremum(ns, fw, false, k) {
      forall j | k - fw <= j <= k + fw && j != k ensures Beats(s[k], s[j], true) {
        assert Beats(ns[k], ns[j], false);
      }
    }
  }

  lemma {:induction false} ExtremaBelowNegated(s: seq<real>, fw: nat, n: nat)
    ensures ExtremaBelow(Negated(s), fw, false, n) == ExtremaBelow(s, fw, true, n)
  {
    if n > 0 {
      ExtremaBelowNegated(s, fw, n - 1);
      NegatedExtremum(s, fw, n - 1);
    }
  }

  /** p is the best peak of its neighbourhood exactly when its negation is the best dip among the negated points. */
  lemma NeighbourhoodBestNegated(all: seq<SpectrumPoint>, p: SpectrumPoint, window: real)
    ensures IsNeighbourhoodBest(NegatedValues(all), p.(value := -p.value), window, false)
        <==> IsNeighbourhoodBest(all, p, window, true)
  {
    var np := p.(value := -p.value);
    if IsNeighbourhoodBest(all, p, window, true) {
      forall q | q in NegatedValues(all) && InNeighbourhood(np, q, window)
        ensures q.value >= np.value
      {
        var t :| 0 <= t < |all| && NegatedValues(all)[t] == q;
        assert all[t] in all;
      }
    }
    if IsNeighbourhoodBest(NegatedValues(all), np, window, false) {
      forall q | q in all && InNeighbourhood(p, q, window)
        ensures q.value <= p.value
      {
        var t :| 0 <= t < |all| && all[t] == q;
        assert NegatedValues(all)[t] in NegatedValues(all);
      }
    }
  }

  lemma {:induction false} DedupedNegated(cands: seq<SpectrumPoint>, all: seq<SpectrumPoint>, window: real)
    ensures Deduped(NegatedValues(cands), NegatedValues(all), window, false)
         == NegatedValues(Deduped(cands, all, window, true))
  {
    if cands != [] {
      var last := cands[|cands| - 1];
      assert NegatedValues(cands)[..|cands| - 1] == NegatedValues(cands[..|cands| - 1]);
      DedupedNegated(cands[..|cands| - 1], all, window);
      NeighbourhoodBestNegated(all, last, window);
      var rest := Deduped(cands[..|cands| - 1], all, window, true);
      if IsNeighbourhoodBest(all, last, window, true) {
        assert NegatedValues(rest + [last]) == NegatedValues(rest) + [last.(value := -last.value)];
      }
    }
  }

  /**
   * Dips of the negated spectrum are the peaks of the spectrum: the same
   * points with negated values, hence the same wavelengths.
   */
  lemma PeaksDipsSymmetry(s: seq<real>, fw: nat, window: real, cal: SpectrumCalibration)
    requires IsOrdered(cal)
    ensures PeaksAndDips(Negated(s), fw, window, false, cal) == NegatedValues(PeaksAndDips(s, fw, window, true, cal))
    ensures Wavelengths(PeaksAndDips(Negated(s), fw, window, false, cal)) == Wavelengths(PeaksAndDips(s, fw, window, true, cal))
  {
    ExtremaBelowNegated(s, fw, |s|);
    var cands := Candidates(s, fw, true, cal);
    assert Candidates(Negated(s), fw, false, cal) == NegatedValues(cands);
    DedupedNegated(cands, cands, window);
  }

  /** Deduplication keeps a subsequence of the candidates: each kept point is the best of its neighbourhood. */
  lemma {:induction false} DedupedSpec(cands: seq<SpectrumPoint>, all: seq<SpectrumPoint>, window: real, peaks: bool, p: SpectrumPoint)
    ensures p in Deduped(cands, all, window, peaks) <==> p in cands && IsNeighbourhoodBest(all, p, window, peaks)
  {
    if cands != [] {
      DedupedSpec(cands[..|cands| - 1], all, window, peaks, p);
      assert cands == cands[..|cands| - 1] + [cands[|cands| - 1]];
    }
  }

  lemma CandidatesStep(s: seq<real>, fw: nat, peaks: bool, cal: SpectrumCalibration, k: nat)
    requires IsOrdered(cal) && k < |s|
    ensures PointsAt(s, ExtremaBelow(s, fw, peaks, k + 1), cal)
         == PointsAt(s, ExtremaBelow(s, fw, peaks, k), cal)
            + (if IsStrictExtremum(s, fw, peaks, k) then [Point(s, cal, k)] else [])
  {
  }

  /** Past the last full window no index is a candidate. */
  lemma TailHasNoExtremum(s: seq<real>, fw: nat, peaks: bool, e: nat)
    requires e + fw >= |s|
    ensures ExtremaBelow(s, fw, peaks, e) == ExtremaBelow(s, fw, peaks, |s|)
  {
    if e <= |s| {
      ExtremaBelowStable(s, fw, peaks, e, |s|);
    } else {
      ExtremaBelowStable(s, fw, peaks, |s|, e);
    }
  }

  /** One step of the sliding window: the window starting at i decides whether index i + fw is a candidate. */
  lemma WindowStep(s: seq<real>, fw: nat, peaks: bool, cal: SpectrumCalibration, i: nat, windowSize: nat, mid: nat)
    requires IsOrdered(cal) && windowSize == 2 * fw + 1 && mid == fw && i + windowSize <= |s|
    ensures var win := s[i..i + windowSize];
      PointsAt(s, ExtremaBelow(s, fw, peaks, i + 1 + mid), cal)
      == PointsAt(s, ExtremaBelow(s, fw, peaks, i + mid), cal)
         + (if WindowQualifies(win, mid, peaks)
            then [SpectrumPoint(WavelengthFromIndex(cal, i + mid), win[mid])] else [])
  {
    var win := s[i..i + windowSize];
    assert win == s[i..i + 2 * fw + 1];
    WindowQualifiesIff(s, fw, peaks, i);
    CandidatesStep(s, fw, peaks, cal, i + fw);
    assert Point(s, cal, i + fw) == SpectrumPoint(WavelengthFromIndex(cal, i + mid), win[mid]);
  }

  lemma MidIndex(fw: nat, windowSize: int, mid: int)
    requires windowSize == fw * 2 + 1 && mid == (windowSize - 1) / 2
    ensures mid == fw
  {
  }

  /** The sliding-window loop of the source, collecting candidates in index order. */
  method FindCandidates(s: seq<real>, fw: nat, peaks: bool, cal: SpectrumCalibration) returns (cands: seq<SpectrumPoint>)
    requires IsOrdered(cal)
    ensures cands == Candidates(s, fw, peaks, cal)
  {
    cands := [];
    var windowSize := fw * 2 + 1;
    var mid := (windowSize - 1) / 2;
    MidIndex(fw, windowSize, mid);
    ExtremaBelowStable(s, fw, peaks, 0, fw);
    var i := 0;
    while i + windowSize <= |s|
      invariant i <= |s|
      invariant cands == PointsAt(s, ExtremaBelow(s, fw, peaks, i + mid), cal)
      decreases |s| - i
    {
      WindowStep(s, fw, peaks, cal, i, windowSize, mid);
      var win := s[i..i + windowSize];
      if WindowQualifies(win, mid, peaks) {
        cands := cands + [SpectrumPoint(WavelengthFromIndex(cal, i + mid), win[mid])];
      }
      i := i + 1;
    }
    TailHasNoExtremum(s, fw, peaks, i + fw);
  }

  /**
   * Comparing with the reduced value of the neighbourhood (its maximum for
   * peaks, minimum for dips) decides whether p is the best of it.
   */
  lemma ReducedBestIff(cands: seq<SpectrumPoint>, p: SpectrumPoint, best: real, window: real, peaks: bool)
    requires forall t :: 0 <= t < |cands| && InNeighbourhood(p, cands[t], window) ==>
      if peaks then cands[t].value <= best else cands[t].value >= best
    requires exists t :: 0 <= t < |cands| && InNeighbourhood(p, cands[t], window) && cands[t].value == best
    requires p in cands && InNeighbourhood(p, p, window)
    ensures p.value == best <==> IsNeighbourhoodBest(cands, p, window, peaks)
  {
    if IsNeighbourhoodBest(cands, p, window, peaks) {
      var t :| 0 <= t < |cands| && InNeighbourhood(p, cands[t], window) && cands[t].value == best;
      assert cands[t] in cands;
      var u :| 0 <= u < |cands| && cands[u] == p;
    }
    if p.value == best {
      forall q | q in cands && InNeighbourhood(p, q, window)
        ensures if peaks then q.value <= p.value else q.value >= p.value
      {
        var t :| 0 <= t < |cands| && cands[t] == q;
      }
    }
  }

  /**
   * The `filter`/`map`/`reduce` over the candidates in p's neighbourhood:
   * their largest (peaks) or smallest (dips) value, None when there are none.
   */
  method ReduceNeighbourhood(cands: seq<SpectrumPoint>, p: SpectrumPoint, window: real, peaks: bool) returns (best: Option<real>)
    ensures best.None? <==> forall t :: 0 <= t < |cands| ==> !InNeighbourhood(p, cands[t], window)
    ensures best.Some? ==> forall t :: 0 <= t < |cands| && InNeighbourhood(p, cands[t], window) ==>
      if peaks then cands[t].value <= best.value else cands[t].value >= best.value
    ensures best.Some? ==> exists t :: 0 <= t < |cands| && InNeighbourhood(p, cands[t], window) && cands[t].value == best.value
  {
    best := None;
    var j := 0;
    while j < |cands|
      invariant 0 <= j <= |cands|
      invariant best.None? <==> forall t :: 0 <= t < j ==> !InNeighbourhood(p, cands[t], window)
      invariant best.Some? ==> forall t :: 0 <= t < j && InNeighbourhood(p, cands[t], window) ==>
        if peaks then cands[t].value <= best.value else cands[t].value >= best.value
      invariant best.Some? ==> exists t :: 0 <= t < j && InNeighbourhood(p, cands[t], window) && cands[t].value == best.value
    {
      var q := cands[j];
      if InNeighbourhood(p, q, window) {
        best := match best
          case None => Some(q.value)
          case Some(b) => Some(if peaks then Max(b, q.value) else Min(b, q.value));
      }
      j := j + 1;
    }
  }

  /** The deduplication loop: keep a candidate when it equals the max (min) over its neighbourhood. */
  method Dedupe(cands: seq<SpectrumPoint>, window: real, peaks: bool) returns (kept: seq<SpectrumPoint>)
    requires window > 0.0
    ensures kept == Deduped(cands, cands, window, peaks)
  {
    kept := [];
    var i := 0;
    while i < |cands|
      invariant 0 <= i <= |cands|
      invariant kept == Deduped(cands[..i], cands, window, peaks)
    {
      var p := cands[i];
      var best := ReduceNeighbourhood(cands, p, window, peaks);
      // p lies in its own neighbourhood, so the reduction has a value.
      assert InNeighbourhood(p, cands[i], window);
      ReducedBestIff(cands, p, best.value, window, peaks);
      assert cands[..i + 1][..i] == cands[..i];
      if p.value == best.value {
        kept := kept + [p];
      }
      i := i + 1;
    }
    assert cands[..|cands|] == cands;
  }

  /** A Sum row with two peaks (columns 1 and 3) and a dip between them (column 2). */
  function ExampleSpectrum(): seq<real>
  {
    [0.0, 2.0, 0.0, 1.0, 0.0]
  }

  lemma ExampleExtrema()
    ensures Extrema(ExampleSpectrum(), 1, true) == [1, 3]
    ensures Extrema(ExampleSpectrum(), 1, false) == [2]
  {
    ExamplePeaks();
    ExampleDips();
  }

  /** The peak half of `ExampleExtrema`, one index at a time. */
  lemma ExamplePeaks()
    ensures Extrema(ExampleSpectrum(), 1, true) == [1, 3]
  {
    var s := ExampleSpectrum();
    assert IsStrictExtremum(s, 1, true, 1) by {
      assert Beats(s[1], s[0], true) && Beats(s[1], s[2], true);
    }
    assert !IsStrictExtremum(s, 1, true, 2) by {
      assert !Beats(s[2], s[1], true);
    }
    assert IsStrictExtremum(s, 1, true, 3) by {
      assert Beats(s[3], s[2], true) && Beats(s[3], s[4], true);
    }
    assert ExtremaBelow(s, 1, true, 1) == [];
    assert ExtremaBelow(s, 1, true, 2) == [1];
    assert ExtremaBelow(s, 1, true, 3) == [1];
    assert ExtremaBelow(s, 1, true, 4) == [1, 3];
  }

  /** The dip half of `ExampleExtrema`, one index at a time. */
  lemma ExampleDips()
    ensures Extrema(ExampleSpectrum(), 1, false) == [2]
  {
    var s := ExampleSpectrum();
    assert !IsStrictExtremum(s, 1, false, 1) by {
      assert !Beats(s[1], s[0], false);
    }
    assert IsStrictExtremum(s, 1, false, 2) by {
      assert Beats(s[2], s[1], false) && Beats(s[2], s[3], false);
    }
    assert !IsStrictExtremum(s, 1, false, 3) by {
      assert !Beats(s[3], s[2], false);
    }
    assert ExtremaBelow(s, 1, false, 2) == [];
    assert ExtremaBelow(s, 1, false, 3) == [2];
    assert ExtremaBelow(s, 1, false, 4) == [2];
  }

  /**
   * The two peaks are 4.4 nm apart under the 436 nm @ 50 / 546 nm @ 100
   * calibration, within one 10 nm neighbourhood: both are candidates and
   * only the higher one is reported.
   */
  lemma TwoNearbyPeaksExample()
    ensures PeaksAndDips(ExampleSpectrum(), 1, 10.0, true, ExampleCalibration()) == [SpectrumPoint(328.2, 2.0)]
  {
    ExampleExtrema();
    var p1, p3 := SpectrumPoint(328.2, 2.0), SpectrumPoint(332.6, 1.0);
    assert Candidates(ExampleSpectrum(), 1, true, ExampleCalibration()) == [p1, p3];
    assert IsNeighbourhoodBest([p1, p3], p1, 10.0, true);
    assert !IsNeighbourhoodBest([p1, p3], p3, 10.0, true) by {
      assert p1 in [p1, p3] && InNeighbourhood(p3, p1, 10.0);
    }
    assert [p1, p3][..1] == [p1] && [p1][..0] == [];
    assert Deduped([p1], [p1, p3], 10.0, true) == [p1];
    assert Deduped([p1, p3], [p1, p3], 10.0, true) == [p1];
  }

  lemma DipBetweenPeaksExample()
    ensures PeaksAndDips(ExampleSpectrum(), 1, 10.0, false, ExampleCalibration()) == [SpectrumPoint(330.4, 0.0)]
  {
    ExampleExtrema();
    var d := SpectrumPoint(330.4, 0.0);
    assert Candidates(ExampleSpectrum(), 1, false, ExampleCalibration()) == [d];
    assert IsNeighbourhoodBest([d], d, 10.0, false);
  }
}
