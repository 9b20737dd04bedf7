/** The noise gate and the floor, for medians of an even number of runs with one floor, only
    half of them at it: the robust dispersion is then bounded, by that of the values with
    nothing used at the floor. Two runs are such a case whatever their values. */
module FloorNoiseHalves {
  import opened RealArithmetic
  import opened OrderStats
  import opened Summaries
  import opened Comparing
  import opened ComparingLaws
  import opened PeakFloor
  import opened FloorNoise
  import opened FloorNoiseMeans

  lemma SpreadIsQuotient(sorted: seq<real>, low: real, high: real, median: real)
    requires |sorted| >= 2 && MedianSorted(sorted) == median > 0.0
    requires Percentile(sorted, 0.25) == low && Percentile(sorted, 0.75) == high
    ensures RobustSpread(sorted) == (high - low) / IQR_TO_STDDEV / median
  {
  }

  /** A smaller range over a larger median is less spread. */
  lemma LessSpread(range: real, median: real, range': real, median': real)
    requires 0.0 <= range <= range' && 0.0 < median' <= median
    ensures range / IQR_TO_STDDEV / median <= range' / IQR_TO_STDDEV / median'
  {
    QuotientMonotone(range, range', IQR_TO_STDDEV);
    QuotientMonotone(range / IQR_TO_STDDEV, range' / IQR_TO_STDDEV, median);
    QuotientSign(range', IQR_TO_STDDEV);
    QuotientAntitone(range' / IQR_TO_STDDEV, median', median);
  }

  lemma SpreadBeyond(range: real, median: real, limit: real)
    requires median > 0.0
    ensures range / IQR_TO_STDDEV / median > limit <==> range > Times(limit * IQR_TO_STDDEV, median)
  {
    QuotientExceeds(range / IQR_TO_STDDEV, median, limit);
    QuotientExceeds(range, IQR_TO_STDDEV, Times(limit, median));
    assert Times(Times(limit, median), IQR_TO_STDDEV) == Times(limit * IQR_TO_STDDEV, median);
  }

  // Half of the samples low.

  /** Half of the places are marked, and f separates the samples there from the others. */
  predicate HalfBelow(s: seq<real>, mask: seq<bool>, f: real) {
    && |mask| == |s| >= 4 && 2 * Marks(mask) == |s| && f > 0.0
    && forall i | 0 <= i < |s| :: if mask[i] then 0.0 <= s[i] <= f else s[i] > f
  }

  lemma LowerHalfDecides(sorted: seq<real>, t: real)
    requires |sorted| >= 4 && |sorted| % 2 == 0 && forall k | 0 <= k < |sorted| / 2 :: sorted[k] == t
    ensures Percentile(sorted, 0.25) == t && MedianSorted(sorted) == (t + sorted[|sorted| / 2]) / 2.0
  {
    var n, pos := |sorted|, Rank(|sorted|, 0.25);
    assert pos <= (n / 2 - 1) as real;
    assert Ceil(pos) <= n / 2 - 1;
  }

  /** The upper half of the sorted samples. */
  function Upper(s: seq<real>, mask: seq<bool>): seq<real>
    requires |mask| == |s|
  {
    Sort(Kept(s, mask))
  }

  lemma HalfSorted(s: seq<real>, mask: seq<bool>, f: real, t: real)
    requires HalfBelow(s, mask, f) && t <= f
    ensures |Upper(s, mask)| == |s| / 2
    ensures Sort(Lowered(s, mask, t)) == Copies(t, |s| / 2) + Upper(s, mask)
  {
    LoweredSorts(s, mask, t);
  }

  lemma UpperIsAbove(s: seq<real>, mask: seq<bool>, f: real)
    requires HalfBelow(s, mask, f)
    ensures |Upper(s, mask)| == |s| / 2 && Upper(s, mask)[0] > f
  {
    HalfSorted(s, mask, f, f);
    KeptIsAbove(s, mask, f);
    SortMember(Kept(s, mask), 0);
  }

  /** The quartiles and the median when the lower half is t. */
  lemma HalfLowered(s: seq<real>, mask: seq<bool>, f: real, t: real)
    requires HalfBelow(s, mask, f) && t <= f
    ensures |Upper(s, mask)| == |s| / 2
    ensures var sorted := Sort(Lowered(s, mask, t));
      && (forall k | |s| / 2 <= k < |s| :: sorted[k] == Upper(s, mask)[k - |s| / 2])
      && Percentile(sorted, 0.25) == t && MedianSorted(sorted) == (t + Upper(s, mask)[0]) / 2.0
  {
    HalfSorted(s, mask, f, t);
    LowerHalfDecides(Copies(t, |s| / 2) + Upper(s, mask), t);
  }

  lemma UpperHalfDecides(a: seq<real>, b: seq<real>)
    requires |a| == |b| >= 4 && |a| % 2 == 0 && forall k | |a| / 2 <= k < |a| :: a[k] == b[k]
    ensures Percentile(a, 0.75) == Percentile(b, 0.75)
  {
    var pos := Rank(|a|, 0.75);
    assert pos >= (|a| / 2) as real;
    assert pos.Floor >= |a| / 2;
  }

  lemma SameUpperQuartile(s: seq<real>, mask: seq<bool>, f: real, t: real, u: real)
    requires HalfBelow(s, mask, f) && t <= f && u <= f
    ensures Percentile(Sort(Lowered(s, mask, t)), 0.75) == Percentile(Sort(Lowered(s, mask, u)), 0.75)
  {
    HalfLowered(s, mask, f, t);
    HalfLowered(s, mask, f, u);
    UpperHalfDecides(Sort(Lowered(s, mask, t)), Sort(Lowered(s, mask, u)));
  }

  /** The samples agree where no place is marked and are between nothing and f elsewhere. */
  predicate LiesBelow(truth: seq<real>, s: seq<real>, mask: seq<bool>, f: real) {
    |truth| == |s| == |mask| && forall i | 0 <= i < |s| :: if mask[i] then 0.0 <= truth[i] <= f else truth[i] == s[i]
  }

  /** The spread with t in the marked places. */
  lemma HalfSpread(s: seq<real>, mask: seq<bool>, f: real, t: real)
    requires HalfBelow(s, mask, f) && 0.0 <= t <= f
    ensures |Upper(s, mask)| > 0 && Upper(s, mask)[0] > f
    ensures RobustSpread(Sort(Lowered(s, mask, t)))
         == (Percentile(Sort(Bare(s, mask)), 0.75) - t) / IQR_TO_STDDEV / ((t + Upper(s, mask)[0]) / 2.0)
  {
    UpperIsAbove(s, mask, f);
    HalfLowered(s, mask, f, t);
    SameUpperQuartile(s, mask, f, 0.0, t);
    SpreadIsQuotient(Sort(Lowered(s, mask, t)), t, Percentile(Sort(Bare(s, mask)), 0.75), (t + Upper(s, mask)[0]) / 2.0);
  }

  lemma TruthIsBetween(truth: seq<real>, s: seq<real>, mask: seq<bool>, f: real)
    requires HalfBelow(s, mask, f) && LiesBelow(truth, s, mask, f)
    ensures Below(Bare(s, mask), truth) && Below(truth, Lowered(s, mask, f))
  {
  }

  lemma QuartilesBetween(low: seq<real>, truth: seq<real>, high: seq<real>)
    requires low != [] && Below(low, truth) && Below(truth, high)
    ensures Percentile(Sort(low), 0.25) <= Percentile(Sort(truth), 0.25)
         <= Percentile(Sort(truth), 0.75) <= Percentile(Sort(high), 0.75)
    ensures MedianSorted(Sort(low)) <= MedianSorted(Sort(truth))
  {
    SortMonotone(low, truth);
    SortMonotone(truth, high);
    SortSorts(truth);
    PercentileOfBelow(Sort(low), Sort(truth), 0.25);
    PercentileOfBelow(Sort(truth), Sort(high), 0.75);
    PercentileMonotone(Sort(truth), 0.25, 0.75);
    StatisticMonotone(low, truth, Median);
  }

  /** Nothing in the marked places is the most spread there is. */
  lemma BareIsMostSpread(truth: seq<real>, s: seq<real>, mask: seq<bool>, f: real)
    requires HalfBelow(s, mask, f) && LiesBelow(truth, s, mask, f)
    ensures RobustSpread(Sort(truth)) <= RobustSpread(Sort(Bare(s, mask)))
  {
    var bare, full, sorted := Bare(s, mask), Lowered(s, mask, f), Sort(truth);
    UpperIsAbove(s, mask, f);
    HalfLowered(s, mask, f, 0.0);
    SameUpperQuartile(s, mask, f, 0.0, f);
    TruthIsBetween(truth, s, mask, f);
    QuartilesBetween(bare, truth, full);
    MoreSpread(sorted, Sort(bare));
  }

  lemma MoreSpread(a: seq<real>, b: seq<real>)
    requires |a| == |b| >= 2 && 0.0 < MedianSorted(b) <= MedianSorted(a)
    requires Percentile(b, 0.25) <= Percentile(a, 0.25) <= Percentile(a, 0.75) <= Percentile(b, 0.75)
    ensures RobustSpread(a) <= RobustSpread(b)
  {
    LessSpread(Percentile(a, 0.75) - Percentile(a, 0.25), MedianSorted(a), Percentile(b, 0.75) - Percentile(b, 0.25), MedianSorted(b));
  }

  /** A little in the marked places is still more spread than a limit that nothing exceeds. */
  lemma NearlyBareIsSpread(s: seq<real>, mask: seq<bool>, f: real, limit: real, q: real) returns (t: real)
    requires HalfBelow(s, mask, f) && limit > 0.0 && 0.0 < q <= f && RobustSpread(Sort(Bare(s, mask))) > limit
    ensures 0.0 < t < q && RobustSpread(Sort(Lowered(s, mask, t))) > limit
  {
    HalfSpread(s, mask, f, 0.0);
    var high, least := Percentile(Sort(Bare(s, mask)), 0.75), Upper(s, mask)[0];
    SpreadBeyond(high, least / 2.0, limit);
    t := RoomLeft(high, least, limit, q);
    HalfSpread(s, mask, f, t);
    SpreadBeyond(high - t, (t + least) / 2.0, limit);
  }

  lemma RoomLeft(high: real, least: real, limit: real, q: real) returns (t: real)
    requires limit > 0.0 && q > 0.0 && high > Times(limit * IQR_TO_STDDEV, least / 2.0)
    ensures 0.0 < t < q && high - t > Times(limit * IQR_TO_STDDEV, (t + least) / 2.0)
  {
    var c := limit * IQR_TO_STDDEV;
    t := SmallStep(high - Times(c, least / 2.0), 1.0 + c / 2.0, q);
    Distributes(c, t / 2.0, least / 2.0);
    Distributes(t, 1.0, c / 2.0);
    assert c * (t / 2.0) == t * (c / 2.0);
  }

  // Two samples.

  lemma SortOfPair(s: seq<real>)
    requires |s| == 2
    ensures Sort(s) == [Least(s), Greatest(s)]
  {
    ExtremaAreEnds(s);
  }

  /** The robust dispersion of two samples in order. */
  function PairSpread(lo: real, hi: real): real
    requires lo + hi > 0.0
  {
    (hi - lo) / 2.0 / IQR_TO_STDDEV / ((lo + hi) / 2.0)
  }

  lemma SpreadOfSortedPair(sorted: seq<real>, lo: real, hi: real)
    requires sorted == [lo, hi] && lo + hi > 0.0
    ensures RobustSpread(sorted) == PairSpread(lo, hi)
  {
    QuartilesOfTwo(sorted);
  }

  lemma SpreadOfPair(s: seq<real>)
    requires |s| == 2 && s[0] + s[1] > 0.0
    ensures Least(s) + Greatest(s) > 0.0 && RobustSpread(Sort(s)) == PairSpread(Least(s), Greatest(s))
  {
    SortOfPair(s);
    PairAddsUp(s);
    SpreadOfSortedPair(Sort(s), Least(s), Greatest(s));
  }

  lemma PairAddsUp(s: seq<real>)
    requires |s| == 2
    ensures Least(s) + Greatest(s) == s[0] + s[1]
  {
    if s[0] <= s[1] {
      ExtremaAre(s, 0, 1);
    } else {
      ExtremaAre(s, 1, 0);
    }
  }

  lemma SameOverSame(m: real)
    requires m > 0.0
    ensures m / IQR_TO_STDDEV / m == 1.0 / IQR_TO_STDDEV
  {
    QuotientOfScaled(m, 1.0 / IQR_TO_STDDEV, 1.0);
    QuotientOfProduct(m, 1.0, IQR_TO_STDDEV);
  }

  lemma PairRatio(lo: real, hi: real)
    requires 0.0 <= lo <= hi && lo + hi > 0.0
    ensures PairSpread(lo, hi) <= 1.0 / IQR_TO_STDDEV
    ensures lo == 0.0 ==> PairSpread(lo, hi) == 1.0 / IQR_TO_STDDEV
  {
    var m := (lo + hi) / 2.0;
    SameOverSame(m);
    QuotientMonotone((hi - lo) / 2.0, m, IQR_TO_STDDEV);
    QuotientMonotone((hi - lo) / 2.0 / IQR_TO_STDDEV, m / IQR_TO_STDDEV, m);
  }

  lemma PairIsWithin(s: seq<real>)
    requires |s| == 2 && Least(s) >= 0.0 && s[0] + s[1] > 0.0
    ensures RobustSpread(Sort(s)) <= 1.0 / IQR_TO_STDDEV
    ensures Least(s) == 0.0 ==> RobustSpread(Sort(s)) == 1.0 / IQR_TO_STDDEV
  {
    SpreadOfPair(s);
    PairRatio(Least(s), Greatest(s));
  }

  /** A pair far enough apart. */
  lemma PairIsSpread(g: real, limit: real, q: real) returns (t: real)
    requires limit > 0.0 && 0.0 < q <= g && 1.0 / IQR_TO_STDDEV > limit
    ensures 0.0 < t < q && PairSpread(t, g) > limit
  {
    SameOverSame(g / 2.0);
    SpreadBeyond(g / 2.0, g / 2.0, limit);
    t := RoomLeft(g / 2.0, g, limit, q);
    SpreadBeyond((g - t) / 2.0, (t + g) / 2.0, limit);
  }

  // Half of the runs at their floor.

  /** Exactly half of the runs are at the floor, not counting a greatest one. */
  ghost predicate HalfAtFloor(peaks: seq<int>, floors: seq<int>, floor: int, g: nat) {
    OneFloor(peaks, floors, floor, g) && 2 * Marks(AtFloorBut(peaks, floors, g)) == |peaks|
  }

  lemma {:induction false} MarkedOnce(mask: seq<bool>)
    requires |mask| == 2 && Marks(mask) == 1
    ensures mask[0] != mask[1]
  {
    assert Marks(mask[..1]) == if mask[0] then 1 else 0;
  }

  lemma PairOfRuns(peaks: seq<int>, floors: seq<int>, floor: int, g: nat, t: real)
    requires HalfAtFloor(peaks, floors, floor, g) && |peaks| == 2 && 0.0 <= t < Least(AsSamples(peaks))
    ensures var pair := Lowered(AsSamples(peaks), AtFloorBut(peaks, floors, g), t);
      Least(pair) == t && Greatest(pair) == AsSamples(peaks)[g] && pair[0] + pair[1] > 0.0 && pair[0] >= 0.0 && pair[1] >= 0.0
  {
    var s, mask := AsSamples(peaks), AtFloorBut(peaks, floors, g);
    MarkedOnce(mask);
    ExtremaAre(Lowered(s, mask, t), 1 - g, g);
  }

  lemma ManyAboveFloor(peaks: seq<int>, floors: seq<int>, floor: int, g: nat)
    requires HalfAtFloor(peaks, floors, floor, g) && |peaks| >= 3
    ensures |peaks| >= 4 && peaks[g] > floor
  {
    var mask := AtFloorBut(peaks, floors, g);
    var all := mask[g := true];
    UnmarkOne(all, g);
    assert all[g := false] == mask;
    if peaks[g] <= floor {
      AllMarked(all);
    }
  }

  lemma HalfIsBelow(peaks: seq<int>, floors: seq<int>, floor: int, g: nat)
    requires HalfAtFloor(peaks, floors, floor, g) && |peaks| >= 3
    ensures HalfBelow(AsSamples(peaks), AtFloorBut(peaks, floors, g), floor as real)
    ensures Least(AsSamples(peaks)) <= floor as real
  {
    ManyAboveFloor(peaks, floors, floor, g);
    var s, mask := AsSamples(peaks), AtFloorBut(peaks, floors, g);
    SomeMarked(mask);
    var i :| 0 <= i < |mask| && mask[i];
    assert Least(s) <= s[i];
  }

  lemma {:induction false} SomeMarked(mask: seq<bool>)
    requires Marks(mask) > 0
    ensures exists i :: 0 <= i < |mask| && mask[i]
  {
    var n := |mask| - 1;
    if !mask[n] {
      SomeMarked(mask[..n]);
      var i :| 0 <= i < n && mask[..n][i];
      assert mask[i];
    }
  }

  lemma TruthLiesBelow(truth: seq<real>, peaks: seq<int>, floors: seq<int>, floor: int, g: nat)
    requires HalfAtFloor(peaks, floors, floor, g) && |peaks| >= 3 && Explains(truth, peaks, floors)
    ensures LiesBelow(truth, AsSamples(peaks), AtFloorBut(peaks, floors, g), floor as real)
  {
    ManyAboveFloor(peaks, floors, floor, g);
    ExplainsMeans(truth, peaks, floors);
  }

  /** No real values are more spread than the barest ones. */
  lemma BarestIsMostSpread(truth: seq<real>, peaks: seq<int>, floors: seq<int>, floor: int, g: nat)
    requires HalfAtFloor(peaks, floors, floor, g) && Explains(truth, peaks, floors) && AllPositive(truth)
    ensures RobustSpread(Sort(truth)) <= RobustSpread(Sort(Barest(peaks, floors, g)))
  {
    PeaksArePositive(peaks, floors);
    if |peaks| == 2 {
      PairOfRuns(peaks, floors, floor, g, 0.0);
      PairIsWithin(Barest(peaks, floors, g));
      PairIsWithin(truth);
    } else {
      HalfIsBelow(peaks, floors, floor, g);
      TruthLiesBelow(truth, peaks, floors, floor, g);
      BareIsMostSpread(truth, AsSamples(peaks), AtFloorBut(peaks, floors, g), floor as real);
    }
  }

  lemma SomePairIsSpread(peaks: seq<int>, floors: seq<int>, floor: int, g: nat, limit: real) returns (t: real)
    requires HalfAtFloor(peaks, floors, floor, g) && |peaks| == 2 && Least(AsSamples(peaks)) > 0.0
    requires limit > 0.0 && 1.0 / IQR_TO_STDDEV > limit
    ensures 0.0 < t < Least(AsSamples(peaks))
    ensures RobustSpread(Sort(Lowered(AsSamples(peaks), AtFloorBut(peaks, floors, g), t))) > limit
  {
    var s, mask := AsSamples(peaks), AtFloorBut(peaks, floors, g);
    assert Least(s) <= s[g];
    t := PairIsSpread(s[g], limit, Least(s));
    PairOfRuns(peaks, floors, floor, g, t);
    SpreadOfPair(Lowered(s, mask, t));
  }

  lemma SomeStepIsSpread(peaks: seq<int>, floors: seq<int>, floor: int, g: nat, limit: real) returns (t: real)
    requires HalfAtFloor(peaks, floors, floor, g) && limit > 0.0 && RobustSpread(Sort(Barest(peaks, floors, g))) > limit
    ensures 0.0 < t < Least(AsSamples(peaks))
    ensures RobustSpread(Sort(Lowered(AsSamples(peaks), AtFloorBut(peaks, floors, g), t))) > limit
  {
    PeaksArePositive(peaks, floors);
    if |peaks| == 2 {
      PairOfRuns(peaks, floors, floor, g, 0.0);
      PairIsWithin(Barest(peaks, floors, g));
      t := SomePairIsSpread(peaks, floors, floor, g, limit);
    } else {
      HalfIsBelow(peaks, floors, floor, g);
      t := NearlyBareIsSpread(AsSamples(peaks), AtFloorBut(peaks, floors, g), floor as real, limit, Least(AsSamples(peaks)));
    }
  }

  /** And some are as spread as any limit they exceed. */
  lemma SomeTruthIsSpread(peaks: seq<int>, floors: seq<int>, floor: int, g: nat, limit: real) returns (truth: seq<real>)
    requires HalfAtFloor(peaks, floors, floor, g) && limit > 0.0 && RobustSpread(Sort(Barest(peaks, floors, g))) > limit
    ensures Explains(truth, peaks, floors) && AllPositive(truth) && RobustSpread(Sort(truth)) > limit
    ensures Greatest(truth) == Greatest(AsSamples(peaks)) && Least(truth) <= Least(AsSamples(peaks))
  {
    var mask := AtFloorBut(peaks, floors, g);
    var t := SomeStepIsSpread(peaks, floors, floor, g, limit);
    truth := Lowered(AsSamples(peaks), mask, t);
    LoweredIsPossible(peaks, floors, mask, g, t);
    LoweredLeast(AsSamples(peaks), mask, t);
  }

  /** For medians of runs with one floor, at it in the middle: most are at the floor, or
      exactly half. */
  lemma MedianAtFloorIsMostOrHalf(peaks: seq<int>, floors: seq<int>, side: Side, g: nat)
    requires OneFloor(peaks, floors, side.floor, g) && side.samples == AsSamples(peaks) && SideAtFloor(side, Median)
    ensures MostAtFloor(peaks, floors) || HalfAtFloor(peaks, floors, side.floor, g)
  {
    var s, mask, n := AsSamples(peaks), AtFloorBut(peaks, floors, g), |peaks|;
    var all := AtMost(s, side.floor as real);
    SortSorts(s);
    RankCounts(s, side.floor as real, (n - 1) / 2);
    UnmarkOne(all, g);
    assert mask == all[g := false];
    if all[g] {
      AllMarked(all);
    }
    if 2 * Marks(mask) > n {
      assert IsGreatest(peaks, g);
    }
  }
}
