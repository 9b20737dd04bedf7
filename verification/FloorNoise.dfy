/** The noise gate and the floor: which verdicts of a side at its floor hold for every
    real value it can have had (`internal/report/build.go:580-585`).

    Raising samples to the floor narrows them, and the gate measures how wide they are.
    When enough runs are at their own floor, some real values are wide enough for any
    limit, and only the separation of the two sides keeps the gate quiet.

    (A predicate compared with true in a contract is used as one fact, so that the verifier
    does not prove its clauses again.) */
module FloorNoise {
  import opened RealArithmetic
  import opened OrderStats
  import opened Summaries
  import opened Comparing
  import opened ComparingLaws
  import opened PeakFloor

  // Lowering some samples.

  /** How many places are marked. */
  function Marks(mask: seq<bool>): (n: nat)
    ensures n <= |mask|
  {
    if mask == [] then 0
    else Marks(mask[..|mask| - 1]) + if mask[|mask| - 1] then 1 else 0
  }

  /** The samples, with t in the marked places. */
  function Lowered(s: seq<real>, mask: seq<bool>, t: real): (r: seq<real>)
    requires |mask| == |s|
    ensures |r| == |s| && forall i | 0 <= i < |s| :: r[i] == if mask[i] then t else s[i]
  {
    seq(|s|, i requires 0 <= i < |s| => if mask[i] then t else s[i])
  }

  /** The samples in the other places. */
  function Kept(s: seq<real>, mask: seq<bool>): seq<real>
    requires |mask| == |s|
  {
    if s == [] then []
    else
      var n := |s| - 1;
      Kept(s[..n], mask[..n]) + if mask[n] then [] else [s[n]]
  }

  lemma {:induction false} KeptIsAtLeast(s: seq<real>, mask: seq<bool>, q: real)
    requires |mask| == |s| && forall i | 0 <= i < |s| && !mask[i] :: s[i] >= q
    ensures forall i | 0 <= i < |Kept(s, mask)| :: Kept(s, mask)[i] >= q
  {
    if s != [] {
      KeptIsAtLeast(s[..|s| - 1], mask[..|s| - 1], q);
    }
  }

  lemma LoweredSnoc(s: seq<real>, mask: seq<bool>, t: real)
    requires |mask| == |s| > 0
    ensures var n := |s| - 1;
      Lowered(s, mask, t) == Lowered(s[..n], mask[..n], t) + [if mask[n] then t else s[n]]
  {
  }

  lemma CopiesSnoc(x: real, n: nat)
    ensures Copies(x, n + 1) == Copies(x, n) + [x]
  {
  }

  lemma OneMorePart(whole: seq<real>, low: seq<real>, kept: seq<real>, x: real)
    requires multiset(whole) == multiset(low) + multiset(kept)
    ensures multiset(whole + [x]) == multiset(low + [x]) + multiset(kept)
    ensures multiset(whole + [x]) == multiset(low) + multiset(kept + [x])
  {
  }

  ghost predicate AreParts(whole: seq<real>, low: seq<real>, kept: seq<real>) {
    multiset(whole) == multiset(low) + multiset(kept) && |whole| == |low| + |kept|
  }

  /** The lowered samples are that many copies of t and the ones kept. */
  lemma {:induction false} LoweredParts(s: seq<real>, mask: seq<bool>, t: real)
    requires |mask| == |s|
    ensures AreParts(Lowered(s, mask, t), Copies(t, Marks(mask)), Kept(s, mask)) == true
  {
    if s != [] {
      var n := |s| - 1;
      LoweredParts(s[..n], mask[..n], t);
      LoweredSnoc(s, mask, t);
      CopiesSnoc(t, Marks(mask[..n]));
      OneMorePart(Lowered(s[..n], mask[..n], t), Copies(t, Marks(mask[..n])), Kept(s[..n], mask[..n]), if mask[n] then t else s[n]);
    }
  }

  lemma PartsSort(whole: seq<real>, low: seq<real>, kept: seq<real>, t: real)
    requires AreParts(whole, low, kept) && (forall i | 0 <= i < |low| :: low[i] == t)
    requires forall i | 0 <= i < |kept| :: kept[i] >= t
    ensures Sort(whole) == low + Sort(kept)
  {
    SortSorts(kept);
    SortAtLeast(kept, t);
    var sorted := low + Sort(kept);
    assert Sorted(sorted);
    assert multiset(sorted) == multiset(whole);
    SortIsUnique(whole, sorted);
  }

  /** Sorted, they are the copies and then the ones kept. */
  lemma LoweredSorts(s: seq<real>, mask: seq<bool>, t: real)
    requires |mask| == |s| && forall i | 0 <= i < |s| && !mask[i] :: s[i] >= t
    ensures Marks(mask) + |Kept(s, mask)| == |s|
    ensures Sort(Lowered(s, mask, t)) == Copies(t, Marks(mask)) + Sort(Kept(s, mask))
  {
    LoweredParts(s, mask, t);
    KeptIsAtLeast(s, mask, t);
    PartsSort(Lowered(s, mask, t), Copies(t, Marks(mask)), Kept(s, mask), t);
  }

  lemma SortAtLeast(s: seq<real>, q: real)
    requires forall i | 0 <= i < |s| :: s[i] >= q
    ensures forall i | 0 <= i < |s| :: Sort(s)[i] >= q
  {
    if s != [] {
      SortWithin(s, q, if Greatest(s) >= q then Greatest(s) else q);
    }
  }

  // Medians: more than half of the samples at t, the others far away.

  lemma MiddleOfEqual(sorted: seq<real>, t: real)
    requires |sorted| >= 3 && forall i | 0 <= i <= |sorted| / 2 :: sorted[i] == t
    ensures MedianSorted(sorted) == t && Percentile(sorted, 0.25) == t
  {
    var n := |sorted|;
    var pos := Rank(n, 0.25);
    assert pos <= (n / 2) as real;
    assert Ceil(pos) <= n / 2;
  }

  lemma UpperQuartile(sorted: seq<real>, t: real, q: real)
    requires |sorted| >= 3 && Sorted(sorted) && t <= q
    requires (forall i | 0 <= i <= |sorted| / 2 :: sorted[i] == t) && sorted[|sorted| / 2 + 1] >= q
    ensures Percentile(sorted, 0.75) - t >= (q - t) / 4.0
  {
    var n := |sorted|;
    var middle := (n / 2) as real + 0.25;
    assert middle.Floor == n / 2 && Ceil(middle) == n / 2 + 1;
    InterpolatedMonotone(sorted, middle, Rank(n, 0.75));
    LerpMixes(t, sorted[n / 2 + 1], 0.25);
  }

  /** So far below q that a quarter of the way back is wider than the limit. */
  predicate FarBelow(t: real, q: real, limit: real) {
    0.0 < t < q && (q - t) / 4.0 / IQR_TO_STDDEV / t > limit
  }

  lemma SomeIsFarBelow(q: real, limit: real) returns (t: real)
    requires q > 0.0 && limit >= 0.0
    ensures FarBelow(t, q, limit)
  {
    var k := 2.0 + 6.0 * limit;
    t := q / k;
    QuotientSign(q, k);
    QuotientUndone(q, k);
    assert q - t == t * (1.0 + 6.0 * limit);
    ProductPositive(t, 1.0 + 6.0 * limit);
    var wide := (q - t) / 4.0 / IQR_TO_STDDEV;
    ProductNotNegative(t, limit);
    assert wide > t * limit;
    QuotientGrows(t * limit, wide, t);
    QuotientUndone(limit, t);
  }

  lemma QuotientGrows(a: real, b: real, n: real)
    requires a < b && n > 0.0
    ensures a / n < b / n
  {
    QuotientUndone(a, n);
    QuotientUndone(b, n);
    ProductOrders(n, a / n, b / n);
  }

  // Runs at their own floor.

  /** The runs at their own floor, not counting run g. */
  function AtFloorBut(peaks: seq<int>, floors: seq<int>, g: nat): (mask: seq<bool>)
    requires |floors| == |peaks|
    ensures |mask| == |peaks|
    ensures forall i | 0 <= i < |peaks| :: mask[i] <==> peaks[i] <= floors[i] && i != g
  {
    seq(|peaks|, i requires 0 <= i < |peaks| => peaks[i] <= floors[i] && i != g)
  }

  ghost predicate IsGreatest(peaks: seq<int>, g: nat) {
    g < |peaks| && forall i | 0 <= i < |peaks| :: peaks[i] <= peaks[g]
  }

  /** More than half of the runs are at their own floor, not counting a greatest one. */
  ghost predicate MostAtFloor(peaks: seq<int>, floors: seq<int>)
    requires |floors| == |peaks|
  {
    exists g: nat | IsGreatest(peaks, g) :: 2 * Marks(AtFloorBut(peaks, floors, g)) > |peaks|
  }

  /** The first h marks. */
  function FirstMarks(mask: seq<bool>, h: nat): (first: seq<bool>)
    ensures |first| == |mask| && forall i | 0 <= i < |mask| && first[i] :: mask[i]
    ensures Marks(first) == if Marks(mask) <= h then Marks(mask) else h
  {
    if mask == [] then []
    else
      var n := |mask| - 1;
      FirstMarks(mask[..n], h) + [mask[n] && Marks(mask[..n]) < h]
  }

  lemma {:induction false} UnmarkedIsFewer(mask: seq<bool>, g: nat)
    requires g < |mask| && !mask[g]
    ensures Marks(mask) < |mask|
  {
    if g < |mask| - 1 {
      UnmarkedIsFewer(mask[..|mask| - 1], g);
    }
  }

  /** Just over half of the runs, all at their own floor, used only t. */
  function Wide(peaks: seq<int>, floors: seq<int>, g: nat, t: real): seq<real>
    requires peaks != [] && |floors| == |peaks|
  {
    Lowered(AsSamples(peaks), FirstMarks(AtFloorBut(peaks, floors, g), |peaks| / 2 + 1), t)
  }

  ghost predicate Measured(peaks: seq<int>, floors: seq<int>) {
    peaks != [] && |floors| == |peaks| && forall i | 0 <= i < |peaks| :: peaks[i] > 0 && floors[i] >= 0
  }

  lemma LoweredIsBelow(s: seq<real>, mask: seq<bool>, t: real, g: nat)
    requires |mask| == |s| && g < |s| && !mask[g] && s[g] == Greatest(s) && 0.0 < t < Least(s)
    ensures var r := Lowered(s, mask, t); AllPositive(r) && Below(r, s) && Greatest(r) == Greatest(s)
  {
    var r := Lowered(s, mask, t);
    assert r[g] == s[g];
    assert Greatest(r) in r;
  }

  lemma LoweredExplains(peaks: seq<int>, floors: seq<int>, mask: seq<bool>, t: real)
    requires Measured(peaks, floors) && |mask| == |peaks| && 0.0 < t < Least(AsSamples(peaks))
    requires forall i | 0 <= i < |mask| && mask[i] :: peaks[i] <= floors[i]
    ensures Explains(Lowered(AsSamples(peaks), mask, t), peaks, floors)
  {
    var truth := Lowered(AsSamples(peaks), mask, t);
    forall i | 0 <= i < |truth|
      ensures Possible(peaks[i], truth[i], floors[i])
    {
      assert AsSamples(peaks)[i] >= t;
      OneRun(peaks[i], truth[i], floors[i]);
    }
  }

  lemma GreatestPeak(peaks: seq<int>, g: nat)
    requires IsGreatest(peaks, g)
    ensures AsSamples(peaks)[g] == Greatest(AsSamples(peaks))
  {
    assert Greatest(AsSamples(peaks)) in AsSamples(peaks);
  }

  lemma PeaksArePositive(peaks: seq<int>, floors: seq<int>)
    requires Measured(peaks, floors)
    ensures Least(AsSamples(peaks)) > 0.0
  {
    assert Least(AsSamples(peaks)) in AsSamples(peaks);
  }

  lemma LoweredIsPossible(peaks: seq<int>, floors: seq<int>, mask: seq<bool>, g: nat, t: real)
    requires Measured(peaks, floors) && IsGreatest(peaks, g) && 0.0 < t < Least(AsSamples(peaks))
    requires |mask| == |peaks| && !mask[g] && forall i | 0 <= i < |mask| && mask[i] :: peaks[i] <= floors[i]
    ensures var truth := Lowered(AsSamples(peaks), mask, t);
      Explains(truth, peaks, floors) && AllPositive(truth) && Greatest(truth) == Greatest(AsSamples(peaks))
  {
    GreatestPeak(peaks, g);
    LoweredIsBelow(AsSamples(peaks), mask, t, g);
    LoweredExplains(peaks, floors, mask, t);
  }

  lemma WideIsPossible(peaks: seq<int>, floors: seq<int>, g: nat, t: real)
    requires Measured(peaks, floors) && IsGreatest(peaks, g) && 0.0 < t < Least(AsSamples(peaks))
    ensures var truth := Wide(peaks, floors, g, t);
      Explains(truth, peaks, floors) && AllPositive(truth) && Greatest(truth) == Greatest(AsSamples(peaks))
  {
    LoweredIsPossible(peaks, floors, FirstMarks(AtFloorBut(peaks, floors, g), |peaks| / 2 + 1), g, t);
  }

  lemma MostlyLoweredSorts(s: seq<real>, mask: seq<bool>, t: real)
    requires |mask| == |s| && Marks(mask) == |s| / 2 + 1 < |s| && t < Least(s)
    ensures var sorted, half := Sort(Lowered(s, mask, t)), |s| / 2;
      && (forall i | 0 <= i <= half :: sorted[i] == t) && sorted[half + 1] >= Least(s)
  {
    LoweredSorts(s, mask, t);
    KeptIsAtLeast(s, mask, Least(s));
    SortAtLeast(Kept(s, mask), Least(s));
  }

  lemma WideSpread(sorted: seq<real>, t: real, q: real, limit: real)
    requires |sorted| >= 3 && Sorted(sorted) && FarBelow(t, q, limit)
    requires (forall i | 0 <= i <= |sorted| / 2 :: sorted[i] == t) && sorted[|sorted| / 2 + 1] >= q
    ensures RobustSpread(sorted) > limit
  {
    MiddleOfEqual(sorted, t);
    UpperQuartile(sorted, t, q);
    var iqr := Percentile(sorted, 0.75) - t;
    QuotientMonotone((q - t) / 4.0, iqr, IQR_TO_STDDEV);
    QuotientMonotone((q - t) / 4.0 / IQR_TO_STDDEV, iqr / IQR_TO_STDDEV, t);
  }

  /** Such values are wider than the limit. */
  lemma WideIsWide(peaks: seq<int>, floors: seq<int>, g: nat, t: real, limit: real)
    requires Measured(peaks, floors) && g < |peaks| && FarBelow(t, Least(AsSamples(peaks)), limit)
    requires 2 * Marks(AtFloorBut(peaks, floors, g)) > |peaks|
    ensures var sorted := Sort(Wide(peaks, floors, g, t));
      RobustSpread(sorted) > limit && sorted[0] == t
  {
    var observed, mask := AsSamples(peaks), AtFloorBut(peaks, floors, g);
    UnmarkedIsFewer(mask, g);
    SortSorts(Wide(peaks, floors, g, t));
    MostlyLoweredSorts(observed, FirstMarks(mask, |peaks| / 2 + 1), t);
    WideSpread(Sort(Wide(peaks, floors, g, t)), t, Least(observed), limit);
  }

  /** Samples wider than the limit that the other side overlaps are stopped by the gate, on
      whichever side they are. */
  lemma OverlapIsTooNoisy(wide: seq<real>, other: seq<real>, o: Options, sqrt: Root)
    requires wide != [] && other != [] && RobustSpread(Sort(wide)) > o.maxCV > 0.0 && o.metric.Median?
    requires Least(other) <= Greatest(wide) && Greatest(other) >= Least(wide)
    ensures TooNoisy(SummaryOf(wide, sqrt), SummaryOf(other, sqrt), o)
    ensures TooNoisy(SummaryOf(other, sqrt), SummaryOf(wide, sqrt), o)
  {
    ExtremaAreEnds(wide);
    ExtremaAreEnds(other);
  }

  /** Some real values that explain the observed ones are wider than any limit. */
  lemma MostAreWide(peaks: seq<int>, floors: seq<int>, limit: real) returns (truth: seq<real>)
    requires Measured(peaks, floors) && MostAtFloor(peaks, floors) && limit >= 0.0
    ensures Explains(truth, peaks, floors) && AllPositive(truth) && RobustSpread(Sort(truth)) > limit
    ensures Greatest(truth) == Greatest(AsSamples(peaks)) && Least(truth) <= Least(AsSamples(peaks))
  {
    var g: nat :| IsGreatest(peaks, g) && 2 * Marks(AtFloorBut(peaks, floors, g)) > |peaks|;
    PeaksArePositive(peaks, floors);
    var t := SomeIsFarBelow(Least(AsSamples(peaks)), limit);
    truth := Wide(peaks, floors, g, t);
    WideIsPossible(peaks, floors, g, t);
    WideIsWide(peaks, floors, g, t, limit);
    ExtremaAreEnds(truth);
  }

  /** So some are too noisy to compare. */
  lemma SomeTruthIsTooNoisy(peaks: seq<int>, floors: seq<int>, other: seq<real>, o: Options, sqrt: Root) returns (truth: seq<real>)
    requires Measured(peaks, floors) && MostAtFloor(peaks, floors)
    requires other != [] && Least(other) <= Greatest(AsSamples(peaks)) && Greatest(other) >= Least(AsSamples(peaks))
    requires o.metric.Median? && o.maxCV > 0.0
    ensures Explains(truth, peaks, floors) && AllPositive(truth)
    ensures TooNoisy(SummaryOf(truth, sqrt), SummaryOf(other, sqrt), o) && TooNoisy(SummaryOf(other, sqrt), SummaryOf(truth, sqrt), o)
  {
    truth := MostAreWide(peaks, floors, o.maxCV);
    OverlapIsTooNoisy(truth, other, o, sqrt);
  }

  // The verdicts that hold for every real value.

  function Ungated(o: Options): Options {
    o.(maxCV := 0.0)
  }

  lemma GateOnly(base: seq<real>, head: seq<real>, o: Options, draws: seq<Draw>, sqrt: Root)
    requires base != [] && head != [] && Fits(draws, base, head)
    requires Statistic(base, o.metric) > 0.0 && Defined(base, o.metric, draws)
    ensures Compared(base, head, o, draws, sqrt).verdict == Regression <==>
      Compared(base, head, Ungated(o), draws, sqrt).verdict == Regression && !TooNoisy(SummaryOf(base, sqrt), SummaryOf(head, sqrt), o)
  {
    RegressionMeans(base, head, o, draws, sqrt);
    RegressionMeans(base, head, Ungated(o), draws, sqrt);
    assert DrawsBeyond(base, head, o, draws, true) == DrawsBeyond(base, head, Ungated(o), draws, true);
  }

  lemma PositiveIsComparable(base: seq<real>, m: Metric, draws: seq<Draw>)
    requires base != [] && AllPositive(base) && forall k | 0 <= k < |draws| :: Picks(draws[k].base, |base|)
    ensures Statistic(base, m) > 0.0 && Defined(base, m, draws) && Least(base) > 0.0
  {
    PositiveDefines(base, m, draws);
    StatisticWithin(base, m, Least(base), Greatest(base));
  }

  lemma RegressionIsAbove(base: seq<real>, head: seq<real>, o: Options, draws: seq<Draw>, sqrt: Root)
    requires base != [] && head != [] && Fits(draws, base, head) && !o.higherIsBetter && o.maxPercent >= 0.0
    requires Compared(base, head, o, draws, sqrt).verdict == Regression
    ensures Greatest(head) > Least(base)
  {
    CalledFromEvidence(base, head, o, draws, sqrt);
    RegressionMeans(base, head, o, draws, sqrt);
    Signs(Statistic(base, o.metric), Statistic(head, o.metric));
    StatisticWithin(base, o.metric, Least(base), Greatest(base));
    StatisticWithin(head, o.metric, Least(head), Greatest(head));
  }

  /** Raising the base to what was observed, and lowering the head to the least it can have
      used, keeps a regression that no gate stops. */
  lemma EveryTruthIsCalled(base: seq<real>, head: seq<real>, b: seq<real>, h: seq<real>, o: Options, draws: seq<Draw>, sqrt: Root)
    requires base != [] && head != [] && Fits(draws, base, head) && !o.higherIsBetter && o.maxPercent >= 0.0
    requires Below(b, base) && AllPositive(b) && Below(head, h) && NotNegative(h)
    requires Compared(base, head, Ungated(o), draws, sqrt).verdict == Regression
    requires o.maxCV <= 0.0 || Least(head) > Greatest(base)
    ensures Compared(b, h, o, draws, sqrt).verdict == Regression
  {
    RegressionOnlyStrengthens(base, head, b, h, Ungated(o), draws, sqrt);
    PositiveIsComparable(b, o.metric, draws);
    GateOnly(b, h, o, draws, sqrt);
    StatisticMonotone(head, h, Min);
    StatisticMonotone(b, base, Max);
    DisjointIsSeparated(b, h, sqrt);
  }

  /** Whether a comparison is a regression for all real values of both sides. */
  ghost predicate RegressionForAll(basePeaks: seq<int>, baseFloors: seq<int>, headPeaks: seq<int>, headFloors: seq<int>,
                                   o: Options, draws: seq<Draw>, sqrt: Root)
    requires Measured(basePeaks, baseFloors) && Measured(headPeaks, headFloors)
    requires Fits(draws, AsSamples(basePeaks), AsSamples(headPeaks))
  {
    forall b, h | Explains(b, basePeaks, baseFloors) && AllPositive(b) && Explains(h, headPeaks, headFloors) ::
      Compared(b, h, o, draws, sqrt).verdict == Regression
  }

  lemma NoisyTruthIsNoRegression(basePeaks: seq<int>, baseFloors: seq<int>, head: seq<real>, o: Options, draws: seq<Draw>, sqrt: Root)
    returns (truth: seq<real>)
    requires Measured(basePeaks, baseFloors) && MostAtFloor(basePeaks, baseFloors)
    requires head != [] && Fits(draws, AsSamples(basePeaks), head)
    requires Least(head) <= Greatest(AsSamples(basePeaks)) && Greatest(head) >= Least(AsSamples(basePeaks))
    requires o.metric.Median? && o.maxCV > 0.0
    ensures Explains(truth, basePeaks, baseFloors) && AllPositive(truth)
    ensures Compared(truth, head, o, draws, sqrt).verdict != Regression
  {
    truth := SomeTruthIsTooNoisy(basePeaks, baseFloors, head, o, sqrt);
    PositiveIsComparable(truth, o.metric, draws);
    GateOnly(truth, head, o, draws, sqrt);
  }

  /** The exact question the floor raises. With the gate off, or for medians with most of the
      base at its floor: a comparison is a regression for all real values of both sides if
      and only if it is one without the gate, with the base as observed and the head's runs
      at their own floor using nothing, and the gate is off or those are separated. */
  lemma RegressionForEveryTruth(basePeaks: seq<int>, baseFloors: seq<int>, headPeaks: seq<int>, headFloors: seq<int>,
                                o: Options, draws: seq<Draw>, sqrt: Root)
    requires Measured(basePeaks, baseFloors) && Measured(headPeaks, headFloors)
    requires Fits(draws, AsSamples(basePeaks), AsSamples(headPeaks))
    requires !o.higherIsBetter && o.maxPercent >= 0.0
    requires o.maxCV <= 0.0 || (o.metric.Median? && MostAtFloor(basePeaks, baseFloors))
    ensures var base, head := AsSamples(basePeaks), Lowest(headPeaks, headFloors);
      RegressionForAll(basePeaks, baseFloors, headPeaks, headFloors, o, draws, sqrt) <==>
        && Compared(base, head, Ungated(o), draws, sqrt).verdict == Regression
        && (o.maxCV <= 0.0 || Least(head) > Greatest(base))
  {
    var base, head := AsSamples(basePeaks), Lowest(headPeaks, headFloors);
    ObservedExplains(basePeaks, baseFloors);
    ObservedExplains(headPeaks, headFloors);
    if Compared(base, head, Ungated(o), draws, sqrt).verdict == Regression && (o.maxCV <= 0.0 || Least(head) > Greatest(base)) {
      forall b, h | Explains(b, basePeaks, baseFloors) && AllPositive(b) && Explains(h, headPeaks, headFloors)
        ensures Compared(b, h, o, draws, sqrt).verdict == Regression
      {
        TruthIsBelow(b, basePeaks, baseFloors, 0);
        TruthIsBelow(h, headPeaks, headFloors, 0);
        LowestIsLowest(h, headPeaks, headFloors);
        EveryTruthIsCalled(base, head, b, h, o, draws, sqrt);
      }
    } else if Compared(base, head, o, draws, sqrt).verdict == Regression {
      PositiveIsComparable(base, o.metric, draws);
      GateOnly(base, head, o, draws, sqrt);
      RegressionIsAbove(base, head, o, draws, sqrt);
      var truth := NoisyTruthIsNoRegression(basePeaks, baseFloors, head, o, draws, sqrt);
    }
  }

  /** What is reported of a base at its floor and a head above its own. */
  ghost predicate ReportedFromFloor(base: Side, head: Side, o: Options, draws: seq<Draw>, sqrt: Root) {
    && base.samples != [] && head.samples != [] && Fits(draws, base.samples, head.samples)
    && SideAtFloor(base, o.metric) && !SideAtFloor(head, o.metric)
    && Reported(Floored(base, head, o, draws, sqrt), true, false).Called?
  }

  lemma ReportedOverlaps(base: Side, head: Side, o: Options, draws: seq<Draw>, sqrt: Root)
    requires ReportedFromFloor(base, head, o, draws, sqrt) && !o.higherIsBetter && o.maxPercent >= 0.0
    ensures Greatest(head.samples) > Least(base.samples)
  {
    var raised := Raised(base.samples, base.floor);
    RegressionIsAbove(raised, head.samples, o, draws, sqrt);
    StatisticMonotone(base.samples, raised, Min);
  }

  lemma SeparatedTruthIsCalled(truth: seq<real>, peaks: seq<int>, floors: seq<int>, base: Side, head: Side, o: Options,
                               draws: seq<Draw>, sqrt: Root)
    requires Measured(peaks, floors) && base.samples == AsSamples(peaks) && head.samples != [] && NotNegative(head.samples)
    requires ReportedFromFloor(base, head, o, draws, sqrt) && !o.higherIsBetter && o.maxPercent >= 0.0
    requires o.maxCV <= 0.0 || Least(head.samples) > Greatest(base.samples)
    requires Explains(truth, peaks, floors) && AllPositive(truth)
    ensures Compared(truth, head.samples, o, draws, sqrt).verdict == Regression
  {
    RegressionFromFloor(truth, peaks, floors, base, head, o, draws, sqrt);
    TruthIsBelow(truth, peaks, floors, 0);
    PeaksArePositive(peaks, floors);
    SeparatedStaysQuiet(base.samples, head.samples, truth, o, sqrt);
    SummariesOf(truth, head.samples, o, draws, sqrt);
  }

  lemma SummariesOf(base: seq<real>, head: seq<real>, o: Options, draws: seq<Draw>, sqrt: Root)
    requires base != [] && head != [] && Fits(draws, base, head)
    ensures var c := Compared(base, head, o, draws, sqrt); c.base == SummaryOf(base, sqrt) && c.head == SummaryOf(head, sqrt)
  {
  }

  /** A regression reported from a base at its floor holds for every real value the base can
      have had if and only if the gate is off or the head is separated from what was
      observed: `Least(head) > Greatest(base)`. */
  lemma ReportedRegressionHolds(peaks: seq<int>, floors: seq<int>, base: Side, head: Side, o: Options, draws: seq<Draw>, sqrt: Root)
    requires Measured(peaks, floors) && base.samples == AsSamples(peaks) && head.samples != [] && NotNegative(head.samples)
    requires ReportedFromFloor(base, head, o, draws, sqrt) && !o.higherIsBetter && o.maxPercent >= 0.0
    requires o.maxCV <= 0.0 || (o.metric.Median? && MostAtFloor(peaks, floors))
    ensures (forall truth | Explains(truth, peaks, floors) && AllPositive(truth) ::
               Compared(truth, head.samples, o, draws, sqrt).verdict == Regression)
      <==> (o.maxCV <= 0.0 || Least(head.samples) > Greatest(base.samples))
  {
    if o.maxCV <= 0.0 || Least(head.samples) > Greatest(base.samples) {
      forall truth | Explains(truth, peaks, floors) && AllPositive(truth)
        ensures Compared(truth, head.samples, o, draws, sqrt).verdict == Regression
      {
        SeparatedTruthIsCalled(truth, peaks, floors, base, head, o, draws, sqrt);
      }
    } else {
      ReportedOverlaps(base, head, o, draws, sqrt);
      var truth := NoisyTruthIsNoRegression(peaks, floors, head.samples, o, draws, sqrt);
    }
  }

  // Improvements.

  ghost predicate ReportedToFloor(base: Side, head: Side, o: Options, draws: seq<Draw>, sqrt: Root) {
    && base.samples != [] && head.samples != [] && Fits(draws, base.samples, head.samples)
    && SideAtFloor(head, o.metric) && !SideAtFloor(base, o.metric)
    && Reported(Floored(base, head, o, draws, sqrt), false, true).Called?
  }

  lemma ImprovementIsBelow(base: seq<real>, head: seq<real>, o: Options, draws: seq<Draw>, sqrt: Root)
    requires base != [] && head != [] && Fits(draws, base, head) && !o.higherIsBetter && o.maxPercent >= 0.0
    requires Compared(base, head, o, draws, sqrt).verdict == Improved
    ensures Greatest(base) > Least(head)
  {
    CalledFromEvidence(base, head, o, draws, sqrt);
    Decided(base, head, o, draws, sqrt);
    Signs(Statistic(base, o.metric), Statistic(head, o.metric));
    StatisticWithin(base, o.metric, Least(base), Greatest(base));
    StatisticWithin(head, o.metric, Least(head), Greatest(head));
  }

  lemma ReportedOverlapsBelow(base: Side, head: Side, o: Options, draws: seq<Draw>, sqrt: Root)
    requires ReportedToFloor(base, head, o, draws, sqrt) && !o.higherIsBetter && o.maxPercent >= 0.0
    ensures Greatest(base.samples) > Least(head.samples)
  {
    var raised := Raised(head.samples, head.floor);
    ImprovementIsBelow(base.samples, raised, o, draws, sqrt);
    StatisticMonotone(head.samples, raised, Min);
  }

  lemma SeparatedTruthIsImproved(truth: seq<real>, peaks: seq<int>, floors: seq<int>, base: Side, head: Side, o: Options,
                                 draws: seq<Draw>, sqrt: Root)
    requires Measured(peaks, floors) && head.samples == AsSamples(peaks) && base.samples != []
    requires ReportedToFloor(base, head, o, draws, sqrt) && !o.higherIsBetter && o.maxPercent >= 0.0
    requires o.maxCV <= 0.0 || Greatest(head.samples) < Least(base.samples)
    requires Explains(truth, peaks, floors) && AllPositive(truth)
    ensures Compared(base.samples, truth, o, draws, sqrt).verdict == Improved
  {
    ImprovementToFloor(truth, peaks, floors, base, head, o, draws, sqrt);
    TruthIsBelow(truth, peaks, floors, 0);
    SummariesOf(base.samples, truth, o, draws, sqrt);
    if o.maxCV > 0.0 {
      StatisticMonotone(truth, head.samples, Max);
      DisjointIsSeparated(base.samples, truth, sqrt);
    }
  }

  lemma NoisyTruthIsNoImprovement(peaks: seq<int>, floors: seq<int>, base: Side, head: Side, o: Options,
                                  draws: seq<Draw>, sqrt: Root) returns (truth: seq<real>)
    requires Measured(peaks, floors) && MostAtFloor(peaks, floors) && head.samples == AsSamples(peaks) && base.samples != []
    requires ReportedToFloor(base, head, o, draws, sqrt) && !o.higherIsBetter && o.maxPercent >= 0.0
    requires o.metric.Median? && o.maxCV > 0.0 && Greatest(head.samples) >= Least(base.samples)
    ensures Explains(truth, peaks, floors) && AllPositive(truth)
    ensures Compared(base.samples, truth, o, draws, sqrt).verdict != Improved
  {
    ReportedOverlapsBelow(base, head, o, draws, sqrt);
    truth := SomeTruthIsTooNoisy(peaks, floors, base.samples, o, sqrt);
    ImprovementToFloor(truth, peaks, floors, base, head, o, draws, sqrt);
    SummariesOf(base.samples, truth, o, draws, sqrt);
  }

  /** And an improvement reported to a head at its floor, if and only if the gate is off or
      `Greatest(head) < Least(base)`. */
  lemma ReportedImprovementHolds(peaks: seq<int>, floors: seq<int>, base: Side, head: Side, o: Options, draws: seq<Draw>, sqrt: Root)
    requires Measured(peaks, floors) && head.samples == AsSamples(peaks) && base.samples != []
    requires ReportedToFloor(base, head, o, draws, sqrt) && !o.higherIsBetter && o.maxPercent >= 0.0
    requires o.maxCV <= 0.0 || (o.metric.Median? && MostAtFloor(peaks, floors))
    ensures (forall truth | Explains(truth, peaks, floors) && AllPositive(truth) ::
               Compared(base.samples, truth, o, draws, sqrt).verdict == Improved)
      <==> (o.maxCV <= 0.0 || Greatest(head.samples) < Least(base.samples))
  {
    if o.maxCV <= 0.0 || Greatest(head.samples) < Least(base.samples) {
      forall truth | Explains(truth, peaks, floors) && AllPositive(truth)
        ensures Compared(base.samples, truth, o, draws, sqrt).verdict == Improved
      {
        SeparatedTruthIsImproved(truth, peaks, floors, base, head, o, draws, sqrt);
      }
    } else {
      var truth := NoisyTruthIsNoImprovement(peaks, floors, base, head, o, draws, sqrt);
    }
  }

  // Overlapping sides: how wide the real values are decides.

  lemma OverlapDecides(a: seq<real>, b: seq<real>, o: Options, sqrt: Root)
    requires a != [] && b != [] && o.maxCV > 0.0 && Least(b) <= Greatest(a) && Greatest(b) >= Least(a)
    ensures TooNoisy(SummaryOf(a, sqrt), SummaryOf(b, sqrt), o) <==>
      SummaryOf(a, sqrt).Dispersion(o.metric) > o.maxCV || SummaryOf(b, sqrt).Dispersion(o.metric) > o.maxCV
  {
    DisjointIsSeparated(a, b, sqrt);
  }

  /** Where the sides overlap, the side that is not at its floor was quiet. */
  lemma ReportedHeadIsQuiet(base: Side, head: Side, o: Options, draws: seq<Draw>, sqrt: Root)
    requires ReportedFromFloor(base, head, o, draws, sqrt) && !o.higherIsBetter && o.maxPercent >= 0.0
    requires o.maxCV > 0.0 && Least(head.samples) <= Greatest(base.samples)
    ensures SummaryOf(head.samples, sqrt).Dispersion(o.metric) <= o.maxCV
  {
    var raised := Raised(base.samples, base.floor);
    StatisticMonotone(base.samples, raised, Max);
    RegressionIsAbove(raised, head.samples, o, draws, sqrt);
    CalledFromEvidence(raised, head.samples, o, draws, sqrt);
    RegressionMeans(raised, head.samples, o, draws, sqrt);
    OverlapDecides(raised, head.samples, o, sqrt);
  }

  lemma ReportedBaseIsQuiet(base: Side, head: Side, o: Options, draws: seq<Draw>, sqrt: Root)
    requires ReportedToFloor(base, head, o, draws, sqrt) && !o.higherIsBetter && o.maxPercent >= 0.0
    requires o.maxCV > 0.0 && Least(base.samples) <= Greatest(head.samples)
    ensures SummaryOf(base.samples, sqrt).Dispersion(o.metric) <= o.maxCV
  {
    var raised := Raised(head.samples, head.floor);
    StatisticMonotone(head.samples, raised, Max);
    ImprovementIsBelow(base.samples, raised, o, draws, sqrt);
    CalledFromEvidence(base.samples, raised, o, draws, sqrt);
    ImprovementMeans(base.samples, raised, o, draws, sqrt);
    OverlapDecides(base.samples, raised, o, sqrt);
  }

  /** For overlapping sides a reported regression holds for real values as long as they are
      no wider than the limit. */
  lemma QuietTruthIsCalled(truth: seq<real>, peaks: seq<int>, floors: seq<int>, base: Side, head: Side, o: Options,
                           draws: seq<Draw>, sqrt: Root)
    requires Measured(peaks, floors) && base.samples == AsSamples(peaks) && head.samples != [] && NotNegative(head.samples)
    requires ReportedFromFloor(base, head, o, draws, sqrt) && !o.higherIsBetter && o.maxPercent >= 0.0
    requires o.maxCV > 0.0 && Least(head.samples) <= Greatest(base.samples)
    requires Explains(truth, peaks, floors) && AllPositive(truth) && SummaryOf(truth, sqrt).Dispersion(o.metric) <= o.maxCV
    ensures Compared(truth, head.samples, o, draws, sqrt).verdict == Regression
  {
    ReportedHeadIsQuiet(base, head, o, draws, sqrt);
    RegressionFromFloor(truth, peaks, floors, base, head, o, draws, sqrt);
    SummariesOf(truth, head.samples, o, draws, sqrt);
  }

  /** And does not for wider ones whose greatest and least run overlap the head. */
  lemma WideTruthIsNotCalled(truth: seq<real>, head: seq<real>, o: Options, draws: seq<Draw>, sqrt: Root)
    requires truth != [] && head != [] && Fits(draws, truth, head) && AllPositive(truth)
    requires o.maxCV > 0.0 && Least(head) <= Greatest(truth) && Greatest(head) >= Least(truth)
    requires SummaryOf(truth, sqrt).Dispersion(o.metric) > o.maxCV
    ensures Compared(truth, head, o, draws, sqrt).verdict != Regression
  {
    OverlapDecides(truth, head, o, sqrt);
    PositiveIsComparable(truth, o.metric, draws);
    GateOnly(truth, head, o, draws, sqrt);
  }

  lemma QuietTruthIsImproved(truth: seq<real>, peaks: seq<int>, floors: seq<int>, base: Side, head: Side, o: Options,
                             draws: seq<Draw>, sqrt: Root)
    requires Measured(peaks, floors) && head.samples == AsSamples(peaks) && base.samples != []
    requires ReportedToFloor(base, head, o, draws, sqrt) && !o.higherIsBetter && o.maxPercent >= 0.0
    requires o.maxCV > 0.0 && Least(base.samples) <= Greatest(head.samples)
    requires Explains(truth, peaks, floors) && AllPositive(truth) && SummaryOf(truth, sqrt).Dispersion(o.metric) <= o.maxCV
    ensures Compared(base.samples, truth, o, draws, sqrt).verdict == Improved
  {
    ReportedBaseIsQuiet(base, head, o, draws, sqrt);
    ImprovementToFloor(truth, peaks, floors, base, head, o, draws, sqrt);
    SummariesOf(base.samples, truth, o, draws, sqrt);
  }

  lemma WideTruthIsNotImproved(truth: seq<real>, peaks: seq<int>, floors: seq<int>, base: Side, head: Side, o: Options,
                               draws: seq<Draw>, sqrt: Root)
    requires Measured(peaks, floors) && head.samples == AsSamples(peaks) && base.samples != []
    requires ReportedToFloor(base, head, o, draws, sqrt) && !o.higherIsBetter && o.maxPercent >= 0.0
    requires Explains(truth, peaks, floors) && AllPositive(truth) && SummaryOf(truth, sqrt).Dispersion(o.metric) > o.maxCV
    requires o.maxCV > 0.0 && Least(base.samples) <= Greatest(truth) && Greatest(base.samples) >= Least(truth)
    ensures Compared(base.samples, truth, o, draws, sqrt).verdict != Improved
  {
    OverlapDecides(base.samples, truth, o, sqrt);
    ImprovementToFloor(truth, peaks, floors, base, head, o, draws, sqrt);
    SummariesOf(base.samples, truth, o, draws, sqrt);
  }

  // When most of a side is at its floor.

  /** Counting the runs at their floor counts these marks, but for the greatest run. */
  lemma {:induction false} CountedMarks(peaks: seq<int>, floors: seq<int>, g: nat)
    requires |floors| == |peaks| && forall i | 0 <= i < |peaks| :: peaks[i] > 0
    ensures Marks(AtFloorBut(peaks, floors, g))
         == CountAtFloor(peaks, floors) - if g < |peaks| && peaks[g] <= floors[g] then 1 else 0
  {
    if peaks != [] {
      var n := |peaks| - 1;
      CountedMarks(peaks[..n], floors[..n], g);
      assert AtFloorBut(peaks, floors, g)[..n] == AtFloorBut(peaks[..n], floors[..n], g);
    }
  }

  lemma {:induction false} KeptIsAbove(s: seq<real>, mask: seq<bool>, f: real)
    requires |mask| == |s| && forall i | 0 <= i < |s| && !mask[i] :: s[i] > f
    ensures forall i | 0 <= i < |Kept(s, mask)| :: Kept(s, mask)[i] > f
  {
    if s != [] {
      KeptIsAbove(s[..|s| - 1], mask[..|s| - 1], f);
    }
  }

  function AtMost(s: seq<real>, f: real): (mask: seq<bool>)
    ensures |mask| == |s| && forall i | 0 <= i < |s| :: mask[i] <==> s[i] <= f
  {
    seq(|s|, i requires 0 <= i < |s| => s[i] <= f)
  }

  /** Past the lowered samples come the ones kept. */
  lemma PastLowered(s: seq<real>, mask: seq<bool>, t: real, f: real, k: nat)
    requires |mask| == |s| && Marks(mask) <= k < |s| && t <= f && forall i | 0 <= i < |s| && !mask[i] :: s[i] > f
    ensures Sort(Lowered(s, mask, t))[k] > f
  {
    LoweredSorts(s, mask, t);
    KeptIsAbove(s, mask, f);
    SortMember(Kept(s, mask), k - Marks(mask));
  }

  lemma LoweredSortsBelow(s: seq<real>, mask: seq<bool>, t: real, k: nat)
    requires |mask| == |s| && k < |s| && t <= Least(s)
    ensures Sort(Lowered(s, mask, t))[k] <= Sort(s)[k]
  {
    SortMonotone(Lowered(s, mask, t), s);
  }

  /** A sorted sample at most f has as many such samples before it. */
  lemma RankCounts(s: seq<real>, f: real, k: nat)
    requires k < |s| && Sort(s)[k] <= f
    ensures Marks(AtMost(s, f)) > k
  {
    SortMember(s, k);
    LoweredSortsBelow(s, AtMost(s, f), Least(s), k);
    if k >= Marks(AtMost(s, f)) {
      PastLowered(s, AtMost(s, f), Least(s), f, k);
    }
  }

  lemma {:induction false} AllMarked(mask: seq<bool>)
    requires forall i | 0 <= i < |mask| :: mask[i]
    ensures Marks(mask) == |mask|
  {
    if mask != [] {
      AllMarked(mask[..|mask| - 1]);
    }
  }

  lemma {:induction false} UnmarkOne(mask: seq<bool>, g: nat)
    requires g < |mask|
    ensures Marks(mask[g := false]) == Marks(mask) - if mask[g] then 1 else 0
  {
    var n := |mask| - 1;
    if g < n {
      assert mask[g := false][..n] == mask[..n][g := false];
      UnmarkOne(mask[..n], g);
    } else {
      assert mask[g := false][..n] == mask[..n];
    }
  }

  lemma GreatestExists(peaks: seq<int>) returns (g: nat)
    requires peaks != []
    ensures IsGreatest(peaks, g)
  {
    var s := AsSamples(peaks);
    assert Greatest(s) in s;
    g :| g < |s| && s[g] == Greatest(s);
    forall i | 0 <= i < |peaks|
      ensures peaks[i] <= peaks[g]
    {
      assert s[i] <= s[g];
    }
  }

  /** Runs with one floor, the middle one at it. */
  lemma MiddleAtFloorIsMost(peaks: seq<int>, floors: seq<int>, floor: int)
    requires Measured(peaks, floors) && |peaks| >= 3 && forall i | 0 <= i < |floors| :: floors[i] == floor
    requires Sort(AsSamples(peaks))[|peaks| / 2] <= floor as real
    ensures MostAtFloor(peaks, floors)
  {
    var mask := AtMost(AsSamples(peaks), floor as real);
    RankCounts(AsSamples(peaks), floor as real, |peaks| / 2);
    var g := GreatestExists(peaks);
    UnmarkOne(mask, g);
    assert AtFloorBut(peaks, floors, g) == mask[g := false];
    if mask[g] {
      AllMarked(mask);
    }
  }

  /** For an odd number of runs with one floor, from three on, the median being at the floor
      is enough. */
  lemma OddMedianAtFloorIsMost(peaks: seq<int>, floors: seq<int>, side: Side)
    requires Measured(peaks, floors) && |peaks| % 2 == 1 && |peaks| >= 3 && side.samples == AsSamples(peaks)
    requires (forall i | 0 <= i < |floors| :: floors[i] == side.floor) && SideAtFloor(side, Median)
    ensures MostAtFloor(peaks, floors)
  {
    MiddleAtFloorIsMost(peaks, floors, side.floor);
  }

  // A comparison under the default settings.

  const DEFAULTS := Options(Median, false, 10.0, 0.0, 0.95, 10, 0.5)

  /** How often a draw picks a place. */
  function TimesPicked(places: seq<nat>, j: nat): nat {
    Marks(seq(|places|, i requires 0 <= i < |places| => places[i] == j))
  }

  /** The draws that pick base sample j at most four times. */
  ghost function UsualDraws(draws: seq<Draw>, j: nat): set<int> {
    set k | 0 <= k < |draws| && TimesPicked(draws[k].base, j) <= 4
  }

  lemma {:induction false} MarksOfNot(mask: seq<bool>, other: seq<bool>)
    requires |mask| == |other| && forall i | 0 <= i < |mask| :: mask[i] <==> !other[i]
    ensures Marks(mask) + Marks(other) == |mask|
  {
    if mask != [] {
      MarksOfNot(mask[..|mask| - 1], other[..|mask| - 1]);
    }
  }

  /** Ten samples, at least six of them x and the others larger. */
  lemma MostlyTheSame(s: seq<real>, x: real)
    requires |s| == 10 && (forall i | 0 <= i < 10 :: s[i] >= x) && Marks(AtMost(s, x)) >= 6
    ensures Statistic(s, Median) == x
  {
    var mask := AtMost(s, x);
    assert Lowered(s, mask, x) == s;
    LoweredSorts(s, mask, x);
    assert Sort(s)[4] == x && Sort(s)[5] == x;
  }

  lemma UsualDrawIsTen(base: seq<real>, places: seq<nat>)
    requires |base| == 10 && base[9] == 30.0 && forall i | 0 <= i < 9 :: base[i] == 10.0
    requires Picks(places, 10) && TimesPicked(places, 9) <= 4
    ensures Statistic(Resample(base, places), Median) == 10.0
  {
    var drawn := Resample(base, places);
    var picked := seq(|places|, i requires 0 <= i < |places| => places[i] == 9);
    MarksOfNot(AtMost(drawn, 10.0), picked);
    MostlyTheSame(drawn, 10.0);
  }

  lemma TwentyIsTwenty(head: seq<real>, places: seq<nat>)
    requires |head| == 10 && (forall i | 0 <= i < 10 :: head[i] == 20.0) && Picks(places, 10)
    ensures Statistic(head, Median) == 20.0 == Statistic(Resample(head, places), Median)
  {
    StatisticWithin(head, Median, 20.0, 20.0);
    StatisticWithin(Resample(head, places), Median, 20.0, 20.0);
  }

  /** Ten sorted samples. */
  lemma SpreadOfTen(s: seq<real>)
    requires |s| == 10 && Sorted(s) && s[4] + s[5] > 0.0
    ensures Sort(s) == s && Statistic(s, Median) == (s[4] + s[5]) / 2.0
    ensures RobustSpread(s) == (Lerp(s[6], s[7], 0.75) - Lerp(s[2], s[3], 0.25)) / IQR_TO_STDDEV / ((s[4] + s[5]) / 2.0)
  {
    SortIsUnique(s, s);
    var low, high := Rank(10, 0.25), Rank(10, 0.75);
    assert low == 2.25 && high == 6.75;
    assert low.Floor == 2 && Ceil(low) == 3 && high.Floor == 6 && Ceil(high) == 7;
  }

  ghost predicate TensAndThirty(base: seq<real>) {
    |base| == 10 && base[9] == 30.0 && forall i | 0 <= i < 9 :: base[i] == 10.0
  }

  ghost predicate Twenties(head: seq<real>) {
    |head| == 10 && forall i | 0 <= i < 10 :: head[i] == 20.0
  }

  lemma TensAreQuiet(base: seq<real>, head: seq<real>, sqrt: Root)
    requires TensAndThirty(base) && Twenties(head)
    ensures Statistic(base, Median) == 10.0 && Statistic(head, Median) == 20.0
    ensures !TooNoisy(SummaryOf(base, sqrt), SummaryOf(head, sqrt), DEFAULTS)
  {
    SpreadOfTen(base);
    SpreadOfTen(head);
  }

  lemma UsualDrawIsBeyond(base: seq<real>, head: seq<real>, draw: Draw)
    requires TensAndThirty(base) && Twenties(head) && Picks(draw.base, 10) && Picks(draw.head, 10)
    requires TimesPicked(draw.base, 9) <= 4
    ensures DrawnBase(base, Median, draw) > 0.0
    ensures Beyond(Change(DrawnBase(base, Median, draw), DrawnHead(head, Median, draw)), DEFAULTS, true)
  {
    UsualDrawIsTen(base, draw.base);
    TwentyIsTwenty(head, draw.head);
    assert Change(10.0, 20.0) == 100.0;
  }

  lemma TensAreCalled(base: seq<real>, head: seq<real>, draws: seq<Draw>, sqrt: Root)
    requires TensAndThirty(base) && Twenties(head) && Fits(draws, base, head)
    requires Share(|UsualDraws(draws, 9)|, |draws|) >= 0.95
    ensures Compared(base, head, DEFAULTS, draws, sqrt).verdict == Regression
  {
    PositiveIsComparable(base, Median, draws);
    TensAreQuiet(base, head, sqrt);
    assert Change(10.0, 20.0) == 100.0;
    var beyond := DrawsBeyond(base, head, DEFAULTS, draws, true);
    forall k | k in UsualDraws(draws, 9)
      ensures k in beyond
    {
      UsualDrawIsBeyond(base, head, draws[k]);
    }
    SubsetIsNoLarger(UsualDraws(draws, 9), beyond);
    ShareMonotone(|UsualDraws(draws, 9)|, |beyond|, |draws|);
    RegressionMeans(base, head, DEFAULTS, draws, sqrt);
  }

  /** Five of ten runs used a tenth of the floor, four all of it, and one 30. */
  ghost predicate OnesTensAndThirty(truth: seq<real>) {
    |truth| == 10 && truth[9] == 30.0 && (forall i | 0 <= i < 5 :: truth[i] == 1.0) && forall i | 5 <= i < 9 :: truth[i] == 10.0
  }

  lemma TruthIsNoisy(truth: seq<real>, head: seq<real>, sqrt: Root)
    requires OnesTensAndThirty(truth) && Twenties(head)
    ensures TooNoisy(SummaryOf(truth, sqrt), SummaryOf(head, sqrt), DEFAULTS) == true
    ensures Statistic(truth, Median) > 0.0
  {
    SpreadOfTen(truth);
    SpreadOfTen(head);
  }

  lemma NoisyIsInconclusive(base: seq<real>, head: seq<real>, o: Options, draws: seq<Draw>, sqrt: Root)
    requires base != [] && head != [] && Fits(draws, base, head) && Statistic(base, o.metric) > 0.0
    requires TooNoisy(SummaryOf(base, sqrt), SummaryOf(head, sqrt), o) == true
    ensures Compared(base, head, o, draws, sqrt).verdict == Inconclusive
  {
    Decided(base, head, o, draws, sqrt);
  }

  lemma TensAreReported(base: Side, head: Side, draws: seq<Draw>, sqrt: Root)
    requires TensAndThirty(base.samples) && base.floor == 10 && Twenties(head.samples) && head.floor == 0
    requires Fits(draws, base.samples, head.samples) && Share(|UsualDraws(draws, 9)|, |draws|) >= 0.95
    ensures ReportedFromFloor(base, head, DEFAULTS, draws, sqrt) && Floored(base, head, DEFAULTS, draws, sqrt).verdict == Regression
  {
    TensAreQuiet(base.samples, head.samples, sqrt);
    assert Raised(base.samples, 10) == base.samples;
    TensAreCalled(base.samples, head.samples, draws, sqrt);
    SummariesOf(base.samples, head.samples, DEFAULTS, draws, sqrt);
  }

  /** Nine of the runs observed at a floor of 10, and one at 30. */
  ghost predicate AtTen(peaks: seq<int>, floors: seq<int>) {
    && |peaks| == |floors| == 10 && peaks[9] == 30
    && (forall i | 0 <= i < 9 :: peaks[i] == 10) && forall i | 0 <= i < 10 :: floors[i] == 10
  }

  lemma ExampleIsPossible(peaks: seq<int>, floors: seq<int>, truth: seq<real>)
    requires AtTen(peaks, floors) && OnesTensAndThirty(truth)
    ensures Explains(truth, peaks, floors) && AllPositive(truth)
    ensures TensAndThirty(AsSamples(peaks))
  {
    ExplainsMeans(truth, peaks, floors);
  }

  /** Ten runs a side under the default settings, whatever is drawn: a regression is reported
      when 95% of the draws pick the slow base run at most four times, while a comparison of
      real values that explain the runs is always too noisy to call. */
  lemma CalledAtFloorButNoisyInTruth(peaks: seq<int>, floors: seq<int>, truth: seq<real>, base: Side, head: Side,
                                     draws: seq<Draw>, sqrt: Root)
    requires AtTen(peaks, floors) && OnesTensAndThirty(truth)
    requires base == Side(AsSamples(peaks), 10, true) && head == Side(Copies(20.0, 10), 0, true)
    requires Fits(draws, base.samples, head.samples)
    ensures Explains(truth, peaks, floors) && AllPositive(truth)
    ensures Share(|UsualDraws(draws, 9)|, |draws|) >= 0.95 ==>
      ReportedFromFloor(base, head, DEFAULTS, draws, sqrt) && Floored(base, head, DEFAULTS, draws, sqrt).verdict == Regression
    ensures Compared(truth, head.samples, DEFAULTS, draws, sqrt).verdict == Inconclusive
  {
    ExampleIsPossible(peaks, floors, truth);
    if Share(|UsualDraws(draws, 9)|, |draws|) >= 0.95 {
      TensAreReported(base, head, draws, sqrt);
    }
    TruthIsNoisy(truth, head.samples, sqrt);
    NoisyIsInconclusive(truth, head.samples, DEFAULTS, draws, sqrt);
  }
}
