/** What one slow sample can do to a comparison: the promise at
    `internal/stats/compare.go:111-113`, and exactly where it stops.

    One sample carries a statistic when it can move it at will. It carries the mean
    and the maximum, and the median of two samples; never the minimum or the median
    of three samples or more. A statistic it does not carry never makes it a
    regression. One it carries makes it a regression exactly when enough of the draws
    contain it. */
module SlowSample {
  import opened RealArithmetic
  import opened OrderStats
  import opened Summaries
  import opened Comparing
  import opened ComparingLaws

  /** Whether one of n samples can move the statistic at will. */
  predicate Carries(m: Metric, n: nat) {
    m.Mean? || m.Max? || (m.Median? && n == 2)
  }

  /** Every head sample but j is within the tolerance of the value b. */
  ghost predicate AllButOneWithin(b: real, head: seq<real>, j: nat, maxPercent: real)
    requires b > 0.0
  {
    forall i | 0 <= i < |head| && i != j :: Change(b, head[i]) <= maxPercent
  }

  /** The draws that contain head sample j. */
  ghost function DrawsWith(draws: seq<Draw>, j: nat): set<int> {
    set k | 0 <= k < |draws| && j in draws[k].head
  }

  ghost function ShareWith(draws: seq<Draw>, j: nat): real {
    Share(|DrawsWith(draws, j)|, |draws|)
  }

  // The tolerance as a bound on values.

  /** The largest value within the tolerance of b. */
  function Bar(b: real, maxPercent: real): real {
    Times(b, 1.0 + maxPercent / 100.0)
  }

  lemma WithinBar(b: real, x: real, maxPercent: real)
    requires b > 0.0
    ensures Change(b, x) <= maxPercent <==> x <= Bar(b, maxPercent)
  {
    QuotientUndone(x, b);
    ProductOrders(b, x / b, 1.0 + maxPercent / 100.0);
  }

  lemma BarGrows(b: real, c: real, maxPercent: real)
    requires b <= c && maxPercent >= 0.0
    ensures Bar(b, maxPercent) <= Bar(c, maxPercent)
  {
    ProductMonotone(1.0 + maxPercent / 100.0, b, c);
  }

  // Statistics that ignore one sample.

  function Without(s: seq<real>, j: nat): seq<real>
    requires j < |s|
  {
    s[..j] + s[j + 1..]
  }

  /** Inserting a value only moves the others up. */
  lemma {:induction false} InsertBelow(x: real, s: seq<real>, k: nat)
    requires Sorted(s) && k < |s|
    ensures Insert(x, s)[k] <= s[k]
  {
    if x > s[0] && k > 0 {
      InsertBelow(x, s[1..], k - 1);
    }
  }

  lemma WithoutAdds(s: seq<real>, j: nat)
    requires j < |s|
    ensures multiset(s) == multiset(Without(s, j)) + multiset{s[j]}
  {
    assert s == s[..j] + [s[j]] + s[j + 1..];
  }

  /** Sorting is inserting any sample among the others, sorted. */
  lemma SortAround(s: seq<real>, j: nat, sorted: seq<real>)
    requires j < |s| && sorted == Sort(Without(s, j))
    ensures Sort(s) == Insert(s[j], sorted) && Sorted(sorted)
  {
    SortSorts(Without(s, j));
    InsertSorts(s[j], sorted);
    InsertAdds(s[j], sorted);
    WithoutAdds(s, j);
    SortIsUnique(s, Insert(s[j], sorted));
  }

  /** All sorted samples but the last are at most any bound of the samples but one. */
  lemma AllButLast(s: seq<real>, j: nat, bound: real, k: nat)
    requires j < |s| && (forall i | 0 <= i < |s| && i != j :: s[i] <= bound) && k < |s| - 1
    ensures Sort(s)[k] <= bound
  {
    var rest := Without(s, j);
    var sorted := Sort(rest);
    SortAround(s, j, sorted);
    InsertBelow(s[j], sorted, k);
    SortMember(rest, k);
  }

  /** A statistic that one sample does not carry is at most any bound of the others. */
  lemma StatisticIgnoresOne(s: seq<real>, m: Metric, j: nat, bound: real)
    requires |s| >= 2 && !Carries(m, |s|) && j < |s| && forall i | 0 <= i < |s| && i != j :: s[i] <= bound
    ensures Statistic(s, m) <= bound
  {
    if m.Min? {
      var other := if j == 0 then 1 else 0;
      assert Least(s) <= s[other];
    } else {
      AllButLast(s, j, bound, |s| / 2);
      AllButLast(s, j, bound, |s| / 2 - 1);
    }
  }

  /** One slow sample cannot fail a build when it does not carry the statistic, however
      slow it is and whatever is drawn. */
  lemma UncarriedIsNoRegression(base: seq<real>, head: seq<real>, j: nat, o: Options, draws: seq<Draw>, sqrt: Root)
    requires base != [] && |head| >= 2 && j < |head| && Fits(draws, base, head)
    requires !Carries(o.metric, |head|) && !o.higherIsBetter && Statistic(base, o.metric) > 0.0
    requires AllButOneWithin(Statistic(base, o.metric), head, j, o.maxPercent)
    ensures Compared(base, head, o, draws, sqrt).verdict != Regression
  {
    var b := Statistic(base, o.metric);
    forall i | 0 <= i < |head| && i != j
      ensures head[i] <= Bar(b, o.maxPercent)
    {
      WithinBar(b, head[i], o.maxPercent);
    }
    StatisticIgnoresOne(head, o.metric, j, Bar(b, o.maxPercent));
    WithinBar(b, Statistic(head, o.metric), o.maxPercent);
    Decided(base, head, o, draws, sqrt);
    SmallChange(SummaryOf(base, sqrt), SummaryOf(head, sqrt), Changes(base, head, o.metric, draws), o);
  }

  lemma SmallChange(b: Summary, h: Summary, changes: seq<real>, o: Options)
    requires b.Value(o.metric) > 0.0 && !o.higherIsBetter
    requires Change(b.Value(o.metric), h.Value(o.metric)) <= o.maxPercent
    ensures Judged(b, h, changes, o).verdict != Regression
  {
  }

  // Every statistic: a regression needs the slow sample in enough draws.

  /** A draw without the slow sample is within the tolerance. */
  lemma DrawWithoutIsWithin(base: seq<real>, head: seq<real>, j: nat, o: Options, draw: Draw)
    requires base != [] && head != [] && Picks(draw.base, |base|) && Picks(draw.head, |head|)
    requires Least(base) > 0.0 && o.maxPercent >= 0.0 && !o.higherIsBetter
    requires AllButOneWithin(Least(base), head, j, o.maxPercent) && j !in draw.head
    ensures DrawnBase(base, o.metric, draw) > 0.0
    ensures !Beyond(Change(DrawnBase(base, o.metric, draw), DrawnHead(head, o.metric, draw)), o, true)
  {
    var bar := Bar(Least(base), o.maxPercent);
    var drawn := Resample(head, draw.head);
    DrawnWithin(base, o.metric, draw.base, Least(base), Greatest(base));
    forall i | 0 <= i < |drawn|
      ensures Least(drawn) <= drawn[i] <= bar
    {
      WithinBar(Least(base), head[draw.head[i]], o.maxPercent);
    }
    StatisticWithin(drawn, o.metric, Least(drawn), bar);
    BarGrows(Least(base), DrawnBase(base, o.metric, draw), o.maxPercent);
    WithinBar(DrawnBase(base, o.metric, draw), DrawnHead(head, o.metric, draw), o.maxPercent);
  }

  lemma LeastIsPositive(base: seq<real>, m: Metric, draws: seq<Draw>)
    requires base != [] && Least(base) > 0.0 && forall k | 0 <= k < |draws| :: Picks(draws[k].base, |base|)
    ensures Statistic(base, m) > 0.0 && Defined(base, m, draws)
  {
    PositiveDefines(base, m, draws);
    StatisticWithin(base, m, Least(base), Greatest(base));
  }

  /** For every statistic: when every head sample but one is within the tolerance, a
      regression needs that one in the required share of the draws. */
  lemma RegressionNeedsTheSlowSample(base: seq<real>, head: seq<real>, j: nat, o: Options, draws: seq<Draw>, sqrt: Root)
    requires base != [] && j < |head| && Fits(draws, base, head)
    requires Least(base) > 0.0 && o.maxPercent >= 0.0 && !o.higherIsBetter
    requires AllButOneWithin(Least(base), head, j, o.maxPercent)
    ensures Compared(base, head, o, draws, sqrt).verdict == Regression ==> ShareWith(draws, j) >= o.confidence
  {
    LeastIsPositive(base, o.metric, draws);
    RegressionMeans(base, head, o, draws, sqrt);
    var beyond := DrawsBeyond(base, head, o, draws, true);
    forall k | k in beyond
      ensures k in DrawsWith(draws, j)
    {
      if j !in draws[k].head {
        DrawWithoutIsWithin(base, head, j, o, draws[k]);
      }
    }
    SubsetIsNoLarger(beyond, DrawsWith(draws, j));
    ShareMonotone(|beyond|, |DrawsWith(draws, j)|, |draws|);
  }

  // Statistics that one sample carries.

  /** What a sample y among n - 1 that are at least lo makes of the mean. */
  function Spill(y: real, lo: real, n: nat): real
    requires n > 0
  {
    (y + Times((n - 1) as real, lo)) / n as real
  }

  lemma SpillIsBelow(y: real, lo: real, n: nat)
    requires n > 0 && lo <= y
    ensures Spill(y, lo, n) <= y
  {
    var k := n as real;
    assert (n - 1) as real == k - 1.0;
    TimesMonotone(k - 1.0, lo, y);
    OneMore(k, y);
    QuotientMonotone(y + Times(k - 1.0, lo), Times(k, y), k);
    QuotientUndone(y, k);
  }

  lemma MedianOfTwoIsMean(s: seq<real>)
    requires |s| == 2
    ensures Statistic(s, Median) == (s[0] + s[1]) / 2.0 == Statistic(s, Mean)
  {
    var one, other := s[..1], s[1..];
    assert Sum(one) == Sum(one[..0]) + s[0];
    assert Sort(other) == Insert(s[1], Sort(other[1..])) && Sort(other[1..]) == [];
    assert Sort(other) == [s[1]];
    assert other[1..] == [] && Insert(s[0], []) == [s[0]];
    assert Insert(s[0], other) == if s[0] <= s[1] then [s[0], s[1]] else [s[1], s[0]];
  }

  /** A statistic that a sample carries is at least what it spills over. */
  lemma CarriedIsAtLeast(s: seq<real>, m: Metric, k: nat, lo: real)
    requires |s| >= 2 && Carries(m, |s|) && k < |s| && forall i | 0 <= i < |s| :: s[i] >= lo
    ensures Statistic(s, m) >= Spill(s[k], lo, |s|)
  {
    if m.Max? {
      SpillIsBelow(s[k], lo, |s|);
    } else {
      SumWithOne(s, lo, k);
      QuotientMonotone(s[k] + Times((|s| - 1) as real, lo), Sum(s), |s| as real);
      if m.Median? {
        MedianOfTwoIsMean(s);
      }
    }
  }

  /** The slow sample alone takes the statistic of the head beyond the tolerance. */
  ghost predicate SlowEnough(base: seq<real>, head: seq<real>, j: nat, o: Options)
    requires base != [] && Greatest(base) > 0.0 && j < |head|
  {
    Beyond(Change(Greatest(base), Spill(head[j], Least(head), |head|)), o, true)
  }

  /** Beyond the tolerance, a larger value and a smaller base are too. */
  lemma BeyondGrows(b: real, h: real, b': real, h': real, o: Options)
    requires 0.0 < b' <= b && h <= h' && !o.higherIsBetter && o.maxPercent >= 0.0
    requires Beyond(Change(b, h), o, true)
    ensures Beyond(Change(b', h'), o, true)
  {
    Signs(b, h);
    ChangeMonotone(b, h, b', h');
  }

  lemma DrawnCarriedIsAtLeast(head: seq<real>, m: Metric, places: seq<nat>, j: nat)
    requires |head| >= 2 && j < |head| && Picks(places, |head|) && Carries(m, |head|) && j in places
    ensures Statistic(Resample(head, places), m) >= Spill(head[j], Least(head), |head|)
  {
    var k :| 0 <= k < |places| && places[k] == j;
    CarriedIsAtLeast(Resample(head, places), m, k, Least(head));
  }

  lemma DrawWithIsBeyond(base: seq<real>, head: seq<real>, j: nat, o: Options, draw: Draw)
    requires base != [] && |head| >= 2 && j < |head| && Picks(draw.base, |base|) && Picks(draw.head, |head|)
    requires Least(base) > 0.0 && o.maxPercent >= 0.0 && !o.higherIsBetter && Carries(o.metric, |head|)
    requires Greatest(base) > 0.0 && SlowEnough(base, head, j, o) && j in draw.head
    ensures DrawnBase(base, o.metric, draw) > 0.0
    ensures Beyond(Change(DrawnBase(base, o.metric, draw), DrawnHead(head, o.metric, draw)), o, true)
  {
    DrawnWithin(base, o.metric, draw.base, Least(base), Greatest(base));
    DrawnCarriedIsAtLeast(head, o.metric, draw.head, j);
    BeyondGrows(Greatest(base), Spill(head[j], Least(head), |head|),
                DrawnBase(base, o.metric, draw), DrawnHead(head, o.metric, draw), o);
  }

  /** What else a regression needs: enough samples, no smaller difference than asked
      for, and the noise gate. */
  ghost predicate LetThrough(base: seq<real>, head: seq<real>, o: Options, sqrt: Root)
    requires base != [] && head != []
  {
    && |base| >= o.minSamples && |head| >= o.minSamples
    && (o.minDifference > 0.0 ==> Abs(Statistic(head, o.metric) - Statistic(base, o.metric)) >= o.minDifference)
    && !TooNoisy(SummaryOf(base, sqrt), SummaryOf(head, sqrt), o)
  }

  /** A slow enough sample that carries the statistic, and that the gates let through,
      is a regression exactly when it is in the required share of the draws. */
  lemma SlowSampleDecides(base: seq<real>, head: seq<real>, j: nat, o: Options, draws: seq<Draw>, sqrt: Root)
    requires base != [] && |head| >= 2 && j < |head| && Fits(draws, base, head)
    requires Least(base) > 0.0 && Greatest(base) > 0.0 && o.maxPercent >= 0.0 && !o.higherIsBetter
    requires AllButOneWithin(Least(base), head, j, o.maxPercent)
    requires Carries(o.metric, |head|) && SlowEnough(base, head, j, o) && LetThrough(base, head, o, sqrt)
    ensures Compared(base, head, o, draws, sqrt).verdict == Regression <==> ShareWith(draws, j) >= o.confidence
  {
    RegressionNeedsTheSlowSample(base, head, j, o, draws, sqrt);
    LeastIsPositive(base, o.metric, draws);
    StatisticWithin(base, o.metric, Least(base), Greatest(base));
    CarriedIsAtLeast(head, o.metric, j, Least(head));
    BeyondGrows(Greatest(base), Spill(head[j], Least(head), |head|),
                Statistic(base, o.metric), Statistic(head, o.metric), o);
    var beyond := DrawsBeyond(base, head, o, draws, true);
    forall k | k in DrawsWith(draws, j)
      ensures k in beyond
    {
      DrawWithIsBeyond(base, head, j, o, draws[k]);
    }
    SubsetIsNoLarger(DrawsWith(draws, j), beyond);
    ShareMonotone(|DrawsWith(draws, j)|, |beyond|, |draws|);
    RegressionMeans(base, head, o, draws, sqrt);
  }

  // Exactly when the promise holds.

  /** One slow sample: all base samples are positive, and every head sample but j is
      within the tolerance of each of them. */
  ghost predicate OneSlow(base: seq<real>, head: seq<real>, j: nat, o: Options) {
    base != [] && j < |head| && Least(base) > 0.0 && AllButOneWithin(Least(base), head, j, o.maxPercent)
  }

  ghost predicate Sized(draws: seq<Draw>, k: nat, n: nat) {
    draws != [] && forall i | 0 <= i < |draws| :: Picks(draws[i].base, k) && Picks(draws[i].head, n)
  }

  /** No comparison of k base samples with n head samples is a regression because of one
      slow sample. The draws depend on nothing but the seed and these counts. */
  ghost predicate Safe(k: nat, n: nat, o: Options, draws: seq<Draw>, sqrt: Root)
    requires Sized(draws, k, n)
  {
    forall base: seq<real>, head: seq<real>, j: nat | |base| == k && |head| == n && OneSlow(base, head, j, o) ::
      Compared(base, head, o, draws, sqrt).verdict != Regression
  }

  /** What keeps them safe: too few samples to judge, a statistic that one sample does not
      carry, or no sample that is in the required share of the draws. */
  ghost predicate Guarded(k: nat, n: nat, o: Options, draws: seq<Draw>) {
    || k < o.minSamples || n < o.minSamples || !Carries(o.metric, n)
    || forall j: nat | j < n :: ShareWith(draws, j) < o.confidence
  }

  lemma FewIsNoRegression(base: seq<real>, head: seq<real>, o: Options, draws: seq<Draw>, sqrt: Root)
    requires base != [] && head != [] && Fits(draws, base, head) && (|base| < o.minSamples || |head| < o.minSamples)
    ensures Compared(base, head, o, draws, sqrt).verdict != Regression
  {
  }

  lemma GuardedIsSafe(base: seq<real>, head: seq<real>, j: nat, o: Options, draws: seq<Draw>, sqrt: Root)
    requires OneSlow(base, head, j, o) && Fits(draws, base, head)
    requires o.minSamples >= 2 && o.maxPercent > 0.0 && !o.higherIsBetter
    requires Guarded(|base|, |head|, o, draws)
    ensures Compared(base, head, o, draws, sqrt).verdict != Regression
  {
    if |base| < o.minSamples || |head| < o.minSamples {
      FewIsNoRegression(base, head, o, draws, sqrt);
    } else if Carries(o.metric, |head|) {
      RegressionNeedsTheSlowSample(base, head, j, o, draws, sqrt);
      assert ShareWith(draws, j) < o.confidence;
    } else {
      WithinLeastIsWithin(base, head, j, o);
      UncarriedIsNoRegression(base, head, j, o, draws, sqrt);
    }
  }

  lemma WithinLeastIsWithin(base: seq<real>, head: seq<real>, j: nat, o: Options)
    requires OneSlow(base, head, j, o) && o.maxPercent > 0.0
    ensures Statistic(base, o.metric) > 0.0
    ensures AllButOneWithin(Statistic(base, o.metric), head, j, o.maxPercent)
  {
    StatisticWithin(base, o.metric, Least(base), Greatest(base));
    BarGrows(Least(base), Statistic(base, o.metric), o.maxPercent);
    forall i | 0 <= i < |head| && i != j
      ensures Change(Statistic(base, o.metric), head[i]) <= o.maxPercent
    {
      WithinBar(Least(base), head[i], o.maxPercent);
      WithinBar(Statistic(base, o.metric), head[i], o.maxPercent);
    }
  }

  // A slow sample that no gate stops: the others sit at the tolerance, above the base.

  /** Large enough to move the statistic of n samples beyond the tolerance of 1 and the
      minimal difference. */
  function Slow(n: nat, o: Options): real {
    Times(n as real, Bar(1.0, o.maxPercent) + Abs(o.minDifference) + 1.0)
  }

  function WithSlow(n: nat, j: nat, o: Options): seq<real>
    requires j < n
  {
    Copies(Bar(1.0, o.maxPercent), n)[j := Slow(n, o)]
  }

  lemma SpillOfMultiple(n: nat, far: real, lo: real)
    requires n > 0 && far >= 0.0 && lo >= 0.0
    ensures Times(n as real, far) >= far && Spill(Times(n as real, far), lo, n) >= far
  {
    var k := n as real;
    ProductMonotone(far, 1.0, k);
    ProductNotNegative((n - 1) as real, lo);
    QuotientMonotone(Times(k, far), Times(k, far) + Times((n - 1) as real, lo), k);
    QuotientUndone(far, k);
  }

  lemma SlowIsSlow(n: nat, o: Options)
    requires n > 0 && o.maxPercent > 0.0
    ensures var bar := Bar(1.0, o.maxPercent);
      bar > 1.0 && Slow(n, o) >= bar && Spill(Slow(n, o), bar, n) >= bar + Abs(o.minDifference) + 1.0
  {
    var bar := Bar(1.0, o.maxPercent);
    assert bar == 1.0 + o.maxPercent / 100.0;
    SpillOfMultiple(n, bar + Abs(o.minDifference) + 1.0, bar);
  }

  lemma AboveBarIsBeyond(x: real, o: Options)
    requires !o.higherIsBetter && x >= Bar(1.0, o.maxPercent) + 1.0
    ensures Beyond(Change(1.0, x), o, true)
  {
    assert Change(1.0, x) == (x - 1.0) * 100.0;
  }

  lemma WithSlowIsSlow(k: nat, n: nat, j: nat, o: Options)
    requires k > 0 && j < n && o.maxPercent > 0.0 && !o.higherIsBetter
    ensures var base, head := Copies(1.0, k), WithSlow(n, j, o);
      && OneSlow(base, head, j, o) && Least(base) == 1.0 == Greatest(base)
      && Least(head) >= Bar(1.0, o.maxPercent) > 1.0 && SlowEnough(base, head, j, o)
  {
    var base, head, bar := Copies(1.0, k), WithSlow(n, j, o), Bar(1.0, o.maxPercent);
    SlowIsSlow(n, o);
    forall i | 0 <= i < n && i != j
      ensures Change(1.0, head[i]) <= o.maxPercent
    {
      WithinBar(1.0, bar, o.maxPercent);
    }
    assert Least(base) in base && Greatest(base) in base;
    assert Least(head) in head;
    SpillGrows(head[j], bar, Least(head), n);
    AboveBarIsBeyond(Spill(head[j], Least(head), n), o);
  }

  lemma SpillGrows(y: real, lo: real, lo': real, n: nat)
    requires n > 0 && lo <= lo'
    ensures Spill(y, lo, n) <= Spill(y, lo', n)
  {
    TimesMonotone((n - 1) as real, lo, lo');
    QuotientMonotone(y + Times((n - 1) as real, lo), y + Times((n - 1) as real, lo'), n as real);
  }

  lemma WithSlowIsFar(k: nat, n: nat, j: nat, o: Options)
    requires k > 0 && n >= 2 && j < n && o.maxPercent > 0.0 && !o.higherIsBetter && Carries(o.metric, n)
    ensures Statistic(WithSlow(n, j, o), o.metric) - Statistic(Copies(1.0, k), o.metric) >= Abs(o.minDifference)
  {
    var base, head := Copies(1.0, k), WithSlow(n, j, o);
    WithSlowIsSlow(k, n, j, o);
    SlowIsSlow(n, o);
    CarriedIsAtLeast(head, o.metric, j, Least(head));
    SpillGrows(head[j], Bar(1.0, o.maxPercent), Least(head), n);
    StatisticWithin(base, o.metric, 1.0, 1.0);
  }

  lemma LetThroughWhenApart(base: seq<real>, head: seq<real>, o: Options, sqrt: Root)
    requires base != [] && head != [] && |base| >= o.minSamples && |head| >= o.minSamples
    requires Statistic(head, o.metric) - Statistic(base, o.metric) >= Abs(o.minDifference)
    requires Least(base) > 0.0 && Least(head) > Greatest(base)
    ensures LetThrough(base, head, o, sqrt)
  {
    DisjointIsSeparated(base, head, sqrt);
  }

  lemma WithSlowIsLetThrough(k: nat, n: nat, j: nat, o: Options, sqrt: Root)
    requires k > 0 && n >= 2 && j < n && o.maxPercent > 0.0 && !o.higherIsBetter
    requires k >= o.minSamples && n >= o.minSamples && Carries(o.metric, n)
    ensures LetThrough(Copies(1.0, k), WithSlow(n, j, o), o, sqrt) == true
  {
    WithSlowIsFar(k, n, j, o);
    WithSlowIsSlow(k, n, j, o);
    LetThroughWhenApart(Copies(1.0, k), WithSlow(n, j, o), o, sqrt);
  }

  lemma UnguardedIsUnsafe(k: nat, n: nat, j: nat, o: Options, draws: seq<Draw>, sqrt: Root)
    requires Sized(draws, k, n) && o.minSamples >= 2 && o.maxPercent > 0.0 && !o.higherIsBetter
    requires k >= o.minSamples && n >= o.minSamples && Carries(o.metric, n) && j < n && ShareWith(draws, j) >= o.confidence
    ensures Compared(Copies(1.0, k), WithSlow(n, j, o), o, draws, sqrt).verdict == Regression
  {
    WithSlowIsSlow(k, n, j, o);
    WithSlowIsLetThrough(k, n, j, o, sqrt);
    SlowSampleDecides(Copies(1.0, k), WithSlow(n, j, o), j, o, draws, sqrt);
  }

  /** For any settings a suite may have and any draws, one slow sample cannot fail a
      build exactly when there are too few samples, the statistic is not carried by one, or
      no sample is in the required share of the draws. */
  lemma SafeExactly(k: nat, n: nat, o: Options, draws: seq<Draw>, sqrt: Root)
    requires Sized(draws, k, n) && o.minSamples >= 2 && o.maxPercent > 0.0 && !o.higherIsBetter
    ensures Safe(k, n, o, draws, sqrt) <==> Guarded(k, n, o, draws)
  {
    if Guarded(k, n, o, draws) {
      forall base: seq<real>, head: seq<real>, j: nat | |base| == k && |head| == n && OneSlow(base, head, j, o)
        ensures Compared(base, head, o, draws, sqrt).verdict != Regression
      {
        GuardedIsSafe(base, head, j, o, draws, sqrt);
      }
    } else {
      var j: nat :| j < n && ShareWith(draws, j) >= o.confidence;
      WithSlowIsSlow(k, n, j, o);
      UnguardedIsUnsafe(k, n, j, o, draws, sqrt);
    }
  }

  function Identity(n: nat): (places: seq<nat>)
    ensures |places| == n && forall i | 0 <= i < n :: places[i] == i
  {
    seq(n, i requires 0 <= i < n => i)
  }

  /** Whatever is drawn: one slow sample cannot fail a build exactly when there are too few
      samples or the statistic is not carried by one. A median with enough samples is safe
      exactly when there are not two. */
  lemma SafeWhateverIsDrawn(k: nat, n: nat, o: Options, sqrt: Root)
    requires o.minSamples >= 2 && o.maxPercent > 0.0 && o.confidence <= 1.0 && !o.higherIsBetter
    ensures (forall draws | Sized(draws, k, n) :: Safe(k, n, o, draws, sqrt))
      <==> (k < o.minSamples || n < o.minSamples || !Carries(o.metric, n))
    ensures k >= o.minSamples && n >= o.minSamples && o.metric.Median? ==>
      ((forall draws | Sized(draws, k, n) :: Safe(k, n, o, draws, sqrt)) <==> n >= 3)
  {
    forall draws | Sized(draws, k, n)
      ensures Safe(k, n, o, draws, sqrt) <==> Guarded(k, n, o, draws)
    {
      SafeExactly(k, n, o, draws, sqrt);
    }
    if k >= o.minSamples && n >= o.minSamples && Carries(o.metric, n) {
      var draws := [Draw(Identity(k), Identity(n))];
      assert draws[0].head[0] == 0;
      assert DrawsWith(draws, 0) == {0};
      assert ShareWith(draws, 0) == 1.0;
      assert Sized(draws, k, n) && !Guarded(k, n, o, draws);
    }
  }

  // Two comparisons under the default tolerance and noise limit.

  const MEANS := Options(Mean, false, 10.0, 0.0, 0.6, 10, 0.5)

  lemma {:induction false} CopiesAddUp(x: real, n: nat, mean: real)
    ensures Sum(Copies(x, n)) == Times(n as real, x)
    ensures SquaredDeviations(Copies(x, n), mean) == Times(n as real, Times(x - mean, x - mean))
  {
    if n > 0 {
      assert Copies(x, n)[..n - 1] == Copies(x, n - 1);
      CopiesAddUp(x, n - 1, mean);
      OneMore(n as real, x);
      OneMore(n as real, Times(x - mean, x - mean));
    }
  }

  lemma MeanOfNineAndOne(sqrt: Root)
    requires IsRoot(sqrt)
    ensures var head := Copies(10.0, 9) + [20.1];
      MeanOf(head) == 11.01 && SummaryOf(head, sqrt).cv <= 0.5
  {
    var head := Copies(10.0, 9) + [20.1];
    assert head[..9] == Copies(10.0, 9);
    CopiesAddUp(10.0, 9, 11.01);
    assert Sum(head) == 110.1;
    assert Times(1.01, 1.01) == 1.0201 && Times(10.0 - 11.01, 10.0 - 11.01) == 1.0201 && Times(9.09, 9.09) == 82.6281;
    assert SquaredDeviations(head, 11.01) == 91.809;
    var r := Deviation(head, sqrt);
    assert Times(r, r) == 10.201;
    if r > 5.505 {
      ProductMonotone(5.505, 5.505, r);
      ProductMonotone(r, 5.505, r);
    }
    QuotientMonotone(r, 5.505, 11.01);
  }

  lemma SpreadOfCopies(x: real, n: nat, sqrt: Root)
    requires n >= 2 && x > 0.0 && IsRoot(sqrt)
    ensures SummaryOf(Copies(x, n), sqrt).cv == 0.0
  {
    CopiesAddUp(x, n, x);
    QuotientUndone(x, n as real);
    assert MeanOf(Copies(x, n)) == x;
    var zero := SquaredDeviations(Copies(x, n), x) / (n - 1) as real;
    assert zero == 0.0;
    RootsAgree(sqrt(zero), 0.0);
  }

  lemma OneOfTenIsSlow(base: seq<real>, head: seq<real>)
    requires |base| == |head| == 10 && head[9] == 20.1
    requires (forall i | 0 <= i < 10 :: base[i] == 10.0) && forall i | 0 <= i < 9 :: head[i] == 10.0
    ensures Least(base) == Greatest(base) == 10.0
    ensures OneSlow(base, head, 9, MEANS) && SlowEnough(base, head, 9, MEANS)
  {
    ExtremaAre(base, 0, 0);
    ExtremaAre(head, 0, 9);
    assert Change(10.0, 10.0) == 0.0;
    assert Spill(20.1, 10.0, 10) == 11.01;
    assert Change(10.0, 11.01) > 10.05;
  }

  lemma QuietMeans(base: Summary, head: Summary, o: Options)
    requires o.metric.Mean? && base.cv <= o.maxCV && head.cv <= o.maxCV
    ensures !TooNoisy(base, head, o)
  {
  }

  lemma OneOfTenIsLetThrough(sqrt: Root)
    requires IsRoot(sqrt)
    ensures LetThrough(Copies(10.0, 10), Copies(10.0, 9) + [20.1], MEANS, sqrt)
  {
    MeanOfNineAndOne(sqrt);
    SpreadOfCopies(10.0, 10, sqrt);
    QuietMeans(SummaryOf(Copies(10.0, 10), sqrt), SummaryOf(Copies(10.0, 9) + [20.1], sqrt), MEANS);
  }

  /** Ten runs a side, compared by their means with a confidence of 0.6: nine of the head
      took as long as the base and one about twice as long. Whatever is drawn, that one
      fails the build exactly when it is in six of ten draws. */
  lemma SlowMeanFails(draws: seq<Draw>, sqrt: Root)
    requires Sized(draws, 10, 10) && IsRoot(sqrt)
    ensures var base, head := Copies(10.0, 10), Copies(10.0, 9) + [20.1];
      && OneSlow(base, head, 9, MEANS)
      && (Compared(base, head, MEANS, draws, sqrt).verdict == Regression <==> ShareWith(draws, 9) >= 0.6)
  {
    OneOfTenIsSlow(Copies(10.0, 10), Copies(10.0, 9) + [20.1]);
    OneOfTenIsLetThrough(sqrt);
    SlowSampleDecides(Copies(10.0, 10), Copies(10.0, 9) + [20.1], 9, MEANS, draws, sqrt);
  }

  lemma PairIsSlow(base: seq<real>, head: seq<real>, o: Options)
    requires base == [10.0, 10.0] && |head| == 2 && head[0] == 10.0 && head[1] == 20.0
    requires o.maxPercent == 10.0 && !o.higherIsBetter
    ensures Least(base) == Greatest(base) == 10.0
    ensures OneSlow(base, head, 1, o) && SlowEnough(base, head, 1, o)
  {
    ExtremaAre(base, 0, 1);
    ExtremaAre(head, 0, 1);
    assert Change(10.0, 10.0) == 0.0;
    assert Spill(20.0, 10.0, 2) == 15.0;
    assert Change(10.0, 15.0) == 50.0;
  }

  lemma RobustSpreadOfTwo(s: seq<real>, x: real, y: real)
    requires s == [x, y] && 0.0 < x <= y
    ensures Sort(s) == s && RobustSpread(s) == (y - x) / 2.0 / IQR_TO_STDDEV / ((x + y) / 2.0)
  {
    SortIsUnique(s, s);
    QuartilesOfTwo(s);
  }

  lemma PairIsLetThrough(base: seq<real>, head: seq<real>, o: Options, sqrt: Root)
    requires base == [10.0, 10.0] && head == [10.0, 20.0]
    requires o.metric.Median? && o.minSamples == 2 && o.minDifference == 0.0 && o.maxCV == 0.5
    ensures LetThrough(base, head, o, sqrt)
  {
    RobustSpreadOfTwo(base, 10.0, 10.0);
    RobustSpreadOfTwo(head, 10.0, 20.0);
  }

  /** Two runs a side, compared by their medians: one of the head took twice as long as the
      others. Whatever is drawn and whatever the confidence, it fails the build exactly when
      it is in the required share of the draws. */
  lemma SlowPairFails(draws: seq<Draw>, confidence: real, sqrt: Root)
    requires Sized(draws, 2, 2)
    ensures var o := Options(Median, false, 10.0, 0.0, confidence, 2, 0.5);
      && OneSlow([10.0, 10.0], [10.0, 20.0], 1, o)
      && (Compared([10.0, 10.0], [10.0, 20.0], o, draws, sqrt).verdict == Regression <==> ShareWith(draws, 1) >= confidence)
  {
    var base, head := [10.0, 10.0], [10.0, 20.0];
    var o := Options(Median, false, 10.0, 0.0, confidence, 2, 0.5);
    PairIsSlow(base, head, o);
    PairIsLetThrough(base, head, o, sqrt);
    SlowSampleDecides(base, head, 1, o, draws, sqrt);
  }
}
