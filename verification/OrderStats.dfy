/** The order statistics of `internal/stats/stats.go` and `compare.go`, over the
    real numbers. */
module OrderStats {
  import opened RealArithmetic

  datatype Option<+T> = None | Some(value: T)

  ghost predicate Sorted(s: seq<real>) {
    forall i, j | 0 <= i <= j < |s| :: s[i] <= s[j]
  }

  /** Every sample of s is at most the one of t at the same place. */
  ghost predicate Below(s: seq<real>, t: seq<real>) {
    |s| == |t| && forall i | 0 <= i < |s| :: s[i] <= t[i]
  }

  ghost predicate Within(s: seq<real>, lo: real, hi: real) {
    forall i | 0 <= i < |s| :: lo <= s[i] <= hi
  }

  ghost predicate AllPositive(s: seq<real>) {
    forall i | 0 <= i < |s| :: s[i] > 0.0
  }

  function Scaled(s: seq<real>, k: real): (t: seq<real>)
    ensures |t| == |s| && forall i | 0 <= i < |s| :: t[i] == Times(k, s[i])
  {
    seq(|s|, i requires 0 <= i < |s| => Times(k, s[i]))
  }

  lemma ScaledPart(s: seq<real>, k: real, i: nat, j: nat)
    requires i <= j <= |s|
    ensures Scaled(s, k)[i..j] == Scaled(s[i..j], k)
  {
    forall m | 0 <= m < j - i
      ensures Scaled(s, k)[i..j][m] == Scaled(s[i..j], k)[m]
    {
      assert s[i..j][m] == s[i + m];
    }
  }

  function Copies(x: real, n: nat): (s: seq<real>)
    ensures |s| == n && forall i | 0 <= i < n :: s[i] == x
  {
    seq(n, i => x)
  }

  // Sorting.

  function Insert(x: real, s: seq<real>): (r: seq<real>)
    ensures |r| == |s| + 1
  {
    if s == [] || x <= s[0] then [x] + s else [s[0]] + Insert(x, s[1..])
  }

  /** slices.Sort: the samples in ascending order. */
  function Sort(s: seq<real>): (r: seq<real>)
    ensures |r| == |s|
  {
    if s == [] then [] else Insert(s[0], Sort(s[1..]))
  }

  lemma {:induction false} InsertAdds(x: real, s: seq<real>)
    ensures multiset(Insert(x, s)) == multiset(s) + multiset{x}
  {
    if s != [] && x > s[0] {
      InsertAdds(x, s[1..]);
      assert s == [s[0]] + s[1..];
    }
  }

  lemma {:induction false} InsertSorts(x: real, s: seq<real>)
    requires Sorted(s)
    ensures Sorted(Insert(x, s))
    ensures s != [] ==> Insert(x, s)[0] == if x <= s[0] then x else s[0]
  {
    if s != [] && x > s[0] {
      InsertSorts(x, s[1..]);
    }
  }

  /** Sorting gives a sorted arrangement of the same samples. */
  lemma {:induction false} SortSorts(s: seq<real>)
    ensures Sorted(Sort(s)) && multiset(Sort(s)) == multiset(s)
  {
    if s != [] {
      SortSorts(s[1..]);
      InsertSorts(s[0], Sort(s[1..]));
      InsertAdds(s[0], Sort(s[1..]));
      assert s == [s[0]] + s[1..];
    }
  }

  /** There is no other sorted arrangement, whatever algorithm finds it. */
  lemma {:induction false} SortIsUnique(s: seq<real>, r: seq<real>)
    requires Sorted(r) && multiset(r) == multiset(s)
    ensures r == Sort(s)
  {
    SortSorts(s);
    SortedEqual(r, Sort(s));
  }

  lemma {:induction false} SortedEqual(r: seq<real>, t: seq<real>)
    requires Sorted(r) && Sorted(t) && multiset(r) == multiset(t)
    ensures r == t
    decreases |r|
  {
    if r == [] || t == [] {
      assert |multiset(r)| == |r| && |multiset(t)| == |t|;
    } else {
      assert r[0] == t[0] by {
        assert r[0] in multiset(r) && t[0] in multiset(t);
        assert r[0] in t && t[0] in r;
      }
      RestOfSorted(r);
      RestOfSorted(t);
      SortedEqual(r[1..], t[1..]);
    }
  }

  lemma RestOfSorted(r: seq<real>)
    requires r != [] && Sorted(r)
    ensures r == [r[0]] + r[1..] && multiset(r[1..]) == multiset(r) - multiset{r[0]} && Sorted(r[1..])
  {
    assert r == [r[0]] + r[1..];
  }

  lemma InsertHead(s: seq<real>)
    requires s != [] && Sorted(s)
    ensures s == Insert(s[0], s[1..])
  {
  }

  /** Inserting a smaller value into smaller samples gives smaller samples. */
  lemma {:induction false} InsertMonotone(x: real, s: seq<real>, y: real, t: seq<real>)
    requires x <= y && Below(s, t) && Sorted(s) && Sorted(t)
    ensures Below(Insert(x, s), Insert(y, t))
    decreases |s|
  {
    if s != [] {
      InsertHead(s);
      InsertHead(t);
      InsertMonotone(if x <= s[0] then s[0] else x, s[1..], if y <= t[0] then t[0] else y, t[1..]);
    }
  }

  /** Sorting keeps samples below others pointwise. */
  lemma {:induction false} SortMonotone(s: seq<real>, t: seq<real>)
    requires Below(s, t)
    ensures Below(Sort(s), Sort(t))
  {
    if s != [] {
      SortMonotone(s[1..], t[1..]);
      SortSorts(s[1..]);
      SortSorts(t[1..]);
      InsertMonotone(s[0], Sort(s[1..]), t[0], Sort(t[1..]));
    }
  }

  lemma {:induction false} SortWithin(s: seq<real>, lo: real, hi: real)
    requires Within(s, lo, hi)
    ensures Within(Sort(s), lo, hi)
  {
    forall i | 0 <= i < |s|
      ensures lo <= Sort(s)[i] <= hi
    {
      SortMember(s, i);
    }
  }

  function Mapped(s: seq<real>, f: real -> real): (t: seq<real>)
    ensures |t| == |s| && forall i | 0 <= i < |s| :: t[i] == f(s[i])
  {
    seq(|s|, i requires 0 <= i < |s| => f(s[i]))
  }

  lemma {:induction false} InsertMapped(x: real, s: seq<real>, f: real -> real)
    requires forall a, b :: a <= b <==> f(a) <= f(b)
    ensures Insert(f(x), Mapped(s, f)) == Mapped(Insert(x, s), f)
  {
    if s != [] {
      assert Mapped(s, f)[1..] == Mapped(s[1..], f);
      InsertMapped(x, s[1..], f);
    }
  }

  /** Sorting commutes with a change of scale that keeps the order. */
  lemma {:induction false} SortMapped(s: seq<real>, f: real -> real)
    requires forall a, b :: a <= b <==> f(a) <= f(b)
    ensures Sort(Mapped(s, f)) == Mapped(Sort(s), f)
  {
    if s != [] {
      assert Mapped(s, f)[1..] == Mapped(s[1..], f);
      SortMapped(s[1..], f);
      InsertMapped(s[0], Sort(s[1..]), f);
    }
  }

  lemma SortScales(s: seq<real>, k: real)
    requires k > 0.0
    ensures Sort(Scaled(s, k)) == Scaled(Sort(s), k)
  {
    var f: real -> real := x => Times(k, x);
    forall a, b
      ensures a <= b <==> f(a) <= f(b)
    {
      ProductOrders(k, a, b);
    }
    SortMapped(s, f);
    assert Mapped(s, f) == Scaled(s, k);
    assert Mapped(Sort(s), f) == Scaled(Sort(s), k);
  }

  // Interpolated percentiles.

  function Ceil(x: real): int {
    -((-x).Floor)
  }

  /** The value at a rank between two closest ranks. */
  function Interpolated(sorted: seq<real>, pos: real): real
    requires 0.0 <= pos <= (|sorted| - 1) as real
  {
    var lo, hi := pos.Floor, Ceil(pos);
    Lerp(sorted[lo], sorted[hi], pos - lo as real)
  }

  /** The rank of the p-quantile of n sorted samples. */
  function Rank(n: nat, p: real): (pos: real)
    requires n > 0 && 0.0 <= p <= 1.0
    ensures 0.0 <= pos <= (n - 1) as real
  {
    ProductNotNegative(p, (n - 1) as real);
    ProductMonotone((n - 1) as real, p, 1.0);
    p * (n - 1) as real
  }

  /** percentile: the p-quantile of sorted samples. */
  function Percentile(sorted: seq<real>, p: real): real
    requires sorted != []
  {
    if p <= 0.0 then sorted[0]
    else if p >= 1.0 then sorted[|sorted| - 1]
    else Interpolated(sorted, Rank(|sorted|, p))
  }

  lemma InterpolatedBetween(sorted: seq<real>, pos: real)
    requires Sorted(sorted) && 0.0 <= pos <= (|sorted| - 1) as real
    ensures sorted[pos.Floor] <= Interpolated(sorted, pos) <= sorted[Ceil(pos)]
    ensures Ceil(pos) == pos.Floor || Ceil(pos) == pos.Floor + 1
  {
    LerpBetween(sorted[pos.Floor], sorted[Ceil(pos)], pos - pos.Floor as real);
  }

  lemma InterpolatedMonotone(sorted: seq<real>, p: real, q: real)
    requires Sorted(sorted) && 0.0 <= p <= q <= (|sorted| - 1) as real
    ensures Interpolated(sorted, p) <= Interpolated(sorted, q)
  {
    InterpolatedBetween(sorted, p);
    InterpolatedBetween(sorted, q);
    if p.Floor == q.Floor {
      if Ceil(p) == Ceil(q) {
        LerpGrows(sorted[p.Floor], sorted[Ceil(p)], p - p.Floor as real, q - p.Floor as real);
      }
    } else {
      assert Ceil(p) <= q.Floor;
    }
  }

  lemma RankMonotone(n: nat, p: real, q: real)
    requires n > 0 && 0.0 <= p <= q <= 1.0
    ensures Rank(n, p) <= Rank(n, q)
  {
    ProductMonotone((n - 1) as real, p, q);
  }

  lemma PercentileWithin(sorted: seq<real>, p: real)
    requires sorted != [] && Sorted(sorted)
    ensures sorted[0] <= Percentile(sorted, p) <= sorted[|sorted| - 1]
  {
    if 0.0 < p < 1.0 {
      InterpolatedBetween(sorted, Rank(|sorted|, p));
    }
  }

  /** The percentile grows with p and stays between the first and last sample. */
  lemma PercentileMonotone(sorted: seq<real>, p: real, q: real)
    requires sorted != [] && Sorted(sorted) && p <= q
    ensures sorted[0] <= Percentile(sorted, p) <= Percentile(sorted, q) <= sorted[|sorted| - 1]
  {
    PercentileWithin(sorted, p);
    PercentileWithin(sorted, q);
    if 0.0 < p && q < 1.0 {
      RankMonotone(|sorted|, p, q);
      InterpolatedMonotone(sorted, Rank(|sorted|, p), Rank(|sorted|, q));
    }
  }

  /** The percentile of smaller samples is smaller. */
  lemma PercentileOfBelow(s: seq<real>, t: seq<real>, p: real)
    requires s != [] && Below(s, t)
    ensures Percentile(s, p) <= Percentile(t, p)
  {
    if 0.0 < p < 1.0 {
      var pos := Rank(|s|, p);
      var lo, hi := pos.Floor, Ceil(pos);
      LerpMonotone(s[lo], s[hi], t[lo], t[hi], pos - lo as real);
    }
  }

  lemma PercentileScales(s: seq<real>, p: real, k: real)
    requires s != []
    ensures Percentile(Scaled(s, k), p) == Times(k, Percentile(s, p))
  {
    if 0.0 < p < 1.0 {
      var pos := Rank(|s|, p);
      LerpScales(k, s[pos.Floor], s[Ceil(pos)], pos - pos.Floor as real);
    }
  }

  function MedianSorted(sorted: seq<real>): real
    requires sorted != []
  {
    var n := |sorted|;
    if n % 2 == 1 then sorted[n / 2] else (sorted[n / 2 - 1] + sorted[n / 2]) / 2.0
  }

  /** The median is the percentile at one half. */
  lemma MedianIsHalf(sorted: seq<real>)
    requires sorted != []
    ensures MedianSorted(sorted) == Percentile(sorted, 0.5)
  {
    var n := |sorted|;
    var pos := Rank(n, 0.5);
    if n % 2 == 1 {
      assert pos == (n / 2) as real;
    } else {
      assert pos == (n / 2 - 1) as real + 0.5;
      assert pos.Floor == n / 2 - 1 && Ceil(pos) == n / 2;
    }
  }

  lemma QuartilesOfTwo(sorted: seq<real>)
    requires |sorted| == 2
    ensures Percentile(sorted, 0.75) - Percentile(sorted, 0.25) == (sorted[1] - sorted[0]) / 2.0
  {
    var low, high := Rank(2, 0.25), Rank(2, 0.75);
    assert low == 0.25 && high == 0.75;
    assert low.Floor == 0 == high.Floor && Ceil(low) == 1 == Ceil(high);
    LerpMixes(sorted[0], sorted[1], low);
    LerpMixes(sorted[0], sorted[1], high);
  }

  // Sums and means.

  function Sum(s: seq<real>): real {
    if s == [] then 0.0 else Sum(s[..|s| - 1]) + s[|s| - 1]
  }

  function MeanOf(s: seq<real>): real
    requires s != []
  {
    Sum(s) / |s| as real
  }

  lemma {:induction false} SumMonotone(s: seq<real>, t: seq<real>)
    requires Below(s, t)
    ensures Sum(s) <= Sum(t)
  {
    if s != [] {
      SumMonotone(s[..|s| - 1], t[..|t| - 1]);
    }
  }

  lemma {:induction false} SumWithin(s: seq<real>, lo: real, hi: real)
    requires Within(s, lo, hi)
    ensures lo * |s| as real <= Sum(s) <= hi * |s| as real
  {
    if s != [] {
      var n := |s| as real;
      SumWithin(s[..|s| - 1], lo, hi);
      assert (|s| - 1) as real == n - 1.0;
      Distributes(lo, n, 1.0);
      Distributes(hi, n, 1.0);
    }
  }

  lemma {:induction false} SumScales(s: seq<real>, k: real)
    ensures Sum(Scaled(s, k)) == Times(k, Sum(s))
  {
    if s != [] {
      var init := s[..|s| - 1];
      ScaledPart(s, k, 0, |s| - 1);
      SumScales(init, k);
      Distributes(k, Sum(init), s[|s| - 1]);
    }
  }

  lemma {:induction false} SumAtLeast(s: seq<real>, lo: real)
    requires forall i | 0 <= i < |s| :: s[i] >= lo
    ensures Sum(s) >= Times(|s| as real, lo)
  {
    if s == [] {
      assert Times(0.0, lo) == 0.0;
    } else {
      SumAtLeast(s[..|s| - 1], lo);
      OneMore(|s| as real, lo);
    }
  }

  lemma {:induction false} SumWithOne(s: seq<real>, lo: real, k: nat)
    requires k < |s| && forall i | 0 <= i < |s| :: s[i] >= lo
    ensures Sum(s) >= s[k] + Times((|s| - 1) as real, lo)
  {
    var init := s[..|s| - 1];
    if k == |s| - 1 {
      SumAtLeast(init, lo);
    } else {
      SumWithOne(init, lo, k);
      OneMore((|s| - 1) as real, lo);
    }
  }

  // Least and greatest samples: slices.Min and slices.Max.

  function Least(s: seq<real>): (r: real)
    requires s != []
    ensures r in s && forall i | 0 <= i < |s| :: r <= s[i]
  {
    if |s| == 1 then s[0]
    else
      var rest := Least(s[1..]);
      assert forall i | 1 <= i < |s| :: s[i] == s[1..][i - 1];
      if s[0] <= rest then s[0] else rest
  }

  function Greatest(s: seq<real>): (r: real)
    requires s != []
    ensures r in s && forall i | 0 <= i < |s| :: s[i] <= r
  {
    if |s| == 1 then s[0]
    else
      var rest := Greatest(s[1..]);
      assert forall i | 1 <= i < |s| :: s[i] == s[1..][i - 1];
      if s[0] >= rest then s[0] else rest
  }

  /** They are the ends of the sorted samples, where Summarize takes them. */
  lemma ExtremaAreEnds(s: seq<real>)
    requires s != []
    ensures Least(s) == Sort(s)[0] && Greatest(s) == Sort(s)[|s| - 1]
  {
    SortSorts(s);
    SortMember(s, 0);
    SortMember(s, |s| - 1);
    MemberSorts(s, Least(s));
    MemberSorts(s, Greatest(s));
  }

  lemma SortMember(s: seq<real>, k: nat)
    requires k < |s|
    ensures Sort(s)[k] in s
  {
    SortSorts(s);
    assert Sort(s)[k] in multiset(Sort(s));
  }

  lemma MemberSorts(s: seq<real>, x: real)
    requires x in s
    ensures exists k :: 0 <= k < |s| && Sort(s)[k] == x
  {
    SortSorts(s);
    assert x in multiset(s);
    assert x in Sort(s);
  }

  lemma ExtremaAre(s: seq<real>, lo: nat, hi: nat)
    requires lo < |s| && hi < |s| && Within(s, s[lo], s[hi])
    ensures Least(s) == s[lo] && Greatest(s) == s[hi]
  {
    assert Least(s) in s && Greatest(s) in s;
  }

  // The compared statistic.

  datatype Metric = Median | Mean | Min | Max

  /** The statistic of unsorted samples. */
  function Statistic(s: seq<real>, m: Metric): real
    requires s != []
  {
    match m
    case Median => MedianSorted(Sort(s))
    case Mean => MeanOf(s)
    case Min => Least(s)
    case Max => Greatest(s)
  }

  /** The statistic of smaller samples is smaller. */
  lemma StatisticMonotone(s: seq<real>, t: seq<real>, m: Metric)
    requires s != [] && Below(s, t)
    ensures Statistic(s, m) <= Statistic(t, m)
  {
    if m.Mean? {
      SumMonotone(s, t);
      QuotientMonotone(Sum(s), Sum(t), |s| as real);
    } else {
      SortMonotone(s, t);
      StatisticIsPercentile(s, m);
      StatisticIsPercentile(t, m);
      PercentileOfBelow(Sort(s), Sort(t), Quantum(m));
    }
  }

  function Quantum(m: Metric): real {
    match m
    case Min => 0.0
    case Max => 1.0
    case _ => 0.5
  }

  /** Every statistic but the mean is a percentile of the sorted samples. */
  lemma StatisticIsPercentile(s: seq<real>, m: Metric)
    requires s != [] && !m.Mean?
    ensures Statistic(s, m) == Percentile(Sort(s), Quantum(m))
  {
    if m.Median? {
      MedianIsHalf(Sort(s));
    } else {
      ExtremaAreEnds(s);
    }
  }

  lemma MeanWithin(s: seq<real>, lo: real, hi: real)
    requires s != [] && Within(s, lo, hi)
    ensures lo <= MeanOf(s) <= hi
  {
    SumWithin(s, lo, hi);
    QuotientBetween(Sum(s), |s| as real, lo, hi);
  }

  /** A statistic lies between any bounds of the samples. */
  lemma StatisticWithin(s: seq<real>, m: Metric, lo: real, hi: real)
    requires s != [] && Within(s, lo, hi)
    ensures lo <= Statistic(s, m) <= hi
  {
    if m.Mean? {
      MeanWithin(s, lo, hi);
    } else {
      SortWithin(s, lo, hi);
      SortSorts(s);
      StatisticIsPercentile(s, m);
      PercentileWithin(Sort(s), Quantum(m));
    }
  }

  lemma MeanScales(s: seq<real>, k: real)
    requires s != []
    ensures MeanOf(Scaled(s, k)) == Times(k, MeanOf(s))
  {
    SumScales(s, k);
    QuotientScales(k, Sum(s), Sum(Scaled(s, k)), |s| as real);
  }

  lemma SortedPercentileScales(s: seq<real>, p: real, k: real)
    requires s != [] && k > 0.0
    ensures Percentile(Sort(Scaled(s, k)), p) == Times(k, Percentile(Sort(s), p))
  {
    SortScales(s, k);
    PercentileScales(Sort(s), p, k);
  }

  lemma StatisticScales(s: seq<real>, m: Metric, k: real)
    requires s != [] && k > 0.0
    ensures Statistic(Scaled(s, k), m) == Times(k, Statistic(s, m))
  {
    if m.Mean? {
      MeanScales(s, k);
    } else {
      StatisticIsPercentile(s, m);
      StatisticIsPercentile(Scaled(s, k), m);
      SortedPercentileScales(s, Quantum(m), k);
    }
  }
}
