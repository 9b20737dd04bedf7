/** The summaries of `internal/stats/stats.go` and the loops that compute them.

    (A predicate compared with true in a contract is used as one fact, so that the verifier
    does not prove its clauses again.) */
module Summaries {
  import opened RealArithmetic
  import opened OrderStats

  /** math.Sqrt, over the reals. */
  type Root = real -> real

  ghost predicate IsRoot(sqrt: Root) {
    forall x | x >= 0.0 :: sqrt(x) >= 0.0 && Times(sqrt(x), sqrt(x)) == x
  }

  /** Puts the robust dispersion on the scale of the coefficient of variation. */
  const IQR_TO_STDDEV := 1.349

  datatype Summary = Summary(
    count: nat, mean: real, median: real, stddev: real,
    min: real, max: real, cv: real, robustCV: real)
  {
    function Value(m: Metric): real {
      match m
      case Mean => mean
      case Min => min
      case Max => max
      case Median => median
    }

    /** The spread the noise gate looks at: it follows the compared statistic. */
    function Dispersion(m: Metric): real {
      if m.Mean? then cv else robustCV
    }
  }

  const NOTHING := Summary(0, 0.0, 0.0, 0.0, 0.0, 0.0, 0.0, 0.0)

  /** The sum of the squared distances from mean. */
  function SquaredDeviations(s: seq<real>, mean: real): real {
    if s == [] then 0.0
    else
      var d := s[|s| - 1] - mean;
      SquaredDeviations(s[..|s| - 1], mean) + Times(d, d)
  }

  function Deviation(s: seq<real>, sqrt: Root): real {
    if |s| < 2 then 0.0 else sqrt(SquaredDeviations(s, MeanOf(s)) / (|s| - 1) as real)
  }

  function RobustSpread(sorted: seq<real>): real
    requires sorted != []
  {
    if |sorted| > 1 && MedianSorted(sorted) > 0.0
    then (Percentile(sorted, 0.75) - Percentile(sorted, 0.25)) / IQR_TO_STDDEV / MedianSorted(sorted)
    else 0.0
  }

  function Spread(s: seq<real>, sqrt: Root): real
    requires s != []
  {
    if |s| > 1 && MeanOf(s) > 0.0 then Deviation(s, sqrt) / MeanOf(s) else 0.0
  }

  function SummaryOf(s: seq<real>, sqrt: Root): Summary {
    if s == [] then NOTHING
    else Summary(|s|, MeanOf(s), MedianSorted(Sort(s)), Deviation(s, sqrt),
                 Sort(s)[0], Sort(s)[|s| - 1], Spread(s, sqrt), RobustSpread(Sort(s)))
  }

  // What the summaries promise.

  lemma SummaryValue(s: seq<real>, sqrt: Root, m: Metric)
    requires s != []
    ensures SummaryOf(s, sqrt).Value(m) == Statistic(s, m)
  {
    ExtremaAreEnds(s);
  }

  lemma {:induction false} SquaredDeviationsNotNegative(s: seq<real>, mean: real)
    ensures SquaredDeviations(s, mean) >= 0.0
  {
    if s != [] {
      SquaredDeviationsNotNegative(s[..|s| - 1], mean);
      SquareNotNegative(s[|s| - 1] - mean);
    }
  }

  lemma SquareNotNegative(d: real)
    ensures Times(d, d) >= 0.0
  {
    if d >= 0.0 {
      ProductNotNegative(d, d);
    } else {
      ProductNotNegative(-d, -d);
    }
  }

  lemma VarianceNotNegative(s: seq<real>)
    requires |s| >= 2
    ensures SquaredDeviations(s, MeanOf(s)) / (|s| - 1) as real >= 0.0
  {
    SquaredDeviationsNotNegative(s, MeanOf(s));
    QuotientSign(SquaredDeviations(s, MeanOf(s)), (|s| - 1) as real);
  }

  lemma RobustSpreadNotNegative(sorted: seq<real>)
    requires sorted != [] && Sorted(sorted)
    ensures RobustSpread(sorted) >= 0.0
  {
    PercentileMonotone(sorted, 0.25, 0.75);
    var iqr := Percentile(sorted, 0.75) - Percentile(sorted, 0.25);
    QuotientSign(iqr, IQR_TO_STDDEV);
    if MedianSorted(sorted) > 0.0 {
      QuotientSign(iqr / IQR_TO_STDDEV, MedianSorted(sorted));
    }
  }

  /** The mean and the median lie between the extremes, and no spread is negative. */
  lemma SummaryIsSane(s: seq<real>, sqrt: Root)
    requires s != [] && IsRoot(sqrt)
    ensures var r := SummaryOf(s, sqrt);
      && r.min <= r.mean <= r.max && r.min <= r.median <= r.max
      && r.stddev >= 0.0 && r.cv >= 0.0 && r.robustCV >= 0.0
      && forall i | 0 <= i < |s| :: r.min <= s[i] <= r.max
  {
    ExtremaAreEnds(s);
    SortSorts(s);
    StatisticWithin(s, Mean, Least(s), Greatest(s));
    StatisticWithin(s, Median, Least(s), Greatest(s));
    RobustSpreadNotNegative(Sort(s));
    if |s| >= 2 {
      VarianceNotNegative(s);
      if MeanOf(s) > 0.0 {
        QuotientSign(Deviation(s, sqrt), MeanOf(s));
      }
    }
  }

  // A change of unit.

  lemma {:induction false} SquaredDeviationsScale(s: seq<real>, mean: real, k: real)
    ensures SquaredDeviations(Scaled(s, k), Times(k, mean)) == Times(k * k, SquaredDeviations(s, mean))
  {
    if s != [] {
      var init := s[..|s| - 1];
      ScaledPart(s, k, 0, |s| - 1);
      SquaredDeviationsScale(init, mean, k);
      SquareScales(k, s[|s| - 1], mean);
      Distributes(k * k, SquaredDeviations(init, mean), Times(s[|s| - 1] - mean, s[|s| - 1] - mean));
    }
  }

  lemma SquareScales(k: real, a: real, b: real)
    ensures Times(Times(k, a) - Times(k, b), Times(k, a) - Times(k, b)) == Times(k * k, Times(a - b, a - b))
  {
    var d := a - b;
    Distributes(k, a, b);
    assert (k * d) * (k * d) == (k * k) * (d * d);
  }

  lemma RootsAgree(a: real, b: real)
    requires a >= 0.0 && b >= 0.0 && Times(a, a) == Times(b, b)
    ensures a == b
  {
    Difference(a, b);
  }

  lemma Difference(a: real, b: real)
    requires a >= 0.0 && b >= 0.0 && a * a == b * b
    ensures a == b
  {
    assert (a - b) * (a + b) == a * a - b * b == (b - a) * (a + b);
    if a > b {
      ProductPositive(a - b, a + b);
    } else if a < b {
      ProductPositive(b - a, a + b);
    }
  }

  lemma RootScales(sqrt: Root, x: real, k: real)
    requires IsRoot(sqrt) && x >= 0.0 && k > 0.0
    ensures sqrt(Times(k * k, x)) == Times(k, sqrt(x))
  {
    var r := sqrt(x);
    assert Times(k * k, x) >= 0.0 by {
      ProductPositive(k, k);
      ProductNotNegative(k * k, x);
    }
    assert Times(k, r) >= 0.0 by { ProductNotNegative(k, r); }
    assert Times(Times(k, r), Times(k, r)) == Times(k * k, Times(r, r)) by {
      assert (k * r) * (k * r) == (k * k) * (r * r);
    }
    RootsAgree(sqrt(Times(k * k, x)), Times(k, r));
  }

  lemma DeviationScales(s: seq<real>, sqrt: Root, k: real)
    requires s != [] && IsRoot(sqrt) && k > 0.0
    ensures Deviation(Scaled(s, k), sqrt) == Times(k, Deviation(s, sqrt))
  {
    if |s| >= 2 {
      MeanScales(s, k);
      SquaredDeviationsScale(s, MeanOf(s), k);
      var ss, n := SquaredDeviations(s, MeanOf(s)), (|s| - 1) as real;
      QuotientScales(k * k, ss, Times(k * k, ss), n);
      VarianceNotNegative(s);
      RootScales(sqrt, ss / n, k);
    }
  }

  lemma SpreadScales(s: seq<real>, sqrt: Root, k: real)
    requires s != [] && IsRoot(sqrt) && k > 0.0
    ensures Spread(Scaled(s, k), sqrt) == Spread(s, sqrt)
  {
    MeanScales(s, k);
    DeviationScales(s, sqrt, k);
    ProductOrders(k, 0.0, MeanOf(s));
    if MeanOf(s) > 0.0 {
      QuotientOfScaled(k, Deviation(s, sqrt), MeanOf(s));
    }
  }

  lemma RobustSpreadScales(sorted: seq<real>, k: real)
    requires sorted != [] && k > 0.0
    ensures RobustSpread(Scaled(sorted, k)) == RobustSpread(sorted)
  {
    MedianIsHalf(sorted);
    MedianIsHalf(Scaled(sorted, k));
    PercentileScales(sorted, 0.5, k);
    PercentileScales(sorted, 0.25, k);
    PercentileScales(sorted, 0.75, k);
    var median := MedianSorted(sorted);
    ProductOrders(k, 0.0, median);
    if median > 0.0 {
      RatioScales(k, Percentile(sorted, 0.25), Percentile(sorted, 0.75), median);
    }
  }

  lemma RatioScales(k: real, low: real, high: real, median: real)
    requires k > 0.0 && median > 0.0
    ensures Times(k, median) > 0.0
    ensures (Times(k, high) - Times(k, low)) / IQR_TO_STDDEV / Times(k, median) == (high - low) / IQR_TO_STDDEV / median
  {
    ProductPositive(k, median);
    Distributes(k, high, low);
    QuotientScales(k, high - low, Times(k, high) - Times(k, low), IQR_TO_STDDEV);
    QuotientOfScaled(k, (high - low) / IQR_TO_STDDEV, median);
  }

  /** t summarises the samples of s in another unit. */
  ghost predicate IsScaled(s: Summary, t: Summary, k: real) {
    && t.count == s.count && t.cv == s.cv && t.robustCV == s.robustCV
    && t.stddev == Times(k, s.stddev)
    && forall m :: t.Value(m) == Times(k, s.Value(m))
  }

  /** In another unit the sizes scale and the relative spreads stay. */
  lemma SummaryScales(s: seq<real>, sqrt: Root, k: real)
    requires s != [] && IsRoot(sqrt) && k > 0.0
    ensures IsScaled(SummaryOf(s, sqrt), SummaryOf(Scaled(s, k), sqrt), k) == true
  {
    SpreadScales(s, sqrt, k);
    DeviationScales(s, sqrt, k);
    SortScales(s, k);
    RobustSpreadScales(Sort(s), k);
    forall m
      ensures SummaryOf(Scaled(s, k), sqrt).Value(m) == Times(k, SummaryOf(s, sqrt).Value(m))
    {
      SummaryValue(s, sqrt, m);
      SummaryValue(Scaled(s, k), sqrt, m);
      StatisticScales(s, m, k);
    }
  }

  // The loops.

  lemma TakeAll(s: seq<real>)
    ensures s[..|s|] == s
  {
  }

  /** meanFloat. */
  method MeanFloat(s: seq<real>) returns (mean: real)
    requires s != []
    ensures mean == MeanOf(s)
  {
    var sum := 0.0;
    for i := 0 to |s|
      invariant sum == Sum(s[..i])
    {
      assert s[..i + 1][..i] == s[..i];
      sum := sum + s[i];
    }
    TakeAll(s);
    mean := sum / |s| as real;
  }

  /** slices.Sort on a buffer. */
  method SortInPlace(a: array<real>)
    modifies a
    ensures a[..] == Sort(old(a[..]))
  {
    var sorted := Sort(a[..]);
    forall i | 0 <= i < a.Length {
      a[i] := sorted[i];
    }
  }

  /** slices.Clone followed by slices.Sort. */
  method SortedClone(s: seq<real>) returns (sorted: seq<real>)
    ensures sorted == Sort(s)
  {
    var buf := new real[|s|](i requires 0 <= i < |s| => s[i]);
    assert buf[..] == s;
    SortInPlace(buf);
    sorted := buf[..];
  }

  method SumOfSquares(s: seq<real>, mean: real) returns (ss: real)
    ensures ss == SquaredDeviations(s, mean)
  {
    ss := 0.0;
    for i := 0 to |s|
      invariant ss == SquaredDeviations(s[..i], mean)
    {
      var d := s[i] - mean;
      assert s[..i + 1][..i] == s[..i];
      ss := ss + Times(d, d);
    }
    TakeAll(s);
  }

  /** Summarize. */
  method Summarize(samples: seq<real>, sqrt: Root) returns (s: Summary)
    ensures s == SummaryOf(samples, sqrt)
  {
    var n := |samples|;
    if n == 0 {
      return NOTHING;
    }
    var sorted := SortedClone(samples);
    var mean := MeanFloat(samples);
    s := Summary(n, mean, MedianSorted(sorted), 0.0, sorted[0], sorted[n - 1], 0.0, 0.0);
    if n > 1 {
      var ss := SumOfSquares(samples, mean);
      var sd := sqrt(ss / (n - 1) as real);
      s := s.(stddev := sd);
      if mean > 0.0 {
        s := s.(cv := sd / mean);
      }
      if s.median > 0.0 {
        var iqr := Percentile(sorted, 0.75) - Percentile(sorted, 0.25);
        s := s.(robustCV := iqr / IQR_TO_STDDEV / s.median);
      }
    }
  }

  // Aggregations.

  /** A parsed aggregation; a percentile is strictly between 0 and 1. */
  datatype Aggregation = AggMin | AggMax | AggMean | AggMedian | AggPercentile(p: real)

  function AggregateOf(samples: seq<real>, agg: Aggregation): Option<real> {
    if samples == [] then None
    else match agg
      case AggMin => Some(Least(samples))
      case AggMax => Some(Greatest(samples))
      case AggMean => Some(MeanOf(samples))
      case AggMedian => Some(MedianSorted(Sort(samples)))
      case AggPercentile(p) => Some(Percentile(Sort(samples), p))
  }

  /** Aggregate: no value without samples. */
  method Aggregate(samples: seq<real>, agg: Aggregation) returns (r: Option<real>)
    ensures r == AggregateOf(samples, agg)
  {
    if |samples| == 0 {
      return None;
    }
    match agg {
      case AggMin => r := Some(Least(samples));
      case AggMax => r := Some(Greatest(samples));
      case AggMean =>
        var mean := MeanFloat(samples);
        r := Some(mean);
      case AggMedian =>
        var sorted := SortedClone(samples);
        r := Some(MedianSorted(sorted));
      case AggPercentile(p) =>
        var sorted := SortedClone(samples);
        r := Some(Percentile(sorted, p));
    }
  }

  /** Every aggregation of smaller samples is smaller. */
  lemma AggregateMonotone(s: seq<real>, t: seq<real>, agg: Aggregation)
    requires s != [] && Below(s, t)
    ensures AggregateOf(s, agg).value <= AggregateOf(t, agg).value
  {
    match agg
    case AggMin => StatisticMonotone(s, t, Min);
    case AggMax => StatisticMonotone(s, t, Max);
    case AggMean => StatisticMonotone(s, t, Mean);
    case AggMedian => StatisticMonotone(s, t, Median);
    case AggPercentile(p) =>
      SortMonotone(s, t);
      PercentileOfBelow(Sort(s), Sort(t), p);
  }

  /** Every aggregation lies between any bounds of the samples. */
  lemma AggregateWithin(s: seq<real>, agg: Aggregation, lo: real, hi: real)
    requires s != [] && Within(s, lo, hi)
    ensures lo <= AggregateOf(s, agg).value <= hi
  {
    match agg
    case AggMin => StatisticWithin(s, Min, lo, hi);
    case AggMax => StatisticWithin(s, Max, lo, hi);
    case AggMean => StatisticWithin(s, Mean, lo, hi);
    case AggMedian => StatisticWithin(s, Median, lo, hi);
    case AggPercentile(p) =>
      SortWithin(s, lo, hi);
      SortSorts(s);
      PercentileWithin(Sort(s), p);
  }

  /** Fixed names are percentiles too: the minimum, the middle and the maximum. */
  lemma AggregationsAreOrdered(s: seq<real>, p: real)
    requires s != [] && 0.5 <= p < 1.0
    ensures AggregateOf(s, AggMin).value <= AggregateOf(s, AggMedian).value
         <= AggregateOf(s, AggPercentile(p)).value <= AggregateOf(s, AggMax).value
  {
    SortSorts(s);
    ExtremaAreEnds(s);
    MedianIsHalf(Sort(s));
    PercentileMonotone(Sort(s), 0.5, p);
  }
}
