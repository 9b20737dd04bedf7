/** The bootstrap comparison of `internal/stats/compare.go`.

    The random draws are a parameter: the indices they pick depend only on the
    seed, the number of resamples and the two sample counts.

    (A predicate compared with true in a contract is used as one fact, so that the verifier
    does not prove its clauses again.) */
module Comparing {
  import opened RealArithmetic
  import opened OrderStats
  import opened Summaries

  datatype Verdict = Pass | Improved | Regression | Inconclusive

  datatype Reason =
    | Unexplained | NoSamples | ZeroBase | ZeroBootstrapBase
    | FewSamples | Noisy | TooClose | BelowMinDifference

  datatype Options = Options(
    metric: Metric, higherIsBetter: bool, maxPercent: real, minDifference: real,
    confidence: real, minSamples: int, maxCV: real)

  /** Absorbs floating point noise around the tolerance. */
  const EPSILON := 0.000000001

  datatype Comparison = Comparison(
    base: Summary, head: Summary, baseValue: real, headValue: real, difference: real,
    change: real, low: real, high: real, probRegression: real, probImprovement: real,
    verdict: Verdict, reason: Reason)

  // Resampling.

  /** The places one resample takes its values from, on each side. */
  datatype Draw = Draw(base: seq<nat>, head: seq<nat>)

  ghost predicate Picks(places: seq<nat>, n: nat) {
    |places| == n && forall i | 0 <= i < n :: places[i] < n
  }

  ghost predicate Fits(draws: seq<Draw>, base: seq<real>, head: seq<real>) {
    draws != [] && forall k | 0 <= k < |draws| :: Picks(draws[k].base, |base|) && Picks(draws[k].head, |head|)
  }

  function Resample(s: seq<real>, places: seq<nat>): (r: seq<real>)
    requires Picks(places, |s|)
    ensures |r| == |s| && forall i | 0 <= i < |s| :: r[i] == s[places[i]]
  {
    seq(|s|, i requires 0 <= i < |s| => s[places[i]])
  }

  /** The relative change in percent. */
  function Change(b: real, h: real): real
    requires b > 0.0
  {
    (h / b - 1.0) * 100.0
  }

  /** The statistic of the base side of draw k. */
  function DrawnBase(base: seq<real>, m: Metric, draw: Draw): real
    requires base != [] && Picks(draw.base, |base|)
  {
    Statistic(Resample(base, draw.base), m)
  }

  function DrawnHead(head: seq<real>, m: Metric, draw: Draw): real
    requires head != [] && Picks(draw.head, |head|)
  {
    Statistic(Resample(head, draw.head), m)
  }

  /** No draw has an undefined change. */
  ghost predicate Defined(base: seq<real>, m: Metric, draws: seq<Draw>)
    requires base != [] && forall k | 0 <= k < |draws| :: Picks(draws[k].base, |base|)
  {
    forall k | 0 <= k < |draws| :: DrawnBase(base, m, draws[k]) > 0.0
  }

  function RawChanges(base: seq<real>, head: seq<real>, m: Metric, draws: seq<Draw>): (r: seq<real>)
    requires base != [] && head != [] && Fits(draws, base, head) && Defined(base, m, draws)
    ensures |r| == |draws|
  {
    seq(|draws|, k requires 0 <= k < |draws| => Change(DrawnBase(base, m, draws[k]), DrawnHead(head, m, draws[k])))
  }

  /** bootstrapChanges: sorted, or nothing when a draw is undefined. */
  ghost function Changes(base: seq<real>, head: seq<real>, m: Metric, draws: seq<Draw>): (r: seq<real>)
    requires base != [] && head != [] && Fits(draws, base, head)
    ensures |r| == if Defined(base, m, draws) then |draws| else 0
  {
    if Defined(base, m, draws) then Sort(RawChanges(base, head, m, draws)) else []
  }

  // Counting and deciding.

  /** How much worse a change is: the change itself, or its negation when higher
      is better. */
  function Degradation(change: real, higherIsBetter: bool): real {
    if higherIsBetter then -change else change
  }

  function CountWorse(changes: seq<real>, o: Options): (n: nat)
    ensures n <= |changes|
  {
    if changes == [] then 0
    else
      var last := |changes| - 1;
      CountWorse(changes[..last], o)
      + if Degradation(changes[last], o.higherIsBetter) > o.maxPercent + EPSILON then 1 else 0
  }

  function CountBetter(changes: seq<real>, o: Options): (n: nat)
    ensures n <= |changes|
  {
    if changes == [] then 0
    else
      var last := |changes| - 1;
      CountBetter(changes[..last], o)
      + if Degradation(changes[last], o.higherIsBetter) < -o.maxPercent - EPSILON then 1 else 0
  }

  function Share(n: nat, total: nat): real {
    if total == 0 then 0.0 else n as real / total as real
  }

  function Abs(x: real): real {
    if x < 0.0 then -x else x
  }

  predicate Separated(base: Summary, head: Summary) {
    base.min > 0.0 && head.min > 0.0 && (head.min > base.max || head.max < base.min)
  }

  /** The noise gate. */
  predicate TooNoisy(base: Summary, head: Summary, o: Options) {
    && o.maxCV > 0.0 && (base.Dispersion(o.metric) > o.maxCV || head.Dispersion(o.metric) > o.maxCV)
    && !Separated(base, head)
  }

  /** The decision list. */
  function Decide(few: bool, noisy: bool, undefined: bool, difference: real, degradation: real,
                  probRegression: real, probImprovement: real, o: Options): (Verdict, Reason)
  {
    if few then (Inconclusive, FewSamples)
    else if noisy then (Inconclusive, Noisy)
    else if undefined then (Inconclusive, ZeroBootstrapBase)
    else if o.minDifference > 0.0 && Abs(difference) < o.minDifference then (Pass, BelowMinDifference)
    else if degradation > o.maxPercent + EPSILON && probRegression >= o.confidence then (Regression, Unexplained)
    else if degradation < -o.maxPercent - EPSILON && probImprovement >= o.confidence then (Improved, Unexplained)
    else if 1.0 - probRegression >= o.confidence then (Pass, Unexplained)
    else (Inconclusive, TooClose)
  }

  predicate Few(base: Summary, head: Summary, o: Options) {
    base.count < o.minSamples || head.count < o.minSamples
  }

  function Quantile(changes: seq<real>, p: real): real {
    if changes == [] then 0.0 else Percentile(changes, p)
  }

  /** The comparison with these sorted bootstrap changes. */
  function Judged(base: Summary, head: Summary, changes: seq<real>, o: Options): Comparison
    requires base.Value(o.metric) > 0.0
  {
    var bv, hv := base.Value(o.metric), head.Value(o.metric);
    var change := Change(bv, hv);
    var alpha := (1.0 - o.confidence) / 2.0;
    var probRegression, probImprovement :=
      Share(CountWorse(changes, o), |changes|), Share(CountBetter(changes, o), |changes|);
    var decision := Decide(Few(base, head, o), TooNoisy(base, head, o), changes == [], hv - bv,
                           Degradation(change, o.higherIsBetter), probRegression, probImprovement, o);
    Comparison(base, head, bv, hv, hv - bv, change, Quantile(changes, alpha), Quantile(changes, 1.0 - alpha),
               probRegression, probImprovement, decision.0, decision.1)
  }

  function Undecided(base: Summary, head: Summary, bv: real, hv: real, reason: Reason): Comparison {
    Comparison(base, head, bv, hv, hv - bv, 0.0, 0.0, 0.0, 0.0, 0.0, Inconclusive, reason)
  }

  /** Compare, given the draws. */
  ghost function Compared(base: seq<real>, head: seq<real>, o: Options, draws: seq<Draw>, sqrt: Root): Comparison
    requires base != [] && head != [] ==> Fits(draws, base, head)
  {
    var b, h := SummaryOf(base, sqrt), SummaryOf(head, sqrt);
    if base == [] || head == [] then Undecided(b, h, 0.0, 0.0, NoSamples)
    else if b.Value(o.metric) <= 0.0 then Undecided(b, h, b.Value(o.metric), h.Value(o.metric), ZeroBase)
    else Judged(b, h, Changes(base, head, o.metric, draws), o)
  }

  // The loops.

  /** metricOf: the statistic of a buffer, sorted in place for the median. */
  method MetricOf(buf: array<real>, m: Metric) returns (r: real)
    requires buf.Length > 0
    modifies buf
    ensures r == Statistic(old(buf[..]), m)
    ensures buf[..] == if m.Median? then Sort(old(buf[..])) else old(buf[..])
  {
    match m {
      case Mean => r := MeanFloat(buf[..]);
      case Min => r := Least(buf[..]);
      case Max => r := Greatest(buf[..]);
      case Median =>
        SortInPlace(buf);
        r := MedianSorted(buf[..]);
    }
  }

  /** Fills the buffer with the drawn samples. */
  method FillBuffer(buf: array<real>, samples: seq<real>, places: seq<nat>)
    requires buf.Length == |samples| && Picks(places, |samples|)
    modifies buf
    ensures buf[..] == Resample(samples, places)
  {
    for i := 0 to buf.Length
      invariant forall j | 0 <= j < i :: buf[j] == samples[places[j]]
    {
      buf[i] := samples[places[i]];
    }
  }

  /** One iteration: the statistics of both resamples. */
  method DrawBoth(bbuf: array<real>, hbuf: array<real>, base: seq<real>, head: seq<real>, m: Metric, draw: Draw)
    returns (b: real, h: real)
    requires base != [] && head != [] && bbuf.Length == |base| && hbuf.Length == |head| && bbuf != hbuf
    requires Picks(draw.base, |base|) && Picks(draw.head, |head|)
    modifies bbuf, hbuf
    ensures b == DrawnBase(base, m, draw) && h == DrawnHead(head, m, draw)
  {
    FillBuffer(bbuf, base, draw.base);
    FillBuffer(hbuf, head, draw.head);
    b := MetricOf(bbuf, m);
    h := MetricOf(hbuf, m);
  }

  /** The changes of the first draws are recorded, and all defined. */
  ghost predicate Recorded(out: seq<real>, base: seq<real>, head: seq<real>, m: Metric, draws: seq<Draw>)
    requires base != [] && head != [] && Fits(draws, base, head)
  {
    |out| <= |draws|
    && forall k | 0 <= k < |out| ::
         DrawnBase(base, m, draws[k]) > 0.0
         && out[k] == Change(DrawnBase(base, m, draws[k]), DrawnHead(head, m, draws[k]))
  }

  lemma RecordOne(out: seq<real>, base: seq<real>, head: seq<real>, m: Metric, draws: seq<Draw>, b: real, h: real)
    requires base != [] && head != [] && Fits(draws, base, head)
    requires Recorded(out, base, head, m, draws) && |out| < |draws|
    requires b == DrawnBase(base, m, draws[|out|]) && h == DrawnHead(head, m, draws[|out|])
    ensures b > 0.0 ==> Recorded(out + [Change(b, h)], base, head, m, draws) == true
    ensures b <= 0.0 ==> Changes(base, head, m, draws) == []
  {
  }

  lemma RecordedAll(out: seq<real>, base: seq<real>, head: seq<real>, m: Metric, draws: seq<Draw>)
    requires base != [] && head != [] && Fits(draws, base, head)
    requires Recorded(out, base, head, m, draws) && |out| == |draws|
    ensures Changes(base, head, m, draws) == Sort(out)
  {
    assert out == RawChanges(base, head, m, draws);
  }

  /** bootstrapChanges, reusing its two buffers. */
  method BootstrapChanges(base: seq<real>, head: seq<real>, m: Metric, draws: seq<Draw>) returns (out: seq<real>)
    requires base != [] && head != [] && Fits(draws, base, head)
    ensures out == Changes(base, head, m, draws)
  {
    var bbuf, hbuf := new real[|base|], new real[|head|];
    out := [];
    for k := 0 to |draws|
      invariant |out| == k && Recorded(out, base, head, m, draws) == true
    {
      var b, h := DrawBoth(bbuf, hbuf, base, head, m, draws[k]);
      RecordOne(out, base, head, m, draws, b, h);
      if b <= 0.0 {
        return [];
      }
      out := out + [Change(b, h)];
    }
    RecordedAll(out, base, head, m, draws);
    out := SortedClone(out);
  }

  lemma CountOneMore(changes: seq<real>, i: nat, o: Options)
    requires i < |changes|
    ensures CountWorse(changes[..i + 1], o) == CountWorse(changes[..i], o)
      + if Degradation(changes[i], o.higherIsBetter) > o.maxPercent + EPSILON then 1 else 0
    ensures CountBetter(changes[..i + 1], o) == CountBetter(changes[..i], o)
      + if Degradation(changes[i], o.higherIsBetter) < -o.maxPercent - EPSILON then 1 else 0
  {
    assert changes[..i + 1][..i] == changes[..i];
  }

  /** The counting loop of Compare. */
  method CountBoth(changes: seq<real>, o: Options) returns (worse: nat, better: nat)
    ensures worse == CountWorse(changes, o) && better == CountBetter(changes, o)
  {
    worse, better := 0, 0;
    for i := 0 to |changes|
      invariant worse == CountWorse(changes[..i], o) && better == CountBetter(changes[..i], o)
    {
      var d := Degradation(changes[i], o.higherIsBetter);
      CountOneMore(changes, i, o);
      if d > o.maxPercent + EPSILON {
        worse := worse + 1;
      }
      if d < -o.maxPercent - EPSILON {
        better := better + 1;
      }
    }
    TakeAll(changes);
  }

  /** The switch of Compare. */
  method Classify(b: Summary, h: Summary, o: Options, undefined: bool, difference: real, degradation: real,
                  probRegression: real, probImprovement: real)
    returns (verdict: Verdict, reason: Reason)
    ensures (verdict, reason) == Decide(Few(b, h, o), TooNoisy(b, h, o), undefined, difference, degradation,
                                        probRegression, probImprovement, o)
  {
    if b.count < o.minSamples || h.count < o.minSamples {
      return Inconclusive, FewSamples;
    } else if o.maxCV > 0.0 && (b.Dispersion(o.metric) > o.maxCV || h.Dispersion(o.metric) > o.maxCV) && !Separated(b, h) {
      return Inconclusive, Noisy;
    } else if undefined {
      return Inconclusive, ZeroBootstrapBase;
    } else if o.minDifference > 0.0 && Abs(difference) < o.minDifference {
      return Pass, BelowMinDifference;
    } else if degradation > o.maxPercent + EPSILON && probRegression >= o.confidence {
      return Regression, Unexplained;
    } else if degradation < -o.maxPercent - EPSILON && probImprovement >= o.confidence {
      return Improved, Unexplained;
    } else if 1.0 - probRegression >= o.confidence {
      return Pass, Unexplained;
    }
    return Inconclusive, TooClose;
  }

  /** The rest of Compare, once the changes are drawn. */
  method Conclude(b: Summary, h: Summary, changes: seq<real>, o: Options) returns (c: Comparison)
    requires b.Value(o.metric) > 0.0
    ensures c == Judged(b, h, changes, o)
  {
    var bv, hv := b.Value(o.metric), h.Value(o.metric);
    c := Undecided(b, h, bv, hv, Unexplained).(change := Change(bv, hv));
    var alpha := (1.0 - o.confidence) / 2.0;
    if |changes| > 0 {
      c := c.(low := Percentile(changes, alpha), high := Percentile(changes, 1.0 - alpha));
    }
    var worse, better := CountBoth(changes, o);
    if |changes| > 0 {
      c := c.(probRegression := worse as real / |changes| as real,
              probImprovement := better as real / |changes| as real);
    }
    var verdict, reason := Classify(b, h, o, |changes| == 0, hv - bv, Degradation(c.change, o.higherIsBetter),
                                    c.probRegression, c.probImprovement);
    c := c.(verdict := verdict, reason := reason);
  }

  /** Compare. */
  method Compare(base: seq<real>, head: seq<real>, o: Options, draws: seq<Draw>, sqrt: Root) returns (c: Comparison)
    requires base != [] && head != [] ==> Fits(draws, base, head)
    ensures c == Compared(base, head, o, draws, sqrt)
  {
    var b := Summarize(base, sqrt);
    var h := Summarize(head, sqrt);
    if b.count == 0 || h.count == 0 {
      return Undecided(b, h, 0.0, 0.0, NoSamples);
    }
    var bv, hv := b.Value(o.metric), h.Value(o.metric);
    if bv <= 0.0 {
      return Undecided(b, h, bv, hv, ZeroBase);
    }
    var changes := BootstrapChanges(base, head, o.metric, draws);
    c := Conclude(b, h, changes, o);
  }
}
