/** The throughput comparison derived from the latency comparison,
    `deriveThroughput` and `reciprocalChange` of `internal/report/build.go` and
    `sameWork` of `internal/report/model.go`. */
module Throughput {
  import opened RealArithmetic
  import opened OrderStats
  import opened Comparing

  /** reciprocalChange. A change of -100 percent has no finite reciprocal; finite
      makes it 0. */
  function ReciprocalChange(percent: real): real {
    if percent == -100.0 then 0.0 else -100.0 * percent / (100.0 + percent)
  }

  /** The measured range of the work of one side. */
  datatype Work = Work(measuredMin: Option<real>, measuredMax: Option<real>)

  /** sameWork: both sides did one constant, equal, positive amount. */
  predicate SameWork(w: Option<Work>, other: Option<Work>) {
    && w.Some? && other.Some?
    && w.value.measuredMin.Some? && other.value.measuredMin.Some? && w.value.measuredMax.Some? && other.value.measuredMax.Some?
    && w.value.measuredMin.value > 0.0
    && w.value.measuredMin.value == w.value.measuredMax.value
       == other.value.measuredMin.value == other.value.measuredMax.value
  }

  datatype Derived =
    | Skipped
    | Derived(base: real, head: real, difference: real, maxPercent: real, change: real, low: real, high: real, verdict: Verdict)

  const NANOSECONDS := 1000000000.0

  /** deriveThroughput, of a latency comparison whose sides were compared. */
  function DeriveThroughput(lat: Comparison, maxPercent: real, baseMeasured: bool, headMeasured: bool,
                            baseWork: Option<Work>, headWork: Option<Work>): Derived
  {
    if !baseMeasured || !headMeasured || !SameWork(baseWork, headWork) then Skipped
    else if lat.base.count == 0 || lat.head.count == 0 || lat.baseValue <= 0.0 || lat.headValue <= 0.0 || lat.low <= -100.0 then Skipped
    else
      var b := baseWork.value.measuredMin.value / (lat.baseValue / NANOSECONDS);
      var h := headWork.value.measuredMin.value / (lat.headValue / NANOSECONDS);
      Derived(b, h, h - b, -ReciprocalChange(maxPercent), ReciprocalChange(lat.change),
              ReciprocalChange(lat.high), ReciprocalChange(lat.low), lat.verdict)
  }

  // The reciprocal of a relative change.

  /** A change in percent, from the ratio of the values. */
  function Percent(ratio: real): real {
    (ratio - 1.0) * 100.0
  }

  lemma ReciprocalOfRatio(q: real)
    requires q > 0.0
    ensures Percent(q) > -100.0 && ReciprocalChange(Percent(q)) == Percent(1.0 / q)
  {
    var r := 1.0 / q;
    assert r * q == 1.0;
    assert 100.0 + Percent(q) == 100.0 * q;
    assert -100.0 * Percent(q) == Percent(r) * (100.0 * q);
    QuotientUndone(Percent(r), 100.0 * q);
  }

  lemma RatioOf(p: real)
    requires p > -100.0
    ensures 1.0 + p / 100.0 > 0.0 && Percent(1.0 + p / 100.0) == p
  {
  }

  /** Taking the reciprocal twice gives the change back. */
  lemma ReciprocalIsInvolution(p: real)
    requires p > -100.0
    ensures ReciprocalChange(p) > -100.0 && ReciprocalChange(ReciprocalChange(p)) == p
  {
    var q := 1.0 + p / 100.0;
    RatioOf(p);
    ReciprocalOfRatio(q);
    QuotientSign(1.0, q);
    ReciprocalOfRatio(1.0 / q);
    assert 1.0 / (1.0 / q) == q by {
      QuotientOfScaled(1.0 / q, q, 1.0);
      assert (1.0 / q) * q == 1.0;
    }
  }

  /** A larger change has a smaller reciprocal. */
  lemma ReciprocalReverses(p: real, q: real)
    requires -100.0 < p && -100.0 < q
    ensures p < q <==> ReciprocalChange(q) < ReciprocalChange(p)
    ensures p <= q <==> ReciprocalChange(q) <= ReciprocalChange(p)
  {
    ReciprocalIsInvolution(p);
    ReciprocalIsInvolution(q);
    if p <= q {
      ReciprocalMonotone(p, q);
    } else {
      ReciprocalMonotone(q, p);
    }
  }

  lemma ReciprocalMonotone(p: real, q: real)
    requires -100.0 < p <= q
    ensures ReciprocalChange(q) <= ReciprocalChange(p)
  {
    RatioOf(p);
    RatioOf(q);
    ReciprocalOfRatio(1.0 + p / 100.0);
    ReciprocalOfRatio(1.0 + q / 100.0);
    QuotientAntitone(1.0, 1.0 + p / 100.0, 1.0 + q / 100.0);
  }

  lemma RatesRatio(work: real, b: real, h: real)
    requires work > 0.0 && b > 0.0 && h > 0.0
    ensures b / NANOSECONDS > 0.0 && h / NANOSECONDS > 0.0
    ensures work / (b / NANOSECONDS) > 0.0
    ensures (work / (h / NANOSECONDS)) / (work / (b / NANOSECONDS)) == 1.0 / (h / b)
  {
    var x, y := b / NANOSECONDS, h / NANOSECONDS;
    QuotientSign(b, NANOSECONDS);
    QuotientSign(h, NANOSECONDS);
    QuotientSign(work, x);
    QuotientSign(h, b);
    RatioOfQuotients(work, x, y);
    RatioOfReciprocals(b, h);
    assert x * NANOSECONDS == b && y * NANOSECONDS == h;
    QuotientOfScaled(NANOSECONDS, x, y);
  }

  lemma RatioOfQuotients(w: real, x: real, y: real)
    requires w > 0.0 && x > 0.0 && y > 0.0
    ensures w / x > 0.0 && (w / y) / (w / x) == x / y
  {
    QuotientSign(w, x);
    var r, s := w / x, w / y;
    assert r * x == w && s * y == w;
    var q := x / y;
    assert q * y == x;
    assert (r * q) * y == r * x == s * y by { Reassociate(r, q, y); }
    SameProduct(r * q, s, y);
    QuotientUndone(q, r);
  }

  lemma Reassociate(a: real, b: real, c: real)
    ensures (a * b) * c == a * (b * c)
  {
  }

  lemma SameProduct(a: real, b: real, c: real)
    requires c > 0.0 && a * c == b * c
    ensures a == b
  {
    QuotientUndone(a, c);
    QuotientUndone(b, c);
  }

  lemma RatioOfReciprocals(b: real, h: real)
    requires b > 0.0 && h > 0.0
    ensures h / b > 0.0 && 1.0 / (h / b) == b / h
  {
    QuotientSign(h, b);
    var q := h / b;
    QuotientOfScaled(b, 1.0, q);
    var n, d := b * 1.0, b * q;
    assert n == b && d == h;
  }

  /** The derived comparison agrees with its own rates: the change reported is the
      change of the rates, the interval has its ends in order, and the rate shrinks
      beyond the derived tolerance exactly when the latency grows beyond its own. */
  lemma DerivedAgreesWithRates(lat: Comparison, maxPercent: real, baseMeasured: bool, headMeasured: bool,
                               baseWork: Option<Work>, headWork: Option<Work>)
    requires DeriveThroughput(lat, maxPercent, baseMeasured, headMeasured, baseWork, headWork).Derived?
    requires lat.change == Change(lat.baseValue, lat.headValue) && lat.low <= lat.high && maxPercent >= 0.0
    ensures var d := DeriveThroughput(lat, maxPercent, baseMeasured, headMeasured, baseWork, headWork);
      && d.base > 0.0 && d.change == Change(d.base, d.head) && d.low <= d.high
      && (d.change < -d.maxPercent <==> lat.change > maxPercent)
      && d.verdict == lat.verdict
  {
    var b, h := lat.baseValue, lat.headValue;
    RatesRatio(baseWork.value.measuredMin.value, b, h);
    QuotientSign(h, b);
    ReciprocalOfRatio(h / b);
    ReciprocalReverses(lat.low, lat.high);
    ReciprocalReverses(maxPercent, lat.change);
  }
}
