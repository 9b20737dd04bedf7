/** Absolute budgets, `internal/report/budgets.go` and `internal/metric/threshold.go`,
    and what they say when a peak RSS may be below what was observed. */
module Budgets {
  import opened OrderStats
  import opened Summaries
  import opened ComparingLaws
  import opened PeakFloor
  import opened Results

  datatype Op = Less | LessEqual | Greater | GreaterEqual
  {
    predicate Holds(actual: real, limit: real) {
      match this
      case Less => actual < limit
      case LessEqual => actual <= limit
      case Greater => actual > limit
      case GreaterEqual => actual >= limit
    }

    predicate Upper() {
      this == Less || this == LessEqual
    }
  }

  datatype Threshold = Threshold(op: Op, limit: real)
  {
    predicate Allows(actual: real) {
      op.Holds(actual, limit)
    }
  }

  datatype Direction = LowerIsBetter | HigherIsBetter | Neutral

  /** checkDirection: which operators a metric's budget may use. */
  predicate CheckDirection(op: Op, better: Direction) {
    match better
    case LowerIsBetter => op.Upper()
    case HigherIsBetter => !op.Upper()
    case Neutral => true
  }

  datatype MetricName = Latency | Throughput | CPUUser | CPUSystem | CPUTotal | CPUUtilization | PeakRSS

  function Better(name: MetricName): Direction {
    match name
    case Throughput => HigherIsBetter
    case CPUUtilization => Neutral
    case _ => LowerIsBetter
  }

  datatype Status = Measured | NotRequested | Unsupported | Failed

  datatype MetricSummary = MetricSummary(status: Status, samples: seq<real>, floor: int)

  datatype Budget = Budget(command: string, metric: MetricName, aggregation: Aggregation, threshold: Threshold)

  datatype BudgetStatus = BudgetPass | BudgetFail | BudgetSkipped | BudgetNoData

  datatype BudgetCheck = BudgetCheck(budget: Budget, actual: Option<real>, status: BudgetStatus, pass: bool, atFloor: bool)

  // The specification: what one budget is checked to, and what that does to the
  // result of its command.

  function MeasuredCheck(ms: MetricSummary, bud: Budget): BudgetCheck
    requires ms.samples != []
  {
    var actual := AggregateOf(ms.samples, bud.aggregation).value;
    var met := if AtFloor(ms.floor, actual)
               then bud.threshold.op.Upper() && bud.threshold.Allows(ms.floor as real)
               else bud.threshold.Allows(actual);
    BudgetCheck(bud, Some(actual),
                if met then BudgetPass else if AtFloor(ms.floor, actual) then BudgetSkipped else BudgetFail,
                met, AtFloor(ms.floor, actual))
  }

  function Checked(metrics: map<MetricName, MetricSummary>, bud: Budget): BudgetCheck {
    if bud.metric in metrics && metrics[bud.metric].status == Unsupported then
      BudgetCheck(bud, None, BudgetSkipped, false, false)
    else if bud.metric in metrics && metrics[bud.metric].status == Measured && metrics[bud.metric].samples != [] then
      MeasuredCheck(metrics[bud.metric], bud)
    else
      BudgetCheck(bud, None, BudgetNoData, false, false)
  }

  /** A budget that could not be assessed is an error, unless its metric was
      waived as unsupported. */
  function Effect(check: BudgetCheck): Result {
    match check.status
    case BudgetPass => ResultPass
    case BudgetFail => ResultOverBudget
    case BudgetNoData => ResultMetricError
    case BudgetSkipped => if check.atFloor then ResultMetricError else ResultPass
  }

  function ChecksOf(name: string, metrics: map<MetricName, MetricSummary>, budgets: seq<Budget>): seq<BudgetCheck> {
    if budgets == [] then []
    else
      var bud := budgets[|budgets| - 1];
      ChecksOf(name, metrics, budgets[..|budgets| - 1]) + if bud.command == name then [Checked(metrics, bud)] else []
  }

  function Effects(checks: seq<BudgetCheck>): (r: seq<Result>)
    ensures |r| == |checks| && forall i | 0 <= i < |r| :: r[i] == Effect(checks[i])
  {
    seq(|checks|, i requires 0 <= i < |checks| => Effect(checks[i]))
  }

  /** A command being judged. */
  class Command {
    const name: string
    const metrics: map<MetricName, MetricSummary>
    var result: Result
    var budgets: seq<BudgetCheck>

    constructor (name: string, metrics: map<MetricName, MetricSummary>, result: Result)
      ensures this.name == name && this.metrics == metrics && this.result == result && this.budgets == []
    {
      this.name, this.metrics, this.result, this.budgets := name, metrics, result, [];
    }

    /** measuredBudget. */
    method MeasuredBudget(ms: MetricSummary, bud: Budget) returns (check: BudgetCheck)
      requires ms.samples != []
      modifies this`result
      ensures check == MeasuredCheck(ms, bud)
      ensures result == if check.status == BudgetSkipped then Worst(old(result), ResultMetricError) else old(result)
    {
      var value := Aggregate(ms.samples, bud.aggregation);
      var actual := value.value;
      check := BudgetCheck(bud, value, BudgetNoData, false, false);
      if !AtFloor(ms.floor, actual) {
        check := check.(pass := bud.threshold.Allows(actual), status := BudgetFail);
        if check.pass {
          check := check.(status := BudgetPass);
        }
        return;
      }
      check := check.(status := BudgetSkipped, atFloor := true);
      if bud.threshold.op.Upper() && bud.threshold.Allows(ms.floor as real) {
        return check.(status := BudgetPass, pass := true);
      }
      result := Worst(result, ResultMetricError);
    }

    /** evaluateBudget. */
    method EvaluateBudget(bud: Budget) returns (check: BudgetCheck)
      modifies this`result
      ensures check == Checked(metrics, bud)
      ensures result == if check.status == BudgetFail then old(result) else Worst(old(result), Effect(check))
    {
      check := BudgetCheck(bud, None, BudgetNoData, false, false);
      var known := bud.metric in metrics;
      if known && metrics[bud.metric].status == Unsupported {
        check := check.(status := BudgetSkipped);
      } else if !known || metrics[bud.metric].status != Measured || metrics[bud.metric].samples == [] {
        result := Worst(result, ResultMetricError);
      } else {
        check := MeasuredBudget(metrics[bud.metric], bud);
      }
    }

    /** budgets: every configured budget of this command is checked, in order, and
        the result is worsened by what they say. */
    method CheckBudgets(configured: seq<Budget>)
      modifies this
      ensures budgets == old(budgets) + ChecksOf(name, metrics, configured)
      ensures result == Worst(old(result), WorstOf(Effects(ChecksOf(name, metrics, configured))))
    {
      ghost var before, checked := budgets, [];
      assert Effects([]) == [];
      for i := 0 to |configured|
        invariant checked == ChecksOf(name, metrics, configured[..i])
        invariant budgets == before + checked
        invariant result == Worst(old(result), WorstOf(Effects(checked)))
      {
        var bud := configured[i];
        assert configured[..i + 1][..i] == configured[..i];
        if bud.command == name {
          ghost var at := result;
          var check := EvaluateBudget(bud);
          if check.status == BudgetFail {
            result := Worst(result, ResultOverBudget);
          }
          assert result == Worst(at, Effect(check));
          EffectsSnoc(old(result), checked, check);
          budgets := budgets + [check];
          checked := checked + [check];
        }
      }
      assert configured[..|configured|] == configured;
    }
  }

  lemma EffectsSnoc(r: Result, checks: seq<BudgetCheck>, check: BudgetCheck)
    ensures Worst(r, WorstOf(Effects(checks + [check]))) == Worst(Worst(r, WorstOf(Effects(checks))), Effect(check))
  {
    assert Effects(checks + [check]) == Effects(checks) + [Effect(check)];
    assert (Effects(checks) + [Effect(check)])[..|checks|] == Effects(checks);
    WorstIsUpperBound(r, WorstOf(Effects(checks)), Effect(check));
  }

  // What the checks mean.

  predicate Unassessed(check: BudgetCheck) {
    check.status == BudgetNoData || (check.status == BudgetSkipped && check.atFloor)
  }

  /** The result of a command is an error exactly when it was one, or some budget
      could not be assessed; and over budget exactly when nothing is worse and some
      budget failed. */
  lemma BudgetResult(before: Result, checks: seq<BudgetCheck>)
    ensures var r := Worst(before, WorstOf(Effects(checks)));
      && (r.IsError() <==> before.IsError() || exists i | 0 <= i < |checks| :: Unassessed(checks[i]))
      && (r == ResultPass <==> before == ResultPass && forall i | 0 <= i < |checks| :: Effect(checks[i]) == ResultPass)
  {
    var effects := Effects(checks);
    WorstOfIsWorst(effects);
    forall i | 0 <= i < |checks|
      ensures Effect(checks[i]).Severity() <= WorstOf(effects).Severity()
    {
      assert effects[i] in effects;
    }
    if WorstOf(effects).IsError() {
      var i :| 0 <= i < |effects| && effects[i] == WorstOf(effects);
      assert Unassessed(checks[i]);
    }
  }

  /** A summary of peaks that may hide smaller real values. */
  ghost predicate Summarises(ms: MetricSummary, peaks: seq<int>, floors: seq<int>) {
    && peaks != [] && |floors| == |peaks|
    && (forall i | 0 <= i < |floors| :: floors[i] >= 0)
    && ms == MetricSummary(Measured, AsSamples(peaks), LargestFloor(floors))
  }

  /** A peak RSS budget reported as met is met by every real value that explains
      the observations, whatever is aggregated. */
  lemma PassIsRight(ms: MetricSummary, peaks: seq<int>, floors: seq<int>, bud: Budget, truth: seq<real>)
    requires Summarises(ms, peaks, floors) && Explains(truth, peaks, floors)
    requires CheckDirection(bud.threshold.op, Better(PeakRSS))
    requires MeasuredCheck(ms, bud).status == BudgetPass
    ensures bud.threshold.Allows(AggregateOf(truth, bud.aggregation).value)
  {
    TruthIsBelow(truth, peaks, floors, 0);
    AggregateMonotone(truth, ms.samples, bud.aggregation);
  }

  /** A peak RSS budget reported as failed is failed by every real value exactly
      when it fails even if the runs at their own floor used nothing. */
  lemma FailIsRightExactly(ms: MetricSummary, peaks: seq<int>, floors: seq<int>, bud: Budget, some: seq<real>)
    requires Summarises(ms, peaks, floors) && Explains(some, peaks, floors)
    requires CheckDirection(bud.threshold.op, Better(PeakRSS))
    requires MeasuredCheck(ms, bud).status == BudgetFail
    ensures (forall truth | Explains(truth, peaks, floors) :: !bud.threshold.Allows(AggregateOf(truth, bud.aggregation).value))
      <==> !bud.threshold.Allows(AggregateOf(Lowest(peaks, floors), bud.aggregation).value)
  {
    LowestIsLowest(some, peaks, floors);
    if !bud.threshold.Allows(AggregateOf(Lowest(peaks, floors), bud.aggregation).value) {
      forall truth | Explains(truth, peaks, floors)
        ensures !bud.threshold.Allows(AggregateOf(truth, bud.aggregation).value)
      {
        LowestIsLowest(truth, peaks, floors);
        AggregateMonotone(Lowest(peaks, floors), truth, bud.aggregation);
      }
    }
  }

  lemma GreatestIsExact(truth: seq<real>, peaks: seq<int>, floors: seq<int>)
    requires peaks != [] && Explains(truth, peaks, floors) && forall i | 0 <= i < |floors| :: floors[i] >= 0
    requires !AtFloor(LargestFloor(floors), Greatest(AsSamples(peaks)))
    ensures Greatest(truth) == Greatest(AsSamples(peaks))
  {
    var samples := AsSamples(peaks);
    var top := Greatest(samples);
    TruthIsBelow(truth, peaks, floors, 0);
    StatisticMonotone(truth, samples, Max);
    var i :| 0 <= i < |peaks| && samples[i] == top;
    assert floors[i] <= LargestFloor(floors);
    OneRun(peaks[i], truth[i], floors[i]);
    assert truth[i] <= Greatest(truth);
  }

  /** For the maximum a reported fail is always right: the largest peak is above
      every floor. */
  lemma MaximumFailIsRight(ms: MetricSummary, peaks: seq<int>, floors: seq<int>, bud: Budget, truth: seq<real>)
    requires Summarises(ms, peaks, floors) && Explains(truth, peaks, floors)
    requires bud.aggregation == AggMax && MeasuredCheck(ms, bud).status == BudgetFail
    ensures AggregateOf(truth, AggMax) == AggregateOf(ms.samples, AggMax)
    ensures !bud.threshold.Allows(AggregateOf(truth, AggMax).value)
  {
    GreatestIsExact(truth, peaks, floors);
  }

  /** Every possible real value meets a bound exactly when the observed statistic does,
      also at the floor, where the check is reported as met only if the floor itself
      meets it. */
  lemma AtFloorIsDecided(ms: MetricSummary, peaks: seq<int>, floors: seq<int>, bud: Budget, some: seq<real>)
    requires Summarises(ms, peaks, floors) && Explains(some, peaks, floors)
    requires CheckDirection(bud.threshold.op, Better(PeakRSS))
    ensures (forall truth | Explains(truth, peaks, floors) :: bud.threshold.Allows(AggregateOf(truth, bud.aggregation).value))
      <==> bud.threshold.Allows(MeasuredCheck(ms, bud).actual.value)
    ensures MeasuredCheck(ms, bud).status == BudgetPass ==> bud.threshold.Allows(MeasuredCheck(ms, bud).actual.value)
  {
    TruthIsBelow(some, peaks, floors, 0);
    ExplainsMeans(ms.samples, peaks, floors);
    if bud.threshold.Allows(MeasuredCheck(ms, bud).actual.value) {
      forall truth | Explains(truth, peaks, floors)
        ensures bud.threshold.Allows(AggregateOf(truth, bud.aggregation).value)
      {
        TruthIsBelow(truth, peaks, floors, 0);
        AggregateMonotone(truth, ms.samples, bud.aggregation);
      }
    } else {
      assert Explains(ms.samples, peaks, floors);
    }
  }

  /** A mean above the floor can fail although the real mean meets the budget. */
  lemma FailExample()
    ensures var ms := MetricSummary(Measured, AsSamples([10, 14]), 10);
      var bud := Budget("c", PeakRSS, AggMean, Threshold(LessEqual, 11.0));
      && Summarises(ms, [10, 14], [10, 10]) && Explains([0.0, 14.0], [10, 14], [10, 10])
      && MeasuredCheck(ms, bud).status == BudgetFail
      && bud.threshold.Allows(AggregateOf([0.0, 14.0], AggMean).value)
  {
    assert AsSamples([10, 14]) == [10.0, 14.0];
    assert [10.0, 14.0][..1] == [10.0] && [0.0, 14.0][..1] == [0.0];
    assert Sum([10.0]) == 10.0 && Sum([0.0]) == 0.0;
    ExplainsMeans([0.0, 14.0], [10, 14], [10, 10]);
  }

  /** A bound between the statistic and the floor is left undecided although every
      real value meets it. */
  lemma UndecidedExample()
    ensures var ms := MetricSummary(Measured, AsSamples([12]), 20);
      var bud := Budget("c", PeakRSS, AggMax, Threshold(LessEqual, 15.0));
      && Summarises(ms, [12], [20]) && MeasuredCheck(ms, bud).status == BudgetSkipped
      && forall truth | Explains(truth, [12], [20]) :: bud.threshold.Allows(AggregateOf(truth, AggMax).value)
  {
    var ms := MetricSummary(Measured, AsSamples([12]), 20);
    var bud := Budget("c", PeakRSS, AggMax, Threshold(LessEqual, 15.0));
    assert AsSamples([12]) == [12.0];
    forall truth | Explains(truth, [12], [20])
      ensures bud.threshold.Allows(AggregateOf(truth, AggMax).value)
    {
      AtFloorIsDecided(ms, [12], [20], bud, truth);
    }
  }
}
