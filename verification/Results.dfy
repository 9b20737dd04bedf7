/** Results and how they are ordered, `internal/report/model.go`, and the failure
    kinds of `internal/runner/result.go`. */
module Results {

  /** From best to worst. */
  datatype Result =
    | ResultPass | ResultImproved | ResultInconclusive | ResultOverBudget
    | ResultRegression | ResultMetricError | ResultError
  {
    function Severity(): nat {
      match this
      case ResultPass => 0
      case ResultImproved => 1
      case ResultInconclusive => 2
      case ResultOverBudget => 3
      case ResultRegression => 4
      case ResultMetricError => 5
      case ResultError => 6
    }

    predicate IsError() {
      this == ResultError || this == ResultMetricError
    }
  }

  function Worst(a: Result, b: Result): Result {
    if b.Severity() > a.Severity() then b else a
  }

  function WorstOf(rs: seq<Result>): (r: Result) {
    if rs == [] then ResultPass else Worst(WorstOf(rs[..|rs| - 1]), rs[|rs| - 1])
  }

  /** The worst of several results is one of them, and none is worse. */
  lemma {:induction false} WorstOfIsWorst(rs: seq<Result>)
    ensures WorstOf(rs) == ResultPass || WorstOf(rs) in rs
    ensures forall r | r in rs :: r.Severity() <= WorstOf(rs).Severity()
  {
    if rs != [] {
      WorstOfIsWorst(rs[..|rs| - 1]);
      assert rs == rs[..|rs| - 1] + [rs[|rs| - 1]];
    }
  }

  lemma WorstIsUpperBound(a: Result, b: Result, c: Result)
    ensures Worst(a, Worst(b, c)) == Worst(Worst(a, b), c) && Worst(a, b) == Worst(b, a)
  {
  }

  /** The failures the judging tells apart, only by whether they concern a metric. */
  datatype FailureKind =
    | FailBuild | FailSetup | FailPrepareEach | FailCleanup | FailExitCode | FailTimeout
    | FailStart | FailInterrupted | FailPath | FailInternal
    | FailMetricUnsupported | FailMetricCollection
  {
    predicate IsMetricFailure() {
      this == FailMetricUnsupported || this == FailMetricCollection
    }
  }

  /** The one of the two error results that a failure leads to. */
  function ErrorResult(k: FailureKind): (r: Result)
    ensures r.IsError()
  {
    if k.IsMetricFailure() then ResultMetricError else ResultError
  }
}
