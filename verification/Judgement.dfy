/** How measurements become results and results an exit code,
    `internal/report/build.go` and `aggregate.go`.

    (A predicate compared with true in a contract is used as one fact, so that the verifier
    does not prove its clauses again.) */
module Judgement {
  import opened OrderStats
  import opened Summaries
  import Comparing
  import opened PeakFloor
  import opened Budgets
  import opened Results

  datatype Mode = ModeRun | ModeCompare

  /** What was measured of one command on one side. */
  datatype Measurement = Measurement(failure: Option<FailureKind>, metrics: map<MetricName, MetricSummary>)

  /** The draws of one comparison: its seed is fixed by the names of the benchmark, the
      command and the metric, so they depend on nothing but the two sample counts. */
  type Drawing = f: (nat, nat) -> seq<Comparing.Draw> | DrawsFit(f)
    ghost witness (k: nat, n: nat) => [Comparing.Draw(InOrder(k), InOrder(n))]

  ghost predicate DrawsFit(f: (nat, nat) -> seq<Comparing.Draw>) {
    forall k: nat, n: nat :: f(k, n) != []
      && forall i | 0 <= i < |f(k, n)| :: Comparing.Picks(f(k, n)[i].base, k) && Comparing.Picks(f(k, n)[i].head, n)
  }

  function InOrder(n: nat): (places: seq<nat>)
    ensures |places| == n && forall i | 0 <= i < n :: places[i] == i
  {
    seq(n, i requires 0 <= i < n => i)
  }

  /** A metric to compare, and whether its verdict decides the result. */
  datatype ComparedMetric = ComparedMetric(
    name: MetricName, options: Comparing.Options, gate: bool, draws: Drawing, sqrt: Root)

  /** One compared metric: what came of it, and whether it decides the result. */
  datatype MetricComparison = MetricComparison(gate: bool, outcome: Outcome)

  datatype CommandInput = CommandInput(
    name: string, head: Option<Measurement>, base: Option<Measurement>,
    compares: bool, compared: seq<ComparedMetric>)

  datatype BenchmarkInput = BenchmarkInput(
    failure: Option<FailureKind>, commands: seq<CommandInput>, budgets: seq<Budget>)

  datatype SuiteInput = SuiteInput(
    buildFailure: Option<FailureKind>, newInHead: bool, benchmarks: seq<BenchmarkInput>)

  datatype JudgedCommand = JudgedCommand(name: string, result: Result, checks: seq<BudgetCheck>)
  datatype JudgedBenchmark = JudgedBenchmark(result: Result, error: Option<FailureKind>, commands: seq<JudgedCommand>)
  datatype JudgedSuite = JudgedSuite(result: Result, error: Option<FailureKind>, benchmarks: seq<JudgedBenchmark>)

  function Map<A, B>(f: A -> B, s: seq<A>): (r: seq<B>)
    ensures |r| == |s| && forall i | 0 <= i < |s| :: r[i] == f(s[i])
  {
    seq(|s|, i requires 0 <= i < |s| => f(s[i]))
  }

  lemma MapSnoc<A, B>(f: A -> B, s: seq<A>, i: nat)
    requires i < |s|
    ensures Map(f, s[..i + 1]) == Map(f, s[..i]) + [f(s[i])]
  {
  }

  lemma TakeWhole<A>(s: seq<A>)
    ensures s[..|s|] == s
  {
  }

  function Failures(m: Option<Measurement>): seq<FailureKind> {
    if m.Some? && m.value.failure.Some? then [m.value.failure.value] else []
  }

  function Just(k: Option<FailureKind>): seq<FailureKind> {
    if k.Some? then [k.value] else []
  }

  // Commands.

  /** The failures that concern a command: its benchmark's and its sides'. */
  function Troubles(error: Option<FailureKind>, head: Option<Measurement>, base: Option<Measurement>, mode: Mode): seq<FailureKind> {
    Just(error) + Failures(head) + if mode == ModeCompare then Failures(base) else []
  }

  predicate Missing(head: Option<Measurement>, base: Option<Measurement>, mode: Mode) {
    head.None? || (mode == ModeCompare && base.None?)
  }

  predicate Failing(error: Option<FailureKind>, head: Option<Measurement>, base: Option<Measurement>, mode: Mode) {
    Missing(head, base, mode) || Troubles(error, head, base, mode) != []
  }

  /** The result of a command that failed: a metric error when every failure is one
      and nothing is missing. */
  function FailureResult(error: Option<FailureKind>, head: Option<Measurement>, base: Option<Measurement>, mode: Mode): Result {
    if !Failing(error, head, base, mode) then ResultPass
    else if Missing(head, base, mode) || SomeNotMetric(Troubles(error, head, base, mode)) then ResultError
    else ResultMetricError
  }

  /** The first loop of commandFailure. */
  method CollectTroubles(error: Option<FailureKind>, head: Option<Measurement>, base: Option<Measurement>, mode: Mode)
    returns (errs: seq<FailureKind>, missing: bool)
    ensures errs == Troubles(error, head, base, mode) && missing == Missing(head, base, mode)
  {
    errs := Just(error);
    var sides := [head];
    if mode == ModeCompare {
      sides := sides + [base];
    }
    assert sides[0] == head && (mode == ModeCompare ==> sides[1] == base);
    missing := false;
    for i := 0 to |sides|
      invariant missing == ((i > 0 && head.None?) || (i > 1 && base.None?))
      invariant errs == Just(error) + (if i > 0 then Failures(head) else []) + (if i > 1 then Failures(base) else [])
    {
      if sides[i].None? {
        missing := true;
      } else if sides[i].value.failure.Some? {
        errs := errs + [sides[i].value.failure.value];
      }
    }
  }

  predicate SomeNotMetric(errs: seq<FailureKind>) {
    exists i | 0 <= i < |errs| :: !errs[i].IsMetricFailure()
  }

  /** The second loop: the worst of the failures. */
  method WorstFailure(errs: seq<FailureKind>, missing: bool) returns (result: Result)
    ensures result == if missing || SomeNotMetric(errs) then ResultError else ResultMetricError
  {
    result := if missing then ResultError else ResultMetricError;
    for i := 0 to |errs|
      invariant result == if missing || SomeNotMetric(errs[..i]) then ResultError else ResultMetricError
    {
      NotMetricSnoc(errs, i);
      result := Worst(result, ErrorResult(errs[i]));
    }
    assert errs[..|errs|] == errs;
  }

  lemma NotMetricSnoc(errs: seq<FailureKind>, i: nat)
    requires i < |errs|
    ensures SomeNotMetric(errs[..i + 1]) <==> SomeNotMetric(errs[..i]) || !errs[i].IsMetricFailure()
  {
    if SomeNotMetric(errs[..i]) {
      var j :| 0 <= j < i && !errs[..i][j].IsMetricFailure();
      assert errs[..i + 1][j] == errs[..i][j];
    }
    assert errs[..i + 1][i] == errs[i];
  }

  /** commandFailure. */
  method CommandFailure(error: Option<FailureKind>, head: Option<Measurement>, base: Option<Measurement>, mode: Mode)
    returns (result: Result, failed: bool)
    ensures failed == Failing(error, head, base, mode) && result == FailureResult(error, head, base, mode)
  {
    var errs, missing := CollectTroubles(error, head, base, mode);
    if errs == [] && !missing {
      return ResultPass, false;
    }
    result := WorstFailure(errs, missing);
    failed := true;
  }

  /** What one comparison does to the result of its command. */
  function ComparisonEffect(mc: MetricComparison): Result {
    if !mc.gate then ResultPass
    else match mc.outcome
      case Skipped(_) => ResultPass
      case InconclusiveAtFloor => ResultInconclusive
      case Called(verdict, _) =>
        match verdict
        case Regression => ResultRegression
        case Improved => ResultImproved
        case Inconclusive => ResultInconclusive
        case Pass => ResultPass
  }

  function SideIn(metrics: map<MetricName, MetricSummary>, name: MetricName): Side {
    if name in metrics then Side(metrics[name].samples, metrics[name].floor, metrics[name].status == Measured)
    else Side([], 0, false)
  }

  function DrawsOf(m: ComparedMetric, base: Side, head: Side): (draws: seq<Comparing.Draw>)
    ensures Comparing.Fits(draws, base.samples, head.samples)
  {
    m.draws(|base.samples|, |head.samples|)
  }

  /** What comparing one metric of two measured sides gives. */
  ghost function OutcomeOf(m: ComparedMetric, base: Side, head: Side): Outcome {
    if !base.measured || !head.measured then Skipped(false)
    else if SideAtFloor(base, m.options.metric) && SideAtFloor(head, m.options.metric) then Skipped(true)
    else Reported(Floored(base, head, m.options, DrawsOf(m, base, head), m.sqrt),
                  SideAtFloor(base, m.options.metric), SideAtFloor(head, m.options.metric))
  }

  ghost function ComparisonOf(m: ComparedMetric, base: map<MetricName, MetricSummary>, head: map<MetricName, MetricSummary>)
    : MetricComparison
  {
    MetricComparison(m.gate, OutcomeOf(m, SideIn(base, m.name), SideIn(head, m.name)))
  }

  ghost function ComparisonsOf(compared: seq<ComparedMetric>, base: map<MetricName, MetricSummary>, head: map<MetricName, MetricSummary>)
    : (r: seq<MetricComparison>)
    ensures |r| == |compared| && forall i | 0 <= i < |r| :: r[i] == ComparisonOf(compared[i], base, head)
  {
    seq(|compared|, i requires 0 <= i < |compared| => ComparisonOf(compared[i], base, head))
  }

  function ComparisonEffects(comparisons: seq<MetricComparison>): (r: seq<Result>)
    ensures |r| == |comparisons| && forall i | 0 <= i < |r| :: r[i] == ComparisonEffect(comparisons[i])
  {
    seq(|comparisons|, i requires 0 <= i < |comparisons| => ComparisonEffect(comparisons[i]))
  }

  /** What the switch in compareMetrics makes of one comparison. */
  method Worsen(before: Result, mc: MetricComparison) returns (result: Result)
    ensures result == Worst(before, ComparisonEffect(mc))
  {
    result := before;
    if mc.gate {
      match mc.outcome {
        case Skipped(_) =>
        case InconclusiveAtFloor => result := Worst(result, ResultInconclusive);
        case Called(verdict, _) =>
          match verdict {
            case Regression => result := Worst(result, ResultRegression);
            case Improved => result := Worst(result, ResultImproved);
            case Inconclusive => result := Worst(result, ResultInconclusive);
            case Pass =>
          }
      }
    }
  }

  /** The loop of compareMetrics: each metric is compared, and only gated verdicts worsen the
      result. */
  method CompareMetrics(before: Result, base: map<MetricName, MetricSummary>, head: map<MetricName, MetricSummary>,
                        compared: seq<ComparedMetric>)
    returns (result: Result, comparisons: seq<MetricComparison>)
    ensures comparisons == ComparisonsOf(compared, base, head)
    ensures result == Worst(before, WorstOf(ComparisonEffects(comparisons)))
  {
    result, comparisons := before, [];
    for i := 0 to |compared|
      invariant |comparisons| == i && forall j | 0 <= j < i :: comparisons[j] == ComparisonOf(compared[j], base, head)
      invariant result == Worst(before, WorstOf(ComparisonEffects(comparisons)))
    {
      var m := compared[i];
      var b, h := SideIn(base, m.name), SideIn(head, m.name);
      var outcome := CompareMetric(b, h, m.options, DrawsOf(m, b, h), m.sqrt);
      EffectsSnoc(before, comparisons, MetricComparison(m.gate, outcome));
      result := Worsen(result, MetricComparison(m.gate, outcome));
      comparisons := comparisons + [MetricComparison(m.gate, outcome)];
    }
  }

  lemma EffectsSnoc(r: Result, comparisons: seq<MetricComparison>, mc: MetricComparison)
    ensures Worst(r, WorstOf(ComparisonEffects(comparisons + [mc])))
         == Worst(Worst(r, WorstOf(ComparisonEffects(comparisons))), ComparisonEffect(mc))
  {
    assert ComparisonEffects(comparisons + [mc]) == ComparisonEffects(comparisons) + [ComparisonEffect(mc)];
    assert (ComparisonEffects(comparisons) + [ComparisonEffect(mc)])[..|comparisons|] == ComparisonEffects(comparisons);
    WorstIsUpperBound(r, WorstOf(ComparisonEffects(comparisons)), ComparisonEffect(mc));
  }

  function MetricsOf(side: Option<Measurement>): map<MetricName, MetricSummary> {
    if side.Some? then side.value.metrics else map[]
  }

  /** The comparisons of a command that is compared. */
  ghost function Comparisons(c: CommandInput): seq<MetricComparison> {
    ComparisonsOf(c.compared, MetricsOf(c.base), MetricsOf(c.head))
  }

  /** The mode a command is judged in: excluded commands are not compared. */
  function CommandMode(c: CommandInput, mode: Mode): Mode {
    if c.compares then mode else ModeRun
  }

  ghost function CommandOf(error: Option<FailureKind>, c: CommandInput, budgets: seq<Budget>, mode: Mode): JudgedCommand {
    var own := CommandMode(c, mode);
    var checks := ChecksOf(c.name, MetricsOf(c.head), budgets);
    var failing := Failing(error, c.head, c.base, own);
    var checked := Worst(FailureResult(error, c.head, c.base, own), WorstOf(Effects(checks)));
    JudgedCommand(c.name,
      if own == ModeCompare && !failing then Worst(checked, WorstOf(ComparisonEffects(Comparisons(c)))) else checked,
      checks)
  }

  /** The loop of judgeBenchmark, for one command. Metrics are only compared when
      both sides are there and neither failed. */
  method JudgeCommand(error: Option<FailureKind>, c: CommandInput, budgets: seq<Budget>, mode: Mode)
    returns (r: JudgedCommand)
    ensures r == CommandOf(error, c, budgets, mode)
  {
    var own := if c.compares then mode else ModeRun;
    var failureResult, failed := CommandFailure(error, c.head, c.base, own);
    var command := new Command(c.name, MetricsOf(c.head), ResultPass);
    if failed {
      command.result := failureResult;
    }
    command.CheckBudgets(budgets);
    if own == ModeCompare && !failed {
      assert c.head.Some? && c.base.Some? && c.head.value.failure.None? && c.base.value.failure.None?;
      var result, _ := CompareMetrics(command.result, MetricsOf(c.base), MetricsOf(c.head), c.compared);
      command.result := result;
    }
    r := JudgedCommand(command.name, command.result, command.budgets);
  }

  // Benchmarks and suites.

  /** In a comparison a command measured on no side is left out; outside one there
      is no base. */
  function Shown(commands: seq<CommandInput>, mode: Mode): seq<CommandInput> {
    if commands == [] then []
    else
      var c := commands[|commands| - 1];
      Shown(commands[..|commands| - 1], mode)
      + if mode == ModeCompare && c.head.None? && c.base.None? then []
        else [if mode == ModeCompare then c else c.(base := None)]
  }

  ghost function CommandJudge(error: Option<FailureKind>, budgets: seq<Budget>, mode: Mode): CommandInput -> JudgedCommand {
    c => CommandOf(error, c, budgets, mode)
  }

  function CommandResults(commands: seq<JudgedCommand>): seq<Result> {
    Map((x: JudgedCommand) => x.result, commands)
  }

  function Initial(error: Option<FailureKind>): Result {
    if error.Some? then ErrorResult(error.value) else ResultPass
  }

  ghost function BenchmarkOf(b: BenchmarkInput, mode: Mode): JudgedBenchmark {
    var commands := Map(CommandJudge(b.failure, b.budgets, mode), Shown(b.commands, mode));
    JudgedBenchmark(Worst(Initial(b.failure), WorstOf(CommandResults(commands))), b.failure, commands)
  }

  /** The first loop of judgeBenchmark: which commands are shown. */
  method ShowCommands(commands: seq<CommandInput>, mode: Mode) returns (shown: seq<CommandInput>)
    ensures shown == Shown(commands, mode)
  {
    shown := [];
    for i := 0 to |commands|
      invariant shown == Shown(commands[..i], mode)
    {
      assert commands[..i + 1][..i] == commands[..i];
      var c := commands[i];
      if !(mode == ModeCompare && c.head.None? && c.base.None?) {
        shown := shown + [if mode == ModeCompare then c else c.(base := None)];
      }
    }
    assert commands[..|commands|] == commands;
  }

  /** The second loop: how each of them fared, and the worst of it. */
  method JudgeCommands(error: Option<FailureKind>, shown: seq<CommandInput>, budgets: seq<Budget>, mode: Mode)
    returns (result: Result, commands: seq<JudgedCommand>)
    ensures commands == Map(CommandJudge(error, budgets, mode), shown)
    ensures result == Worst(Initial(error), WorstOf(CommandResults(commands)))
  {
    ghost var f := CommandJudge(error, budgets, mode);
    result, commands := Initial(error), [];
    assert CommandResults([]) == [];
    for i := 0 to |shown|
      invariant commands == Map(f, shown[..i])
      invariant result == Worst(Initial(error), WorstOf(CommandResults(commands)))
    {
      var c := JudgeCommand(error, shown[i], budgets, mode);
      ResultsSnoc(Initial(error), commands, c);
      MapSnoc(f, shown, i);
      result, commands := Worst(result, c.result), commands + [c];
    }
    TakeWhole(shown);
  }

  /** judgeBenchmark. */
  method JudgeBenchmark(b: BenchmarkInput, mode: Mode) returns (r: JudgedBenchmark)
    ensures r == BenchmarkOf(b, mode)
  {
    var shown := ShowCommands(b.commands, mode);
    var result, commands := JudgeCommands(b.failure, shown, b.budgets, mode);
    r := JudgedBenchmark(result, b.failure, commands);
  }

  lemma ResultsSnoc(r: Result, commands: seq<JudgedCommand>, c: JudgedCommand)
    ensures Worst(r, WorstOf(CommandResults(commands + [c]))) == Worst(Worst(r, WorstOf(CommandResults(commands))), c.result)
  {
    assert CommandResults(commands + [c]) == CommandResults(commands) + [c.result];
    assert (CommandResults(commands) + [c.result])[..|commands|] == CommandResults(commands);
    WorstIsUpperBound(r, WorstOf(CommandResults(commands)), c.result);
  }

  function BenchmarkResults(benchmarks: seq<JudgedBenchmark>): seq<Result> {
    Map((x: JudgedBenchmark) => x.result, benchmarks)
  }

  function SuiteMode(s: SuiteInput, mode: Mode): Mode {
    if s.newInHead then ModeRun else mode
  }

  ghost function BenchmarkJudge(mode: Mode): BenchmarkInput -> JudgedBenchmark {
    b => BenchmarkOf(b, mode)
  }

  ghost function SuiteOf(s: SuiteInput, mode: Mode): JudgedSuite {
    var benchmarks := Map(BenchmarkJudge(SuiteMode(s, mode)), s.benchmarks);
    JudgedSuite(Worst(Initial(s.buildFailure), WorstOf(BenchmarkResults(benchmarks))), s.buildFailure, benchmarks)
  }

  /** The loop of judgeSuite. */
  method JudgeBenchmarks(error: Option<FailureKind>, inputs: seq<BenchmarkInput>, mode: Mode)
    returns (result: Result, benchmarks: seq<JudgedBenchmark>)
    ensures benchmarks == Map(BenchmarkJudge(mode), inputs)
    ensures result == Worst(Initial(error), WorstOf(BenchmarkResults(benchmarks)))
  {
    ghost var f := BenchmarkJudge(mode);
    result, benchmarks := Initial(error), [];
    assert BenchmarkResults([]) == [];
    for i := 0 to |inputs|
      invariant benchmarks == Map(f, inputs[..i])
      invariant result == Worst(Initial(error), WorstOf(BenchmarkResults(benchmarks)))
    {
      var b := JudgeBenchmark(inputs[i], mode);
      BenchmarksSnoc(Initial(error), benchmarks, b);
      MapSnoc(f, inputs, i);
      result, benchmarks := Worst(result, b.result), benchmarks + [b];
    }
    TakeWhole(inputs);
  }

  /** judgeSuite. A suite that is new in the head is judged as a plain run. */
  method JudgeSuite(s: SuiteInput, mode: Mode) returns (r: JudgedSuite)
    ensures r == SuiteOf(s, mode)
  {
    var own := mode;
    if s.newInHead {
      own := ModeRun;
    }
    var result, benchmarks := JudgeBenchmarks(s.buildFailure, s.benchmarks, own);
    r := JudgedSuite(result, s.buildFailure, benchmarks);
  }

  lemma BenchmarksSnoc(r: Result, benchmarks: seq<JudgedBenchmark>, b: JudgedBenchmark)
    ensures Worst(r, WorstOf(BenchmarkResults(benchmarks + [b]))) == Worst(Worst(r, WorstOf(BenchmarkResults(benchmarks))), b.result)
  {
    assert BenchmarkResults(benchmarks + [b]) == BenchmarkResults(benchmarks) + [b.result];
    assert (BenchmarkResults(benchmarks) + [b.result])[..|benchmarks|] == BenchmarkResults(benchmarks);
    WorstIsUpperBound(r, WorstOf(BenchmarkResults(benchmarks)), b.result);
  }

  ghost function SuiteJudge(mode: Mode): SuiteInput -> JudgedSuite {
    s => SuiteOf(s, mode)
  }

  ghost function SuitesOf(inputs: seq<SuiteInput>, mode: Mode): seq<JudgedSuite> {
    Map(SuiteJudge(mode), inputs)
  }

  function SuiteResults(suites: seq<JudgedSuite>): seq<Result> {
    Map((x: JudgedSuite) => x.result, suites)
  }

  // Counting: the second fold over the same tree.

  predicate AnyError(commands: seq<JudgedCommand>) {
    exists i | 0 <= i < |commands| :: commands[i].result.IsError()
  }

  /** The results summarize counts for a benchmark, in the order it counts them. */
  function CountedOfBenchmark(b: JudgedBenchmark): seq<Result> {
    if b.error.None? then CommandResults(b.commands)
    else if b.commands == [] then [ErrorResult(b.error.value)]
    else if AnyError(b.commands) then CommandResults(b.commands)
    else CommandResults(b.commands) + [ErrorResult(b.error.value)]
  }

  function CountedOfBenchmarks(benchmarks: seq<JudgedBenchmark>): seq<Result> {
    if benchmarks == [] then []
    else CountedOfBenchmarks(benchmarks[..|benchmarks| - 1]) + CountedOfBenchmark(benchmarks[|benchmarks| - 1])
  }

  function CountedOfSuite(s: JudgedSuite): seq<Result> {
    (if s.error.Some? then [ErrorResult(s.error.value)] else []) + CountedOfBenchmarks(s.benchmarks)
  }

  function CountedOf(suites: seq<JudgedSuite>): seq<Result> {
    if suites == [] then [] else CountedOf(suites[..|suites| - 1]) + CountedOfSuite(suites[|suites| - 1])
  }

  datatype ExitCode = ExitOK | ExitFailed | ExitExecution | ExitMetric
  {
    /** The exit status of the process. */
    function Code(): int {
      match this
      case ExitOK => 0
      case ExitFailed => 1
      case ExitExecution => 4
      case ExitMetric => 6
    }
  }

  /** anyError. */
  method FindError(commands: seq<JudgedCommand>) returns (found: bool)
    ensures found == AnyError(commands)
  {
    for i := 0 to |commands|
      invariant forall j | 0 <= j < i :: !commands[j].result.IsError()
    {
      if commands[i].result.IsError() {
        return true;
      }
    }
    return false;
  }

  datatype Counters = Counters(pass: nat, improved: nat, inconclusive: nat, overBudget: nat,
                               regression: nat, metricError: nat, error: nat)

  function Bump(c: Counters, r: Result): Counters {
    match r
    case ResultPass => c.(pass := c.pass + 1)
    case ResultImproved => c.(improved := c.improved + 1)
    case ResultInconclusive => c.(inconclusive := c.inconclusive + 1)
    case ResultOverBudget => c.(overBudget := c.overBudget + 1)
    case ResultRegression => c.(regression := c.regression + 1)
    case ResultMetricError => c.(metricError := c.metricError + 1)
    case ResultError => c.(error := c.error + 1)
  }

  function Tallied(rs: seq<Result>): Counters {
    if rs == [] then Counters(0, 0, 0, 0, 0, 0, 0) else Bump(Tallied(rs[..|rs| - 1]), rs[|rs| - 1])
  }

  /** Each counter is how often its result occurs. */
  lemma {:induction false} TalliedMeans(rs: seq<Result>)
    ensures var c, m := Tallied(rs), multiset(rs);
      c == Counters(m[ResultPass], m[ResultImproved], m[ResultInconclusive], m[ResultOverBudget],
                    m[ResultRegression], m[ResultMetricError], m[ResultError])
  {
    if rs != [] {
      TalliedMeans(rs[..|rs| - 1]);
      assert rs == rs[..|rs| - 1] + [rs[|rs| - 1]];
    }
  }

  lemma TalliedSnoc(rs: seq<Result>, r: Result)
    ensures Tallied(rs + [r]) == Bump(Tallied(rs), r)
  {
    assert (rs + [r])[..|rs|] == rs;
  }

  lemma CountedSnoc(rs: seq<Result>, benchmarks: seq<JudgedBenchmark>, i: nat)
    requires i < |benchmarks|
    ensures rs + CountedOfBenchmarks(benchmarks[..i]) + CountedOfBenchmark(benchmarks[i])
         == rs + CountedOfBenchmarks(benchmarks[..i + 1])
  {
    assert benchmarks[..i + 1][..i] == benchmarks[..i];
  }

  lemma CountedSuitesSnoc(suites: seq<JudgedSuite>, i: nat)
    requires i < |suites|
    ensures CountedOf(suites[..i]) + CountedOfSuite(suites[i]) == CountedOf(suites[..i + 1])
  {
    assert suites[..i + 1][..i] == suites[..i];
  }

  lemma SuiteCounts(rs: seq<Result>, s: JudgedSuite)
    ensures (if s.error.Some? then rs + [ErrorResult(s.error.value)] else rs) + CountedOfBenchmarks(s.benchmarks)
         == rs + CountedOfSuite(s)
  {
  }

  /** The counters of a report. */
  class Summary {
    const failOnInconclusive: bool
    var pass: nat
    var improved: nat
    var inconclusive: nat
    var overBudget: nat
    var regression: nat
    var metricError: nat
    var error: nat
    var exitCode: ExitCode

    function Tally(): Counters
      reads this
    {
      Counters(pass, improved, inconclusive, overBudget, regression, metricError, error)
    }

    constructor (failOnInconclusive: bool)
      ensures Tally() == Tallied([]) && this.failOnInconclusive == failOnInconclusive
    {
      this.failOnInconclusive := failOnInconclusive;
      pass, improved, inconclusive, overBudget, regression, metricError, error := 0, 0, 0, 0, 0, 0, 0;
      exitCode := ExitOK;
    }

    method Count(r: Result, ghost rs: seq<Result>)
      requires Tally() == Tallied(rs)
      modifies this
      ensures Tally() == Tallied(rs + [r])
    {
      TalliedSnoc(rs, r);
      match r {
        case ResultPass => pass := pass + 1;
        case ResultImproved => improved := improved + 1;
        case ResultInconclusive => inconclusive := inconclusive + 1;
        case ResultOverBudget => overBudget := overBudget + 1;
        case ResultRegression => regression := regression + 1;
        case ResultMetricError => metricError := metricError + 1;
        case ResultError => error := error + 1;
      }
    }

    method CountCommands(commands: seq<JudgedCommand>, ghost rs: seq<Result>)
      requires Tally() == Tallied(rs)
      modifies this
      ensures Tally() == Tallied(rs + CommandResults(commands))
    {
      ghost var results := CommandResults(commands);
      assert rs + results[..0] == rs;
      for i := 0 to |commands|
        invariant Tally() == Tallied(rs + results[..i])
      {
        Count(commands[i].result, rs + results[..i]);
        assert rs + results[..i] + [commands[i].result] == rs + results[..i + 1];
      }
      assert results[..|commands|] == results;
    }

    /** The body of the loop of summarize over benchmarks. */
    method CountBenchmark(b: JudgedBenchmark, ghost rs: seq<Result>)
      requires Tally() == Tallied(rs)
      modifies this
      ensures Tally() == Tallied(rs + CountedOfBenchmark(b))
    {
      ghost var counted := rs;
      if b.error.Some? && |b.commands| == 0 {
        Count(ErrorResult(b.error.value), counted);
        counted := counted + [ErrorResult(b.error.value)];
      }
      CountCommands(b.commands, counted);
      counted := counted + CommandResults(b.commands);
      var found := FindError(b.commands);
      if b.error.Some? && |b.commands| > 0 && !found {
        Count(ErrorResult(b.error.value), counted);
        counted := counted + [ErrorResult(b.error.value)];
      }
      assert counted == rs + CountedOfBenchmark(b);
    }

    method CountSuite(s: JudgedSuite, ghost rs: seq<Result>)
      requires Tally() == Tallied(rs)
      modifies this
      ensures Tally() == Tallied(rs + CountedOfSuite(s))
    {
      ghost var counted := rs;
      if s.error.Some? {
        Count(ErrorResult(s.error.value), counted);
        counted := counted + [ErrorResult(s.error.value)];
      }
      CountBenchmarks(s.benchmarks, counted);
      SuiteCounts(rs, s);
    }

    method CountBenchmarks(benchmarks: seq<JudgedBenchmark>, ghost rs: seq<Result>)
      requires Tally() == Tallied(rs)
      modifies this
      ensures Tally() == Tallied(rs + CountedOfBenchmarks(benchmarks))
    {
      assert rs + [] == rs;
      for i := 0 to |benchmarks|
        invariant Tally() == Tallied(rs + CountedOfBenchmarks(benchmarks[..i]))
      {
        CountBenchmark(benchmarks[i], rs + CountedOfBenchmarks(benchmarks[..i]));
        CountedSnoc(rs, benchmarks, i);
      }
      assert benchmarks[..|benchmarks|] == benchmarks;
    }

    method CountSuites(suites: seq<JudgedSuite>)
      requires Tally() == Tallied([])
      modifies this
      ensures Tally() == Tallied(CountedOf(suites))
    {
      for i := 0 to |suites|
        invariant Tally() == Tallied(CountedOf(suites[..i]))
      {
        CountSuite(suites[i], CountedOf(suites[..i]));
        CountedSuitesSnoc(suites, i);
      }
      assert suites[..|suites|] == suites;
    }

    /** summarize: the counts, and the exit code they mean. */
    method Summarize(suites: seq<JudgedSuite>)
      requires Tally() == Tallied([])
      modifies this
      ensures Tally() == Tallied(CountedOf(suites))
      ensures exitCode == ExitByCounting(CountedOf(suites), failOnInconclusive)
    {
      CountSuites(suites);
      ExitOfTally(CountedOf(suites), failOnInconclusive);
      if error > 0 {
        exitCode := ExitExecution;
      } else if metricError > 0 {
        exitCode := ExitMetric;
      } else if regression > 0 || overBudget > 0 {
        exitCode := ExitFailed;
      } else if inconclusive > 0 && failOnInconclusive {
        exitCode := ExitFailed;
      } else {
        exitCode := ExitOK;
      }
    }
  }

  lemma ExitOfTally(rs: seq<Result>, failOnInconclusive: bool)
    ensures var c := Tallied(rs);
      ExitByCounting(rs, failOnInconclusive) ==
        if c.error > 0 then ExitExecution
        else if c.metricError > 0 then ExitMetric
        else if c.regression > 0 || c.overBudget > 0 then ExitFailed
        else if c.inconclusive > 0 && failOnInconclusive then ExitFailed
        else ExitOK
  {
    TalliedMeans(rs);
  }

  function ExitByCounting(rs: seq<Result>, failOnInconclusive: bool): ExitCode {
    if ResultError in rs then ExitExecution
    else if ResultMetricError in rs then ExitMetric
    else if ResultRegression in rs || ResultOverBudget in rs then ExitFailed
    else if ResultInconclusive in rs && failOnInconclusive then ExitFailed
    else ExitOK
  }

  function ExitByWorst(r: Result, failOnInconclusive: bool): ExitCode {
    match r
    case ResultError => ExitExecution
    case ResultMetricError => ExitMetric
    case ResultRegression => ExitFailed
    case ResultOverBudget => ExitFailed
    case ResultInconclusive => if failOnInconclusive then ExitFailed else ExitOK
    case _ => ExitOK
  }

  // The two folds agree.

  lemma {:induction false} WorstOfAppend(rs: seq<Result>, ts: seq<Result>)
    ensures WorstOf(rs + ts) == Worst(WorstOf(rs), WorstOf(ts))
    decreases |ts|
  {
    if ts == [] {
      assert rs + ts == rs;
    } else {
      var init, last := ts[..|ts| - 1], ts[|ts| - 1];
      assert (rs + ts)[..|rs + ts| - 1] == rs + init;
      WorstOfAppend(rs, init);
      WorstIsUpperBound(WorstOf(rs), WorstOf(init), last);
    }
  }

  lemma CountingSeesTheWorst(rs: seq<Result>, failOnInconclusive: bool)
    ensures ExitByCounting(rs, failOnInconclusive) == ExitByWorst(WorstOf(rs), failOnInconclusive)
  {
    WorstOfIsWorst(rs);
  }

  /** A benchmark that failed presents none of its commands as judged: each is an
      error at least as bad as the benchmark's own. */
  lemma FailedBenchmarkJudgesNothing(error: FailureKind, c: CommandInput, budgets: seq<Budget>, mode: Mode)
    ensures CommandOf(Some(error), c, budgets, mode).result.IsError()
    ensures CommandOf(Some(error), c, budgets, mode).result.Severity() >= ErrorResult(error).Severity()
  {
    var own := CommandMode(c, mode);
    assert Troubles(Some(error), c.head, c.base, own)[0] == error;
  }

  lemma WorstOfOne(r: Result)
    ensures WorstOf([r]) == r && WorstOf([]) == ResultPass
  {
    assert [r][..0] == [];
  }

  lemma WorstOfAtLeast(rs: seq<Result>, i: nat)
    requires i < |rs|
    ensures WorstOf(rs).Severity() >= rs[i].Severity()
  {
    WorstOfIsWorst(rs);
    assert rs[i] in rs;
  }

  lemma FineBenchmarkCounts(r: JudgedBenchmark)
    requires r.error.None?
    ensures CountedOfBenchmark(r) == CommandResults(r.commands)
  {
  }

  /** What judging leaves of a benchmark: its result is the worst, and when it
      failed its commands are errors at least as bad. */
  ghost predicate Sound(r: JudgedBenchmark) {
    && r.result == Worst(Initial(r.error), WorstOf(CommandResults(r.commands)))
    && (r.error.Some? ==> forall i | 0 <= i < |r.commands| ::
          r.commands[i].result.IsError() && r.commands[i].result.Severity() >= ErrorResult(r.error.value).Severity())
  }

  lemma JudgedIsSound(b: BenchmarkInput, mode: Mode)
    ensures Sound(BenchmarkOf(b, mode)) == true
  {
    if b.failure.Some? {
      var shown := Shown(b.commands, mode);
      forall i | 0 <= i < |shown|
        ensures var r := CommandOf(b.failure, shown[i], b.budgets, mode).result;
          r.IsError() && r.Severity() >= ErrorResult(b.failure.value).Severity()
      {
        FailedBenchmarkJudgesNothing(b.failure.value, shown[i], b.budgets, mode);
      }
    }
  }

  /** With an error at least as bad among its results, a failed benchmark is counted
      by them alone. */
  lemma FailedBenchmarkCounts(r: JudgedBenchmark)
    requires Sound(r) && r.error.Some?
    ensures WorstOf(CountedOfBenchmark(r)) == r.result
  {
    if r.commands == [] {
      EmptyBenchmarkCounts(r);
    } else {
      assert r.commands[0].result.IsError();
      CountedByCommands(r);
      WorstOfAtLeast(CommandResults(r.commands), 0);
    }
  }

  lemma EmptyBenchmarkCounts(r: JudgedBenchmark)
    requires r.error.Some? && r.commands == [] && r.result == Worst(Initial(r.error), WorstOf(CommandResults(r.commands)))
    ensures WorstOf(CountedOfBenchmark(r)) == r.result
  {
    assert CountedOfBenchmark(r) == [ErrorResult(r.error.value)];
    WorstOfOne(ErrorResult(r.error.value));
    assert CommandResults(r.commands) == [];
  }

  lemma CountedByCommands(r: JudgedBenchmark)
    requires r.commands != [] && r.commands[0].result.IsError()
    ensures CountedOfBenchmark(r) == CommandResults(r.commands)
  {
    assert AnyError(r.commands);
  }

  lemma SoundBenchmarkCounts(r: JudgedBenchmark)
    requires Sound(r)
    ensures WorstOf(CountedOfBenchmark(r)) == r.result
  {
    if r.error.Some? {
      FailedBenchmarkCounts(r);
    } else {
      FineBenchmarkCounts(r);
    }
  }

  lemma {:induction false} BenchmarksFoldsAgree(benchmarks: seq<JudgedBenchmark>)
    requires forall i | 0 <= i < |benchmarks| :: Sound(benchmarks[i])
    ensures WorstOf(CountedOfBenchmarks(benchmarks)) == WorstOf(BenchmarkResults(benchmarks))
  {
    if benchmarks != [] {
      var init, last := benchmarks[..|benchmarks| - 1], benchmarks[|benchmarks| - 1];
      BenchmarksFoldsAgree(init);
      SoundBenchmarkCounts(last);
      WorstOfAppend(CountedOfBenchmarks(init), CountedOfBenchmark(last));
      assert BenchmarkResults(benchmarks)[..|init|] == BenchmarkResults(init);
    }
  }

  ghost predicate SoundSuite(s: JudgedSuite) {
    && s.result == Worst(Initial(s.error), WorstOf(BenchmarkResults(s.benchmarks)))
    && forall i | 0 <= i < |s.benchmarks| :: Sound(s.benchmarks[i])
  }

  lemma JudgedSuiteIsSound(s: SuiteInput, mode: Mode)
    ensures SoundSuite(SuiteOf(s, mode)) == true
  {
    forall i | 0 <= i < |s.benchmarks|
      ensures Sound(BenchmarkOf(s.benchmarks[i], SuiteMode(s, mode)))
    {
      JudgedIsSound(s.benchmarks[i], SuiteMode(s, mode));
    }
  }

  lemma SoundSuiteCounts(s: JudgedSuite)
    requires SoundSuite(s)
    ensures WorstOf(CountedOfSuite(s)) == s.result
  {
    BenchmarksFoldsAgree(s.benchmarks);
    var own := if s.error.Some? then [ErrorResult(s.error.value)] else [];
    WorstOfOne(if s.error.Some? then ErrorResult(s.error.value) else ResultPass);
    WorstOfAppend(own, CountedOfBenchmarks(s.benchmarks));
  }

  lemma {:induction false} SuitesFoldsAgree(suites: seq<JudgedSuite>)
    requires forall i | 0 <= i < |suites| :: SoundSuite(suites[i])
    ensures WorstOf(CountedOf(suites)) == WorstOf(SuiteResults(suites))
  {
    if suites != [] {
      var init, last := suites[..|suites| - 1], suites[|suites| - 1];
      SuitesFoldsAgree(init);
      SoundSuiteCounts(last);
      WorstOfAppend(CountedOf(init), CountedOfSuite(last));
      assert SuiteResults(suites)[..|init|] == SuiteResults(init);
    }
  }

  /** The exit code found by counting is the one of the worst suite: the tree the
      judging builds never hides a result from the counters. */
  lemma ExitCodesAgree(inputs: seq<SuiteInput>, mode: Mode, failOnInconclusive: bool)
    ensures ExitByCounting(CountedOf(SuitesOf(inputs, mode)), failOnInconclusive)
         == ExitByWorst(WorstOf(SuiteResults(SuitesOf(inputs, mode))), failOnInconclusive)
  {
    var suites := SuitesOf(inputs, mode);
    forall i | 0 <= i < |suites|
      ensures SoundSuite(suites[i])
    {
      JudgedSuiteIsSound(inputs[i], mode);
    }
    SuitesFoldsAgree(suites);
    CountingSeesTheWorst(CountedOf(suites), failOnInconclusive);
  }

  method JudgeSuites(inputs: seq<SuiteInput>, mode: Mode) returns (suites: seq<JudgedSuite>)
    ensures suites == SuitesOf(inputs, mode)
  {
    ghost var f := SuiteJudge(mode);
    suites := [];
    for i := 0 to |inputs|
      invariant suites == Map(f, inputs[..i])
    {
      var s := JudgeSuite(inputs[i], mode);
      MapSnoc(f, inputs, i);
      suites := suites + [s];
    }
    TakeWhole(inputs);
  }

  /** Judge: every suite, then the summary. */
  method Judge(inputs: seq<SuiteInput>, mode: Mode, failOnInconclusive: bool)
    returns (suites: seq<JudgedSuite>, summary: Summary)
    ensures suites == SuitesOf(inputs, mode)
    ensures fresh(summary) && summary.Tally() == Tallied(CountedOf(suites))
    ensures summary.exitCode == ExitByWorst(WorstOf(SuiteResults(suites)), failOnInconclusive)
  {
    suites := JudgeSuites(inputs, mode);
    summary := new Summary(failOnInconclusive);
    summary.Summarize(suites);
    ExitCodesAgree(inputs, mode, failOnInconclusive);
    assert summary.exitCode == ExitByCounting(CountedOf(suites), failOnInconclusive);
  }

  /** What exit code 0 promises of one command: it was measured, nothing failed,
      every budget was met or waived as unsupported, and no gated comparison is a
      regression. */
  lemma CleanCommand(error: Option<FailureKind>, c: CommandInput, budgets: seq<Budget>, mode: Mode)
    requires CommandOf(error, c, budgets, mode).result.Severity() <= ResultInconclusive.Severity()
    ensures error.None? && c.head.Some? && c.head.value.failure.None?
    ensures mode == ModeCompare && c.compares ==> c.base.Some? && c.base.value.failure.None?
    ensures var checks := CommandOf(error, c, budgets, mode).checks;
      forall i | 0 <= i < |checks| :: checks[i].status == BudgetPass || (checks[i].status == BudgetSkipped && !checks[i].atFloor)
    ensures mode == ModeCompare && c.compares ==>
      forall i | 0 <= i < |c.compared| :: ComparisonEffect(Comparisons(c)[i]) != ResultRegression
  {
    var own := CommandMode(c, mode);
    var checks := CommandOf(error, c, budgets, mode).checks;
    assert !Failing(error, c.head, c.base, own);
    forall i | 0 <= i < |checks|
      ensures Effect(checks[i]).Severity() <= ResultInconclusive.Severity()
    {
      WorstOfAtLeast(Effects(checks), i);
    }
    if own == ModeCompare {
      forall i | 0 <= i < |c.compared|
        ensures ComparisonEffect(Comparisons(c)[i]) != ResultRegression
      {
        WorstOfAtLeast(ComparisonEffects(Comparisons(c)), i);
      }
    }
  }

  /** The judged command k of benchmark j of suite i. */
  ghost function CommandAt(inputs: seq<SuiteInput>, mode: Mode, i: nat, j: nat, k: nat): JudgedCommand
    requires i < |inputs| && j < |inputs[i].benchmarks|
    requires k < |Shown(inputs[i].benchmarks[j].commands, SuiteMode(inputs[i], mode))|
  {
    var b, own := inputs[i].benchmarks[j], SuiteMode(inputs[i], mode);
    CommandOf(b.failure, Shown(b.commands, own)[k], b.budgets, own)
  }

  /** No result of the tree is worse than the worst suite. */
  lemma NothingIsWorse(inputs: seq<SuiteInput>, mode: Mode, i: nat, j: nat, k: nat)
    requires i < |inputs| && j < |inputs[i].benchmarks|
    requires k < |Shown(inputs[i].benchmarks[j].commands, SuiteMode(inputs[i], mode))|
    ensures CommandAt(inputs, mode, i, j, k).result.Severity() <= WorstOf(SuiteResults(SuitesOf(inputs, mode))).Severity()
  {
    var s := SuiteOf(inputs[i], mode);
    var b := BenchmarkOf(inputs[i].benchmarks[j], SuiteMode(inputs[i], mode));
    assert SuitesOf(inputs, mode)[i] == s && s.benchmarks[j] == b;
    assert b.commands[k] == CommandAt(inputs, mode, i, j, k);
    WorstOfAtLeast(SuiteResults(SuitesOf(inputs, mode)), i);
    WorstOfAtLeast(BenchmarkResults(s.benchmarks), j);
    WorstOfAtLeast(CommandResults(b.commands), k);
  }

  lemma {:induction false} ConfiguredIsChecked(name: string, metrics: map<MetricName, MetricSummary>, budgets: seq<Budget>, bud: Budget)
    requires bud in budgets && bud.command == name
    ensures Checked(metrics, bud) in ChecksOf(name, metrics, budgets)
  {
    if budgets[|budgets| - 1] != bud {
      var i :| 0 <= i < |budgets| && budgets[i] == bud;
      assert budgets[..|budgets| - 1][i] == bud;
      ConfiguredIsChecked(name, metrics, budgets[..|budgets| - 1], bud);
    }
  }

  /** What a process that exits with 0 may show. */
  predicate Acceptable(r: Result, failOnInconclusive: bool) {
    r == ResultPass || r == ResultImproved || (r == ResultInconclusive && !failOnInconclusive)
  }

  lemma WorstIsAcceptable(rs: seq<Result>, failOnInconclusive: bool)
    ensures Acceptable(WorstOf(rs), failOnInconclusive) <==> forall i | 0 <= i < |rs| :: Acceptable(rs[i], failOnInconclusive)
  {
    WorstOfIsWorst(rs);
    forall i | 0 <= i < |rs|
      ensures rs[i].Severity() <= WorstOf(rs).Severity()
    {
      WorstOfAtLeast(rs, i);
    }
  }

  /** The worst of an own failure and other results. */
  lemma WithFailureIsAcceptable(error: Option<FailureKind>, rs: seq<Result>, failOnInconclusive: bool)
    ensures Acceptable(Worst(Initial(error), WorstOf(rs)), failOnInconclusive)
       <==> error.None? && forall i | 0 <= i < |rs| :: Acceptable(rs[i], failOnInconclusive)
  {
    WorstIsAcceptable(rs, failOnInconclusive);
  }

  /** A benchmark none of whose commands shown, nor itself, keeps the process from 0. */
  ghost predicate BenchmarkFine(b: BenchmarkInput, mode: Mode, failOnInconclusive: bool) {
    && b.failure.None?
    && forall k | 0 <= k < |Shown(b.commands, mode)| ::
         Acceptable(CommandOf(b.failure, Shown(b.commands, mode)[k], b.budgets, mode).result, failOnInconclusive)
  }

  lemma BenchmarkFineMeans(b: BenchmarkInput, mode: Mode, failOnInconclusive: bool)
    ensures Acceptable(BenchmarkOf(b, mode).result, failOnInconclusive) <==> BenchmarkFine(b, mode, failOnInconclusive)
  {
    var shown, f := Shown(b.commands, mode), CommandJudge(b.failure, b.budgets, mode);
    var results := CommandResults(Map(f, shown));
    WithFailureIsAcceptable(b.failure, results, failOnInconclusive);
    assert |results| == |shown| && forall k | 0 <= k < |shown| :: results[k] == f(shown[k]).result;
    assert forall k | 0 <= k < |shown| :: f(shown[k]) == CommandOf(b.failure, shown[k], b.budgets, mode);
  }

  ghost predicate SuiteFine(s: SuiteInput, mode: Mode, failOnInconclusive: bool) {
    && s.buildFailure.None?
    && forall j | 0 <= j < |s.benchmarks| :: BenchmarkFine(s.benchmarks[j], SuiteMode(s, mode), failOnInconclusive)
  }

  lemma SuiteFineMeans(s: SuiteInput, mode: Mode, failOnInconclusive: bool)
    ensures Acceptable(SuiteOf(s, mode).result, failOnInconclusive) <==> SuiteFine(s, mode, failOnInconclusive) == true
  {
    var results := BenchmarkResults(SuiteOf(s, mode).benchmarks);
    WithFailureIsAcceptable(s.buildFailure, results, failOnInconclusive);
    forall j | 0 <= j < |s.benchmarks|
      ensures Acceptable(results[j], failOnInconclusive) == BenchmarkFine(s.benchmarks[j], SuiteMode(s, mode), failOnInconclusive)
    {
      BenchmarkFineMeans(s.benchmarks[j], SuiteMode(s, mode), failOnInconclusive);
    }
  }

  /** The process exits with 0 exactly when no build and no benchmark failed and every command
      it shows passed, improved or, without the flag, was inconclusive. */
  lemma ExitZeroMeans(inputs: seq<SuiteInput>, mode: Mode, failOnInconclusive: bool)
    ensures ExitByCounting(CountedOf(SuitesOf(inputs, mode)), failOnInconclusive).Code() == 0
       <==> forall i | 0 <= i < |inputs| :: SuiteFine(inputs[i], mode, failOnInconclusive)
  {
    var results := SuiteResults(SuitesOf(inputs, mode));
    ExitCodesAgree(inputs, mode, failOnInconclusive);
    WorstIsAcceptable(results, failOnInconclusive);
    forall i | 0 <= i < |inputs|
      ensures Acceptable(results[i], failOnInconclusive) <==> SuiteFine(inputs[i], mode, failOnInconclusive)
    {
      SuiteFineMeans(inputs[i], mode, failOnInconclusive);
    }
  }

  /** With exit code 0 no command is worse than inconclusive. */
  lemma CleanExit(inputs: seq<SuiteInput>, mode: Mode, failOnInconclusive: bool, i: nat, j: nat, k: nat)
    requires i < |inputs| && j < |inputs[i].benchmarks|
    requires k < |Shown(inputs[i].benchmarks[j].commands, SuiteMode(inputs[i], mode))|
    ensures ExitByCounting(CountedOf(SuitesOf(inputs, mode)), failOnInconclusive) == ExitOK ==>
      CommandAt(inputs, mode, i, j, k).result.Severity() <= ResultInconclusive.Severity()
  {
    CleanSuites(inputs, mode, failOnInconclusive);
    NothingIsWorse(inputs, mode, i, j, k);
  }

  lemma CleanSuites(inputs: seq<SuiteInput>, mode: Mode, failOnInconclusive: bool)
    ensures ExitByCounting(CountedOf(SuitesOf(inputs, mode)), failOnInconclusive) == ExitOK ==>
      WorstOf(SuiteResults(SuitesOf(inputs, mode))).Severity() <= ResultInconclusive.Severity()
  {
    ExitCodesAgree(inputs, mode, failOnInconclusive);
    OKIsClean(CountedOf(SuitesOf(inputs, mode)), WorstOf(SuiteResults(SuitesOf(inputs, mode))), failOnInconclusive);
  }

  lemma OKIsClean(rs: seq<Result>, worst: Result, failOnInconclusive: bool)
    requires ExitByCounting(rs, failOnInconclusive) == ExitByWorst(worst, failOnInconclusive)
    ensures ExitByCounting(rs, failOnInconclusive) == ExitOK ==> worst.Severity() <= ResultInconclusive.Severity()
  {
  }

  /** The budget is one of the command's, on a peak RSS that was measured. */
  ghost predicate PeakBudget(c: CommandInput, budgets: seq<Budget>, bud: Budget, peaks: seq<int>, floors: seq<int>) {
    && bud in budgets && bud.command == c.name && bud.metric == PeakRSS
    && CheckDirection(bud.threshold.op, Better(PeakRSS))
    && c.head.Some? && PeakRSS in c.head.value.metrics && Summarises(c.head.value.metrics[PeakRSS], peaks, floors)
  }

  predicate Meets(bud: Budget, values: seq<real>) {
    values != [] && bud.threshold.Allows(AggregateOf(values, bud.aggregation).value)
  }

  lemma CleanCommandMeetsPeakBudgets(error: Option<FailureKind>, c: CommandInput, budgets: seq<Budget>, mode: Mode,
                                     bud: Budget, peaks: seq<int>, floors: seq<int>, truth: seq<real>)
    requires CommandOf(error, c, budgets, mode).result.Severity() <= ResultInconclusive.Severity()
    requires PeakBudget(c, budgets, bud, peaks, floors) && Explains(truth, peaks, floors)
    ensures Meets(bud, truth)
  {
    var metrics := c.head.value.metrics;
    CleanCommand(error, c, budgets, mode);
    ConfiguredIsChecked(c.name, metrics, budgets, bud);
    assert Checked(metrics, bud) == MeasuredCheck(metrics[PeakRSS], bud);
    PassIsRight(metrics[PeakRSS], peaks, floors, bud, truth);
  }

  /** When the program exits with 0, every peak RSS budget of every command it shows
      is met by every real value that explains what was observed. */
  lemma CleanExitMeetsPeakBudgets(inputs: seq<SuiteInput>, mode: Mode, failOnInconclusive: bool, i: nat, j: nat, k: nat,
                                  bud: Budget, peaks: seq<int>, floors: seq<int>, truth: seq<real>)
    requires i < |inputs| && j < |inputs[i].benchmarks|
    requires k < |Shown(inputs[i].benchmarks[j].commands, SuiteMode(inputs[i], mode))|
    requires PeakBudget(Shown(inputs[i].benchmarks[j].commands, SuiteMode(inputs[i], mode))[k],
                        inputs[i].benchmarks[j].budgets, bud, peaks, floors) == true
    requires Explains(truth, peaks, floors)
    ensures ExitByCounting(CountedOf(SuitesOf(inputs, mode)), failOnInconclusive) == ExitOK ==> Meets(bud, truth)
  {
    CleanExit(inputs, mode, failOnInconclusive, i, j, k);
    if ExitByCounting(CountedOf(SuitesOf(inputs, mode)), failOnInconclusive) == ExitOK {
      var b, own := inputs[i].benchmarks[j], SuiteMode(inputs[i], mode);
      CleanCommandMeetsPeakBudgets(b.failure, Shown(b.commands, own)[k], b.budgets, own, bud, peaks, floors, truth);
    }
  }

  /** A regression of a gated metric always shows: of a command that is compared, when the
      comparison of what was measured, raised to a floor it is at, calls one and the head is
      above its own, the process does not exit with 0. */
  lemma RegressionFailsTheProcess(inputs: seq<SuiteInput>, mode: Mode, failOnInconclusive: bool, i: nat, j: nat, k: nat, n: nat)
    requires i < |inputs| && j < |inputs[i].benchmarks|
    requires k < |Shown(inputs[i].benchmarks[j].commands, SuiteMode(inputs[i], mode))|
    ensures var c := Shown(inputs[i].benchmarks[j].commands, SuiteMode(inputs[i], mode))[k];
      SuiteMode(inputs[i], mode) == ModeCompare && c.compares && n < |c.compared| && c.compared[n].gate
      && RegressionCalled(c.compared[n], SideIn(MetricsOf(c.base), c.compared[n].name), SideIn(MetricsOf(c.head), c.compared[n].name))
      ==> ExitByCounting(CountedOf(SuitesOf(inputs, mode)), failOnInconclusive) != ExitOK
  {
    CleanExit(inputs, mode, failOnInconclusive, i, j, k);
    var b, own := inputs[i].benchmarks[j], SuiteMode(inputs[i], mode);
    var c := Shown(b.commands, own)[k];
    if own == ModeCompare && c.compares && n < |c.compared| && c.compared[n].gate
       && ExitByCounting(CountedOf(SuitesOf(inputs, mode)), failOnInconclusive) == ExitOK {
      CleanCommand(b.failure, c, b.budgets, own);
      CalledIsAnEffect(c.compared[n], SideIn(MetricsOf(c.base), c.compared[n].name), SideIn(MetricsOf(c.head), c.compared[n].name));
      assert ComparisonEffect(Comparisons(c)[n]) != ResultRegression;
    }
  }

  ghost predicate RegressionCalled(m: ComparedMetric, base: Side, head: Side) {
    && base.measured && head.measured && base.samples != [] && head.samples != [] && !SideAtFloor(head, m.options.metric)
    && Floored(base, head, m.options, DrawsOf(m, base, head), m.sqrt).verdict == Comparing.Regression
  }

  lemma CalledIsAnEffect(m: ComparedMetric, base: Side, head: Side)
    ensures RegressionCalled(m, base, head) && m.gate ==>
      ComparisonEffect(MetricComparison(m.gate, OutcomeOf(m, base, head))) == ResultRegression
  {
  }
}
