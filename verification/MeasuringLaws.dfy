/** What the measuring loop guarantees to those who judge its samples.

    (A predicate compared with true in a contract is used as one fact, so that the verifier
    does not prove its clauses again.) */
module MeasuringLaws {
  import opened OrderStats
  import Summaries
  import Comparing
  import opened RealArithmetic
  import opened Results
  import Budgets
  import opened Measuring

  // The slices of a measurement.

  /** How long a slice is: as the samples when it is collected, empty otherwise. */
  function Length(s: Shot, collected: bool): nat {
    if collected then |s.samples| else 0
  }

  predicate WithCPU(s: Shot, b: Benchmark) {
    b.cpu && GroupCPU !in s.unsupported
  }

  predicate WithMemory(s: Shot, b: Benchmark) {
    b.memory && GroupMemory !in s.unsupported
  }

  /** Every requested slice that is not skipped goes with the samples, value for
      value, and a skipped one is empty. */
  predicate InStep(s: Shot, b: Benchmark) {
    && |s.cpuUser| == |s.cpuSystem| == Length(s, WithCPU(s, b))
    && |s.peakRSS| == |s.peakRSSFloor| == Length(s, WithMemory(s, b))
    && |s.work| == Length(s, b.throughput)
    && s.total == Total(s.samples)
  }

  /** The measured time so far. */
  function Total(samples: seq<nat>): nat {
    if samples == [] then 0 else Total(samples[..|samples| - 1]) + samples[|samples| - 1]
  }

  lemma UsageKeepsStep(s: Shot, g: Group, usage: Usage, b: Benchmark)
    requires InStep(s, b)
    ensures var t := CheckUsage(s, g, usage, b).0;
      InStep(t, b) && t.samples == s.samples && t.failure == s.failure && s.unsupported <= t.unsupported
  {
  }

  lemma AppendKeepsStep(s: Shot, a: Attempt, wantCPU: bool, wantMemory: bool, b: Benchmark)
    requires InStep(s, b) && a.Ran?
    requires (wantCPU && GroupCPU !in s.unsupported) == WithCPU(s, b)
    requires (wantMemory && GroupMemory !in s.unsupported) == WithMemory(s, b)
    ensures var t := Append(s, a, wantCPU, wantMemory, b);
      InStep(t, b) && t.samples == s.samples + [a.elapsed] && t.failure == s.failure && t.unsupported == s.unsupported
  {
    assert (s.samples + [a.elapsed])[..|s.samples|] == s.samples;
  }

  lemma RecordKeepsStep(s: Shot, a: Attempt, record: bool, b: Benchmark)
    requires InStep(s, b) && a.Ran?
    ensures var (t, f) := Recorded(s, a, WithCPU(s, b), WithMemory(s, b), record, b);
      && InStep(t, b) && t.failure == s.failure && s.unsupported <= t.unsupported
      && t.samples == if record && f.None? then s.samples + [a.elapsed] else s.samples
  {
    UsageKeepsStep(s, GroupCPU, a.cpu, b);
    var t := if WithCPU(s, b) then CheckUsage(s, GroupCPU, a.cpu, b).0 else s;
    UsageKeepsStep(t, GroupMemory, a.memory, b);
    var u := if WithMemory(s, b) then CheckUsage(t, GroupMemory, a.memory, b).0 else t;
    AppendKeepsStep(u, a, WithCPU(s, b), WithMemory(s, b), b);
  }

  /** One round keeps the slices in step, adds exactly one sample to a unit that
      stays healthy in a measured round, none otherwise, and never revives one. */
  lemma RoundKeepsStep(s: Shot, a: Attempt, record: bool, b: Benchmark)
    requires InStep(s, b)
    ensures var t := AfterRound(s, a, record, b);
      && InStep(t, b)
      && (t.failure.None? ==> s.failure.None?)
      && (if record && t.failure.None? then |t.samples| == |s.samples| + 1 && s.samples < t.samples
          else t.samples == s.samples)
      && s.unsupported <= t.unsupported
  {
    if a.Ran? {
      RecordKeepsStep(s, a, record, b);
    }
  }

  lemma {:induction false} CourseKeepsStep(skipped: set<Group>, i: nat, attempts: (nat, nat) -> Attempt, rounds: nat, b: Benchmark)
    ensures var s := StateAt(Start(skipped), i, attempts, rounds, b);
      var measured := if rounds > b.warmup then rounds - b.warmup else 0;
      && InStep(s, b)
      && |s.samples| <= measured
      && (s.failure.None? ==> |s.samples| == measured)
  {
    if rounds > 0 {
      CourseKeepsStep(skipped, i, attempts, rounds - 1, b);
      RoundKeepsStep(StateAt(Start(skipped), i, attempts, rounds - 1, b), attempts(rounds - 1, i), rounds > b.warmup, b);
    }
  }

  /** At the head of every measured round, each healthy unit has one sample for each
      round before it and every slice is in step. */
  lemma SamplesCountRounds(n: nat, skipped: set<Group>, attempts: (nat, nat) -> Attempt, b: Benchmark, rounds: nat, i: nat)
    requires i < n
    ensures var s := CourseOf(Start(skipped), n, attempts, b)(b.warmup + rounds)[i];
      && InStep(s, b) && |s.samples| <= rounds
      && (s.failure.None? ==> |s.samples| == rounds)
  {
    CourseKeepsStep(skipped, i, attempts, b.warmup + rounds, b);
  }

  /** A unit that failed is never touched again. */
  lemma {:induction false} FailuresStick(start: Shot, i: nat, attempts: (nat, nat) -> Attempt, rounds: nat, later: nat, b: Benchmark)
    requires rounds <= later && StateAt(start, i, attempts, rounds, b).failure.Some?
    ensures StateAt(start, i, attempts, later, b) == StateAt(start, i, attempts, rounds, b)
    decreases later
  {
    if rounds < later {
      FailuresStick(start, i, attempts, rounds, later - 1, b);
    }
  }

  // The check made before measuring.

  /** The settings with the --runs flag applied, 0 without it. */
  function WithRuns(b: Benchmark, runsOverride: nat): Benchmark {
    if runsOverride > 0 then b.(runs := runsOverride) else b
  }

  datatype Check = Comparable | UsageError | ConfigError

  predicate CanConclude(b: Benchmark, runsOverride: nat) {
    Limit(WithRuns(b, runsOverride)) >= b.minSamples
  }

  /** checkComparable: it accepts exactly the settings under which every benchmark
      can reach min_samples. */
  method CheckComparable(benchmarks: seq<Benchmark>, runsOverride: nat) returns (code: Check)
    ensures code == Comparable <==> forall i | 0 <= i < |benchmarks| :: CanConclude(benchmarks[i], runsOverride)
    ensures code == UsageError ==> runsOverride > 0
    ensures code == ConfigError ==> runsOverride == 0
  {
    for i := 0 to |benchmarks|
      invariant forall j | 0 <= j < i :: CanConclude(benchmarks[j], runsOverride)
    {
      var b := benchmarks[i];
      var limit := if b.runs > 0 then b.runs else b.maxRuns;
      if runsOverride > 0 {
        if runsOverride < b.minSamples {
          assert !CanConclude(b, runsOverride);
          return UsageError;
        }
      } else if limit < b.minSamples {
        assert !CanConclude(b, runsOverride);
        return ConfigError;
      }
    }
    return Comparable;
  }

  /** In an accepted comparison, a unit still healthy when measuring ends without an
      interrupt has at least min_samples samples. */
  lemma EnoughSamples(n: nat, sides: nat, skipped: set<Group>, attempts: (nat, nat) -> Attempt, b: Benchmark, runsOverride: nat, rounds: nat, i: nat)
    requires sides > 1 && CanConclude(b, runsOverride) && i < n
    requires var own := WithRuns(b, runsOverride);
      Ended(CourseOf(Start(skipped), n, attempts, own), attempts, MinRunsFor(own, sides), own, rounds)
    ensures var own := WithRuns(b, runsOverride);
      var s := CourseOf(Start(skipped), n, attempts, own)(own.warmup + rounds)[i];
      s.failure.None? ==> |s.samples| == rounds >= b.minSamples
  {
    var own := WithRuns(b, runsOverride);
    var shots := CourseOf(Start(skipped), n, attempts, own)(own.warmup + rounds);
    SamplesCountRounds(n, skipped, attempts, own, rounds, i);
    if shots[i].failure.None? && own.runs == 0 && rounds < own.maxRuns {
      assert Enough(shots[i], MinRunsFor(own, sides), own);
    }
  }

  // What Compare is given.

  function GroupOf(name: Budgets.MetricName): Group {
    match name
    case Latency => GroupLatency
    case Throughput => GroupThroughput
    case PeakRSS => GroupMemory
    case _ => GroupCPU
  }

  const SECOND := 1000000000.0

  /** The nanoseconds of a run, at least one. */
  function Took(elapsed: nat): (r: real)
    ensures r >= 1.0
  {
    if elapsed >= 1 then elapsed as real else 1.0
  }

  /** Whether a metric has values: its slices go with the latencies. */
  predicate HasSeries(s: Shot, b: Benchmark, name: Budgets.MetricName) {
    match GroupOf(name)
    case GroupLatency => true
    case GroupThroughput => b.throughput && |s.work| == |s.samples|
    case GroupCPU => b.cpu && |s.cpuUser| == |s.samples| && |s.cpuSystem| == |s.samples|
    case GroupMemory => b.memory && |s.peakRSS| == |s.samples|
  }

  /** The value of a metric in run i. */
  function ValueOf(s: Shot, b: Benchmark, name: Budgets.MetricName, i: nat): real
    requires HasSeries(s, b, name) && i < |s.samples|
  {
    match name
    case Latency => s.samples[i] as real
    case Throughput => s.work[i] / (Took(s.samples[i]) / SECOND)
    case CPUUser => s.cpuUser[i] as real
    case CPUSystem => s.cpuSystem[i] as real
    case CPUTotal => s.cpuUser[i] as real + s.cpuSystem[i] as real
    case CPUUtilization => (s.cpuUser[i] as real + s.cpuSystem[i] as real) / Took(s.samples[i]) * 100.0
    case PeakRSS => s.peakRSS[i] as real
  }

  /** The samples of a metric, one for each run. */
  function Series(s: Shot, b: Benchmark, name: Budgets.MetricName): Option<seq<real>> {
    if HasSeries(s, b, name)
    then Some(seq(|s.samples|, i requires 0 <= i < |s.samples| => ValueOf(s, b, name, i)))
    else None
  }

  /** The first part of a metric's samples. */
  ghost predicate SeriesTo(s: Shot, b: Benchmark, name: Budgets.MetricName, out: seq<real>)
    requires HasSeries(s, b, name)
  {
    |out| <= |s.samples| && forall i | 0 <= i < |out| :: out[i] == ValueOf(s, b, name, i)
  }

  lemma SeriesIs(s: Shot, b: Benchmark, name: Budgets.MetricName, out: seq<real>)
    requires HasSeries(s, b, name) && SeriesTo(s, b, name, out) && |out| == |s.samples|
    ensures Series(s, b, name) == Some(out)
  {
    assert out == Series(s, b, name).value;
  }

  /** A loop of series that computes one metric. */
  method OneSeries(s: Shot, b: Benchmark, name: Budgets.MetricName) returns (out: seq<real>)
    requires HasSeries(s, b, name) && name in {Budgets.Latency, Budgets.Throughput, Budgets.PeakRSS}
    ensures Series(s, b, name) == Some(out)
  {
    out := [];
    for i := 0 to |s.samples|
      invariant |out| == i && SeriesTo(s, b, name, out)
    {
      match name {
        case Latency => out := out + [s.samples[i] as real];
        case Throughput => out := out + [s.work[i] / (Took(s.samples[i]) / SECOND)];
        case PeakRSS => out := out + [s.peakRSS[i] as real];
      }
    }
    SeriesIs(s, b, name, out);
  }

  /** The loop of series that computes the four CPU metrics together. */
  method CPUSeries(s: Shot, b: Benchmark) returns (user: seq<real>, system: seq<real>, total: seq<real>, utilization: seq<real>)
    requires HasSeries(s, b, Budgets.CPUTotal)
    ensures Series(s, b, Budgets.CPUUser) == Some(user) && Series(s, b, Budgets.CPUSystem) == Some(system)
    ensures Series(s, b, Budgets.CPUTotal) == Some(total) && Series(s, b, Budgets.CPUUtilization) == Some(utilization)
  {
    user, system, total, utilization := [], [], [], [];
    for i := 0 to |s.samples|
      invariant |user| == |system| == |total| == |utilization| == i
      invariant SeriesTo(s, b, Budgets.CPUUser, user) && SeriesTo(s, b, Budgets.CPUSystem, system)
      invariant SeriesTo(s, b, Budgets.CPUTotal, total) && SeriesTo(s, b, Budgets.CPUUtilization, utilization)
    {
      user, system := user + [s.cpuUser[i] as real], system + [s.cpuSystem[i] as real];
      total := total + [user[i] + system[i]];
      utilization := utilization + [total[i] / Took(s.samples[i]) * 100.0];
    }
    SeriesIs(s, b, Budgets.CPUUser, user);
    SeriesIs(s, b, Budgets.CPUSystem, system);
    SeriesIs(s, b, Budgets.CPUTotal, total);
    SeriesIs(s, b, Budgets.CPUUtilization, utilization);
  }

  /** series: every metric that has values, with them. */
  method SeriesOf(s: Shot, b: Benchmark) returns (out: map<Budgets.MetricName, seq<real>>)
    ensures forall name :: if name in out then Series(s, b, name) == Some(out[name]) else Series(s, b, name) == None
  {
    var latency := OneSeries(s, b, Budgets.Latency);
    out := map[Budgets.Latency := latency];
    if b.throughput && |s.work| == |s.samples| {
      var throughput := OneSeries(s, b, Budgets.Throughput);
      out := out[Budgets.Throughput := throughput];
    }
    if b.cpu && |s.cpuUser| == |s.samples| && |s.cpuSystem| == |s.samples| {
      var user, system, total, utilization := CPUSeries(s, b);
      out := out[Budgets.CPUUser := user][Budgets.CPUSystem := system][Budgets.CPUTotal := total][Budgets.CPUUtilization := utilization];
    }
    if b.memory && |s.peakRSS| == |s.samples| {
      var peak := OneSeries(s, b, Budgets.PeakRSS);
      out := out[Budgets.PeakRSS := peak];
    }
  }

  predicate Requested(b: Benchmark, g: Group) {
    match g
    case GroupLatency => true
    case GroupThroughput => b.throughput
    case GroupCPU => b.cpu
    case GroupMemory => b.memory
  }

  /** Every metric of a requested group that was not skipped has a value for every run; one
      of a group that was skipped or not requested has none, unless there was no run. */
  lemma SeriesAreComplete(s: Shot, b: Benchmark, name: Budgets.MetricName)
    requires InStep(s, b)
    ensures Requested(b, GroupOf(name)) && GroupOf(name) !in s.unsupported ==>
      Series(s, b, name).Some? && |Series(s, b, name).value| == |s.samples|
    ensures Series(s, b, name).Some? ==>
      Requested(b, GroupOf(name)) && (GroupOf(name) !in s.unsupported || |s.samples| == 0 || name in {Budgets.Latency, Budgets.Throughput})
  {
  }

  /** Rates and utilization are those of each run: multiplied by the time it took they give
      back its work and its CPU time. */
  lemma DerivedPerRun(s: Shot, b: Benchmark, i: nat)
    requires i < |s.samples|
    ensures HasSeries(s, b, Budgets.Throughput) ==>
      ValueOf(s, b, Budgets.Throughput, i) * (Took(s.samples[i]) / SECOND) == s.work[i]
    ensures HasSeries(s, b, Budgets.CPUTotal) ==>
      ValueOf(s, b, Budgets.CPUUtilization, i) / 100.0 * Took(s.samples[i]) == ValueOf(s, b, Budgets.CPUTotal, i)
  {
    var took := Took(s.samples[i]);
    if HasSeries(s, b, Budgets.Throughput) {
      QuotientSign(took, SECOND);
      QuotientUndone(s.work[i], took / SECOND);
    }
    if HasSeries(s, b, Budgets.CPUTotal) {
      var total := ValueOf(s, b, Budgets.CPUTotal, i);
      QuotientUndone(total, took);
      QuotientUndone(total / took, 100.0);
    }
  }

  /** The units i and j are the healthy sides of a comparison of a metric when
      measuring ended. */
  ghost predicate BothMeasured(shots: seq<Shot>, b: Benchmark, name: Budgets.MetricName, i: nat, j: nat) {
    && i < |shots| && j < |shots| && Requested(b, GroupOf(name))
    && shots[i].failure.None? && shots[j].failure.None?
    && GroupOf(name) !in shots[i].unsupported && GroupOf(name) !in shots[j].unsupported
  }

  /** Two healthy sides of an accepted comparison have a series each, and never too
      short: Compare never gives that reason, for any requested metric both measured. */
  lemma FewSamplesIsUnreachable(n: nat, sides: nat, skipped: set<Group>, attempts: (nat, nat) -> Attempt, b: Benchmark,
                                runsOverride: nat, rounds: nat, shots: seq<Shot>, i: nat, j: nat, name: Budgets.MetricName,
                                o: Comparing.Options, draws: seq<Comparing.Draw>, sqrt: Summaries.Root)
    requires sides > 1 && CanConclude(b, runsOverride) && b.minSamples > 0 && o.minSamples == b.minSamples
    requires var own := WithRuns(b, runsOverride);
      && Ended(CourseOf(Start(skipped), n, attempts, own), attempts, MinRunsFor(own, sides), own, rounds)
      && shots == CourseOf(Start(skipped), n, attempts, own)(own.warmup + rounds)
    requires BothMeasured(shots, WithRuns(b, runsOverride), name, i, j)
    ensures var base, head := Series(shots[i], WithRuns(b, runsOverride), name), Series(shots[j], WithRuns(b, runsOverride), name);
      base.Some? && head.Some? &&
      (Comparing.Fits(draws, base.value, head.value) ==>
        Comparing.Compared(base.value, head.value, o, draws, sqrt).reason !in {Comparing.FewSamples, Comparing.NoSamples})
  {
    var own := WithRuns(b, runsOverride);
    EnoughSamples(n, sides, skipped, attempts, b, runsOverride, rounds, i);
    EnoughSamples(n, sides, skipped, attempts, b, runsOverride, rounds, j);
    SamplesCountRounds(n, skipped, attempts, own, rounds, i);
    SamplesCountRounds(n, skipped, attempts, own, rounds, j);
    SeriesAreComplete(shots[i], own, name);
    SeriesAreComplete(shots[j], own, name);
    var base, head := Series(shots[i], own, name).value, Series(shots[j], own, name).value;
    if Comparing.Fits(draws, base, head) {
      NotFew(base, head, o, draws, sqrt);
    }
  }

  lemma NotFew(base: seq<real>, head: seq<real>, o: Comparing.Options, draws: seq<Comparing.Draw>, sqrt: Summaries.Root)
    requires base != [] && head != [] && Comparing.Fits(draws, base, head)
    requires |base| >= o.minSamples && |head| >= o.minSamples
    ensures Comparing.Compared(base, head, o, draws, sqrt).reason !in {Comparing.FewSamples, Comparing.NoSamples}
  {
  }

  // Which units there are.

  datatype SideName = Head | Base

  /** A command of the benchmark: whether it takes part in revision comparisons and
      whether a budget names it. */
  datatype CommandSettings = CommandSettings(compares: bool, budgeted: bool)

  /** One measurement unit. */
  datatype Pair = Pair(side: nat, command: nat)

  /** In a comparison an excluded command is measured on the head only, and only for
      its budgets. */
  predicate Measures(commands: seq<CommandSettings>, sides: seq<SideName>, u: Pair) {
    && u.side < |sides| && u.command < |commands|
    && (|sides| <= 1 || commands[u.command].compares || (sides[u.side] == Head && commands[u.command].budgeted))
  }

  /** Before command c, and before side s of command c. */
  predicate Reached(u: Pair, c: nat, s: nat) {
    u.command < c || (u.command == c && u.side < s)
  }

  ghost predicate Distinct(units: seq<Pair>) {
    forall i, j | 0 <= i < j < |units| :: units[i] != units[j]
  }

  lemma AddUnit(units: seq<Pair>, u: Pair)
    requires Distinct(units) && u !in units
    ensures Distinct(units + [u]) == true
    ensures forall v :: v in units + [u] <==> v in units || v == u
  {
  }

  /** commandUnits: exactly these units, each once. */
  method CommandUnits(commands: seq<CommandSettings>, sides: seq<SideName>) returns (units: seq<Pair>)
    ensures forall u :: u in units <==> Measures(commands, sides, u)
    ensures Distinct(units)
  {
    units := [];
    for c := 0 to |commands|
      invariant Distinct(units) == true
      invariant forall u :: u in units <==> Measures(commands, sides, u) && Reached(u, c, 0)
    {
      for s := 0 to |sides|
        invariant Distinct(units) == true
        invariant forall u :: u in units <==> Measures(commands, sides, u) && Reached(u, c, s)
      {
        if |sides| > 1 && !commands[c].compares && (sides[s] != Head || !commands[c].budgeted) {
          continue;
        }
        AddUnit(units, Pair(s, c));
        units := units + [Pair(s, c)];
      }
    }
  }
}
