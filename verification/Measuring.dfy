/** The measuring loop of `internal/runner/runner.go` and `result.go`.

    What a run of a command does is an arbitrary attempt, one for each round and
    unit; the order of the units within a round is an arbitrary permutation.

    (A predicate compared with true in a contract is used as one fact, so that the verifier
    does not prove its clauses again.) */
module Measuring {
  import opened OrderStats
  import opened Results

  datatype Group = GroupLatency | GroupThroughput | GroupCPU | GroupMemory

  /** What reading the usage of one run gave. */
  datatype Usage = Collected | NotSupported | Broken

  /** What one run did: it stopped with a failure, or it ran. */
  datatype Attempt =
    | Stopped(kind: FailureKind)
    | Ran(elapsed: nat, user: nat, system: nat, cpu: Usage, peak: nat, floor: nat, memory: Usage, work: real)

  /** The settings of a benchmark that matter here. */
  datatype Benchmark = Benchmark(
    warmup: nat, runs: nat, minRuns: nat, maxRuns: nat, minTime: nat, minSamples: nat,
    cpu: bool, memory: bool, throughput: bool, skipUnsupported: bool)

  /** A measurement at one moment. */
  datatype Shot = Shot(
    samples: seq<nat>, cpuUser: seq<nat>, cpuSystem: seq<nat>, peakRSS: seq<nat>, peakRSSFloor: seq<nat>,
    work: seq<real>, warmups: nat, failure: Option<FailureKind>, unsupported: set<Group>, total: nat)

  const FRESH := Shot([], [], [], [], [], [], 0, None, {}, 0)

  // What one run does to a measurement.

  function SkipShot(s: Shot, g: Group): Shot {
    var t := s.(unsupported := s.unsupported + {g});
    match g
    case GroupCPU => t.(cpuUser := [], cpuSystem := [])
    case GroupMemory => t.(peakRSS := [], peakRSSFloor := [])
    case _ => t
  }

  /** usageFailure. */
  function CheckUsage(s: Shot, g: Group, usage: Usage, b: Benchmark): (Shot, Option<FailureKind>) {
    match usage
    case Collected => (s, None)
    case NotSupported => if b.skipUnsupported then (SkipShot(s, g), None) else (s, Some(FailMetricUnsupported))
    case Broken => (s, Some(FailMetricCollection))
  }

  function Append(s: Shot, a: Attempt, wantCPU: bool, wantMemory: bool, b: Benchmark): Shot
    requires a.Ran?
  {
    var cpu, memory := wantCPU && GroupCPU !in s.unsupported, wantMemory && GroupMemory !in s.unsupported;
    s.(samples := s.samples + [a.elapsed],
       cpuUser := if cpu then s.cpuUser + [a.user] else s.cpuUser,
       cpuSystem := if cpu then s.cpuSystem + [a.system] else s.cpuSystem,
       peakRSS := if memory then s.peakRSS + [a.peak] else s.peakRSS,
       peakRSSFloor := if memory then s.peakRSSFloor + [a.floor] else s.peakRSSFloor,
       work := if b.throughput then s.work + [a.work] else s.work,
       total := s.total + a.elapsed)
  }

  /** recordRun. */
  function Recorded(s: Shot, a: Attempt, wantCPU: bool, wantMemory: bool, record: bool, b: Benchmark): (Shot, Option<FailureKind>)
    requires a.Ran?
  {
    var (t, f) := if wantCPU then CheckUsage(s, GroupCPU, a.cpu, b) else (s, None);
    if f.Some? then (t, f)
    else
      var (u, f') := if wantMemory then CheckUsage(t, GroupMemory, a.memory, b) else (t, None);
      if f'.Some? || !record then (u, f') else (Append(u, a, wantCPU, wantMemory, b), None)
  }

  /** runOnce. */
  function RunOf(s: Shot, a: Attempt, record: bool, b: Benchmark): (Shot, Option<FailureKind>) {
    match a
    case Stopped(kind) => (s, Some(kind))
    case Ran(_, _, _, _, _, _, _, _) =>
      Recorded(s, a, b.cpu && GroupCPU !in s.unsupported, b.memory && GroupMemory !in s.unsupported, record, b)
  }

  /** What a round does to one unit: nothing once it failed. */
  function AfterRound(s: Shot, a: Attempt, record: bool, b: Benchmark): Shot {
    if s.failure.Some? then s
    else
      var (t, f) := RunOf(s, a, record, b);
      var u := if f.Some? then t.(failure := f) else t;
      if record then u else u.(warmups := u.warmups + 1)
  }

  /** An interrupt ends the whole benchmark. */
  predicate Interrupts(s: Shot, a: Attempt) {
    s.failure.None? && a == Stopped(FailInterrupted)
  }

  // The objects.

  class Measurement {
    var samples: seq<nat>
    var cpuUser: seq<nat>
    var cpuSystem: seq<nat>
    var peakRSS: seq<nat>
    var peakRSSFloor: seq<nat>
    var work: seq<real>
    var warmups: nat
    var failure: Option<FailureKind>
    var unsupported: set<Group>

    ghost function Now(): Shot
      reads this
    {
      Shot(samples, cpuUser, cpuSystem, peakRSS, peakRSSFloor, work, warmups, failure, unsupported, 0)
    }

    constructor ()
      ensures Now() == FRESH
    {
      samples, cpuUser, cpuSystem, peakRSS, peakRSSFloor, work := [], [], [], [], [], [];
      warmups, failure, unsupported := 0, None, {};
    }

    /** skip: a group that cannot be measured has no samples. */
    method Skip(g: Group)
      modifies this
      ensures Now() == SkipShot(old(Now()), g)
    {
      unsupported := unsupported + {g};
      match g {
        case GroupCPU => cpuUser, cpuSystem := [], [];
        case GroupMemory => peakRSS, peakRSSFloor := [], [];
        case GroupLatency =>
        case GroupThroughput =>
      }
    }

    method UsageFailure(g: Group, usage: Usage, b: Benchmark) returns (f: Option<FailureKind>)
      modifies this
      ensures (Now(), f) == CheckUsage(old(Now()), g, usage, b)
    {
      match usage {
        case Collected => return None;
        case NotSupported =>
          if b.skipUnsupported {
            Skip(g);
            return None;
          }
          return Some(FailMetricUnsupported);
        case Broken => return Some(FailMetricCollection);
      }
    }
  }

  class Unit {
    const m: Measurement
    var total: nat

    constructor ()
      ensures fresh(m) && Now() == FRESH
    {
      m := new Measurement();
      total := 0;
    }

    ghost function Now(): Shot
      reads this, m
    {
      m.Now().(total := total)
    }

    method AppendRun(a: Attempt, wantCPU: bool, wantMemory: bool, b: Benchmark)
      requires a.Ran?
      modifies this, m
      ensures Now() == Append(old(Now()), a, wantCPU, wantMemory, b)
    {
      m.samples := m.samples + [a.elapsed];
      total := total + a.elapsed;
      if wantCPU && GroupCPU !in m.unsupported {
        m.cpuUser := m.cpuUser + [a.user];
        m.cpuSystem := m.cpuSystem + [a.system];
      }
      if wantMemory && GroupMemory !in m.unsupported {
        m.peakRSS := m.peakRSS + [a.peak];
        m.peakRSSFloor := m.peakRSSFloor + [a.floor];
      }
      if b.throughput {
        m.work := m.work + [a.work];
      }
    }

    method RecordRun(a: Attempt, wantCPU: bool, wantMemory: bool, record: bool, b: Benchmark) returns (f: Option<FailureKind>)
      requires a.Ran?
      modifies this, m
      ensures (Now(), f) == Recorded(old(Now()), a, wantCPU, wantMemory, record, b)
    {
      f := None;
      if wantCPU {
        f := m.UsageFailure(GroupCPU, a.cpu, b);
        if f.Some? {
          return;
        }
      }
      if wantMemory {
        f := m.UsageFailure(GroupMemory, a.memory, b);
        if f.Some? {
          return;
        }
      }
      if record {
        AppendRun(a, wantCPU, wantMemory, b);
      }
    }

    /** runOnce, given what happened. */
    method RunOnce(a: Attempt, record: bool, b: Benchmark) returns (f: Option<FailureKind>)
      modifies this, m
      ensures (Now(), f) == RunOf(old(Now()), a, record, b)
    {
      if a.Stopped? {
        return Some(a.kind);
      }
      f := RecordRun(a, b.cpu && GroupCPU !in m.unsupported, b.memory && GroupMemory !in m.unsupported, record, b);
    }

    /** The body of the loop of round, for a healthy unit. */
    method Step(a: Attempt, record: bool, b: Benchmark) returns (interrupted: bool)
      requires m.failure.None?
      modifies this, m
      ensures interrupted == Interrupts(old(Now()), a)
      ensures Now() == if interrupted then old(Now()) else AfterRound(old(Now()), a, record, b)
    {
      var f := RunOnce(a, record, b);
      if f == Some(FailInterrupted) {
        return true;
      }
      if f.Some? {
        m.failure := f;
      }
      if !record {
        m.warmups := m.warmups + 1;
      }
      interrupted := false;
    }
  }

  // Rounds.

  /** rand.Perm: every index once. */
  ghost predicate Shuffles(order: seq<nat>, n: nat) {
    && |order| == n && (forall i | 0 <= i < n :: order[i] < n)
    && (forall i, j | 0 <= i < j < n :: order[i] != order[j])
    && forall k: nat | k < n :: k in order
  }

  /** The orders of all rounds. */
  ghost predicate Orders(orders: nat -> seq<nat>, n: nat) {
    forall r: nat :: Shuffles(orders(r), n)
  }

  lemma OrderOf(orders: nat -> seq<nat>, n: nat, r: nat)
    requires Orders(orders, n)
    ensures Shuffles(orders(r), n) == true
  {
  }

  ghost predicate Apart(units: seq<Unit>) {
    forall i, j | 0 <= i < j < |units| :: units[i] != units[j] && units[i].m != units[j].m
  }

  ghost function Objects(units: seq<Unit>): set<object> {
    (set i | 0 <= i < |units| :: units[i] as object) + (set i | 0 <= i < |units| :: units[i].m as object)
  }

  /** Each unit is in its state of this list. */
  ghost predicate Stand(units: seq<Unit>, shots: seq<Shot>)
    reads Objects(units)
  {
    |shots| == |units| && forall i | 0 <= i < |units| :: units[i].Now() == shots[i]
  }

  function RoundOf(shots: seq<Shot>, attempts: nat -> Attempt, record: bool, b: Benchmark): (r: seq<Shot>)
    ensures |r| == |shots| && forall i | 0 <= i < |r| :: r[i] == AfterRound(shots[i], attempts(i), record, b)
  {
    seq(|shots|, i requires 0 <= i < |shots| => AfterRound(shots[i], attempts(i), record, b))
  }

  ghost predicate SomeInterrupt(shots: seq<Shot>, attempts: nat -> Attempt) {
    exists i | 0 <= i < |shots| :: Interrupts(shots[i], attempts(i))
  }

  ghost predicate AllFailed(shots: seq<Shot>) {
    forall i | 0 <= i < |shots| :: shots[i].failure.Some?
  }

  /** A step of one unit leaves the others alone. */
  method StepUnit(units: seq<Unit>, i: nat, a: Attempt, record: bool, b: Benchmark, ghost shots: seq<Shot>)
    returns (interrupted: bool)
    requires Apart(units) && Stand(units, shots) && i < |units| && shots[i].failure.None?
    modifies units[i], units[i].m
    ensures interrupted == Interrupts(shots[i], a)
    ensures Stand(units, if interrupted then shots else shots[i := AfterRound(shots[i], a, record, b)]) == true
  {
    interrupted := units[i].Step(a, record, b);
  }

  /** The states while a round is under way: as after it for the units in visited. */
  ghost predicate Midway(before: seq<Shot>, after: seq<Shot>, now: seq<Shot>, visited: seq<nat>) {
    && |now| == |before| == |after|
    && forall i | 0 <= i < |now| :: now[i] == if i in visited then after[i] else before[i]
  }

  lemma VisitedNone(before: seq<Shot>, after: seq<Shot>, order: seq<nat>, attempts: nat -> Attempt)
    requires |before| == |after|
    ensures Midway(before, after, before, order[..0]) == true && Seen(before, order, 0, attempts, 0) == true
  {
  }

  lemma VisitOne(before: seq<Shot>, after: seq<Shot>, now: seq<Shot>, order: seq<nat>, k: nat)
    requires Shuffles(order, |before|) == true && k < |order| && Midway(before, after, now, order[..k]) == true
    ensures order[k] < |before| == |now| == |after| && now[order[k]] == before[order[k]]
    ensures Midway(before, after, now[order[k] := after[order[k]]], order[..k + 1]) == true
  {
    assert order[..k + 1] == order[..k] + [order[k]];
    assert order[k] !in order[..k];
  }

  lemma VisitedAll(before: seq<Shot>, after: seq<Shot>, now: seq<Shot>, order: seq<nat>)
    requires Shuffles(order, |before|) == true && Midway(before, after, now, order[..|order|]) == true
    ensures now == after
  {
    assert order[..|order|] == order;
  }

  /** What is known after visiting the first k units in order. */
  ghost predicate Seen(shots: seq<Shot>, order: seq<nat>, k: nat, attempts: nat -> Attempt, active: nat)
    requires k <= |order|
  {
    && (forall p | 0 <= p < k :: order[p] < |shots| && !Interrupts(shots[order[p]], attempts(order[p])))
    && (active == 0 <==> forall p | 0 <= p < k :: order[p] < |shots| && shots[order[p]].failure.Some?)
  }

  lemma SeeOne(shots: seq<Shot>, order: seq<nat>, k: nat, attempts: nat -> Attempt, active: nat)
    requires Shuffles(order, |shots|) == true && k < |order| && Seen(shots, order, k, attempts, active) == true
    ensures Interrupts(shots[order[k]], attempts(order[k])) ==> SomeInterrupt(shots, attempts)
    ensures !Interrupts(shots[order[k]], attempts(order[k])) ==>
      Seen(shots, order, k + 1, attempts, active + if shots[order[k]].failure.None? then 1 else 0) == true
  {
  }

  lemma SeenAll(shots: seq<Shot>, order: seq<nat>, attempts: nat -> Attempt, active: nat)
    requires Shuffles(order, |shots|) == true && Seen(shots, order, |order|, attempts, active) == true
    ensures !SomeInterrupt(shots, attempts) && (active == 0 <==> AllFailed(shots))
  {
    forall i: nat | i < |shots|
      ensures !Interrupts(shots[i], attempts(i)) && (active == 0 ==> shots[i].failure.Some?)
    {
      assert i in order;
    }
  }

  lemma StandsTogether(units: seq<Unit>, shots: seq<Shot>)
    requires Stand(units, shots)
    ensures |shots| == |units|
  {
  }

  /** The body of the loop of round. */
  method Visit(units: seq<Unit>, i: nat, attempts: nat -> Attempt, record: bool, b: Benchmark, ghost shot: Shot, ghost next: Shot, ghost now: seq<Shot>)
    returns (ran: bool, interrupted: bool)
    requires Apart(units) == true && Stand(units, now) == true && i < |units| == |now| && now[i] == shot
    requires next == AfterRound(shot, attempts(i), record, b)
    modifies Objects(units)
    ensures ran == shot.failure.None? && interrupted == Interrupts(shot, attempts(i))
    ensures !interrupted ==> Stand(units, now[i := next]) == true
  {
    assert units[i].Now() == shot;
    if units[i].m.failure.Some? {
      assert now[i := next] == now;
      return false, false;
    }
    interrupted := StepUnit(units, i, attempts(i), record, b, now);
    ran := true;
  }

  /** round: every healthy unit once, in any order. Without an interrupt the outcome
      does not depend on the order. */
  method Round(units: seq<Unit>, order: seq<nat>, attempts: nat -> Attempt, record: bool, b: Benchmark, ghost shots: seq<Shot>)
    returns (active: nat, interrupted: bool)
    requires Apart(units) == true && Shuffles(order, |units|) == true && Stand(units, shots) == true
    modifies Objects(units)
    ensures interrupted == SomeInterrupt(shots, attempts)
    ensures !interrupted ==> Stand(units, RoundOf(shots, attempts, record, b)) == true
    ensures !interrupted ==> (active == 0 <==> AllFailed(shots))
  {
    StandsTogether(units, shots);
    active, interrupted := RoundTo(units, order, attempts, record, b, shots, RoundOf(shots, attempts, record, b));
  }

  /** The loop of round, given the states it leaves. */
  method RoundTo(units: seq<Unit>, order: seq<nat>, attempts: nat -> Attempt, record: bool, b: Benchmark,
                 ghost shots: seq<Shot>, ghost after: seq<Shot>)
    returns (active: nat, interrupted: bool)
    requires Apart(units) == true && Shuffles(order, |units|) == true && Stand(units, shots) == true
    requires |units| == |shots| && after == RoundOf(shots, attempts, record, b)
    modifies Objects(units)
    ensures interrupted == SomeInterrupt(shots, attempts)
    ensures !interrupted ==> Stand(units, after) == true
    ensures !interrupted ==> (active == 0 <==> AllFailed(shots))
  {
    active, interrupted := 0, false;
    ghost var now := shots;
    VisitedNone(shots, after, order, attempts);
    for k := 0 to |order|
      invariant Stand(units, now) == true && Midway(shots, after, now, order[..k]) == true
      invariant Seen(shots, order, k, attempts, active) == true
    {
      VisitOne(shots, after, now, order, k);
      SeeOne(shots, order, k, attempts, active);
      var i, ran := order[k], false;
      ran, interrupted := Visit(units, i, attempts, record, b, shots[i], after[i], now);
      if interrupted {
        return;
      }
      if ran {
        active := active + 1;
      }
      now := now[i := after[i]];
    }
    VisitedAll(shots, after, now, order);
    SeenAll(shots, order, attempts, active);
    interrupted := false;
  }

  // Stopping.

  /** minRunsFor. */
  function MinRunsFor(b: Benchmark, sides: nat): nat {
    if sides > 1 && b.minSamples > b.minRuns then b.minSamples else b.minRuns
  }

  predicate Enough(s: Shot, minRuns: nat, b: Benchmark) {
    s.failure.None? ==> |s.samples| >= minRuns && s.total >= b.minTime
  }

  ghost predicate Stops(shots: seq<Shot>, minRuns: nat, b: Benchmark, round: nat) {
    if b.runs > 0 then round >= b.runs
    else round >= b.maxRuns || forall i | 0 <= i < |shots| :: Enough(shots[i], minRuns, b)
  }

  /** done. */
  method Done(units: seq<Unit>, minRuns: nat, b: Benchmark, round: nat, ghost shots: seq<Shot>) returns (stop: bool)
    requires Stand(units, shots) == true
    ensures stop == Stops(shots, minRuns, b, round)
  {
    if b.runs > 0 {
      return round >= b.runs;
    }
    if round >= b.maxRuns {
      return true;
    }
    for i := 0 to |units|
      invariant forall j | 0 <= j < i :: Enough(shots[j], minRuns, b)
    {
      var u := units[i];
      assert u.Now() == shots[i];
      if u.m.failure.None? && (|u.m.samples| < minRuns || u.total < b.minTime) {
        assert !Enough(shots[i], minRuns, b);
        return false;
      }
    }
    return true;
  }

  // The whole loop.

  /** A unit after some rounds; the first are warmups. */
  function StateAt(start: Shot, i: nat, attempts: (nat, nat) -> Attempt, rounds: nat, b: Benchmark): Shot {
    if rounds == 0 then start
    else AfterRound(StateAt(start, i, attempts, rounds - 1, b), attempts(rounds - 1, i), rounds > b.warmup, b)
  }

  function StatesAt(start: Shot, n: nat, attempts: (nat, nat) -> Attempt, rounds: nat, b: Benchmark): (r: seq<Shot>)
    ensures |r| == n && forall i | 0 <= i < n :: r[i] == StateAt(start, i, attempts, rounds, b)
  {
    seq(n, i requires 0 <= i < n => StateAt(start, i, attempts, rounds, b))
  }

  function AttemptsIn(attempts: (nat, nat) -> Attempt, round: nat): nat -> Attempt {
    (i: nat) => attempts(round, i)
  }

  /** The states of all units after each number of rounds. */
  type Course = nat -> seq<Shot>

  function CourseOf(start: Shot, n: nat, attempts: (nat, nat) -> Attempt, b: Benchmark): Course {
    (rounds: nat) => StatesAt(start, n, attempts, rounds, b)
  }

  /** Round after round, each state comes from the one before. */
  ghost predicate Follows(course: Course, attempts: (nat, nat) -> Attempt, b: Benchmark, round: nat) {
    course(round + 1) == RoundOf(course(round), AttemptsIn(attempts, round), round >= b.warmup, b)
  }

  ghost predicate Legal(course: Course, attempts: (nat, nat) -> Attempt, b: Benchmark) {
    forall r: nat :: Follows(course, attempts, b, r)
  }

  lemma LegalAt(course: Course, attempts: (nat, nat) -> Attempt, b: Benchmark, r: nat)
    requires Legal(course, attempts, b)
    ensures Follows(course, attempts, b, r) == true
  {
  }

  lemma CourseFollows(start: Shot, n: nat, attempts: (nat, nat) -> Attempt, b: Benchmark, round: nat)
    ensures Follows(CourseOf(start, n, attempts, b), attempts, b, round)
  {
  }

  lemma FailedStandStill(course: Course, attempts: (nat, nat) -> Attempt, b: Benchmark, round: nat)
    requires Follows(course, attempts, b, round) && AllFailed(course(round))
    ensures course(round + 1) == course(round)
  {
  }

  /** A unit before its first round, with the groups its platform cannot measure
      skipped. */
  function Start(skipped: set<Group>): Shot {
    FRESH.(unsupported := skipped)
  }

  method SkipAll(u: Unit, skipped: set<Group>)
    requires u.Now() == FRESH
    modifies u.m
    ensures u.Now() == Start(skipped)
  {
    var rest := skipped;
    while rest != {}
      invariant rest <= skipped && u.Now() == Start(skipped - rest)
      decreases rest
    {
      var g :| g in rest;
      u.m.Skip(g);
      rest := rest - {g};
    }
  }

  method NewUnits(n: nat, skipped: set<Group>) returns (units: seq<Unit>)
    ensures |units| == n && Apart(units)
    ensures forall i | 0 <= i < n :: fresh(units[i]) && fresh(units[i].m)
    ensures forall i | 0 <= i < n :: units[i].Now() == Start(skipped)
  {
    units := [];
    for k := 0 to n
      invariant |units| == k && Apart(units)
      invariant forall i | 0 <= i < k :: fresh(units[i]) && fresh(units[i].m)
      invariant forall i | 0 <= i < k :: units[i].Now() == Start(skipped)
    {
      var u := new Unit();
      SkipAll(u, skipped);
      units := units + [u];
    }
  }

  function Limit(b: Benchmark): nat {
    if b.runs > 0 then b.runs else b.maxRuns
  }

  /** Whether measuring stops before this measured round. */
  ghost predicate StopsAt(course: Course, minRuns: nat, b: Benchmark, round: nat) {
    Stops(course(b.warmup + round), minRuns, b, round)
  }

  /** Some healthy unit is interrupted in this round, counting warmups. */
  ghost predicate InterruptAt(course: Course, attempts: (nat, nat) -> Attempt, round: nat) {
    SomeInterrupt(course(round), AttemptsIn(attempts, round))
  }

  ghost predicate Uninterrupted(course: Course, attempts: (nat, nat) -> Attempt, rounds: nat) {
    forall r: nat | r < rounds :: !InterruptAt(course, attempts, r)
  }

  /** The stopping rule called for every round so far, and none was interrupted. */
  ghost predicate Progress(course: Course, attempts: (nat, nat) -> Attempt, minRuns: nat, b: Benchmark, rounds: nat) {
    && rounds <= Limit(b)
    && (forall r: nat | r < rounds :: !StopsAt(course, minRuns, b, r))
    && Uninterrupted(course, attempts, b.warmup + rounds)
  }

  /** How measuring ended, when nothing interrupted it: the stopping rule holds for
      the first time, or no unit is left. */
  ghost predicate Ended(course: Course, attempts: (nat, nat) -> Attempt, minRuns: nat, b: Benchmark, rounds: nat) {
    && Progress(course, attempts, minRuns, b, rounds)
    && (StopsAt(course, minRuns, b, rounds) || AllFailed(course(b.warmup + rounds)))
  }

  /** How it ended otherwise: some healthy unit was interrupted, in a warmup round or
      in a round the stopping rule called for. */
  ghost predicate CutShort(course: Course, attempts: (nat, nat) -> Attempt, minRuns: nat, b: Benchmark, rounds: nat) {
    || !Uninterrupted(course, attempts, b.warmup)
    || (InterruptAt(course, attempts, b.warmup + rounds) && !StopsAt(course, minRuns, b, rounds))
  }

  lemma NotStopped(course: Course, attempts: (nat, nat) -> Attempt, minRuns: nat, b: Benchmark, rounds: nat)
    requires Progress(course, attempts, minRuns, b, rounds) == true && StopsAt(course, minRuns, b, rounds) == false
    ensures rounds < Limit(b)
    ensures InterruptAt(course, attempts, b.warmup + rounds) ==> CutShort(course, attempts, minRuns, b, rounds) == true
    ensures !InterruptAt(course, attempts, b.warmup + rounds) ==> Progress(course, attempts, minRuns, b, rounds + 1) == true
  {
  }

  lemma EndsHere(course: Course, attempts: (nat, nat) -> Attempt, minRuns: nat, b: Benchmark, rounds: nat)
    requires Progress(course, attempts, minRuns, b, rounds) == true
    requires StopsAt(course, minRuns, b, rounds) == true || AllFailed(course(b.warmup + rounds)) == true
    ensures Ended(course, attempts, minRuns, b, rounds) == true
  {
  }

  lemma WarmedUp(course: Course, attempts: (nat, nat) -> Attempt, minRuns: nat, b: Benchmark)
    ensures Uninterrupted(course, attempts, b.warmup) ==> Progress(course, attempts, minRuns, b, 0) == true
    ensures !Uninterrupted(course, attempts, b.warmup) ==> CutShort(course, attempts, minRuns, b, 0) == true
  {
  }

  lemma OneMoreUninterrupted(course: Course, attempts: (nat, nat) -> Attempt, rounds: nat)
    requires Uninterrupted(course, attempts, rounds)
    ensures Uninterrupted(course, attempts, rounds + 1) == !InterruptAt(course, attempts, rounds)
  {
  }

  lemma CutEarlier(course: Course, attempts: (nat, nat) -> Attempt, round: nat, later: nat)
    requires round < later && InterruptAt(course, attempts, round)
    ensures !Uninterrupted(course, attempts, later)
  {
  }

  /** One round of either loop, along the course. */
  method RoundAt(units: seq<Unit>, ghost course: Course, attempts: (nat, nat) -> Attempt, b: Benchmark, round: nat, order: seq<nat>)
    returns (active: nat, interrupted: bool)
    requires Apart(units) == true && Shuffles(order, |units|) == true
    requires Follows(course, attempts, b, round) == true
    requires Stand(units, course(round)) == true
    modifies Objects(units)
    ensures interrupted == InterruptAt(course, attempts, round)
    ensures !interrupted ==> Stand(units, course(round + 1)) == true
    ensures !interrupted && active == 0 ==> AllFailed(course(round)) == true && course(round + 1) == course(round)
  {
    active, interrupted := Round(units, order, AttemptsIn(attempts, round), round >= b.warmup, b, course(round));
    if !interrupted && active == 0 {
      FailedStandStill(course, attempts, b, round);
    }
  }

  /** The warmup loop of Measure. */
  method WarmUp(units: seq<Unit>, ghost course: Course, b: Benchmark, orders: nat -> seq<nat>, attempts: (nat, nat) -> Attempt)
    returns (interrupted: bool)
    requires Apart(units) == true && Orders(orders, |units|) == true && Legal(course, attempts, b) == true
    requires Stand(units, course(0)) == true
    modifies Objects(units)
    ensures !interrupted ==> Stand(units, course(b.warmup)) == true
    ensures interrupted == !Uninterrupted(course, attempts, b.warmup)
  {
    interrupted := false;
    for w := 0 to b.warmup
      invariant Stand(units, course(w)) == true
      invariant Uninterrupted(course, attempts, w) == true && !interrupted
    {
      var active;
      OrderOf(orders, |units|, w);
      LegalAt(course, attempts, b, w);
      active, interrupted := RoundAt(units, course, attempts, b, w, orders(w));
      OneMoreUninterrupted(course, attempts, w);
      if interrupted {
        CutEarlier(course, attempts, w, b.warmup);
        return;
      }
    }
  }

  /** done, before a measured round. */
  method DoneAt(units: seq<Unit>, ghost course: Course, minRuns: nat, b: Benchmark, rounds: nat) returns (stop: bool)
    requires Stand(units, course(b.warmup + rounds)) == true
    ensures stop == StopsAt(course, minRuns, b, rounds)
  {
    stop := Done(units, minRuns, b, rounds, course(b.warmup + rounds));
  }

  /** The measured rounds of Measure. */
  method MeasureRounds(units: seq<Unit>, ghost course: Course, b: Benchmark, minRuns: nat, orders: nat -> seq<nat>, attempts: (nat, nat) -> Attempt)
    returns (rounds: nat, interrupted: bool)
    requires Apart(units) == true && Orders(orders, |units|) == true && Legal(course, attempts, b) == true
    requires Stand(units, course(b.warmup)) == true && Progress(course, attempts, minRuns, b, 0) == true
    modifies Objects(units)
    ensures !interrupted ==> Stand(units, course(b.warmup + rounds)) == true
    ensures !interrupted ==> Ended(course, attempts, minRuns, b, rounds) == true
    ensures interrupted ==> CutShort(course, attempts, minRuns, b, rounds) == true
    ensures rounds <= Limit(b)
  {
    rounds, interrupted := 0, false;
    while true
      invariant Stand(units, course(b.warmup + rounds)) == true
      invariant Progress(course, attempts, minRuns, b, rounds) == true
      invariant rounds <= Limit(b) && !interrupted
      decreases Limit(b) - rounds
    {
      var stop := DoneAt(units, course, minRuns, b, rounds);
      if stop {
        EndsHere(course, attempts, minRuns, b, rounds);
        return;
      }
      NotStopped(course, attempts, minRuns, b, rounds);
      var active;
      OrderOf(orders, |units|, b.warmup + rounds);
      LegalAt(course, attempts, b, b.warmup + rounds);
      active, interrupted := RoundAt(units, course, attempts, b, b.warmup + rounds, orders(b.warmup + rounds));
      if interrupted {
        return;
      }
      if active == 0 {
        EndsHere(course, attempts, minRuns, b, rounds);
        return;
      }
      rounds := rounds + 1;
    }
  }

  /** Both loops. */
  method MeasureAlong(units: seq<Unit>, ghost course: Course, b: Benchmark, minRuns: nat, orders: nat -> seq<nat>, attempts: (nat, nat) -> Attempt)
    returns (rounds: nat, interrupted: bool)
    requires Apart(units) == true && Orders(orders, |units|) == true && Legal(course, attempts, b) == true
    requires Stand(units, course(0)) == true
    modifies Objects(units)
    ensures !interrupted ==> Stand(units, course(b.warmup + rounds)) == true
    ensures !interrupted ==> Ended(course, attempts, minRuns, b, rounds) == true
    ensures interrupted ==> CutShort(course, attempts, minRuns, b, rounds) == true
    ensures rounds <= Limit(b)
  {
    rounds := 0;
    interrupted := WarmUp(units, course, b, orders, attempts);
    WarmedUp(course, attempts, minRuns, b);
    if !interrupted {
      rounds, interrupted := MeasureRounds(units, course, b, minRuns, orders, attempts);
    }
  }

  lemma CourseStarts(units: seq<Unit>, start: Shot, attempts: (nat, nat) -> Attempt, b: Benchmark)
    requires forall i | 0 <= i < |units| :: units[i].Now() == start
    ensures Stand(units, CourseOf(start, |units|, attempts, b)(0)) == true
    ensures Legal(CourseOf(start, |units|, attempts, b), attempts, b) == true
  {
    forall r: nat
      ensures Follows(CourseOf(start, |units|, attempts, b), attempts, b, r)
    {
      CourseFollows(start, |units|, attempts, b, r);
    }
  }

  /** Measure, between the preparation of the sides and the cleanup. The state it
      leaves is the same for every order of the units. */
  method Measure(n: nat, sides: nat, skipped: set<Group>, b: Benchmark, orders: nat -> seq<nat>, attempts: (nat, nat) -> Attempt)
    returns (units: seq<Unit>, rounds: nat, interrupted: bool)
    requires Orders(orders, n)
    ensures |units| == n && rounds <= Limit(b)
    ensures !interrupted ==> Stand(units, CourseOf(Start(skipped), n, attempts, b)(b.warmup + rounds)) == true
    ensures !interrupted ==> Ended(CourseOf(Start(skipped), n, attempts, b), attempts, MinRunsFor(b, sides), b, rounds) == true
    ensures interrupted ==> CutShort(CourseOf(Start(skipped), n, attempts, b), attempts, MinRunsFor(b, sides), b, rounds) == true
  {
    units := NewUnits(n, skipped);
    CourseStarts(units, Start(skipped), attempts, b);
    rounds, interrupted := MeasureAlong(units, CourseOf(Start(skipped), n, attempts, b), b, MinRunsFor(b, sides), orders, attempts);
  }
}
