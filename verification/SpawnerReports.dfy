/** What a run through a spawner reports, and for whom it kills: `runSpawned` and `watch`
    (`spawner_client_unix.go`, `proc.go`). A part of the invariant of its own, kept by every
    step, and what follows from it in every state of every execution.

    (A predicate compared with true in a contract is used as one fact, so that the verifier
    does not prove its clauses again.) */
module SpawnerReports {
  import opened SpawnerProtocol
  import opened SpawnerInvariant

  /** Why the watcher of a run decided to kill, if it did. */
  function FiredFor(fired: map<nat, Reason>, run: nat): Maybe<Reason> {
    if run in fired then Just(fired[run]) else Nothing
  }

  /** Every report so far tells what the watcher of its run decided. */
  predicate ReportsTell(reports: seq<Report>, fired: map<nat, Reason>) {
    forall i | 0 <= i < |reports| ::
      reports[i].stopped == if reports[i].started then FiredFor(fired, reports[i].run) else Nothing
  }

  predicate ReportsBelow(reports: seq<Report>, run: nat) {
    forall i | 0 <= i < |reports| :: reports[i].run < run
  }

  predicate FiredBelow(fired: map<nat, Reason>, run: nat) {
    forall r | r in fired :: r < run
  }

  /** A run is under way between its request and its report. */
  predicate UnderWay(c: Client) {
    c.Awaiting? || c.Answered? || c.Joining?
  }

  ghost predicate ReportsInv(s: State) {
    && FiredBelow(s.h.fired, s.nextRun) && ReportsBelow(s.h.reports, s.nextRun) && ReportsTell(s.h.reports, s.h.fired)
    && (s.client.Sending? ==> FiredBelow(s.h.fired, s.client.run) && ReportsBelow(s.h.reports, s.client.run))
    && (UnderWay(s.client) ==>
          && ReportsBelow(s.h.reports, s.client.run)
          && s.killed == FiredFor(s.h.fired, s.client.run)
          && (s.watch.Watching? ==> s.killed.Nothing?) && (s.watch.Stopping? ==> s.killed.Just?))
  }

  lemma OneMoreReport(reports: seq<Report>, fired: map<nat, Reason>, report: Report, next: nat)
    requires ReportsTell(reports, fired) && ReportsBelow(reports, next) && report.run < next
    requires report.stopped == if report.started then FiredFor(fired, report.run) else Nothing
    ensures ReportsTell(reports + [report], fired) && ReportsBelow(reports + [report], next)
  {
  }

  lemma FiresNow(reports: seq<Report>, fired: map<nat, Reason>, run: nat, reason: Reason)
    requires ReportsTell(reports, fired) && ReportsBelow(reports, run) && FiredBelow(fired, run + 1)
    ensures ReportsTell(reports, fired[run := reason]) && FiredBelow(fired[run := reason], run + 1)
  {
  }

  lemma ReportsByClient(s: State, l: ClientLabel)
    requires ClientInv(s) && ReportsInv(s) && ClientEnabled(s, l)
    ensures ReportsInv(StepClient(s, l)) == true
  {
    match l
    case ReturnSpawner => ReportsReturn(s);
    case WatchFires(reason) => ReportsFire(s, reason);
    case _ => ReportsByClientRest(s, l);
  }

  lemma ReportsReturn(s: State)
    requires ClientInv(s) && ReportsInv(s) && ClientEnabled(s, ReturnSpawner)
    ensures ReportsInv(StepClient(s, ReturnSpawner))
  {
    OneMoreReport(s.h.reports, s.h.fired, ReportOf(s.client.run, s.client.reply.value, s.killed), s.nextRun);
  }

  lemma ReportsFire(s: State, reason: Reason)
    requires ClientInv(s) && ReportsInv(s) && ClientEnabled(s, WatchFires(reason))
    ensures ReportsInv(StepClient(s, WatchFires(reason)))
  {
    if !DoneClosed(s.client) {
      FiresNow(s.h.reports, s.h.fired, s.client.run, reason);
    }
  }

  lemma ReportsByClientRest(s: State, l: ClientLabel)
    requires ClientInv(s) && ReportsInv(s) && ClientEnabled(s, l) && !l.ReturnSpawner? && !l.WatchFires?
    ensures ReportsInv(StepClient(s, l))
  {
  }

  lemma ReportsUntouched(s: State, t: State)
    requires ReportsInv(s) && t.client == s.client && t.watch == s.watch && t.killed == s.killed && t.nextRun == s.nextRun
    requires t.h.fired == s.h.fired && t.h.reports == s.h.reports
    ensures ReportsInv(t)
  {
  }

  lemma ReceiveReportsNothing(s: State)
    requires SpawnerEnabled(s, Receive)
    ensures var t := StepReceive(s);
      && t.client == s.client && t.watch == s.watch && t.killed == s.killed && t.nextRun == s.nextRun
      && t.h.fired == s.h.fired && t.h.reports == s.h.reports
  {
  }

  lemma SpawnerReportsNothing(s: State, l: SpawnerLabel)
    requires SpawnerEnabled(s, l)
    ensures var t := StepSpawner(s, l);
      && t.client == s.client && t.watch == s.watch && t.killed == s.killed && t.nextRun == s.nextRun
      && t.h.fired == s.h.fired && t.h.reports == s.h.reports
  {
    if l.Receive? {
      ReceiveReportsNothing(s);
    }
  }

  lemma ObserverReportsNothing(s: State, l: ObserverLabel)
    requires ObserverEnabled(s, l)
    ensures var t := StepObserver(s, l);
      && t.client == s.client && t.watch == s.watch && t.killed == s.killed && t.nextRun == s.nextRun
      && t.h.fired == s.h.fired && t.h.reports == s.h.reports
  {
  }

  lemma ReportsStep(s: State, l: Label)
    requires ClientInv(s) && ReportsInv(s) && Enabled(s, l)
    ensures ReportsInv(Step(s, l)) == true
  {
    match l
    case OfClient(c) => ReportsByClient(s, c);
    case OfSpawner(p) =>
      SpawnerReportsNothing(s, p);
      ReportsUntouched(s, StepSpawner(s, p));
    case OfObserver(o) =>
      ObserverReportsNothing(s, o);
      ReportsUntouched(s, StepObserver(s, o));
  }

  // Kills come from watchers that fired.

  predicate KillsFired(q: seq<Message>, fired: map<nat, Reason>) {
    forall i | 0 <= i < |q| && q[i].KillRequest? :: q[i].run in fired
  }

  predicate CausesFired(causes: set<Cause>, fired: map<nat, Reason>) {
    forall c | c in causes && c.ByKill? :: c.run in fired
  }

  predicate SignalsFired(signals: seq<Signal>, fired: map<nat, Reason>) {
    forall i | 0 <= i < |signals| :: CausesFired(signals[i].causes, fired)
  }

  ghost predicate KillsInv(s: State) {
    && KillsFired(s.toSpawner, s.h.fired) && CausesFired(s.orders, s.h.fired) && SignalsFired(s.h.signals, s.h.fired)
    && (s.observer.Ordered? ==> CausesFired({s.observer.cause}, s.h.fired))
    && (s.watch.Stopping? ==> s.watch.run in s.h.fired)
  }

  lemma OneMoreFired(signals: seq<Signal>, causes: set<Cause>, pid: int, fired: map<nat, Reason>)
    requires SignalsFired(signals, fired) && CausesFired(causes, fired)
    ensures SignalsFired(signals + [Signal(causes, pid)], fired)
  {
  }

  lemma KillsByClient(s: State, l: ClientLabel)
    requires KillsInv(s) && ClientEnabled(s, l)
    ensures KillsInv(StepClient(s, l))
  {
  }

  lemma KillsBySpawner(s: State, l: SpawnerLabel)
    requires KillsInv(s) && SpawnerEnabled(s, l)
    ensures KillsInv(StepSpawner(s, l))
  {
    if l.RecordStart? {
      OneMoreFired(s.h.signals, s.orders, s.spawner.pid, s.h.fired);
    }
  }

  lemma KillsByObserver(s: State, l: ObserverLabel)
    requires KillsInv(s) && ObserverEnabled(s, l)
    ensures KillsInv(StepObserver(s, l))
  {
    if l.ObserverStops? && s.pgid.Just? {
      OneMoreFired(s.h.signals, {s.observer.cause}, s.pgid.value, s.h.fired);
    }
  }

  lemma KillsStep(s: State, l: Label)
    requires KillsInv(s) && Enabled(s, l)
    ensures KillsInv(Step(s, l)) == true
  {
    match l
    case OfClient(c) => KillsByClient(s, c);
    case OfSpawner(p) => KillsBySpawner(s, p);
    case OfObserver(o) => KillsByObserver(s, o);
  }

  // In every state of every execution.

  lemma {:induction false} ReportsHold(states: seq<State>, labels: seq<Label>, i: nat)
    requires Execution(states, labels) && i < |states|
    ensures ReportsInv(states[i]) == true && KillsInv(states[i]) == true
  {
    if i > 0 {
      ReportsHold(states, labels, i - 1);
      InvHolds(states, labels, i - 1);
      ReportsStep(states[i - 1], labels[i - 1]);
      KillsStep(states[i - 1], labels[i - 1]);
    }
  }

  /** A run says that it was stopped exactly when its command started and its own watcher
      decided to kill before the answer came in, and for that watcher's reason. */
  lemma ReportTellsTheKill(states: seq<State>, labels: seq<Label>, i: nat, k: nat)
    requires Execution(states, labels) && i < |states| && k < |states[i].h.reports|
    ensures var h, r := states[i].h, states[i].h.reports[k];
      && (r.stopped.Just? <==> r.started && r.run in h.fired)
      && (r.stopped.Just? ==> r.stopped.value == h.fired[r.run])
  {
    ReportsHold(states, labels, i);
  }

  /** Every kill that signals a group comes from a watcher that decided to kill. */
  lemma SignalsWereDecided(states: seq<State>, labels: seq<Label>, i: nat, k: nat, cause: Cause)
    requires Execution(states, labels) && i < |states|
    requires k < |states[i].h.signals| && cause in states[i].h.signals[k].causes && cause.ByKill?
    ensures cause.run in states[i].h.fired
  {
    ReportsHold(states, labels, i);
  }
}
