/** What the spawner protocol guarantees in every state of every execution.

    (A predicate compared with true in a contract is used as one fact, so that the verifier
    does not prove its clauses again.) */
module SpawnerSafety {
  import opened SpawnerProtocol
  import opened SpawnerInvariant

  /** A kill sent for one run never signals the process group of another. */
  lemma KillsStayWithTheirRun(states: seq<State>, labels: seq<Label>, i: nat, k: nat, cause: Cause)
    requires Execution(states, labels) && i < |states|
    requires k < |states[i].h.signals| && cause in states[i].h.signals[k].causes && cause.ByKill?
    ensures states[i].h.signals[k].pid in states[i].owner
    ensures states[i].owner[states[i].h.signals[k].pid] == cause.run
  {
    InvHolds(states, labels, i);
  }

  /** The watcher of the spawner only ever meets kills of the command it watches,
      or the end of the stream; no request is lost to it. */
  lemma NoRequestIsSwallowed(states: seq<State>, labels: seq<Label>, i: nat)
    requires Execution(states, labels) && i < |states|
    ensures states[i].h.swallowed == []
    ensures states[i].observer.Reading? && states[i].toSpawner != [] ==>
              Serving(states[i].spawner)
              && (states[i].toSpawner[0].Cut? || states[i].toSpawner[0] == KillRequest(Served(states[i].spawner)))
  {
    InvHolds(states, labels, i);
  }

  /** A watch is never ended by the wake byte of an earlier run. */
  lemma WakePipeIsEmptyAtRequest(states: seq<State>, labels: seq<Label>, i: nat)
    requires Execution(states, labels) && i < |labels| && labels[i] == OfSpawner(Receive)
    ensures states[i].wake == 0 && states[i + 1].wake == 0
    ensures states[i].observer.Off? || states[i].observer.Done?
  {
    InvHolds(states, labels, i);
  }

  /** Requests are accepted once each, in order, and each is answered exactly once
      before the next is accepted. The spawner leaves only for a himorime that is gone or
      a request it cannot read, so while himorime lives an accepted request stays
      unanswered only in a spawner that is still serving it or that was killed. */
  lemma OneReplyPerRequest(states: seq<State>, labels: seq<Label>, i: nat)
    requires Execution(states, labels) && i < |states|
    ensures var h := states[i].h;
      && (forall a, b | 0 <= a < b < |h.accepted| :: h.accepted[a] < h.accepted[b])
      && h.replied <= h.accepted
      && (states[i].spawner.Receiving? ==> h.replied == h.accepted)
      && (Serving(states[i].spawner) ==> h.accepted == h.replied + [Served(states[i].spawner)])
    ensures states[i].clientOpen ==> states[i].spawner != Exited(true)
  {
    InvHolds(states, labels, i);
  }

  /** Replies carry no number, yet every answer himorime gets is for the run that
      is waiting for it. */
  lemma AnswersBelongToTheirRun(states: seq<State>, labels: seq<Label>, i: nat, k: nat)
    requires Execution(states, labels) && i < |states| && k < |states[i].h.answers|
    ensures states[i].h.answers[k].awaited == states[i].h.answers[k].got
  {
    InvHolds(states, labels, i);
  }

  /** The command of a run is started at most once, counting the start by Run itself
      after a request that could not be sent. */
  lemma StartedAtMostOnce(states: seq<State>, labels: seq<Label>, i: nat, a: nat, b: nat)
    requires Execution(states, labels) && i < |states| && a < b < |states[i].h.starts|
    ensures states[i].h.starts[a].run != states[i].h.starts[b].run
  {
    InvHolds(states, labels, i);
  }

  /** Every command runs in the environment resolved for its own run, also when the
      request only said to reuse the previous one. */
  lemma OwnEnvironment(states: seq<State>, labels: seq<Label>, i: nat, a: nat)
    requires Execution(states, labels) && i < |states| && a < |states[i].h.starts|
    ensures states[i].h.starts[a].env == Just(states[i].h.starts[a].resolved)
  {
    InvHolds(states, labels, i);
  }

  /** Whatever the order of kill and started: once both critical sections are over,
      the group was signalled. */
  lemma AnOrderedStopReachesTheGroup(states: seq<State>, labels: seq<Label>, i: nat)
    requires Execution(states, labels) && i < |states|
    ensures Serving(states[i].spawner) && states[i].orders != {} && states[i].pgid.Just? ==>
              states[i].pgid.value !in states[i].live
  {
    InvHolds(states, labels, i);
  }

  /** Before a reply is sent, and before the spawner leaves for an owner that is
      gone, every group it started was stopped; there is never more than one. */
  lemma StoppedBeforeReply(states: seq<State>, labels: seq<Label>, i: nat)
    requires Execution(states, labels) && i < |states|
    ensures states[i].spawner.Replying? || states[i].spawner.Receiving? || states[i].spawner == Exited(true) ==>
              states[i].live == {}
    ensures Serving(states[i].spawner) ==> |states[i].live| <= 1
  {
    InvHolds(states, labels, i);
    var s := states[i];
    match CurrentGroup(s.spawner)
    case Just(pid) => if Serving(s.spawner) { SubsetOfOne(s.live, pid); }
    case Nothing =>
  }

  lemma SubsetOfOne(a: set<int>, x: int)
    requires a <= {x}
    ensures |a| <= 1
  {
    assert a == {} || a == {x};
  }

  /** At either end, at most one thread writes the socket and at most one reads it,
      so frames of two threads never interleave and no frame is split between two
      readers. */
  lemma OneThreadPerEnd(states: seq<State>, labels: seq<Label>, i: nat)
    requires Execution(states, labels) && i < |states|
    ensures !(states[i].client.Sending? && states[i].watch.Stopping?)
    ensures !(states[i].spawner.Receiving? && states[i].observer.Reading?)
  {
    InvHolds(states, labels, i);
  }

  /** Nothing is left to do on either side: himorime has no run under way, and the
      spawner is gone or waits for the next request. */
  predicate AtRest(s: State) {
    && (s.client.Idle? || s.client.Gone?)
    && (s.spawner.Exited? || (s.spawner.Receiving? && s.toSpawner == [] && s.clientOpen))
  }

  /** A step the program takes by itself. Not among them: a new run, a timeout, a
      failing call, a process that dies. */
  predicate Own(l: Label) {
    match l
    case OfClient(c) => !c.BeginRun? && !c.SetupFails? && !c.SendFailed? && !c.WatchFires? && !c.ClientDies?
    case OfSpawner(p) => !p.StartFails? && !p.SpawnerDies?
    case OfObserver(o) => !o.PollFails?
  }

  /** Process groups do not run out. */
  lemma {:induction false} FreshPid(pids: set<int>) returns (next: int)
    ensures forall p | p in pids :: p < next
    decreases pids
  {
    if p :| p in pids {
      var above := FreshPid(pids - {p});
      next := if above <= p then p + 1 else above;
      forall q | q in pids
        ensures q < next
      {
        assert q == p || q in pids - {p};
      }
    } else {
      next := 0;
    }
  }

  /** The protocol never deadlocks: unless it is at rest, some thread can take a
      step of its own, whatever was sent, killed, refused or left unfinished. */
  lemma NeverStuck(states: seq<State>, labels: seq<Label>, i: nat) returns (l: Label)
    requires Execution(states, labels) && i < |states| && !AtRest(states[i])
    ensures Own(l) && Enabled(states[i], l)
  {
    InvHolds(states, labels, i);
    var s := states[i];
    if Serving(s.spawner) {
      l := ServingStep(s);
    } else if s.spawner.Receiving? && s.toSpawner != [] {
      l := OfSpawner(Receive);
    } else if s.spawner.Receiving? && !s.clientOpen {
      l := OfSpawner(OwnerGone);
    } else {
      l := ClientStepAtLast(s);
    }
  }

  /** A command being served can always be brought to its end; in particular the
      watch always ends after the wake byte, and its recv never blocks. */
  lemma ServingStep(s: State) returns (l: Label)
    requires Inv(s) && Serving(s.spawner)
    ensures Own(l) && Enabled(s, l)
  {
    match s.spawner
    case Configured(_, _, _) => l := OfSpawner(StartObserver);
    case Watched(_, _, _) =>
      var pid := FreshPid(s.owner.Keys);
      l := OfSpawner(StartCommand(pid));
    case Launched(_, _) => l := OfSpawner(RecordStart);
    case Waiting(_, _) => l := OfSpawner(CommandExits);
    case Reaped(_, _) => l := OfSpawner(WriteWake);
    case Woken(_, _) =>
      match s.observer {
        case Polling => l := OfObserver(ObserverWoken);
        case Reading => l := OfObserver(ObserverReceives);
        case Ordered(_) => l := OfObserver(ObserverStops);
        case Draining => l := OfObserver(Drained);
        case Done => l := OfSpawner(JoinObserver);
      }
    case Closing(_, _) => l := OfSpawner(CloseTree);
    case Replying(_) => l := OfSpawner(if s.clientOpen then SendReply else ReplyRefused);
  }

  lemma ClientStepAtLast(s: State) returns (l: Label)
    requires Inv(s) && !AtRest(s) && !Serving(s.spawner)
    requires s.spawner.Exited? || (s.toSpawner == [] && s.clientOpen)
    ensures Own(l) && Enabled(s, l)
  {
    match s.client
    case Sending(_, _) => l := OfClient(SendDone(true));
    case Awaiting(_) => l := OfClient(if s.toClient != [] then ReplyReceived else ReplyFailed);
    case Answered(_, _) => l := OfClient(CloseDone);
    case Joining(_, reply) =>
      if s.watch.Watching? {
        l := OfClient(WatchEnds);
      } else if s.watch.Stopping? {
        l := OfClient(KillSent(true));
      } else {
        l := OfClient(if reply.Just? then ReturnSpawner else DiscardSpawner);
      }
    case Direct(_, _) => l := OfClient(StartDirectly);
  }

  // A stop reaches a command that never exits.

  /** A stop is on its way: himorime's watcher decided on it, it is in the queue or ordered,
      or himorime's end is closed. */
  predicate StopUnderWay(s: State) {
    s.watch.Stopping? || s.toSpawner != [] || !s.clientOpen || s.observer.Ordered?
  }

  /** The command is waited for, its group was not stopped, and the spawner's watcher can
      still poll. */
  predicate Running(s: State, pid: int) {
    s.spawner.Waiting? && s.spawner.pid == pid && pid in s.live && !s.observer.Draining?
  }

  /** Some step other than the command's own exit brings the stop closer. */
  lemma StopAdvances(s: State, pid: int) returns (l: Label)
    requires Inv(s) && Running(s, pid) && StopUnderWay(s)
    ensures Own(l) && l != OfSpawner(CommandExits) && Enabled(s, l)
  {
    match s.observer
    case Ordered(_) => l := OfObserver(ObserverStops);
    case Reading => l := OfObserver(ObserverReceives);
    case Polling =>
      if s.toSpawner != [] || !s.clientOpen {
        l := OfObserver(ObserverReady);
      } else {
        l := OfClient(KillSent(true));
      }
  }

  /** Steps that take the command, the spawner or its watcher away. */
  predicate TakesAway(l: Label) {
    l == OfSpawner(CommandExits) || l == OfSpawner(SpawnerDies) || l == OfObserver(PollFails)
  }

  /** No step loses the stop. */
  lemma StopIsKept(s: State, l: Label, pid: int)
    requires Inv(s) && Enabled(s, l) && Running(s, pid) && StopUnderWay(s) && !TakesAway(l)
    ensures StoppedOrComing(Step(s, l), pid) == true
  {
    match l
    case OfClient(c) => StopByClient(s, c, pid);
    case OfSpawner(_) =>
    case OfObserver(o) => StopByObserver(s, o, pid);
  }

  lemma StopByClient(s: State, l: ClientLabel, pid: int)
    requires ClientInv(s) && WireInv(s) && ClientEnabled(s, l) && Running(s, pid) && StopUnderWay(s)
    ensures StoppedOrComing(StepClient(s, l), pid)
  {
  }

  lemma StopByObserver(s: State, l: ObserverLabel, pid: int)
    requires WireInv(s) && WakeInv(s) && TreeInv(s) && ObserverEnabled(s, l) && !l.PollFails?
    requires Running(s, pid) && StopUnderWay(s)
    ensures StoppedOrComing(StepObserver(s, l), pid)
  {
  }

  /** A group that was stopped stays stopped. */
  predicate Stopped(live: set<int>, owner: map<int, nat>, pid: int) {
    pid in owner && pid !in live
  }

  lemma StoppedBySpawner(s: State, l: SpawnerLabel, pid: int)
    requires SpawnerEnabled(s, l) && Stopped(s.live, s.owner, pid)
    ensures Stopped(StepSpawner(s, l).live, StepSpawner(s, l).owner, pid)
  {
  }

  lemma StoppedByClient(s: State, l: ClientLabel)
    requires ClientEnabled(s, l)
    ensures StepClient(s, l).live == s.live && StepClient(s, l).owner == s.owner
  {
  }

  lemma StoppedByObserver(s: State, l: ObserverLabel)
    requires ObserverEnabled(s, l)
    ensures StepObserver(s, l).live <= s.live && StepObserver(s, l).owner == s.owner
  {
  }

  predicate StoppedOrComing(s: State, pid: int) {
    Stopped(s.live, s.owner, pid) || (Running(s, pid) && StopUnderWay(s))
  }

  lemma StopStep(s: State, l: Label, pid: int)
    requires Inv(s) && Enabled(s, l) && StoppedOrComing(s, pid) && !TakesAway(l)
    ensures StoppedOrComing(Step(s, l), pid) == true
  {
    if Stopped(s.live, s.owner, pid) {
      match l
      case OfClient(c) => StoppedByClient(s, c);
      case OfSpawner(p) => StoppedBySpawner(s, p, pid);
      case OfObserver(o) => StoppedByObserver(s, o);
    } else {
      StopIsKept(s, l, pid);
    }
  }

  /** While the command does not exit and the spawner lives and polls, a stop under way
      either reached the group or still is under way. */
  lemma {:induction false} StopGoesOn(states: seq<State>, labels: seq<Label>, i: nat, n: nat, pid: int)
    requires Execution(states, labels) && i <= n < |states| && StoppedOrComing(states[i], pid)
    requires forall k | i <= k < n :: !TakesAway(labels[k])
    ensures StoppedOrComing(states[n], pid) == true
  {
    if i < n {
      StopGoesOn(states, labels, i, n - 1, pid);
      InvHolds(states, labels, n - 1);
      StopStep(states[n - 1], labels[n - 1], pid);
    }
  }

  /** A command that never exits is stopped: once a timeout fired, a kill was sent or himorime
      is gone, no execution comes to its end with the group still running. By RunsEnd, it
      does come to its end. */
  lemma StopReachesTheCommand(states: seq<State>, labels: seq<Label>, i: nat, n: nat, pid: int)
    requires Execution(states, labels) && i <= n < |states|
    requires Running(states[i], pid) && StopUnderWay(states[i])
    requires forall k | i <= k < n :: !TakesAway(labels[k])
    ensures (forall l | Own(l) && Enabled(states[n], l) :: l == OfSpawner(CommandExits)) ==> pid !in states[n].live
  {
    StopGoesOn(states, labels, i, n, pid);
    InvHolds(states, labels, n);
    if pid in states[n].live {
      var l := StopAdvances(states[n], pid);
    }
  }

  // Every run ends.

  function Weight(m: Message): nat {
    match m
    case RunRequest(_, _, _, _, _) => 20
    case KillRequest(_) => 4
    case Cut => 3
  }

  function Weights(q: seq<Message>): nat {
    if q == [] then 0 else Weight(q[0]) + Weights(q[1..])
  }

  lemma {:induction false} WeightsAppend(q: seq<Message>, m: Message)
    ensures Weights(q + [m]) == Weights(q) + Weight(m)
  {
    if q == [] {
      assert q + [m] == [m] && [m][1..] == [];
    } else {
      WeightsAppend(q[1..], m);
      assert (q + [m])[1..] == q[1..] + [m];
    }
  }

  function ClientRank(c: Client): nat {
    match c
    case Gone => 0
    case Idle => 1
    case Direct(_, _) => 1
    case Joining(_, _) => 2
    case Answered(_, _) => 3
    case Awaiting(_) => 4
    case Sending(_, _) => 31
  }

  function WatchRank(w: ClientWatch): nat {
    match w
    case Watching(_) => 6
    case Stopping(_) => 5
    case _ => 0
  }

  function SpawnerRank(p: Spawner): nat {
    match p
    case Exited(_) => 0
    case Receiving => 1
    case Replying(_) => 3
    case Closing(_, _) => 4
    case Woken(_, _) => 5
    case Reaped(_, _) => 6
    case Waiting(_, _) => 7
    case Launched(_, _) => 8
    case Watched(_, _, _) => 9
    case Configured(_, _, _) => 12
  }

  function ObserverRank(o: Observer): nat {
    match o
    case Ordered(_) => 3
    case Polling => 2
    case Reading => 1
    case Draining => 1
    case _ => 0
  }

  /** How much is left to do before the next run must begin. */
  function Measure(s: State): nat {
    Weights(s.toSpawner) + |s.toClient| + (if s.gone then 0 else 4)
    + ClientRank(s.client) + WatchRank(s.watch) + SpawnerRank(s.spawner) + ObserverRank(s.observer)
  }

  predicate Begins(l: Label) {
    l.OfClient? && l.c.BeginRun?
  }

  lemma MeasureDrops(s: State, l: Label)
    requires Inv(s) && Enabled(s, l)
    ensures if Begins(l) then Measure(Step(s, l)) == Measure(s) + 30 else Measure(Step(s, l)) < Measure(s)
    ensures Step(s, l).nextRun == s.nextRun + if Begins(l) then 1 else 0
  {
    match l
    case OfClient(c) => ClientDrops(s, c);
    case OfSpawner(p) => SpawnerDrops(s, p);
    case OfObserver(o) => ObserverDrops(s, o);
  }

  lemma ClientDrops(s: State, l: ClientLabel)
    requires ClientInv(s) && ClientEnabled(s, l)
    ensures var t := StepClient(s, l);
      if l.BeginRun? then Measure(t) == Measure(s) + 30 && t.nextRun == s.nextRun + 1
      else Measure(t) < Measure(s) && t.nextRun == s.nextRun
  {
    if l.SendDone? {
      WeightsAppend(s.toSpawner, Request(s.client.run, s.client.resolved, s.clientEnv, l.readable));
    } else if l.KillSent? {
      WeightsAppend(s.toSpawner, KillRequest(s.watch.run));
    } else if l.SendFailed? || l.ClientDies? {
      WeightsAppend(s.toSpawner, Cut);
    }
  }

  lemma ReceiveDrops(s: State)
    requires SpawnerEnabled(s, Receive)
    ensures Measure(StepReceive(s)) < Measure(s)
  {
  }

  lemma SpawnerDrops(s: State, l: SpawnerLabel)
    requires WakeInv(s) && SpawnerEnabled(s, l)
    ensures Measure(StepSpawner(s, l)) < Measure(s) && StepSpawner(s, l).nextRun == s.nextRun
  {
    if l.Receive? {
      ReceiveDrops(s);
    } else {
      assert StepSpawner(s, l).toSpawner == s.toSpawner;
    }
  }

  lemma ObserverDrops(s: State, l: ObserverLabel)
    requires (s.observer.Reading? ==> !s.gone) && ObserverEnabled(s, l)
    ensures Measure(StepObserver(s, l)) < Measure(s) && StepObserver(s, l).nextRun == s.nextRun
  {
  }

  /** Runs end: an execution that begins n runs has at most 31 n + 6 steps, for
      every timing of timeouts, cancellations, failures and deaths. Together with
      NeverStuck, every run comes to an answer or to the end of a process, as
      soon as its command exits. */
  lemma {:induction false} RunsEnd(states: seq<State>, labels: seq<Label>)
    requires Execution(states, labels)
    ensures |labels| + Measure(states[|labels|]) <= 6 + 31 * states[|labels|].nextRun
  {
    var n := |labels|;
    if n > 0 {
      var before, steps := states[..n], labels[..n - 1];
      assert Execution(before, steps);
      RunsEnd(before, steps);
      InvHolds(states, labels, n - 1);
      MeasureDrops(states[n - 1], labels[n - 1]);
    }
  }
}
