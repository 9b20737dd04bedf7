/** The inductive invariant of the spawner protocol, in five parts, each kept by
    every step of every thread.

    (A predicate compared with true in a contract is used as one fact, so that the verifier
    does not prove its clauses again.) */
module SpawnerInvariant {
  import opened SpawnerProtocol

  predicate NoRun(q: seq<Message>) {
    forall i | 0 <= i < |q| :: !q[i].RunRequest?
  }

  predicate KillsOf(q: seq<Message>, run: nat) {
    forall i | 0 <= i < |q| :: q[i].KillRequest? ==> q[i].run == run
  }

  predicate KillsBelow(q: seq<Message>, run: nat) {
    forall i | 0 <= i < |q| :: q[i].KillRequest? ==> q[i].run < run
  }

  predicate CutOnlyLast(q: seq<Message>) {
    forall i | 0 <= i < |q| :: q[i].Cut? ==> i == |q| - 1
  }

  predicate NoCut(q: seq<Message>) {
    forall i | 0 <= i < |q| :: !q[i].Cut?
  }

  /** A pending request is the only one; the kills before it are for earlier runs
      and the kills after it are for its run. */
  predicate PendingAt(q: seq<Message>, i: nat) {
    i < |q| && q[i].RunRequest? && NoRun(q[i + 1..]) && KillsOf(q[i + 1..], q[i].run)
    && NoRun(q[..i]) && KillsBelow(q[..i], q[i].run)
  }

  ghost predicate ClientInv(s: State) {
    match s.client
    case Idle => s.watch.NoWatch? && s.clientOpen
    case Sending(run, _) => s.watch.NoWatch? && s.clientOpen && run + 1 == s.nextRun
    case Direct(run, _) => s.watch.NoWatch? && !s.clientOpen && run + 1 == s.nextRun
    case Gone => (s.watch.NoWatch? || s.watch.Finished?) && !s.clientOpen
    case _ =>
      && s.clientOpen && s.client.run + 1 == s.nextRun && !s.watch.NoWatch?
      && (!s.watch.Finished? ==> s.watch.run == s.client.run)
  }

  /** himorime is not waiting for an answer: nothing of a run is under way. */
  predicate Quiet(s: State) {
    s.toClient == [] && !Serving(s.spawner) && (!s.spawner.Exited? ==> NoRun(s.toSpawner))
  }

  /** What himorime wrote: a cut only at its end, no kill of a run to come. */
  predicate Written(q: seq<Message>, open: bool, next: nat) {
    CutOnlyLast(q) && (open ==> NoCut(q)) && KillsBelow(q, next)
  }

  /** Any request in the queue is that of the newest run. */
  predicate NewestPending(q: seq<Message>, next: nat) {
    forall i | 0 <= i < |q| && q[i].RunRequest? :: PendingAt(q, i) && q[i].run + 1 == next
  }

  ghost predicate SomePending(q: seq<Message>) {
    exists i: nat :: PendingAt(q, i)
  }

  /** What a queue may hold while a command is served. */
  predicate OnlyKillsOf(q: seq<Message>, run: nat) {
    NoRun(q) && KillsOf(q, run)
  }

  /** The reply on its way is the one himorime waits for. */
  predicate ReplyDue(s: State) {
    |s.toClient| == 1 && s.toClient[0].run + 1 == s.nextRun && (s.clientOpen ==> s.client.Awaiting?)
  }

  ghost predicate SpawnerWire(s: State) {
    && (s.spawner.Receiving? ==> NewestPending(s.toSpawner, s.nextRun))
    && (s.spawner.Receiving? && s.toClient != [] ==> NoRun(s.toSpawner))
    && (Serving(s.spawner) ==>
          Served(s.spawner) + 1 == s.nextRun && OnlyKillsOf(s.toSpawner, Served(s.spawner)) && s.toClient == [])
    && (s.toClient != [] ==> ReplyDue(s))
  }

  ghost predicate ClientWire(s: State) {
    match s.client
    case Idle => Quiet(s)
    case Sending(run, _) => Quiet(s) && KillsBelow(s.toSpawner, run)
    case Direct(_, _) => Quiet(s)
    case Awaiting(_) => s.toClient == [] && s.spawner.Receiving? ==> SomePending(s.toSpawner)
    case Answered(_, reply) => if reply.Just? then Quiet(s) else s.spawner.Exited? && s.toClient == []
    case Joining(_, reply) => if reply.Just? then Quiet(s) else s.spawner.Exited? && s.toClient == []
    case Gone => true
  }

  ghost predicate WireInv(s: State) {
    Written(s.toSpawner, s.clientOpen, s.nextRun) && SpawnerWire(s) && ClientWire(s)
  }

  /** The group of the command being served, once there is one. */
  function CurrentGroup(p: Spawner): Maybe<int> {
    match p
    case Launched(_, pid) => Just(pid)
    case Waiting(_, pid) => Just(pid)
    case Reaped(_, group) => group
    case Woken(_, group) => group
    case Closing(_, pid) => Just(pid)
    case _ => Nothing
  }

  /** The wake byte belongs to this request: the pipe is empty until it is written
      and again once the watch took it. */
  ghost predicate WakeInv(s: State) {
    match s.spawner
    case Receiving => s.wake == 0 && (s.observer.Off? || s.observer.Done?)
    case Configured(_, _, _) => s.wake == 0 && s.observer.Off?
    case Woken(_, _) => !s.observer.Off? && s.wake == if s.observer.Done? then 0 else 1
    case Closing(_, _) => s.wake == 0 && s.observer.Done?
    case Replying(_) => s.wake == 0 && s.observer.Done?
    case Exited(_) => s.observer.Off? || s.observer.Done?
    case _ => s.wake == 0 && !s.observer.Off? && !s.observer.Done?
  }

  predicate OrdersOf(orders: set<Cause>, run: nat) {
    forall c | c in orders && c.ByKill? :: c.run == run
  }

  predicate OrderOf(o: Observer, run: nat) {
    o.Ordered? && o.cause.ByKill? ==> o.cause.run == run
  }

  /** Every stop ordered is one for the run being served, or for the end of the stream, which
      is noticed at most once and never forgotten. */
  ghost predicate OrdersInv(s: State) {
    && (Serving(s.spawner) ==> OrdersOf(s.orders, Served(s.spawner)) && OrderOf(s.observer, Served(s.spawner)))
    && (s.observer == Ordered(ByEof) ==> s.gone)
    && (Serving(s.spawner) && s.gone ==> !s.clientOpen && (s.observer == Ordered(ByEof) || ByEof in s.orders))
    && (s.observer.Reading? ==> !s.gone && (s.toSpawner != [] || !s.clientOpen))
  }

  /** What is known of the tree once the start was recorded, or there is nothing to record. */
  predicate Recorded(group: Maybe<int>, run: nat, live: set<int>, owner: map<int, nat>, pgid: Maybe<int>, stopped: bool) {
    && pgid == group
    && match group
       case Nothing => live == {}
       case Just(pid) => live <= {pid} && pid in owner && owner[pid] == run && (stopped ==> live == {})
  }

  ghost predicate TreeInv(s: State) {
    && s.live <= s.owner.Keys
    && match s.spawner
       case Receiving => s.live == {}
       case Replying(_) => s.live == {}
       case Exited(ownerGone) => ownerGone ==> s.live == {} && !s.clientOpen
       case Configured(_, _, _) => s.live == {} && s.pgid.Nothing? && s.orders == {}
       case Watched(_, _, _) => s.live == {} && s.pgid.Nothing?
       case Launched(run, pid) => s.pgid.Nothing? && Recorded(Just(pid), run, s.live, s.owner, Just(pid), false)
       case _ => Recorded(CurrentGroup(s.spawner), s.spawner.run, s.live, s.owner, s.pgid, s.orders != {})
  }

  /** A request will get the environment himorime resolved for it. */
  predicate Resolves(m: Message, kept: Maybe<Env>)
    requires m.RunRequest?
  {
    Just(m.resolved) == if m.sameEnv then kept else m.env
  }

  predicate PendingResolves(q: seq<Message>, kept: Maybe<Env>) {
    forall i | 0 <= i < |q| && q[i].RunRequest? :: Resolves(q[i], kept)
  }

  predicate PendingIs(q: seq<Message>, cached: Maybe<Env>) {
    forall i | 0 <= i < |q| && q[i].RunRequest? :: Just(q[i].resolved) == cached
  }

  /** The environment a pending request will get is the one himorime resolved for
      it, and between requests both caches agree. */
  ghost predicate EnvInv(s: State) {
    && (s.spawner.Receiving? ==>
          PendingResolves(s.toSpawner, s.spawnerEnv) && (s.clientOpen ==> PendingIs(s.toSpawner, s.clientEnv)))
    && (s.clientOpen && !s.spawner.Exited? && NoRun(s.toSpawner) ==> s.clientEnv == s.spawnerEnv)
    && (s.spawner.Configured? || s.spawner.Watched? ==> s.spawner.env == Just(s.spawner.resolved))
  }

  predicate NotStarted(starts: seq<Start>, run: nat) {
    forall i | 0 <= i < |starts| :: starts[i].run != run
  }

  predicate PendingNotStarted(q: seq<Message>, starts: seq<Start>) {
    forall i | 0 <= i < |q| && q[i].RunRequest? :: NotStarted(starts, q[i].run)
  }

  /** No run was started twice, and every start got the environment resolved for it. */
  predicate StartsSound(starts: seq<Start>, next: nat) {
    && (forall i | 0 <= i < |starts| :: starts[i].run < next)
    && (forall i, j | 0 <= i < j < |starts| :: starts[i].run != starts[j].run)
    && (forall i | 0 <= i < |starts| :: starts[i].env == Just(starts[i].resolved))
  }

  /** And a run still to be started was not. */
  ghost predicate StartsInv(s: State) {
    && StartsSound(s.h.starts, s.nextRun)
    && (s.client.Sending? || s.client.Direct? ==> NotStarted(s.h.starts, s.client.run))
    && (s.spawner.Configured? || s.spawner.Watched? ==> NotStarted(s.h.starts, s.spawner.run))
    && (s.spawner.Receiving? ==> PendingNotStarted(s.toSpawner, s.h.starts))
  }

  /** Only kills of the run a group belongs to signal it. */
  predicate SignalsSound(signals: seq<Signal>, owner: map<int, nat>) {
    forall i | 0 <= i < |signals| :: signals[i].pid in owner && OrdersOf(signals[i].causes, owner[signals[i].pid])
  }

  ghost predicate SignalsInv(s: State) {
    SignalsSound(s.h.signals, s.owner)
  }

  predicate Matched(answers: seq<Answer>) {
    forall i | 0 <= i < |answers| :: answers[i].awaited == answers[i].got
  }

  predicate Increasing(runs: seq<nat>, next: nat) {
    && (forall i | 0 <= i < |runs| :: runs[i] < next)
    && (forall i, j | 0 <= i < j < |runs| :: runs[i] < runs[j])
  }

  predicate PendingNotAccepted(q: seq<Message>, accepted: seq<nat>) {
    forall i | 0 <= i < |q| && q[i].RunRequest? :: q[i].run !in accepted
  }

  predicate RepliesSound(p: Spawner, accepted: seq<nat>, replied: seq<nat>) {
    match p
    case Receiving => accepted == replied
    case Exited(_) => replied <= accepted && |accepted| <= |replied| + 1
    case _ => accepted == replied + [Served(p)]
  }

  /** Requests are accepted in order, each once, and answered before the next. */
  ghost predicate RepliesInv(s: State) {
    && s.h.swallowed == [] && Matched(s.h.answers) && Increasing(s.h.accepted, s.nextRun)
    && RepliesSound(s.spawner, s.h.accepted, s.h.replied)
    && (s.client.Sending? ==> s.client.run !in s.h.accepted)
    && (s.spawner.Receiving? ==> PendingNotAccepted(s.toSpawner, s.h.accepted))
  }

  ghost predicate Inv(s: State) {
    && ClientInv(s) && WireInv(s) && WakeInv(s) && OrdersInv(s) && TreeInv(s)
    && EnvInv(s) && StartsInv(s) && SignalsInv(s) && RepliesInv(s)
  }

  lemma Appended(q: seq<Message>, m: Message, run: nat, bound: nat)
    ensures NoRun(q) && !m.RunRequest? ==> NoRun(q + [m])
    ensures NoRun(q + [m]) ==> NoRun(q) && !m.RunRequest?
    ensures KillsOf(q, run) && (m.KillRequest? ==> m.run == run) ==> KillsOf(q + [m], run)
    ensures KillsBelow(q, bound) && (m.KillRequest? ==> m.run < bound) ==> KillsBelow(q + [m], bound)
    ensures NoCut(q) && !m.Cut? ==> NoCut(q + [m])
    ensures NoCut(q) ==> CutOnlyLast(q + [m])
  {
    var r := q + [m];
    assert r[|q|] == m;
    assert forall i | 0 <= i < |q| :: r[i] == q[i];
  }

  lemma AppendedPending(q: seq<Message>, m: Message, i: nat)
    requires PendingAt(q, i) && !m.RunRequest? && (m.KillRequest? ==> m.run == q[i].run)
    ensures PendingAt(q + [m], i)
  {
    var r, tail := q + [m], q[i + 1..];
    assert r[i + 1..] == tail + [m] && r[..i] == q[..i];
    Appended(tail, m, q[i].run, 0);
  }

  lemma AppendedRequest(q: seq<Message>, m: Message)
    requires NoRun(q) && m.RunRequest? && KillsBelow(q, m.run)
    ensures PendingAt(q + [m], |q|)
  {
    assert (q + [m])[..|q|] == q && (q + [m])[|q| + 1..] == [];
  }

  lemma Popped(q: seq<Message>)
    requires q != []
    ensures NoRun(q) <==> NoRun(q[1..]) && !q[0].RunRequest?
    ensures forall run | KillsOf(q, run) :: KillsOf(q[1..], run)
    ensures forall run | KillsBelow(q, run) :: KillsBelow(q[1..], run)
    ensures CutOnlyLast(q) ==> CutOnlyLast(q[1..])
    ensures NoCut(q) ==> NoCut(q[1..])
    ensures forall i | 0 < i < |q| && PendingAt(q, i) :: PendingAt(q[1..], i - 1)
    ensures PendingAt(q, 0) ==> NoRun(q[1..]) && KillsOf(q[1..], q[0].run)
  {
    var r := q[1..];
    assert forall i | 0 < i < |q| :: q[i] == r[i - 1];
    forall i | 0 < i < |q| && PendingAt(q, i)
      ensures PendingAt(r, i - 1)
    {
      assert r[i..] == q[i + 1..] && r[..i - 1] == q[..i][1..];
    }
    assert q[0 + 1..] == r;
  }

  lemma InitInv()
    ensures Inv(Init)
  {
  }

  // Every part is kept by every step of himorime.

  lemma ClientByClient(s: State, l: ClientLabel)
    requires ClientInv(s) && ClientEnabled(s, l)
    ensures ClientInv(StepClient(s, l))
  {
  }

  lemma WireSendDone(s: State, readable: bool)
    requires ClientInv(s) && WireInv(s) && ClientEnabled(s, SendDone(readable))
    ensures WireInv(StepClient(s, SendDone(readable)))
  {
    var q, m := s.toSpawner, Request(s.client.run, s.client.resolved, s.clientEnv, readable);
    Appended(q, m, s.client.run, s.nextRun);
    if s.spawner.Receiving? {
      AppendedRequest(q, m);
      assert forall i | 0 <= i < |q| :: (q + [m])[i] == q[i];
    }
  }

  /** A message appended after a pending request of the newest run, if there is one. */
  lemma PendingStays(s: State, m: Message)
    requires WireInv(s) && !m.RunRequest? && (m.KillRequest? ==> m.run + 1 == s.nextRun)
    ensures s.spawner.Receiving? ==> forall i | 0 <= i < |s.toSpawner| + 1 :: (s.toSpawner + [m])[i].RunRequest? ==>
              i < |s.toSpawner| && PendingAt(s.toSpawner + [m], i)
              && (s.toSpawner + [m])[i].run + 1 == s.nextRun && s.toClient == []
  {
    if s.spawner.Receiving? {
      var q, r := s.toSpawner, s.toSpawner + [m];
      forall i | 0 <= i < |r| && r[i].RunRequest?
        ensures i < |q| && PendingAt(r, i) && r[i].run + 1 == s.nextRun && s.toClient == []
      {
        assert i < |q| && r[i] == q[i];
        AppendedPending(q, m, i);
      }
    }
  }

  lemma WireKillSent(s: State, delivered: bool)
    requires ClientInv(s) && WireInv(s) && ClientEnabled(s, KillSent(delivered))
    ensures WireInv(StepClient(s, KillSent(delivered)))
  {
    if delivered {
      var m := KillRequest(s.watch.run);
      Appended(s.toSpawner, m, s.watch.run, s.nextRun);
      PendingStays(s, m);
      if s.client.Awaiting? && s.toClient == [] && s.spawner.Receiving? {
        var i: nat :| PendingAt(s.toSpawner, i);
        assert PendingAt(s.toSpawner + [m], i);
      }
    }
  }

  lemma WireCut(s: State, l: ClientLabel)
    requires ClientInv(s) && WireInv(s) && ClientEnabled(s, l) && (l.SendFailed? || l.ClientDies?)
    ensures WireInv(StepClient(s, l))
  {
    Appended(s.toSpawner, Cut, if Serving(s.spawner) then Served(s.spawner) else 0, s.nextRun);
    PendingStays(s, Cut);
  }

  lemma WireByClient(s: State, l: ClientLabel)
    requires ClientInv(s) && WireInv(s) && ClientEnabled(s, l)
    ensures WireInv(StepClient(s, l)) == true
  {
    match l
    case SendDone(readable) => WireSendDone(s, readable);
    case KillSent(delivered) => WireKillSent(s, delivered);
    case SendFailed(_) => WireCut(s, l);
    case ClientDies(_) => WireCut(s, l);
    case _ => WireByClientRest(s, l);
  }

  lemma WireByClientRest(s: State, l: ClientLabel)
    requires ClientInv(s) && WireInv(s) && ClientEnabled(s, l)
    requires !l.SendDone? && !l.KillSent? && !l.SendFailed? && !l.ClientDies?
    ensures WireInv(StepClient(s, l))
  {
  }

  lemma WakeByClient(s: State, l: ClientLabel)
    requires WakeInv(s) && ClientEnabled(s, l)
    ensures WakeInv(StepClient(s, l))
  {
  }

  lemma OrdersByClient(s: State, l: ClientLabel)
    requires ClientInv(s) && OrdersInv(s) && ClientEnabled(s, l)
    ensures OrdersInv(StepClient(s, l))
  {
  }

  lemma TreeByClient(s: State, l: ClientLabel)
    requires ClientInv(s) && TreeInv(s) && ClientEnabled(s, l)
    ensures TreeInv(StepClient(s, l))
  {
  }

  lemma EnvByClient(s: State, l: ClientLabel)
    requires ClientInv(s) && WireInv(s) && EnvInv(s) && ClientEnabled(s, l)
    ensures EnvInv(StepClient(s, l))
  {
    if l.SendDone? {
      var m := Request(s.client.run, s.client.resolved, s.clientEnv, l.readable);
      Appended(s.toSpawner, m, 0, 0);
      assert (s.toSpawner + [m])[|s.toSpawner|] == m;
    } else if l.KillSent? {
      Appended(s.toSpawner, KillRequest(s.watch.run), 0, 0);
    }
  }

  lemma OneMoreStart(starts: seq<Start>, next: nat, start: Start)
    requires StartsSound(starts, next) && NotStarted(starts, start.run)
    requires start.run < next && start.env == Just(start.resolved)
    ensures StartsSound(starts + [start], next)
    ensures forall run | NotStarted(starts, run) && run != start.run :: NotStarted(starts + [start], run)
  {
  }

  lemma StartsDirectly(s: State, l: ClientLabel)
    requires ClientInv(s) && WireInv(s) && StartsInv(s) && ClientEnabled(s, l) && (l.SetupFails? || l.StartDirectly?)
    ensures StartsInv(StepClient(s, l))
  {
    OneMoreStart(s.h.starts, s.nextRun, Start(s.client.run, Nothing, Just(s.client.resolved), s.client.resolved));
  }

  lemma StartsBegin(s: State, resolved: Env)
    requires StartsInv(s) && ClientEnabled(s, BeginRun(resolved))
    ensures StartsInv(StepClient(s, BeginRun(resolved)))
  {
  }

  lemma StartsByClient(s: State, l: ClientLabel)
    requires ClientInv(s) && WireInv(s) && StartsInv(s) && ClientEnabled(s, l)
    ensures StartsInv(StepClient(s, l)) == true
  {
    match l
    case SetupFails => StartsDirectly(s, l);
    case StartDirectly => StartsDirectly(s, l);
    case BeginRun(resolved) => StartsBegin(s, resolved);
    case _ => StartsByClientRest(s, l);
  }

  lemma StartsByClientRest(s: State, l: ClientLabel)
    requires WireInv(s) && StartsInv(s) && ClientEnabled(s, l) && !l.SetupFails? && !l.StartDirectly? && !l.BeginRun?
    ensures StartsInv(StepClient(s, l))
  {
  }

  lemma SignalsByClient(s: State, l: ClientLabel)
    requires SignalsInv(s) && ClientEnabled(s, l)
    ensures SignalsInv(StepClient(s, l))
  {
  }

  lemma RepliesBegin(s: State, resolved: Env)
    requires RepliesInv(s) && ClientEnabled(s, BeginRun(resolved))
    ensures RepliesInv(StepClient(s, BeginRun(resolved)))
  {
  }

  lemma RepliesByClient(s: State, l: ClientLabel)
    requires ClientInv(s) && WireInv(s) && RepliesInv(s) && ClientEnabled(s, l)
    ensures RepliesInv(StepClient(s, l)) == true
  {
    if l.BeginRun? {
      RepliesBegin(s, l.resolved);
    } else {
      RepliesByClientRest(s, l);
    }
  }

  lemma RepliesByClientRest(s: State, l: ClientLabel)
    requires ClientInv(s) && WireInv(s) && RepliesInv(s) && ClientEnabled(s, l) && !l.BeginRun?
    ensures RepliesInv(StepClient(s, l))
  {
  }

  // Every part is kept by every step of the spawner's main thread.

  lemma ClientBySpawner(s: State, l: SpawnerLabel)
    requires ClientInv(s) && SpawnerEnabled(s, l)
    ensures ClientInv(StepSpawner(s, l))
  {
  }

  lemma WireReceive(s: State)
    requires ClientInv(s) && WireInv(s) && SpawnerEnabled(s, Receive)
    ensures WireInv(StepSpawner(s, Receive))
  {
    var q := s.toSpawner;
    Popped(q);
    assert forall i | 0 <= i < |q[1..]| :: q[1..][i] == q[i + 1];
    if s.client.Awaiting? && q[0].KillRequest? && s.toClient == [] {
      var i: nat :| PendingAt(q, i);
      assert PendingAt(q[1..], i - 1);
    }
  }

  lemma WireBySpawner(s: State, l: SpawnerLabel)
    requires ClientInv(s) && WireInv(s) && SpawnerEnabled(s, l)
    ensures WireInv(StepSpawner(s, l)) == true
  {
    if l.Receive? {
      WireReceive(s);
    } else {
      WireBySpawnerRest(s, l);
    }
  }

  lemma WireBySpawnerRest(s: State, l: SpawnerLabel)
    requires ClientInv(s) && WireInv(s) && SpawnerEnabled(s, l) && !l.Receive?
    ensures WireInv(StepSpawner(s, l))
  {
  }

  lemma WakeBySpawner(s: State, l: SpawnerLabel)
    requires WakeInv(s) && SpawnerEnabled(s, l)
    ensures WakeInv(StepSpawner(s, l))
  {
  }

  lemma OrdersReceive(s: State)
    requires WakeInv(s) && OrdersInv(s) && SpawnerEnabled(s, Receive)
    ensures OrdersInv(StepSpawner(s, Receive))
  {
  }

  lemma OrdersBySpawner(s: State, l: SpawnerLabel)
    requires WakeInv(s) && OrdersInv(s) && SpawnerEnabled(s, l)
    ensures OrdersInv(StepSpawner(s, l)) == true
  {
    if l.Receive? {
      OrdersReceive(s);
    } else {
      OrdersBySpawnerRest(s, l);
    }
  }

  lemma OrdersBySpawnerRest(s: State, l: SpawnerLabel)
    requires WakeInv(s) && OrdersInv(s) && SpawnerEnabled(s, l) && !l.Receive?
    ensures OrdersInv(StepSpawner(s, l))
  {
  }

  lemma TreeReceive(s: State)
    requires WireInv(s) && TreeInv(s) && SpawnerEnabled(s, Receive)
    ensures TreeInv(StepSpawner(s, Receive))
  {
  }

  lemma TreeStarts(s: State, l: SpawnerLabel)
    requires TreeInv(s) && SpawnerEnabled(s, l) && (l.StartCommand? || l.RecordStart?)
    ensures TreeInv(StepSpawner(s, l))
  {
  }

  lemma TreeBySpawner(s: State, l: SpawnerLabel)
    requires WireInv(s) && OrdersInv(s) && TreeInv(s) && SpawnerEnabled(s, l)
    ensures TreeInv(StepSpawner(s, l)) == true
  {
    match l
    case Receive => TreeReceive(s);
    case StartCommand(_) => TreeStarts(s, l);
    case RecordStart => TreeStarts(s, l);
    case _ => TreeBySpawnerRest(s, l);
  }

  lemma TreeBySpawnerRest(s: State, l: SpawnerLabel)
    requires OrdersInv(s) && TreeInv(s) && SpawnerEnabled(s, l) && !l.Receive? && !l.StartCommand? && !l.RecordStart?
    ensures TreeInv(StepSpawner(s, l))
  {
  }

  lemma EnvReceive(s: State)
    requires WireInv(s) && EnvInv(s) && SpawnerEnabled(s, Receive)
    ensures EnvInv(StepSpawner(s, Receive))
  {
    Popped(s.toSpawner);
    if s.toSpawner[0].RunRequest? {
      assert PendingAt(s.toSpawner, 0);
    } else {
      assert forall i | 0 <= i < |s.toSpawner[1..]| :: s.toSpawner[1..][i] == s.toSpawner[i + 1];
    }
  }

  lemma EnvBySpawner(s: State, l: SpawnerLabel)
    requires WireInv(s) && EnvInv(s) && SpawnerEnabled(s, l)
    ensures EnvInv(StepSpawner(s, l)) == true
  {
    if l.Receive? {
      EnvReceive(s);
    } else {
      EnvBySpawnerRest(s, l);
    }
  }

  lemma EnvBySpawnerRest(s: State, l: SpawnerLabel)
    requires WireInv(s) && EnvInv(s) && SpawnerEnabled(s, l) && !l.Receive?
    ensures EnvInv(StepSpawner(s, l))
  {
  }

  lemma StartsBySpawner(s: State, l: SpawnerLabel)
    requires ClientInv(s) && WireInv(s) && EnvInv(s) && StartsInv(s) && SpawnerEnabled(s, l)
    ensures StartsInv(StepSpawner(s, l)) == true
  {
    match l
    case Receive => StartsReceive(s);
    case StartCommand(pid) => StartsGrow(s, pid);
    case _ => StartsBySpawnerRest(s, l);
  }

  lemma PoppedNotStarted(q: seq<Message>, starts: seq<Start>)
    requires q != [] && PendingNotStarted(q, starts)
    ensures PendingNotStarted(q[1..], starts)
    ensures q[0].RunRequest? ==> NotStarted(starts, q[0].run)
  {
    assert forall i | 0 <= i < |q[1..]| :: q[1..][i] == q[i + 1];
  }

  lemma StartsReceive(s: State)
    requires StartsInv(s) && SpawnerEnabled(s, Receive)
    ensures StartsInv(StepReceive(s))
  {
    PoppedNotStarted(s.toSpawner, s.h.starts);
  }

  lemma StartsGrow(s: State, pid: int)
    requires ClientInv(s) && WireInv(s) && EnvInv(s) && StartsInv(s) && SpawnerEnabled(s, StartCommand(pid))
    ensures StartsInv(StepSpawner(s, StartCommand(pid)))
  {
  }

  lemma StartsBySpawnerRest(s: State, l: SpawnerLabel)
    requires WireInv(s) && StartsInv(s) && SpawnerEnabled(s, l) && !l.Receive? && !l.StartCommand?
    ensures StartsInv(StepSpawner(s, l)) == true
  {
    if l.SendReply? {
      StartsSend(s);
    } else {
      StartsServing(s, l);
    }
  }

  lemma StartsSend(s: State)
    requires WireInv(s) && StartsInv(s) && SpawnerEnabled(s, SendReply)
    ensures StartsInv(StepSpawner(s, SendReply))
  {
  }

  lemma StartsServing(s: State, l: SpawnerLabel)
    requires StartsInv(s) && SpawnerEnabled(s, l) && !l.Receive? && !l.StartCommand? && !l.SendReply?
    ensures StartsInv(StepSpawner(s, l))
  {
  }

  lemma OneMoreSignal(signals: seq<Signal>, owner: map<int, nat>, causes: set<Cause>, pid: int)
    requires SignalsSound(signals, owner) && pid in owner && OrdersOf(causes, owner[pid])
    ensures SignalsSound(signals + [Signal(causes, pid)], owner)
  {
  }

  lemma OneMoreGroup(signals: seq<Signal>, owner: map<int, nat>, pid: int, run: nat)
    requires SignalsSound(signals, owner) && pid !in owner
    ensures SignalsSound(signals, owner[pid := run])
  {
  }

  lemma SignalsBySpawner(s: State, l: SpawnerLabel)
    requires OrdersInv(s) && TreeInv(s) && SignalsInv(s) && SpawnerEnabled(s, l)
    ensures SignalsInv(StepSpawner(s, l))
  {
    if l.RecordStart? {
      OneMoreSignal(s.h.signals, s.owner, s.orders, s.spawner.pid);
    } else if l.StartCommand? {
      OneMoreGroup(s.h.signals, s.owner, l.pid, s.spawner.run);
    }
  }

  lemma RepliesBySpawner(s: State, l: SpawnerLabel)
    requires WireInv(s) && RepliesInv(s) && SpawnerEnabled(s, l)
    ensures RepliesInv(StepSpawner(s, l)) == true
  {
    match l
    case Receive => RepliesReceive(s);
    case SendReply => RepliesSend(s);
    case _ => RepliesBySpawnerRest(s, l);
  }

  lemma NewestAccepted(accepted: seq<nat>, run: nat, next: nat)
    requires Increasing(accepted, next) && run + 1 == next && run !in accepted
    ensures Increasing(accepted + [run], next)
  {
  }

  lemma RepliesReceive(s: State)
    requires WireInv(s) && RepliesInv(s) && SpawnerEnabled(s, Receive)
    ensures RepliesInv(StepSpawner(s, Receive))
  {
    var m := s.toSpawner[0];
    if m.RunRequest? {
      NewestAccepted(s.h.accepted, m.run, s.nextRun);
    } else {
      assert forall i | 0 <= i < |s.toSpawner[1..]| :: s.toSpawner[1..][i] == s.toSpawner[i + 1];
    }
  }

  lemma RepliesSend(s: State)
    requires WireInv(s) && RepliesInv(s) && SpawnerEnabled(s, SendReply)
    ensures RepliesInv(StepSpawner(s, SendReply))
  {
  }

  lemma RepliesBySpawnerRest(s: State, l: SpawnerLabel)
    requires RepliesInv(s) && SpawnerEnabled(s, l) && !l.Receive? && !l.SendReply?
    ensures RepliesInv(StepSpawner(s, l))
  {
    RepliesServing(s.spawner, StepSpawner(s, l).spawner, s.h.accepted, s.h.replied);
  }

  /** Serving goes on, or the spawner exits. */
  lemma RepliesServing(p: Spawner, p': Spawner, accepted: seq<nat>, replied: seq<nat>)
    requires RepliesSound(p, accepted, replied)
    requires p'.Exited? || (Serving(p) && Serving(p') && Served(p') == Served(p))
    ensures RepliesSound(p', accepted, replied)
  {
  }

  // Every part is kept by every step of the spawner's watcher.

  lemma ClientByObserver(s: State, l: ObserverLabel)
    requires ClientInv(s) && ObserverEnabled(s, l)
    ensures ClientInv(StepObserver(s, l))
  {
  }

  lemma WireObserverReceives(s: State)
    requires WireInv(s) && WakeInv(s) && ObserverEnabled(s, ObserverReceives)
    ensures WireInv(StepObserver(s, ObserverReceives))
  {
    if s.toSpawner != [] {
      Popped(s.toSpawner);
    }
  }

  lemma WireByObserver(s: State, l: ObserverLabel)
    requires WireInv(s) && WakeInv(s) && ObserverEnabled(s, l)
    ensures WireInv(StepObserver(s, l)) == true
  {
    if l.ObserverReceives? {
      WireObserverReceives(s);
    } else {
      WireByObserverRest(s, l);
    }
  }

  lemma WireByObserverRest(s: State, l: ObserverLabel)
    requires WireInv(s) && ObserverEnabled(s, l) && !l.ObserverReceives?
    ensures WireInv(StepObserver(s, l)) == true
  {
    WireUntouched(s, StepObserver(s, l));
  }

  lemma WireUntouched(s: State, t: State)
    requires WireInv(s) && t.client == s.client && t.clientOpen == s.clientOpen && t.nextRun == s.nextRun
    requires t.spawner == s.spawner && t.toSpawner == s.toSpawner && t.toClient == s.toClient
    ensures WireInv(t)
  {
  }

  lemma WakeByObserver(s: State, l: ObserverLabel)
    requires WakeInv(s) && ObserverEnabled(s, l)
    ensures WakeInv(StepObserver(s, l))
  {
  }

  lemma OrdersByObserver(s: State, l: ObserverLabel)
    requires WireInv(s) && WakeInv(s) && OrdersInv(s) && ObserverEnabled(s, l)
    ensures OrdersInv(StepObserver(s, l))
  {
  }

  lemma TreeByObserver(s: State, l: ObserverLabel)
    requires WakeInv(s) && TreeInv(s) && ObserverEnabled(s, l)
    ensures TreeInv(StepObserver(s, l)) == true
  {
    if l.ObserverStops? {
      TreeStops(s);
    } else {
      TreeUntouched(s, StepObserver(s, l));
    }
  }

  lemma TreeStops(s: State)
    requires WakeInv(s) && TreeInv(s) && ObserverEnabled(s, ObserverStops)
    ensures TreeInv(StepObserver(s, ObserverStops))
  {
  }

  lemma TreeUntouched(s: State, t: State)
    requires TreeInv(s) && t.spawner == s.spawner && t.clientOpen == s.clientOpen
    requires t.live == s.live && t.owner == s.owner && t.pgid == s.pgid && t.orders == s.orders
    ensures TreeInv(t)
  {
  }

  lemma EnvByObserver(s: State, l: ObserverLabel)
    requires WireInv(s) && WakeInv(s) && EnvInv(s) && ObserverEnabled(s, l)
    ensures EnvInv(StepObserver(s, l))
  {
  }

  lemma StartsByObserver(s: State, l: ObserverLabel)
    requires WireInv(s) && WakeInv(s) && StartsInv(s) && ObserverEnabled(s, l)
    ensures StartsInv(StepObserver(s, l)) == true
  {
    if l.ObserverReceives? {
      StartsObserverReceives(s);
    } else {
      StartsByObserverRest(s, l);
    }
  }

  lemma StartsObserverReceives(s: State)
    requires WireInv(s) && WakeInv(s) && StartsInv(s) && ObserverEnabled(s, ObserverReceives)
    ensures StartsInv(StepObserver(s, ObserverReceives))
  {
  }

  lemma StartsByObserverRest(s: State, l: ObserverLabel)
    requires StartsInv(s) && ObserverEnabled(s, l) && !l.ObserverReceives?
    ensures StartsInv(StepObserver(s, l))
  {
  }

  lemma SignalsByObserver(s: State, l: ObserverLabel)
    requires WakeInv(s) && OrdersInv(s) && TreeInv(s) && SignalsInv(s) && ObserverEnabled(s, l)
    ensures SignalsInv(StepObserver(s, l))
  {
    if l.ObserverStops? && s.pgid.Just? {
      OneMoreSignal(s.h.signals, s.owner, {s.observer.cause}, s.pgid.value);
    }
  }

  lemma RepliesByObserver(s: State, l: ObserverLabel)
    requires WireInv(s) && WakeInv(s) && RepliesInv(s) && ObserverEnabled(s, l)
    ensures RepliesInv(StepObserver(s, l)) == true
  {
    if l.ObserverReceives? {
      RepliesObserverReceives(s);
    } else {
      RepliesByObserverRest(s, l);
    }
  }

  lemma RepliesObserverReceives(s: State)
    requires WireInv(s) && WakeInv(s) && RepliesInv(s) && ObserverEnabled(s, ObserverReceives)
    ensures RepliesInv(StepObserver(s, ObserverReceives))
  {
  }

  lemma RepliesByObserverRest(s: State, l: ObserverLabel)
    requires RepliesInv(s) && ObserverEnabled(s, l) && !l.ObserverReceives?
    ensures RepliesInv(StepObserver(s, l))
  {
  }

  // The invariant is inductive.

  lemma InvByClient(s: State, l: ClientLabel)
    requires Inv(s) && ClientEnabled(s, l)
    ensures Inv(StepClient(s, l)) == true
  {
    ClientByClient(s, l);
    WireByClient(s, l);
    WakeByClient(s, l);
    OrdersByClient(s, l);
    TreeByClient(s, l);
    EnvByClient(s, l);
    StartsByClient(s, l);
    SignalsByClient(s, l);
    RepliesByClient(s, l);
  }

  lemma InvBySpawner(s: State, l: SpawnerLabel)
    requires Inv(s) && SpawnerEnabled(s, l)
    ensures Inv(StepSpawner(s, l)) == true
  {
    ClientBySpawner(s, l);
    WireBySpawner(s, l);
    WakeBySpawner(s, l);
    OrdersBySpawner(s, l);
    TreeBySpawner(s, l);
    EnvBySpawner(s, l);
    StartsBySpawner(s, l);
    SignalsBySpawner(s, l);
    RepliesBySpawner(s, l);
  }

  lemma InvByObserver(s: State, l: ObserverLabel)
    requires Inv(s) && ObserverEnabled(s, l)
    ensures Inv(StepObserver(s, l)) == true
  {
    ClientByObserver(s, l);
    WireByObserver(s, l);
    WakeByObserver(s, l);
    OrdersByObserver(s, l);
    TreeByObserver(s, l);
    EnvByObserver(s, l);
    StartsByObserver(s, l);
    SignalsByObserver(s, l);
    RepliesByObserver(s, l);
  }

  lemma InvStep(s: State, l: Label)
    requires Inv(s) && Enabled(s, l)
    ensures Inv(Step(s, l)) == true
  {
    match l
    case OfClient(c) => InvByClient(s, c);
    case OfSpawner(p) => InvBySpawner(s, p);
    case OfObserver(o) => InvByObserver(s, o);
  }

  lemma {:induction false} InvHolds(states: seq<State>, labels: seq<Label>, i: nat)
    requires Execution(states, labels) && i < |states|
    ensures Inv(states[i])
  {
    if i == 0 {
      InitInv();
    } else {
      InvHolds(states, labels, i - 1);
      InvStep(states[i - 1], labels[i - 1]);
    }
  }
}
