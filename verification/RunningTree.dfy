/** The class `runningTree` of `internal/proc/spawner_unix.go`, method by method. Its mutex
    makes every method one step of the transition system in SpawnerProtocol. */
module RunningTree {
  import P = SpawnerProtocol

  /** The fields, and the process groups that have not been stopped. */
  datatype Tree = Tree(pgid: P.Maybe<int>, stopped: bool, live: set<int>)

  function StopGroup(t: Tree): Tree {
    if t.pgid.Just? then t.(live := t.live - {t.pgid.value}) else t
  }

  function AfterStarted(t: Tree, pid: int): Tree {
    var u := t.(pgid := P.Just(pid));
    if t.stopped then StopGroup(u) else u
  }

  function AfterKill(t: Tree): Tree {
    StopGroup(t.(stopped := true))
  }

  class RunningTree {
    var pgid: int
    var stopped: bool
    /** What the system keeps: the groups not stopped yet. */
    ghost var live: set<int>

    ghost function Now(): Tree
      reads this
    {
      Tree(if pgid > 0 then P.Just(pgid) else P.Nothing, stopped, live)
    }

    constructor (ghost live: set<int>)
      ensures Now() == Tree(P.Nothing, false, live)
    {
      pgid, stopped, this.live := 0, false, live;
    }

    /** Stops the group, as tree.kill and tree.close do. */
    method StopAll()
      modifies this`live
      ensures Now() == StopGroup(old(Now()))
    {
      if pgid > 0 {
        live := live - {pgid};
      }
    }

    /** started: the mark of an earlier kill takes effect here. */
    method Started(pid: int)
      requires pid > 0
      modifies this
      ensures Now() == AfterStarted(old(Now()), pid)
    {
      pgid := pid;
      if stopped {
        StopAll();
      }
    }

    /** kill: before the start it only leaves a mark for Started. */
    method Kill()
      modifies this
      ensures Now() == AfterKill(old(Now()))
    {
      stopped := true;
      StopAll();
    }

    /** close. */
    method Close()
      modifies this
      ensures Now() == StopGroup(old(Now()))
    {
      StopAll();
    }
  }

  /** Kill and started leave the same tree in either order: the group is stopped. */
  lemma OrderDoesNotMatter(t: Tree, pid: int)
    requires t.pgid.Nothing?
    ensures AfterKill(AfterStarted(t, pid)) == AfterStarted(AfterKill(t), pid)
    ensures pid !in AfterKill(AfterStarted(t, pid)).live
  {
  }

  /** The tree in a state of the protocol. */
  function TreeOf(s: P.State): Tree {
    Tree(s.pgid, s.orders != {}, s.live)
  }

  /** The protocol moves its tree exactly as these methods do: recording the start,
      a stop ordered by the watcher, and the close before the reply. */
  lemma ProtocolUsesTheTree(s: P.State)
    ensures P.SpawnerEnabled(s, P.RecordStart) ==>
      TreeOf(P.StepSpawner(s, P.RecordStart)) == AfterStarted(TreeOf(s), s.spawner.pid)
    ensures P.ObserverEnabled(s, P.ObserverStops) ==>
      TreeOf(P.StepObserver(s, P.ObserverStops)) == AfterKill(TreeOf(s))
    ensures P.SpawnerEnabled(s, P.CloseTree) ==>
      TreeOf(P.StepSpawner(s, P.CloseTree)) == StopGroup(TreeOf(s))
  {
  }

  lemma OtherSpawnerSteps(s: P.State, l: P.SpawnerLabel)
    requires P.SpawnerEnabled(s, l) && !l.RecordStart? && !l.CloseTree?
    ensures var t, u := TreeOf(s), TreeOf(P.StepSpawner(s, l));
      || u == t
      || (l.StartCommand? && u == t.(live := t.live + {l.pid}))
      || (l.Receive? && u == Tree(P.Nothing, false, t.live))
  {
  }

  lemma OtherObserverSteps(s: P.State, l: P.ObserverLabel)
    requires P.ObserverEnabled(s, l) && !l.ObserverStops?
    ensures TreeOf(P.StepObserver(s, l)) == TreeOf(s)
  {
  }

  /** No other step of the spawner or its watcher records or signals anything, except
      that a start makes its group live and a new request brings a new tree. */
  lemma NothingElseTouchesTheTree(s: P.State, l: P.Label)
    requires P.Enabled(s, l) && !l.OfClient?
    requires l !in {P.OfSpawner(P.RecordStart), P.OfSpawner(P.CloseTree), P.OfObserver(P.ObserverStops)}
    ensures var t, u := TreeOf(s), TreeOf(P.Step(s, l));
      || u == t
      || (l.OfSpawner? && l.p.StartCommand? && u == t.(live := t.live + {l.p.pid}))
      || (l == P.OfSpawner(P.Receive) && u == Tree(P.Nothing, false, t.live))
  {
    match l
    case OfSpawner(p) => OtherSpawnerSteps(s, p);
    case OfObserver(o) => OtherObserverSteps(s, o);
  }
}
