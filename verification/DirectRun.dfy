/** Running a command directly: `run`, `watch` and `finished` of
    `internal/proc/proc.go`, as a transition system of the main goroutine, the
    watching goroutine and the surroundings.

    (A predicate compared with true in a contract is used as one fact, so that the verifier
    does not prove its clauses again.) */
module DirectRun {

  datatype Maybe<+T> = Nothing | Just(value: T)

  datatype Reason = KillTimeout | KillCancel

  datatype Outcome =
    | CanceledBeforeStart
    | StartError
    | AttachError
    | Ran(timedOut: bool, canceled: bool)

  /** Where the main goroutine is. */
  datatype Main =
    | Preparing      // before looking at the context
    | Starting       // in Start
    | Attaching      // started; no tree handle yet
    | Waiting        // in Wait; the watcher runs
    | WaitReturned   // before close(done)
    | Closed         // done is closed; waiting for the watcher
    | Joined         // the watcher is done; reading the usage
    | TreeClosed     // the tree handle is released
    | Returned(outcome: Outcome)

  /** Where the watching goroutine is. */
  datatype Watch =
    | Off
    | Selecting                // in the select
    | Fired(reason: Reason)    // the timer or the context was chosen
    | Cleared(reason: Reason)  // finished said no
    | Told(reason: Reason)     // the reason is sent; about to kill
    | Ended

  datatype Tree = NoTree | Open | Released

  /** A kill by the watcher, and what became of the tree by then. */
  datatype Kill = Kill(reason: Reason, tree: Tree)

  datatype State = State(
    main: Main, watch: Watch, done: bool, killed: Maybe<Reason>, tree: Tree,
    canceled: bool,          // the context is done
    starts: nat, kills: seq<Kill>)

  const Init := State(Preparing, Off, false, Nothing, NoTree, false, 0, [])

  datatype Label =
    | SeeCanceled | SeeRunning | StartFails | StartSucceeds | AttachFails | AttachSucceeds
    | WaitReturns | CloseDone | JoinWatch | CloseTree | Report
    | ChooseDone | ChooseTimer | ChooseContext | CheckFinished | TellReason | KillTree
    | Cancel

  /** Only with a timeout is there a timer to choose. A command may exit, and a
      context may be canceled, at any time. */
  predicate Enabled(s: State, l: Label, timeout: bool) {
    match l
    case SeeCanceled => s.main.Preparing? && s.canceled
    case SeeRunning => s.main.Preparing? && !s.canceled
    case StartFails => s.main.Starting?
    case StartSucceeds => s.main.Starting?
    case AttachFails => s.main.Attaching?
    case AttachSucceeds => s.main.Attaching?
    case WaitReturns => s.main.Waiting?
    case CloseDone => s.main.WaitReturned?
    case JoinWatch => s.main.Closed? && s.watch.Ended?
    case CloseTree => s.main.Joined?
    case Report => s.main.TreeClosed?
    case ChooseDone => s.watch.Selecting? && s.done
    case ChooseTimer => s.watch.Selecting? && timeout
    case ChooseContext => s.watch.Selecting? && s.canceled
    case CheckFinished => s.watch.Fired?
    case TellReason => s.watch.Cleared?
    case KillTree => s.watch.Told?
    case Cancel => !s.canceled
  }

  function Step(s: State, l: Label, timeout: bool): State
    requires Enabled(s, l, timeout)
  {
    match l
    case SeeCanceled => s.(main := Returned(CanceledBeforeStart))
    case SeeRunning => s.(main := Starting)
    case StartFails => s.(main := Returned(StartError))
    case StartSucceeds => s.(main := Attaching, starts := s.starts + 1)
    case AttachFails => s.(main := Returned(AttachError))   // killed and reaped by the process handle
    case AttachSucceeds => s.(main := Waiting, tree := Open, watch := Selecting)
    case WaitReturns => s.(main := WaitReturned)
    case CloseDone => s.(main := Closed, done := true)
    case JoinWatch => s.(main := Joined)
    case CloseTree => s.(main := TreeClosed, tree := Released)
    case Report => s.(main := Returned(Ran(s.killed == Just(KillTimeout), s.killed == Just(KillCancel))))
    case ChooseDone => s.(watch := Ended)
    case ChooseTimer => s.(watch := Fired(KillTimeout))
    case ChooseContext => s.(watch := Fired(KillCancel))
    case CheckFinished => s.(watch := if s.done then Ended else Cleared(s.watch.reason))
    case TellReason => s.(watch := Told(s.watch.reason), killed := Just(s.watch.reason))
    case KillTree => s.(watch := Ended, kills := s.kills + [Kill(s.watch.reason, s.tree)])
    case Cancel => s.(canceled := true)
  }

  ghost predicate Execution(states: seq<State>, labels: seq<Label>, timeout: bool) {
    && |states| == |labels| + 1 && states[0] == Init
    && forall i | 0 <= i < |labels| ::
         Enabled(states[i], labels[i], timeout) && states[i + 1] == Step(states[i], labels[i], timeout)
  }

  // The invariant.

  predicate HoldsTree(m: Main) {
    m.Waiting? || m.WaitReturned? || m.Closed? || m.Joined?
  }

  predicate NotStarted(m: Main) {
    m.Preparing? || m.Starting? || m == Returned(CanceledBeforeStart) || m == Returned(StartError)
  }

  ghost predicate MainInv(s: State) {
    && (s.tree.Open? <==> HoldsTree(s.main))
    && (s.tree.Released? <==> s.main.TreeClosed? || (s.main.Returned? && s.main.outcome.Ran?))
    && (s.done <==> s.main.Closed? || s.main.Joined? || s.tree.Released?)
    && s.starts == (if NotStarted(s.main) then 0 else 1)
    && (s.main.Returned? && s.main.outcome.Ran? ==>
          s.main.outcome == Ran(s.killed == Just(KillTimeout), s.killed == Just(KillCancel)))
  }

  ghost predicate WatchInv(s: State, timeout: bool) {
    && (s.watch.Off? <==> s.tree.NoTree?)
    && (s.main.Joined? || s.tree.Released? ==> s.watch.Ended?)
    && (s.killed.Just? <==> s.watch.Told? || s.kills != [])
    && (s.watch.Told? ==> s.killed == Just(s.watch.reason) && s.kills == [])
    && (s.watch.Off? || s.watch.Selecting? || s.watch.Fired? || s.watch.Cleared? ==> s.kills == [])
    && (s.kills != [] ==> s.killed.Just? && s.kills == [Kill(s.killed.value, Open)])
    && (s.watch.Fired? || s.watch.Cleared? || s.watch.Told? ==> Justified(s, s.watch.reason, timeout))
    && (s.killed.Just? ==> Justified(s, s.killed.value, timeout))
  }

  predicate Justified(s: State, r: Reason, timeout: bool) {
    if r.KillTimeout? then timeout else s.canceled
  }

  lemma InvStep(s: State, l: Label, timeout: bool)
    requires MainInv(s) && WatchInv(s, timeout) && Enabled(s, l, timeout)
    ensures MainInv(Step(s, l, timeout)) && WatchInv(Step(s, l, timeout), timeout)
  {
  }

  lemma {:induction false} InvHolds(states: seq<State>, labels: seq<Label>, timeout: bool, i: nat)
    requires Execution(states, labels, timeout) && i < |states|
    ensures MainInv(states[i]) && WatchInv(states[i], timeout)
  {
    if i > 0 {
      InvHolds(states, labels, timeout, i - 1);
      InvStep(states[i - 1], labels[i - 1], timeout);
    }
  }

  // The theorems.

  /** Whatever the timer, the context and the command do, the watcher kills at most
      once and only through a tree handle that is still open. */
  lemma KillsFindTheTreeOpen(states: seq<State>, labels: seq<Label>, timeout: bool, i: nat)
    requires Execution(states, labels, timeout) && i < |states|
    ensures |states[i].kills| <= 1 && forall k | 0 <= k < |states[i].kills| :: states[i].kills[k].tree == Open
  {
    InvHolds(states, labels, timeout, i);
  }

  /** A result says timed out or canceled exactly when the watcher killed the tree for
      that reason, and the reason was real. */
  lemma ReportTellsTheKill(states: seq<State>, labels: seq<Label>, timeout: bool, i: nat)
    requires Execution(states, labels, timeout) && i < |states|
    requires states[i].main.Returned? && states[i].main.outcome.Ran?
    ensures var (s, r) := (states[i], states[i].main.outcome);
      && (r.timedOut <==> s.kills == [Kill(KillTimeout, Open)]) && (r.timedOut ==> timeout)
      && (r.canceled <==> s.kills == [Kill(KillCancel, Open)]) && (r.canceled ==> s.canceled)
      && (r.timedOut || r.canceled <==> s.kills != [])
  {
    InvHolds(states, labels, timeout, i);
    if states[i].killed.Just? {
      assert states[i].killed.value.KillTimeout? || states[i].killed.value.KillCancel?;
    }
  }

  /** The command is started at most once, and not at all when the result says it was
      canceled before or could not start. */
  lemma StartedAtMostOnce(states: seq<State>, labels: seq<Label>, timeout: bool, i: nat)
    requires Execution(states, labels, timeout) && i < |states|
    ensures states[i].starts <= 1
    ensures states[i].starts == 0 <==> NotStarted(states[i].main)
  {
    InvHolds(states, labels, timeout, i);
  }

  /** Nothing is left running: after the return no step but a cancellation, which
      changes nothing else, is possible. */
  lemma NothingAfterReturn(states: seq<State>, labels: seq<Label>, timeout: bool, i: nat, l: Label)
    requires Execution(states, labels, timeout) && i < |states| && states[i].main.Returned? && Enabled(states[i], l, timeout)
    ensures l == Cancel && Step(states[i], l, timeout) == states[i].(canceled := true)
  {
    InvHolds(states, labels, timeout, i);
  }

  /** What the program itself can do next, until it returns. */
  lemma NeverStuck(states: seq<State>, labels: seq<Label>, timeout: bool, i: nat) returns (l: Label)
    requires Execution(states, labels, timeout) && i < |states| && !states[i].main.Returned?
    ensures l != Cancel && Enabled(states[i], l, timeout)
  {
    InvHolds(states, labels, timeout, i);
    var s := states[i];
    match s.main {
      case Preparing => l := if s.canceled then SeeCanceled else SeeRunning;
      case Starting => l := StartSucceeds;
      case Attaching => l := AttachSucceeds;
      case Waiting => l := WaitReturns;
      case WaitReturned => l := CloseDone;
      case Joined => l := CloseTree;
      case TreeClosed => l := Report;
      case Closed =>
        match s.watch {
          case Ended => l := JoinWatch;
          case Selecting => l := ChooseDone;
          case Fired(_) => l := CheckFinished;
          case Cleared(_) => l := TellReason;
          case Told(_) => l := KillTree;
          case Off => assert false; l := ChooseDone;
        }
    }
  }

  function Rank(s: State): nat {
    (match s.main
     case Preparing => 8 case Starting => 7 case Attaching => 6 case Waiting => 5 case WaitReturned => 4
     case Closed => 3 case Joined => 2 case TreeClosed => 1 case Returned(_) => 0)
    + (match s.watch
       case Off => 4 case Selecting => 4 case Fired(_) => 3 case Cleared(_) => 2 case Told(_) => 1 case Ended => 0)
    + if s.canceled then 0 else 1
  }

  lemma RankStep(s: State, l: Label, timeout: bool)
    requires WatchInv(s, timeout) && MainInv(s) && Enabled(s, l, timeout)
    ensures Rank(Step(s, l, timeout)) < Rank(s)
  {
  }

  lemma {:induction false} RankDrops(states: seq<State>, labels: seq<Label>, timeout: bool, i: nat)
    requires Execution(states, labels, timeout) && i < |states|
    ensures Rank(states[i]) + i <= Rank(Init)
  {
    if i > 0 {
      RankDrops(states, labels, timeout, i - 1);
      InvHolds(states, labels, timeout, i - 1);
      RankStep(states[i - 1], labels[i - 1], timeout);
    }
  }

  /** Every execution is short: the run always returns. */
  lemma RunsEnd(states: seq<State>, labels: seq<Label>, timeout: bool)
    requires Execution(states, labels, timeout)
    ensures |labels| <= 13
  {
    RankDrops(states, labels, timeout, |labels|);
  }

  /** An execution that ends in this state. */
  ghost predicate Reaches(labels: seq<Label>, timeout: bool, last: State) {
    exists states :: Execution(states, labels, timeout) && states[|labels|] == last
  }

  lemma Extend(labels: seq<Label>, timeout: bool, last: State, l: Label)
    requires Reaches(labels, timeout, last) == true && Enabled(last, l, timeout)
    ensures Reaches(labels + [l], timeout, Step(last, l, timeout)) == true
  {
    var states :| Execution(states, labels, timeout) && states[|labels|] == last;
    assert Execution(states + [Step(last, l, timeout)], labels + [l], timeout);
  }

  /** The timeout can be reported of a command that had already exited: the watcher
      looks at done before the main goroutine, back from Wait, closes it. */
  lemma LateTimeoutIsReported() returns (labels: seq<Label>, last: State)
    ensures Reaches(labels, true, last) && last.main == Returned(Ran(true, false))
    ensures labels == [SeeRunning, StartSucceeds, AttachSucceeds, WaitReturns, ChooseTimer, CheckFinished,
                       CloseDone, TellReason, KillTree, JoinWatch, CloseTree, Report]
  {
    var first, s := ExitsByItself();
    var more, t := LateTimer(first, s);
    labels, last := Finishes(more, t);
  }

  lemma Finishes(before: seq<Label>, s: State) returns (labels: seq<Label>, last: State)
    requires Reaches(before, true, s) == true && s.main.Closed? && s.watch == Told(KillTimeout) && s.killed == Just(KillTimeout)
    ensures Reaches(labels, true, last) == true && last.main == Returned(Ran(true, false))
    ensures labels == before + [KillTree, JoinWatch, CloseTree, Report]
  {
    labels, last := before, s;
    Extend(labels, true, last, KillTree);
    labels, last := labels + [KillTree], Step(last, KillTree, true);
    Extend(labels, true, last, JoinWatch);
    labels, last := labels + [JoinWatch], Step(last, JoinWatch, true);
    Extend(labels, true, last, CloseTree);
    labels, last := labels + [CloseTree], Step(last, CloseTree, true);
    Extend(labels, true, last, Report);
    labels, last := labels + [Report], Step(last, Report, true);
  }

  lemma ExitsByItself() returns (labels: seq<Label>, last: State)
    ensures Reaches(labels, true, last) == true
    ensures labels == [SeeRunning, StartSucceeds, AttachSucceeds, WaitReturns]
    ensures last.main.WaitReturned? && last.watch.Selecting? && !last.done
  {
    assert Execution([Init], [], true);
    labels, last := [], Init;
    Extend(labels, true, last, SeeRunning);
    labels, last := labels + [SeeRunning], Step(last, SeeRunning, true);
    Extend(labels, true, last, StartSucceeds);
    labels, last := labels + [StartSucceeds], Step(last, StartSucceeds, true);
    Extend(labels, true, last, AttachSucceeds);
    labels, last := labels + [AttachSucceeds], Step(last, AttachSucceeds, true);
    Extend(labels, true, last, WaitReturns);
    labels, last := labels + [WaitReturns], Step(last, WaitReturns, true);
  }

  lemma LateTimer(before: seq<Label>, s: State) returns (labels: seq<Label>, last: State)
    requires Reaches(before, true, s) == true && s.main.WaitReturned? && s.watch.Selecting? && !s.done
    ensures Reaches(labels, true, last) == true
    ensures labels == before + [ChooseTimer, CheckFinished, CloseDone, TellReason]
    ensures last.main.Closed? && last.watch == Told(KillTimeout) && last.killed == Just(KillTimeout)
  {
    labels, last := before, s;
    Extend(labels, true, last, ChooseTimer);
    labels, last := labels + [ChooseTimer], Step(last, ChooseTimer, true);
    Extend(labels, true, last, CheckFinished);
    labels, last := labels + [CheckFinished], Step(last, CheckFinished, true);
    Extend(labels, true, last, CloseDone);
    labels, last := labels + [CloseDone], Step(last, CloseDone, true);
    Extend(labels, true, last, TellReason);
    labels, last := labels + [TellReason], Step(last, TellReason, true);
  }
}
