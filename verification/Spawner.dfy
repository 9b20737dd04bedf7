/** The spawner protocol: himorime (`runSpawned` and `watch`) and its spawner
    (`serveSpawner`, `serveRequest`, `runningTree`, `watchHimorime`) as one labelled
    transition system. Each process has a main thread and a watcher; a label is one
    step of one of the four threads, and every interleaving is an execution.

    Messages move whole: the framing is the subject of the module Framing, and the
    theorem OneThreadPerEnd below says why frames of two threads never mix. A send
    is two steps, its beginning and its end, so that this can be said. A process
    group is a fresh number per command; a run is numbered by himorime and the
    number rides on the messages only so that theorems can speak about it. */
module SpawnerProtocol {

  type Env = seq<string>
  datatype Maybe<+T> = Nothing | Just(value: T)

  /** What himorime writes. A request that is not readable is longer than recv accepts:
      nothing stops its sending. Cut is what a send that failed or died part-way leaves:
      some bytes of a frame, never followed by anything. */
  datatype Message =
    | RunRequest(run: nat, env: Maybe<Env>, sameEnv: bool, resolved: Env, readable: bool)
    | KillRequest(run: nat)
    | Cut

  /** What the spawner answers: whether the command started. */
  datatype Reply = Reply(run: nat, started: bool)

  datatype Client =
    | Idle                                // the spawner is in the pool
    | Sending(run: nat, resolved: Env)    // opening the pipes, or in send of the request
    | Awaiting(run: nat)                  // in recv of the reply
    | Answered(run: nat, reply: Maybe<Reply>)  // recv returned a reply, or failed
    | Joining(run: nat, reply: Maybe<Reply>)   // done is closed; waiting for the watcher
    | Direct(run: nat, resolved: Env)     // the request was not sent: Run starts the command itself
    | Gone                                // discarded the spawner, or died

  datatype Reason = Timeout | Cancel

  datatype ClientWatch = NoWatch | Watching(run: nat) | Stopping(run: nat) | Finished

  datatype Spawner =
    | Receiving                                                  // the loop's recv
    | Configured(run: nat, env: Maybe<Env>, resolved: Env)       // request accepted
    | Watched(run: nat, env: Maybe<Env>, resolved: Env)          // the watch was started
    | Launched(run: nat, pid: int)                               // started, not recorded
    | Waiting(run: nat, pid: int)                                // recorded, in Wait
    | Reaped(run: nat, group: Maybe<int>)                        // Wait returned, or Start failed
    | Woken(run: nat, group: Maybe<int>)                         // wake written; waiting for the watch
    | Closing(run: nat, pid: int)                                // about to close the tree
    | Replying(reply: Reply)                                     // in send of the reply
    | Exited(ownerGone: bool)                                    // left for a himorime that is gone, or stopped otherwise

  datatype Cause = ByKill(run: nat) | ByEof

  datatype Observer = Off | Polling | Reading | Ordered(cause: Cause) | Draining | Done

  datatype Start = Start(run: nat, group: Maybe<int>, env: Maybe<Env>, resolved: Env)
  datatype Signal = Signal(causes: set<Cause>, pid: int)
  datatype Answer = Answer(awaited: nat, got: nat)
  /** What runSpawned returns for a run that was answered: not started, or the reason it
      was stopped for, if there was one. */
  datatype Report = Report(run: nat, started: bool, stopped: Maybe<Reason>)

  /** What happened, for the theorems: no step looks at it. The reason for which the watcher
      of a run decided to kill is kept in fired. */
  datatype History = History(
    accepted: seq<nat>, replied: seq<nat>, answers: seq<Answer>, starts: seq<Start>,
    signals: seq<Signal>, swallowed: seq<nat>, fired: map<nat, Reason>, reports: seq<Report>)

  datatype State = State(
    client: Client, watch: ClientWatch, killed: Maybe<Reason>, nextRun: nat, clientEnv: Maybe<Env>, clientOpen: bool,
    toSpawner: seq<Message>, toClient: seq<Reply>,
    spawner: Spawner, spawnerEnv: Maybe<Env>,
    observer: Observer, gone: bool, wake: nat,
    pgid: Maybe<int>, orders: set<Cause>,    // runningTree; stopped is orders != {}
    live: set<int>, owner: map<int, nat>,    // groups not known stopped; the run of each group
    h: History)

  const Init := State(
    Idle, NoWatch, Nothing, 0, Nothing, true, [], [], Receiving, Nothing, Off, false, 0, Nothing, {}, {}, map[],
    History([], [], [], [], [], [], map[], []))

  /** himorime: the main thread, the watcher (a timeout or a cancellation may fire at
      any time), and the death of the process. */
  datatype ClientLabel =
    | BeginRun(resolved: Env) | SetupFails | SendDone(readable: bool) | SendFailed(partial: bool)
    | ReplyReceived | ReplyFailed | CloseDone | ReturnSpawner | DiscardSpawner | StartDirectly
    | WatchFires(reason: Reason) | WatchEnds | KillSent(delivered: bool)
    | ClientDies(partial: bool)

  /** The spawner's main thread, and the death of the process. */
  datatype SpawnerLabel =
    | Receive | OwnerGone | StartObserver | StartCommand(pid: int) | StartFails | RecordStart
    | CommandExits | WriteWake | JoinObserver | CloseTree | SendReply | ReplyRefused
    | SpawnerDies

  /** The spawner's watcher. */
  datatype ObserverLabel =
    | ObserverWoken | ObserverReady | PollFails | Drained | ObserverReceives | ObserverStops

  datatype Label = OfClient(c: ClientLabel) | OfSpawner(p: SpawnerLabel) | OfObserver(o: ObserverLabel)

  predicate Serving(p: Spawner) {
    !p.Receiving? && !p.Exited?
  }

  /** The run being served. */
  function Served(p: Spawner): nat
    requires Serving(p)
  {
    if p.Replying? then p.reply.run else p.run
  }

  /** Whether the watcher of himorime sees done closed. */
  predicate DoneClosed(c: Client) {
    !c.Awaiting? && !c.Answered?
  }

  predicate ClientEnabled(s: State, l: ClientLabel) {
    match l
    case BeginRun(_) => s.client.Idle?
    case SetupFails => s.client.Sending?
    case SendDone(_) => s.client.Sending?
    case SendFailed(_) => s.client.Sending?
    case ReplyReceived => s.client.Awaiting? && s.toClient != []
    case ReplyFailed => s.client.Awaiting? && s.toClient == [] && s.spawner.Exited?
    case CloseDone => s.client.Answered?
    case ReturnSpawner => s.client.Joining? && s.client.reply.Just? && s.watch.Finished?
    case DiscardSpawner => s.client.Joining? && s.client.reply.Nothing? && s.watch.Finished?
    case StartDirectly => s.client.Direct?
    case WatchFires(_) => s.watch.Watching?
    case WatchEnds => s.watch.Watching? && DoneClosed(s.client)
    case KillSent(delivered) => s.watch.Stopping? && (delivered || s.spawner.Exited?)
    case ClientDies(partial) => !s.client.Gone? && (partial ==> s.client.Sending? || s.watch.Stopping?)
  }

  predicate SpawnerEnabled(s: State, l: SpawnerLabel) {
    match l
    case Receive => s.spawner.Receiving? && s.toSpawner != []
    case OwnerGone => s.spawner.Receiving? && s.toSpawner == [] && !s.clientOpen
    case StartObserver => s.spawner.Configured?
    case StartCommand(pid) => s.spawner.Watched? && pid !in s.owner
    case StartFails => s.spawner.Watched?
    case RecordStart => s.spawner.Launched?
    case CommandExits => s.spawner.Waiting?
    case WriteWake => s.spawner.Reaped?
    case JoinObserver => s.spawner.Woken? && s.observer.Done?
    case CloseTree => s.spawner.Closing?
    case SendReply => s.spawner.Replying? && s.clientOpen
    case ReplyRefused => s.spawner.Replying? && !s.clientOpen
    case SpawnerDies => !s.spawner.Exited?
  }

  predicate ObserverEnabled(s: State, l: ObserverLabel) {
    match l
    case ObserverWoken => s.observer.Polling? && s.wake > 0
    case ObserverReady =>
      s.observer.Polling? && s.wake == 0 && !s.gone && (s.toSpawner != [] || !s.clientOpen)
    case PollFails => s.observer.Polling?
    case Drained => s.observer.Draining? && s.wake > 0
    case ObserverReceives => s.observer.Reading? && (s.toSpawner != [] || !s.clientOpen)
    case ObserverStops => s.observer.Ordered?
  }

  predicate Enabled(s: State, l: Label) {
    match l
    case OfClient(c) => ClientEnabled(s, c)
    case OfSpawner(p) => SpawnerEnabled(s, p)
    case OfObserver(o) => ObserverEnabled(s, o)
  }

  /** The request that goes out: SameEnv when the spawner already has the environment. */
  function Request(run: nat, resolved: Env, cached: Maybe<Env>, readable: bool): Message {
    if cached == Just(resolved) then RunRequest(run, Nothing, true, resolved, readable)
    else RunRequest(run, Just(resolved), false, resolved, readable)
  }

  function Append(s: State, partial: bool): seq<Message> {
    if partial then s.toSpawner + [Cut] else s.toSpawner
  }

  /** What runSpawned returns once it was answered and its watcher is done. */
  function ReportOf(run: nat, reply: Reply, killed: Maybe<Reason>): Report {
    Report(run, reply.started, if reply.started then killed else Nothing)
  }

  function StepClient(s: State, l: ClientLabel): State
    requires ClientEnabled(s, l)
  {
    match l
    case BeginRun(resolved) => s.(client := Sending(s.nextRun, resolved), nextRun := s.nextRun + 1)
    case SetupFails =>
      s.(client := Idle,
         h := s.h.(starts := s.h.starts
           + [Start(s.client.run, Nothing, Just(s.client.resolved), s.client.resolved)]))
    case SendDone(readable) =>
      s.(client := Awaiting(s.client.run), watch := Watching(s.client.run), killed := Nothing,
         clientEnv := Just(s.client.resolved),
         toSpawner := s.toSpawner + [Request(s.client.run, s.client.resolved, s.clientEnv, readable)])
    case SendFailed(partial) =>
      s.(client := Direct(s.client.run, s.client.resolved), clientOpen := false, toSpawner := Append(s, partial))
    case ReplyReceived =>
      s.(client := Answered(s.client.run, Just(s.toClient[0])), toClient := s.toClient[1..],
         h := s.h.(answers := s.h.answers + [Answer(s.client.run, s.toClient[0].run)]))
    case ReplyFailed => s.(client := Answered(s.client.run, Nothing))
    case CloseDone => s.(client := Joining(s.client.run, s.client.reply))
    case ReturnSpawner =>
      s.(client := Idle, watch := NoWatch,
         h := s.h.(reports := s.h.reports + [ReportOf(s.client.run, s.client.reply.value, s.killed)]))
    case DiscardSpawner => s.(client := Gone, clientOpen := false)
    case StartDirectly =>
      s.(client := Gone,
         h := s.h.(starts := s.h.starts
           + [Start(s.client.run, Nothing, Just(s.client.resolved), s.client.resolved)]))
    case WatchFires(reason) =>
      if DoneClosed(s.client) then s.(watch := Finished)
      else s.(watch := Stopping(s.watch.run), killed := Just(reason),
              h := s.h.(fired := s.h.fired[s.watch.run := reason]))
    case WatchEnds => s.(watch := Finished)
    case KillSent(delivered) =>
      s.(watch := Finished,
         toSpawner := if delivered then s.toSpawner + [KillRequest(s.watch.run)] else s.toSpawner)
    case ClientDies(partial) =>
      s.(client := Gone, watch := Finished, clientOpen := false, toSpawner := Append(s, partial))
  }

  /** serveSpawner handles one message: a kill is for a command that already finished, and
      one that recv refuses ends the spawner. */
  function StepReceive(s: State): State
    requires SpawnerEnabled(s, Receive)
  {
    var rest := s.toSpawner[1..];
    match s.toSpawner[0]
    case KillRequest(_) => s.(toSpawner := rest)
    case Cut => s.(toSpawner := rest, spawner := Exited(true))
    case RunRequest(run, env, sameEnv, resolved, readable) =>
      if !readable then s.(toSpawner := rest, spawner := Exited(false)) else
      var used := if sameEnv then s.spawnerEnv else env;
      s.(toSpawner := rest, spawnerEnv := used, spawner := Configured(run, used, resolved),
         observer := Off, gone := false, pgid := Nothing, orders := {},
         h := s.h.(accepted := s.h.accepted + [run]))
  }

  function StepSpawner(s: State, l: SpawnerLabel): State
    requires SpawnerEnabled(s, l)
  {
    match l
    case Receive => StepReceive(s)
    case OwnerGone => s.(spawner := Exited(true))
    case StartObserver =>
      s.(spawner := Watched(s.spawner.run, s.spawner.env, s.spawner.resolved), observer := Polling)
    case StartCommand(pid) =>
      s.(spawner := Launched(s.spawner.run, pid), live := s.live + {pid}, owner := s.owner[pid := s.spawner.run],
         h := s.h.(starts := s.h.starts
           + [Start(s.spawner.run, Just(pid), s.spawner.env, s.spawner.resolved)]))
    case StartFails => s.(spawner := Reaped(s.spawner.run, Nothing))
    case RecordStart =>
      var pid := s.spawner.pid;
      var t := s.(spawner := Waiting(s.spawner.run, pid), pgid := Just(pid));
      if s.orders == {} then t
      else t.(live := s.live - {pid}, h := s.h.(signals := s.h.signals + [Signal(s.orders, pid)]))
    case CommandExits => s.(spawner := Reaped(s.spawner.run, Just(s.spawner.pid)))
    case WriteWake => s.(spawner := Woken(s.spawner.run, s.spawner.group), wake := s.wake + 1)
    case JoinObserver =>
      if s.spawner.group.Just? then s.(spawner := Closing(s.spawner.run, s.spawner.group.value))
      else s.(spawner := if s.gone then Exited(true) else Replying(Reply(s.spawner.run, false)))
    case CloseTree =>
      s.(spawner := if s.gone then Exited(true) else Replying(Reply(s.spawner.run, true)),
         live := if s.pgid.Just? then s.live - {s.pgid.value} else s.live)
    case SendReply =>
      s.(spawner := Receiving, toClient := s.toClient + [s.spawner.reply],
         h := s.h.(replied := s.h.replied + [s.spawner.reply.run]))
    case ReplyRefused => s.(spawner := Exited(true))
    case SpawnerDies => s.(spawner := Exited(false), observer := Off)
  }

  /** recv in watchHimorime. A request other than a kill would be lost here. */
  function StepObserverReceives(s: State): State
    requires ObserverEnabled(s, ObserverReceives)
  {
    if s.toSpawner == [] then s.(gone := true, observer := Ordered(ByEof))
    else
      var rest := s.toSpawner[1..];
      match s.toSpawner[0]
      case Cut => s.(toSpawner := rest, gone := true, observer := Ordered(ByEof))
      case KillRequest(run) => s.(toSpawner := rest, observer := Ordered(ByKill(run)))
      case RunRequest(run, _, _, _, _) =>
        s.(toSpawner := rest, observer := Polling, h := s.h.(swallowed := s.h.swallowed + [run]))
  }

  function StepObserver(s: State, l: ObserverLabel): State
    requires ObserverEnabled(s, l)
  {
    match l
    case ObserverWoken => s.(observer := Done, wake := s.wake - 1)
    case ObserverReady => s.(observer := Reading)
    case PollFails => s.(observer := Draining)
    case Drained => s.(observer := Done, wake := s.wake - 1)
    case ObserverReceives => StepObserverReceives(s)
    case ObserverStops =>
      var t := s.(observer := Polling, orders := s.orders + {s.observer.cause});
      if s.pgid.Nothing? then t
      else t.(live := s.live - {s.pgid.value},
              h := s.h.(signals := s.h.signals + [Signal({s.observer.cause}, s.pgid.value)]))
  }

  function Step(s: State, l: Label): State
    requires Enabled(s, l)
  {
    match l
    case OfClient(c) => StepClient(s, c)
    case OfSpawner(p) => StepSpawner(s, p)
    case OfObserver(o) => StepObserver(s, o)
  }

  /** An execution: every state follows from the one before by an enabled step. */
  ghost predicate Execution(states: seq<State>, labels: seq<Label>) {
    && |states| == |labels| + 1
    && states[0] == Init
    && forall i | 0 <= i < |labels| ::
         Enabled(states[i], labels[i]) && states[i + 1] == Step(states[i], labels[i])
  }
}
