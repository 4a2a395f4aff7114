/** The agent as a transition system.
  *
  * One step is one critical section, or one effect between two of them.  Every
  * launch has a `run` with its own program point; timers, cancellations, window
  * operations and audio calls that have left the lock are `Task`s, and any task,
  * run or timer may move next.  The tail of `Cancel` becomes independent tasks,
  * which allows strictly more interleavings than the code.
  */
module AgentSystem {
  import opened Options
  import opened Sessions

  // Where `runner.Run` stands: before audio preparation, between preparing a
  // sink and attaching it, before the client starts, after it started, and
  // after its process identifier was recorded.
  datatype Phase = Setup | Prepared(sink: string) | Ready | Executing | Recorded

  datatype Event = SessionStarted | SessionExited | SessionFailed

  // Program points of `run`; `was` is the state its session shows at the shared
  // end of several paths.
  datatype Point =
    | Redeem
    | Rejected
    | Replacing(duplicates: set<Id>)
    | Building
    | KeyChanged
    | KeyPrompted
    | Unbuildable
    | Unbuilt
    | Built
    | Announcing
    | Announced
    | Running(first: bool, phase: Phase)
    | NoAudio
    | Asking
    | Answered(accept: bool)
    | Declining
    | Retrying
    | Restarting
    | Ended(err: bool, was: State)
    | Settling(err: bool, was: State)
    | Failing(was: State)
    | Closing(was: State)
    | Removing(was: State)
    | Arming
    | Done

  // `bound` is the position of this run's bind among all binds, 0 before it;
  // `answers` counts the answers taken for its audio prompt, `accepted` is the last.
  datatype Run = Run(
    point: Point,
    cancelled: bool,
    limited: bool,
    ticket: int,
    connection: int,
    bound: nat,
    audioOff: bool,
    retries: nat,
    answers: nat,
    accepted: bool,
    choice: Option<bool>,
    trace: seq<Event>)

  datatype Task =
    | Remove(id: Id)
    | Suspend(sink: string)
    | Release(sink: string)
    | Send(id: Id, accept: bool)
    | FinishMinimize(id: Id, windowState: string)
    | Unsuspend(id: Id, sink: string)
    | FinishResume(id: Id, sink: string)
    | ResolveKey(id: Id)

  // `playing` is the set of sinks that are not suspended.
  datatype Sys = Sys(
    sessions: Table,
    next: nat,
    runs: map<Id, Run>,
    timers: set<Id>,
    tasks: multiset<Task>,
    playing: set<string>,
    binds: nat)

  const START := Run(Redeem, false, false, 0, 0, 0, false, 0, 0, false, None, [])

  const INIT := Sys(map[], 0, map[], {}, multiset{}, {}, 0)

  // What a run does next.
  datatype Move =
    | RedeemFail
    | RedeemOk(ticket: int, connection: int, limited: bool)
    | CancelDuplicate(duplicate: Id)
    | SetPreparing
    | FindChangedKey
    | BuildFail
    | BuildOk
    | ShowKeyPrompt
    | SetFailed
    | Report
    | Arm
    | SetStarting
    | SetActive
    | Prepare(sink: string)
    | Attach
    | SkipAudio
    | StartClient
    | NotePid(pid: int)
    | Return(err: bool)
    | LoseAudio
    | AskAudio
    | TakeChoice
    | CloseQuestion
    | Abandon
    | Decide(deadline: bool)
    | SetStopping
    | RemoveOwn

  // A run moves, a timer fires, a request arrives, or a task goes on; `ok` is
  // whether the task's outside call succeeds.
  datatype Step =
    | Go(id: Id, move: Move)
    | Launch
    | FireTimer(id: Id)
    | Cancel(id: Id)
    | CancelAll
    | AnswerAudio(id: Id, accept: bool)
    | DecideKey(id: Id)
    | BeginMinimize(id: Id, windowState: string)
    | BeginResume(id: Id)
    | RunTask(task: Task, ok: bool)

  predicate At(s: Sys, id: Id, p: Point) {
    id in s.runs && s.runs[id].point == p
  }

  predicate CanMove(r: Run, move: Move) {
    var p := r.point;
    match move
    case RedeemFail => p.Redeem?
    case RedeemOk(_, _, _) => p.Redeem?
    case CancelDuplicate(d) => p.Replacing? && d in p.duplicates
    case SetPreparing => p == Replacing({})
    case FindChangedKey => p.Building?
    case BuildFail => p.Building?
    case BuildOk => p.Building?
    case ShowKeyPrompt => p.KeyChanged?
    case SetFailed => p.Rejected? || p.Unbuildable? || p.Failing?
    case Report => p.KeyPrompted? || p.Unbuilt? || p.Announcing? || p.Declining? || p.Ended?
    case Arm => p.Arming?
    case SetStarting => p.Built? || p.Retrying?
    case SetActive => p.Announced? || p.Restarting?
    case Prepare(sink) => p == Running(true, Setup) && sink != ""
    case Attach => p.Running? && p.phase.Prepared?
    case SkipAudio => p.Running? && p.phase.Setup?
    case StartClient => p.Running? && p.phase.Ready?
    case NotePid(pid) => p.Running? && p.phase.Executing? && pid != 0
    case Return(_) => p.Running? && (p.phase.Setup? || p.phase.Ready? || p.phase.Recorded?)
    case LoseAudio => p.Running? && p.first && (p.phase.Setup? || p.phase.Recorded?) && !r.cancelled
    case AskAudio => p.NoAudio?
    case TakeChoice => p.Asking? && r.choice.Some?
    case CloseQuestion => p.Answered?
    case Abandon => p.Asking? && (r.cancelled || r.limited)
    case Decide(deadline) => p.Settling? && (deadline ==> r.limited)
    case SetStopping => p.Closing?
    case RemoveOwn => p.Removing?
  }

  predicate Enabled(s: Sys, step: Step) {
    match step
    case Go(id, move) => id in s.runs && CanMove(s.runs[id], move)
    case Launch => true
    case FireTimer(id) => id in s.timers
    case Cancel(id) => id in s.sessions
    case CancelAll => s.sessions != map[]
    case AnswerAudio(id, _) => AwaitsAudioChoice(s.sessions, id) && id in s.runs
    case DecideKey(id) => AwaitsKeyDecision(s.sessions, id)
    case BeginMinimize(id, _) => CanMinimize(s.sessions, id)
    case BeginResume(id) => CanResume(s.sessions, id)
    case RunTask(task, _) =>
      task in s.tasks && (task.Send? ==> task.id in s.runs && s.runs[task.id].choice.None?)
  }

  function Goto(s: Sys, id: Id, p: Point): Sys
    requires id in s.runs
  {
    s.(runs := s.runs[id := s.runs[id].(point := p)])
  }

  function Add(s: Sys, task: Task): Sys {
    s.(tasks := s.tasks + multiset{task})
  }

  function AddIf(s: Sys, condition: bool, task: Task): Sys {
    if condition then Add(s, task) else s
  }

  // The critical section of removeSession, with the suspension it leaves behind.
  function RemoveSession(s: Sys, id: Id): Sys {
    AddIf(s.(sessions := Untrack(s.sessions, id)),
          LeavesSink(s.sessions, id),
          Suspend(if id in s.sessions then s.sessions[id].sink else ""))
  }

  function CancelRun(runs: map<Id, Run>, id: Id): map<Id, Run> {
    if id in runs then runs[id := runs[id].(cancelled := true)] else runs
  }

  // The critical section of Cancel(id), with the tail it leaves behind.
  function CancelOne(s: Sys, id: Id): Sys {
    if id !in s.sessions then s else
    var x := s.sessions[id];
    s.(sessions := SetState(s.sessions, id, Stopping),
       runs := CancelRun(s.runs, id),
       tasks := s.tasks + (if Terminal(x) then multiset{Remove(id)} else multiset{})
                        + (if x.sink != "" then multiset{Release(x.sink)} else multiset{}))
  }

  // The tail of Cancel(""): one removal per terminal session and one release
  // per distinct sink.
  function RemovalTasks(t: Table): set<Task> {
    set id | id in t && Terminal(t[id]) :: Remove(id)
  }

  function ReleaseTasks(t: Table): set<Task> {
    set id | id in t && t[id].sink != "" :: Release(t[id].sink)
  }

  function CancelEvery(s: Sys): Sys {
    s.(sessions := StopAll(s.sessions),
       runs := map id | id in s.runs :: if id in s.sessions then s.runs[id].(cancelled := true) else s.runs[id],
       tasks := s.tasks + multiset(RemovalTasks(s.sessions)) + multiset(ReleaseTasks(s.sessions)))
  }

  function Reported(p: Point): (Event, Point)
    requires p.KeyPrompted? || p.Unbuilt? || p.Announcing? || p.Declining? || p.Ended?
  {
    match p
    case KeyPrompted => (SessionFailed, Done)
    case Unbuilt => (SessionFailed, Arming)
    case Announcing => (SessionStarted, Announced)
    case Declining => (SessionExited, Removing(Failed))
    case Ended(err, was) => (SessionExited, Settling(err, was))
  }

  // The second critical section of Minimize, after the window calls.
  function EndMinimize(s: Sys, id: Id, windowState: string, ok: bool): Sys {
    if !ok || id !in s.sessions || !s.sessions[id].state.Active? then s else
    var t := MarkMinimized(s.sessions, id, windowState);
    AddIf(s.(sessions := t), t[id].sink != "" && !InUse(t, t[id].sink), Suspend(t[id].sink))
  }

  // The second critical section of Resume, after the audio and window calls.
  function EndResume(s: Sys, id: Id, sink: string, ok: bool): Sys {
    if !ok || id !in s.sessions || !s.sessions[id].state.Active?
    then AddIf(s, sink != "", Release(sink))
    else s.(sessions := MarkRestored(s.sessions, id))
  }

  function ApplyTask(s: Sys, task: Task, ok: bool): Sys
    requires task in s.tasks
    requires task.Send? ==> task.id in s.runs
  {
    var s0 := s.(tasks := s.tasks - multiset{task});
    match task
    case Remove(id) => RemoveSession(s0, id)
    case Suspend(sink) => s0.(playing := s0.playing - {sink})
    case Release(sink) => AddIf(s0, !InUse(s0.sessions, sink), Suspend(sink))
    case Send(id, accept) => s0.(runs := s0.runs[id := s0.runs[id].(choice := Some(accept))])
    case FinishMinimize(id, windowState) => EndMinimize(s0, id, windowState, ok)
    case Unsuspend(id, sink) =>
      Add(if sink != "" then s0.(playing := s0.playing + {sink}) else s0, FinishResume(id, sink))
    case FinishResume(id, sink) => EndResume(s0, id, sink, ok)
    case ResolveKey(id) => AddIf(s0, ok, Remove(id))
  }

  // The run after its own move; only binding gives it a connection, and nothing
  // it does clears its cancellation.
  function MovedRun(r: Run, t: Table, id: Id, order: nat, move: Move): (r': Run)
    requires CanMove(r, move) && !move.CancelDuplicate? && !move.RemoveOwn?
    ensures r'.cancelled == r.cancelled
    ensures !move.RedeemOk? ==> r'.bound == r.bound && r'.connection == r.connection
  {
    match move
    case RedeemFail => r.(point := Rejected)
    case RedeemOk(ticket, connection, limited) =>
      r.(point := Replacing(Duplicates(Bind(t, id, connection), id, connection)), ticket := ticket,
         connection := connection, limited := limited, bound := order)
    case SetPreparing => r.(point := Building)
    case FindChangedKey => r.(point := KeyChanged)
    case BuildFail => r.(point := Unbuildable)
    case BuildOk => r.(point := Built)
    case ShowKeyPrompt => r.(point := KeyPrompted)
    case SetFailed => r.(point := if r.point.Unbuildable? then Unbuilt else Arming)
    case Report =>
      var (event, p) := Reported(r.point);
      r.(point := p, trace := r.trace + [event])
    case Arm => r.(point := Done)
    case SetStarting => r.(point := if r.point.Built? then Announcing else Restarting)
    case SetActive => r.(point := Running(r.point.Announced?, Setup))
    case Prepare(sink) => r.(point := Running(true, Prepared(sink)))
    case Attach => r.(point := Running(r.point.first, Ready))
    case SkipAudio => r.(point := Running(r.point.first, Ready))
    case StartClient => r.(point := Running(r.point.first, Executing))
    case NotePid(_) => r.(point := Running(r.point.first, Recorded))
    case Return(err) => r.(point := Ended(err, Active))
    case LoseAudio => r.(point := NoAudio)
    case AskAudio => r.(point := if id in t then Asking else Ended(true, Active))
    case TakeChoice => r.(point := Answered(r.choice.value), choice := None)
    case CloseQuestion =>
      if r.point.accept then r.(point := Retrying, audioOff := true, retries := r.retries + 1)
      else r.(point := Declining)
    case Abandon => r.(point := Ended(true, Failed))
    case Decide(deadline) =>
      r.(point := if deadline || (r.point.err && !r.cancelled) then Failing(r.point.was) else Closing(r.point.was))
    case SetStopping => r.(point := Removing(Stopping))
  }

  // The table after a run's own move: the same sessions, and every session but
  // its own as it was.
  function MovedTable(t: Table, id: Id, r: Run, move: Move): (t': Table)
    requires CanMove(r, move) && !move.CancelDuplicate? && !move.RemoveOwn?
    ensures t'.Keys == t.Keys
    ensures forall other :: other in t && other != id ==> t'[other] == t[other]
    ensures id in t && !move.RedeemOk? ==> t'[id].connection == t[id].connection
    ensures id in t ==> t'[id].sink == if move.Attach? then r.point.phase.sink else t[id].sink
  {
    match move
    case RedeemOk(_, connection, _) => Bind(t, id, connection)
    case SetPreparing => SetState(t, id, Preparing)
    case ShowKeyPrompt => OpenKeyPrompt(t, id)
    case SetFailed => SetState(t, id, Failed)
    case SetStarting => SetState(t, id, Starting)
    case SetActive => SetState(t, id, Active)
    case Attach => AttachSink(t, id, r.point.phase.sink)
    case NotePid(pid) => RecordPid(t, id, pid)
    case AskAudio => if id in t then OpenAudioPrompt(t, id) else t
    case CloseQuestion => CloseAudioPrompt(t, id)
    case SetStopping => SetState(t, id, Stopping)
    case _ => t
  }

  function ApplyMove(s: Sys, id: Id, move: Move): Sys
    requires id in s.runs && CanMove(s.runs[id], move)
  {
    if move.CancelDuplicate? then
      CancelOne(Goto(s, id, Replacing(s.runs[id].point.duplicates - {move.duplicate})), move.duplicate)
    else if move.RemoveOwn? then
      RemoveSession(Goto(s, id, Done), id)
    else
      s.(sessions := MovedTable(s.sessions, id, s.runs[id], move),
         runs := s.runs[id := MovedRun(s.runs[id], s.sessions, id, s.binds + 1, move)],
         timers := if move.Arm? then s.timers + {id} else s.timers,
         playing := if move.Prepare? then s.playing + {move.sink} else s.playing,
         binds := if move.RedeemOk? then s.binds + 1 else s.binds)
  }

  function Apply(s: Sys, step: Step): Sys
    requires Enabled(s, step)
  {
    match step
    case Go(id, move) => ApplyMove(s, id, move)
    case Launch =>
      var id := s.next + 1;
      s.(next := id, sessions := s.sessions[id := NEW_SESSION], runs := s.runs[id := START])
    case FireTimer(id) => RemoveSession(s.(timers := s.timers - {id}), id)
    case Cancel(id) => CancelOne(s, id)
    case CancelAll => CancelEvery(s)
    case AnswerAudio(id, accept) =>
      Add(s.(sessions := TakeChoiceChannel(s.sessions, id),
             runs := s.runs[id := s.runs[id].(answers := s.runs[id].answers + 1, accepted := accept)]),
          Send(id, accept))
    case DecideKey(id) => Add(s, ResolveKey(id))
    case BeginMinimize(id, windowState) => Add(s, FinishMinimize(id, windowState))
    case BeginResume(id) => Add(s, Unsuspend(id, s.sessions[id].sink))
    case RunTask(task, ok) => ApplyTask(s, task, ok)
  }

  // A behaviour is any sequence of enabled steps from the empty agent.
  ghost predicate Behaviour(states: seq<Sys>, steps: seq<Step>) {
    && |states| == |steps| + 1
    && states[0] == INIT
    && forall i :: 0 <= i < |steps| ==> Enabled(states[i], steps[i]) && states[i + 1] == Apply(states[i], steps[i])
  }
}
