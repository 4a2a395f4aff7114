/** What every step of the agent keeps, one predicate per concern. */
module AgentInvariant {
  import opened Options
  import opened Sessions
  import opened AgentSystem

  // The state an uncancelled session shows at each program point.
  function Shown(p: Point): State {
    match p
    case Redeem => Redeeming
    case Rejected => Redeeming
    case Replacing(_) => Redeeming
    case Building => Preparing
    case KeyChanged => Preparing
    case KeyPrompted => Failed
    case Unbuildable => Preparing
    case Unbuilt => Failed
    case Built => Preparing
    case Announcing => Starting
    case Announced => Starting
    case Running(_, _) => Active
    case NoAudio => Active
    case Asking => Failed
    case Answered(_) => Failed
    case Declining => Failed
    case Retrying => Failed
    case Restarting => Starting
    case Ended(_, was) => was
    case Settling(_, was) => was
    case Failing(was) => was
    case Closing(was) => was
    case Removing(was) => was
    case Arming => Failed
    case Done => Failed
  }

  // The reports a finished run can have made.
  ghost predicate IsReport(trace: seq<Event>) {
    trace == [] || trace == [SessionFailed] || trace == [SessionStarted, SessionExited]
  }

  // What has been reported to the controller by each program point.
  ghost predicate TraceAt(p: Point, trace: seq<Event>) {
    match p
    case Unbuilt => trace == []
    case Arming => IsReport(trace)
    case Done => IsReport(trace)
    case Announced => trace == [SessionStarted]
    case Running(_, _) => trace == [SessionStarted]
    case NoAudio => trace == [SessionStarted]
    case Asking => trace == [SessionStarted]
    case Answered(_) => trace == [SessionStarted]
    case Declining => trace == [SessionStarted]
    case Retrying => trace == [SessionStarted]
    case Restarting => trace == [SessionStarted]
    case Ended(_, _) => trace == [SessionStarted]
    case Settling(_, _) => trace == [SessionStarted, SessionExited]
    case Failing(_) => trace == [SessionStarted, SessionExited]
    case Closing(_) => trace == [SessionStarted, SessionExited]
    case Removing(_) => trace == [SessionStarted, SessionExited]
    case _ => trace == []
  }

  // The run has not yet opened its audio question.
  ghost predicate BeforeQuestion(p: Point) {
    match p
    case Redeem => true
    case Rejected => true
    case Replacing(_) => true
    case Building => true
    case KeyChanged => true
    case Unbuildable => true
    case Built => true
    case Announcing => true
    case Announced => true
    case Running(first, _) => first
    case NoAudio => true
    case _ => false
  }

  // The audio question has been closed and the session goes on.
  ghost predicate AfterQuestion(p: Point) {
    p.Retrying? || p.Restarting? || (p.Running? && !p.first) || p.Declining?
  }

  ghost predicate BeforeSink(p: Point) {
    match p
    case Running(first, phase) => first && (phase.Setup? || phase.Prepared?)
    case NoAudio => false
    case _ => BeforeQuestion(p)
  }

  // A session without what only window operations write.
  function Plain(x: Session): Session {
    x.(minimized := false, windowState := "")
  }

  // Everything the system holds about one launch; `yes` and `no` count the
  // answers being sent to it.
  datatype View = View(
    run: Run,
    session: Option<Session>,
    timer: bool,
    removing: bool,
    resolving: bool,
    yes: nat,
    no: nat)

  function MakeView(r: Run, t: Table, id: Id, timer: bool, removing: bool, resolving: bool,
                    yes: nat, no: nat): View {
    View(r, if id in t then Some(Plain(t[id])) else None, timer, removing, resolving, yes, no)
  }

  function ViewOf(s: Sys, id: Id): View
    requires id in s.runs
  {
    MakeView(s.runs[id], s.sessions, id, id in s.timers, Remove(id) in s.tasks, ResolveKey(id) in s.tasks,
             s.tasks[Send(id, true)], s.tasks[Send(id, false)])
  }

  // Answers on their way to a run: an unanswered question, an answer being
  // sent, or one already in the channel.
  ghost function Answers(v: View): nat {
    (if v.session.Some? && v.session.value.choiceOpen then 1 else 0)
    + v.yes + v.no
    + (if v.run.choice.Some? then 1 else 0)
  }

  // A run alone: its point, what it reported, how often it restarted.
  ghost predicate RunOk(r: Run) {
    && TraceAt(r.point, r.trace)
    && r.retries <= 1
    && (r.audioOff <==> r.retries == 1)
    && (BeforeQuestion(r.point) || r.point.Asking? || r.point.Answered? ==> r.retries == 0)
    && (r.point.Retrying? || r.point.Restarting? || (r.point.Running? && !r.point.first) ==> r.retries == 1)
    && (r.point.Running? && !r.point.first ==> !r.point.phase.Prepared?)
    && (r.point.Removing? ==> r.point.was.Failed? || r.point.was.Stopping?)
    && (r.point.Ended? || r.point.Settling? || r.point.Failing? || r.point.Closing? ==>
          r.point.was.Failed? || r.point.was.Active?)
    && ((r.point.Ended? || r.point.Settling?) && r.point.was.Failed? ==> r.point.err)
    && (r.point.Closing? && r.point.was.Failed? ==> r.cancelled)
  }

  // A run against the table, the timers and the pending removals.
  ghost predicate TrackOk(v: View) {
    var p := v.run.point;
    && (v.session.Some? ==>
          var x := v.session.value;
          && (x.state.Stopping? ==> v.run.cancelled || p == Removing(Stopping))
          && (!v.run.cancelled ==> x.state == Shown(p))
          && (BeforeQuestion(p) ==> x.state == Shown(p) || x.state.Stopping?)
          && (x.hostKeyPending ==> (p.KeyPrompted? || p.Done?) && x.prompt.HostKeyPrompt?)
          && (p.KeyPrompted? ==> x.hostKeyPending)
          && (p.Done? ==> v.timer || x.hostKeyPending || v.removing))
    && (BeforeQuestion(p) ==> v.session.Some? && !v.removing)
    && (!p.Done? && !p.KeyPrompted? ==>
          !v.timer && !v.resolving && (v.session.Some? || v.run.cancelled) && (v.removing ==> v.run.cancelled))
    && (p.KeyPrompted? ==> !v.timer)
  }

  // The confirmation shown for a run and the answers it can receive.
  ghost predicate PromptOk(v: View) {
    var p := v.run.point;
    && Answers(v) <= 1
    && v.run.answers <= 1
    && (BeforeQuestion(p) ==> Answers(v) == 0 && v.run.answers == 0)
    && (v.yes > 0 ==> v.run.answers == 1 && v.run.accepted)
    && (v.no > 0 ==> v.run.answers == 1 && !v.run.accepted)
    && (v.run.choice.Some? ==> v.run.answers == 1 && v.run.choice.value == v.run.accepted)
    && (p.Answered? ==> v.run.answers == 1 && v.run.accepted == p.accept)
    && (p.Retrying? || p.Restarting? || (p.Running? && !p.first) ==> v.run.answers == 1 && v.run.accepted)
    && (v.session.Some? ==>
          var x := v.session.value;
          && (!x.prompt.NoPrompt? ==> x.state.Failed? || x.state.Stopping?)
          && (BeforeQuestion(p) || AfterQuestion(p) ==> x.prompt.NoPrompt?)
          && (x.choiceOpen ==> x.prompt.AudioPrompt? && v.run.answers == 0)
          && (BeforeSink(p) ==> x.sink == "" && x.pid == 0))
  }

  ghost predicate BindOk(v: View, binds: nat) {
    && v.run.bound <= binds
    && (v.run.point.Redeem? ==> v.run.bound == 0)
    && (v.session.Some? ==>
          v.session.value.connection == if v.run.bound == 0 then 0 else v.run.connection)
  }

  ghost predicate LocalOk(v: View, binds: nat) {
    RunOk(v.run) && TrackOk(v) && PromptOk(v) && BindOk(v, binds)
  }

  ghost predicate Registered(s: Sys) {
    && (forall id :: id in s.runs <==> 1 <= id <= s.next)
    && (forall id :: id in s.sessions ==> id in s.runs)
    && (forall id :: id in s.timers ==> id in s.runs)
    && (forall task :: task in s.tasks && !task.Suspend? && !task.Release? ==> task.id in s.runs)
  }

  ghost predicate Local(s: Sys) {
    Registered(s) && forall id :: id in s.runs ==> LocalOk(ViewOf(s, id), s.binds)
  }

  // Window operations concern a client that is known, whose sink no longer
  // changes; a resume in flight names that sink.
  ghost predicate WindowOk(s: Sys, id: Id)
    requires id in s.sessions
  {
    var x := s.sessions[id];
    && (x.minimized ==> x.pid != 0)
    && (forall text :: FinishMinimize(id, text) in s.tasks ==> x.pid != 0)
    && (forall k :: Unsuspend(id, k) in s.tasks || FinishResume(id, k) in s.tasks ==> x.sink == k && x.pid != 0)
  }

  ghost predicate ResumeOk(s: Sys) {
    forall id :: id in s.sessions ==> WindowOk(s, id)
  }

  // `older` will be stopped: it is cancelled, is stopping, or is listed as a
  // duplicate by a run that is still replacing sessions.
  ghost predicate Superseded(s: Sys, older: Id)
    requires older in s.runs && older in s.sessions
  {
    || s.runs[older].cancelled
    || s.sessions[older].state.Stopping?
    || exists newer :: newer in s.runs && s.runs[newer].point.Replacing? && older in s.runs[newer].point.duplicates
  }

  ghost predicate OneBindOrder(s: Sys) {
    forall i, j :: i in s.runs && j in s.runs && i != j && s.runs[i].bound != 0 ==> s.runs[i].bound != s.runs[j].bound
  }

  ghost predicate OnePerConnection(s: Sys)
    requires Registered(s)
  {
    forall i, j ::
      i in s.sessions && j in s.sessions && i != j
      && s.sessions[i].connection == s.sessions[j].connection != 0
      && s.runs[i].bound < s.runs[j].bound
      ==> Superseded(s, i)
  }

  // Someone will still look at `sink`: a tracked session refers to it, or an
  // operation in flight will attach, suspend or recheck it.
  ghost predicate Accounted(s: Sys, sink: string) {
    || (exists id :: id in s.sessions && s.sessions[id].sink == sink)
    || Suspend(sink) in s.tasks
    || Release(sink) in s.tasks
    || (exists id: Id :: FinishResume(id, sink) in s.tasks)
    || (exists id :: At(s, id, Running(true, Prepared(sink))))
  }

  ghost predicate NoLeak(s: Sys) {
    "" !in s.playing && forall sink :: sink in s.playing ==> Accounted(s, sink)
  }

  ghost predicate Inv(s: Sys) {
    Local(s) && ResumeOk(s) && OneBindOrder(s) && OnePerConnection(s) && NoLeak(s)
  }
}
