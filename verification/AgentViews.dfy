/** Every step keeps what the invariant says about one launch. */
module AgentViews {
  import opened Options
  import opened Sessions
  import opened AgentSystem
  import opened AgentInvariant

  ghost predicate KeepsView(s: Sys, step: Step, id: Id)
    requires Enabled(s, step)
  {
    var s' := Apply(s, step);
    id in s'.runs && LocalOk(ViewOf(s', id), s'.binds)
  }

  // A run's own move on its own data keeps what the invariant says about it.
  ghost predicate KeepsLocal(v: View, t: Table, id: Id, move: Move, binds: nat)
    requires CanMove(v.run, move) && !move.CancelDuplicate? && !move.RemoveOwn?
  {
    LocalOk(MakeView(MovedRun(v.run, t, id, binds + 1, move), MovedTable(t, id, v.run, move), id,
                     v.timer || move.Arm?, v.removing, v.resolving, v.yes, v.no),
            if move.RedeemOk? then binds + 1 else binds)
  }

  ghost predicate Holds(v: View, t: Table, id: Id, move: Move, binds: nat) {
    && CanMove(v.run, move)
    && v == MakeView(v.run, t, id, v.timer, v.removing, v.resolving, v.yes, v.no)
    && LocalOk(v, binds)
  }

  predicate IsRequest(step: Step) {
    step.Launch? || step.DecideKey? || step.BeginMinimize? || step.BeginResume?
  }

  // A run's own move leaves every other launch as it was.
  lemma OtherView(s: Sys, id: Id, move: Move, other: Id)
    requires id in s.runs && CanMove(s.runs[id], move) && !move.CancelDuplicate? && !move.RemoveOwn?
    requires other in s.runs && other != id
    ensures var s' := ApplyMove(s, id, move);
            other in s'.runs && ViewOf(s', other) == ViewOf(s, other) && s'.binds >= s.binds
  {
  }

  lemma OpeningView(v: View, t: Table, id: Id, move: Move, binds: nat)
    requires move.RedeemFail? || move.RedeemOk? || move.SetPreparing?
    requires Holds(v, t, id, move, binds)
    ensures KeepsLocal(v, t, id, move, binds)
  {
  }

  lemma ShowKeyPromptView(v: View, t: Table, id: Id, move: Move, binds: nat)
    requires move.ShowKeyPrompt?
    requires Holds(v, t, id, move, binds)
    ensures KeepsLocal(v, t, id, move, binds)
  {
  }

  lemma BuildView(v: View, t: Table, id: Id, move: Move, binds: nat)
    requires move.FindChangedKey? || move.BuildFail? || move.BuildOk?
    requires Holds(v, t, id, move, binds)
    ensures KeepsLocal(v, t, id, move, binds)
  {
  }

  lemma ReportingView(v: View, t: Table, id: Id, move: Move, binds: nat)
    requires move.Report?
    requires Holds(v, t, id, move, binds)
    ensures KeepsLocal(v, t, id, move, binds)
  {
  }

  lemma SetFailedView(v: View, t: Table, id: Id, move: Move, binds: nat)
    requires move.SetFailed?
    requires Holds(v, t, id, move, binds)
    ensures KeepsLocal(v, t, id, move, binds)
  {
  }

  lemma ArmView(v: View, t: Table, id: Id, move: Move, binds: nat)
    requires move.Arm?
    requires Holds(v, t, id, move, binds)
    ensures KeepsLocal(v, t, id, move, binds)
  {
  }

  lemma SetStartingView(v: View, t: Table, id: Id, move: Move, binds: nat)
    requires move.SetStarting?
    requires Holds(v, t, id, move, binds)
    ensures KeepsLocal(v, t, id, move, binds)
  {
  }

  lemma SetActiveView(v: View, t: Table, id: Id, move: Move, binds: nat)
    requires move.SetActive?
    requires Holds(v, t, id, move, binds)
    ensures KeepsLocal(v, t, id, move, binds)
  {
  }

  lemma PrepareView(v: View, t: Table, id: Id, move: Move, binds: nat)
    requires move.Prepare?
    requires Holds(v, t, id, move, binds)
    ensures KeepsLocal(v, t, id, move, binds)
  {
  }

  lemma AttachView(v: View, t: Table, id: Id, move: Move, binds: nat)
    requires move.Attach?
    requires Holds(v, t, id, move, binds)
    ensures KeepsLocal(v, t, id, move, binds)
  {
  }

  lemma SkipAudioView(v: View, t: Table, id: Id, move: Move, binds: nat)
    requires move.SkipAudio?
    requires Holds(v, t, id, move, binds)
    ensures KeepsLocal(v, t, id, move, binds)
  {
  }

  lemma StartClientView(v: View, t: Table, id: Id, move: Move, binds: nat)
    requires move.StartClient?
    requires Holds(v, t, id, move, binds)
    ensures KeepsLocal(v, t, id, move, binds)
  {
  }

  lemma NotePidView(v: View, t: Table, id: Id, move: Move, binds: nat)
    requires move.NotePid?
    requires Holds(v, t, id, move, binds)
    ensures KeepsLocal(v, t, id, move, binds)
  {
  }

  lemma ReturnView(v: View, t: Table, id: Id, move: Move, binds: nat)
    requires move.Return?
    requires Holds(v, t, id, move, binds)
    ensures KeepsLocal(v, t, id, move, binds)
  {
  }

  lemma LoseAudioView(v: View, t: Table, id: Id, move: Move, binds: nat)
    requires move.LoseAudio?
    requires Holds(v, t, id, move, binds)
    ensures KeepsLocal(v, t, id, move, binds)
  {
  }

  lemma AskAudioView(v: View, t: Table, id: Id, move: Move, binds: nat)
    requires move.AskAudio?
    requires Holds(v, t, id, move, binds)
    ensures KeepsLocal(v, t, id, move, binds)
  {
  }

  lemma AbandonView(v: View, t: Table, id: Id, move: Move, binds: nat)
    requires move.Abandon?
    requires Holds(v, t, id, move, binds)
    ensures KeepsLocal(v, t, id, move, binds)
  {
  }

  lemma TakeChoiceView(v: View, t: Table, id: Id, move: Move, binds: nat)
    requires move.TakeChoice?
    requires Holds(v, t, id, move, binds)
    ensures KeepsLocal(v, t, id, move, binds)
  {
  }

  lemma AcceptView(v: View, t: Table, id: Id, binds: nat)
    requires Holds(v, t, id, CloseQuestion, binds) && v.run.point == Answered(true)
    ensures KeepsLocal(v, t, id, CloseQuestion, binds)
  {
  }

  lemma DeclineView(v: View, t: Table, id: Id, binds: nat)
    requires Holds(v, t, id, CloseQuestion, binds) && v.run.point == Answered(false)
    ensures KeepsLocal(v, t, id, CloseQuestion, binds)
  {
  }

  lemma DecideView(v: View, t: Table, id: Id, move: Move, binds: nat)
    requires move.Decide?
    requires Holds(v, t, id, move, binds)
    ensures KeepsLocal(v, t, id, move, binds)
  {
  }

  lemma SetStoppingView(v: View, t: Table, id: Id, move: Move, binds: nat)
    requires move.SetStopping?
    requires Holds(v, t, id, move, binds)
    ensures KeepsLocal(v, t, id, move, binds)
  {
  }

  // What a removal does to one launch's view.
  function Removed(v: View): View {
    v.(session := None)
  }

  lemma RemoveSessionView(s: Sys, target: Id, id: Id)
    requires id in s.runs
    ensures var s' := RemoveSession(s, target);
            id in s'.runs && ViewOf(s', id) == if id == target then Removed(ViewOf(s, id)) else ViewOf(s, id)
  {
  }

  lemma DoneOk(v: View, binds: nat)
    requires LocalOk(v, binds) && v.run.point.Removing?
    ensures LocalOk(Removed(v).(run := v.run.(point := Done)), binds)
  {
  }

  lemma RemoveOwnView(s: Sys, id: Id, other: Id)
    requires id in s.runs && CanMove(s.runs[id], RemoveOwn) && other in s.runs
    requires LocalOk(ViewOf(s, other), s.binds)
    ensures KeepsView(s, Go(id, RemoveOwn), other)
  {
    RemoveSessionView(Goto(s, id, Done), id, other);
    hide LocalOk;
    var v, v' := ViewOf(s, other), ViewOf(ApplyMove(s, id, RemoveOwn), other);
    if id == other { DoneOk(v, s.binds); }
    assert v' == if id == other then Removed(v).(run := v.run.(point := Done)) else v;
  }

  lemma TimerView(s: Sys, id: Id, other: Id)
    requires id in s.timers && other in s.runs
    requires LocalOk(ViewOf(s, other), s.binds)
    ensures KeepsView(s, FireTimer(id), other)
  {
    RemoveSessionView(s.(timers := s.timers - {id}), id, other);
  }

  // What Cancel does to the view of the launch it names.
  function Stopped(v: View): View {
    if v.session.None? then v else
    v.(session := Some(v.session.value.(state := Stopping)),
       run := v.run.(cancelled := true),
       removing := v.removing || Terminal(v.session.value))
  }

  lemma CancelOneView(s: Sys, target: Id, id: Id)
    requires id in s.runs
    ensures var s' := CancelOne(s, target);
            id in s'.runs && ViewOf(s', id) == if id == target then Stopped(ViewOf(s, id)) else ViewOf(s, id)
  {
    if id != target {
      assert ViewOf(CancelOne(s, target), id) == ViewOf(s, id);
    }
  }

  lemma CancelEveryView(s: Sys, id: Id)
    requires id in s.runs
    ensures var s' := CancelEvery(s); id in s'.runs && ViewOf(s', id) == Stopped(ViewOf(s, id))
  {
  }

  lemma StoppedOk(v: View, binds: nat)
    requires LocalOk(v, binds)
    ensures LocalOk(Stopped(v), binds)
  {
  }

  lemma CancelView(s: Sys, step: Step, id: Id)
    requires Enabled(s, step) && id in s.runs && (step.Cancel? || step.CancelAll?)
    requires LocalOk(ViewOf(s, id), s.binds)
    ensures KeepsView(s, step, id)
  {
    StoppedOk(ViewOf(s, id), s.binds);
    if step.Cancel? {
      CancelOneView(s, step.id, id);
    } else {
      CancelEveryView(s, id);
    }
  }

  lemma CancelDuplicateView(s: Sys, id: Id, d: Id, other: Id)
    requires id in s.runs && CanMove(s.runs[id], CancelDuplicate(d)) && other in s.runs
    requires LocalOk(ViewOf(s, other), s.binds)
    ensures KeepsView(s, Go(id, CancelDuplicate(d)), other)
  {
    var s0 := Goto(s, id, Replacing(s.runs[id].point.duplicates - {d}));
    assert LocalOk(ViewOf(s0, other), s0.binds);
    CancelOneView(s0, d, other);
    StoppedOk(ViewOf(s0, other), s0.binds);
  }

  lemma RequestView(s: Sys, step: Step, id: Id)
    requires Registered(s) && Enabled(s, step) && id in s.runs && IsRequest(step)
    requires LocalOk(ViewOf(s, id), s.binds)
    ensures KeepsView(s, step, id)
  {
  }

  lemma AnswerView(s: Sys, target: Id, accept: bool, id: Id)
    requires Enabled(s, AnswerAudio(target, accept)) && id in s.runs
    requires LocalOk(ViewOf(s, id), s.binds)
    ensures KeepsView(s, AnswerAudio(target, accept), id)
  {
    var v, v' := ViewOf(s, id), ViewOf(Apply(s, AnswerAudio(target, accept)), id);
    assert id != target ==> v' == v;
    assert id == target ==> v'.yes + v'.no == v.yes + v.no + 1 && !v'.session.value.choiceOpen && v.session.value.choiceOpen;
  }

  // Tasks that change nothing a view shows.
  lemma RelayView(s: Sys, task: Task, ok: bool, id: Id)
    requires Enabled(s, RunTask(task, ok)) && id in s.runs
    requires task.Suspend? || task.Release? || task.Unsuspend?
    ensures var s' := ApplyTask(s, task, ok);
            id in s'.runs && ViewOf(s', id) == ViewOf(s, id) && s'.binds == s.binds
  {
    hide InUse;
  }

  lemma EndMinimizeView(s: Sys, target: Id, windowState: string, ok: bool, id: Id)
    requires id in s.runs
    ensures var s' := EndMinimize(s, target, windowState, ok);
            id in s'.runs && ViewOf(s', id) == ViewOf(s, id) && s'.binds == s.binds
  {
    hide InUse;
  }

  lemma EndResumeView(s: Sys, target: Id, sink: string, ok: bool, id: Id)
    requires id in s.runs
    ensures var s' := EndResume(s, target, sink, ok);
            id in s'.runs && ViewOf(s', id) == ViewOf(s, id) && s'.binds == s.binds
  {
  }

  lemma WindowView(s: Sys, task: Task, ok: bool, id: Id)
    requires Enabled(s, RunTask(task, ok)) && id in s.runs
    requires task.FinishMinimize? || task.FinishResume?
    ensures var s' := ApplyTask(s, task, ok);
            id in s'.runs && ViewOf(s', id) == ViewOf(s, id) && s'.binds == s.binds
  {
    hide EndMinimize, EndResume;
    var s0 := s.(tasks := s.tasks - multiset{task});
    if task.FinishMinimize? {
      EndMinimizeView(s0, task.id, task.windowState, ok, id);
    } else {
      EndResumeView(s0, task.id, task.sink, ok, id);
    }
  }

  lemma SendView(s: Sys, task: Task, ok: bool, id: Id)
    requires Enabled(s, RunTask(task, ok)) && id in s.runs && task.Send?
    ensures var s' := ApplyTask(s, task, ok);
            var v := ViewOf(s, id);
            && id in s'.runs && s'.binds == s.binds
            && (id == task.id ==> if task.accept then v.yes > 0 else v.no > 0)
            && ViewOf(s', id) == if id == task.id then Sent(v, task.accept) else v
  {
  }

  // What delivering an answer does to one launch's view.
  function Sent(v: View, accept: bool): View {
    v.(yes := if accept && v.yes > 0 then v.yes - 1 else v.yes,
       no := if !accept && v.no > 0 then v.no - 1 else v.no,
       run := v.run.(choice := Some(accept)))
  }

  lemma SentOk(v: View, accept: bool, binds: nat)
    requires LocalOk(v, binds) && (if accept then v.yes > 0 else v.no > 0)
    ensures LocalOk(Sent(v, accept), binds)
  {
  }

  lemma ResolvedOk(v: View, resolving: bool, removing: bool, binds: nat)
    requires LocalOk(v, binds) && (resolving ==> v.resolving)
    requires v.removing ==> removing
    requires removing ==> v.removing || v.resolving
    ensures LocalOk(v.(resolving := resolving, removing := removing), binds)
  {
  }

  lemma ResolveView(s: Sys, task: Task, ok: bool, id: Id)
    requires Enabled(s, RunTask(task, ok)) && id in s.runs && task.ResolveKey?
    requires LocalOk(ViewOf(s, id), s.binds)
    ensures KeepsView(s, RunTask(task, ok), id)
  {
    hide LocalOk;
    var v, v' := ViewOf(s, id), ViewOf(ApplyTask(s, task, ok), id);
    assert v' == v.(resolving := v'.resolving, removing := v.removing || (ok && id == task.id));
    assert v'.resolving ==> v.resolving;
    assert ok && id == task.id ==> v.resolving;
    ResolvedOk(v, v'.resolving, v'.removing, s.binds);
  }

  lemma RemovedOk(v: View, removing: bool, binds: nat)
    requires LocalOk(v, binds) && v.removing
    ensures LocalOk(Removed(v).(removing := removing), binds)
  {
  }

  lemma RemoveTaskView(s: Sys, task: Task, ok: bool, id: Id)
    requires Enabled(s, RunTask(task, ok)) && id in s.runs && task.Remove?
    requires LocalOk(ViewOf(s, id), s.binds)
    ensures KeepsView(s, RunTask(task, ok), id)
  {
    hide LocalOk;
    var v, v' := ViewOf(s, id), ViewOf(ApplyTask(s, task, ok), id);
    RemoveSessionView(s.(tasks := s.tasks - multiset{task}), task.id, id);
    assert v' == if id == task.id then Removed(v).(removing := v'.removing) else v;
    if id == task.id { RemovedOk(v, v'.removing, s.binds); }
  }

  lemma TaskView(s: Sys, task: Task, ok: bool, id: Id)
    requires Enabled(s, RunTask(task, ok)) && id in s.runs
    requires LocalOk(ViewOf(s, id), s.binds)
    ensures KeepsView(s, RunTask(task, ok), id)
  {
    match task
    case Remove(_) => RemoveTaskView(s, task, ok, id);
    case Suspend(_) => RelayView(s, task, ok, id);
    case Release(_) => RelayView(s, task, ok, id);
    case Send(_, accept) =>
      SendView(s, task, ok, id);
      if id == task.id { SentOk(ViewOf(s, id), accept, s.binds); }
    case FinishMinimize(_, _) => WindowView(s, task, ok, id);
    case Unsuspend(_, _) => RelayView(s, task, ok, id);
    case FinishResume(_, _) => WindowView(s, task, ok, id);
    case ResolveKey(_) => ResolveView(s, task, ok, id);
  }

  lemma CloseView(v: View, t: Table, id: Id, binds: nat)
    requires Holds(v, t, id, CloseQuestion, binds)
    ensures KeepsLocal(v, t, id, CloseQuestion, binds)
  {
    hide KeepsLocal, LocalOk, MakeView;
    if v.run.point.accept { AcceptView(v, t, id, binds); } else { DeclineView(v, t, id, binds); }
  }

  // A run's own move keeps its own view, whatever the move.
  lemma MoveView(v: View, t: Table, id: Id, move: Move, binds: nat)
    requires !move.CancelDuplicate? && !move.RemoveOwn?
    requires Holds(v, t, id, move, binds)
    ensures KeepsLocal(v, t, id, move, binds)
  {
    hide Holds, KeepsLocal;
    match move
    case RedeemFail => OpeningView(v, t, id, move, binds);
    case RedeemOk(_, _, _) => OpeningView(v, t, id, move, binds);
    case SetPreparing => OpeningView(v, t, id, move, binds);
    case FindChangedKey => BuildView(v, t, id, move, binds);
    case BuildFail => BuildView(v, t, id, move, binds);
    case BuildOk => BuildView(v, t, id, move, binds);
    case ShowKeyPrompt => ShowKeyPromptView(v, t, id, move, binds);
    case SetFailed => SetFailedView(v, t, id, move, binds);
    case Report => ReportingView(v, t, id, move, binds);
    case Arm => ArmView(v, t, id, move, binds);
    case SetStarting => SetStartingView(v, t, id, move, binds);
    case SetActive => SetActiveView(v, t, id, move, binds);
    case Prepare(_) => PrepareView(v, t, id, move, binds);
    case Attach => AttachView(v, t, id, move, binds);
    case SkipAudio => SkipAudioView(v, t, id, move, binds);
    case StartClient => StartClientView(v, t, id, move, binds);
    case NotePid(_) => NotePidView(v, t, id, move, binds);
    case Return(_) => ReturnView(v, t, id, move, binds);
    case LoseAudio => LoseAudioView(v, t, id, move, binds);
    case AskAudio => AskAudioView(v, t, id, move, binds);
    case TakeChoice => TakeChoiceView(v, t, id, move, binds);
    case CloseQuestion => CloseView(v, t, id, binds);
    case Abandon => AbandonView(v, t, id, move, binds);
    case Decide(_) => DecideView(v, t, id, move, binds);
    case SetStopping => SetStoppingView(v, t, id, move, binds);
  }

  lemma MovedView(s: Sys, id: Id, move: Move)
    requires id in s.runs && CanMove(s.runs[id], move) && !move.CancelDuplicate? && !move.RemoveOwn?
    ensures var s' := ApplyMove(s, id, move);
            var v := ViewOf(s, id);
            && id in s'.runs
            && s'.binds == (if move.RedeemOk? then s.binds + 1 else s.binds)
            && ViewOf(s', id) == MakeView(MovedRun(v.run, s.sessions, id, s.binds + 1, move),
                                          MovedTable(s.sessions, id, v.run, move), id,
                                          v.timer || move.Arm?, v.removing, v.resolving, v.yes, v.no)
  {
    hide CanMove, MovedRun, MovedTable;
  }

  lemma OwnView(s: Sys, id: Id, move: Move)
    requires id in s.runs && CanMove(s.runs[id], move) && LocalOk(ViewOf(s, id), s.binds)
    ensures KeepsView(s, Go(id, move), id)
  {
    hide LocalOk, MovedRun, MovedTable, CanMove, ApplyMove;
    if move.CancelDuplicate? {
      CancelDuplicateView(s, id, move.duplicate, id);
    } else if move.RemoveOwn? {
      RemoveOwnView(s, id, id);
    } else {
      MovedView(s, id, move);
      MoveView(ViewOf(s, id), s.sessions, id, move, s.binds);
    }
  }

  lemma StepView(s: Sys, step: Step, id: Id)
    requires Registered(s) && Enabled(s, step) && id in s.runs && LocalOk(ViewOf(s, id), s.binds)
    ensures KeepsView(s, step, id)
  {
    match step
    case Go(mover, move) =>
      if mover == id {
        OwnView(s, id, move);
      } else if move.CancelDuplicate? {
        CancelDuplicateView(s, mover, move.duplicate, id);
      } else if move.RemoveOwn? {
        RemoveOwnView(s, mover, id);
      } else {
        OtherView(s, mover, move, id);
      }
    case Launch => RequestView(s, step, id);
    case FireTimer(target) => TimerView(s, target, id);
    case Cancel(_) => CancelView(s, step, id);
    case CancelAll => CancelView(s, step, id);
    case AnswerAudio(target, accept) => AnswerView(s, target, accept, id);
    case DecideKey(_) => RequestView(s, step, id);
    case BeginMinimize(_, _) => RequestView(s, step, id);
    case BeginResume(_) => RequestView(s, step, id);
    case RunTask(task, ok) => TaskView(s, task, ok, id);
  }

  // What other launches' steps, requests, timers and tasks can do to a launch:
  // cancel it, remove it, or take an answer to its question.
  ghost predicate Passive(v: View, v': View) {
    && v'.run == v.run.(cancelled := v'.run.cancelled, choice := v'.run.choice, answers := v'.run.answers,
                         accepted := v'.run.accepted)
    && (v.run.cancelled ==> v'.run.cancelled)
    && (v'.session.Some? ==>
          && v.session.Some?
          && v'.session.value == v.session.value.(state := v'.session.value.state,
                                                 choiceOpen := v'.session.value.choiceOpen)
          && (v'.session.value.state == v.session.value.state
              || (v'.session.value.state.Stopping? && v'.run.cancelled)))
  }

  lemma PassiveTask(s: Sys, task: Task, ok: bool, id: Id)
    requires Enabled(s, RunTask(task, ok)) && id in s.runs
    ensures var s' := ApplyTask(s, task, ok); id in s'.runs && Passive(ViewOf(s, id), ViewOf(s', id))
  {
    match task
    case Remove(target) => RemoveSessionView(s.(tasks := s.tasks - multiset{task}), target, id);
    case Suspend(_) => RelayView(s, task, ok, id);
    case Release(_) => RelayView(s, task, ok, id);
    case Send(_, _) => SendView(s, task, ok, id);
    case FinishMinimize(_, _) => WindowView(s, task, ok, id);
    case Unsuspend(_, _) => RelayView(s, task, ok, id);
    case FinishResume(_, _) => WindowView(s, task, ok, id);
    case ResolveKey(_) =>
  }

  lemma PassiveMove(s: Sys, mover: Id, move: Move, id: Id)
    requires mover in s.runs && CanMove(s.runs[mover], move) && id in s.runs && mover != id
    ensures var s' := ApplyMove(s, mover, move); id in s'.runs && Passive(ViewOf(s, id), ViewOf(s', id))
  {
    if move.CancelDuplicate? {
      CancelOneView(Goto(s, mover, Replacing(s.runs[mover].point.duplicates - {move.duplicate})), move.duplicate, id);
    } else if move.RemoveOwn? {
      RemoveSessionView(Goto(s, mover, Done), mover, id);
    } else {
      OtherView(s, mover, move, id);
    }
  }

  lemma PassiveRequest(s: Sys, step: Step, id: Id)
    requires Registered(s) && Enabled(s, step) && id in s.runs && (IsRequest(step) || step.AnswerAudio?)
    ensures id in Apply(s, step).runs && Passive(ViewOf(s, id), ViewOf(Apply(s, step), id))
  {
  }

  lemma PassiveStep(s: Sys, step: Step, id: Id)
    requires Registered(s) && Enabled(s, step) && id in s.runs
    requires step.Go? ==> step.id != id
    ensures id in Apply(s, step).runs && Passive(ViewOf(s, id), ViewOf(Apply(s, step), id))
  {
    hide ViewOf, Passive, ApplyMove, ApplyTask, CanMove;
    match step
    case Go(mover, move) => PassiveMove(s, mover, move, id);
    case Launch => PassiveRequest(s, step, id);
    case FireTimer(_) => PassiveDirect(s, step, id);
    case Cancel(_) => PassiveDirect(s, step, id);
    case CancelAll => PassiveDirect(s, step, id);
    case AnswerAudio(_, _) => PassiveRequest(s, step, id);
    case DecideKey(_) => PassiveRequest(s, step, id);
    case BeginMinimize(_, _) => PassiveRequest(s, step, id);
    case BeginResume(_) => PassiveRequest(s, step, id);
    case RunTask(task, ok) => PassiveTask(s, task, ok, id);
  }

  lemma PassiveDirect(s: Sys, step: Step, id: Id)
    requires Enabled(s, step) && id in s.runs && (step.FireTimer? || step.Cancel? || step.CancelAll?)
    ensures id in Apply(s, step).runs && Passive(ViewOf(s, id), ViewOf(Apply(s, step), id))
  {
    if step.FireTimer? {
      RemoveSessionView(s.(timers := s.timers - {step.id}), step.id, id);
    } else if step.Cancel? {
      CancelOneView(s, step.id, id);
    } else {
      CancelEveryView(s, id);
    }
  }
}
