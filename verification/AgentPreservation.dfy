/** Every step keeps the agent's whole invariant. */
module AgentPreservation {
  import opened Options
  import opened Sessions
  import opened AgentSystem
  import opened AgentInvariant
  import opened AgentViews

  // ---- Registration ----

  // No step but a launch adds a run, a session or a timer for another launch.
  lemma MoveRunDomain(s: Sys, id: Id, move: Move)
    requires id in s.runs && CanMove(s.runs[id], move)
    ensures var s' := ApplyMove(s, id, move); s'.runs.Keys == s.runs.Keys && s'.next == s.next
  {
  }

  lemma MoveDomain(s: Sys, id: Id, move: Move)
    requires id in s.runs && CanMove(s.runs[id], move)
    ensures var s' := ApplyMove(s, id, move); s'.sessions.Keys <= s.sessions.Keys && s'.timers <= s.timers + {id}
  {
  }

  lemma CancelDomain(s: Sys, id: Id)
    ensures var s' := CancelOne(s, id);
            && s'.runs.Keys == s.runs.Keys && s'.next == s.next
            && s'.sessions.Keys == s.sessions.Keys && s'.timers == s.timers
  {
  }

  lemma RemoveDomain(s: Sys, id: Id)
    ensures var s' := RemoveSession(s, id);
            && s'.runs.Keys == s.runs.Keys && s'.next == s.next
            && s'.sessions.Keys <= s.sessions.Keys && s'.timers == s.timers
  {
  }

  lemma WindowDomain(s: Sys, id: Id, text: string, ok: bool)
    ensures SameDomain(s, EndMinimize(s, id, text, ok)) && SameDomain(s, EndResume(s, id, text, ok))
  {
    hide InUse;
  }

  predicate SameDomain(s: Sys, s': Sys) {
    s'.runs.Keys == s.runs.Keys && s'.next == s.next && s'.sessions.Keys == s.sessions.Keys && s'.timers == s.timers
  }

  lemma SendDomain(s: Sys, id: Id, accept: bool, ok: bool)
    requires Enabled(s, RunTask(Send(id, accept), ok))
    ensures SameDomain(s, ApplyTask(s, Send(id, accept), ok))
  {
  }

  lemma RelayDomain(s: Sys, task: Task, ok: bool)
    requires task in s.tasks && (task.Suspend? || task.Release? || task.Unsuspend? || task.ResolveKey?)
    ensures SameDomain(s, ApplyTask(s, task, ok))
  {
    hide InUse;
  }

  lemma TaskDomain(s: Sys, task: Task, ok: bool)
    requires Enabled(s, RunTask(task, ok))
    ensures var s' := ApplyTask(s, task, ok);
            && s'.runs.Keys == s.runs.Keys && s'.next == s.next
            && s'.sessions.Keys <= s.sessions.Keys && s'.timers == s.timers
  {
    hide RemoveSession, EndMinimize, EndResume, InUse;
    var s0 := s.(tasks := s.tasks - multiset{task});
    match task
    case Remove(id) => RemoveDomain(s0, id);
    case FinishMinimize(id, windowState) => WindowDomain(s0, id, windowState, ok);
    case FinishResume(id, sink) => WindowDomain(s0, id, sink, ok);
    case Send(id, accept) => SendDomain(s, id, accept, ok);
    case _ => RelayDomain(s, task, ok);
  }

  // A step adds at most the launch it makes.
  lemma Domain(s: Sys, step: Step)
    requires Enabled(s, step)
    ensures var s' := Apply(s, step);
            && s'.runs.Keys == (if step.Launch? then s.runs.Keys + {s.next + 1} else s.runs.Keys)
            && s'.next == (if step.Launch? then s.next + 1 else s.next)
            && s'.sessions.Keys <= (if step.Launch? then s.sessions.Keys + {s.next + 1} else s.sessions.Keys)
            && s'.timers <= (if step.Go? then s.timers + {step.id} else s.timers)
            && (step.Launch? ==> s.next + 1 in s'.sessions && s'.sessions[s.next + 1] == NEW_SESSION
                                 && s'.runs[s.next + 1] == START)
  {
    hide ApplyMove, ApplyTask, CanMove, CancelOne, RemoveSession;
    if step.Go? {
      MoveRunDomain(s, step.id, step.move);
      MoveDomain(s, step.id, step.move);
    } else if step.RunTask? {
      TaskDomain(s, step.task, step.ok);
    } else if step.Cancel? {
      CancelDomain(s, step.id);
    } else if step.FireTimer? {
      RemoveDomain(s.(timers := s.timers - {step.id}), step.id);
    }
  }

  // Every task about a launch comes from an existing launch.
  lemma MoveTaskOrigin(s: Sys, id: Id, move: Move, task: Task)
    requires Registered(s) && id in s.runs && CanMove(s.runs[id], move)
    requires task in ApplyMove(s, id, move).tasks && !task.Suspend? && !task.Release?
    ensures task.id in s.runs
  {
  }

  lemma RelayedTaskOrigin(s: Sys, done: Task, ok: bool, task: Task)
    requires Registered(s) && Enabled(s, RunTask(done, ok))
    requires task in ApplyTask(s, done, ok).tasks && !task.Suspend? && !task.Release?
    ensures task.id in s.runs
  {
  }

  lemma TaskOrigin(s: Sys, step: Step, task: Task)
    requires Registered(s) && Enabled(s, step)
    requires task in Apply(s, step).tasks && !task.Suspend? && !task.Release?
    ensures task.id in s.runs
  {
    if step.Go? {
      hide ApplyMove;
      MoveTaskOrigin(s, step.id, step.move, task);
    } else if step.RunTask? {
      hide ApplyTask;
      RelayedTaskOrigin(s, step.task, step.ok, task);
    }
  }

  lemma RegisteredKept(s: Sys, step: Step)
    requires Registered(s) && Enabled(s, step)
    ensures Registered(Apply(s, step))
  {
    var s' := Apply(s, step);
    Domain(s, step);
    forall task | task in s'.tasks && !task.Suspend? && !task.Release?
      ensures task.id in s.runs
    {
      TaskOrigin(s, step, task);
    }
  }

  lemma LocalKeptAt(s: Sys, step: Step, id: Id)
    requires Local(s) && Enabled(s, step) && id in Apply(s, step).runs
    ensures LocalOk(ViewOf(Apply(s, step), id), Apply(s, step).binds)
  {
    if id in s.runs {
      StepView(s, step, id);
    } else {
      Domain(s, step);
      LaunchView(s, id);
    }
  }

  lemma LocalKept(s: Sys, step: Step)
    requires Local(s) && Enabled(s, step)
    ensures Local(Apply(s, step))
  {
    RegisteredKept(s, step);
    var s' := Apply(s, step);
    forall id | id in s'.runs
      ensures LocalOk(ViewOf(s', id), s'.binds)
    {
      LocalKeptAt(s, step, id);
    }
  }

  lemma LaunchView(s: Sys, id: Id)
    requires Registered(s) && id !in s.runs && id in Apply(s, Launch).runs
    ensures LocalOk(ViewOf(Apply(s, Launch), id), s.binds)
  {
    assert id !in s.timers && s.tasks[Remove(id)] == 0 && s.tasks[ResolveKey(id)] == 0;
    assert Send(id, true) !in s.tasks && Send(id, false) !in s.tasks;
  }

  // ---- One session per connection ----

  // A run's own move keeps its cancellation and, unless it binds, its lineage.
  lemma OwnRunLineage(s: Sys, id: Id, move: Move)
    requires id in s.runs && CanMove(s.runs[id], move)
    ensures var s' := ApplyMove(s, id, move);
            && id in s'.runs
            && (s.runs[id].cancelled ==> s'.runs[id].cancelled)
            && (!move.RedeemOk? ==> s'.runs[id].bound == s.runs[id].bound)
  {
  }

  lemma OwnSessionLineage(s: Sys, id: Id, move: Move)
    requires id in s.runs && CanMove(s.runs[id], move)
    ensures var s' := ApplyMove(s, id, move);
            && (id in s'.sessions ==> id in s.sessions)
            && (id in s'.sessions && !move.RedeemOk? ==> s'.sessions[id].connection == s.sessions[id].connection)
  {
  }

  // Unless it binds now, a session keeps the connection and the place it has.
  lemma LineageKept(s: Sys, step: Step, id: Id)
    requires Registered(s) && Enabled(s, step) && id in s.runs
    requires !(step.Go? && step.id == id && step.move.RedeemOk?)
    ensures var s' := Apply(s, step);
            && id in s'.runs && s'.runs[id].bound == s.runs[id].bound
            && (s.runs[id].cancelled ==> s'.runs[id].cancelled)
            && (id in s'.sessions ==> id in s.sessions && s'.sessions[id].connection == s.sessions[id].connection)
  {
    hide ApplyMove;
    if step.Go? && step.id == id {
      OwnRunLineage(s, id, step.move);
      OwnSessionLineage(s, id, step.move);
    } else {
      PassiveStep(s, step, id);
      assert Passive(ViewOf(s, id), ViewOf(Apply(s, step), id));
    }
  }

  lemma StoppingKept(s: Sys, step: Step, id: Id)
    requires Registered(s) && Enabled(s, step) && id in s.sessions && s.sessions[id].state.Stopping?
    requires s.runs[id].point == Removing(Stopping)
    requires id in Apply(s, step).sessions
    ensures Apply(s, step).sessions[id].state.Stopping?
  {
    if step.Go? && step.id == id {
      assert step.move.RemoveOwn?;
    } else {
      PassiveStep(s, step, id);
      assert Passive(ViewOf(s, id), ViewOf(Apply(s, step), id));
    }
  }

  lemma OwnReplacing(s: Sys, newer: Id, d: Id, id: Id)
    requires newer in s.runs && CanMove(s.runs[newer], CancelDuplicate(d)) && id in s.sessions && id in s.runs
    requires s.runs[newer].point.Replacing? && id in s.runs[newer].point.duplicates
    ensures var s' := ApplyMove(s, newer, CancelDuplicate(d));
            && newer in s'.runs && id in s'.runs
            && (s'.runs[id].cancelled || (s'.runs[newer].point.Replacing? && id in s'.runs[newer].point.duplicates))
  {
  }

  lemma ListedKept(s: Sys, step: Step, newer: Id, id: Id)
    requires Registered(s) && Enabled(s, step) && newer in s.runs && id in s.sessions
    requires s.runs[newer].point.Replacing? && id in s.runs[newer].point.duplicates
    ensures var s' := Apply(s, step);
            && newer in s'.runs && id in s'.runs
            && (s'.runs[id].cancelled || (s'.runs[newer].point.Replacing? && id in s'.runs[newer].point.duplicates))
  {
    hide ApplyMove;
    if step.Go? && step.id == newer {
      assert step.move.CancelDuplicate?;
      OwnReplacing(s, newer, step.move.duplicate, id);
    } else {
      PassiveStep(s, step, newer);
      assert Passive(ViewOf(s, newer), ViewOf(Apply(s, step), newer));
      Domain(s, step);
    }
  }

  lemma SupersededKept(s: Sys, step: Step, id: Id)
    requires Local(s) && Enabled(s, step) && id in s.sessions && id in Apply(s, step).sessions
    requires Superseded(s, id)
    ensures id in Apply(s, step).runs && Superseded(Apply(s, step), id)
  {
    var s' := Apply(s, step);
    assert LocalOk(ViewOf(s, id), s.binds);
    Domain(s, step);
    if s.runs[id].cancelled {
      if step.Go? && step.id == id { OwnRunLineage(s, id, step.move); } else { LineageKept(s, step, id); }
    } else if s.sessions[id].state.Stopping? {
      StoppingKept(s, step, id);
    } else {
      var newer :| newer in s.runs && s.runs[newer].point.Replacing? && id in s.runs[newer].point.duplicates;
      ListedKept(s, step, newer, id);
    }
  }

  // The run that binds lists every older session of its connection.
  lemma BindSupersedes(s: Sys, newer: Id, move: Move, older: Id)
    requires Registered(s) && newer in s.runs && s.runs[newer].point.Redeem? && move.RedeemOk?
    requires older in s.sessions && older != newer && newer in s.sessions
    requires var s' := Apply(s, Go(newer, move)); s'.sessions[newer].connection == s.sessions[older].connection
    ensures var s' := Apply(s, Go(newer, move));
            older in s'.runs && older in s'.sessions && Superseded(s', older)
  {
    var s' := Apply(s, Go(newer, move));
    assert s'.runs[newer].point
        == Replacing(Duplicates(Bind(s.sessions, newer, move.connection), newer, move.connection));
  }

  lemma BoundAtMost(s: Sys, id: Id)
    requires Local(s) && id in s.runs
    ensures s.runs[id].bound <= s.binds
  {
    assert LocalOk(ViewOf(s, id), s.binds);
  }

  lemma BindIsLast(s: Sys, id: Id, move: Move)
    requires id in s.runs && s.runs[id].point.Redeem? && move.RedeemOk?
    ensures Apply(s, Go(id, move)).runs[id].bound == s.binds + 1
  {
  }

  lemma PairKept(s: Sys, step: Step, i: Id, j: Id)
    requires Local(s) && OneBindOrder(s) && OnePerConnection(s) && Enabled(s, step)
    requires var s' := Apply(s, step);
             && i in s'.sessions && j in s'.sessions && i != j && i in s'.runs && j in s'.runs
             && s'.sessions[i].connection == s'.sessions[j].connection != 0
             && s'.runs[i].bound < s'.runs[j].bound
    ensures Superseded(Apply(s, step), i)
  {
    hide Apply, ApplyMove, LocalOk, ViewOf, Superseded;
    Domain(s, step);
    assert i in s.sessions && j in s.sessions;
    if step.Go? && step.move.RedeemOk? && step.id == j {
      LineageKept(s, step, i);
      BindSupersedes(s, j, step.move, i);
    } else if step.Go? && step.move.RedeemOk? && step.id == i {
      BoundAtMost(s, j);
      LineageKept(s, step, j);
      BindIsLast(s, i, step.move);
      assert false;
    } else {
      LineageKept(s, step, j);
      LineageKept(s, step, i);
      SupersededKept(s, step, i);
    }
  }

  lemma OnePerConnectionKept(s: Sys, step: Step)
    requires Local(s) && OneBindOrder(s) && OnePerConnection(s) && Enabled(s, step)
    ensures Registered(Apply(s, step)) && OnePerConnection(Apply(s, step))
  {
    RegisteredKept(s, step);
    var s' := Apply(s, step);
    forall i, j | i in s'.sessions && j in s'.sessions && i != j
                  && s'.sessions[i].connection == s'.sessions[j].connection != 0
                  && s'.runs[i].bound < s'.runs[j].bound
      ensures Superseded(s', i)
    {
      PairKept(s, step, i, j);
    }
  }

  lemma BoundKept(s: Sys, step: Step, i: Id, j: Id)
    requires Local(s) && OneBindOrder(s) && Enabled(s, step)
    requires var s' := Apply(s, step);
             i in s'.runs && j in s'.runs && i != j && s'.runs[i].bound == s'.runs[j].bound
    ensures Apply(s, step).runs[i].bound == 0
  {
    hide Apply, ApplyMove, LocalOk, ViewOf;
    Domain(s, step);
    var binding := step.Go? && step.move.RedeemOk?;
    if i in s.runs { BoundAtMost(s, i); }
    if j in s.runs { BoundAtMost(s, j); }
    if binding { BindIsLast(s, step.id, step.move); }
    if i in s.runs && !(binding && step.id == i) { LineageKept(s, step, i); }
    if j in s.runs && !(binding && step.id == j) { LineageKept(s, step, j); }
  }

  lemma OneBindOrderKept(s: Sys, step: Step)
    requires Local(s) && OneBindOrder(s) && Enabled(s, step)
    ensures OneBindOrder(Apply(s, step))
  {
    var s' := Apply(s, step);
    forall i, j | i in s'.runs && j in s'.runs && i != j && s'.runs[i].bound == s'.runs[j].bound
      ensures s'.runs[i].bound == 0
    {
      BoundKept(s, step, i, j);
    }
  }

  // ---- Audio ----

  predicate IsWindowTask(task: Task) {
    task.FinishMinimize? || task.Unsuspend? || task.FinishResume?
  }

  // Window operations in flight were begun on the session as it is.
  lemma MoveResumes(s: Sys, id: Id, move: Move, task: Task)
    requires id in s.runs && CanMove(s.runs[id], move) && IsWindowTask(task)
    ensures task in ApplyMove(s, id, move).tasks ==> task in s.tasks
  {
    hide MovedRun, MovedTable, CanMove;
  }

  lemma TaskResumes(s: Sys, done: Task, ok: bool, task: Task)
    requires Enabled(s, RunTask(done, ok)) && IsWindowTask(task)
    ensures task in ApplyTask(s, done, ok).tasks ==>
              task in s.tasks || (task.FinishResume? && done == Unsuspend(task.id, task.sink))
  {
  }

  lemma StepResumes(s: Sys, step: Step, task: Task)
    requires Enabled(s, step) && IsWindowTask(task) && task in Apply(s, step).tasks
    ensures || task in s.tasks
            || (task.FinishResume? && Unsuspend(task.id, task.sink) in s.tasks)
            || (task.Unsuspend? && CanResume(s.sessions, task.id) && s.sessions[task.id].sink == task.sink)
            || (task.FinishMinimize? && CanMinimize(s.sessions, task.id))
  {
    hide ApplyMove, ApplyTask, CanMove;
    if step.Go? {
      MoveResumes(s, step.id, step.move, task);
    } else if step.RunTask? {
      TaskResumes(s, step.task, step.ok, task);
    }
  }

  // A session whose client is known keeps its sink, and its client stays known.
  lemma MovedSink(v: View, t: Table, id: Id, move: Move)
    requires CanMove(v.run, move) && !move.CancelDuplicate? && !move.RemoveOwn? && id in t
    requires v.session == Some(Plain(t[id])) && RunOk(v.run) && PromptOk(v) && t[id].pid != 0
    ensures MovedTable(t, id, v.run, move)[id].pid != 0 && MovedTable(t, id, v.run, move)[id].sink == t[id].sink
  {
    hide TraceAt;
  }

  lemma OwnSink(s: Sys, id: Id, move: Move)
    requires id in s.runs && CanMove(s.runs[id], move) && LocalOk(ViewOf(s, id), s.binds)
    requires id in ApplyMove(s, id, move).sessions
    ensures id in s.sessions
    ensures s.sessions[id].pid != 0 ==>
              ApplyMove(s, id, move).sessions[id].pid != 0 && ApplyMove(s, id, move).sessions[id].sink == s.sessions[id].sink
  {
    hide MovedRun, MovedTable, RunOk, PromptOk, TrackOk, BindOk;
    if !move.CancelDuplicate? && !move.RemoveOwn? && id in s.sessions && s.sessions[id].pid != 0 {
      MovedSink(ViewOf(s, id), s.sessions, id, move);
    }
  }

  lemma SinkKept(s: Sys, step: Step, id: Id)
    requires Local(s) && Enabled(s, step) && id in s.runs && id in Apply(s, step).sessions
    ensures id in s.sessions
    ensures s.sessions[id].pid != 0 ==>
              Apply(s, step).sessions[id].pid != 0 && Apply(s, step).sessions[id].sink == s.sessions[id].sink
  {
    hide ApplyMove;
    if step.Go? && step.id == id {
      OwnSink(s, id, step.move);
    } else {
      PassiveStep(s, step, id);
      assert Passive(ViewOf(s, id), ViewOf(Apply(s, step), id));
    }
  }

  lemma ResumeKeptAt(s: Sys, step: Step, task: Task)
    requires Local(s) && ResumeOk(s) && Enabled(s, step)
    requires IsWindowTask(task) && task in Apply(s, step).tasks && task.id in Apply(s, step).sessions
    ensures Apply(s, step).sessions[task.id].pid != 0
    ensures !task.FinishMinimize? ==> Apply(s, step).sessions[task.id].sink == task.sink
  {
    hide Apply, ApplyMove, LocalOk, ViewOf;
    RegisteredKept(s, step);
    TaskOrigin(s, step, task);
    StepResumes(s, step, task);
    SinkKept(s, step, task.id);
    assert WindowOk(s, task.id);
  }

  // Only the end of a minimise marks a session minimised.
  lemma MovedMinimized(t: Table, id: Id, r: Run, move: Move, other: Id)
    requires CanMove(r, move) && !move.CancelDuplicate? && !move.RemoveOwn? && other in t
    ensures MovedTable(t, id, r, move)[other].minimized == t[other].minimized
  {
  }

  lemma OwnMinimized(s: Sys, id: Id, move: Move, other: Id)
    requires id in s.runs && CanMove(s.runs[id], move) && other in ApplyMove(s, id, move).sessions
    ensures other in s.sessions && ApplyMove(s, id, move).sessions[other].minimized == s.sessions[other].minimized
  {
    hide MovedRun, MovedTable;
    if !move.CancelDuplicate? && !move.RemoveOwn? {
      MovedMinimized(s.sessions, id, s.runs[id], move, other);
    }
  }

  lemma TaskMinimized(s: Sys, task: Task, ok: bool, id: Id)
    requires Enabled(s, RunTask(task, ok)) && id in ApplyTask(s, task, ok).sessions
    ensures id in s.sessions
    ensures ApplyTask(s, task, ok).sessions[id].minimized ==>
              s.sessions[id].minimized || (task.FinishMinimize? && task.id == id)
  {
  }

  lemma MinimizedStep(s: Sys, step: Step, id: Id)
    requires Enabled(s, step) && id in s.sessions && id in Apply(s, step).sessions && Apply(s, step).sessions[id].minimized
    requires Registered(s)
    ensures s.sessions[id].minimized || exists text :: FinishMinimize(id, text) in s.tasks
  {
    hide ApplyMove, ApplyTask;
    if step.Go? {
      OwnMinimized(s, step.id, step.move, id);
    } else if step.RunTask? {
      TaskMinimized(s, step.task, step.ok, id);
    }
  }

  lemma MinimizedKept(s: Sys, step: Step, id: Id)
    requires Local(s) && ResumeOk(s) && Enabled(s, step) && id in Apply(s, step).sessions
    ensures Apply(s, step).sessions[id].minimized ==> Apply(s, step).sessions[id].pid != 0
  {
    hide Apply, LocalOk, ViewOf;
    RegisteredKept(s, step);
    if id in s.runs {
      SinkKept(s, step, id);
      if Apply(s, step).sessions[id].minimized {
        MinimizedStep(s, step, id);
        assert WindowOk(s, id);
      }
    } else {
      Domain(s, step);
    }
  }

  lemma WindowKept(s: Sys, step: Step, id: Id)
    requires Local(s) && ResumeOk(s) && Enabled(s, step) && id in Apply(s, step).sessions
    ensures WindowOk(Apply(s, step), id)
  {
    hide Apply, Enabled, Local, ResumeOk;
    var s' := Apply(s, step);
    MinimizedKept(s, step, id);
    forall text | FinishMinimize(id, text) in s'.tasks ensures s'.sessions[id].pid != 0 {
      ResumeKeptAt(s, step, FinishMinimize(id, text));
    }
    forall k | Unsuspend(id, k) in s'.tasks || FinishResume(id, k) in s'.tasks
      ensures s'.sessions[id].sink == k && s'.sessions[id].pid != 0
    {
      ResumeKeptAt(s, step, if Unsuspend(id, k) in s'.tasks then Unsuspend(id, k) else FinishResume(id, k));
    }
  }

  lemma ResumeKept(s: Sys, step: Step)
    requires Local(s) && ResumeOk(s) && Enabled(s, step)
    ensures ResumeOk(Apply(s, step))
  {
    hide Apply, Enabled, Local, ResumeOk, WindowOk;
    forall id | id in Apply(s, step).sessions ensures WindowOk(Apply(s, step), id) {
      WindowKept(s, step, id);
    }
    AllWindows(Apply(s, step));
  }

  lemma AllWindows(s: Sys)
    requires forall id :: id in s.sessions ==> WindowOk(s, id)
    ensures ResumeOk(s)
  {
    hide WindowOk;
  }

  // Removing a session accounts for its sink.
  lemma RemovalAccounts(s: Sys, id: Id, k: string)
    requires k != "" && Accounted(s, k)
    ensures Accounted(RemoveSession(s, id), k)
  {
    var s' := RemoveSession(s, id);
    if i :| i in s.sessions && s.sessions[i].sink == k {
      if i != id {
        assert s'.sessions[i].sink == k;
      } else if !LeavesSink(s.sessions, id) {
        var j :| j in Untrack(s.sessions, id) && Plays(Untrack(s.sessions, id)[j], k);
        assert s'.sessions[j].sink == k;
      }
    } else if i: Id :| FinishResume(i, k) in s.tasks {
      assert FinishResume(i, k) in s'.tasks;
    } else if i :| At(s, i, Running(true, Prepared(k))) {
      assert At(s', i, Running(true, Prepared(k)));
    }
  }

  // Sessions with this sink keep it, tasks only come, and a run that prepared
  // it still holds it.
  lemma GrowthAccounts(s: Sys, s': Sys, k: string)
    requires Accounted(s, k) && s.tasks <= s'.tasks
    requires forall i :: i in s.sessions && s.sessions[i].sink == k ==> i in s'.sessions && s'.sessions[i].sink == k
    requires forall i :: At(s, i, Running(true, Prepared(k))) ==> At(s', i, Running(true, Prepared(k)))
    ensures Accounted(s', k)
  {
    if i :| i in s.sessions && s.sessions[i].sink == k {
      assert s'.sessions[i].sink == k;
    } else if i: Id :| FinishResume(i, k) in s.tasks {
      assert FinishResume(i, k) in s'.tasks;
    } else if i :| At(s, i, Running(true, Prepared(k))) {
      assert At(s', i, Running(true, Prepared(k)));
    }
  }

  lemma SessionAccounts(s: Sys, id: Id, k: string)
    requires id in s.sessions && s.sessions[id].sink == k
    ensures Accounted(s, k)
  {
  }

  lemma PrepareAccounts(s: Sys, id: Id, k: string)
    requires id in s.runs && CanMove(s.runs[id], Prepare(k))
    ensures Accounted(ApplyMove(s, id, Prepare(k)), k)
  {
    assert At(ApplyMove(s, id, Prepare(k)), id, Running(true, Prepared(k)));
  }

  lemma AttachAccounts(s: Sys, id: Id, k: string)
    requires id in s.runs && CanMove(s.runs[id], Attach) && LocalOk(ViewOf(s, id), s.binds)
    requires k != "" && Accounted(s, k)
    ensures Accounted(ApplyMove(s, id, Attach), k)
  {
    hide LocalOk, Accounted;
    var s' := ApplyMove(s, id, Attach);
    Unattached(s, id);
    if s.runs[id].point.phase.sink == k {
      SessionAccounts(s', id, k);
    } else {
      GrowthAccounts(s, s', k);
    }
  }

  lemma Unattached(s: Sys, id: Id)
    requires id in s.runs && CanMove(s.runs[id], Attach) && LocalOk(ViewOf(s, id), s.binds)
    ensures id in s.sessions && s.sessions[id].sink == ""
  {
  }

  lemma RemoveOwnAccounts(s: Sys, id: Id, k: string)
    requires id in s.runs && CanMove(s.runs[id], RemoveOwn) && k != "" && Accounted(s, k)
    ensures Accounted(ApplyMove(s, id, RemoveOwn), k)
  {
    hide Accounted;
    var s0 := Goto(s, id, Done);
    GrowthAccounts(s, s0, k);
    RemovalAccounts(s0, id, k);
  }

  lemma PlainMoveAccounts(s: Sys, id: Id, move: Move, k: string)
    requires id in s.runs && CanMove(s.runs[id], move) && Accounted(s, k)
    requires !move.CancelDuplicate? && !move.RemoveOwn? && !move.Attach?
    ensures Accounted(ApplyMove(s, id, move), k)
  {
    UnpreparedMove(s, id, move, k);
    hide Accounted, MovedRun, MovedTable, CanMove;
    GrowthAccounts(s, ApplyMove(s, id, move), k);
  }

  lemma CancelAccounts(s: Sys, id: Id, k: string)
    requires Accounted(s, k)
    ensures Accounted(CancelOne(s, id), k)
  {
    hide Accounted;
    GrowthAccounts(s, CancelOne(s, id), k);
  }

  lemma CancelDuplicateAccounts(s: Sys, id: Id, d: Id, k: string)
    requires id in s.runs && CanMove(s.runs[id], CancelDuplicate(d)) && Accounted(s, k)
    ensures Accounted(ApplyMove(s, id, CancelDuplicate(d)), k)
  {
    hide Accounted, CancelOne;
    var s0 := Goto(s, id, Replacing(s.runs[id].point.duplicates - {d}));
    GrowthAccounts(s, s0, k);
    CancelAccounts(s0, d, k);
  }

  lemma MoveAccounts(s: Sys, id: Id, move: Move, k: string)
    requires id in s.runs && CanMove(s.runs[id], move) && LocalOk(ViewOf(s, id), s.binds) && NoLeak(s)
    requires k in ApplyMove(s, id, move).playing
    ensures k != "" && Accounted(ApplyMove(s, id, move), k)
  {
    hide Accounted, LocalOk, MovedRun, MovedTable, ViewOf;
    if move == Prepare(k) {
      PrepareAccounts(s, id, k);
    } else if move.CancelDuplicate? {
      CancelDuplicateAccounts(s, id, move.duplicate, k);
    } else if move.RemoveOwn? {
      RemoveOwnAccounts(s, id, k);
    } else if move.Attach? {
      AttachAccounts(s, id, k);
    } else {
      PlainMoveAccounts(s, id, move, k);
    }
  }

  // A prepared sink can only be attached.
  lemma UnpreparedMove(s: Sys, id: Id, move: Move, k: string)
    requires id in s.runs && CanMove(s.runs[id], move)
    requires !move.CancelDuplicate? && !move.RemoveOwn? && !move.Attach?
    ensures s.runs[id].point != Running(true, Prepared(k))
  {
  }

  lemma ReleaseAccounts(s: Sys, k: string, ok: bool)
    requires Release(k) in s.tasks
    ensures Accounted(ApplyTask(s, Release(k), ok), k)
  {
    if InUse(s.sessions, k) {
      var i :| i in s.sessions && Plays(s.sessions[i], k);
      assert ApplyTask(s, Release(k), ok).sessions[i].sink == k;
    }
  }

  lemma FinishResumeAccounts(s: Sys, id: Id, k: string, ok: bool)
    requires FinishResume(id, k) in s.tasks && ResumeOk(s) && k != ""
    ensures Accounted(ApplyTask(s, FinishResume(id, k), ok), k)
  {
    var s' := ApplyTask(s, FinishResume(id, k), ok);
    if Release(k) !in s'.tasks {
      assert s'.sessions[id].sink == k;
    }
  }

  lemma UnsuspendAccounts(s: Sys, id: Id, k: string, ok: bool)
    requires Unsuspend(id, k) in s.tasks
    ensures Accounted(ApplyTask(s, Unsuspend(id, k), ok), k)
  {
    assert FinishResume(id, k) in ApplyTask(s, Unsuspend(id, k), ok).tasks;
  }

  // Tasks that are not about this sink.
  lemma OtherWindowAccounts(s: Sys, task: Task, ok: bool, k: string)
    requires Accounted(s, k) && k != "" && Enabled(s, RunTask(task, ok))
    requires task.FinishMinimize? || (task.FinishResume? && task.sink != k)
    ensures Accounted(ApplyTask(s, task, ok), k)
  {
    hide Accounted;
    var s0 := s.(tasks := s.tasks - multiset{task});
    RestAccounts(s, task, k);
    if task.FinishMinimize? {
      EndMinimizeAccounts(s0, task.id, task.windowState, ok, k);
    } else {
      EndResumeAccounts(s0, task.id, task.sink, ok, k);
    }
  }

  lemma EndMinimizeAccounts(s: Sys, id: Id, windowState: string, ok: bool, k: string)
    requires Accounted(s, k)
    ensures Accounted(EndMinimize(s, id, windowState, ok), k)
  {
    hide Accounted, InUse;
    GrowthAccounts(s, EndMinimize(s, id, windowState, ok), k);
  }

  lemma EndResumeAccounts(s: Sys, id: Id, sink: string, ok: bool, k: string)
    requires Accounted(s, k)
    ensures Accounted(EndResume(s, id, sink, ok), k)
  {
    hide Accounted;
    GrowthAccounts(s, EndResume(s, id, sink, ok), k);
  }

  lemma OtherTaskAccounts(s: Sys, task: Task, ok: bool, k: string)
    requires Accounted(s, k) && k != "" && Enabled(s, RunTask(task, ok))
    requires task != Suspend(k) && task != Release(k) && !task.FinishMinimize? && !task.FinishResume?
    ensures Accounted(ApplyTask(s, task, ok), k)
  {
    hide Accounted;
    var s0 := s.(tasks := s.tasks - multiset{task});
    RestAccounts(s, task, k);
    if task.Remove? {
      hide RemoveSession;
      RemovalAccounts(s0, task.id, k);
    } else {
      GrowthAccounts(s0, ApplyTask(s, task, ok), k);
    }
  }

  lemma TaskAccounts(s: Sys, task: Task, ok: bool, k: string)
    requires ResumeOk(s) && NoLeak(s) && Enabled(s, RunTask(task, ok)) && k in ApplyTask(s, task, ok).playing
    ensures k != "" && Accounted(ApplyTask(s, task, ok), k)
  {
    hide Accounted, ResumeOk;
    if task == Release(k) {
      ReleaseAccounts(s, k, ok);
    } else if task.FinishResume? && task.sink == k {
      FinishResumeAccounts(s, task.id, k, ok);
    } else if task.Unsuspend? && task.sink == k {
      UnsuspendAccounts(s, task.id, k, ok);
    } else if task.FinishMinimize? || task.FinishResume? {
      OtherWindowAccounts(s, task, ok, k);
    } else {
      OtherTaskAccounts(s, task, ok, k);
    }
  }

  // Taking up a task about something else forgets no sink.
  lemma RestAccounts(s: Sys, task: Task, k: string)
    requires Accounted(s, k) && task != Suspend(k) && task != Release(k)
    requires task.FinishResume? ==> task.sink != k
    ensures Accounted(s.(tasks := s.tasks - multiset{task}), k)
  {
    var s' := s.(tasks := s.tasks - multiset{task});
    if i :| i in s.sessions && s.sessions[i].sink == k {
      assert s'.sessions[i].sink == k;
    } else if i: Id :| FinishResume(i, k) in s.tasks {
      assert FinishResume(i, k) in s'.tasks;
    } else if i :| At(s, i, Running(true, Prepared(k))) {
      assert At(s', i, Running(true, Prepared(k)));
    }
  }

  lemma TimerAccounts(s: Sys, id: Id, k: string)
    requires Accounted(s, k) && k != "" && id in s.timers
    ensures Accounted(Apply(s, FireTimer(id)), k)
  {
    hide Accounted;
    var s0 := s.(timers := s.timers - {id});
    GrowthAccounts(s, s0, k);
    RemovalAccounts(s0, id, k);
  }

  lemma RequestAccounts(s: Sys, step: Step, k: string)
    requires Registered(s) && Accounted(s, k) && Enabled(s, step) && (IsRequest(step) || step.AnswerAudio?)
    ensures Accounted(Apply(s, step), k)
  {
    hide Accounted, ApplyMove, ApplyTask, CancelOne, CancelEvery, RemoveSession, CanMove;
    GrowthAccounts(s, Apply(s, step), k);
  }

  lemma CancelAllAccounts(s: Sys, k: string)
    requires Accounted(s, k)
    ensures Accounted(CancelEvery(s), k)
  {
    hide Accounted;
    GrowthAccounts(s, CancelEvery(s), k);
  }

  lemma StepAccounts(s: Sys, step: Step, k: string)
    requires Local(s) && ResumeOk(s) && NoLeak(s) && Enabled(s, step) && k in Apply(s, step).playing
    ensures k != "" && Accounted(Apply(s, step), k)
  {
    hide ApplyMove, ApplyTask, LocalOk, ViewOf, Accounted, CanMove, ResumeOk;
    match step
    case Go(id, move) => MoveAccounts(s, id, move, k);
    case RunTask(task, ok) => TaskAccounts(s, task, ok, k);
    case FireTimer(id) => TimerAccounts(s, id, k);
    case Cancel(id) => CancelAccounts(s, id, k);
    case CancelAll => CancelAllAccounts(s, k);
    case _ => RequestAccounts(s, step, k);
  }

  lemma NoLeakKept(s: Sys, step: Step)
    requires Local(s) && ResumeOk(s) && NoLeak(s) && Enabled(s, step)
    ensures NoLeak(Apply(s, step))
  {
    hide Apply;
    forall k | k in Apply(s, step).playing
      ensures k != "" && Accounted(Apply(s, step), k)
    {
      StepAccounts(s, step, k);
    }
  }

  // ---- Together ----

  lemma InitHolds()
    ensures Inv(INIT)
  {
  }

  lemma InvKept(s: Sys, step: Step)
    requires Inv(s) && Enabled(s, step)
    ensures Inv(Apply(s, step))
  {
    hide Apply;
    LocalKept(s, step);
    ResumeKept(s, step);
    OneBindOrderKept(s, step);
    OnePerConnectionKept(s, step);
    NoLeakKept(s, step);
  }
}
