/** What holds in every interleaving of the agent. */
module AgentTheorems {
  import opened Sessions
  import opened AgentSystem
  import opened AgentInvariant
  import opened AgentViews
  import opened AgentPreservation

  ghost predicate Reachable(s: Sys) {
    exists states, steps :: Behaviour(states, steps) && s == states[|steps|]
  }

  lemma {:induction false} BehaviourInv(states: seq<Sys>, steps: seq<Step>, i: nat)
    requires Behaviour(states, steps) && i <= |steps|
    ensures Inv(states[i])
  {
    hide Inv, Apply;
    if i == 0 {
      InitHolds();
    } else {
      BehaviourInv(states, steps, i - 1);
      assert Enabled(states[i - 1], steps[i - 1]);
      InvKept(states[i - 1], steps[i - 1]);
    }
  }

  lemma ReachableInv(s: Sys)
    requires Reachable(s)
    ensures Inv(s)
  {
    hide Inv;
    var states, steps :| Behaviour(states, steps) && s == states[|steps|];
    BehaviourInv(states, steps, |steps|);
  }

  // ---- One session per connection ----

  predicate Replaceable(s: Sys, id: Id)
    requires id in s.runs && id in s.sessions
  {
    !s.runs[id].cancelled && !s.sessions[id].state.Stopping?
  }

  ghost predicate NoneReplacing(s: Sys) {
    forall id :: id in s.runs && s.runs[id].point.Replacing? ==> s.runs[id].point.duplicates == {}
  }

  // Of two tracked sessions of one connection, the earlier bound is on its way out.
  lemma EarlierIsSuperseded(s: Sys, i: Id, j: Id)
    requires Reachable(s) && i in s.sessions && j in s.sessions && i != j
    requires s.sessions[i].connection == s.sessions[j].connection != 0
    ensures i in s.runs && j in s.runs && s.runs[i].bound != s.runs[j].bound
    ensures s.runs[i].bound < s.runs[j].bound ==> Superseded(s, i)
  {
    ReachableInv(s);
    assert LocalOk(ViewOf(s, i), s.binds);
  }

  // Once no run is between its scan and its cancels, one session is left.
  lemma OneLivePerConnection(s: Sys, i: Id, j: Id)
    requires Reachable(s) && NoneReplacing(s)
    requires i in s.sessions && j in s.sessions && i in s.runs && j in s.runs
    requires s.sessions[i].connection == s.sessions[j].connection != 0
    requires Replaceable(s, i) && Replaceable(s, j)
    ensures i == j
  {
    hide Reachable;
    if i != j {
      EarlierIsSuperseded(s, i, j);
      EarlierIsSuperseded(s, j, i);
    }
  }

  // ---- No orphans, no untracked clients ----

  lemma NoOrphan(s: Sys, id: Id)
    requires Reachable(s) && id in s.sessions
    ensures id in s.runs
    ensures || !s.runs[id].point.Done?
            || id in s.timers
            || AwaitsKeyDecision(s.sessions, id)
            || Remove(id) in s.tasks
  {
    ReachableInv(s);
    assert LocalOk(ViewOf(s, id), s.binds);
  }

  predicate ClientExecutes(r: Run) {
    r.point.Running? && (r.point.phase.Executing? || r.point.phase.Recorded?)
  }

  lemma NoUntrackedClient(s: Sys, id: Id)
    requires Reachable(s) && id in s.runs && ClientExecutes(s.runs[id])
    ensures id in s.sessions || s.runs[id].cancelled
  {
    ReachableInv(s);
    assert LocalOk(ViewOf(s, id), s.binds);
  }

  // Identifiers are never reused: a launch that is no longer tracked stays so.
  lemma {:induction false} NeverRevived(states: seq<Sys>, steps: seq<Step>, i: nat, j: nat, id: Id)
    requires Behaviour(states, steps) && i <= j <= |steps|
    requires id in states[i].runs && id !in states[i].sessions
    ensures id in states[j].runs && id !in states[j].sessions
  {
    hide Inv, Apply;
    if i < j {
      NeverRevived(states, steps, i, j - 1, id);
      BehaviourInv(states, steps, j - 1);
      Launched(states[j - 1], id);
      assert Enabled(states[j - 1], steps[j - 1]);
      Domain(states[j - 1], steps[j - 1]);
    }
  }

  lemma Launched(s: Sys, id: Id)
    requires Inv(s) && id in s.runs
    ensures id != s.next + 1
  {
  }

  lemma RemovedByMove(s: Sys, mover: Id, move: Move, id: Id)
    requires mover in s.runs && CanMove(s.runs[mover], move)
    requires id in s.sessions && id !in ApplyMove(s, mover, move).sessions
    ensures mover == id && move.RemoveOwn?
  {
    hide MovedRun, CanMove;
  }

  lemma RemovedByTask(s: Sys, task: Task, ok: bool, id: Id)
    requires Enabled(s, RunTask(task, ok)) && id in s.sessions && id !in ApplyTask(s, task, ok).sessions
    ensures task == Remove(id)
  {
  }

  // A session leaves the table only by its own run's end, its own timer, or a
  // removal asked for it; a late timer or a stale write touches no other one.
  lemma RemovedByOwn(s: Sys, step: Step, id: Id)
    requires Enabled(s, step) && id in s.sessions && id !in Apply(s, step).sessions
    ensures step == Go(id, RemoveOwn) || step == FireTimer(id) || (step.RunTask? && step.task == Remove(id))
  {
    hide ApplyMove, ApplyTask, CanMove;
    if step.Go? {
      RemovedByMove(s, step.id, step.move, id);
    } else if step.RunTask? {
      RemovedByTask(s, step.task, step.ok, id);
    }
  }

  // ---- Audio ----

  ghost predicate NothingInFlight(s: Sys) {
    && (forall task :: task in s.tasks ==> !task.Suspend? && !task.Release? && !task.FinishResume?)
    && (forall id :: id in s.runs && s.runs[id].point.Running? ==> !s.runs[id].point.phase.Prepared?)
  }

  lemma PlayingIsAccounted(s: Sys, sink: string)
    requires Reachable(s) && sink in s.playing
    ensures Accounted(s, sink)
  {
    ReachableInv(s);
  }

  lemma SilentWhenIdle(s: Sys)
    requires Reachable(s) && s.sessions == map[] && NothingInFlight(s)
    ensures s.playing == {}
  {
    hide Reachable;
    forall sink | sink in s.playing
      ensures false
    {
      PlayingIsAccounted(s, sink);
    }
  }

  // ---- Reports ----

  lemma ReportsInOrder(s: Sys, id: Id)
    requires Reachable(s) && id in s.runs
    ensures IsReport(s.runs[id].trace) || s.runs[id].trace == [SessionStarted]
    ensures s.runs[id].point.Done? ==> IsReport(s.runs[id].trace)
  {
    ReachableInv(s);
    assert LocalOk(ViewOf(s, id), s.binds);
  }

  // ---- Visible state and questions ----

  lemma StateFollowsPoint(s: Sys, id: Id)
    requires Reachable(s) && id in s.sessions
    ensures id in s.runs && (!s.runs[id].cancelled ==> s.sessions[id].state == Shown(s.runs[id].point))
  {
    ReachableInv(s);
    assert LocalOk(ViewOf(s, id), s.binds);
  }

  // The arrows an uncancelled session's visible state can follow.
  predicate Arrow(before: State, after: State) {
    match before
    case Redeeming => after.Preparing? || after.Failed?
    case Preparing => after.Starting? || after.Failed?
    case Starting => after.Active?
    case Active => after.Failed? || after.Stopping?
    case Failed => after.Starting?
    case Stopping => false
  }

  // A run's own move follows an arrow, unless its session is already gone.
  lemma ShownMove(r: Run, t: Table, id: Id, order: nat, move: Move)
    requires RunOk(r) && CanMove(r, move) && !move.CancelDuplicate? && !move.RemoveOwn? && !r.cancelled
    ensures var p := MovedRun(r, t, id, order, move).point;
            || (move.AskAudio? && id !in t)
            || Shown(p) == Shown(r.point)
            || Arrow(Shown(r.point), Shown(p))
  {
    hide TraceAt, Reported, Duplicates, Bind;
    if move.Report? {
      ShownReport(r);
    }
  }

  lemma ShownReport(r: Run)
    requires RunOk(r) && CanMove(r, Report)
    ensures Shown(Reported(r.point).1) == Shown(r.point)
  {
  }

  ghost predicate Restarts(s: Sys, step: Step, id: Id)
    requires Enabled(s, step)
  {
    && id in s.sessions && id in Apply(s, step).sessions
    && s.sessions[id].state.Failed? && Apply(s, step).sessions[id].state.Starting?
  }

  // Nobody else changes a session's state, except to stop it.
  lemma PassiveState(s: Sys, step: Step, id: Id)
    requires Registered(s) && Enabled(s, step) && id in s.sessions && id in Apply(s, step).sessions
    requires step.Go? ==> step.id != id
    ensures id in Apply(s, step).runs
    ensures var x := Apply(s, step).sessions[id].state;
            x == s.sessions[id].state || (x.Stopping? && Apply(s, step).runs[id].cancelled)
  {
    PassiveStep(s, step, id);
    hide Apply;
    assert Passive(ViewOf(s, id), ViewOf(Apply(s, step), id));
  }

  // Every change of an uncancelled session's state follows an arrow.
  lemma StateFollowsArrows(s: Sys, step: Step, id: Id)
    requires Reachable(s) && Enabled(s, step) && id in s.sessions && id in Apply(s, step).sessions
    requires id in Apply(s, step).runs && !Apply(s, step).runs[id].cancelled
    ensures var x, x' := s.sessions[id].state, Apply(s, step).sessions[id].state;
            x == x' || Arrow(x, x')
  {
    ReachableInv(s);
    InvKept(s, step);
    hide ApplyMove, MovedRun, MovedTable, LocalOk, CanMove;
    var s' := Apply(s, step);
    UncancelledShown(s, id);
    UncancelledShown(s', id);
    if step.Go? && step.id == id {
      OwnRunLineage(s, id, step.move);
      OwnShown(s, id, step.move);
    } else {
      PassiveState(s, step, id);
    }
  }

  lemma UncancelledShown(s: Sys, id: Id)
    requires Inv(s) && id in s.sessions
    ensures id in s.runs && (!s.runs[id].cancelled ==> s.sessions[id].state == Shown(s.runs[id].point))
  {
    assert LocalOk(ViewOf(s, id), s.binds);
  }

  lemma OwnShown(s: Sys, id: Id, move: Move)
    requires id in s.runs && CanMove(s.runs[id], move) && RunOk(s.runs[id]) && id in s.sessions
    requires id in ApplyMove(s, id, move).sessions && !ApplyMove(s, id, move).runs[id].cancelled
    ensures var p, p' := s.runs[id].point, ApplyMove(s, id, move).runs[id].point;
            Shown(p) == Shown(p') || Arrow(Shown(p), Shown(p'))
  {
    if !move.CancelDuplicate? && !move.RemoveOwn? {
      ShownMove(s.runs[id], s.sessions, id, s.binds + 1, move);
    }
  }

  // ---- Restarting without audio ----

  lemma OwnRestart(s: Sys, id: Id, move: Move)
    requires id in s.runs && CanMove(s.runs[id], move) && LocalOk(ViewOf(s, id), s.binds)
    requires id in s.sessions && id in ApplyMove(s, id, move).sessions
    requires s.sessions[id].state.Failed? && ApplyMove(s, id, move).sessions[id].state.Starting?
    ensures move.SetStarting? && s.runs[id].point.Retrying?
  {
    hide MovedRun, MovedTable, RunOk, PromptOk, BindOk, LeavesSink, Terminal, InUse, CanMove;
    if !move.CancelDuplicate? && !move.RemoveOwn? {
      OnlySetStarting(s.sessions, id, s.runs[id], move);
    }
    StartsFrom(s.runs[id], move);
  }

  lemma OnlySetStarting(t: Table, id: Id, r: Run, move: Move)
    requires CanMove(r, move) && !move.CancelDuplicate? && !move.RemoveOwn? && id in t
    requires t[id].state.Failed? && MovedTable(t, id, r, move)[id].state.Starting?
    ensures move.SetStarting?
  {
  }

  lemma StartsFrom(r: Run, move: Move)
    requires CanMove(r, move)
    ensures move.SetStarting? ==> r.point.Built? || r.point.Retrying?
  {
  }

  // A failed session starts again only from an accepted audio question, and
  // then with its audio disabled.
  lemma RestartIsAccepted(s: Sys, step: Step, id: Id)
    requires Reachable(s) && Enabled(s, step) && Restarts(s, step, id)
    ensures step == Go(id, SetStarting) && id in s.runs
    ensures var r := s.runs[id]; r.point.Retrying? && r.audioOff && r.retries == 1 && r.answers == 1 && r.accepted
  {
    ReachableInv(s);
    assert LocalOk(ViewOf(s, id), s.binds);
    hide ApplyMove, CanMove;
    if step.Go? && step.id == id {
      OwnRestart(s, id, step.move);
    } else {
      PassiveState(s, step, id);
    }
  }

  predicate PastRetry(r: Run) {
    r.retries == 1 && !r.point.Retrying?
  }

  lemma OwnPastRetry(s: Sys, id: Id, move: Move)
    requires id in s.runs && CanMove(s.runs[id], move) && RunOk(s.runs[id])
    requires PastRetry(s.runs[id]) || (s.runs[id].point.Retrying? && move.SetStarting? && s.runs[id].retries == 1)
    ensures id in ApplyMove(s, id, move).runs && PastRetry(ApplyMove(s, id, move).runs[id])
  {
    hide MovedTable;
  }

  lemma PastRetryKept(s: Sys, step: Step, id: Id)
    requires Inv(s) && Enabled(s, step) && id in s.runs && PastRetry(s.runs[id])
    ensures id in Apply(s, step).runs && PastRetry(Apply(s, step).runs[id])
  {
    assert LocalOk(ViewOf(s, id), s.binds);
    hide ApplyMove, CanMove, LocalOk;
    if step.Go? && step.id == id {
      OwnPastRetry(s, id, step.move);
    } else {
      PassiveStep(s, step, id);
      assert Passive(ViewOf(s, id), ViewOf(Apply(s, step), id));
    }
  }

  lemma {:induction false} StaysPastRetry(states: seq<Sys>, steps: seq<Step>, i: nat, j: nat, id: Id)
    requires Behaviour(states, steps) && i <= j <= |steps|
    requires id in states[i].runs && PastRetry(states[i].runs[id])
    ensures id in states[j].runs && PastRetry(states[j].runs[id])
  {
    hide Inv, Apply;
    if i < j {
      StaysPastRetry(states, steps, i, j - 1, id);
      BehaviourInv(states, steps, j - 1);
      assert Enabled(states[j - 1], steps[j - 1]);
      PastRetryKept(states[j - 1], steps[j - 1], id);
    }
  }

  lemma PrefixReachable(states: seq<Sys>, steps: seq<Step>, i: nat)
    requires Behaviour(states, steps) && i <= |steps|
    ensures Reachable(states[i])
  {
    hide Apply;
    var prefix, taken := states[..i + 1], steps[..i];
    assert Behaviour(prefix, taken) && prefix[|taken|] == states[i];
  }

  // In one whole behaviour a session restarts at most once.
  lemma RestartsOnce(states: seq<Sys>, steps: seq<Step>, i: nat, j: nat, id: Id)
    requires Behaviour(states, steps) && i < |steps| && j < |steps|
    requires Enabled(states[i], steps[i]) && Restarts(states[i], steps[i], id)
    requires Enabled(states[j], steps[j]) && Restarts(states[j], steps[j], id)
    ensures i == j
  {
    hide Apply, ApplyMove;
    PrefixReachable(states, steps, i);
    PrefixReachable(states, steps, j);
    RestartIsAccepted(states[i], steps[i], id);
    RestartIsAccepted(states[j], steps[j], id);
    if i < j { RestartThenPast(states, steps, i, j, id); }
    if j < i { RestartThenPast(states, steps, j, i, id); }
  }

  lemma RestartThenPast(states: seq<Sys>, steps: seq<Step>, i: nat, j: nat, id: Id)
    requires Behaviour(states, steps) && i < j < |steps| && steps[i] == Go(id, SetStarting)
    requires id in states[i].runs && states[i].runs[id].point.Retrying? && states[i].runs[id].retries == 1
    ensures id in states[j].runs && !states[j].runs[id].point.Retrying?
  {
    BehaviourInv(states, steps, i);
    assert LocalOk(ViewOf(states[i], id), states[i].binds);
    hide Inv, LocalOk, ApplyMove;
    assert Enabled(states[i], steps[i]) && states[i + 1] == Apply(states[i], steps[i]);
    OwnPastRetry(states[i], id, SetStarting);
    StaysPastRetry(states, steps, i + 1, j, id);
  }

  // ---- Answers ----

  lemma PromptOnlyWhenEnding(s: Sys, id: Id)
    requires Reachable(s) && id in s.sessions && !s.sessions[id].prompt.NoPrompt?
    ensures s.sessions[id].state.Failed? || s.sessions[id].state.Stopping?
  {
    ReachableInv(s);
    assert LocalOk(ViewOf(s, id), s.binds);
  }

  // A question takes one answer: once one is taken, no other is accepted.
  lemma OneAnswer(s: Sys, id: Id)
    requires Reachable(s) && id in s.runs
    ensures s.runs[id].answers <= 1
    ensures s.runs[id].answers == 1 ==> !AwaitsAudioChoice(s.sessions, id)
  {
    ReachableInv(s);
    assert LocalOk(ViewOf(s, id), s.binds);
  }

  // Whoever sends an answer finds room in the channel.
  lemma AnswerNeverBlocks(s: Sys, id: Id, accept: bool, ok: bool)
    requires Reachable(s) && Send(id, accept) in s.tasks
    ensures Enabled(s, RunTask(Send(id, accept), ok))
  {
    ReachableInv(s);
    assert LocalOk(ViewOf(s, id), s.binds);
  }
}
