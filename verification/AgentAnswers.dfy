/** What follows an answered audio question, and how a run ends. */
module AgentAnswers {
  import opened Options
  import opened Sessions
  import opened AgentSystem
  import opened AgentInvariant
  import opened AgentViews
  import opened AgentPreservation
  import opened AgentTheorems
  import opened AgentAudio

  // ---- One own move ----

  // Where a run stands, what it reported and whether its audio is off.
  datatype Stand = Stand(point: Point, trace: seq<Event>, audioOff: bool)

  function StandOf(r: Run): Stand {
    Stand(r.point, r.trace, r.audioOff)
  }

  lemma OwnAnswer(s: Sys, id: Id, move: Move)
    requires id in s.runs && CanMove(s.runs[id], move) && LocalOk(ViewOf(s, id), s.binds)
    ensures id in ApplyMove(s, id, move).runs
    ensures var r, r' := s.runs[id], ApplyMove(s, id, move).runs[id];
            match r.point
            case Answered(accept) =>
              && accept == r.accepted
              && StandOf(r') == if accept then Stand(Retrying, r.trace, true) else Stand(Declining, r.trace, r.audioOff)
            case Retrying => StandOf(r') == Stand(Restarting, r.trace, r.audioOff)
            case Restarting => StandOf(r') == Stand(Running(false, Setup), r.trace, r.audioOff)
            case Declining => StandOf(r') == Stand(Removing(Failed), r.trace + [SessionExited], r.audioOff)
            case Removing(_) => StandOf(r') == Stand(Done, r.trace, r.audioOff) && id !in ApplyMove(s, id, move).sessions
            case _ => true
  {
    hide MovedTable, TrackOk, RunOk, BindOk;
  }

  // Nobody else moves it.
  lemma OthersLeave(s: Sys, step: Step, id: Id)
    requires Inv(s) && Enabled(s, step) && id in s.runs && (step.Go? ==> step.id != id)
    ensures id in Apply(s, step).runs && StandOf(Apply(s, step).runs[id]) == StandOf(s.runs[id])
    ensures s.runs[id].cancelled ==> Apply(s, step).runs[id].cancelled
  {
    PassiveStep(s, step, id);
    hide Apply;
    assert Passive(ViewOf(s, id), ViewOf(Apply(s, step), id));
  }

  lemma OwnOk(s: Sys, id: Id)
    requires Inv(s) && id in s.runs
    ensures LocalOk(ViewOf(s, id), s.binds)
  {
    hide LocalOk, ViewOf;
  }

  lemma {:induction false} Stays(states: seq<Sys>, steps: seq<Step>, i: nat, j: nat, id: Id)
    requires Behaviour(states, steps) && i <= j <= |steps| && id in states[i].runs
    ensures id in states[j].runs
  {
    hide Apply;
    if i < j {
      Stays(states, steps, i, j - 1, id);
      assert Enabled(states[j - 1], steps[j - 1]);
      BehaviourInv(states, steps, j - 1);
      RunStays(states[j - 1], steps[j - 1], id);
    }
  }

  lemma RunStays(s: Sys, step: Step, id: Id)
    requires Inv(s) && Enabled(s, step) && id in s.runs
    ensures id in Apply(s, step).runs
  {
    hide Apply, Inv;
    Domain(s, step);
  }

  // ---- After an accepted question ----

  // The client has been started over, without audio.
  ghost predicate RanAgain(states: seq<Sys>, from: nat, to: nat, id: Id)
    requires to <= |states|
  {
    exists m :: from < m < to && id in states[m].runs
      && states[m].runs[id].point == Running(false, Setup) && states[m].runs[id].audioOff
  }

  ghost predicate OnTheWay(r: Run) {
    && r.trace == [SessionStarted]
    && (r.point == Answered(true) || (r.audioOff && (r.point.Retrying? || r.point.Restarting?)))
  }

  // A declined question: the run is on its way out, or gone with its session.
  ghost predicate WindingUp(s: Sys, id: Id)
    requires id in s.runs
  {
    var r := s.runs[id];
    match r.point
    case Answered(accept) => !accept && r.trace == [SessionStarted]
    case Declining => r.trace == [SessionStarted]
    case Removing(_) => r.trace == [SessionStarted, SessionExited]
    case Done => r.trace == [SessionStarted, SessionExited] && id !in s.sessions
    case _ => false
  }

  lemma WayStep(s: Sys, step: Step, id: Id)
    requires Inv(s) && Enabled(s, step) && id in s.runs && OnTheWay(s.runs[id])
    ensures id in Apply(s, step).runs
    ensures var r' := Apply(s, step).runs[id];
            OnTheWay(r') || (r'.point == Running(false, Setup) && r'.audioOff && r'.trace == [SessionStarted])
    ensures step.Go? && step.id == id && s.runs[id].point.Answered? ==> Apply(s, step).runs[id].audioOff
  {
    hide Inv, ApplyMove;
    if step.Go? && step.id == id {
      OwnOk(s, id);
      OwnAnswer(s, id, step.move);
    } else {
      OthersLeave(s, step, id);
    }
  }

  // A question that was accepted leads back to a running client: until the run
  // has started its client over without audio it reports nothing, and it stands
  // at the answer, before the restart or in it.
  lemma {:induction false} AcceptedRestarts(states: seq<Sys>, steps: seq<Step>, i: nat, j: nat, id: Id)
    requires Behaviour(states, steps) && i <= j <= |steps|
    requires id in states[i].runs && states[i].runs[id].point.Answered? && states[i].runs[id].accepted
    ensures id in states[j].runs
    ensures RanAgain(states, i, j + 1, id) || OnTheWay(states[j].runs[id])
  {
    hide Apply, OnTheWay, Inv;
    if i == j {
      BehaviourInv(states, steps, i);
      OwnOk(states[i], id);
      AnswerStands(states[i], id);
    } else {
      AcceptedRestarts(states, steps, i, j - 1, id);
      BehaviourInv(states, steps, j - 1);
      var s, step := states[j - 1], steps[j - 1];
      assert Enabled(s, step) && states[j] == Apply(s, step);
      Stays(states, steps, i, j, id);
      if OnTheWay(s.runs[id]) {
        WayStep(s, step, id);
        assert OnTheWay(states[j].runs[id])
            || (i < j < j + 1 && states[j].runs[id].point == Running(false, Setup) && states[j].runs[id].audioOff);
      }
    }
  }

  // So the run reports no exit before its client has been started over.
  lemma NoExitBeforeRestart(states: seq<Sys>, steps: seq<Step>, i: nat, j: nat, id: Id)
    requires Behaviour(states, steps) && i <= j <= |steps|
    requires id in states[i].runs && states[i].runs[id].point.Answered? && states[i].runs[id].accepted
    requires id in states[j].runs && (SessionExited in states[j].runs[id].trace || states[j].runs[id].point.Done?)
    ensures RanAgain(states, i, j + 1, id)
  {
    hide Apply, Behaviour;
    AcceptedRestarts(states, steps, i, j, id);
  }

  // An uncancelled session shows failed, then starting, then active meanwhile.
  lemma RestartShown(s: Sys, id: Id)
    requires Reachable(s) && id in s.sessions && id in s.runs && !s.runs[id].cancelled
    ensures OnTheWay(s.runs[id]) && !s.runs[id].point.Restarting? ==> s.sessions[id].state.Failed?
    ensures OnTheWay(s.runs[id]) && s.runs[id].point.Restarting? ==> s.sessions[id].state.Starting?
    ensures s.runs[id].point.Running? ==> s.sessions[id].state.Active?
  {
    StateFollowsPoint(s, id);
  }

  // ---- After a declined question ----

  lemma WindingStep(s: Sys, step: Step, id: Id)
    requires Inv(s) && Enabled(s, step) && id in s.runs && WindingUp(s, id)
    ensures id in Apply(s, step).runs && WindingUp(Apply(s, step), id)
  {
    hide Inv, ApplyMove;
    if step.Go? && step.id == id {
      OwnOk(s, id);
      OwnAnswer(s, id, step.move);
    } else {
      OthersLeave(s, step, id);
      Domain(s, step);
    }
  }

  // A declined question ends in one exit report and the removal of the session.
  lemma {:induction false} DeclinedEnds(states: seq<Sys>, steps: seq<Step>, i: nat, j: nat, id: Id)
    requires Behaviour(states, steps) && i <= j <= |steps|
    requires id in states[i].runs && states[i].runs[id].point.Answered? && !states[i].runs[id].accepted
    ensures id in states[j].runs && WindingUp(states[j], id)
  {
    hide Apply, WindingUp, Inv;
    BehaviourInv(states, steps, j);
    if i == j {
      OwnOk(states[i], id);
      AnswerStands(states[i], id);
    } else {
      DeclinedEnds(states, steps, i, j - 1, id);
      BehaviourInv(states, steps, j - 1);
      assert Enabled(states[j - 1], steps[j - 1]) && states[j] == Apply(states[j - 1], steps[j - 1]);
      WindingStep(states[j - 1], steps[j - 1], id);
    }
  }

  lemma AnswerStands(s: Sys, id: Id)
    requires id in s.runs && LocalOk(ViewOf(s, id), s.binds) && s.runs[id].point.Answered?
    ensures s.runs[id].point.accept == s.runs[id].accepted && s.runs[id].trace == [SessionStarted]
    ensures if s.runs[id].accepted then OnTheWay(s.runs[id]) else WindingUp(s, id)
  {
  }

  // Its own next move turns the audio off.
  lemma AcceptedTurnsOff(states: seq<Sys>, steps: seq<Step>, i: nat, id: Id, move: Move)
    requires Behaviour(states, steps) && i < |steps| && steps[i] == Go(id, move)
    requires id in states[i].runs && states[i].runs[id].point.Answered? && states[i].runs[id].accepted
    ensures id in states[i + 1].runs && states[i + 1].runs[id].audioOff && states[i + 1].runs[id].point.Retrying?
    ensures states[i + 1].runs[id].trace == states[i].runs[id].trace
  {
    hide Apply, Inv;
    BehaviourInv(states, steps, i);
    OwnOk(states[i], id);
    assert Enabled(states[i], steps[i]) && states[i + 1] == Apply(states[i], steps[i]);
    GoApplies(states[i], id, move);
    hide ApplyMove;
    OwnAnswer(states[i], id, move);
  }

  lemma GoApplies(s: Sys, id: Id, move: Move)
    requires Enabled(s, Go(id, move))
    ensures Apply(s, Go(id, move)) == ApplyMove(s, id, move)
  {
  }

  // ---- How a run ends ----

  // A run that has reported its exit shows a failure and waits for its timer, or
  // is stopped and removes its session itself.
  ghost predicate Leaving(s: Sys, id: Id, failed: bool)
    requires id in s.runs
  {
    var p := s.runs[id].point;
    if failed then
      p.Failing? || p.Arming?
      || (p.Done? && (id in s.timers || id !in s.sessions || s.runs[id].cancelled))
    else
      p.Closing? || p == Removing(Stopping) || (p.Done? && id !in s.sessions)
  }

  lemma MovedLeaving(r: Run, t: Table, id: Id, order: nat, move: Move)
    requires CanMove(r, move) && !move.CancelDuplicate? && !move.RemoveOwn?
    ensures r.point.Failing? ==> move.SetFailed? && MovedRun(r, t, id, order, move).point == Arming
    ensures r.point.Arming? ==> move.Arm? && MovedRun(r, t, id, order, move).point == Done
    ensures r.point.Closing? ==> move.SetStopping? && MovedRun(r, t, id, order, move).point == Removing(Stopping)
  {
  }

  lemma LeavingMoves(r: Run, move: Move)
    requires CanMove(r, move)
    ensures r.point.Removing? <==> move.RemoveOwn?
    ensures r.point.Replacing? <== move.CancelDuplicate?
    ensures !r.point.Done?
  {
  }

  lemma OwnLeaving(s: Sys, id: Id, move: Move, failed: bool)
    requires id in s.runs && CanMove(s.runs[id], move) && Leaving(s, id, failed)
    ensures id in ApplyMove(s, id, move).runs && Leaving(ApplyMove(s, id, move), id, failed)
  {
    hide MovedTable, MovedRun, CanMove, LeavesSink;
    LeavingMoves(s.runs[id], move);
    if !move.RemoveOwn? && !move.CancelDuplicate? {
      MovedLeaving(s.runs[id], s.sessions, id, s.binds + 1, move);
    }
  }

  lemma OthersLeaving(s: Sys, step: Step, id: Id, failed: bool)
    requires Inv(s) && Enabled(s, step) && id in s.runs && Leaving(s, id, failed) && (step.Go? ==> step.id != id)
    ensures id in Apply(s, step).runs && Leaving(Apply(s, step), id, failed)
  {
    hide Apply, Inv;
    OthersLeave(s, step, id);
    Domain(s, step);
    TimerStays(s, step, id);
  }

  lemma TimerStays(s: Sys, step: Step, id: Id)
    requires Enabled(s, step)
    ensures id in s.timers ==> id in Apply(s, step).timers || id !in Apply(s, step).sessions
  {
  }

  // What the end of a run depends on: the time limit, or an error of a run that
  // was not cancelled, shows a failure; everything else stops.
  lemma DecideOutcome(s: Sys, id: Id, deadline: bool)
    requires id in s.runs && CanMove(s.runs[id], Decide(deadline))
    ensures var r := s.runs[id]; var s' := ApplyMove(s, id, Decide(deadline));
            id in s'.runs && Leaving(s', id, deadline || (r.point.err && !r.cancelled))
  {
  }

  // A run whose client returned, with or without an error, and what follows.
  ghost predicate Returned(s: Sys, id: Id, err: bool)
    requires id in s.runs
  {
    var r := s.runs[id];
    || ((r.point.Ended? || r.point.Settling?) && r.point.err == err && (err || !r.limited))
    || Leaving(s, id, err)
  }

  lemma OwnReturned(s: Sys, id: Id, move: Move, err: bool)
    requires id in s.runs && CanMove(s.runs[id], move) && Returned(s, id, err) && (err ==> !s.runs[id].cancelled)
    ensures id in ApplyMove(s, id, move).runs && Returned(ApplyMove(s, id, move), id, err)
  {
    hide MovedTable, Leaving;
    if Leaving(s, id, err) {
      OwnLeaving(s, id, move, err);
    } else if move.Decide? {
      DecideOutcome(s, id, move.deadline);
    }
  }

  lemma OthersReturned(s: Sys, step: Step, id: Id, err: bool)
    requires Inv(s) && Enabled(s, step) && id in s.runs && Returned(s, id, err) && (step.Go? ==> step.id != id)
    ensures id in Apply(s, step).runs && Returned(Apply(s, step), id, err)
  {
    hide Apply, Inv, Leaving;
    if Leaving(s, id, err) {
      OthersLeaving(s, step, id, err);
    } else {
      OthersLeave(s, step, id);
      LimitStays(s, step, id);
    }
  }

  lemma LimitStays(s: Sys, step: Step, id: Id)
    requires Inv(s) && Enabled(s, step) && id in s.runs && (step.Go? ==> step.id != id)
    ensures id in Apply(s, step).runs && Apply(s, step).runs[id].limited == s.runs[id].limited
  {
    PassiveStep(s, step, id);
    hide Apply;
    assert Passive(ViewOf(s, id), ViewOf(Apply(s, step), id));
  }

  lemma JustReturned(s: Sys, id: Id, err: bool)
    requires id in s.runs && CanMove(s.runs[id], Return(err)) && !s.runs[id].limited
    ensures id in ApplyMove(s, id, Return(err)).runs && Returned(ApplyMove(s, id, Return(err)), id, err)
  {
  }

  lemma CancelledStays(s: Sys, step: Step, id: Id)
    requires Inv(s) && Enabled(s, step) && id in s.runs && s.runs[id].cancelled
    ensures id in Apply(s, step).runs && Apply(s, step).runs[id].cancelled
  {
    hide Apply, Inv;
    if step.Go? && step.id == id {
      GoApplies(s, id, step.move);
      OwnRunLineage(s, id, step.move);
    } else {
      OthersLeave(s, step, id);
    }
  }

  // A client without a time limit that returns without an error is stopped and
  // its session removed; one that returns with an error shows the failure until
  // its timer, unless the run is cancelled.
  lemma {:induction false} ReturnDecides(states: seq<Sys>, steps: seq<Step>, i: nat, j: nat, id: Id, err: bool)
    requires Behaviour(states, steps) && i < j <= |steps| && steps[i] == Go(id, Return(err))
    requires id in states[i].runs && !states[i].runs[id].limited
    ensures id in states[j].runs && (Returned(states[j], id, err) || (err && states[j].runs[id].cancelled))
  {
    hide Apply, ApplyMove, Inv, Returned;
    BehaviourInv(states, steps, j - 1);
    var s, step := states[j - 1], steps[j - 1];
    assert Enabled(s, step) && states[j] == Apply(s, step);
    if j == i + 1 {
      GoApplies(s, id, Return(err));
      JustReturned(s, id, err);
    } else {
      ReturnDecides(states, steps, i, j - 1, id, err);
      if err && s.runs[id].cancelled {
        CancelledStays(s, step, id);
      } else if step.Go? && step.id == id {
        GoApplies(s, id, step.move);
        OwnReturned(s, id, step.move, err);
      } else {
        OthersReturned(s, step, id, err);
      }
    }
  }

  // A question that is abandoned, because of a cancel or the time limit, ends the
  // run like an error.
  lemma {:induction false} AbandonEnds(states: seq<Sys>, steps: seq<Step>, i: nat, j: nat, id: Id)
    requires Behaviour(states, steps) && i < j <= |steps| && steps[i] == Go(id, Abandon)
    requires id in states[i].runs
    ensures id in states[j].runs && (Returned(states[j], id, true) || states[j].runs[id].cancelled)
  {
    hide Apply, ApplyMove, Inv, Returned;
    BehaviourInv(states, steps, j - 1);
    var s, step := states[j - 1], steps[j - 1];
    assert Enabled(s, step) && states[j] == Apply(s, step);
    if j == i + 1 {
      GoApplies(s, id, Abandon);
      JustAbandoned(s, id);
    } else {
      AbandonEnds(states, steps, i, j - 1, id);
      if s.runs[id].cancelled {
        CancelledStays(s, step, id);
      } else if step.Go? && step.id == id {
        GoApplies(s, id, step.move);
        OwnReturned(s, id, step.move, true);
      } else {
        OthersReturned(s, step, id, true);
      }
    }
  }

  lemma JustAbandoned(s: Sys, id: Id)
    requires id in s.runs && CanMove(s.runs[id], Abandon)
    ensures id in ApplyMove(s, id, Abandon).runs && Returned(ApplyMove(s, id, Abandon), id, true)
  {
  }

  // The time limit shows a failure as well.
  lemma {:induction false} DeadlineShows(states: seq<Sys>, steps: seq<Step>, i: nat, j: nat, id: Id)
    requires Behaviour(states, steps) && i < j <= |steps| && steps[i] == Go(id, Decide(true))
    requires id in states[i].runs
    ensures id in states[j].runs && Leaving(states[j], id, true)
  {
    hide Apply, ApplyMove, Inv, Leaving;
    BehaviourInv(states, steps, j - 1);
    var s, step := states[j - 1], steps[j - 1];
    assert Enabled(s, step) && states[j] == Apply(s, step);
    if j == i + 1 {
      GoApplies(s, id, Decide(true));
      DecideOutcome(s, id, true);
    } else {
      DeadlineShows(states, steps, i, j - 1, id);
      if step.Go? && step.id == id {
        GoApplies(s, id, step.move);
        OwnLeaving(s, id, step.move, true);
      } else {
        OthersLeaving(s, step, id, true);
      }
    }
  }

  // ---- A launch that does not start ----

  // The run has failed before its client: it was refused, could not be built, or
  // met a changed host key.
  ghost predicate NeverStarts(r: Run) {
    && SessionStarted !in r.trace && (r.point.Done? || r.point.Arming? || r.trace == [])
    && (r.point.Rejected? || r.point.Unbuildable? || r.point.Unbuilt? || r.point.KeyChanged? || r.point.KeyPrompted?
        || r.point.Arming? || r.point.Done?)
  }

  lemma MovedNeverStarts(r: Run, t: Table, id: Id, order: nat, move: Move)
    requires CanMove(r, move) && NeverStarts(r)
    ensures !move.CancelDuplicate? && !move.RemoveOwn?
    ensures NeverStarts(MovedRun(r, t, id, order, move))
  {
  }

  lemma OwnNeverStarts(s: Sys, id: Id, move: Move)
    requires id in s.runs && CanMove(s.runs[id], move) && NeverStarts(s.runs[id])
    ensures id in ApplyMove(s, id, move).runs && NeverStarts(ApplyMove(s, id, move).runs[id])
  {
    hide MovedTable, MovedRun, CanMove, NeverStarts;
    MovedNeverStarts(s.runs[id], s.sessions, id, s.binds + 1, move);
  }

  lemma MovedFails(r: Run, t: Table, id: Id, order: nat, move: Move)
    requires CanMove(r, move) && RunOk(r) && (move.RedeemFail? || move.BuildFail? || move.FindChangedKey?)
    ensures NeverStarts(MovedRun(r, t, id, order, move))
  {
  }

  lemma JustFailed(s: Sys, id: Id, move: Move)
    requires Inv(s) && id in s.runs && CanMove(s.runs[id], move)
    requires move.RedeemFail? || move.BuildFail? || move.FindChangedKey?
    ensures id in ApplyMove(s, id, move).runs && NeverStarts(ApplyMove(s, id, move).runs[id])
  {
    hide MovedTable, MovedRun, CanMove, NeverStarts, Inv, RunOk, TrackOk, PromptOk, BindOk;
    OwnOk(s, id);
    MovedFails(s.runs[id], s.sessions, id, s.binds + 1, move);
  }

  // A refused launch, a client that cannot be built and a changed host key never
  // start a client or report a start.
  lemma {:induction false} FailureStartsNothing(states: seq<Sys>, steps: seq<Step>, i: nat, j: nat, id: Id, move: Move)
    requires Behaviour(states, steps) && i < j <= |steps| && steps[i] == Go(id, move) && id in states[i].runs
    requires move.RedeemFail? || move.BuildFail? || move.FindChangedKey?
    ensures id in states[j].runs && NeverStarts(states[j].runs[id])
  {
    hide Apply, ApplyMove, Inv, NeverStarts;
    BehaviourInv(states, steps, j - 1);
    var s, step := states[j - 1], steps[j - 1];
    assert Enabled(s, step) && states[j] == Apply(s, step);
    if j == i + 1 {
      GoApplies(s, id, move);
      JustFailed(s, id, move);
    } else {
      FailureStartsNothing(states, steps, i, j - 1, id, move);
      if step.Go? && step.id == id {
        GoApplies(s, id, step.move);
        OwnNeverStarts(s, id, step.move);
      } else {
        OthersLeave(s, step, id);
        SameStand(s.runs[id], Apply(s, step).runs[id]);
      }
    }
  }

  lemma SameStand(r: Run, r': Run)
    requires NeverStarts(r) && StandOf(r) == StandOf(r')
    ensures NeverStarts(r')
  {
  }

  // ---- Cancelling ----

  // Cancelling stops the session, cancels its run, and leaves a removal for one
  // that was failed or awaits a host key; cancelling all does so for every session.
  lemma CancelStops(s: Sys, id: Id)
    requires Registered(s) && id in s.sessions
    ensures var s' := Apply(s, Cancel(id));
            && id in s'.sessions && s'.sessions[id] == s.sessions[id].(state := Stopping)
            && id in s'.runs && s'.runs[id].cancelled
            && (s.sessions[id].state.Failed? || s.sessions[id].hostKeyPending ==> Remove(id) in s'.tasks)
            && forall other :: other in s.sessions && other != id ==> other in s'.sessions && s'.sessions[other] == s.sessions[other]
  {
  }

  lemma CancelAllStops(s: Sys, id: Id)
    requires Registered(s) && id in s.sessions
    ensures var s' := Apply(s, CancelAll);
            && id in s'.sessions && s'.sessions[id] == s.sessions[id].(state := Stopping)
            && id in s'.runs && s'.runs[id].cancelled
            && (s.sessions[id].state.Failed? || s.sessions[id].hostKeyPending ==> Remove(id) in s'.tasks)
  {
    if Terminal(s.sessions[id]) {
      assert Remove(id) in RemovalTasks(s.sessions);
    }
  }

  // ---- A host-key decision ----

  // Deciding a changed host key, either way, leads to the removal of the session.
  lemma KeyDecisionRemoves(s: Sys, id: Id)
    requires Reachable(s) && Enabled(s, DecideKey(id))
    ensures var s1 := Apply(s, DecideKey(id));
            && Enabled(s1, RunTask(ResolveKey(id), true))
            && var s2 := Apply(s1, RunTask(ResolveKey(id), true));
            && Enabled(s2, RunTask(Remove(id), true))
            && id !in Apply(s2, RunTask(Remove(id), true)).sessions
  {
    hide Reachable, InUse, ApplyMove, CancelOne, CancelEvery, CanMove;
  }

  // ---- A restart happens ----

  // The only launch so far, with a task under way.
  function Busy(r: Run, x: Session, tasks: multiset<Task>): Sys {
    Solo(r, x, {}).(tasks := tasks)
  }

  lemma Asked(r: Run, x: Session)
    requires Reachable(Solo(r, x, {})) && r.point == Running(true, Setup) && !r.cancelled && r.choice.None?
    requires x.prompt.NoPrompt?
    ensures Reachable(Solo(r.(point := Asking), x.(state := Failed, prompt := AudioPrompt, choiceOpen := true), {}))
  {
    hide Reachable;
    SoloMove(r, x, {}, LoseAudio);
    SoloMove(r.(point := NoAudio), x, {}, AskAudio);
  }

  lemma Accepted(r: Run, x: Session)
    requires Reachable(Solo(r, x, {})) && r.point == Asking && r.choice.None?
    requires x.prompt.AudioPrompt? && x.choiceOpen
    ensures Reachable(Solo(r.(answers := r.answers + 1, accepted := true, choice := Some(true)), x.(choiceOpen := false), {}))
  {
    hide Reachable, ApplyMove, CanMove;
    var s := Solo(r, x, {});
    ReachStep(s, AnswerAudio(1, true));
    var r1, x1 := r.(answers := r.answers + 1, accepted := true), x.(choiceOpen := false);
    var s1 := Busy(r1, x1, multiset{Send(1, true)});
    assert Apply(s, AnswerAudio(1, true)) == s1;
    ReachStep(s1, RunTask(Send(1, true), true));
    assert Apply(s1, RunTask(Send(1, true), true)) == Solo(r1.(choice := Some(true)), x1, {});
  }

  lemma Closed(r: Run, x: Session)
    requires Reachable(Solo(r, x, {})) && r.point == Asking && r.choice == Some(true)
    ensures Reachable(Solo(r.(choice := None, point := Retrying, audioOff := true, retries := r.retries + 1),
                           x.(choiceOpen := false, prompt := NoPrompt), {}))
  {
    hide Reachable;
    SoloMove(r, x, {}, TakeChoice);
    SoloMove(r.(point := Answered(true), choice := None), x, {}, CloseQuestion);
  }

  lemma StartedAgain(r: Run, x: Session)
    requires Reachable(Solo(r, x, {})) && r.point == Retrying
    ensures Reachable(Solo(r.(point := Running(false, Setup)), x.(state := Active), {}))
  {
    hide Reachable;
    SoloMove(r, x, {}, SetStarting);
    SoloMove(r.(point := Restarting), x.(state := Starting), {}, SetActive);
  }

  // Some behaviour restarts a session without audio and shows it active again.
  lemma RestartReached()
    ensures exists s: Sys :: Reachable(s) && 1 in s.runs && 1 in s.sessions
                             && s.runs[1].point == Running(false, Setup) && s.runs[1].audioOff && s.sessions[1].state.Active?
  {
    hide Reachable;
    SoloRunning();
    var x := NEW_SESSION.(connection := 3, state := Active);
    var r: Run :| r.point == Running(true, Setup) && r.bound == 1 && !r.audioOff && !r.cancelled && r.choice.None?
                  && Reachable(Solo(r, x, {}));
    Asked(r, x);
    var x1 := x.(state := Failed, prompt := AudioPrompt, choiceOpen := true);
    hide CanMove, ApplyMove, MovedRun, MovedTable;
    Accepted(r.(point := Asking), x1);
    var r2 := r.(point := Asking, answers := r.answers + 1, accepted := true, choice := Some(true));
    Closed(r2, x1.(choiceOpen := false));
    var r3 := r2.(choice := None, point := Retrying, audioOff := true, retries := r2.retries + 1);
    var x3 := x1.(choiceOpen := false, prompt := NoPrompt);
    StartedAgain(r3, x3);
    assert Reachable(Solo(r3.(point := Running(false, Setup)), x3.(state := Active), {}));
  }

  // And some behaviour asks about a changed host key.
  lemma KeyQuestionReached()
    ensures exists s: Sys :: Reachable(s) && Enabled(s, DecideKey(1))
  {
    hide Reachable;
    SoloBound();
    var r := START.(point := Replacing({}), ticket := 7, connection := 3, bound := 1);
    var x := NEW_SESSION.(connection := 3);
    SoloMove(r, x, {}, SetPreparing);
    SoloMove(r.(point := Building), x.(state := Preparing), {}, FindChangedKey);
    SoloMove(r.(point := KeyChanged), x.(state := Preparing), {}, ShowKeyPrompt);
    var s := Solo(r.(point := KeyPrompted), x.(hostKeyPending := true, state := Failed, prompt := HostKeyPrompt), {});
    assert Reachable(s) && Enabled(s, DecideKey(1));
  }
}
