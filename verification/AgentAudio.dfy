/** When sessions stay audible in every interleaving of the agent, and exactly
  * what mutes one.
  */
module AgentAudio {
  import opened Options
  import opened Sessions
  import opened AgentSystem
  import opened AgentInvariant
  import opened AgentViews
  import opened AgentPreservation
  import opened AgentTheorems

  // The run was restarted without audio.
  predicate Silenced(s: Sys, id: Id) {
    id in s.runs && s.runs[id].audioOff
  }

  // The session should be heard.
  predicate Sounds(s: Sys, id: Id, k: string) {
    id in s.sessions && Plays(s.sessions[id], k) && !Silenced(s, id)
  }

  // A session sounds through the sink, or a run is about to attach it, or a
  // resume is about to show a session that has it.
  ghost predicate Wanted(s: Sys, k: string) {
    && k != ""
    && (|| (exists id :: Sounds(s, id, k))
        || (exists id :: At(s, id, Running(true, Prepared(k))))
        || (exists id: Id :: FinishResume(id, k) in s.tasks && id in s.sessions))
  }

  ghost predicate Heard(s: Sys) {
    forall k :: Wanted(s, k) ==> k in s.playing
  }

  // The step carries out a suspension of a sink that is wanted.
  ghost predicate Mutes(s: Sys, step: Step) {
    step.RunTask? && step.task.Suspend? && Wanted(s, step.task.sink)
  }

  // ---- What is wanted after a step ----

  ghost predicate Opens(step: Step, k: string) {
    || (step.Go? && step.move == Prepare(k))
    || (step.RunTask? && step.task.Unsuspend? && step.task.sink == k)
  }

  lemma MovedSounds(v: View, t: Table, id: Id, order: nat, move: Move, k: string)
    requires CanMove(v.run, move) && !move.CancelDuplicate? && !move.RemoveOwn? && k != "" && id in t
    requires v.session == Some(Plain(t[id])) && RunOk(v.run) && PromptOk(v)
    requires Plays(MovedTable(t, id, v.run, move)[id], k) && !MovedRun(v.run, t, id, order, move).audioOff
    ensures (Plays(t[id], k) && !v.run.audioOff) || v.run.point == Running(true, Prepared(k))
  {
    hide TraceAt;
  }

  lemma OwnSounds(s: Sys, id: Id, move: Move, k: string)
    requires id in s.runs && CanMove(s.runs[id], move) && LocalOk(ViewOf(s, id), s.binds) && k != ""
    requires Sounds(ApplyMove(s, id, move), id, k)
    ensures Wanted(s, k)
  {
    hide MovedRun, MovedTable, RunOk, TrackOk, PromptOk, BindOk, Plays, InUse;
    if move.CancelDuplicate? || move.RemoveOwn? {
      StoppedSilent(s, id, move, k);
      assert Sounds(s, id, k);
    } else {
      MovedSounds(ViewOf(s, id), s.sessions, id, s.binds + 1, move, k);
      assert Sounds(s, id, k) || At(s, id, Running(true, Prepared(k)));
    }
  }

  lemma StoppedSilent(s: Sys, id: Id, move: Move, k: string)
    requires id in s.runs && CanMove(s.runs[id], move) && (move.CancelDuplicate? || move.RemoveOwn?)
    requires Sounds(ApplyMove(s, id, move), id, k)
    ensures Sounds(s, id, k)
  {
    hide MovedRun, MovedTable, InUse;
  }

  // Only the end of a resume shows a session again.
  lemma ShownBy(s: Sys, step: Step, id: Id)
    requires Enabled(s, step) && id in s.sessions && s.sessions[id].minimized
    requires id in Apply(s, step).sessions && !Apply(s, step).sessions[id].minimized
    requires Registered(s)
    ensures exists k :: FinishResume(id, k) in s.tasks
  {
    hide ApplyMove, ApplyTask;
    if step.Go? {
      OwnMinimized(s, step.id, step.move, id);
    } else if step.RunTask? {
      TaskShows(s, step.task, step.ok, id);
      assert step.task == FinishResume(id, step.task.sink);
    }
  }

  lemma TaskShows(s: Sys, task: Task, ok: bool, id: Id)
    requires Enabled(s, RunTask(task, ok)) && id in s.sessions && id in ApplyTask(s, task, ok).sessions
    ensures s.sessions[id].minimized && !ApplyTask(s, task, ok).sessions[id].minimized ==>
              task.FinishResume? && task.id == id
  {
    hide InUse;
  }

  lemma SoundsStep(s: Sys, step: Step, id: Id, k: string)
    requires Local(s) && ResumeOk(s) && Enabled(s, step) && k != "" && Sounds(Apply(s, step), id, k)
    ensures Wanted(s, k)
  {
    hide Wanted, ApplyMove, LocalOk, ViewOf;
    if id !in s.runs {
      Domain(s, step);
    } else if step.Go? && step.id == id {
      OwnSounds(s, id, step.move, k);
    } else {
      PassiveSounds(s, step, id, k);
    }
  }

  // What others do to a session that sounds afterwards can only have shown it.
  lemma SoundedBefore(s: Sys, s': Sys, id: Id, k: string)
    requires id in s.runs && id in s'.runs && Passive(ViewOf(s, id), ViewOf(s', id)) && Sounds(s', id, k)
    ensures id in s.sessions && s.sessions[id].sink == k && (s.sessions[id].minimized || Sounds(s, id, k))
  {
  }

  lemma PassiveSounds(s: Sys, step: Step, id: Id, k: string)
    requires Local(s) && ResumeOk(s) && Enabled(s, step) && k != "" && Sounds(Apply(s, step), id, k) && id in s.runs
    requires step.Go? ==> step.id != id
    ensures Wanted(s, k)
  {
    hide Apply, LocalOk, ViewOf, Passive, Enabled;
    PassiveStep(s, step, id);
    SoundedBefore(s, Apply(s, step), id, k);
    if s.sessions[id].minimized {
      ShownBy(s, step, id);
      assert WindowOk(s, id);
    }
  }

  lemma PreparedStep(s: Sys, step: Step, id: Id, k: string)
    requires Local(s) && Enabled(s, step) && k != "" && At(Apply(s, step), id, Running(true, Prepared(k)))
    ensures Wanted(s, k) || Opens(step, k)
  {
    hide ApplyMove, LocalOk, ViewOf;
    if id !in s.runs {
      Domain(s, step);
    } else if step.Go? && step.id == id {
      OwnPrepared(s, id, step.move, k);
    } else {
      PassiveStep(s, step, id);
      PassivePoint(s, Apply(s, step), id);
      assert At(s, id, Running(true, Prepared(k)));
    }
  }

  lemma OwnPrepared(s: Sys, id: Id, move: Move, k: string)
    requires id in s.runs && CanMove(s.runs[id], move) && At(ApplyMove(s, id, move), id, Running(true, Prepared(k)))
    ensures move == Prepare(k)
  {
    hide MovedTable;
  }

  lemma PassivePoint(s: Sys, s': Sys, id: Id)
    requires id in s.runs && id in s'.runs && Passive(ViewOf(s, id), ViewOf(s', id))
    ensures s'.runs[id].point == s.runs[id].point
  {
  }

  lemma ResumeStep(s: Sys, step: Step, id: Id, k: string)
    requires Local(s) && Enabled(s, step) && k != ""
    requires FinishResume(id, k) in Apply(s, step).tasks && id in Apply(s, step).sessions
    ensures Wanted(s, k) || Opens(step, k)
  {
    hide Apply, LocalOk, ViewOf;
    Domain(s, step);
    BegunBy(s, step, id, k);
    if FinishResume(id, k) in s.tasks {
      assert id in s.runs;
    }
  }

  lemma BegunBy(s: Sys, step: Step, id: Id, k: string)
    requires Enabled(s, step) && FinishResume(id, k) in Apply(s, step).tasks
    ensures FinishResume(id, k) in s.tasks || Opens(step, k)
  {
    hide ApplyMove, ApplyTask, CanMove;
    if step.Go? {
      MoveResumes(s, step.id, step.move, FinishResume(id, k));
    } else if step.RunTask? {
      TaskResumes(s, step.task, step.ok, FinishResume(id, k));
    }
  }

  lemma WantedStep(s: Sys, step: Step, k: string)
    requires Local(s) && ResumeOk(s) && Enabled(s, step) && Wanted(Apply(s, step), k)
    ensures Wanted(s, k) || Opens(step, k)
  {
    hide Apply, Local, ResumeOk, Sounds, Opens;
    var s' := Apply(s, step);
    if id :| Sounds(s', id, k) {
      SoundsStep(s, step, id, k);
    } else if id :| At(s', id, Running(true, Prepared(k))) {
      PreparedStep(s, step, id, k);
    } else {
      var id: Id :| FinishResume(id, k) in s'.tasks && id in s'.sessions;
      ResumeStep(s, step, id, k);
    }
  }

  // ---- What plays after a step ----

  lemma PlayingStep(s: Sys, step: Step, k: string)
    requires Enabled(s, step) && k != ""
    ensures k in s.playing && k !in Apply(s, step).playing ==> step.RunTask? && step.task == Suspend(k)
    ensures Opens(step, k) ==> k in Apply(s, step).playing
  {
    hide MovedRun, MovedTable, InUse, CanMove;
  }

  lemma MutingStep(s: Sys, step: Step)
    requires Enabled(s, step) && Mutes(s, step)
    ensures !Heard(Apply(s, step))
  {
    var s', k := Apply(s, step), step.task.sink;
    assert s'.sessions == s.sessions && s'.runs == s.runs;
    if id :| Sounds(s, id, k) {
      assert Sounds(s', id, k);
    } else if id :| At(s, id, Running(true, Prepared(k))) {
      assert At(s', id, Running(true, Prepared(k)));
    } else {
      var id: Id :| FinishResume(id, k) in s.tasks && id in s.sessions;
      assert FinishResume(id, k) in s'.tasks;
    }
    assert Wanted(s', k);
  }

  // From a state in which every wanted sink plays, a step leads to one exactly
  // when it does not carry out a suspension of a wanted sink.
  lemma HeardStep(s: Sys, step: Step)
    requires Inv(s) && Enabled(s, step) && Heard(s)
    ensures Heard(Apply(s, step)) <==> !Mutes(s, step)
  {
    hide Apply, Wanted, Local, ResumeOk, OneBindOrder, OnePerConnection, NoLeak;
    if Mutes(s, step) {
      MutingStep(s, step);
    } else {
      forall k | Wanted(Apply(s, step), k) ensures k in Apply(s, step).playing {
        WantedStep(s, step, k);
        WantedNamed(Apply(s, step), k);
        PlayingStep(s, step, k);
      }
    }
  }

  lemma WantedNamed(s: Sys, k: string)
    requires Wanted(s, k)
    ensures k != ""
  {
  }

  // So a behaviour keeps every wanted sink playing exactly as long as it carries
  // out no suspension of a wanted sink.
  lemma {:induction false} HeardExactly(states: seq<Sys>, steps: seq<Step>, n: nat)
    requires Behaviour(states, steps) && n <= |steps|
    ensures (forall i :: 0 <= i <= n ==> Heard(states[i])) <==> (forall i :: 0 <= i < n ==> !Mutes(states[i], steps[i]))
  {
    hide Apply, Heard, Mutes, Inv;
    if n == 0 {
      NothingWanted();
    } else {
      HeardExactly(states, steps, n - 1);
      BehaviourInv(states, steps, n - 1);
      assert Enabled(states[n - 1], steps[n - 1]) && states[n] == Apply(states[n - 1], steps[n - 1]);
      if Heard(states[n - 1]) {
        HeardStep(states[n - 1], steps[n - 1]);
      }
    }
  }

  lemma NothingWanted()
    ensures Heard(INIT)
  {
  }

  // Until then every active, visible session with a sink is heard, unless it was
  // restarted without audio.
  lemma SessionsHeard(states: seq<Sys>, steps: seq<Step>, n: nat, id: Id, k: string)
    requires Behaviour(states, steps) && n <= |steps| && k != ""
    requires forall i :: 0 <= i < n ==> !Mutes(states[i], steps[i])
    requires Sounds(states[n], id, k)
    ensures k in states[n].playing
  {
    hide Apply, Mutes, Sounds;
    HeardExactly(states, steps, n);
    assert Wanted(states[n], k);
  }

  // ---- Suspensions that come at once ----

  // A step that decides to suspend a sink finds nobody playing it, so if the
  // suspension is carried out before anything else happens it mutes somebody
  // exactly when the sink is being prepared or restored at that moment.
  lemma PromptSuspension(s: Sys, step: Step, k: string)
    requires Enabled(s, step) && Apply(s, step).tasks[Suspend(k)] > s.tasks[Suspend(k)] && k != ""
    ensures var s' := Apply(s, step);
            Wanted(s', k) <==>
              || (exists id :: At(s', id, Running(true, Prepared(k))))
              || (exists id: Id :: FinishResume(id, k) in s'.tasks && id in s'.sessions)
  {
    hide Apply;
    DecidedUnused(s, step, k);
  }

  lemma DecidedUnused(s: Sys, step: Step, k: string)
    requires Enabled(s, step) && Apply(s, step).tasks[Suspend(k)] > s.tasks[Suspend(k)]
    ensures !InUse(Apply(s, step).sessions, k)
  {
    hide MovedRun, MovedTable, RemoveSession, CancelOne, CancelEvery, ApplyTask, InUse;
    match step
    case Go(id, move) =>
      if move.RemoveOwn? {
        RemovalUnused(Goto(s, id, Done), id, k);
      } else if move.CancelDuplicate? {
        CancelDecidesNothing(Goto(s, id, Replacing(s.runs[id].point.duplicates - {move.duplicate})), move.duplicate, k);
      }
    case FireTimer(id) => RemovalUnused(s.(timers := s.timers - {id}), id, k);
    case Cancel(id) => CancelDecidesNothing(s, id, k);
    case CancelAll => AllDecideNothing(s, k);
    case RunTask(task, ok) => TaskUnused(s, task, ok, k);
    case _ =>
  }

  lemma RemovalUnused(s: Sys, id: Id, k: string)
    requires RemoveSession(s, id).tasks[Suspend(k)] > s.tasks[Suspend(k)]
    ensures !InUse(RemoveSession(s, id).sessions, k)
  {
    hide InUse;
  }

  lemma CancelDecidesNothing(s: Sys, id: Id, k: string)
    ensures CancelOne(s, id).tasks[Suspend(k)] == s.tasks[Suspend(k)]
  {
  }

  lemma AllDecideNothing(s: Sys, k: string)
    ensures CancelEvery(s).tasks[Suspend(k)] == s.tasks[Suspend(k)]
  {
    assert Suspend(k) !in RemovalTasks(s.sessions) && Suspend(k) !in ReleaseTasks(s.sessions);
  }

  lemma TaskUnused(s: Sys, task: Task, ok: bool, k: string)
    requires Enabled(s, RunTask(task, ok)) && ApplyTask(s, task, ok).tasks[Suspend(k)] > s.tasks[Suspend(k)]
    ensures !InUse(ApplyTask(s, task, ok).sessions, k)
  {
    hide InUse;
  }

  // ---- A late suspension ----

  lemma ReachStep(s: Sys, step: Step)
    requires Reachable(s) && Enabled(s, step)
    ensures Reachable(Apply(s, step))
  {
    hide Apply, Enabled;
    var states, steps :| Behaviour(states, steps) && s == states[|steps|];
    var longer, more := states + [Apply(s, step)], steps + [step];
    forall i | 0 <= i < |more| ensures Enabled(longer[i], more[i]) && longer[i + 1] == Apply(longer[i], more[i]) {
      if i < |steps| {
        assert longer[i] == states[i] && more[i] == steps[i] && longer[i + 1] == states[i + 1];
      }
    }
    assert Behaviour(longer, more);
  }

  // A session can hold a sink of its own and be active.
  predicate Sounding(s: Sys, id: Id) {
    && CanMinimize(s.sessions, id) && s.sessions[id].sink != "" && !Silenced(s, id)
    && forall other :: other in s.sessions && other != id ==> !Plays(s.sessions[other], s.sessions[id].sink)
  }

  // Suspending happens outside the lock: a session that is minimised and resumed
  // before the suspension arrives stays active, unminimised and mute.
  lemma LateSuspensionMutes(s: Sys, id: Id, text: string)
    requires Reachable(s) && Sounding(s, id) && text != ""
    ensures var k := s.sessions[id].sink; exists s' :: Reachable(s') && Sounds(s', id, k) && k !in s'.playing
  {
    hide Reachable;
    var k := s.sessions[id].sink;
    var s1 := Apply(s, BeginMinimize(id, text));
    ReachStep(s, BeginMinimize(id, text));
    var s2 := Apply(s1, RunTask(FinishMinimize(id, text), true));
    ReachStep(s1, RunTask(FinishMinimize(id, text), true));
    assert Suspend(k) in s2.tasks && CanResume(s2.sessions, id);
    Resumed(s2, id, k);
  }

  lemma Resumed(s: Sys, id: Id, k: string)
    requires Reachable(s) && !Silenced(s, id) && CanResume(s.sessions, id) && s.sessions[id].sink == k != "" && Suspend(k) in s.tasks
    ensures exists s' :: Reachable(s') && Sounds(s', id, k) && k !in s'.playing
  {
    hide Reachable, InUse, ApplyMove, CancelOne, CancelEvery, EndMinimize, RemoveSession, CanMove;
    var s1 := Apply(s, BeginResume(id));
    ReachStep(s, BeginResume(id));
    var s2 := Apply(s1, RunTask(Unsuspend(id, k), true));
    ReachStep(s1, RunTask(Unsuspend(id, k), true));
    RestoredThenMuted(s2, id, k);
  }

  lemma RestoredThenMuted(s: Sys, id: Id, k: string)
    requires Reachable(s) && !Silenced(s, id) && id in s.sessions && s.sessions[id].state.Active? && s.sessions[id].sink == k
    requires FinishResume(id, k) in s.tasks && Suspend(k) in s.tasks
    ensures exists s' :: Reachable(s') && Sounds(s', id, k) && k !in s'.playing
  {
    hide Reachable, InUse, ApplyMove, CancelOne, CancelEvery, EndMinimize, RemoveSession, CanMove;
    var s1 := Apply(s, RunTask(FinishResume(id, k), true));
    ReachStep(s, RunTask(FinishResume(id, k), true));
    var s2 := Apply(s1, RunTask(Suspend(k), true));
    ReachStep(s1, RunTask(Suspend(k), true));
    assert Sounds(s2, id, k) && k !in s2.playing;
  }

  // ---- One such session ----

  // The only launch so far.
  function Solo(r: Run, x: Session, playing: set<string>): Sys {
    Sys(map[1 := x], 1, map[1 := r], {}, multiset{}, playing, 1)
  }

  lemma SoloMove(r: Run, x: Session, playing: set<string>, move: Move)
    requires Reachable(Solo(r, x, playing)) && CanMove(r, move)
    requires !move.CancelDuplicate? && !move.RemoveOwn? && !move.RedeemOk? && !move.Arm? && !move.Prepare?
    ensures var t := map[1 := x];
            Reachable(Solo(MovedRun(r, t, 1, 2, move), MovedTable(t, 1, r, move)[1], playing))
  {
    hide Reachable, MovedRun, CanMove;
    var s, t := Solo(r, x, playing), map[1 := x];
    ReachStep(s, Go(1, move));
    var s' := Apply(s, Go(1, move));
    assert s'.sessions == map[1 := MovedTable(t, 1, r, move)[1]];
    assert s'.runs == map[1 := MovedRun(r, t, 1, 2, move)];
    assert s' == Solo(MovedRun(r, t, 1, 2, move), MovedTable(t, 1, r, move)[1], playing);
  }

  lemma SoloBound()
    ensures Reachable(Solo(START.(point := Replacing({}), ticket := 7, connection := 3, bound := 1),
                           NEW_SESSION.(connection := 3), {}))
  {
    hide Reachable;
    assert Reachable(INIT) by { Start(); }
    ReachStep(INIT, Launch);
    var s := Apply(INIT, Launch);
    assert s == Sys(map[1 := NEW_SESSION], 1, map[1 := START], {}, multiset{}, {}, 0);
    var move := RedeemOk(7, 3, false);
    ReachStep(s, Go(1, move));
    var t := Bind(s.sessions, 1, 3);
    assert Duplicates(t, 1, 3) == {};
    assert Apply(s, Go(1, move))
        == Solo(START.(point := Replacing({}), ticket := 7, connection := 3, bound := 1), NEW_SESSION.(connection := 3), {});
  }

  lemma Start()
    ensures Reachable(INIT)
  {
    assert Behaviour([INIT], []);
  }

  lemma SoloRunning()
    ensures exists r: Run :: r.point == Running(true, Setup) && r.bound == 1 && !r.audioOff && !r.cancelled && r.choice.None?
                             && Reachable(Solo(r, NEW_SESSION.(connection := 3, state := Active), {}))
  {
    hide Reachable;
    SoloBound();
    var r := START.(point := Replacing({}), ticket := 7, connection := 3, bound := 1);
    var x := NEW_SESSION.(connection := 3);
    SoloMove(r, x, {}, SetPreparing);
    SoloMove(r.(point := Building), x.(state := Preparing), {}, BuildOk);
    SoloMove(r.(point := Built), x.(state := Preparing), {}, SetStarting);
    SoloMove(r.(point := Announcing), x.(state := Starting), {}, Report);
    var told := r.(point := Announced, trace := [] + [SessionStarted]);
    SoloMove(told, x.(state := Starting), {}, SetActive);
    assert Reachable(Solo(told.(point := Running(true, Setup)), x.(state := Active), {}));
  }

  lemma SoloPrepared(r: Run, x: Session, k: string)
    requires Reachable(Solo(r, x, {})) && r.point == Running(true, Setup) && k != ""
    ensures Reachable(Solo(r.(point := Running(true, Prepared(k))), x, {k}))
  {
    hide Reachable;
    ReachStep(Solo(r, x, {}), Go(1, Prepare(k)));
    assert Apply(Solo(r, x, {}), Go(1, Prepare(k))) == Solo(r.(point := Running(true, Prepared(k))), x, {k});
  }

  lemma SoloRecorded(r: Run, x: Session, k: string)
    requires Reachable(Solo(r.(point := Running(true, Prepared(k))), x, {k}))
    ensures Reachable(Solo(r.(point := Running(true, Recorded)), x.(sink := k, pid := 9), {k}))
  {
    hide Reachable;
    SoloMove(r.(point := Running(true, Prepared(k))), x, {k}, Attach);
    SoloMove(r.(point := Running(true, Ready)), x.(sink := k), {k}, StartClient);
    SoloMove(r.(point := Running(true, Executing)), x.(sink := k), {k}, NotePid(9));
  }

  // A session with a sink of its own is one launch away.
  lemma SoundingReached(k: string)
    requires k != ""
    ensures exists s :: Reachable(s) && Sounding(s, 1) && s.sessions[1].sink == k
  {
    hide Reachable;
    SoloRunning();
    var x := NEW_SESSION.(connection := 3, state := Active);
    var r: Run :| r.point == Running(true, Setup) && r.bound == 1 && !r.audioOff && !r.cancelled && r.choice.None?
                  && Reachable(Solo(r, x, {}));
    SoloPrepared(r, x, k);
    SoloRecorded(r, x, k);
    var s := Solo(r.(point := Running(true, Recorded)), x.(sink := k, pid := 9), {k});
    assert Reachable(s) && Sounding(s, 1);
  }

  // Hence a behaviour that mutes an active, visible session with its audio on.
  lemma MuteReached(k: string)
    requires k != ""
    ensures exists s, id :: Reachable(s) && Sounds(s, id, k) && k !in s.playing
  {
    hide Reachable;
    SoundingReached(k);
    var s :| Reachable(s) && Sounding(s, 1) && s.sessions[1].sink == k;
    LateSuspensionMutes(s, 1, "window");
  }
}
