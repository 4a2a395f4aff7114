/** The session manager as an object whose calls do not overlap.
  *
  * `Desk` is its abstract state; each operation on it is the whole call, audio
  * included, with audio calls that succeed.  Class `Manager` does the same work
  * on fields, with the source's loops over the table.
  */
module AgentManager {
  import opened Options
  import opened Sessions

  // `playing` holds the sinks that are not suspended, `silent` the sessions
  // restarted with their audio disabled.
  datatype Desk = Desk(sessions: Table, next: nat, cancelled: set<Id>, playing: set<string>, silent: set<Id>)

  const EMPTY := Desk(map[], 0, {}, {}, {})

  // ---- Operations ----

  function Launched(d: Desk): Desk {
    d.(sessions := d.sessions[d.next + 1 := NEW_SESSION], next := d.next + 1)
  }

  function RemoveSession(d: Desk, id: Id): Desk {
    d.(sessions := Untrack(d.sessions, id),
       playing := if LeavesSink(d.sessions, id) then d.playing - {d.sessions[id].sink} else d.playing)
  }

  function ReleaseIfUnused(d: Desk, sink: string): Desk {
    if sink == "" || InUse(d.sessions, sink) then d else d.(playing := d.playing - {sink})
  }

  function CancelOne(d: Desk, id: Id): Desk {
    if id !in d.sessions then d else
    var x := d.sessions[id];
    var d1 := d.(sessions := SetState(d.sessions, id, Stopping), cancelled := d.cancelled + {id});
    ReleaseIfUnused(if Terminal(x) then RemoveSession(d1, id) else d1, x.sink)
  }

  function SinksOf(t: Table, ids: set<Id>): set<string> {
    set id | id in ids && id in t && t[id].sink != "" :: t[id].sink
  }

  function Sinks(t: Table): set<string> {
    SinksOf(t, t.Keys)
  }

  // Cancelling everything keeps only clients that still have to exit, all of
  // them stopping, and suspends every sink any session had.
  function CancelEvery(d: Desk): Desk {
    d.(sessions := map id | id in d.sessions && !Terminal(d.sessions[id]) :: d.sessions[id].(state := Stopping),
       cancelled := d.cancelled + d.sessions.Keys,
       playing := d.playing - Sinks(d.sessions))
  }

  // The runner prepares a sink and reports it.
  function AudioReady(d: Desk, id: Id, sink: string): Desk {
    d.(sessions := AttachSink(d.sessions, id, sink), playing := d.playing + {sink})
  }

  function RestartSilently(d: Desk, id: Id): Desk {
    d.(sessions := SetState(SetState(CloseAudioPrompt(d.sessions, id), id, Starting), id, Active),
       silent := d.silent + {id})
  }

  function Minimized(d: Desk, id: Id, windowState: string): Desk {
    if !CanMinimize(d.sessions, id) then d else
    var d1 := d.(sessions := MarkMinimized(d.sessions, id, windowState));
    ReleaseIfUnused(d1, d.sessions[id].sink)
  }

  function Resumed(d: Desk, id: Id, windowOk: bool): Desk {
    if !CanResume(d.sessions, id) then d else
    var sink := d.sessions[id].sink;
    var d1 := if sink != "" then d.(playing := d.playing + {sink}) else d;
    if windowOk then d1.(sessions := MarkRestored(d1.sessions, id)) else ReleaseIfUnused(d1, sink)
  }

  // ---- Whole histories ----

  datatype Op =
    | OpLaunch
    | OpSet(id: Id, state: State)
    | OpRemove(id: Id)
    | OpCancel(id: Id)
    | OpCancelAll
    | OpAudioReady(id: Id, sink: string)
    | OpRecordPid(id: Id, pid: int)
    | OpAskAudio(id: Id)
    | OpRestartSilently(id: Id)
    | OpMinimize(id: Id, windowState: string)
    | OpResume(id: Id, windowOk: bool)

  // `run` makes a session active before it has a sink; afterwards only a
  // silent restart does.
  predicate Allowed(d: Desk, op: Op) {
    match op
    case OpSet(id, state) => id in d.sessions && state.Active? ==> d.sessions[id].sink == ""
    case OpAudioReady(_, sink) => sink != ""
    case _ => true
  }

  function Perform(d: Desk, op: Op): Desk {
    match op
    case OpLaunch => Launched(d)
    case OpSet(id, state) => d.(sessions := SetState(d.sessions, id, state))
    case OpRemove(id) => RemoveSession(d, id)
    case OpCancel(id) => CancelOne(d, id)
    case OpCancelAll => CancelEvery(d)
    case OpAudioReady(id, sink) => AudioReady(d, id, sink)
    case OpRecordPid(id, pid) => d.(sessions := RecordPid(d.sessions, id, pid))
    case OpAskAudio(id) => if id in d.sessions then d.(sessions := OpenAudioPrompt(d.sessions, id)) else d
    case OpRestartSilently(id) => RestartSilently(d, id)
    case OpMinimize(id, windowState) => Minimized(d, id, windowState)
    case OpResume(id, windowOk) => Resumed(d, id, windowOk)
  }

  function After(d: Desk, ops: seq<Op>): Desk
    decreases ops
  {
    if ops == [] then d else After(Perform(d, ops[0]), ops[1..])
  }

  ghost predicate AllAllowed(d: Desk, ops: seq<Op>)
    decreases ops
  {
    ops == [] || (Allowed(d, ops[0]) && AllAllowed(Perform(d, ops[0]), ops[1..]))
  }

  // Nobody plays the sink of a session that was minimised, or not restored, and
  // the sink still plays only if somebody else does.
  lemma SilentAfterwards(d: Desk, id: Id, windowState: string)
    requires id in d.sessions && d.sessions[id].sink != ""
    ensures CanMinimize(d.sessions, id) ==>
              var after, k := Minimized(d, id, windowState), d.sessions[id].sink;
              && after.sessions == d.sessions[id := d.sessions[id].(minimized := true, windowState := windowState)]
              && (k in after.playing <==>
                    k in d.playing && exists other ::
                      other != id && other in d.sessions && d.sessions[other].sink == k
                      && d.sessions[other].state.Active? && !d.sessions[other].minimized)
    ensures CanResume(d.sessions, id) ==>
              var after, k := Resumed(d, id, false), d.sessions[id].sink;
              && after.sessions == d.sessions
              && (k in after.playing <==>
                    exists other ::
                      other in d.sessions && d.sessions[other].sink == k
                      && d.sessions[other].state.Active? && !d.sessions[other].minimized)
    ensures CanResume(d.sessions, id) ==>
              var after := Resumed(d, id, true);
              && after.sessions == d.sessions[id := d.sessions[id].(minimized := false)]
              && after.playing == d.playing + {d.sessions[id].sink}
  {
    var k := d.sessions[id].sink;
    if CanMinimize(d.sessions, id) {
      var t := MarkMinimized(d.sessions, id, windowState);
      assert InUse(t, k) <==> exists other ::
        other != id && other in d.sessions && d.sessions[other].sink == k
        && d.sessions[other].state.Active? && !d.sessions[other].minimized by {
        if other :| other in t && Plays(t[other], k) {
          assert other != id && d.sessions[other] == t[other];
        }
        if other :| other != id && other in d.sessions && d.sessions[other].sink == k
                    && d.sessions[other].state.Active? && !d.sessions[other].minimized {
          assert other in t && Plays(t[other], k);
        }
      }
    }
  }

  // Every active, visible session with a sink is heard, unless it was restarted
  // without audio.
  ghost predicate Audible(d: Desk) {
    forall id ::
      id in d.sessions && d.sessions[id].sink != "" && Plays(d.sessions[id], d.sessions[id].sink) && id !in d.silent
      ==> d.sessions[id].sink in d.playing
  }

  lemma ReleaseKeepsAudible(d: Desk, sink: string)
    requires Audible(d)
    ensures Audible(ReleaseIfUnused(d, sink))
  {
    var d' := ReleaseIfUnused(d, sink);
    forall id | id in d'.sessions && d'.sessions[id].sink != "" && Plays(d'.sessions[id], d'.sessions[id].sink)
                && id !in d'.silent
      ensures d'.sessions[id].sink in d'.playing
    {
      assert d.sessions[id].sink == sink ==> InUse(d.sessions, sink);
    }
  }

  lemma RemoveKeepsAudible(d: Desk, id: Id)
    requires Audible(d)
    ensures Audible(RemoveSession(d, id))
  {
    var d' := RemoveSession(d, id);
    forall other | other in d'.sessions && d'.sessions[other].sink != ""
                   && Plays(d'.sessions[other], d'.sessions[other].sink) && other !in d'.silent
      ensures d'.sessions[other].sink in d'.playing
    {
      assert InUse(d'.sessions, d'.sessions[other].sink);
    }
  }

  lemma PerformKeepsAudible(d: Desk, op: Op)
    requires Audible(d) && Allowed(d, op)
    ensures Audible(Perform(d, op))
  {
    match op
    case OpLaunch =>
    case OpSet(_, _) =>
    case OpRemove(id) => RemoveKeepsAudible(d, id);
    case OpCancel(id) =>
      if id in d.sessions {
        var x := d.sessions[id];
        var d1 := d.(sessions := SetState(d.sessions, id, Stopping), cancelled := d.cancelled + {id});
        RemoveKeepsAudible(d1, id);
        ReleaseKeepsAudible(if Terminal(x) then RemoveSession(d1, id) else d1, x.sink);
      }
    case OpCancelAll =>
    case OpAudioReady(_, _) =>
    case OpRecordPid(_, _) =>
    case OpAskAudio(_) =>
    case OpRestartSilently(_) =>
    case OpMinimize(id, windowState) =>
      if CanMinimize(d.sessions, id) {
        ReleaseKeepsAudible(d.(sessions := MarkMinimized(d.sessions, id, windowState)), d.sessions[id].sink);
      }
    case OpResume(id, windowOk) =>
      if CanResume(d.sessions, id) && !windowOk && d.sessions[id].sink != "" {
        ReleaseKeepsAudible(d.(playing := d.playing + {d.sessions[id].sink}), d.sessions[id].sink);
      }
  }

  // Over any history of calls that do not overlap, no active session is muted.
  lemma {:induction false} NeverMuted(d: Desk, ops: seq<Op>)
    requires Audible(d) && AllAllowed(d, ops)
    ensures Audible(After(d, ops))
    decreases ops
  {
    if ops != [] {
      PerformKeepsAudible(d, ops[0]);
      NeverMuted(Perform(d, ops[0]), ops[1..]);
    }
  }

  // `stopped` have been cancelled, in whatever order: those whose client still
  // has to exit are stopping, the others are gone, and of their sinks exactly
  // those nobody plays any more are suspended.
  ghost predicate Replaced(before: Desk, after: Desk, stopped: set<Id>) {
    && after.sessions == (map id | id in before.sessions && !(id in stopped && Terminal(before.sessions[id])) ::
                            if id in stopped then before.sessions[id].(state := Stopping) else before.sessions[id])
    && after.cancelled == before.cancelled + stopped
    && after.playing == (set k | k in before.playing && (k !in SinksOf(before.sessions, stopped) || InUse(after.sessions, k)))
    && after.next == before.next && after.silent == before.silent
  }

  lemma StopKeepsSinks(t: Table)
    ensures Sinks(StopAll(t)) == Sinks(t)
  {
    forall id | id in t && t[id].sink != ""
      ensures t[id].sink in Sinks(StopAll(t))
    {
      assert StopAll(t)[id].sink == t[id].sink;
    }
    forall id | id in StopAll(t) && StopAll(t)[id].sink != ""
      ensures t[id].sink in Sinks(t)
    {
    }
  }

  function StopSome(t: Table, ids: set<Id>): Table {
    map id | id in t :: if id in ids then t[id].(state := Stopping) else t[id]
  }

  function TerminalOf(t: Table, ids: set<Id>): set<Id> {
    set id | id in ids && id in t && Terminal(t[id])
  }

  // Stopping one more session of a table.
  lemma StopGrows(t: Table, ids: set<Id>, id: Id)
    requires id in t && id !in ids
    ensures id in StopSome(t, ids) && StopSome(t, ids)[id] == t[id]
    ensures StopSome(t, ids + {id}) == StopSome(t, ids)[id := t[id].(state := Stopping)]
    ensures TerminalOf(t, ids + {id}) == TerminalOf(t, ids) + (if Terminal(t[id]) then {id} else {})
    ensures SinksOf(t, ids + {id}) == SinksOf(t, ids) + (if t[id].sink != "" then {t[id].sink} else {})
  {
    forall k | k in SinksOf(t, ids)
      ensures k in SinksOf(t, ids + {id})
    {
      var other :| other in ids && other in t && t[other].sink != "" && t[other].sink == k;
      assert other in ids + {id};
    }
    assert id in ids + {id};
  }

  // Cancelling a session changes who plays its own sink only, and can only end it.
  lemma CancelPlays(d: Desk, id: Id, k: string)
    requires id in d.sessions
    ensures InUse(CancelOne(d, id).sessions, k) ==> InUse(d.sessions, k)
    ensures k != d.sessions[id].sink ==> (InUse(CancelOne(d, id).sessions, k) <==> InUse(d.sessions, k))
  {
    var t := CancelOne(d, id).sessions;
    assert forall other :: other in d.sessions && other != id ==> other in t && t[other] == d.sessions[other];
  }

  lemma CancelReleases(d: Desk, id: Id, k: string)
    requires id in d.sessions
    ensures k in CancelOne(d, id).playing <==>
              k in d.playing && (k == "" || k != d.sessions[id].sink || InUse(CancelOne(d, id).sessions, k))
  {
  }

  lemma RemovalReleases(d: Desk, id: Id, k: string)
    ensures var after := RemoveSession(d, id);
            k in after.playing <==>
              k in d.playing && (id !in d.sessions || k == "" || k != d.sessions[id].sink || InUse(after.sessions, k))
    ensures InUse(RemoveSession(d, id).sessions, k) ==> InUse(d.sessions, k)
    ensures id !in d.sessions || k != d.sessions[id].sink ==> (InUse(RemoveSession(d, id).sessions, k) <==> InUse(d.sessions, k))
  {
    var t := RemoveSession(d, id).sessions;
    assert forall other :: other in d.sessions && other != id ==> other in t && t[other] == d.sessions[other];
  }

  // `gone` have been removed; of their sinks exactly those nobody plays any more
  // are suspended.
  ghost predicate Dropped(before: Desk, after: Desk, gone: set<Id>) {
    && after.sessions == (map id | id in before.sessions && id !in gone :: before.sessions[id])
    && after.playing == (set k | k in before.playing && (k !in SinksOf(before.sessions, gone) || InUse(after.sessions, k)))
    && after.cancelled == before.cancelled && after.next == before.next && after.silent == before.silent
  }

  lemma RemovalDrops(before: Desk, d: Desk, gone: set<Id>, id: Id)
    requires Dropped(before, d, gone) && id !in gone
    ensures Dropped(before, RemoveSession(d, id), gone + {id})
  {
    var after := RemoveSession(d, id);
    forall k
      ensures k in after.playing <==>
                k in before.playing && (k !in SinksOf(before.sessions, gone + {id}) || InUse(after.sessions, k))
    {
      if id in before.sessions {
        SinksGrow(before.sessions, gone, id, k);
      } else {
        assert SinksOf(before.sessions, gone + {id}) == SinksOf(before.sessions, gone);
      }
      RemovalReleases(d, id, k);
    }
    hide SinksOf, InUse;
  }

  lemma SinksGrow(t: Table, ids: set<Id>, id: Id, k: string)
    requires id in t
    ensures k in SinksOf(t, ids + {id}) <==> k in SinksOf(t, ids) || (k != "" && k == t[id].sink)
  {
    if k in SinksOf(t, ids) {
      var other :| other in ids && other in t && t[other].sink == k && k != "";
      assert other in ids + {id};
    }
    assert id in ids + {id};
  }

  lemma CancelReplaces(before: Desk, d: Desk, stopped: set<Id>, id: Id)
    requires Replaced(before, d, stopped) && id in before.sessions && id !in stopped
    ensures Replaced(before, CancelOne(d, id), stopped + {id})
  {
    var after := CancelOne(d, id);
    forall k
      ensures k in after.playing <==>
                k in before.playing && (k !in SinksOf(before.sessions, stopped + {id}) || InUse(after.sessions, k))
    {
      SinksGrow(before.sessions, stopped, id, k);
      CancelPlays(d, id, k);
      CancelReleases(d, id, k);
    }
    hide SinksOf, InUse;
  }

  // ---- The object ----

  class Manager {
    var sessions: Table
    var nextSession: nat
    var cancelled: set<Id>
    var playing: set<string>
    var silent: set<Id>

    function State(): Desk
      reads this
    {
      Desk(sessions, nextSession, cancelled, playing, silent)
    }

    constructor ()
      ensures State() == EMPTY
    {
      sessions := map[];
      nextSession := 0;
      cancelled := {};
      playing := {};
      silent := {};
    }

    method Launch() returns (id: Id)
      modifies this
      ensures State() == Launched(old(State()))
      ensures id == nextSession && sessions[id] == NEW_SESSION
    {
      nextSession := nextSession + 1;
      id := nextSession;
      sessions := sessions[id := NEW_SESSION];
    }

    method SetSession(id: Id, state: Sessions.State)
      modifies this
      ensures State() == old(State()).(sessions := SetState(old(sessions), id, state))
    {
      if id in sessions {
        sessions := sessions[id := sessions[id].(state := state)];
      }
    }

    method AudioSinkInUse(sink: string) returns (inUse: bool)
      ensures inUse == InUse(sessions, sink)
    {
      var left := sessions.Keys;
      while left != {}
        invariant left <= sessions.Keys
        invariant forall id :: id in sessions && id !in left ==> !Plays(sessions[id], sink)
        decreases left
      {
        var id :| id in left;
        if Plays(sessions[id], sink) {
          return true;
        }
        left := left - {id};
      }
      inUse := false;
    }

    method ReleaseAudioIfUnused(sink: string)
      modifies this
      ensures State() == ReleaseIfUnused(old(State()), sink)
    {
      if sink != "" {
        var inUse := AudioSinkInUse(sink);
        if !inUse {
          playing := playing - {sink};
        }
      }
    }

    method Remove(id: Id)
      modifies this
      ensures State() == RemoveSession(old(State()), id)
    {
      var sink := "";
      if id in sessions {
        sink := sessions[id].sink;
      }
      sessions := sessions - {id};
      assert sessions == Untrack(old(sessions), id);
      if sink != "" {
        var inUse := AudioSinkInUse(sink);
        if !inUse {
          playing := playing - {sink};
        }
      }
    }

    method Cancel(id: Id) returns (ok: bool)
      modifies this
      ensures State() == CancelOne(old(State()), id)
      ensures ok == (id in old(sessions))
    {
      if id !in sessions {
        return false;
      }
      var terminal, sink := Terminal(sessions[id]), sessions[id].sink;
      sessions := sessions[id := sessions[id].(state := Stopping)];
      cancelled := cancelled + {id};
      if terminal {
        Remove(id);
      }
      ReleaseAudioIfUnused(sink);
      ok := true;
    }

    // Binds a run to its connection and collects the sessions it replaces.
    method BindAndScan(id: Id, connection: int) returns (duplicates: set<Id>)
      modifies this
      ensures State() == old(State()).(sessions := Bind(old(sessions), id, connection))
      ensures duplicates == Duplicates(sessions, id, connection)
    {
      if id in sessions {
        sessions := sessions[id := sessions[id].(connection := connection)];
      }
      duplicates := {};
      var left := sessions.Keys;
      while left != {}
        invariant left <= sessions.Keys
        invariant duplicates == Duplicates(sessions, id, connection) - left
        decreases left
      {
        var other :| other in left;
        if other != id && sessions[other].connection == connection && !sessions[other].state.Stopping? {
          duplicates := duplicates + {other};
        }
        left := left - {other};
      }
    }

    // Launching a connection cancels every other session it already has.
    method ReplaceConnection(id: Id, connection: int)
      modifies this
      ensures var bound := old(State()).(sessions := Bind(old(sessions), id, connection));
              Replaced(bound, State(), Duplicates(bound.sessions, id, connection))
    {
      var duplicates := BindAndScan(id, connection);
      ghost var bound, scanned := State(), duplicates;
      while duplicates != {}
        invariant duplicates <= scanned
        invariant Replaced(bound, State(), scanned - duplicates)
        decreases duplicates
      {
        var other :| other in duplicates;
        CancelReplaces(bound, State(), scanned - duplicates, other);
        var _ := Cancel(other);
        assert scanned - duplicates + {other} == scanned - (duplicates - {other});
        duplicates := duplicates - {other};
      }
      assert scanned - duplicates == scanned;
    }

    // The locked part of cancelling everything.
    method StopEvery() returns (removeNow: set<Id>, sinks: set<string>)
      modifies this
      ensures State() == old(State()).(sessions := StopAll(old(sessions)), cancelled := old(cancelled) + old(sessions).Keys)
      ensures removeNow == set id | id in old(sessions) && Terminal(old(sessions)[id])
      ensures sinks == Sinks(old(sessions))
    {
      ghost var before, done: set<Id> := sessions, {};
      assert StopSome(before, {}) == before;
      var left := sessions.Keys;
      removeNow, sinks := {}, {};
      while left != {}
        invariant done == before.Keys - left && left <= before.Keys
        invariant sessions == StopSome(before, done)
        invariant removeNow == TerminalOf(before, done) && sinks == SinksOf(before, done)
        invariant cancelled == old(cancelled) + done
        invariant playing == old(playing) && nextSession == old(nextSession) && silent == old(silent)
        decreases left
      {
        var id :| id in left;
        var session := sessions[id];
        StopGrows(before, done, id);
        hide StopSome, TerminalOf, SinksOf;
        sessions := sessions[id := session.(state := Stopping)];
        cancelled := cancelled + {id};
        if session.sink != "" {
          sinks := sinks + {session.sink};
        }
        if Terminal(session) {
          removeNow := removeNow + {id};
        }
        left, done := left - {id}, done + {id};
      }
      assert done == before.Keys;
      assert StopSome(before, done) == StopAll(before);
    }

    method RemoveEach(ids: set<Id>)
      modifies this
      ensures Dropped(old(State()), State(), ids)
    {
      var left := ids;
      ghost var before := State();
      assert ids - left == {};
      while left != {}
        invariant left <= ids
        invariant Dropped(before, State(), ids - left)
        decreases left
      {
        var id :| id in left;
        RemovalDrops(before, State(), ids - left, id);
        Remove(id);
        assert ids - left + {id} == ids - (left - {id});
        left := left - {id};
      }
      assert ids - left == ids;
    }

    method ReleaseEach(sinks: set<string>)
      requires forall id :: id in sessions ==> !sessions[id].state.Active?
      requires "" !in sinks
      modifies this
      ensures State() == old(State()).(playing := old(playing) - sinks)
    {
      var left := sinks;
      while left != {}
        invariant left <= sinks
        invariant State() == old(State()).(playing := old(playing) - (sinks - left))
        decreases left
      {
        var sink :| sink in left;
        ReleaseAudioIfUnused(sink);
        left := left - {sink};
      }
    }

    method CancelAll() returns (ok: bool)
      modifies this
      ensures ok == (old(sessions) != map[])
      ensures State() == if ok then CancelEvery(old(State())) else old(State())
    {
      if sessions == map[] {
        return false;
      }
      var removeNow, sinks := StopEvery();
      assert Sinks(sessions) == Sinks(old(sessions)) by { StopKeepsSinks(old(sessions)); }
      RemoveEach(removeNow);
      ReleaseEach(sinks);
      ok := true;
    }

    method OnAudioReady(id: Id, sink: string)
      requires sink != ""
      modifies this
      ensures State() == AudioReady(old(State()), id, sink)
    {
      playing := playing + {sink};
      if id in sessions {
        sessions := sessions[id := sessions[id].(sink := sink)];
      }
    }

    // `window` is what the window controller returns: a token, or an error.
    method Minimize(id: Id, window: Result<string, string>) returns (ok: bool)
      modifies this
      ensures ok == (CanMinimize(old(sessions), id) && window.Ok?)
      ensures State() == if ok then Minimized(old(State()), id, window.value) else old(State())
    {
      if id !in sessions || !sessions[id].state.Active? || sessions[id].minimized {
        return false;
      }
      if sessions[id].pid == 0 || window.Err? {
        return false;
      }
      var sink := sessions[id].sink;
      sessions := sessions[id := sessions[id].(windowState := window.value, minimized := true)];
      if sink != "" {
        var inUse := AudioSinkInUse(sink);
        if !inUse {
          playing := playing - {sink};
        }
      }
      ok := true;
    }

    method Resume(id: Id, windowOk: bool) returns (ok: bool)
      modifies this
      ensures ok == (CanResume(old(sessions), id) && windowOk)
      ensures State() == Resumed(old(State()), id, windowOk)
    {
      if id !in sessions || !sessions[id].state.Active? || !sessions[id].minimized || sessions[id].windowState == "" {
        return false;
      }
      var sink := sessions[id].sink;
      if sink != "" {
        playing := playing + {sink};
      }
      if !windowOk {
        ReleaseAudioIfUnused(sink);
        return false;
      }
      sessions := sessions[id := sessions[id].(minimized := false)];
      ok := true;
    }

    // Takes the question's channel, so that no second answer is accepted, and
    // sends the answer on it.
    method ResolveAudioUnavailable(id: Id, accept: bool) returns (ok: bool, sent: Option<bool>)
      modifies this
      ensures ok == AwaitsAudioChoice(old(sessions), id)
      ensures sent == if ok then Some(accept) else None
      ensures State() == if ok then old(State()).(sessions := TakeChoiceChannel(old(sessions), id)) else old(State())
      ensures !AwaitsAudioChoice(sessions, id)
    {
      if id !in sessions || !sessions[id].choiceOpen || !sessions[id].prompt.AudioPrompt? {
        return false, None;
      }
      sessions := sessions[id := sessions[id].(choiceOpen := false)];
      ok, sent := true, Some(accept);
    }
  }
}
