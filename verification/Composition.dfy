/** One agent and the controller together: an agent's reports travel over a
  * network that may delay, lose or repeat them, and so may its redemptions'
  * answers be lost.
  */
module Composition {
  import opened Options
  import opened Controller
  import opened ControllerInvariant
  import opened ControllerTheorems
  import opened ControllerLedger
  import opened ControllerEvents
  import opened Rows
  import opened Quota
  import S = Sessions
  import A = AgentSystem
  import AgentInvariant
  import AgentViews
  import AgentPreservation
  import AgentTheorems

  // The agent of one device, and every request the controller has served.
  datatype World = World(agent: A.Sys, served: seq<Request>)

  ghost function Db(w: World): (db: DB)
    ensures DbOk(db)
  {
    State(w.served, |w.served|)
  }

  datatype Action =
    | Inside(step: A.Step)
    | Request(request: Controller.Request)
    | Redemption(id: S.Id, ticket: nat)

  function Reports(event: Event): A.Event {
    match event
    case Started => A.SessionStarted
    case Exited => A.SessionExited
    case Failed => A.SessionFailed
  }

  // The run has redeemed this ticket and sent this report.
  ghost predicate Sent(s: A.Sys, id: S.Id, ticket: nat, connection: int, report: A.Event) {
    && id in s.runs && s.runs[id].bound > 0
    && s.runs[id].ticket == ticket && s.runs[id].connection == connection
    && report in s.runs[id].trace
  }

  // What the network can deliver: reports of the device that were sent before.
  ghost predicate Deliverable(s: A.Sys, device: int, r: Controller.Request) {
    r.SessionEvent? && r.device == device ==>
      r.named.Some? && exists id :: Sent(s, id, r.ticket, r.named.value, Reports(r.event))
  }

  function Redeemed(s: A.Sys, id: S.Id, ticket: nat, grant: Grant): A.Step
    requires grant.Launch?
  {
    A.Go(id, A.RedeemOk(ticket, grant.connection, grant.cap > 0))
  }

  ghost predicate Possible(w: World, device: int, a: Action) {
    match a
    case Inside(step) => A.Enabled(w.agent, step) && !(step.Go? && step.move.RedeemOk?)
    case Request(r) => Deliverable(w.agent, device, r)
    case Redemption(id, ticket) =>
      && A.At(w.agent, id, A.Redeem)
      && Serve(Db(w), RedeemLaunch(ticket, device)).reply.Redeemed?
  }

  ghost function Act(w: World, device: int, a: Action): World
    requires Possible(w, device, a)
  {
    match a
    case Inside(step) => w.(agent := A.Apply(w.agent, step))
    case Request(r) => w.(served := w.served + [r])
    case Redemption(id, ticket) =>
      LaunchGrant(Db(w), ticket, device);
      var grant := Serve(Db(w), RedeemLaunch(ticket, device)).reply.grant;
      World(A.Apply(w.agent, Redeemed(w.agent, id, ticket, grant)), w.served + [RedeemLaunch(ticket, device)])
  }

  lemma LaunchGrant(db: DB, ticket: nat, device: int)
    requires Stamped(db) && Serve(db, RedeemLaunch(ticket, device)).reply.Redeemed?
    ensures Fresh(db, ticket) && Serve(db, RedeemLaunch(ticket, device)).reply.grant == db.tokens[ticket].grant
    ensures db.tokens[ticket].grant.Launch?
  {
    hide Stamped, CredentialFor, DeviceEnabled;
  }

  ghost predicate History(worlds: seq<World>, device: int, actions: seq<Action>) {
    && |worlds| == |actions| + 1
    && worlds[0] == World(A.INIT, [])
    && forall i :: 0 <= i < |actions| ==>
         Possible(worlds[i], device, actions[i]) && worlds[i + 1] == Act(worlds[i], device, actions[i])
  }

  // ---- What holds in every world ----

  ghost predicate Spent(db: DB, k: int) {
    0 <= k < db.next && (k in db.tokens ==> db.tokens[k].redeemed.Some?)
  }

  // A run that redeemed holds a spent ticket, and no other run holds it.
  ghost predicate TicketsOk(w: World) {
    && (forall id :: id in w.agent.runs && w.agent.runs[id].bound > 0 ==> Spent(Db(w), w.agent.runs[id].ticket))
    && (forall i, j ::
          i in w.agent.runs && j in w.agent.runs && i != j && w.agent.runs[i].bound > 0 && w.agent.runs[j].bound > 0
          ==> w.agent.runs[i].ticket != w.agent.runs[j].ticket)
  }

  // A row of the device's ledger reflects what one of its runs reported.
  ghost predicate RowReported(w: World, u: Usage) {
    && (exists id :: Sent(w.agent, id, u.ticket, u.connection, A.SessionStarted))
    && (u.ended.Some? ==>
          exists id :: Sent(w.agent, id, u.ticket, u.connection, A.SessionExited)
                       || Sent(w.agent, id, u.ticket, u.connection, A.SessionFailed))
  }

  // The stored ticket of a run that redeemed is redeemed by this device, for the
  // run's connection.
  ghost predicate Holds(db: DB, device: int, ticket: int, connection: int) {
    0 <= ticket && ticket in db.tokens ==>
      && db.tokens[ticket].grant.Launch? && db.tokens[ticket].redeemed.Some?
      && db.tokens[ticket].grant.device == device && db.tokens[ticket].grant.connection == connection
  }

  ghost predicate TicketsHeld(w: World, device: int) {
    forall id :: id in w.agent.runs && w.agent.runs[id].bound > 0 ==>
      Holds(Db(w), device, w.agent.runs[id].ticket, w.agent.runs[id].connection)
  }

  // Without a ticket a run gets no further than its rejection.
  ghost predicate RedeemedFirst(r: A.Run) {
    r.bound == 0 ==> r.point.Redeem? || r.point.Rejected? || r.point.Arming? || r.point.Done?
  }

  ghost predicate WorldOk(w: World, device: int) {
    && AgentInvariant.Inv(w.agent)
    && TicketsOk(w) && TicketsHeld(w, device)
    && (forall id :: id in w.agent.runs ==> RedeemedFirst(w.agent.runs[id]))
    && forall u :: u in Db(w).usage && u.device == device ==> RowReported(w, u)
  }

  // ---- The agent's side ----

  // A bound run keeps its ticket and connection, and its reports only grow.
  ghost predicate Continues(r: A.Run, r': A.Run) {
    r.bound > 0 ==>
      r'.bound == r.bound && r'.ticket == r.ticket && r'.connection == r.connection
      && forall e :: e in r.trace ==> e in r'.trace
  }

  lemma MovedContinues(r: A.Run, t: S.Table, id: S.Id, order: nat, move: A.Move)
    requires A.CanMove(r, move) && !move.CancelDuplicate? && !move.RemoveOwn? && (move.RedeemOk? ==> r.bound == 0)
    ensures Continues(r, A.MovedRun(r, t, id, order, move))
  {
    hide S.Bind, S.Duplicates;
  }

  lemma OwnContinues(s: A.Sys, id: S.Id, move: A.Move)
    requires id in s.runs && A.CanMove(s.runs[id], move) && (move.RedeemOk? ==> s.runs[id].bound == 0)
    ensures id in A.ApplyMove(s, id, move).runs && Continues(s.runs[id], A.ApplyMove(s, id, move).runs[id])
    ensures !move.RedeemOk? ==> A.ApplyMove(s, id, move).runs[id].bound == s.runs[id].bound
  {
    hide A.MovedRun, A.MovedTable, A.CanMove;
    if !move.CancelDuplicate? && !move.RemoveOwn? {
      MovedContinues(s.runs[id], s.sessions, id, s.binds + 1, move);
    }
  }

  lemma RunContinues(s: A.Sys, step: A.Step, id: S.Id)
    requires AgentInvariant.Inv(s) && A.Enabled(s, step) && id in s.runs
    ensures id in A.Apply(s, step).runs && Continues(s.runs[id], A.Apply(s, step).runs[id])
    ensures !(step.Go? && step.id == id && step.move.RedeemOk?) ==> A.Apply(s, step).runs[id].bound == s.runs[id].bound
  {
    hide A.ApplyMove;
    assert AgentInvariant.LocalOk(AgentInvariant.ViewOf(s, id), s.binds);
    if step.Go? && step.id == id {
      OwnContinues(s, id, step.move);
    } else {
      AgentViews.PassiveStep(s, step, id);
      assert AgentViews.Passive(AgentInvariant.ViewOf(s, id), AgentInvariant.ViewOf(A.Apply(s, step), id));
    }
  }

  lemma SentStays(s: A.Sys, step: A.Step, id: S.Id, ticket: nat, connection: int, report: A.Event)
    requires AgentInvariant.Inv(s) && A.Enabled(s, step) && Sent(s, id, ticket, connection, report)
    ensures Sent(A.Apply(s, step), id, ticket, connection, report)
  {
    hide A.Apply, AgentInvariant.Inv;
    RunContinues(s, step, id);
  }

  lemma NewRunIsStart(s: A.Sys, step: A.Step, id: S.Id)
    requires A.Enabled(s, step) && id in A.Apply(s, step).runs && id !in s.runs
    ensures A.Apply(s, step).runs[id] == A.START
  {
    hide A.ApplyMove, A.ApplyTask;
    if step.Go? {
      AgentPreservation.MoveRunDomain(s, step.id, step.move);
    } else if step.RunTask? {
      AgentPreservation.TaskDomain(s, step.task, step.ok);
    }
  }

  lemma MovedFirst(r: A.Run, t: S.Table, id: S.Id, order: nat, move: A.Move)
    requires A.CanMove(r, move) && !move.CancelDuplicate? && !move.RemoveOwn? && RedeemedFirst(r) && order > 0
    ensures RedeemedFirst(A.MovedRun(r, t, id, order, move))
  {
    hide S.Bind, S.Duplicates;
  }

  lemma OwnFirst(s: A.Sys, id: S.Id, move: A.Move)
    requires id in s.runs && A.CanMove(s.runs[id], move) && RedeemedFirst(s.runs[id])
    ensures id in A.ApplyMove(s, id, move).runs && RedeemedFirst(A.ApplyMove(s, id, move).runs[id])
  {
    hide A.MovedRun, A.MovedTable;
    if !move.CancelDuplicate? && !move.RemoveOwn? {
      MovedFirst(s.runs[id], s.sessions, id, s.binds + 1, move);
    }
  }

  lemma FirstKept(s: A.Sys, step: A.Step, id: S.Id)
    requires AgentInvariant.Inv(s) && A.Enabled(s, step) && id in A.Apply(s, step).runs
    requires id in s.runs ==> RedeemedFirst(s.runs[id])
    ensures RedeemedFirst(A.Apply(s, step).runs[id])
  {
    hide A.ApplyMove, A.ApplyTask;
    if id !in s.runs {
      NewRunIsStart(s, step, id);
    } else if step.Go? && step.id == id {
      OwnFirst(s, id, step.move);
    } else {
      AgentViews.PassiveStep(s, step, id);
      assert AgentViews.Passive(AgentInvariant.ViewOf(s, id), AgentInvariant.ViewOf(A.Apply(s, step), id));
    }
  }

  // ---- The controller's side ----

  lemma {:induction false} Prefix(rs: seq<Controller.Request>, r: Controller.Request, i: nat)
    requires i <= |rs|
    ensures State(rs + [r], i) == State(rs, i)
  {
    hide Serve, DbOk;
    if i > 0 {
      Prefix(rs, r, i - 1);
      Unfold(rs, i);
      Unfold(rs + [r], i);
    }
  }

  lemma Served(w: World, r: Controller.Request)
    ensures State(w.served + [r], |w.served| + 1) == Serve(Db(w), r).db
  {
    hide Serve, DbOk;
    Prefix(w.served, r, |w.served|);
    Unfold(w.served + [r], |w.served| + 1);
  }

  lemma SpentStays(db: DB, r: Controller.Request, k: int)
    requires DbOk(db) && Spent(db, k)
    ensures Spent(Serve(db, r).db, k)
  {
    hide Serve, Stamped, Ledger, AccessOk, TokensOk;
    CountersStep(db, r);
    if k in db.tokens {
      TokenStep(db, r, k);
    } else {
      GoneStaysGone(db, r, k);
    }
  }

  lemma HoldsStays(db: DB, r: Controller.Request, device: int, k: int, connection: int)
    requires DbOk(db) && Spent(db, k) && Holds(db, device, k, connection)
    ensures Holds(Serve(db, r).db, device, k, connection)
  {
    hide Serve, Stamped, Ledger, AccessOk, TokensOk;
    if k in db.tokens {
      RedeemedStep(db, r, k);
    } else {
      GoneStaysGone(db, r, k);
    }
  }

  lemma RedemptionSpends(db: DB, ticket: nat, device: int)
    requires DbOk(db) && Serve(db, RedeemLaunch(ticket, device)).reply.Redeemed?
    ensures !Spent(db, ticket) && Spent(Serve(db, RedeemLaunch(ticket, device)).db, ticket)
    ensures Serve(db, RedeemLaunch(ticket, device)).db.usage == db.usage
  {
    hide Serve, Stamped, Ledger, AccessOk, TokensOk;
    var r := RedeemLaunch(ticket, device);
    LaunchGrant(db, ticket, device);
    EffectHolds(db, r);
    CountersStep(db, r);
    OtherRequests(db, r);
    assert TokenOk(db, ticket) by { TokenNumber(db, ticket); }
  }

  lemma TokenNumber(db: DB, k: nat)
    requires DbOk(db) && k in db.tokens
    ensures TokenOk(db, k)
  {
  }

  // ---- Every action keeps it ----

  lemma RowStaysReported(w: World, w': World, step: A.Step, u: Usage)
    requires AgentInvariant.Inv(w.agent) && A.Enabled(w.agent, step) && w'.agent == A.Apply(w.agent, step)
    requires RowReported(w, u)
    ensures RowReported(w', u)
  {
    hide A.Apply, A.Enabled, AgentInvariant.Inv, Sent;
    var id :| Sent(w.agent, id, u.ticket, u.connection, A.SessionStarted);
    SentStays(w.agent, step, id, u.ticket, u.connection, A.SessionStarted);
    if u.ended.Some? {
      var e, report :| Sent(w.agent, e, u.ticket, u.connection, report) && (report == A.SessionExited || report == A.SessionFailed);
      SentStays(w.agent, step, e, u.ticket, u.connection, report);
    }
  }

  lemma BoundBefore(s: A.Sys, step: A.Step, id: S.Id)
    requires AgentInvariant.Inv(s) && A.Enabled(s, step) && id in A.Apply(s, step).runs && A.Apply(s, step).runs[id].bound > 0
    requires !(step.Go? && step.id == id && step.move.RedeemOk?)
    ensures id in s.runs && s.runs[id].bound > 0 && s.runs[id].ticket == A.Apply(s, step).runs[id].ticket
    ensures s.runs[id].connection == A.Apply(s, step).runs[id].connection
  {
    hide A.Apply, AgentInvariant.Inv;
    if id in s.runs {
      RunContinues(s, step, id);
    } else {
      NewRunIsStart(s, step, id);
    }
  }

  lemma InsideKeeps(w: World, device: int, step: A.Step)
    requires WorldOk(w, device) && Possible(w, device, Inside(step))
    ensures WorldOk(Act(w, device, Inside(step)), device)
  {
    hide A.Apply, A.Enabled, AgentInvariant.Inv, RowReported, Spent, Db, RedeemedFirst, Holds;
    var w' := Act(w, device, Inside(step));
    AgentPreservation.InvKept(w.agent, step);
    assert Db(w') == Db(w) by { SameDb(w, w'); }
    forall i | i in w'.agent.runs ensures RedeemedFirst(w'.agent.runs[i]) {
      FirstKept(w.agent, step, i);
    }
    forall id | id in w'.agent.runs && w'.agent.runs[id].bound > 0
      ensures id in w.agent.runs && w.agent.runs[id].bound > 0 && w.agent.runs[id].ticket == w'.agent.runs[id].ticket
      ensures w.agent.runs[id].connection == w'.agent.runs[id].connection
    {
      BoundBefore(w.agent, step, id);
    }
    forall u | u in Db(w').usage && u.device == device ensures RowReported(w', u) {
      RowStaysReported(w, w', step, u);
    }
  }

  lemma SameDb(w: World, w': World)
    requires w.served == w'.served
    ensures Db(w) == Db(w')
  {
  }

  // A new or newly closed row answers a report that was sent.
  lemma DeliveredRow(w: World, device: int, r: Controller.Request, u: Usage)
    requires WorldOk(w, device) && Deliverable(w.agent, device, r)
    requires u in Serve(Db(w), r).db.usage && u.device == device
    ensures RowReported(w, u)
  {
    hide Serve, Stamped, AgentInvariant.Inv, TicketsOk, Sent, Elapsed, Db;
    RowOrigin(Db(w), r, u);
    if u !in Db(w).usage {
      if !r.event.Started? {
        var x := ClosedNow(Db(w), r, u);
        assert RowReported(w, x);
      }
      LedgerRow(Db(w), r, u);
    }
  }

  lemma LedgerRow(db: DB, r: Controller.Request, u: Usage)
    requires DbOk(db) && r.SessionEvent? && EventAccepted(db, r.device, r.ticket, r.named) && RowRecorded(db, r, u)
    ensures u.ticket == r.ticket && u.device == r.device && r.named == Some(u.connection)
  {
    hide Stamped, TokensOk, AccessOk, Unique, Elapsed;
    if !r.event.Started? {
      var x := ClosedNow(db, r, u);
      assert RowOk(db, x);
    }
  }

  lemma RequestKeeps(w: World, device: int, r: Controller.Request)
    requires WorldOk(w, device) && Possible(w, device, Action.Request(r))
    ensures WorldOk(Act(w, device, Action.Request(r)), device)
  {
    hide Serve, DbOk, AgentInvariant.Inv, RowReported, Spent, Deliverable, RedeemedFirst, Holds;
    var w' := Act(w, device, Action.Request(r));
    Served(w, r);
    forall id | id in w.agent.runs && w.agent.runs[id].bound > 0 ensures Spent(Db(w'), w.agent.runs[id].ticket) {
      SpentStays(Db(w), r, w.agent.runs[id].ticket);
    }
    forall id | id in w.agent.runs && w.agent.runs[id].bound > 0
      ensures Holds(Db(w'), device, w.agent.runs[id].ticket, w.agent.runs[id].connection)
    {
      HoldsStays(Db(w), r, device, w.agent.runs[id].ticket, w.agent.runs[id].connection);
    }
    forall u | u in Db(w').usage && u.device == device ensures RowReported(w', u) {
      DeliveredRow(w, device, r, u);
      SameAgent(w, w', u);
    }
  }

  lemma SameAgent(w: World, w': World, u: Usage)
    requires w.agent == w'.agent && RowReported(w, u)
    ensures RowReported(w', u)
  {
    hide Sent;
  }

  lemma OwnRedemption(s: A.Sys, id: S.Id, move: A.Move)
    requires A.At(s, id, A.Redeem) && move.RedeemOk?
    ensures A.Enabled(s, A.Go(id, move))
    ensures var r := A.Apply(s, A.Go(id, move)).runs; id in r && r[id].bound == s.binds + 1 && r[id].ticket == move.ticket && r[id].connection == move.connection
  {
    hide S.Bind, S.Duplicates;
  }

  lemma RedemptionTickets(w: World, device: int, id: S.Id, ticket: nat)
    requires WorldOk(w, device) && Possible(w, device, Redemption(id, ticket))
    ensures TicketsOk(Act(w, device, Redemption(id, ticket))) && TicketsHeld(Act(w, device, Redemption(id, ticket)), device)
  {
    hide Serve, DbOk, AgentInvariant.Inv, RowReported, Spent, A.Apply, A.Enabled, RedeemedFirst;
    var w' := Act(w, device, Redemption(id, ticket));
    var r := RedeemLaunch(ticket, device);
    OkParts(Db(w));
    LaunchGrant(Db(w), ticket, device);
    var step := Redeemed(w.agent, id, ticket, Serve(Db(w), r).reply.grant);
    OwnRedemption(w.agent, id, step.move);
    Served(w, r);
    RedemptionSpends(Db(w), ticket, device);
    forall i | i in w'.agent.runs && w'.agent.runs[i].bound > 0 && i != id
      ensures Spent(Db(w'), w'.agent.runs[i].ticket) && w'.agent.runs[i].ticket != ticket
      ensures i in w.agent.runs && w.agent.runs[i].bound > 0 && w.agent.runs[i].ticket == w'.agent.runs[i].ticket
      ensures Holds(Db(w'), device, w'.agent.runs[i].ticket, w'.agent.runs[i].connection)
    {
      BoundBefore(w.agent, step, i);
      SpentStays(Db(w), r, w.agent.runs[i].ticket);
      HoldsStays(Db(w), r, device, w.agent.runs[i].ticket, w.agent.runs[i].connection);
    }
    JustRedeemed(Db(w), r);
    assert Holds(Db(w'), device, ticket, w'.agent.runs[id].connection);
  }

  lemma RedemptionKeeps(w: World, device: int, id: S.Id, ticket: nat)
    requires WorldOk(w, device) && Possible(w, device, Redemption(id, ticket))
    ensures WorldOk(Act(w, device, Redemption(id, ticket)), device)
  {
    hide Serve, DbOk, AgentInvariant.Inv, RowReported, TicketsOk, TicketsHeld, A.Apply, A.Enabled, Spent, RedeemedFirst;
    RedemptionTickets(w, device, id, ticket);
    var w' := Act(w, device, Redemption(id, ticket));
    var r := RedeemLaunch(ticket, device);
    OkParts(Db(w));
    LaunchGrant(Db(w), ticket, device);
    var step := Redeemed(w.agent, id, ticket, Serve(Db(w), r).reply.grant);
    OwnRedemption(w.agent, id, step.move);
    AgentPreservation.InvKept(w.agent, step);
    Served(w, r);
    forall i | i in w'.agent.runs ensures RedeemedFirst(w'.agent.runs[i]) {
      FirstKept(w.agent, step, i);
    }
    RedemptionSpends(Db(w), ticket, device);
    forall u | u in Db(w').usage && u.device == device ensures RowReported(w', u) {
      RowStaysReported(w, w', step, u);
    }
  }

  lemma {:induction false} HistoryOk(worlds: seq<World>, device: int, actions: seq<Action>, i: nat)
    requires History(worlds, device, actions) && i <= |actions|
    ensures WorldOk(worlds[i], device)
  {
    hide WorldOk, Act, Possible;
    if i == 0 {
      FirstWorld(device);
    } else {
      HistoryOk(worlds, device, actions, i - 1);
      assert Possible(worlds[i - 1], device, actions[i - 1]);
      match actions[i - 1]
      case Inside(step) => InsideKeeps(worlds[i - 1], device, step);
      case Request(r) => RequestKeeps(worlds[i - 1], device, r);
      case Redemption(id, ticket) => RedemptionKeeps(worlds[i - 1], device, id, ticket);
    }
  }

  lemma FirstWorld(device: int)
    ensures WorldOk(World(A.INIT, []), device)
  {
    hide AgentInvariant.Inv;
    AgentPreservation.InitHolds();
  }

  // ---- Theorems ----

  // Two runs never hold the same ticket.
  lemma TicketsDistinct(worlds: seq<World>, device: int, actions: seq<Action>, i: nat, a: S.Id, b: S.Id)
    requires History(worlds, device, actions) && i <= |actions|
    requires a in worlds[i].agent.runs && b in worlds[i].agent.runs
    requires worlds[i].agent.runs[a].bound > 0 && worlds[i].agent.runs[b].bound > 0
    requires worlds[i].agent.runs[a].ticket == worlds[i].agent.runs[b].ticket
    ensures a == b
  {
    HistoryOk(worlds, device, actions, i);
    hide History, AgentInvariant.Inv, RowReported, Spent, Db, RedeemedFirst, Holds;
  }

  // Every usage row of the device is one run's: the run reported its start, it
  // holds the row's ticket and connection, and if the row is closed the run has
  // reported its exit, whatever the network lost, delayed or repeated.
  lemma RowIsReported(worlds: seq<World>, device: int, actions: seq<Action>, i: nat, u: Usage) returns (id: S.Id)
    requires History(worlds, device, actions) && i <= |actions|
    requires u in Db(worlds[i]).usage && u.device == device
    ensures Sent(worlds[i].agent, id, u.ticket, u.connection, A.SessionStarted)
    ensures u.ended.Some? ==> worlds[i].agent.runs[id].trace == [A.SessionStarted, A.SessionExited]
  {
    HistoryOk(worlds, device, actions, i);
    hide History, Db;
    var w := worlds[i];
    assert AgentInvariant.Inv(w.agent) && TicketsOk(w) && RowReported(w, u);
    hide WorldOk;
    id := Reporter(w, u);
  }

  lemma Reporter(w: World, u: Usage) returns (id: S.Id)
    requires AgentInvariant.Inv(w.agent) && TicketsOk(w) && RowReported(w, u)
    ensures Sent(w.agent, id, u.ticket, u.connection, A.SessionStarted)
    ensures u.ended.Some? ==> w.agent.runs[id].trace == [A.SessionStarted, A.SessionExited]
  {
    hide Db, Spent, AgentInvariant.Inv;
    var s := w.agent;
    id :| Sent(s, id, u.ticket, u.connection, A.SessionStarted);
    TraceShape(s, id);
    if u.ended.Some? {
      var e, report :| Sent(s, e, u.ticket, u.connection, report) && (report == A.SessionExited || report == A.SessionFailed);
      assert e == id;
    }
  }

  lemma TraceShape(s: A.Sys, id: S.Id)
    requires AgentInvariant.Inv(s) && id in s.runs
    ensures var t := s.runs[id].trace;
            AgentInvariant.IsReport(t) || t == [A.SessionStarted]
    ensures AgentTheorems.ClientExecutes(s.runs[id]) ==> s.runs[id].trace == [A.SessionStarted]
  {
    assert AgentInvariant.LocalOk(AgentInvariant.ViewOf(s, id), s.binds);
  }

  // While a client runs, its usage row is open: its time goes on being counted.
  lemma RunningIsCounted(worlds: seq<World>, device: int, actions: seq<Action>, i: nat, id: S.Id, u: Usage)
    requires History(worlds, device, actions) && i <= |actions|
    requires id in worlds[i].agent.runs && AgentTheorems.ClientExecutes(worlds[i].agent.runs[id])
    requires u in Db(worlds[i]).usage && u.device == device && u.ticket == worlds[i].agent.runs[id].ticket
    ensures u.ended.None? && u.connection == worlds[i].agent.runs[id].connection
  {
    HistoryOk(worlds, device, actions, i);
    var owner := RowIsReported(worlds, device, actions, i, u);
    TicketsDistinct(worlds, device, actions, i, owner, id);
    hide History, Db, AgentInvariant.Inv, TicketsOk, RowReported;
    TraceShape(worlds[i].agent, id);
  }

  // The ledger after a recorded report: a start leaves the ticket a row, opened now
  // if it had none; an exit or a failure closes its open row now.
  ghost predicate Recorded(db: DB, after: DB, ticket: nat, device: int, connection: int, event: Event) {
    if event.Started? then
      && (exists u :: u in after.usage && u.ticket == ticket)
      && ((forall u :: u in db.usage ==> u.ticket != ticket) ==>
            && ticket in db.tokens && db.tokens[ticket].grant.Launch?
            && after.usage == db.usage + [Usage(ticket, db.tokens[ticket].grant.user, device, connection, db.now, None, 0)])
    else
      |after.usage| == |db.usage|
      && forall n :: 0 <= n < |db.usage| ==> ClosedAs(db.usage[n], after.usage[n], ticket, db.now)
  }

  // The run's report is delivered while its ticket exists and its device is enabled.
  ghost predicate Delivers(w: World, device: int, a: Action, id: S.Id, event: Event) {
    && id in w.agent.runs && w.agent.runs[id].bound > 0 && w.agent.runs[id].ticket >= 0
    && a == Action.Request(SessionEvent(device, w.agent.runs[id].ticket, Some(w.agent.runs[id].connection), event))
    && w.agent.runs[id].ticket in Db(w).tokens && InUse(Db(w), device)
  }

  // A report of a run whose ticket still exists is recorded when it is delivered.
  lemma DeliveredCounts(worlds: seq<World>, device: int, actions: seq<Action>, i: nat, id: S.Id, event: Event)
    requires History(worlds, device, actions) && i < |actions| && Delivers(worlds[i], device, actions[i], id, event)
    ensures Recorded(Db(worlds[i]), Db(worlds[i + 1]), worlds[i].agent.runs[id].ticket, device,
                     worlds[i].agent.runs[id].connection, event)
  {
    HistoryOk(worlds, device, actions, i);
    var w, run := worlds[i], worlds[i].agent.runs[id];
    assert Possible(w, device, actions[i]) && worlds[i + 1] == Act(w, device, actions[i]);
    var r := SessionEvent(device, run.ticket, Some(run.connection), event);
    ServedAnswer(w, r);
    assert Holds(Db(w), device, run.ticket, run.connection);
    hide History, Db, Possible, AgentInvariant.Inv, TicketsOk, RowReported, RedeemedFirst, Recorded;
    DeliveredStep(Db(w), r);
  }

  lemma ServedAnswer(w: World, r: Controller.Request)
    ensures Db(World(w.agent, w.served + [r])) == Serve(Db(w), r).db
    ensures Answer(w.served + [r], |w.served|) == Serve(Db(w), r).reply
  {
    hide Serve, DbOk;
    Served(w, r);
    Prefix(w.served, r, |w.served|);
  }

  lemma DeliveredStep(db: DB, r: Controller.Request)
    requires DbOk(db) && r.SessionEvent? && EventAccepted(db, r.device, r.ticket, r.named)
    ensures Recorded(db, Serve(db, r).db, r.ticket, r.device, r.named.value, r.event)
  {
    OkParts(db);
    EventStep(db, r);
    hide Serve, DbOk, ClosedAs;
    if r.event.Started? && forall u :: u in db.usage ==> u.ticket != r.ticket {
      var row := Usage(r.ticket, db.tokens[r.ticket].grant.user, r.device, r.named.value, db.now, None, 0);
      assert row in db.usage + [row];
    }
  }
}
