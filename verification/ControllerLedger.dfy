/** Runs of the controller and the usage ledger: where its rows come from under
  * lost and repeated events, and how used time moves.
  */
module ControllerLedger {
  import opened Options
  import opened Rows
  import opened Access
  import opened Quota
  import opened Stamps
  import opened Controller
  import opened ControllerInvariant
  import opened ControllerTheorems

  // ---- Credentials ----

  // The credential of a manifest is one of the stored ones.
  lemma CredentialExists(db: DB, r: Request)
    requires DbOk(db) && r.RedeemLaunch? && Serve(db, r).reply.Redeemed?
    ensures Serve(db, r).reply.credential.Some? ==> Serve(db, r).reply.credential.value in db.credentials
  {
    hide Stamped, TokensOk, Ledger, Keyed, Permitted, NumbersOk, RedeemAccepts, DeviceEnabled;
    var g := db.tokens[r.token].grant;
    assert RedeemAccepts(db.access, g.user, g.connection);
    KnownLaunchCredential(db, g);
  }

  lemma KnownLaunchCredential(db: DB, g: Grant)
    requires CredentialsKnown(db) && g.Launch? && RedeemAccepts(db.access, g.user, g.connection)
    ensures KnownCredential(db, CredentialFor(db, g))
  {
    var rows := EnabledRows(db.access, g.connection);
    assert rows[0] in rows;
    var direct := DirectCredentialRows(db.access, g.user, rows[0].id);
    if direct != [] {
      assert direct[0] in direct;
    }
  }

  // ---- Where rows come from ----

  // An accepted session event about a ticket.
  ghost predicate Hears(rs: seq<Request>, m: nat, ticket: nat, start: bool)
    requires m < |rs|
  {
    && rs[m].SessionEvent? && rs[m].ticket == ticket && rs[m].event.Started? == start
    && EventAccepted(State(rs, m), rs[m].device, ticket, rs[m].named)
  }

  ghost predicate Silent(rs: seq<Request>, from: nat, to: nat, ticket: nat, start: bool)
    requires to <= |rs|
  {
    forall m :: from <= m < to ==> !Hears(rs, m, ticket, start)
  }

  // The row was opened by the first start event of its ticket, and closed by the
  // first end event after it; repeated and late events leave it alone.
  ghost predicate Written(rs: seq<Request>, i: nat, u: Usage, s: nat)
    requires i <= |rs|
  {
    && s < i && Hears(rs, s, u.ticket, true) && Silent(rs, 0, s, u.ticket, true)
    && State(rs, s).now == u.started && rs[s].device == u.device && rs[s].named == Some(u.connection)
    && match u.ended
       case None => Silent(rs, s, i, u.ticket, false)
       case Some(end) =>
         exists e :: s < e < i && Hears(rs, e, u.ticket, false) && Silent(rs, s, e, u.ticket, false) && State(rs, e).now == end
  }

  // ---- Rows persist with their tickets ----

  ghost predicate HasRow(db: DB, ticket: nat) {
    exists u :: u in db.usage && u.ticket == ticket
  }

  lemma RowStays(db: DB, r: Request, ticket: nat)
    requires Stamped(db) && HasRow(db, ticket) && ticket in Serve(db, r).db.tokens
    ensures HasRow(Serve(db, r).db, ticket)
  {
    hide Stamped, InRange, StampLess, StatusOf, Used, CanLaunch, RedeemAccepts, LaunchCredential, EnabledRows, Elapsed;
    if !TouchesUsage(r) {
      OtherRequests(db, r);
    } else if r.SessionEvent? && EventAccepted(db, r.device, r.ticket, r.named) {
      RecordedRow(db, r, ticket);
    }
  }

  lemma RecordedRow(db: DB, r: Request, ticket: nat)
    requires Stamped(db) && r.SessionEvent? && EventAccepted(db, r.device, r.ticket, r.named)
    requires HasRow(db, ticket) || (ticket == r.ticket && r.event.Started?)
    ensures HasRow(Serve(db, r).db, ticket)
  {
    hide Stamped, InRange, Elapsed;
    var g := db.tokens[r.ticket].grant;
    var after := Record(db, r.ticket, g, r.event);
    if HasRow(db, ticket) {
      var u :| u in db.usage && u.ticket == ticket;
      var i :| 0 <= i < |db.usage| && db.usage[i] == u;
      assert after[i] in after && after[i].ticket == ticket;
    } else {
      assert after[|db.usage|] in after;
    }
  }

  // Once a start was accepted, the ticket has a row as long as it exists.
  lemma {:induction false} StartedHasRow(rs: seq<Request>, m: nat, i: nat, ticket: nat)
    requires m < i <= |rs| && Hears(rs, m, ticket, true) && ticket in State(rs, i).tokens
    ensures HasRow(State(rs, i), ticket)
  {
    hide Serve, DbOk, Stamped, TokensOk, HasRow;
    Unfold(rs, i);
    var before, r := State(rs, i - 1), rs[i - 1];
    OkParts(before);
    if i == m + 1 {
      RecordedRow(before, r, ticket);
    } else {
      Known(rs, m, i - 1, ticket);
      if ticket !in before.tokens {
        GoneStaysGone(before, r, ticket);
      } else {
        StartedHasRow(rs, m, i - 1, ticket);
        RowStays(before, r, ticket);
      }
    }
  }

  lemma Known(rs: seq<Request>, m: nat, i: nat, ticket: nat)
    requires m <= i <= |rs| && ticket in State(rs, m).tokens
    ensures ticket < State(rs, i).next
  {
    hide Serve, DbOk, Stamped;
    OkParts(State(rs, m));
    assert TokenOk(State(rs, m), ticket);
    TimePasses(rs, m, i);
  }

  lemma ClosesAll(db: DB, r: Request, u: Usage)
    requires Stamped(db) && r.SessionEvent? && EventAccepted(db, r.device, r.ticket, r.named) && !r.event.Started?
    requires u in Serve(db, r).db.usage && u.ticket == r.ticket
    ensures u.ended.Some?
  {
    hide Stamped, Elapsed;
    var after := Record(db, r.ticket, db.tokens[r.ticket].grant, r.event);
    var i :| 0 <= i < |after| && after[i] == u;
  }

  // Every row is what the delivered events make it, whatever was lost or repeated.
  lemma {:induction false} RowHistory(rs: seq<Request>, i: nat, u: Usage) returns (s: nat)
    requires i <= |rs| && u in State(rs, i).usage
    ensures Written(rs, i, u, s)
  {
    hide Serve, DbOk, Stamped, Hears, Silent, RowRecorded, EventAccepted;
    if i == 0 {
      assert false;
    } else {
      Unfold(rs, i);
      var before, r := State(rs, i - 1), rs[i - 1];
      OkParts(before);
      RowOrigin(before, r, u);
      if u in before.usage {
        s := RowHistory(rs, i - 1, u);
        OldRow(rs, i, u, s);
      } else if r.event.Started? {
        s := i - 1;
        OpenedNow(rs, i, u);
      } else {
        var x := ClosedNow(before, r, u);
        s := RowHistory(rs, i - 1, x);
        HeardNow(rs, i, u, s, x);
      }
    }
  }

  lemma OldRow(rs: seq<Request>, i: nat, u: Usage, s: nat)
    requires 0 < i <= |rs| && u in State(rs, i).usage && Written(rs, i - 1, u, s)
    ensures Written(rs, i, u, s)
  {
    hide Serve, DbOk, Stamped, EventAccepted;
    Unfold(rs, i);
    OkParts(State(rs, i - 1));
    if Hears(rs, i - 1, u.ticket, false) {
      ClosesAll(State(rs, i - 1), rs[i - 1], u);
    }
  }

  lemma OpenedNow(rs: seq<Request>, i: nat, u: Usage)
    requires 0 < i <= |rs| && rs[i - 1].SessionEvent? && rs[i - 1].event.Started?
    requires EventAccepted(State(rs, i - 1), rs[i - 1].device, rs[i - 1].ticket, rs[i - 1].named)
    requires RowRecorded(State(rs, i - 1), rs[i - 1], u)
    ensures Written(rs, i, u, i - 1)
  {
    hide Serve, DbOk, Stamped, State;
    forall m | 0 <= m < i - 1 ensures !Hears(rs, m, u.ticket, true) {
      if Hears(rs, m, u.ticket, true) {
        StartedHasRow(rs, m, i - 1, u.ticket);
      }
    }
    assert !Hears(rs, i - 1, u.ticket, false);
  }

  lemma ClosedNow(db: DB, r: Request, u: Usage) returns (x: Usage)
    requires r.SessionEvent? && !r.event.Started? && EventAccepted(db, r.device, r.ticket, r.named) && RowRecorded(db, r, u)
    ensures x in db.usage && x.ticket == r.ticket && x.ended.None?
    ensures u == x.(ended := Some(db.now), duration := Elapsed(x.started, db.now))
  {
    hide Elapsed, EventAccepted;
    x :| x in db.usage && x.ticket == r.ticket && x.ended.None?
         && u == x.(ended := Some(db.now), duration := Elapsed(x.started, db.now));
  }

  lemma HeardNow(rs: seq<Request>, i: nat, u: Usage, s: nat, x: Usage)
    requires 0 < i <= |rs| && rs[i - 1].SessionEvent? && !rs[i - 1].event.Started?
    requires EventAccepted(State(rs, i - 1), rs[i - 1].device, rs[i - 1].ticket, rs[i - 1].named)
    requires x.ticket == rs[i - 1].ticket && x.ended.None? && Written(rs, i - 1, x, s)
    requires u == x.(ended := Some(State(rs, i - 1).now), duration := Elapsed(x.started, State(rs, i - 1).now))
    ensures Written(rs, i, u, s)
  {
    hide Serve, DbOk, Stamped, EventAccepted, State, Silent, Elapsed;
    assert Hears(rs, i - 1, u.ticket, false);
  }

  // ---- What happens to a row ----

  ghost predicate SameRun(u: Usage, v: Usage) {
    && (u.ticket, u.user, u.device, u.connection, u.started) == (v.ticket, v.user, v.device, v.connection, v.started)
    && (u.ended.Some? ==> v == u)
  }

  // A row goes only with its connection.
  lemma RowStep(db: DB, r: Request, u: Usage) returns (v: Usage)
    requires DbOk(db) && u in db.usage && r != DeleteConnection(u.connection)
    ensures v in Serve(db, r).db.usage && SameRun(u, v)
  {
    hide Stamped, InRange, StampLess, StatusOf, Used, CanLaunch, RedeemAccepts, LaunchCredential, EnabledRows, Elapsed,
         TokensOk, AccessOk, Unique;
    assert RowOk(db, u);
    v := u;
    if !TouchesUsage(r) {
      OtherRequests(db, r);
    } else if r.SessionEvent? && EventAccepted(db, r.device, r.ticket, r.named) {
      v := RecordKeeps(db, r, u);
    }
  }

  lemma RecordKeeps(db: DB, r: Request, u: Usage) returns (v: Usage)
    requires Stamped(db) && r.SessionEvent? && EventAccepted(db, r.device, r.ticket, r.named) && u in db.usage
    ensures v in Serve(db, r).db.usage && SameRun(u, v)
  {
    hide Stamped, InRange, Elapsed;
    var after := Record(db, r.ticket, db.tokens[r.ticket].grant, r.event);
    var i :| 0 <= i < |db.usage| && db.usage[i] == u;
    v := after[i];
    assert v in after;
  }

  // started_at never changes and ended_at is written at most once.
  lemma {:induction false} RowLives(rs: seq<Request>, i: nat, j: nat, u: Usage) returns (v: Usage)
    requires i <= j <= |rs| && u in State(rs, i).usage
    requires forall m :: i <= m < j ==> rs[m] != DeleteConnection(u.connection)
    ensures v in State(rs, j).usage && SameRun(u, v)
  {
    hide Serve, DbOk;
    if i == j {
      v := u;
    } else {
      var w := RowLives(rs, i, j - 1, u);
      Unfold(rs, j);
      v := RowStep(State(rs, j - 1), rs[j - 1], w);
    }
  }

  // ---- Used time ----

  lemma ClosingKeepsSpent(u: Usage, ticket: nat, now: int)
    ensures Spent(Close(u, ticket, now), now) == Spent(u, now)
  {
  }

  lemma RecordKeepsUsed(db: DB, ticket: nat, grant: Grant, event: Event, user: int, midnight: int)
    requires Stamped(db) && grant.Launch? && InRange(midnight)
    ensures InLedger(Record(db, ticket, grant, event))
    ensures Used(Record(db, ticket, grant, event), user, midnight, db.now) == Used(db.usage, user, midnight, db.now)
  {
    hide InRange, StampLess, Elapsed, Spent, CountsFrom;
    if event.Started? {
      var row := Usage(ticket, grant.user, grant.device, grant.connection, db.now, None, 0);
      assert (db.usage + [row])[..|db.usage|] == db.usage;
      NothingSpent(row);
    } else {
      var close := (u: Usage) => Close(u, ticket, db.now);
      forall u | u in db.usage ensures Spent(close(u), db.now) == Spent(u, db.now) {
        ClosingKeepsSpent(u, ticket, db.now);
      }
      UsedAmend(db.usage, close, user, midnight, db.now);
      assert Record(db, ticket, grant, event) == Amend(db.usage, close);
    }
  }

  lemma NothingSpent(u: Usage)
    requires u.ended.None?
    ensures Spent(u, u.started) == 0
  {
  }

  // A saved policy deletes no usage: its cascade meets only unredeemed tickets.
  lemma DropErasesNothing(db: DB, user: int)
    requires Ledger(db)
    ensures Cascade(db.usage, WithoutPending(db.tokens, user)) == db.usage
  {
    hide Unique, Elapsed, InRange;
    var kept := WithoutPending(db.tokens, user);
    forall u | u in db.usage ensures u.ticket in kept {
      assert RowOk(db, u);
    }
    SelectAll(db.usage, (u: Usage) => u.ticket in kept);
  }

  // Within a policy day only the deletion of a connection takes used time back.
  lemma UsedStep(db: DB, r: Request, user: int, midnight: int)
    requires DbOk(db) && InRange(midnight) && !r.DeleteConnection?
    ensures InLedger(Serve(db, r).db.usage)
    ensures Used(db.usage, user, midnight, db.now) <= Used(Serve(db, r).db.usage, user, midnight, Serve(db, r).db.now)
    ensures !r.Tick? ==> Used(db.usage, user, midnight, db.now) == Used(Serve(db, r).db.usage, user, midnight, Serve(db, r).db.now)
  {
    hide Serve, TokensOk, AccessOk, Ledger, InRange, StampLess, Used;
    CountersStep(db, r);
    LedgerKept(db, r);
    if !TouchesUsage(r) {
      OtherRequests(db, r);
      UsedGrowsWithTime(db.usage, user, midnight, db.now, Serve(db, r).db.now);
      if !r.Tick? {
        OnlyTickMovesTime(db, r);
      }
    } else if r.DropPending? {
      DropErasesNothing(db, r.user);
      DroppedUsage(db, r);
    } else {
      SessionEventKeepsTokens(db, r);
      EventUsage(db, r);
      if EventAccepted(db, r.device, r.ticket, r.named) {
        RecordKeepsUsed(db, r.ticket, db.tokens[r.ticket].grant, r.event, user, midnight);
      }
    }
  }

  lemma OnlyTickMovesTime(db: DB, r: Request)
    requires Stamped(db) && !r.Tick?
    ensures Serve(db, r).db.now == db.now
  {
    hide Stamped, WithoutStale, WithoutPending, WithoutConnection, Cascade, Record, Approve, CredentialFor, EnabledRows,
         CanLaunch, RedeemAccepts, IsAdmin, DeviceEnabled, DropConnection, DropGroup, DropCredential,
         SetUserRow, SetGroupRow, SetMemberRow, HasConnection, InRange, ValidPolicy;
  }

  lemma DroppedUsage(db: DB, r: Request)
    requires Stamped(db) && r.DropPending?
    ensures Serve(db, r).db.usage == Cascade(db.usage, WithoutPending(db.tokens, r.user))
    ensures Serve(db, r).db.now == db.now
  {
    hide Stamped, WithoutPending, Cascade;
  }

  lemma EventUsage(db: DB, r: Request)
    requires Stamped(db) && r.SessionEvent?
    ensures Serve(db, r).db.usage
            == if EventAccepted(db, r.device, r.ticket, r.named)
               then Record(db, r.ticket, db.tokens[r.ticket].grant, r.event)
               else db.usage
  {
    hide Stamped, Record;
  }

  lemma {:induction false} UsedNeverFalls(rs: seq<Request>, i: nat, j: nat, user: int, midnight: int)
    requires i <= j <= |rs| && InRange(midnight)
    requires forall m :: i <= m < j ==> !rs[m].DeleteConnection?
    ensures Used(State(rs, i).usage, user, midnight, State(rs, i).now) <= Used(State(rs, j).usage, user, midnight, State(rs, j).now)
  {
    hide Serve, InRange, Used, TokensOk, Ledger, AccessOk;
    if i < j {
      UsedNeverFalls(rs, i, j - 1, user, midnight);
      Unfold(rs, j);
      UsedStep(State(rs, j - 1), rs[j - 1], user, midnight);
    }
  }

  // Deleting a connection gives back exactly what its sessions had used.
  lemma DeletionForgets(db: DB, connection: int, user: int, midnight: int)
    requires DbOk(db) && InRange(midnight)
    ensures var mine := Select(db.usage, (u: Usage) => u.connection == connection);
            && InLedger(mine) && InLedger(Serve(db, DeleteConnection(connection)).db.usage)
            && Used(Serve(db, DeleteConnection(connection)).db.usage, user, midnight, db.now)
               == Used(db.usage, user, midnight, db.now) - Used(mine, user, midnight, db.now)
  {
    hide Used, InRange, TokensOk, AccessOk, Unique, Elapsed, DropConnection;
    var kept := WithoutConnection(db.tokens, connection);
    UsedSplits(db.usage, (u: Usage) => u.connection != connection, (u: Usage) => u.connection == connection, user, midnight, db.now);
    forall u | u in db.usage ensures u.ticket in kept <==> u.connection != connection {
      assert RowOk(db, u);
    }
    SelectSame(db.usage, (u: Usage) => u.ticket in kept, (u: Usage) => u.connection != connection);
  }

  // ---- An exhausted allowance ----

  lemma {:induction false} PolicyKept(rs: seq<Request>, i: nat, j: nat, user: int)
    requires i <= j <= |rs|
    requires forall m :: i <= m < j ==> !(rs[m].SavePolicy? && rs[m].user == user)
    ensures PolicyOf(State(rs, j), user) == PolicyOf(State(rs, i), user)
  {
    hide Serve, DbOk, PolicyOf, Stamped;
    if i < j {
      PolicyKept(rs, i, j - 1, user);
      Unfold(rs, j);
      OkParts(State(rs, j - 1));
      PolicyStep(State(rs, j - 1), rs[j - 1], user);
    }
  }

  // No launch of the same policy day is approved after the allowance is used up,
  // until the policy changes or a connection is deleted.
  lemma ExhaustedStays(rs: seq<Request>, i: nat, j: nat, user: int)
    requires i <= j < |rs| && rs[j].DecideLaunch? && rs[j].user == user
    requires forall m :: i <= m < j ==> !rs[m].DeleteConnection? && !(rs[m].SavePolicy? && rs[m].user == user)
    requires var p := PolicyOf(State(rs, i), user);
             p.dailyLimit > 0
             && Used(State(rs, i).usage, user, rs[j].local.midnight, State(rs, i).now) >= p.dailyLimit * 60
    ensures Answer(rs, j) == Refused
  {
    hide Serve, TokensOk, Ledger, AccessOk, InRange, Used, PolicyOf;
    UsedNeverFalls(rs, i, j, user, rs[j].local.midnight);
    PolicyKept(rs, i, j, user);
    Exhausted(State(rs, j), rs[j]);
  }

  lemma Exhausted(db: DB, r: Request)
    requires Stamped(db) && r.DecideLaunch?
    requires PolicyOf(db, r.user).dailyLimit > 0
    requires Used(db.usage, r.user, r.local.midnight, db.now) >= PolicyOf(db, r.user).dailyLimit * 60
    ensures Serve(db, r).reply == Refused
  {
    hide Used, InRange, CanLaunch, PolicyOf;
  }

  // ---- Real time against the daily limit ----

  // The ticket of a row was inserted by `j` after the decision of `d`.
  ghost predicate TicketPath(rs: seq<Request>, d: nat, j: nat, i: nat, ticket: nat)
    requires i <= |rs|
  {
    && d < j < i && ticket in State(rs, i).tokens
    && var g := State(rs, i).tokens[ticket].grant;
    && g.Launch? && rs[j].InsertLaunch? && Answer(rs, j) == Issued(ticket)
    && Decides(rs, d, rs[j].decision, Decision(g.user, g.connection, g.cap))
  }

  lemma TicketDecided(rs: seq<Request>, i: nat, u: Usage) returns (d: nat, j: nat)
    requires i <= |rs| && u in State(rs, i).usage
    ensures TicketPath(rs, d, j, i, u.ticket) && rs[d].user == u.user
  {
    hide Serve, DbOk, Stamped, Approve, HasConnection, DeviceEnabled, Elapsed, Unique;
    OkParts(State(rs, i));
    assert RowOk(State(rs, i), u);
    j := Origin(rs, i, u.ticket);
    d := DecisionOrigin(rs, j, rs[j].decision);
  }

  lemma CapWithinRest(db: DB, user: int, local: LocalTime, connection: int, cap: nat)
    requires Stamped(db) && Approve(db, user, connection, local) == Some(cap) && PolicyOf(db, user).dailyLimit > 0
    ensures cap <= PolicyOf(db, user).dailyLimit * 60 - Used(db.usage, user, local.midnight, db.now)
  {
    hide Used, CanLaunch, InRange, PolicyOf;
    CapBounds(PolicyOf(db, user), local, Used(db.usage, user, local.midnight, db.now));
  }

  // The day's sessions at `i` are all finished, and the last stopped within the
  // cap of its ticket, which was decided by `d` on that day.
  ghost predicate LastCapped(rs: seq<Request>, i: nat, rows: seq<Usage>, user: int, midnight: int, d: nat, j: nat)
    requires i <= |rs| && InRange(midnight)
  {
    && rows == DayRows(State(rs, i).usage, user, midnight) && rows != [] && AllClosed(rows)
    && var last := rows[|rows| - 1];
    && last in rows && TicketPath(rs, d, j, i, last.ticket)
    && rs[d].user == user && rs[d].local.midnight == midnight
    && last.ended.value - last.started <= State(rs, i).tokens[last.ticket].grant.cap * NANOS
  }

  ghost function UsedAt(rs: seq<Request>, i: nat, user: int, midnight: int): nat
    requires i <= |rs| && InRange(midnight)
  {
    Used(State(rs, i).usage, user, midnight, State(rs, i).now)
  }

  // The finished sessions of a policy day take at most the daily limit of the last
  // decision, a second each but the last, and what the earlier sessions were
  // charged after that decision: nothing else is gained by tickets that overlap.
  lemma DailyLimitOfRun(rs: seq<Request>, i: nat, rows: seq<Usage>, user: int, midnight: int, d: nat, j: nat)
    requires d < i <= |rs| && InRange(midnight) && LastCapped(rs, i, rows, user, midnight, d, j)
    requires PolicyOf(State(rs, d), user).dailyLimit > 0
    ensures InLedger(rows)
    ensures var n := |rows| - 1;
            var overlap := Used(rows[..n], user, midnight, State(rs, i).now) - UsedAt(rs, d, user, midnight);
            RealTime(rows) <= (PolicyOf(State(rs, d), user).dailyLimit * 60 + n + overlap) * NANOS
  {
    hide Serve, DbOk, Used, InRange, PolicyOf, Counted, Approve;
    var n := |rows| - 1;
    OkParts(State(rs, i));
    OkParts(State(rs, d));
    UsedOfDay(State(rs, i).usage, user, midnight, State(rs, i).now);
    CapWithinRest(State(rs, d), user, rs[d].local, rs[d].connection, State(rs, i).tokens[rows[n].ticket].grant.cap);
    assert forall u :: u in rows[..n] ==> u in rows;
    LedgerLag(rows[..n], user, midnight, State(rs, i).now);
    assert RealTime(rows) == RealTime(rows[..n]) + (rows[n].ended.value - rows[n].started);
  }

  // Without overlap: when the last ticket was decided the day's ledger held just
  // the earlier sessions, all finished.
  lemma DailyLimitHolds(rs: seq<Request>, i: nat, rows: seq<Usage>, user: int, midnight: int, d: nat, j: nat)
    requires d < i <= |rs| && InRange(midnight) && LastCapped(rs, i, rows, user, midnight, d, j)
    requires PolicyOf(State(rs, d), user).dailyLimit > 0
    requires DayRows(State(rs, d).usage, user, midnight) == rows[..|rows| - 1]
    ensures RealTime(rows) <= (PolicyOf(State(rs, d), user).dailyLimit * 60 + |rows| - 1) * NANOS
  {
    hide Serve, DbOk, Used, InRange, PolicyOf, Counted, DayRows, Decides;
    DailyLimitOfRun(rs, i, rows, user, midnight, d, j);
    OkParts(State(rs, d));
    UsedOfDay(State(rs, d).usage, user, midnight, State(rs, d).now);
    UsedWhenClosed(rows[..|rows| - 1], user, midnight, State(rs, d).now, State(rs, i).now);
  }
}
