/** Runs of the controller from an empty database: what the answers to earlier
  * requests say about a redemption.
  */
module ControllerTheorems {
  import opened Options
  import opened Access
  import opened Quota
  import opened Stamps
  import opened Controller
  import opened ControllerInvariant

  // The database after the first `i` requests.
  ghost function State(rs: seq<Request>, i: nat): (db: DB)
    requires i <= |rs|
    ensures DbOk(db)
  {
    if i == 0 then EmptyOk(); EMPTY
    else DbOkKept(State(rs, i - 1), rs[i - 1]); Serve(State(rs, i - 1), rs[i - 1]).db
  }

  ghost function Answer(rs: seq<Request>, i: nat): Reply
    requires i < |rs|
  {
    Serve(State(rs, i), rs[i]).reply
  }

  ghost predicate Redeems(rs: seq<Request>, i: nat, k: nat)
    requires i < |rs|
  {
    IsRedemption(rs[i], k) && Answer(rs, i).Redeemed?
  }

  lemma {:induction false} TimePasses(rs: seq<Request>, i: nat, j: nat)
    requires i <= j <= |rs|
    ensures State(rs, i).now <= State(rs, j).now && State(rs, i).next <= State(rs, j).next
  {
    hide Serve, DbOk;
    if i < j {
      TimePasses(rs, i, j - 1);
      ClockStep(State(rs, j - 1), rs[j - 1]);
    }
  }

  lemma ClockStep(db: DB, r: Request)
    requires DbOk(db)
    ensures db.next <= Serve(db, r).db.next && db.now <= Serve(db, r).db.now
  {
    hide Serve;
    CountersStep(db, r);
  }

  // ---- What ends a token ----

  // The request redeems the token, or deletes it with something it hangs on.
  ghost predicate Ends(db: DB, r: Request, grant: Grant, k: nat)
    requires Stamped(db)
  {
    || (IsRedemption(r, k) && Serve(db, r).reply.Redeemed?)
    || (grant.Launch? && r == DropPending(grant.user))
    || (grant.Launch? && r == DeleteConnection(grant.connection))
  }

  // Text comparison deletes no handoff that could still be redeemed.
  lemma PurgeSparesLive(expires: int, now: int)
    requires LongExpired(expires, now)
    ensures expires < now
  {
    hide StampLess, InRange;
    if expires >= now {
      LaterSecond(expires, now - HOUR);
      StampOrder(expires, now - HOUR);
    }
  }

  lemma LaterSecond(a: int, b: int)
    requires a >= b + HOUR
    ensures a / NANOS > b / NANOS
  {
  }

  lemma LiveNotStale(db: DB, k: nat)
    requires Fresh(db, k)
    ensures !StaleHandoff(db.tokens[k], db.now)
  {
    hide LongExpired;
    if LongExpired(db.tokens[k].expires, db.now) {
      PurgeSparesLive(db.tokens[k].expires, db.now);
    }
  }

  // A live token goes only when something ends it.
  lemma LiveTokenGone(db: DB, r: Request, k: nat)
    requires Stamped(db) && TokensOk(db) && Fresh(db, k)
    ensures k !in Serve(db, r).db.tokens ==> Ends(db, r, db.tokens[k].grant, k)
  {
    hide Serve, StaleHandoff, Stamped;
    EffectHolds(db, r);
    LiveNotStale(db, k);
  }

  // And what ends it leaves no live token behind.
  lemma EndedNotLive(db: DB, r: Request, k: nat)
    requires Stamped(db) && k in db.tokens && Ends(db, r, db.tokens[k].grant, k)
    ensures !Fresh(Serve(db, r).db, k)
  {
    hide Serve, Stamped;
    EffectHolds(db, r);
  }

  lemma FreshStep(db: DB, r: Request, k: nat)
    requires Stamped(db) && TokensOk(db) && k in db.tokens
    ensures Fresh(Serve(db, r).db, k) <==>
              Fresh(db, k) && !Ends(db, r, db.tokens[k].grant, k) && Serve(db, r).db.now < db.tokens[k].expires
  {
    hide Serve, Ends, Stamped;
    CountersStep(db, r);
    if k in Serve(db, r).db.tokens {
      TokenStep(db, r, k);
    }
    if Ends(db, r, db.tokens[k].grant, k) {
      EndedNotLive(db, r, k);
    } else if Fresh(db, k) {
      LiveTokenGone(db, r, k);
      if Serve(db, r).db.tokens[k].redeemed.Some? {
        RedemptionEnds(db, r, k);
      }
    }
  }

  lemma RedemptionEnds(db: DB, r: Request, k: nat)
    requires Stamped(db) && k in db.tokens && IsRedemption(r, k) && Serve(db, r).reply.Redeemed?
    ensures Ends(db, r, db.tokens[k].grant, k)
  {
    hide Serve, Stamped;
  }

  // ---- Where a token comes from ----

  predicate Administrator(db: DB, user: int) {
    user in db.users && db.users[user].admin && db.users[user].enabled
  }

  predicate InUse(db: DB, device: int) {
    device in db.devices && db.devices[device]
  }

  // The request that makes such a token, and the conditions it was made under.
  ghost predicate MadeAs(db: DB, r: Request, t: Token)
    requires Stamped(db)
  {
    match t.grant
    case Launch(user, device, connection, cap) =>
      && r.InsertLaunch? && r.device == device && r.decision in db.decisions
      && db.decisions[r.decision] == Decision(user, connection, cap)
      && InUse(db, device) && (exists c :: c in db.access.connections && c.id == connection)
      && t.expires == db.now + r.life
    case Maintenance(user, device) =>
      && r.CreateMaintenance? && (r.user, r.device) == (user, device)
      && Administrator(db, user) && InUse(db, device)
      && t.expires == db.now + r.life
    case Handoff(user) =>
      r.CreateHandoff? && r.user == user && Administrator(db, user) && t.expires == db.now + 45 * NANOS
    case Enrolment =>
      r.CreateEnrolment? && 1 <= r.minutes <= 1440 && t.expires == db.now + r.minutes * 60 * NANOS
  }

  predicate Creates(r: Request) {
    r.InsertLaunch? || r.CreateMaintenance? || r.CreateHandoff? || r.CreateEnrolment?
  }

  lemma MadeByRequest(db: DB, r: Request)
    requires Stamped(db) && Creates(r) && Serve(db, r).reply.Issued?
    ensures db.next in Serve(db, r).db.tokens && Serve(db, r).reply == Issued(db.next)
    ensures MadeAs(db, r, Serve(db, r).db.tokens[db.next])
    ensures Serve(db, r).db.tokens[db.next].redeemed.None? && Serve(db, r).db.now == db.now
  {
    hide Stamped, WithoutStale, Approve, InRange;
  }

  lemma NewIsMade(db: DB, r: Request, k: nat)
    requires Stamped(db) && TokensOk(db) && k in Serve(db, r).db.tokens && k !in db.tokens
    ensures Creates(r) && k == db.next && Serve(db, r).reply == Issued(k)
  {
    hide Serve, Stamped;
    EffectHolds(db, r);
  }

  // Request `j` made token `k`, and made it like `t`.
  ghost predicate Makes(rs: seq<Request>, j: nat, k: nat, t: Token)
    requires j < |rs|
  {
    Creates(rs[j]) && Answer(rs, j) == Issued(k) && MadeAs(State(rs, j), rs[j], t)
  }

  lemma MadeSame(db: DB, r: Request, s: Token, t: Token)
    requires Stamped(db) && s.grant == t.grant && s.expires == t.expires
    ensures MadeAs(db, r, s) <==> MadeAs(db, r, t)
  {
    hide Stamped, HasConnection;
  }

  lemma MadeOnce(db: DB, r: Request, s: Token, t: Token)
    requires Stamped(db) && MadeAs(db, r, s) && MadeAs(db, r, t)
    ensures s.grant == t.grant && s.expires == t.expires
  {
    hide Stamped, HasConnection;
  }

  lemma Unfold(rs: seq<Request>, i: nat)
    requires 0 < i <= |rs|
    ensures State(rs, i) == Serve(State(rs, i - 1), rs[i - 1]).db
  {
    hide Serve, DbOk;
  }

  lemma OkParts(db: DB)
    requires DbOk(db)
    ensures Stamped(db) && TokensOk(db) && DecisionsOk(db) && Ledger(db) && AccessOk(db)
  {
  }

  // Every token was made by the request it says it was.
  lemma {:induction false} Origin(rs: seq<Request>, i: nat, k: nat) returns (j: nat)
    requires i <= |rs| && k in State(rs, i).tokens
    ensures j < i && Makes(rs, j, k, State(rs, i).tokens[k])
  {
    hide Serve, DbOk, MadeAs, Stamped, TokensOk;
    if i == 0 {
      assert false;
    } else {
      Unfold(rs, i);
      var before, r := State(rs, i - 1), rs[i - 1];
      OkParts(before);
      if k in before.tokens {
        j := Origin(rs, i - 1, k);
        TokenStep(before, r, k);
        OkParts(State(rs, j));
        MadeSame(State(rs, j), rs[j], before.tokens[k], State(rs, i).tokens[k]);
      } else {
        j := i - 1;
        NewIsMade(before, r, k);
        MadeByRequest(before, r);
      }
    }
  }

  // ---- How long a token lives ----

  ghost predicate Ended(rs: seq<Request>, m: nat, grant: Grant, k: nat)
    requires m < |rs|
  {
    Ends(State(rs, m), rs[m], grant, k)
  }

  ghost predicate Undisturbed(rs: seq<Request>, j: nat, i: nat, grant: Grant, k: nat)
    requires i <= |rs|
  {
    forall m :: j < m < i ==> !Ended(rs, m, grant, k)
  }

  lemma GoneStaysGone(db: DB, r: Request, k: nat)
    requires Stamped(db) && TokensOk(db) && k !in db.tokens && k < db.next
    ensures k !in Serve(db, r).db.tokens
  {
    hide Serve, Stamped, TokensOk;
    if k in Serve(db, r).db.tokens {
      NewIsMade(db, r, k);
    }
  }

  lemma JustMade(rs: seq<Request>, j: nat, k: nat, t: Token)
    requires j < |rs| && Makes(rs, j, k, t)
    ensures var db := State(rs, j + 1);
            && k in db.tokens && db.tokens[k].grant == t.grant && db.tokens[k].expires == t.expires
            && db.tokens[k].redeemed.None? && k < db.next
  {
    hide Serve, DbOk, MadeAs, Stamped;
    Unfold(rs, j + 1);
    OkParts(State(rs, j));
    OkParts(State(rs, j + 1));
    MadeByRequest(State(rs, j), rs[j]);
    MadeOnce(State(rs, j), rs[j], t, State(rs, j + 1).tokens[k]);
    assert TokenOk(State(rs, j + 1), k);
  }

  // A token stays what it was made, and is live exactly while its time is not
  // over and no request has ended it.
  lemma {:induction false} Life(rs: seq<Request>, j: nat, i: nat, k: nat, t: Token)
    requires j < i <= |rs| && Makes(rs, j, k, t)
    ensures k in State(rs, i).tokens ==> State(rs, i).tokens[k].grant == t.grant && State(rs, i).tokens[k].expires == t.expires
    ensures k < State(rs, i).next
    ensures Fresh(State(rs, i), k) <==> State(rs, i).now < t.expires && Undisturbed(rs, j, i, t.grant, k)
  {
    hide Serve, DbOk, MadeAs, Stamped, Makes, Ends, TokensOk;
    Unfold(rs, i);
    if i == j + 1 {
      JustMade(rs, j, k, t);
    } else {
      Life(rs, j, i - 1, k, t);
      var before, r := State(rs, i - 1), rs[i - 1];
      OkParts(before);
      CountersStep(before, r);
      assert Undisturbed(rs, j, i, t.grant, k) <==> Undisturbed(rs, j, i - 1, t.grant, k) && !Ended(rs, i - 1, t.grant, k);
      if k in before.tokens {
        TokenStep(before, r, k);
        FreshStep(before, r, k);
      } else {
        GoneStaysGone(before, r, k);
      }
    }
  }

  // ---- Redemption ----

  // What the database must say at the moment of redemption.
  ghost predicate Gate(db: DB, r: Request, grant: Grant) {
    match grant
    case Launch(user, device, connection, _) =>
      r.RedeemLaunch? && r.device == device && InUse(db, device) && Entitled(db.access, user, connection)
    case Maintenance(user, device) =>
      r.RedeemMaintenance? && r.device == device && InUse(db, device) && Administrator(db, user)
    case Handoff(user) =>
      r.RedeemHandoff? && Administrator(db, user)
    case Enrolment =>
      r.Enrol? && r.device !in db.devices
  }

  lemma AcceptedIff(db: DB, r: Request, k: nat)
    requires Stamped(db) && IsRedemption(r, k)
    ensures Serve(db, r).reply.Redeemed? <==> Fresh(db, k) && Gate(db, r, db.tokens[k].grant)
  {
    hide Stamped, CanLaunch, RedeemAccepts, CredentialFor, Entitled;
    if Fresh(db, k) && db.tokens[k].grant.Launch? {
      QueriesAgree(db.access, db.tokens[k].grant.user, db.tokens[k].grant.connection);
      CanLaunchMeans(db.access, db.tokens[k].grant.user, db.tokens[k].grant.connection);
    }
  }

  // Request `j` made the token that request `i` redeems, and nothing since then
  // stands in the way.
  ghost predicate Deserved(rs: seq<Request>, i: nat, k: nat, j: nat, t: Token)
    requires i < |rs|
  {
    && j < i && Makes(rs, j, k, t)
    && State(rs, i).now < t.expires
    && Undisturbed(rs, j, i, t.grant, k)
    && Gate(State(rs, i), rs[i], t.grant)
  }

  // A redemption is answered by history alone: it succeeds exactly when the token
  // was made for it, is in time, was not redeemed or deleted since, and the
  // permissions of the moment allow it.
  lemma RedeemedIff(rs: seq<Request>, i: nat, k: nat)
    requires i < |rs| && IsRedemption(rs[i], k)
    ensures Answer(rs, i).Redeemed? <==> exists j: nat, t: Token :: Deserved(rs, i, k, j, t)
  {
    hide Serve, DbOk, Makes, Undisturbed, Gate, Stamped;
    OkParts(State(rs, i));
    AcceptedIff(State(rs, i), rs[i], k);
    if Answer(rs, i).Redeemed? {
      var j := Origin(rs, i, k);
      Life(rs, j, i, k, State(rs, i).tokens[k]);
      assert Deserved(rs, i, k, j, State(rs, i).tokens[k]);
    }
    if j: nat, t: Token :| Deserved(rs, i, k, j, t) {
      Life(rs, j, i, k, t);
    }
  }

  // No token of any kind is redeemed twice.
  lemma RedeemedOnce(rs: seq<Request>, i: nat, j: nat, k: nat)
    requires i < |rs| && j < |rs| && Redeems(rs, i, k) && Redeems(rs, j, k)
    ensures i == j
  {
    hide Serve, DbOk;
    if i < j {
      NotAgain(rs, i, j, k);
    } else if j < i {
      NotAgain(rs, j, i, k);
    }
  }

  lemma NotAgain(rs: seq<Request>, i: nat, j: nat, k: nat)
    requires i < j < |rs| && Redeems(rs, i, k)
    ensures !Redeems(rs, j, k)
  {
    hide Serve, DbOk, Makes, Gate, Stamped;
    OkParts(State(rs, i));
    OkParts(State(rs, j));
    AcceptedIff(State(rs, i), rs[i], k);
    var o := Origin(rs, i, k);
    var t := State(rs, i).tokens[k];
    Life(rs, o, j, k, t);
    assert Ended(rs, i, t.grant, k);
    if IsRedemption(rs[j], k) {
      AcceptedIff(State(rs, j), rs[j], k);
    }
  }

  // ---- Decisions ----

  // Request `d` decided `k`, as `decision`.
  ghost predicate Decides(rs: seq<Request>, d: nat, k: nat, decision: Decision)
    requires d < |rs|
  {
    && rs[d].DecideLaunch? && Answer(rs, d) == Approved(k)
    && (rs[d].user, rs[d].connection) == (decision.user, decision.connection)
    && Approve(State(rs, d), rs[d].user, rs[d].connection, rs[d].local) == Some(decision.cap)
  }

  lemma {:induction false} DecisionOrigin(rs: seq<Request>, i: nat, k: nat) returns (d: nat)
    requires i <= |rs| && k in State(rs, i).decisions
    ensures d < i && Decides(rs, d, k, State(rs, i).decisions[k])
    ensures forall m :: d < m < i ==> !Inserts(rs[m], k)
  {
    hide Serve, DbOk, Stamped, Approve;
    if i == 0 {
      assert false;
    } else {
      Unfold(rs, i);
      var before := State(rs, i - 1);
      OkParts(before);
      DecisionStep(before, rs[i - 1], k);
      if k in before.decisions && State(rs, i).decisions[k] == before.decisions[k] && !Inserts(rs[i - 1], k) {
        d := DecisionOrigin(rs, i - 1, k);
      } else {
        d := i - 1;
      }
    }
  }

  lemma {:induction false} DecisionGone(rs: seq<Request>, i: nat, j: nat, k: nat)
    requires i <= j <= |rs| && k !in State(rs, i).decisions && k < State(rs, i).next
    ensures k !in State(rs, j).decisions
  {
    hide Serve, DbOk, Stamped, Approve;
    if i < j {
      DecisionGone(rs, i, j - 1, k);
      TimePasses(rs, i, j - 1);
      Unfold(rs, j);
      OkParts(State(rs, j - 1));
      if k in State(rs, j).decisions {
        DecisionStep(State(rs, j - 1), rs[j - 1], k);
      }
    }
  }

  // A decision makes at most one ticket.
  lemma OneTicketPerDecision(rs: seq<Request>, i: nat, j: nat, k: nat)
    requires i < j < |rs| && Inserts(rs[i], k) && Inserts(rs[j], k) && k in State(rs, i).decisions
    ensures Answer(rs, j) == Refused
  {
    hide Serve, DbOk, Stamped;
    Unfold(rs, i + 1);
    OkParts(State(rs, i));
    OkParts(State(rs, j));
    CountersStep(State(rs, i), rs[i]);
    if k in State(rs, i + 1).decisions {
      DecisionStep(State(rs, i), rs[i], k);
    }
    DecisionGone(rs, i + 1, j, k);
    UndecidedRefused(State(rs, j), rs[j], k);
  }

  lemma UndecidedRefused(db: DB, r: Request, k: nat)
    requires Stamped(db) && Inserts(r, k) && k !in db.decisions
    ensures Serve(db, r).reply == Refused
  {
    hide Stamped;
  }

  // ---- Policy ----

  lemma PolicyStep(db: DB, r: Request, user: int)
    requires Stamped(db) && !(r.SavePolicy? && r.user == user && Serve(db, r).reply.Done?)
    ensures PolicyOf(Serve(db, r).db, user) == PolicyOf(db, user)
  {
    hide Stamped, WithoutStale, WithoutPending, WithoutConnection, Cascade, Record, Approve, CredentialFor, EnabledRows,
         CanLaunch, RedeemAccepts, IsAdmin, DeviceEnabled, DropConnection, DropGroup, DropCredential,
         SetUserRow, SetGroupRow, SetMemberRow, HasConnection, InRange, ValidPolicy;
  }

  // The request saves a policy of the user.
  ghost predicate Saves(rs: seq<Request>, m: nat, user: int)
    requires m < |rs|
  {
    rs[m].SavePolicy? && rs[m].user == user && Answer(rs, m).Done?
  }

  // The last of the requests from `from` on and before `to` that saves it.
  ghost function LastSave(rs: seq<Request>, from: nat, to: nat, user: int): (r: Option<nat>)
    requires from <= to <= |rs|
    ensures r.Some? ==> from <= r.value < to && rs[r.value].SavePolicy?
  {
    if from == to then None
    else if Saves(rs, to - 1, user) then Some(to - 1)
    else LastSave(rs, from, to - 1, user)
  }

  lemma {:induction false} LastSaveMeans(rs: seq<Request>, from: nat, to: nat, user: int)
    requires from <= to <= |rs|
    ensures var r := LastSave(rs, from, to, user);
            && (r.None? ==> forall m :: from <= m < to ==> !Saves(rs, m, user))
            && (r.Some? ==> Saves(rs, r.value, user) && forall m :: r.value < m < to ==> !Saves(rs, m, user))
  {
    hide Saves;
    if from < to {
      LastSaveMeans(rs, from, to - 1, user);
    }
  }

  lemma SaveStep(db: DB, r: Request)
    requires Stamped(db) && r.SavePolicy? && Serve(db, r).reply.Done?
    ensures PolicyOf(Serve(db, r).db, r.user) == r.policy
  {
    hide Stamped, ValidPolicy;
  }

  lemma {:induction false} PolicyIsLastSaved(rs: seq<Request>, from: nat, to: nat, user: int)
    requires from <= to <= |rs|
    ensures PolicyOf(State(rs, to), user)
            == match LastSave(rs, from, to, user) case Some(m) => rs[m].policy case None => PolicyOf(State(rs, from), user)
  {
    hide Serve, DbOk, Stamped, PolicyOf;
    if from < to {
      PolicyIsLastSaved(rs, from, to - 1, user);
      Unfold(rs, to);
      OkParts(State(rs, to - 1));
      if Saves(rs, to - 1, user) {
        SaveStep(State(rs, to - 1), rs[to - 1]);
      } else {
        PolicyStep(State(rs, to - 1), rs[to - 1], user);
      }
    }
  }

  // A ticket redeemed by `i` was inserted by `j` after the decision of `d`.
  ghost predicate Path(rs: seq<Request>, d: nat, j: nat, i: nat, grant: Grant) {
    && d < j < i < |rs| && grant.Launch? && rs[j].InsertLaunch? && rs[i].RedeemLaunch?
    && Decides(rs, d, rs[j].decision, Decision(grant.user, grant.connection, grant.cap))
    && Answer(rs, j) == Issued(rs[i].token)
    && Undisturbed(rs, j, i, grant, rs[i].token)
  }

  // Every redemption of a launch ticket has its insertion and its decision; the
  // ticket carries the cap that the deciding policy gave.
  lemma DecidedBefore(rs: seq<Request>, i: nat) returns (d: nat, j: nat)
    requires i < |rs| && rs[i].RedeemLaunch? && Answer(rs, i).Redeemed?
    ensures Path(rs, d, j, i, Answer(rs, i).grant)
    ensures var g := Answer(rs, i).grant; var status := StatusFor(State(rs, d), g.user, rs[d].local);
            status.allowed && status.capSeconds == g.cap
  {
    hide Serve, DbOk, Undisturbed, Stamped, StatusFor, CanLaunch, HasConnection;
    var k := rs[i].token;
    OkParts(State(rs, i));
    AcceptedIff(State(rs, i), rs[i], k);
    EffectHolds(State(rs, i), rs[i]);
    j := Origin(rs, i, k);
    Life(rs, j, i, k, State(rs, i).tokens[k]);
    d := DecisionOrigin(rs, j, rs[j].decision);
  }

  // The policy in force at the redemption is the one that decided the ticket
  // exactly when no policy of the user was saved since the decision, or the last
  // one saved equals it. A save counts that came before the insertion, or whose
  // deletion of pending tickets has not been carried out.
  lemma PolicyInForce(rs: seq<Request>, d: nat, j: nat, i: nat, grant: Grant)
    requires Path(rs, d, j, i, grant)
    ensures var last := LastSave(rs, d, i, grant.user);
            PolicyOf(State(rs, i), grant.user) == PolicyOf(State(rs, d), grant.user)
            <==> (last.Some? ==> rs[last.value].policy == PolicyOf(State(rs, d), grant.user))
    ensures forall m, n :: d <= m < n < i && Saves(rs, m, grant.user) && rs[n] == DropPending(grant.user) ==> n < j
  {
    hide Serve, DbOk, PolicyOf, Stamped, Decides;
    PolicyIsLastSaved(rs, d, i, grant.user);
    forall n | j < n < i ensures rs[n] != DropPending(grant.user) {
      assert !Ended(rs, n, grant, rs[i].token);
    }
    InsertsNotDrops(rs, j, grant.user);
  }

  lemma InsertsNotDrops(rs: seq<Request>, j: nat, user: int)
    requires j < |rs| && rs[j].InsertLaunch?
    ensures rs[j] != DropPending(user)
  {
  }

  // The two statements of every save follow each other.
  ghost predicate SavesAtOnce(rs: seq<Request>) {
    forall m :: 0 <= m < |rs| - 1 && rs[m].SavePolicy? ==> rs[m + 1] == DropPending(rs[m].user)
  }

  lemma NoneSavedSince(rs: seq<Request>, j: nat, i: nat, m: nat, user: int)
    requires j <= m < i < |rs| && rs[j].InsertLaunch? && rs[i].RedeemLaunch? && SavesAtOnce(rs)
    requires forall n :: j < n < i ==> rs[n] != DropPending(user)
    ensures !Saves(rs, m, user)
  {
    hide Serve, State;
    if rs[m].SavePolicy? {
      assert rs[m + 1] == DropPending(rs[m].user);
    }
  }

  // Then it is in force exactly when no policy of the user was saved between
  // decision and insertion, or the last one saved there equals it.
  lemma InForceIffUnsaved(rs: seq<Request>, d: nat, j: nat, i: nat, grant: Grant)
    requires Path(rs, d, j, i, grant) && SavesAtOnce(rs)
    ensures var last := LastSave(rs, d, j, grant.user);
            PolicyOf(State(rs, i), grant.user) == PolicyOf(State(rs, d), grant.user)
            <==> (last.Some? ==> rs[last.value].policy == PolicyOf(State(rs, d), grant.user))
  {
    hide Serve, DbOk, PolicyOf, Stamped, Decides;
    var user := grant.user;
    forall n | j < n < i ensures rs[n] != DropPending(user) {
      assert !Ended(rs, n, grant, rs[i].token);
    }
    forall m | j <= m < i ensures !Saves(rs, m, user) {
      NoneSavedSince(rs, j, i, m, user);
    }
    PolicyIsLastSaved(rs, d, j, user);
    PolicyIsLastSaved(rs, j, i, user);
    LastSaveMeans(rs, j, i, user);
  }

  // So with requests that are atomic the policy in force is always the deciding one.
  lemma UnderCurrentPolicy(rs: seq<Request>, d: nat, j: nat, i: nat, grant: Grant)
    requires Path(rs, d, j, i, grant) && SavesAtOnce(rs) && j == d + 1
    ensures PolicyOf(State(rs, i), grant.user) == PolicyOf(State(rs, d), grant.user)
  {
    hide Serve, DbOk, PolicyOf, Stamped;
    InForceIffUnsaved(rs, d, j, i, grant);
  }
}
