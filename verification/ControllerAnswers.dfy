/** What the controller's answers mean, each in terms of the tables and the
  * requests before it.
  */
module ControllerAnswers {
  import opened Options
  import opened Rows
  import opened Access
  import opened Quota
  import opened Stamps
  import opened Controller
  import opened ControllerInvariant
  import opened ControllerTheorems

  // ---- Approving and issuing ----

  // The policy a user has: the last one saved, or access at any time.
  ghost function PolicyAt(rs: seq<Request>, i: nat, user: int): Policy
    requires i <= |rs|
  {
    match LastSave(rs, 0, i, user)
    case Some(m) => rs[m].policy
    case None => Policy(127, 0, 1440, 0, 0)
  }

  lemma PolicyAtIsCurrent(rs: seq<Request>, i: nat, user: int)
    requires i <= |rs|
    ensures PolicyOf(State(rs, i), user) == PolicyAt(rs, i, user) && ValidPolicy(PolicyAt(rs, i, user))
  {
    hide Serve, DbOk;
    PolicyIsLastSaved(rs, 0, i, user);
    LastSaveMeans(rs, 0, i, user);
    var m := LastSave(rs, 0, i, user);
    if m.Some? {
      OkParts(State(rs, m.value));
      SavedIff(State(rs, m.value), rs[m.value]);
    }
  }

  // A policy is saved exactly for a known user and with numbers in their ranges.
  lemma SavedIff(db: DB, r: Request)
    requires Stamped(db) && r.SavePolicy?
    ensures var p := r.policy;
            Serve(db, r).reply.Done? <==>
              && r.user in db.users && p.days <= 127 && p.start <= 1439 && 1 <= p.end <= 1440
              && p.dailyLimit <= 1440 && p.maxSession <= 720
  {
    hide Stamped;
  }

  // A launch is approved exactly when the user is entitled to the connection, the
  // policy's day and hours allow it and its daily limit leaves time.
  lemma ApprovedIff(rs: seq<Request>, i: nat)
    requires i < |rs| && rs[i].DecideLaunch?
    ensures var r, p := rs[i], PolicyAt(rs, i, rs[i].user);
            var used := Used(State(rs, i).usage, r.user, r.local.midnight, State(rs, i).now);
            Answer(rs, i).Approved? <==>
              && Entitled(State(rs, i).access, r.user, r.connection)
              && Timely(p, r.local) && (p.dailyLimit == 0 || used < p.dailyLimit * 60)
    ensures var r, p := rs[i], PolicyAt(rs, i, rs[i].user);
            var used := Used(State(rs, i).usage, r.user, r.local.midnight, State(rs, i).now);
            Answer(rs, i).Approved? ==>
              && Answer(rs, i).id in State(rs, i + 1).decisions
              && State(rs, i + 1).decisions[Answer(rs, i).id] == Decision(r.user, r.connection, CapOf(p, used))
  {
    hide CapOf, Serve, DbOk, Used, Entitled, Timely, PolicyOf, PolicyAt, ValidPolicy;
    var r := rs[i];
    OkParts(State(rs, i));
    PolicyAtIsCurrent(rs, i, r.user);
    Unfold(rs, i + 1);
    ApprovalMeans(State(rs, i), r);
  }

  lemma ApprovalMeans(db: DB, r: Request)
    requires Stamped(db) && r.DecideLaunch? && ValidPolicy(PolicyOf(db, r.user))
    ensures var p, used := PolicyOf(db, r.user), Used(db.usage, r.user, r.local.midnight, db.now);
            Serve(db, r).reply.Approved? <==>
              Entitled(db.access, r.user, r.connection) && Timely(p, r.local) && (p.dailyLimit == 0 || used < p.dailyLimit * 60)
    ensures var p, used := PolicyOf(db, r.user), Used(db.usage, r.user, r.local.midnight, db.now);
            Serve(db, r).reply.Approved? ==>
              && Serve(db, r).reply.id in Serve(db, r).db.decisions
              && Serve(db, r).db.decisions[Serve(db, r).reply.id] == Decision(r.user, r.connection, CapOf(p, used))
  {
    CanLaunchMeans(db.access, r.user, r.connection);
    StatusMeans(PolicyOf(db, r.user), r.local, Used(db.usage, r.user, r.local.midnight, db.now));
    hide Used, InRange, InLedger, Entitled, Timely, StatusOf, CanLaunch, PolicyOf, CapOf;
  }

  // Tokens are issued exactly under these conditions.
  lemma IssuedIff(db: DB, r: Request)
    requires Stamped(db) && Creates(r)
    ensures r.InsertLaunch? ==>
              (Serve(db, r).reply.Issued? <==>
                && r.decision in db.decisions && InUse(db, r.device)
                && exists c :: c in db.access.connections && c.id == db.decisions[r.decision].connection)
    ensures r.CreateMaintenance? ==> (Serve(db, r).reply.Issued? <==> Administrator(db, r.user) && InUse(db, r.device))
    ensures r.CreateHandoff? ==> (Serve(db, r).reply.Issued? <==> Administrator(db, r.user))
    ensures r.CreateEnrolment? ==> (Serve(db, r).reply.Issued? <==> 1 <= r.minutes <= 1440)
  {
    hide Stamped, WithoutStale, InRange;
  }

  // ---- The credential of a redemption ----

  // The direct grant's credential, else the lowest-numbered granting group's, else
  // the connection's own.
  lemma RedeemedCredential(db: DB, r: Request)
    requires DbOk(db) && r.RedeemLaunch? && Serve(db, r).reply.Redeemed?
    ensures r.token in db.tokens && db.tokens[r.token].grant.Launch? && Serve(db, r).reply.grant == db.tokens[r.token].grant
    ensures var g, t, given := db.tokens[r.token].grant, db.access, Serve(db, r).reply.credential;
            && (forall p :: DirectGrant(t, g.user, g.connection, p) ==> given == p.credential)
            && (forall p ::
                  GroupGrant(t, g.user, g.connection, p)
                  && (forall q :: !DirectGrant(t, g.user, g.connection, q))
                  && (forall q :: GroupGrant(t, g.user, g.connection, q) ==> p.group <= q.group)
                  ==> given == p.credential)
            && ((forall q :: !DirectGrant(t, g.user, g.connection, q))
                && (forall q :: !GroupGrant(t, g.user, g.connection, q)) ==>
                  forall c :: c in t.connections && c.id == g.connection && c.enabled ==> given == c.credential)
  {
    OkParts(db);
    var t, given := db.access, Serve(db, r).reply.credential;
    var g := RedeemedRow(db, r);
    hide Serve, DbOk, Stamped, TokensOk, Ledger, DecisionsOk, CredentialsKnown, NumbersOk;
    var c := EnabledRows(t, g.connection)[0];
    assert c in EnabledRows(t, g.connection);
    hide LaunchCredential, DirectGrant, GroupGrant, Unique;
    forall p | DirectGrant(t, g.user, g.connection, p) ensures given == p.credential {
      DirectCredentialWins(t, g.user, c, p);
    }
    forall p | GroupGrant(t, g.user, g.connection, p) && (forall q :: !DirectGrant(t, g.user, g.connection, q))
               && (forall q :: GroupGrant(t, g.user, g.connection, q) ==> p.group <= q.group)
      ensures given == p.credential
    {
      LowestGroupDecides(t, g.user, c, p);
    }
    if (forall q :: !DirectGrant(t, g.user, g.connection, q)) && (forall q :: !GroupGrant(t, g.user, g.connection, q)) {
      DefaultCredential(t, g.user, c);
      forall d | d in t.connections && d.id == g.connection && d.enabled ensures given == d.credential {
        OneConnection(t, c, d);
      }
    }
  }

  lemma RedeemedRow(db: DB, r: Request) returns (g: Grant)
    requires Stamped(db) && r.RedeemLaunch? && Serve(db, r).reply.Redeemed?
    ensures r.token in db.tokens && g == db.tokens[r.token].grant && g.Launch? && Serve(db, r).reply.grant == g
    ensures EnabledRows(db.access, g.connection) != []
    ensures Serve(db, r).reply.credential
            == LaunchCredential(db.access, g.user, EnabledRows(db.access, g.connection)[0])
  {
    hide Stamped, LaunchCredential, EnabledRows, Permitted;
    g := db.tokens[r.token].grant;
  }

  lemma OneConnection(t: Tables, a: ConnectionRow, b: ConnectionRow)
    requires Keyed(t) && a in t.connections && b in t.connections && a.id == b.id
    ensures a == b
  {
    var i :| 0 <= i < |t.connections| && t.connections[i] == a;
    var j :| 0 <= j < |t.connections| && t.connections[j] == b;
    assert ConnectionKey(t.connections[i]) == ConnectionKey(t.connections[j]);
    assert i == j;
  }
}
