/** What every request keeps true of the controller's tables. */
module ControllerInvariant {
  import opened Options
  import opened Rows
  import opened Access
  import opened Quota
  import opened Stamps
  import opened Controller

  ghost predicate TokenOk(db: DB, k: nat)
    requires k in db.tokens
  {
    var t := db.tokens[k];
    k < db.next && (t.redeemed.Some? ==> t.redeemed.value < t.expires && t.redeemed.value <= db.now)
  }

  ghost predicate TokensOk(db: DB) {
    forall k :: k in db.tokens ==> TokenOk(db, k)
  }

  // Undecided insertions have used numbers.
  ghost predicate DecisionsOk(db: DB) {
    forall k :: k in db.decisions ==> k < db.next
  }

  function TicketOf(u: Usage): int {
    u.ticket
  }

  // A usage row belongs to a redeemed ticket and agrees with it.
  ghost predicate RowOk(db: DB, u: Usage) {
    && u.ticket in db.tokens
    && var t := db.tokens[u.ticket];
    && t.grant.Launch? && t.redeemed.Some?
    && (u.user, u.device, u.connection) == (t.grant.user, t.grant.device, t.grant.connection)
    && InRange(u.started) && t.redeemed.value <= u.started <= db.now
    && match u.ended
       case None => u.duration == 0
       case Some(end) => u.started <= end <= db.now && u.duration == Elapsed(u.started, end)
  }

  ghost predicate Ledger(db: DB) {
    Unique(db.usage, TicketOf) && forall u :: u in db.usage ==> RowOk(db, u)
  }

  // Foreign keys to credentials.
  ghost predicate ConnectionsKnown(db: DB) {
    forall c :: c in db.access.connections ==> KnownCredential(db, c.credential)
  }

  ghost predicate UsersKnown(db: DB) {
    forall p :: p in db.access.userPermissions ==> KnownCredential(db, p.credential)
  }

  ghost predicate GroupsKnown(db: DB) {
    forall p :: p in db.access.groupPermissions ==> KnownCredential(db, p.credential)
  }

  ghost predicate CredentialsKnown(db: DB) {
    ConnectionsKnown(db) && UsersKnown(db) && GroupsKnown(db)
  }

  ghost predicate NumbersOk(db: DB) {
    forall c :: c in db.access.connections ==> c.id < db.next
  }

  ghost predicate AccessOk(db: DB) {
    Keyed(db.access) && CredentialsKnown(db) && NumbersOk(db)
  }

  ghost predicate DbOk(db: DB) {
    Stamped(db) && TokensOk(db) && DecisionsOk(db) && Ledger(db) && AccessOk(db)
  }

  // ---- One request and one token ----

  // What a request does to the token table.
  ghost predicate Effect(db: DB, r: Request)
    requires Stamped(db)
  {
    var after := Serve(db, r);
    if r.RedeemLaunch? || r.RedeemMaintenance? || r.RedeemHandoff? || r.Enrol? then
      if after.reply.Redeemed?
      then Fresh(db, r.token) && after.db.tokens == Spend(db, r.token).tokens && after.db.now == db.now
           && after.reply.grant == db.tokens[r.token].grant
      else after.db.tokens == db.tokens
    else if r.InsertLaunch? || r.CreateMaintenance? || r.CreateHandoff? || r.CreateEnrolment? then
      if after.reply.Issued?
      then && after.reply.id == db.next && after.db.next == db.next + 1
           && db.next in after.db.tokens && after.db.tokens[db.next].redeemed.None?
           && after.db.tokens == (if r.CreateHandoff? then WithoutStale(db.tokens, db.now) else db.tokens)
                                 [db.next := after.db.tokens[db.next]]
      else after.db.tokens == db.tokens
    else
      after.db.tokens ==
        if r.DropPending? then WithoutPending(db.tokens, r.user)
        else if r.DeleteConnection? then WithoutConnection(db.tokens, r.connection)
        else db.tokens
  }

  predicate Redeeming(r: Request) {
    r.RedeemLaunch? || r.RedeemMaintenance? || r.RedeemHandoff? || r.Enrol?
  }

  lemma RedeemingEffect(db: DB, r: Request)
    requires Stamped(db) && Redeeming(r)
    ensures Effect(db, r)
  {
    hide Stamped, CredentialFor, EnabledRows, RedeemAccepts, IsAdmin, DeviceEnabled, ServeAccess;
  }

  lemma IssuingEffect(db: DB, r: Request)
    requires Stamped(db) && (r.InsertLaunch? || r.CreateMaintenance? || r.CreateHandoff? || r.CreateEnrolment?)
    ensures Effect(db, r)
  {
    hide Stamped, WithoutStale, IsAdmin, DeviceEnabled, HasConnection, ServeAccess;
  }

  lemma OtherEffect(db: DB, r: Request)
    requires Stamped(db) && !Redeeming(r) && !(r.InsertLaunch? || r.CreateMaintenance? || r.CreateHandoff? || r.CreateEnrolment?)
    ensures Effect(db, r)
  {
    hide Stamped, WithoutPending, WithoutConnection, Cascade, Record, Approve, EnabledRows, DropConnection, DropGroup,
         DropCredential, SetUserRow, SetGroupRow, SetMemberRow, HasConnection, InRange, ValidPolicy;
  }

  lemma EffectHolds(db: DB, r: Request)
    requires Stamped(db)
    ensures Effect(db, r)
  {
    hide Effect, Stamped;
    if Redeeming(r) {
      RedeemingEffect(db, r);
    } else if r.InsertLaunch? || r.CreateMaintenance? || r.CreateHandoff? || r.CreateEnrolment? {
      IssuingEffect(db, r);
    } else {
      OtherEffect(db, r);
    }
  }

  // A request may redeem a token, and nothing else about a token ever changes.
  lemma TokenStep(db: DB, r: Request, k: nat)
    requires Stamped(db) && TokensOk(db) && k in db.tokens
    ensures var after := Serve(db, r);
            k in after.db.tokens ==>
              && after.db.tokens[k].grant == db.tokens[k].grant && after.db.tokens[k].expires == db.tokens[k].expires
              && (after.db.tokens[k].redeemed == db.tokens[k].redeemed
                  || (Fresh(db, k) && IsRedemption(r, k) && after.db.tokens[k].redeemed == Some(db.now)
                      && after.reply.Redeemed? && after.reply.grant == db.tokens[k].grant
                      && after.db.now == db.now))
  {
    hide Serve, Stamped;
    EffectHolds(db, r);
  }

  // A new token takes the next number and is not redeemed.
  lemma NewToken(db: DB, r: Request, k: nat)
    requires Stamped(db) && TokensOk(db) && k in Serve(db, r).db.tokens && k !in db.tokens
    ensures k == db.next && Serve(db, r).reply == Issued(k)
    ensures Serve(db, r).db.tokens[k].redeemed == None && db.next < Serve(db, r).db.next
  {
    hide Serve, Stamped;
    EffectHolds(db, r);
  }

  lemma CountersStep(db: DB, r: Request)
    requires Stamped(db)
    ensures db.next <= Serve(db, r).db.next && db.now <= Serve(db, r).db.now
    ensures InRange(Serve(db, r).db.now)
  {
    hide StampLess, StatusOf, Used, CanLaunch, RedeemAccepts, LaunchCredential, EnabledRows, Elapsed;
  }

  lemma TokensKept(db: DB, r: Request)
    requires Stamped(db) && TokensOk(db)
    ensures TokensOk(Serve(db, r).db)
  {
    hide Serve, InRange, InLedger, TokensOk;
    var after := Serve(db, r).db;
    CountersStep(db, r);
    forall k | k in after.tokens ensures TokenOk(after, k) {
      TokenKept(db, r, k);
    }
    assert TokensOk(after) by { AllTokens(after); }
  }

  lemma AllTokens(db: DB)
    requires forall k :: k in db.tokens ==> TokenOk(db, k)
    ensures TokensOk(db)
  {
  }

  lemma TokenKept(db: DB, r: Request, k: nat)
    requires Stamped(db) && TokensOk(db) && k in Serve(db, r).db.tokens
    ensures TokenOk(Serve(db, r).db, k)
  {
    hide Serve, InRange, InLedger;
    CountersStep(db, r);
    if k in db.tokens {
      TokenStep(db, r, k);
    } else {
      NewToken(db, r, k);
    }
  }

  // ---- One request and the usage ledger ----

  predicate TouchesUsage(r: Request) {
    r.SessionEvent? || r.DropPending? || r.DeleteConnection?
  }

  lemma OtherRequests(db: DB, r: Request)
    requires Stamped(db) && !TouchesUsage(r)
    ensures Serve(db, r).db.usage == db.usage
    ensures forall k :: k in db.tokens && db.tokens[k].grant.Launch? && k < db.next ==> k in Serve(db, r).db.tokens
  {
    EffectHolds(db, r);
  }

  // Where a row of the new ledger comes from.
  lemma RowOrigin(db: DB, r: Request, u: Usage)
    requires Stamped(db) && u in Serve(db, r).db.usage
    ensures || u in db.usage
            || (r.SessionEvent? && EventAccepted(db, r.device, r.ticket, r.named) && RowRecorded(db, r, u))
    ensures TouchesUsage(r) && !r.SessionEvent? ==>
              (u in db.usage && u.ticket in Serve(db, r).db.tokens) || Serve(db, r).db == db
  {
    hide InRange, StampLess, StatusOf, Used, CanLaunch, RedeemAccepts, LaunchCredential, EnabledRows, Elapsed, InLedger;
    if !TouchesUsage(r) {
      OtherRequests(db, r);
    }
  }

  // A row written by an accepted event: started now, or closed now.
  ghost predicate RowRecorded(db: DB, r: Request, u: Usage)
    requires r.SessionEvent? && EventAccepted(db, r.device, r.ticket, r.named)
  {
    var g := db.tokens[r.ticket].grant;
    || (r.event.Started? && (forall x :: x in db.usage ==> x.ticket != r.ticket)
        && u == Usage(r.ticket, g.user, g.device, g.connection, db.now, None, 0))
    || (!r.event.Started?
        && (exists x ::
              && x in db.usage && x.ticket == r.ticket && x.ended.None?
              && u == x.(ended := Some(db.now), duration := Elapsed(x.started, db.now))))
  }

  lemma RowKept(db: DB, r: Request, u: Usage)
    requires Stamped(db) && TokensOk(db) && Ledger(db) && u in Serve(db, r).db.usage
    ensures RowOk(Serve(db, r).db, u)
  {
    hide Serve, InRange, InLedger, Elapsed, Unique;
    RowOrigin(db, r, u);
    CountersStep(db, r);
    if u in db.usage {
      RowTicketKept(db, r, u);
    } else {
      SessionEventKeepsTokens(db, r);
    }
  }

  lemma SessionEventKeepsTokens(db: DB, r: Request)
    requires Stamped(db) && r.SessionEvent?
    ensures Serve(db, r).db.tokens == db.tokens && Serve(db, r).db.now == db.now
  {
    hide InRange, InLedger, Record;
  }

  // No request deletes the redeemed ticket of a row that stays.
  lemma RowTicketKept(db: DB, r: Request, u: Usage)
    requires Stamped(db) && TokensOk(db) && u in db.usage && RowOk(db, u) && u in Serve(db, r).db.usage
    ensures RowOk(Serve(db, r).db, u)
  {
    hide Serve, InRange, InLedger, Elapsed;
    CountersStep(db, r);
    TokenStep(db, r, u.ticket);
    if r.SessionEvent? {
      SessionEventKeepsTokens(db, r);
    } else if TouchesUsage(r) {
      RowOrigin(db, r, u);
    } else {
      OtherRequests(db, r);
    }
  }

  lemma UsageUnique(db: DB, r: Request)
    requires Stamped(db) && Unique(db.usage, TicketOf)
    ensures Unique(Serve(db, r).db.usage, TicketOf)
  {
    hide InRange, StampLess, InLedger, Elapsed, Unique;
    match r
    case SessionEvent(device, ticket, named, event) =>
      if EventAccepted(db, device, ticket, named) {
        RecordUnique(db, ticket, db.tokens[ticket].grant, event);
      }
    case DropPending(user) =>
      CascadeUnique(db.usage, Serve(db, r).db.tokens);
    case DeleteConnection(connection) =>
      CascadeUnique(db.usage, Serve(db, r).db.tokens);
    case _ =>
      OtherRequests(db, r);
  }

  lemma CascadeUnique(usage: seq<Usage>, tokens: map<nat, Token>)
    requires Unique(usage, TicketOf)
    ensures Unique(Cascade(usage, tokens), TicketOf)
  {
    hide Unique;
    SelectUnique(usage, TicketOf, (u: Usage) => u.ticket in tokens);
  }

  lemma RecordUnique(db: DB, ticket: nat, grant: Grant, event: Event)
    requires grant.Launch? && Unique(db.usage, TicketOf)
    ensures Unique(Record(db, ticket, grant, event), TicketOf)
  {
    if !event.Started? {
      var close := (u: Usage) => Close(u, ticket, db.now);
      AmendUnique(db.usage, TicketOf, close);
      assert Record(db, ticket, grant, event) == Amend(db.usage, close);
    }
  }

  lemma LedgerKept(db: DB, r: Request)
    requires Stamped(db) && TokensOk(db) && Ledger(db)
    ensures Ledger(Serve(db, r).db) && Stamped(Serve(db, r).db)
  {
    hide Serve, InRange, InLedger, Unique, RowOk;
    var after := Serve(db, r).db;
    UsageUnique(db, r);
    CountersStep(db, r);
    forall u | u in after.usage ensures RowOk(after, u) {
      RowKept(db, r, u);
    }
    RowsInRange(after);
  }

  lemma RowsInRange(db: DB)
    requires forall u :: u in db.usage ==> RowOk(db, u)
    ensures InLedger(db.usage)
  {
    hide InRange, Elapsed;
    forall i | 0 <= i < |db.usage| ensures InRange(db.usage[i].started) {
      assert RowOk(db, db.usage[i]);
    }
  }

  // ---- One request and the permission tables ----

  predicate TouchesAccess(r: Request) {
    || r.SetUserPermission? || r.SetGroupPermission? || r.SetMembership? || r.CreateConnection?
    || r.UpdateConnection? || r.DeleteConnection? || r.DeleteGroup? || r.DeleteCredential?
  }

  lemma AccessUntouched(db: DB, r: Request)
    requires Stamped(db) && !TouchesAccess(r)
    ensures Serve(db, r).db.access == db.access && db.credentials <= Serve(db, r).db.credentials
  {
    hide InRange, StampLess, StatusOf, Used, CanLaunch, RedeemAccepts, LaunchCredential, EnabledRows, Elapsed, InLedger;
  }

  lemma UserRowKeyed(t: Tables, r: Request)
    requires r.SetUserPermission? && Keyed(t)
    ensures Keyed(SetUserRow(t, r))
  {
    hide Unique;
    if r.allow {
      UpsertUnique(t.userPermissions, UserKey, UserPermission(r.user, r.connection, true, r.credential));
    } else {
      var keep := (p: UserPermission) => UserKey(p) != (r.user, r.connection);
      SelectUnique(t.userPermissions, UserKey, keep);
      assert SetUserRow(t, r).userPermissions == Select(t.userPermissions, keep);
    }
  }

  lemma GroupRowKeyed(t: Tables, r: Request)
    requires r.SetGroupPermission? && Keyed(t)
    ensures Keyed(SetGroupRow(t, r))
  {
    hide Unique;
    if r.allow {
      UpsertUnique(t.groupPermissions, GroupKey, GroupPermission(r.group, r.connection, true, r.credential));
    } else {
      SelectUnique(t.groupPermissions, GroupKey, (p: GroupPermission) => GroupKey(p) != (r.group, r.connection));
    }
  }

  lemma MemberRowKeyed(t: Tables, m: Membership, member: bool)
    requires Keyed(t)
    ensures Keyed(SetMemberRow(t, m, member))
  {
    hide Unique;
    if member {
      UpsertUnique(t.memberships, MemberKey, m);
    } else {
      SelectUnique(t.memberships, MemberKey, (x: Membership) => x != m);
    }
  }

  lemma DropsKeyed(t: Tables, connection: int, group: int)
    requires Keyed(t)
    ensures Keyed(DropConnection(t, connection)) && Keyed(DropGroup(t, group))
  {
    hide Unique;
    SelectUnique(t.connections, ConnectionKey, (c: ConnectionRow) => c.id != connection);
    SelectUnique(t.userPermissions, UserKey, (p: UserPermission) => p.connection != connection);
    SelectUnique(t.groupPermissions, GroupKey, (p: GroupPermission) => p.connection != connection);
    SelectUnique(t.groupPermissions, GroupKey, (p: GroupPermission) => p.group != group);
    SelectUnique(t.memberships, MemberKey, (m: Membership) => m.group != group);
  }

  lemma UnsetKeyed(t: Tables, removed: int)
    requires Keyed(t)
    ensures Keyed(DropCredential(t, removed))
  {
    hide Unique;
    AmendUnique(t.connections, ConnectionKey, (c: ConnectionRow) => c.(credential := Unset(c.credential, removed)));
    AmendUnique(t.userPermissions, UserKey, (p: UserPermission) => p.(credential := Unset(p.credential, removed)));
    AmendUnique(t.groupPermissions, GroupKey, (p: GroupPermission) => p.(credential := Unset(p.credential, removed)));
  }

  lemma KeyedKept(db: DB, r: Request)
    requires Stamped(db) && AccessOk(db)
    ensures Keyed(Serve(db, r).db.access)
  {
    hide Stamped, Unique, DropConnection, DropGroup, DropCredential, SetUserRow, SetGroupRow, SetMemberRow, ServeToken,
         HasConnection, WithoutConnection, Cascade;
    if !TouchesAccess(r) {
      AccessUntouched(db, r);
      return;
    }
    match r
    case SetUserPermission(user, connection, allow, credential) => UserRowKeyed(db.access, r);
    case SetGroupPermission(group, connection, allow, credential) => GroupRowKeyed(db.access, r);
    case SetMembership(user, group, member) => MemberRowKeyed(db.access, Membership(user, group), member);
    case CreateConnection(info, enabled, credential) =>
      AppendUnique(db.access.connections, ConnectionKey, ConnectionRow(db.next, info, enabled, credential));
    case UpdateConnection(connection, info, enabled, credential) =>
      var row := ConnectionRow(connection, info, enabled, credential);
      AmendUnique(db.access.connections, ConnectionKey, (c: ConnectionRow) => if c.id == connection then row else c);
    case DeleteConnection(connection) => DropsKeyed(db.access, connection, 0);
    case DeleteGroup(group) => DropsKeyed(db.access, 0, group);
    case DeleteCredential(removed) => UnsetKeyed(db.access, removed);
  }

  lemma ConnectionsKept(db: DB, r: Request)
    requires Stamped(db) && ConnectionsKnown(db)
    ensures ConnectionsKnown(Serve(db, r).db)
  {
    hide InRange, InLedger, HasConnection, CanLaunch, StatusOf, Used, RedeemAccepts, LaunchCredential, EnabledRows, Record;
    if !TouchesAccess(r) {
      AccessUntouched(db, r);
    }
  }

  lemma UsersKept(db: DB, r: Request)
    requires Stamped(db) && UsersKnown(db)
    ensures UsersKnown(Serve(db, r).db)
  {
    hide InRange, InLedger, HasConnection, CanLaunch, StatusOf, Used, RedeemAccepts, LaunchCredential, EnabledRows, Record;
    if !TouchesAccess(r) {
      AccessUntouched(db, r);
    }
  }

  lemma GroupsKept(db: DB, r: Request)
    requires Stamped(db) && GroupsKnown(db)
    ensures GroupsKnown(Serve(db, r).db)
  {
    hide InRange, InLedger, HasConnection, CanLaunch, StatusOf, Used, RedeemAccepts, LaunchCredential, EnabledRows, Record;
    if !TouchesAccess(r) {
      AccessUntouched(db, r);
    }
  }

  lemma NumbersKept(db: DB, r: Request)
    requires Stamped(db) && NumbersOk(db)
    ensures NumbersOk(Serve(db, r).db)
  {
    hide InRange, InLedger, HasConnection, CanLaunch;
    CountersStep(db, r);
    if !TouchesAccess(r) {
      AccessUntouched(db, r);
    }
  }

  predicate Inserts(r: Request, k: nat) {
    r.InsertLaunch? && r.decision == k
  }

  lemma DecisionsUntouched(db: DB, r: Request)
    requires Stamped(db) && !r.DecideLaunch? && !r.InsertLaunch?
    ensures Serve(db, r).db.decisions == db.decisions
  {
    hide Stamped, WithoutStale, WithoutPending, WithoutConnection, Cascade, Record, CredentialFor, EnabledRows,
         RedeemAccepts, IsAdmin, DeviceEnabled, DropConnection, DropGroup, DropCredential,
         SetUserRow, SetGroupRow, SetMemberRow, HasConnection, InRange, ValidPolicy;
  }

  // A decision is made by deciding, under the next number, and used up by inserting.
  lemma DecisionStep(db: DB, r: Request, k: nat)
    requires Stamped(db) && k in Serve(db, r).db.decisions
    ensures || (k in db.decisions && Serve(db, r).db.decisions[k] == db.decisions[k] && !Inserts(r, k))
            || (k == db.next && r.DecideLaunch? && Serve(db, r).reply == Approved(k) && Serve(db, r).db.next == k + 1
                && Approve(db, r.user, r.connection, r.local).Some?
                && Serve(db, r).db.decisions[k] == Decision(r.user, r.connection, Approve(db, r.user, r.connection, r.local).value))
  {
    hide Stamped, Approve, DeviceEnabled, HasConnection, ServeAccess;
    if !r.DecideLaunch? && !r.InsertLaunch? {
      DecisionsUntouched(db, r);
      hide Serve;
    }
  }

  lemma DecisionsKept(db: DB, r: Request)
    requires Stamped(db) && DecisionsOk(db)
    ensures DecisionsOk(Serve(db, r).db)
  {
    hide Serve, Stamped, Approve;
    CountersStep(db, r);
    forall k | k in Serve(db, r).db.decisions ensures k < Serve(db, r).db.next {
      DecisionStep(db, r, k);
    }
  }

  // Every request keeps all of it.
  lemma DbOkKept(db: DB, r: Request)
    requires DbOk(db)
    ensures DbOk(Serve(db, r).db)
  {
    hide Serve, InRange, InLedger, TokensOk, DecisionsOk, Ledger, ConnectionsKnown, UsersKnown, GroupsKnown, NumbersOk, Keyed;
    TokensKept(db, r);
    DecisionsKept(db, r);
    LedgerKept(db, r);
    KeyedKept(db, r);
    ConnectionsKept(db, r);
    UsersKept(db, r);
    GroupsKept(db, r);
    NumbersKept(db, r);
  }

  lemma EmptyOk()
    ensures DbOk(EMPTY)
  {
  }
}
