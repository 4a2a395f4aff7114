/** The controller's store: each method changes the tables statement by statement
  * and is one step of `Controller.Serve`.
  */
module Stores {
  import opened Options
  import opened Rows
  import opened Access
  import Quota
  import opened Controller

  class Store {
    var access: Tables
    var users: map<int, User>
    var devices: map<int, bool>
    var groups: set<int>
    var credentials: set<int>
    var policies: map<int, Quota.Policy>
    var tokens: map<nat, Token>
    var usage: seq<Quota.Usage>
    var decisions: map<nat, Decision>
    var next: nat
    var now: int
    const ticketLife: int

    function Db(): DB
      reads this
    {
      DB(access, users, devices, groups, credentials, policies, tokens, usage, decisions, next, now)
    }

    constructor (life: int)
      ensures Db() == EMPTY && ticketLife == life
    {
      access := Tables([], [], [], []);
      users, devices, groups, credentials, policies, tokens, usage := map[], map[], {}, {}, map[], map[], [];
      decisions, next, now := map[], 0, 0;
      ticketLife := life;
    }

    method Insert(grant: Grant, expires: int) returns (id: nat)
      modifies this`tokens, this`next
      ensures id == old(next) && Issue(old(Db()), grant, expires) == Outcome(Db(), Issued(id))
    {
      id := next;
      tokens := tokens[id := Token(grant, expires, None)];
      next := next + 1;
    }

    // UPDATE ... SET redeemed_at=? WHERE id=? AND redeemed_at IS NULL.
    method MarkRedeemed(token: nat) returns (changed: nat)
      modifies this`tokens
      ensures Db() == Spend(old(Db()), token)
      ensures changed == if token in old(tokens) && old(tokens)[token].redeemed.None? then 1 else 0
    {
      changed := 0;
      if token in tokens && tokens[token].redeemed.None? {
        tokens := tokens[token := tokens[token].(redeemed := Some(now))];
        changed := 1;
      }
    }

    // The queries of a launch request.
    method DecideLaunchTicket(user: int, connection: int, local: LocalTime) returns (reply: Reply)
      requires Stamped(Db())
      modifies this`decisions, this`next
      ensures Outcome(Db(), reply) == Serve(old(Db()), DecideLaunch(user, connection, local))
    {
      hide Stamped, CanLaunch, Quota.StatusOf, Quota.Used;
      reply := Refused;
      if !CanLaunch(access, user, connection) {
        return;
      }
      var policy := if user in policies then policies[user] else Quota.DEFAULT_POLICY;
      StampedParts(Db());
      var status := Quota.PolicyStatus(policy, local, usage, user, now);
      if !status.allowed {
        return;
      }
      reply := Approved(next);
      decisions := decisions[next := Decision(user, connection, status.capSeconds)];
      next := next + 1;
    }

    // Its device query and its insertion.
    method InsertLaunchTicket(decision: nat, device: int) returns (reply: Reply)
      requires Stamped(Db()) && decision in decisions
      modifies this`decisions, this`tokens, this`next
      ensures Outcome(Db(), reply) == Serve(old(Db()), InsertLaunch(decision, device, ticketLife))
    {
      hide Stamped;
      reply := Refused;
      var d := decisions[decision];
      decisions := decisions - {decision};
      if !(device in devices && devices[device]) {
        return;
      }
      // The foreign key to the connection.
      if !(exists c :: c in access.connections && c.id == d.connection) {
        return;
      }
      var id := Insert(Launch(d.user, device, d.connection, d.cap), now + ticketLife);
      reply := Issued(id);
    }

    method CreateLaunchTicket(user: int, connection: int, device: int, local: LocalTime) returns (reply: Reply)
      requires Stamped(Db())
      modifies this`decisions, this`tokens, this`next
      ensures var decided := Serve(old(Db()), DecideLaunch(user, connection, local));
              Outcome(Db(), reply)
              == if decided.reply.Approved?
                 then StampedAfter(old(Db()), DecideLaunch(user, connection, local));
                      Serve(decided.db, InsertLaunch(decided.reply.id, device, ticketLife))
                 else decided
    {
      hide Serve, Stamped;
      ghost var before := Db();
      reply := DecideLaunchTicket(user, connection, local);
      if reply.Approved? {
        StampedAfter(before, DecideLaunch(user, connection, local));
        DecidedHeld(before, user, connection, local);
        reply := InsertLaunchTicket(reply.id, device);
      }
    }

    method RedeemLaunchTicket(token: nat, device: int) returns (reply: Reply)
      requires Stamped(Db())
      modifies this`tokens
      ensures Outcome(Db(), reply) == Serve(old(Db()), RedeemLaunch(token, device))
    {
      hide Stamped, Permitted, EnabledRows, LaunchCredential;
      reply := Refused;
      // The device is looked up before the ticket.
      if !(device in devices && devices[device]) {
        return;
      }
      if token !in tokens || !tokens[token].grant.Launch? || tokens[token].grant.device != device {
        return;
      }
      var t := tokens[token];
      var rows := EnabledRows(access, t.grant.connection);
      if rows == [] || t.redeemed.Some? {
        return;
      }
      var credential := LaunchCredential(access, t.grant.user, rows[0]);
      if now >= t.expires {
        return;
      }
      if !Permitted(access, t.grant.user, t.grant.connection) {
        return;
      }
      var changed := MarkRedeemed(token);
      if changed == 1 {
        reply := Redeemed(t.grant, credential);
      }
    }

    method CreateMaintenanceTicket(user: int, device: int) returns (reply: Reply)
      requires Stamped(Db())
      modifies this`tokens, this`next
      ensures Outcome(Db(), reply) == Serve(old(Db()), CreateMaintenance(user, device, ticketLife))
    {
      hide Stamped;
      reply := Refused;
      if user in users && device in devices && devices[device] && users[user].enabled && users[user].admin {
        var id := Insert(Maintenance(user, device), now + ticketLife);
        reply := Issued(id);
      }
    }

    method RedeemMaintenanceTicket(token: nat, device: int) returns (reply: Reply)
      requires Stamped(Db())
      modifies this`tokens
      ensures Outcome(Db(), reply) == Serve(old(Db()), RedeemMaintenance(token, device))
    {
      hide Stamped;
      reply := Refused;
      if !(device in devices && devices[device]) {
        return;
      }
      if token !in tokens || !tokens[token].grant.Maintenance? || tokens[token].grant.device != device {
        return;
      }
      var t := tokens[token];
      if !(t.grant.user in users && users[t.grant.user].enabled && users[t.grant.user].admin) || t.redeemed.Some? {
        return;
      }
      if now >= t.expires {
        return;
      }
      var changed := MarkRedeemed(token);
      if changed == 1 {
        reply := Redeemed(t.grant, None);
      }
    }

    method CreateAdminHandoff(user: int) returns (reply: Reply)
      requires Stamped(Db())
      modifies this`tokens, this`next
      ensures Outcome(Db(), reply) == Serve(old(Db()), CreateHandoff(user))
    {
      hide Stamped, StaleHandoff;
      reply := Refused;
      if user in users && users[user].admin && users[user].enabled {
        tokens := WithoutStale(tokens, now);
        var id := Insert(Handoff(user), now + HANDOFF_LIFE);
        reply := Issued(id);
      }
    }

    method RedeemAdminHandoff(token: nat) returns (reply: Reply)
      requires Stamped(Db())
      modifies this`tokens
      ensures Outcome(Db(), reply) == Serve(old(Db()), RedeemHandoff(token))
    {
      hide Stamped;
      reply := Refused;
      if token !in tokens || !tokens[token].grant.Handoff? {
        return;
      }
      var t := tokens[token];
      if !(t.grant.user in users && users[t.grant.user].admin && users[t.grant.user].enabled) {
        return;
      }
      if t.redeemed.Some? || now >= t.expires {
        return;
      }
      var changed := MarkRedeemed(token);
      if changed == 1 {
        reply := Redeemed(t.grant, None);
      }
    }

    method EnrolDevice(token: nat, device: int) returns (reply: Reply)
      requires Stamped(Db())
      modifies this`tokens, this`devices
      ensures Outcome(Db(), reply) == Serve(old(Db()), Enrol(token, device))
    {
      hide Stamped;
      reply := Refused;
      if token !in tokens || !tokens[token].grant.Enrolment? || tokens[token].redeemed.Some? {
        return;
      }
      var t := tokens[token];
      if now >= t.expires {
        return;
      }
      // The UNIQUE constraint rolls the transaction back.
      if device in devices {
        return;
      }
      devices := devices[device := true];
      var changed := MarkRedeemed(token);
      reply := Redeemed(t.grant, None);
    }

    method RecordSessionEvent(device: int, ticket: nat, named: Option<int>, event: Event) returns (reply: Reply)
      requires Stamped(Db())
      modifies this`usage
      ensures Outcome(Db(), reply) == Serve(old(Db()), SessionEvent(device, ticket, named, event))
    {
      hide Stamped, Quota.Elapsed;
      reply := Refused;
      if !(device in devices && devices[device]) {
        return;
      }
      if !(ticket in tokens && tokens[ticket].grant.Launch? && tokens[ticket].grant.device == device
           && tokens[ticket].redeemed.Some?) {
        return;
      }
      var g := tokens[ticket].grant;
      if named != Some(g.connection) {
        return;
      }
      reply := Done;
      if event.Started? {
        if !(exists u :: u in usage && u.ticket == ticket) {
          usage := usage + [Quota.Usage(ticket, g.user, device, g.connection, now, None, 0)];
        }
      } else {
        CloseRows(ticket);
      }
    }

    // UPDATE session_usage SET ended_at=?,duration_seconds=? WHERE ticket_id=? AND ended_at IS NULL.
    method CloseRows(ticket: nat)
      modifies this`usage
      ensures usage == CloseAll(old(usage), ticket, now)
    {
      hide Quota.Elapsed;
      ghost var before := usage;
      for i := 0 to |usage|
        invariant |usage| == |before| && i <= |before|
        invariant forall k :: 0 <= k < i ==> usage[k] == Close(before[k], ticket, now)
        invariant forall k :: i <= k < |before| ==> usage[k] == before[k]
      {
        var row := usage[i];
        if row.ticket == ticket && row.ended.None? {
          usage := usage[i := row.(ended := Some(now), duration := Quota.Elapsed(row.started, now))];
        }
      }
    }

    method CreateEnrolmentToken(minutes: int) returns (reply: Reply)
      requires Stamped(Db())
      modifies this`tokens, this`next
      ensures Outcome(Db(), reply) == Serve(old(Db()), CreateEnrolment(minutes))
    {
      hide Stamped;
      reply := Refused;
      if minutes < 1 || minutes > 1440 {
        return;
      }
      var id := Insert(Enrolment, now + minutes * MINUTE);
      reply := Issued(id);
    }

    // ---- Administration ----

    method SetPermission(forGroup: bool, subject: int, connection: int, allow: bool, credential: Option<int>)
      returns (reply: Reply)
      requires Stamped(Db())
      modifies this`access
      ensures Outcome(Db(), reply)
           == Serve(old(Db()), if forGroup then SetGroupPermission(subject, connection, allow, credential)
                               else SetUserPermission(subject, connection, allow, credential))
    {
      hide Stamped;
      reply := Refused;
      if allow {
        if !(exists c :: c in access.connections && c.id == connection) {
          return;
        }
        if credential.Some? && credential.value !in credentials {
          return;
        }
        if forGroup {
          if subject !in groups {
            return;
          }
          access := access.(groupPermissions :=
            Upsert(access.groupPermissions, GroupKey, GroupPermission(subject, connection, true, credential)));
        } else {
          if subject !in users {
            return;
          }
          access := access.(userPermissions :=
            Upsert(access.userPermissions, UserKey, UserPermission(subject, connection, true, credential)));
        }
      } else if forGroup {
        access := access.(groupPermissions :=
          Select(access.groupPermissions, (p: GroupPermission) => GroupKey(p) != (subject, connection)));
      } else {
        access := access.(userPermissions :=
          Select(access.userPermissions, (p: UserPermission) => UserKey(p) != (subject, connection)));
      }
      reply := Done;
    }

    method SetMember(user: int, group: int, member: bool) returns (reply: Reply)
      requires Stamped(Db())
      modifies this`access
      ensures Outcome(Db(), reply) == Serve(old(Db()), SetMembership(user, group, member))
    {
      hide Stamped;
      reply := Refused;
      var row := Membership(user, group);
      if member {
        if user !in users || group !in groups {
          return;
        }
        access := access.(memberships := Upsert(access.memberships, MemberKey, row));
      } else {
        access := access.(memberships := Select(access.memberships, (x: Membership) => x != row));
      }
      reply := Done;
    }

    method SetDevice(device: int, enabled: bool) returns (revoked: bool)
      requires Stamped(Db())
      modifies this`devices
      ensures Outcome(Db(), Done) == Serve(old(Db()), UpdateDevice(device, enabled))
      ensures revoked == !enabled
    {
      hide Stamped;
      if device in devices {
        devices := devices[device := enabled];
      }
      revoked := !enabled;
    }

    method SavePolicyOf(user: int, policy: Quota.Policy) returns (reply: Reply)
      requires Stamped(Db())
      modifies this`policies, this`tokens, this`usage
      ensures var saved := Serve(old(Db()), SavePolicy(user, policy));
              Outcome(Db(), reply)
              == if saved.reply.Done?
                 then StampedAfter(old(Db()), SavePolicy(user, policy)); Serve(saved.db, DropPending(user))
                 else saved
    {
      hide Stamped, Quota.ValidPolicy;
      reply := Refused;
      if !Quota.ValidPolicy(policy) || user !in users {
        return;
      }
      policies := policies[user := policy];
      tokens := WithoutPending(tokens, user);
      usage := Cascade(usage, tokens);
      reply := Done;
    }

    method RemoveConnection(connection: int) returns (reply: Reply)
      requires Stamped(Db())
      modifies this`access, this`tokens, this`usage
      ensures Outcome(Db(), reply) == Serve(old(Db()), DeleteConnection(connection))
    {
      hide Stamped, DropConnection;
      access := DropConnection(access, connection);
      tokens := WithoutConnection(tokens, connection);
      usage := Cascade(usage, tokens);
      reply := Done;
    }
  }

  lemma StampedAfter(db: DB, r: Request)
    requires Stamped(db) && (r.DecideLaunch? || r.SavePolicy?)
    ensures Stamped(Serve(db, r).db)
  {
    hide Approve, Quota.ValidPolicy, Quota.InLedger;
  }

  lemma DecidedHeld(db: DB, user: int, connection: int, local: LocalTime)
    requires Stamped(db) && Serve(db, DecideLaunch(user, connection, local)).reply.Approved?
    ensures var after := Serve(db, DecideLaunch(user, connection, local)); after.reply.id in after.db.decisions
  {
    hide Stamped, Approve;
  }

  lemma StampedParts(db: DB)
    requires Stamped(db)
    ensures Quota.InLedger(db.usage)
  {
  }
}
