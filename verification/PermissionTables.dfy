/** What changes an entitlement: grants, revocations, memberships and deletions. */
module PermissionTables {
  import opened Options
  import opened Rows
  import opened Access
  import opened Controller
  import opened Quota
  import opened Stamps
  import opened ControllerInvariant

  // ---- Rows under a key ----

  lemma {:induction false} UpsertHas<R(!new), K(!new)>(rows: seq<R>, key: R -> K, row: R, x: R)
    requires Unique(rows, key)
    ensures x in Upsert(rows, key, row) <==> x == row || (x in rows && key(x) != key(row))
  {
    if rows != [] {
      TailUnique(rows, key);
      UpsertHas(rows[1..], key, row, x);
      HeadOrTail(rows, x);
      if key(rows[0]) == key(row) {
        HeadKeyOnce(rows, key, x);
      }
    }
  }

  lemma TailUnique<R(!new), K(!new)>(rows: seq<R>, key: R -> K)
    requires rows != [] && Unique(rows, key)
    ensures Unique(rows[1..], key)
  {
  }

  lemma HeadOrTail<R>(rows: seq<R>, x: R)
    requires rows != []
    ensures x in rows <==> x == rows[0] || x in rows[1..]
  {
    assert rows == [rows[0]] + rows[1..];
  }

  lemma HeadKeyOnce<R(!new), K(!new)>(rows: seq<R>, key: R -> K, x: R)
    requires rows != [] && Unique(rows, key)
    ensures x in rows[1..] ==> key(x) != key(rows[0])
  {
    if x in rows[1..] {
      var j :| 0 <= j < |rows[1..]| && rows[1..][j] == x;
      assert rows[j + 1] == x;
    }
  }

  // ---- Direct grants ----

  lemma SetUserGrants(t: Tables, r: Request, user: int, connection: int)
    requires Keyed(t) && r.SetUserPermission?
    ensures GrantsUser(SetUserRow(t, r), user, connection) <==>
              if r.user == user && r.connection == connection then r.allow else GrantsUser(t, user, connection)
  {
    var row := UserPermission(r.user, r.connection, true, r.credential);
    var rows := SetUserRow(t, r).userPermissions;
    if r.allow {
      forall p ensures p in rows <==> p == row || (p in t.userPermissions && UserKey(p) != UserKey(row)) {
        UpsertHas(t.userPermissions, UserKey, row, p);
      }
    }
    hide Upsert, Unique;
    assert forall p :: p in rows && UserKey(p) != (r.user, r.connection) <==> p in t.userPermissions && UserKey(p) != (r.user, r.connection);
    if r.allow {
      assert row in rows;
    }
  }

  // ---- Grants to groups and memberships ----

  lemma SetGroupGrants(t: Tables, r: Request, group: int, connection: int)
    requires Keyed(t) && r.SetGroupPermission?
    ensures GrantsGroup(SetGroupRow(t, r), group, connection) <==>
              if r.group == group && r.connection == connection then r.allow else GrantsGroup(t, group, connection)
  {
    var row := GroupPermission(r.group, r.connection, true, r.credential);
    var rows := SetGroupRow(t, r).groupPermissions;
    if r.allow {
      forall p ensures p in rows <==> p == row || (p in t.groupPermissions && GroupKey(p) != GroupKey(row)) {
        UpsertHas(t.groupPermissions, GroupKey, row, p);
      }
    }
    hide Upsert, Unique;
    assert forall p :: p in rows && GroupKey(p) != (r.group, r.connection)
                       <==> p in t.groupPermissions && GroupKey(p) != (r.group, r.connection);
    if r.allow {
      assert row in rows;
    }
  }

  lemma SetMembers(t: Tables, m: Membership, member: bool, x: Membership)
    requires Keyed(t)
    ensures x in SetMemberRow(t, m, member).memberships <==> if x == m then member else x in t.memberships
  {
    if member {
      UpsertHas(t.memberships, MemberKey, m, x);
    }
  }

  // ---- Deletions ----

  lemma DroppedConnection(t: Tables, gone: int, user: int, group: int, connection: int)
    ensures var after := DropConnection(t, gone);
            && (GrantsUser(after, user, connection) <==> connection != gone && GrantsUser(t, user, connection))
            && (GrantsGroup(after, group, connection) <==> connection != gone && GrantsGroup(t, group, connection))
            && (EnabledConnection(after, connection) <==> connection != gone && EnabledConnection(t, connection))
            && after.memberships == t.memberships
  {
  }

  lemma DroppedGroup(t: Tables, gone: int, group: int, connection: int, m: Membership)
    ensures var after := DropGroup(t, gone);
            && (GrantsGroup(after, group, connection) <==> group != gone && GrantsGroup(t, group, connection))
            && (m in after.memberships <==> m.group != gone && m in t.memberships)
            && after.userPermissions == t.userPermissions && after.connections == t.connections
  {
  }

  lemma DroppedCredential(t: Tables, removed: int, user: int, group: int, connection: int)
    ensures var after := DropCredential(t, removed);
            && (GrantsUser(after, user, connection) <==> GrantsUser(t, user, connection))
            && (GrantsGroup(after, group, connection) <==> GrantsGroup(t, group, connection))
            && (EnabledConnection(after, connection) <==> EnabledConnection(t, connection))
            && after.memberships == t.memberships
  {
    UnsetUsers(t, removed, user, connection);
    UnsetGroups(t, removed, group, connection);
    UnsetConnections(t, removed, connection);
  }

  lemma UnsetUsers(t: Tables, removed: int, user: int, connection: int)
    ensures GrantsUser(DropCredential(t, removed), user, connection) <==> GrantsUser(t, user, connection)
  {
    var rows, after := t.userPermissions, DropCredential(t, removed).userPermissions;
    if p :| p in rows && p.user == user && p.connection == connection && p.canLaunch {
      var i :| 0 <= i < |rows| && rows[i] == p;
      assert after[i] in after;
    }
    if p :| p in after && p.user == user && p.connection == connection && p.canLaunch {
      var i :| 0 <= i < |after| && after[i] == p;
      assert rows[i] in rows;
    }
  }

  lemma UnsetGroups(t: Tables, removed: int, group: int, connection: int)
    ensures GrantsGroup(DropCredential(t, removed), group, connection) <==> GrantsGroup(t, group, connection)
  {
    var rows, after := t.groupPermissions, DropCredential(t, removed).groupPermissions;
    if p :| p in rows && p.group == group && p.connection == connection && p.canLaunch {
      var i :| 0 <= i < |rows| && rows[i] == p;
      assert after[i] in after;
    }
    if p :| p in after && p.group == group && p.connection == connection && p.canLaunch {
      var i :| 0 <= i < |after| && after[i] == p;
      assert rows[i] in rows;
    }
  }

  lemma UnsetConnections(t: Tables, removed: int, connection: int)
    ensures EnabledConnection(DropCredential(t, removed), connection) <==> EnabledConnection(t, connection)
  {
    var rows, after := t.connections, DropCredential(t, removed).connections;
    if c :| c in rows && c.id == connection && c.enabled {
      var i :| 0 <= i < |rows| && rows[i] == c;
      assert after[i] in after;
    }
    if c :| c in after && c.id == connection && c.enabled {
      var i :| 0 <= i < |after| && after[i] == c;
      assert rows[i] in rows;
    }
  }

  lemma UpdatedConnection(rows: seq<ConnectionRow>, row: ConnectionRow, after: seq<ConnectionRow>)
    requires |after| == |rows| && forall i :: 0 <= i < |rows| ==> after[i] == if rows[i].id == row.id then row else rows[i]
    ensures forall c :: c in after <==> (c == row && exists d :: d in rows && d.id == row.id) || (c in rows && c.id != row.id)
  {
    forall c | (c == row && exists d :: d in rows && d.id == row.id) || (c in rows && c.id != row.id) ensures c in after {
      if c == row && exists d :: d in rows && d.id == row.id {
        var d :| d in rows && d.id == row.id;
        var i :| 0 <= i < |rows| && rows[i] == d;
        assert after[i] == c;
      } else {
        var i :| 0 <= i < |rows| && rows[i] == c;
        assert after[i] == c;
      }
    }
    forall c | c in after
      ensures (c == row && exists d :: d in rows && d.id == row.id) || (c in rows && c.id != row.id)
    {
      var i :| 0 <= i < |after| && after[i] == c;
      assert rows[i] in rows;
    }
  }

  // ---- One request ----

  // Only a grant, a revocation or the deletion of the connection changes what a
  // user is granted directly.
  lemma UserGrantStep(db: DB, r: Request, user: int, connection: int)
    requires Stamped(db) && Keyed(db.access)
    ensures GrantsUser(Serve(db, r).db.access, user, connection) <==>
              if r.SetUserPermission? && r.user == user && r.connection == connection && Serve(db, r).reply.Done? then r.allow
              else r != DeleteConnection(connection) && GrantsUser(db.access, user, connection)
  {
    hide Stamped, HasConnection, KnownCredential, Unique, SetUserRow, SetGroupRow, SetMemberRow,
         DropConnection, DropGroup, DropCredential, ServeToken, Amend;
    if !TouchesAccess(r) {
      AccessUntouched(db, r);
    } else if r.SetUserPermission? {
      SetUserGrants(db.access, r, user, connection);
    } else if r.DeleteConnection? {
      DroppedConnection(db.access, r.connection, user, 0, connection);
    } else if r.DeleteCredential? {
      DroppedCredential(db.access, r.removed, user, 0, connection);
    } else {
      OtherRows(db, r);
      hide Serve;
    }
  }

  // Which tables a request leaves as they are.
  ghost predicate LeavesRows(r: Request, t: Tables, t': Tables) {
    && (!r.SetUserPermission? && !r.DeleteConnection? && !r.DeleteCredential? ==> t'.userPermissions == t.userPermissions)
    && (!r.SetGroupPermission? && !r.DeleteConnection? && !r.DeleteGroup? && !r.DeleteCredential? ==>
          t'.groupPermissions == t.groupPermissions)
    && (!r.SetMembership? && !r.DeleteGroup? ==> t'.memberships == t.memberships)
    && (!r.CreateConnection? && !r.UpdateConnection? && !r.DeleteConnection? && !r.DeleteCredential? ==>
          t'.connections == t.connections)
  }

  lemma OtherAccess(db: DB, r: Request)
    ensures LeavesRows(r, db.access, ServeAccess(db, r).db.access)
  {
    hide HasConnection, KnownCredential, Cascade, WithoutConnection, WithoutPending;
    if r.SetUserPermission? || r.SetGroupPermission? || r.SetMembership? {
      hide DropConnection, DropGroup, DropCredential;
    } else {
      hide SetUserRow, SetGroupRow, SetMemberRow;
    }
  }

  lemma OtherRows(db: DB, r: Request)
    requires Stamped(db)
    ensures LeavesRows(r, db.access, Serve(db, r).db.access)
  {
    hide Serve, ServeAccess, Stamped;
    if !TouchesAccess(r) {
      AccessUntouched(db, r);
    } else {
      ByAccess(db, r);
      OtherAccess(db, r);
    }
  }

  lemma ByAccess(db: DB, r: Request)
    requires Stamped(db) && TouchesAccess(r)
    ensures Serve(db, r) == ServeAccess(db, r)
  {
    hide ServeAccess, Stamped;
  }

  // Only a grant to the group, its revocation or a deletion changes what a group
  // is granted.
  lemma GroupGrantStep(db: DB, r: Request, group: int, connection: int)
    requires Stamped(db) && Keyed(db.access)
    ensures GrantsGroup(Serve(db, r).db.access, group, connection) <==>
              if r.SetGroupPermission? && r.group == group && r.connection == connection && Serve(db, r).reply.Done? then r.allow
              else r != DeleteConnection(connection) && r != DeleteGroup(group) && GrantsGroup(db.access, group, connection)
  {
    hide Stamped, HasConnection, KnownCredential, Unique, SetUserRow, SetGroupRow, SetMemberRow,
         DropConnection, DropGroup, DropCredential, ServeToken, Amend;
    OtherRows(db, r);
    if r.SetGroupPermission? {
      SetGroupGrants(db.access, r, group, connection);
    } else if r.DeleteConnection? {
      DroppedConnection(db.access, r.connection, 0, group, connection);
    } else if r.DeleteGroup? {
      DroppedGroup(db.access, r.group, group, connection, Membership(0, 0));
    } else if r.DeleteCredential? {
      DroppedCredential(db.access, r.removed, 0, group, connection);
    } else {
      hide Serve;
    }
  }

  // Only setting the membership or deleting the group changes who belongs to it.
  lemma MemberStep(db: DB, r: Request, m: Membership)
    requires Stamped(db) && Keyed(db.access)
    ensures m in Serve(db, r).db.access.memberships <==>
              if r.SetMembership? && r.user == m.user && r.group == m.group && Serve(db, r).reply.Done? then r.member
              else r != DeleteGroup(m.group) && m in db.access.memberships
  {
    hide Stamped, HasConnection, KnownCredential, Unique, SetUserRow, SetGroupRow, SetMemberRow,
         DropConnection, DropGroup, DropCredential, ServeToken, Amend;
    OtherRows(db, r);
    if r.SetMembership? {
      SetMembers(db.access, Membership(r.user, r.group), r.member, m);
    } else if r.DeleteGroup? {
      DroppedGroup(db.access, r.group, 0, 0, m);
    } else {
      hide Serve;
    }
  }

  // Only creating, updating or deleting the connection enables or disables it.
  lemma EnabledStep(db: DB, r: Request, connection: int)
    requires Stamped(db) && NumbersOk(db)
    ensures EnabledConnection(Serve(db, r).db.access, connection) <==>
              if r.CreateConnection? && Serve(db, r).reply.Issued? && Serve(db, r).reply.id == connection then r.enabled
              else if r.UpdateConnection? && r.connection == connection && Serve(db, r).reply.Done?
              then r.enabled && exists c :: c in db.access.connections && c.id == connection
              else r != DeleteConnection(connection) && EnabledConnection(db.access, connection)
  {
    hide Stamped, HasConnection, KnownCredential, SetUserRow, SetGroupRow, SetMemberRow,
         DropConnection, DropGroup, DropCredential, ServeToken;
    OtherRows(db, r);
    if r.UpdateConnection? && Serve(db, r).reply.Done? {
      UpdatedConnection(db.access.connections, ConnectionRow(r.connection, r.info, r.enabled, r.credential),
                        Serve(db, r).db.access.connections);
      hide Serve;
    } else if r.DeleteConnection? {
      DroppedConnection(db.access, r.connection, 0, 0, connection);
    } else if r.DeleteCredential? {
      DroppedCredential(db.access, r.removed, 0, 0, connection);
    } else if !r.CreateConnection? && !r.UpdateConnection? {
      hide Serve;
    }
  }

  // After a revocation a user can launch the connection only through a group;
  // after a grant the user can launch it if it is enabled.
  lemma AfterSetting(db: DB, r: Request)
    requires Stamped(db) && Keyed(db.access) && r.SetUserPermission? && Serve(db, r).reply.Done?
    ensures var t := Serve(db, r).db.access;
            CanLaunch(t, r.user, r.connection) <==>
              && EnabledConnection(t, r.connection)
              && (r.allow || exists m :: m in t.memberships && m.user == r.user && GrantsGroup(t, m.group, r.connection))
  {
    hide Serve, Stamped, Unique, CanLaunch, GrantsUser, GrantsGroup, EnabledConnection;
    UserGrantStep(db, r, r.user, r.connection);
    CanLaunchMeans(Serve(db, r).db.access, r.user, r.connection);
  }

  // A grant stores its credential, in the place of the one before.
  lemma GrantStored(db: DB, r: Request)
    requires Stamped(db) && Keyed(db.access) && Serve(db, r).reply.Done?
    ensures r.SetUserPermission? && r.allow ==>
              forall p :: p in Serve(db, r).db.access.userPermissions && p.user == r.user && p.connection == r.connection
                <==> p == UserPermission(r.user, r.connection, true, r.credential)
    ensures r.SetGroupPermission? && r.allow ==>
              forall p :: p in Serve(db, r).db.access.groupPermissions && p.group == r.group && p.connection == r.connection
                <==> p == GroupPermission(r.group, r.connection, true, r.credential)
  {
    hide Stamped, HasConnection, KnownCredential, ServeToken;
    if r.SetUserPermission? && r.allow {
      var row := UserPermission(r.user, r.connection, true, r.credential);
      forall p ensures p in Upsert(db.access.userPermissions, UserKey, row)
                       <==> p == row || (p in db.access.userPermissions && UserKey(p) != UserKey(row)) {
        UpsertHas(db.access.userPermissions, UserKey, row, p);
      }
    }
    if r.SetGroupPermission? && r.allow {
      var row := GroupPermission(r.group, r.connection, true, r.credential);
      forall p ensures p in Upsert(db.access.groupPermissions, GroupKey, row)
                       <==> p == row || (p in db.access.groupPermissions && GroupKey(p) != GroupKey(row)) {
        UpsertHas(db.access.groupPermissions, GroupKey, row, p);
      }
    }
    hide Upsert, Unique;
  }

  // So do creating and updating a connection.
  lemma ConnectionStored(db: DB, r: Request)
    requires Stamped(db) && NumbersOk(db)
    ensures r.CreateConnection? && Serve(db, r).reply.Issued? ==>
              forall c :: c in Serve(db, r).db.access.connections && c.id == Serve(db, r).reply.id
                <==> c == ConnectionRow(Serve(db, r).reply.id, r.info, r.enabled, r.credential)
    ensures r.UpdateConnection? && Serve(db, r).reply.Done? ==>
              forall c :: c in Serve(db, r).db.access.connections && c.id == r.connection ==>
                c == ConnectionRow(r.connection, r.info, r.enabled, r.credential)
  {
    hide Stamped, HasConnection, KnownCredential, ServeToken;
    if r.UpdateConnection? && Serve(db, r).reply.Done? {
      UpdatedConnection(db.access.connections, ConnectionRow(r.connection, r.info, r.enabled, r.credential),
                        Serve(db, r).db.access.connections);
      hide Serve;
    }
  }

  // ---- Users and devices ----

  lemma AccessLeavesRest(db: DB, r: Request)
    ensures ServeAccess(db, r).db.users == db.users && ServeAccess(db, r).db.devices == db.devices
  {
    hide Cascade, WithoutConnection, DropConnection, DropGroup, DropCredential, SetUserRow, SetGroupRow, SetMemberRow,
         HasConnection, KnownCredential, Amend;
  }

  lemma TokensLeaveUsers(db: DB, r: Request)
    requires Stamped(db)
    ensures ServeToken(db, r).db.users == db.users
    ensures !r.Enrol? ==> ServeToken(db, r).db.devices == db.devices
  {
    hide Stamped, WithoutStale, Approve, CredentialFor, EnabledRows, RedeemAccepts, IsAdmin, DeviceEnabled, HasConnection;
  }

  // Users change only by being created or updated, devices by enrolling or being
  // switched.
  lemma UserStep(db: DB, r: Request, user: int)
    requires Stamped(db)
    ensures var before, after := db.users, Serve(db, r).db.users;
            if r.CreateUser? && Serve(db, r).reply.id == user then user in after && after[user] == User(r.admin, r.enabled)
            else if r.UpdateUser? && r.user == user && user in before
            then user in after && after[user] == User(r.admin, r.enabled)
            else (user in after <==> user in before) && (user in before ==> after[user] == before[user])
  {
    hide Stamped, ServeAccess, ServeToken, WithoutPending, Cascade, Record, ValidPolicy, EventAccepted, InRange;
    AccessLeavesRest(db, r);
    TokensLeaveUsers(db, r);
  }

  lemma DeviceStep(db: DB, r: Request, device: int)
    requires Stamped(db)
    ensures var before, after := db.devices, Serve(db, r).db.devices;
            if r.Enrol? && r.device == device && Serve(db, r).reply.Redeemed? then device in after && after[device]
            else if r.UpdateDevice? && r.device == device && device in before then device in after && after[device] == r.enabled
            else (device in after <==> device in before) && (device in before ==> after[device] == before[device])
  {
    hide Stamped, ServeAccess, WithoutPending, Cascade, Record, ValidPolicy, EventAccepted, InRange;
    AccessLeavesRest(db, r);
    if r.Enrol? {
      Enrolled(db, r, device);
    } else {
      TokensLeaveUsers(db, r);
      hide ServeToken;
    }
  }

  lemma Enrolled(db: DB, r: Request, device: int)
    requires Stamped(db) && r.Enrol?
    ensures var before, after := db.devices, Serve(db, r).db.devices;
            if r.device == device && Serve(db, r).reply.Redeemed? then device in after && after[device]
            else (device in after <==> device in before) && (device in before ==> after[device] == before[device])
  {
    hide Stamped;
  }
}
