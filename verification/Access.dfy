/** Who may launch what: three differently written queries over the permission
  * tables, and the credential a launch uses.
  *
  * A table is a sequence of rows with a primary key; a query is the sequence of
  * rows SQL produces for it, joins, NULLs and duplicates included.
  */
module Access {
  import opened Options
  import opened Rows

  datatype ConnectionRow = ConnectionRow(id: int, info: string, enabled: bool, credential: Option<int>)
  datatype UserPermission = UserPermission(user: int, connection: int, canLaunch: bool, credential: Option<int>)
  datatype GroupPermission = GroupPermission(group: int, connection: int, canLaunch: bool, credential: Option<int>)
  datatype Membership = Membership(user: int, group: int)

  datatype Tables = Tables(
    connections: seq<ConnectionRow>,
    userPermissions: seq<UserPermission>,
    groupPermissions: seq<GroupPermission>,
    memberships: seq<Membership>)

  function ConnectionKey(c: ConnectionRow): int {
    c.id
  }

  function UserKey(p: UserPermission): (int, int) {
    (p.user, p.connection)
  }

  function GroupKey(p: GroupPermission): (int, int) {
    (p.group, p.connection)
  }

  function MemberKey(m: Membership): (int, int) {
    (m.user, m.group)
  }

  // Primary keys.
  ghost predicate Keyed(t: Tables) {
    && Unique(t.connections, ConnectionKey)
    && Unique(t.userPermissions, UserKey)
    && Unique(t.groupPermissions, GroupKey)
    && Unique(t.memberships, MemberKey)
  }

  // ---- SQL ----

  datatype Truth = True | False | Unknown

  function And(a: Truth, b: Truth): Truth {
    if a.False? || b.False? then False else if a.True? && b.True? then True else Unknown
  }

  function Or(a: Truth, b: Truth): Truth {
    if a.True? || b.True? then True else if a.False? && b.False? then False else Unknown
  }

  function Is(b: bool): Truth {
    if b then True else False
  }

  function Somes<R(!new)>(rows: seq<R>): (r: seq<Option<R>>)
    ensures forall o :: o in r <==> o.Some? && o.value in rows
  {
    if rows == [] then [] else [Some(rows[0])] + Somes(rows[1..])
  }

  // The right side of a LEFT JOIN for one left row: the matches, or one NULL.
  function LeftJoin<R(!new)>(rows: seq<R>, on: R -> bool): (r: seq<Option<R>>)
    ensures forall o :: o in r <==> match o case Some(x) => x in rows && on(x) case None => forall x :: x in rows ==> !on(x)
  {
    var matches := Select(rows, on);
    if matches == [] then
      assert forall x :: x in rows ==> x in matches || !on(x);
      [None]
    else
      assert matches[0] in rows && on(matches[0]);
      Somes(matches)
  }

  function Distinct<R(==,!new)>(rows: seq<R>): (r: seq<R>)
    ensures forall x :: x in r <==> x in rows
    ensures forall i, j :: 0 <= i < j < |r| ==> r[i] != r[j]
  {
    if rows == [] then [] else
    var rest := Distinct(rows[1..]);
    if rows[0] in rest then rest else [rows[0]] + rest
  }

  // ---- The listing query ----

  datatype Joined = Joined(
    c: ConnectionRow, up: Option<UserPermission>, gp: Option<GroupPermission>, ug: Option<Membership>)

  predicate OnUser(c: ConnectionRow, user: int, p: UserPermission) {
    p.connection == c.id && p.user == user
  }

  predicate OnGroup(c: ConnectionRow, p: GroupPermission) {
    p.connection == c.id
  }

  // With no group permission on the left the condition is unknown.
  predicate OnMember(gp: Option<GroupPermission>, user: int, m: Membership) {
    gp.Some? && m.group == gp.value.group && m.user == user
  }

  function JoinMembers(c: ConnectionRow, up: Option<UserPermission>, gp: Option<GroupPermission>,
                       ugs: seq<Option<Membership>>): (r: seq<Joined>)
    ensures forall j :: j in r <==> j.c == c && j.up == up && j.gp == gp && j.ug in ugs
  {
    if ugs == [] then [] else [Joined(c, up, gp, ugs[0])] + JoinMembers(c, up, gp, ugs[1..])
  }

  function JoinGroups(t: Tables, user: int, c: ConnectionRow, up: Option<UserPermission>,
                      gps: seq<Option<GroupPermission>>): (r: seq<Joined>)
    ensures forall j :: j in r <==>
              j.c == c && j.up == up && j.gp in gps
              && j.ug in LeftJoin(t.memberships, m => OnMember(j.gp, user, m))
  {
    if gps == [] then []
    else JoinMembers(c, up, gps[0], LeftJoin(t.memberships, m => OnMember(gps[0], user, m)))
         + JoinGroups(t, user, c, up, gps[1..])
  }

  function JoinUsers(t: Tables, user: int, c: ConnectionRow, ups: seq<Option<UserPermission>>): (r: seq<Joined>)
    ensures forall j :: j in r <==>
              j.c == c && j.up in ups
              && j.gp in LeftJoin(t.groupPermissions, p => OnGroup(c, p))
              && j.ug in LeftJoin(t.memberships, m => OnMember(j.gp, user, m))
  {
    if ups == [] then []
    else JoinGroups(t, user, c, ups[0], LeftJoin(t.groupPermissions, p => OnGroup(c, p)))
         + JoinUsers(t, user, c, ups[1..])
  }

  function JoinAll(t: Tables, user: int, connections: seq<ConnectionRow>): (r: seq<Joined>)
    ensures forall j :: j in r <==>
              j.c in connections
              && j.up in LeftJoin(t.userPermissions, p => OnUser(j.c, user, p))
              && j.gp in LeftJoin(t.groupPermissions, p => OnGroup(j.c, p))
              && j.ug in LeftJoin(t.memberships, m => OnMember(j.gp, user, m))
  {
    if connections == [] then []
    else JoinUsers(t, user, connections[0], LeftJoin(t.userPermissions, p => OnUser(connections[0], user, p)))
         + JoinAll(t, user, connections[1..])
  }

  function Launchable(j: Joined): Truth {
    And(Is(j.c.enabled),
        Or(if j.up.None? then Unknown else Is(j.up.value.canLaunch),
           And(if j.gp.None? then Unknown else Is(j.gp.value.canLaunch), Is(j.ug.Some?))))
  }

  datatype Listed = Listed(id: int, info: string)

  function Project(rows: seq<Joined>): (r: seq<Listed>)
    ensures |r| == |rows| && forall i :: 0 <= i < |r| ==> r[i] == Listed(rows[i].c.id, rows[i].c.info)
  {
    if rows == [] then [] else [Listed(rows[0].c.id, rows[0].c.info)] + Project(rows[1..])
  }

  // The rows of the join that pass the WHERE clause.
  function KeptRows(t: Tables, user: int): (r: seq<Joined>)
    ensures forall j :: j in r <==> j in JoinAll(t, user, t.connections) && Launchable(j).True?
  {
    Select(JoinAll(t, user, t.connections), (j: Joined) => Launchable(j).True?)
  }

  function ConnectionsForUser(t: Tables, user: int): (r: seq<Listed>)
    ensures forall x :: x in r <==> x in Project(KeptRows(t, user))
    ensures forall i, j :: 0 <= i < j < |r| ==> r[i] != r[j]
  {
    Distinct(Project(KeptRows(t, user)))
  }

  // ---- The EXISTS query and the checks of redemption ----

  function DirectRows(t: Tables, user: int, connection: int): seq<UserPermission> {
    Select(t.userPermissions, (p: UserPermission) => p.user == user && p.connection == connection && p.canLaunch)
  }

  // user_groups JOIN group_connection_permissions, in the order of memberships.
  function GroupRows(members: seq<Membership>, t: Tables, user: int, connection: int): (r: seq<GroupPermission>)
    ensures forall p :: p in r <==>
              p in t.groupPermissions && Membership(user, p.group) in members && p.connection == connection && p.canLaunch
  {
    if members == [] then []
    else if members[0].user != user then GroupRows(members[1..], t, user, connection)
    else Select(t.groupPermissions,
                (p: GroupPermission) => p.group == members[0].group && p.connection == connection && p.canLaunch)
         + GroupRows(members[1..], t, user, connection)
  }

  predicate Permitted(t: Tables, user: int, connection: int) {
    DirectRows(t, user, connection) != [] || GroupRows(t.memberships, t, user, connection) != []
  }

  function EnabledRows(t: Tables, connection: int): seq<ConnectionRow> {
    Select(t.connections, (c: ConnectionRow) => c.id == connection && c.enabled)
  }

  // One query: an enabled row with a permission.
  function LaunchRows(t: Tables, user: int, connection: int): seq<ConnectionRow> {
    Select(t.connections,
           (c: ConnectionRow) =>
             c.id == connection && c.enabled
             && (DirectRows(t, user, c.id) != [] || GroupRows(t.memberships, t, user, c.id) != []))
  }

  predicate CanLaunch(t: Tables, user: int, connection: int) {
    LaunchRows(t, user, connection) != []
  }

  // Two queries: the ticket joined with an enabled row, then the permission.
  predicate RedeemAccepts(t: Tables, user: int, connection: int) {
    EnabledRows(t, connection) != [] && Permitted(t, user, connection)
  }

  lemma NonEmpty<R>(rows: seq<R>, x: R)
    requires x in rows
    ensures rows != []
  {
  }

  lemma QueriesAgree(t: Tables, user: int, connection: int)
    ensures CanLaunch(t, user, connection) <==> RedeemAccepts(t, user, connection)
  {
    var rows, enabled := LaunchRows(t, user, connection), EnabledRows(t, connection);
    if rows != [] {
      assert rows[0] in rows;
      NonEmpty(enabled, rows[0]);
    }
    if RedeemAccepts(t, user, connection) {
      assert enabled[0] in enabled;
      NonEmpty(rows, enabled[0]);
    }
  }

  // What the queries mean: the connection is enabled, and a permission of the
  // user or of one of the user's groups grants it.
  ghost predicate EnabledConnection(t: Tables, connection: int) {
    exists c :: c in t.connections && c.id == connection && c.enabled
  }

  ghost predicate GrantsUser(t: Tables, user: int, connection: int) {
    exists p :: p in t.userPermissions && p.user == user && p.connection == connection && p.canLaunch
  }

  ghost predicate GrantsGroup(t: Tables, group: int, connection: int) {
    exists p :: p in t.groupPermissions && p.group == group && p.connection == connection && p.canLaunch
  }

  ghost predicate Entitled(t: Tables, user: int, connection: int) {
    && EnabledConnection(t, connection)
    && (GrantsUser(t, user, connection)
        || exists m :: m in t.memberships && m.user == user && GrantsGroup(t, m.group, connection))
  }

  lemma CanLaunchMeans(t: Tables, user: int, connection: int)
    ensures CanLaunch(t, user, connection) <==> Entitled(t, user, connection)
  {
    QueriesAgree(t, user, connection);
    EnabledMeans(t, connection);
    PermittedMeans(t, user, connection);
    hide CanLaunch, EnabledRows, Permitted;
  }

  lemma EnabledMeans(t: Tables, connection: int)
    ensures EnabledRows(t, connection) != [] <==> EnabledConnection(t, connection)
  {
    var rows := EnabledRows(t, connection);
    if rows != [] { assert rows[0] in rows; }
    if c :| c in t.connections && c.id == connection && c.enabled { NonEmpty(rows, c); }
  }

  lemma PermittedMeans(t: Tables, user: int, connection: int)
    ensures Permitted(t, user, connection) <==>
              GrantsUser(t, user, connection)
              || exists m :: m in t.memberships && m.user == user && GrantsGroup(t, m.group, connection)
  {
    var direct, group := DirectRows(t, user, connection), GroupRows(t.memberships, t, user, connection);
    if direct != [] { assert direct[0] in direct; }
    if group != [] {
      assert group[0] in group;
      assert GrantsGroup(t, group[0].group, connection);
      assert Membership(user, group[0].group) in t.memberships;
    }
    if p :| p in t.userPermissions && p.user == user && p.connection == connection && p.canLaunch {
      NonEmpty(direct, p);
    }
    if m :| m in t.memberships && m.user == user && GrantsGroup(t, m.group, connection) {
      var p :| p in t.groupPermissions && p.group == m.group && p.connection == connection && p.canLaunch;
      assert m == Membership(user, p.group);
      NonEmpty(group, p);
    }
  }

  // A row of the join that passes WHERE comes from a permission.
  lemma LaunchableJoin(t: Tables, user: int, j: Joined)
    requires j in JoinAll(t, user, t.connections) && Launchable(j).True?
    ensures j.c in t.connections && j.c.enabled && Permitted(t, user, j.c.id)
  {
    if j.up.Some? && j.up.value.canLaunch {
      NonEmpty(DirectRows(t, user, j.c.id), j.up.value);
    } else {
      assert j.ug.value == Membership(user, j.gp.value.group);
      NonEmpty(GroupRows(t.memberships, t, user, j.c.id), j.gp.value);
    }
  }

  // Every permission shows up in the join.
  lemma PermissionJoins(t: Tables, user: int, c: ConnectionRow) returns (j: Joined)
    requires c in t.connections && c.enabled && Permitted(t, user, c.id)
    ensures j in JoinAll(t, user, t.connections) && Launchable(j).True? && j.c == c
  {
    var ups := LeftJoin(t.userPermissions, p => OnUser(c, user, p));
    var gps := LeftJoin(t.groupPermissions, p => OnGroup(c, p));
    var direct, group := DirectRows(t, user, c.id), GroupRows(t.memberships, t, user, c.id);
    var up := if direct != [] then Some(direct[0]) else ups[0];
    var gp := if group != [] then Some(group[0]) else gps[0];
    assert ups[0] in ups && gps[0] in gps;
    if direct != [] { assert direct[0] in direct; assert up in ups; }
    if group != [] { assert group[0] in group; assert gp in gps; }
    var ugs := LeftJoin(t.memberships, m => OnMember(gp, user, m));
    var ug := if group != [] then Some(Membership(user, group[0].group)) else ugs[0];
    assert ugs[0] in ugs;
    assert ug in ugs;
    j := Joined(c, up, gp, ug);
  }

  lemma ListedMayLaunch(t: Tables, user: int, row: Listed)
    requires row in ConnectionsForUser(t, user)
    ensures RedeemAccepts(t, user, row.id)
  {
    hide KeptRows, ConnectionsForUser, JoinAll, Permitted;
    var kept := KeptRows(t, user);
    var i :| 0 <= i < |kept| && Project(kept)[i] == row;
    assert kept[i] in kept;
    LaunchableJoin(t, user, kept[i]);
    NonEmpty(EnabledRows(t, row.id), kept[i].c);
  }

  lemma MayLaunchIsListed(t: Tables, user: int, connection: int) returns (row: Listed)
    requires RedeemAccepts(t, user, connection)
    ensures row in ConnectionsForUser(t, user) && row.id == connection
  {
    hide KeptRows, ConnectionsForUser, JoinAll, Permitted;
    var c := EnabledRows(t, connection)[0];
    assert c in EnabledRows(t, connection);
    var j := PermissionJoins(t, user, c);
    var kept := KeptRows(t, user);
    assert j in kept;
    var i :| 0 <= i < |kept| && kept[i] == j;
    row := Project(kept)[i];
    assert row in Project(kept);
  }

  // The listing holds exactly what may be launched.
  lemma ListingExact(t: Tables, user: int, connection: int)
    ensures (exists row :: row in ConnectionsForUser(t, user) && row.id == connection) <==> CanLaunch(t, user, connection)
  {
    hide ConnectionsForUser, CanLaunch, RedeemAccepts;
    QueriesAgree(t, user, connection);
    if row :| row in ConnectionsForUser(t, user) && row.id == connection {
      ListedMayLaunch(t, user, row);
    }
    if RedeemAccepts(t, user, connection) {
      var row := MayLaunchIsListed(t, user, connection);
    }
  }

  // Each connection is listed once, however many permissions lead to it.
  lemma ListedOnce(t: Tables, user: int, i: nat, j: nat)
    requires Keyed(t) && i < j < |ConnectionsForUser(t, user)|
    ensures ConnectionsForUser(t, user)[i].id != ConnectionsForUser(t, user)[j].id
  {
    var listed := ConnectionsForUser(t, user);
    ListedRow(t, user, listed[i]);
    ListedRow(t, user, listed[j]);
  }

  lemma ListedRow(t: Tables, user: int, row: Listed)
    requires row in ConnectionsForUser(t, user)
    ensures exists k :: 0 <= k < |t.connections| && row == Listed(t.connections[k].id, t.connections[k].info)
  {
    hide KeptRows, ConnectionsForUser, JoinAll;
    var kept := KeptRows(t, user);
    var i :| 0 <= i < |kept| && Project(kept)[i] == row;
    assert kept[i] in kept;
    var k :| 0 <= k < |t.connections| && t.connections[k] == kept[i].c;
  }

  // ---- The credential ----

  function FirstCredential(rows: seq<UserPermission>): Option<int> {
    if rows == [] then None else rows[0].credential
  }

  // ORDER BY group_id LIMIT 1.
  function LowestGroup(rows: seq<GroupPermission>): (r: Option<GroupPermission>)
    ensures r.None? <==> rows == []
    ensures r.Some? ==> r.value in rows && forall p :: p in rows ==> r.value.group <= p.group
  {
    if rows == [] then None else
    var rest := LowestGroup(rows[1..]);
    if rest.None? || rows[0].group <= rest.value.group then Some(rows[0]) else rest
  }

  function Coalesce(a: Option<int>, b: Option<int>, c: Option<int>): Option<int> {
    if a.Some? then a else if b.Some? then b else c
  }

  function DirectCredentialRows(t: Tables, user: int, connection: int): seq<UserPermission> {
    Select(DirectRows(t, user, connection), (p: UserPermission) => p.credential.Some?)
  }

  function GroupCredentialRows(t: Tables, user: int, connection: int): seq<GroupPermission> {
    Select(GroupRows(t.memberships, t, user, connection), (p: GroupPermission) => p.credential.Some?)
  }

  // The COALESCE column of the redemption query.
  function LaunchCredential(t: Tables, user: int, c: ConnectionRow): Option<int> {
    var group := LowestGroup(GroupCredentialRows(t, user, c.id));
    Coalesce(FirstCredential(DirectCredentialRows(t, user, c.id)),
             if group.None? then None else group.value.credential,
             c.credential)
  }

  predicate DirectGrant(t: Tables, user: int, connection: int, p: UserPermission) {
    p in t.userPermissions && p.user == user && p.connection == connection && p.canLaunch && p.credential.Some?
  }

  predicate GroupGrant(t: Tables, user: int, connection: int, p: GroupPermission) {
    && p in t.groupPermissions && Membership(user, p.group) in t.memberships
    && p.connection == connection && p.canLaunch && p.credential.Some?
  }

  // The direct permission's credential wins.
  lemma DirectCredentialWins(t: Tables, user: int, c: ConnectionRow, p: UserPermission)
    requires Keyed(t) && DirectGrant(t, user, c.id, p)
    ensures LaunchCredential(t, user, c) == p.credential
  {
    var rows := DirectCredentialRows(t, user, c.id);
    NonEmpty(rows, p);
    var first := rows[0];
    assert first in rows;
    var i :| 0 <= i < |t.userPermissions| && t.userPermissions[i] == p;
    var j :| 0 <= j < |t.userPermissions| && t.userPermissions[j] == first;
    assert i == j;
  }

  // Without one, the lowest-numbered group that has a credential decides.
  lemma LowestGroupDecides(t: Tables, user: int, c: ConnectionRow, p: GroupPermission)
    requires Keyed(t) && GroupGrant(t, user, c.id, p)
    requires forall q :: !DirectGrant(t, user, c.id, q)
    requires forall q :: GroupGrant(t, user, c.id, q) ==> p.group <= q.group
    ensures LaunchCredential(t, user, c) == p.credential
  {
    var direct, rows := DirectCredentialRows(t, user, c.id), GroupCredentialRows(t, user, c.id);
    assert direct == [] by {
      if direct != [] { assert direct[0] in direct; assert DirectGrant(t, user, c.id, direct[0]); }
    }
    NonEmpty(rows, p);
    var lowest := LowestGroup(rows).value;
    assert GroupGrant(t, user, c.id, lowest);
    var i :| 0 <= i < |t.groupPermissions| && t.groupPermissions[i] == p;
    var j :| 0 <= j < |t.groupPermissions| && t.groupPermissions[j] == lowest;
    assert i == j;
  }

  // Without either, the connection's own credential is used.
  lemma DefaultCredential(t: Tables, user: int, c: ConnectionRow)
    requires forall q :: !DirectGrant(t, user, c.id, q)
    requires forall q :: !GroupGrant(t, user, c.id, q)
    ensures LaunchCredential(t, user, c) == c.credential
  {
    var direct, rows := DirectCredentialRows(t, user, c.id), GroupCredentialRows(t, user, c.id);
    if direct != [] { assert direct[0] in direct; assert DirectGrant(t, user, c.id, direct[0]); }
    if rows != [] { assert rows[0] in rows; assert GroupGrant(t, user, c.id, rows[0]); }
  }
}
