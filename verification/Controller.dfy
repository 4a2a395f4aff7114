/** The controller's tables and the requests that change them. One database
  * connection makes every transaction one step; launching and saving a policy are
  * no transactions and take two steps each.
  */
module Controller {
  import opened Options
  import opened Rows
  import opened Access
  import opened Quota
  import opened Stamps

  const SECOND: nat := NANOS
  const MINUTE: nat := 60 * SECOND
  const HOUR: nat := 60 * MINUTE
  const HANDOFF_LIFE: nat := 45 * SECOND

  datatype User = User(admin: bool, enabled: bool)

  // launch_tickets, maintenance_tickets, admin_handoffs and enrolment_tokens.
  datatype Grant =
    | Launch(user: int, device: int, connection: int, cap: nat)
    | Maintenance(user: int, device: int)
    | Handoff(user: int)
    | Enrolment

  datatype Token = Token(grant: Grant, expires: int, redeemed: Option<int>)

  // What a launch request has decided and not yet inserted.
  datatype Decision = Decision(user: int, connection: int, cap: nat)

  // `decisions` is held by requests under way, the rest are tables.
  // A token and its row share one number; `next` numbers are drawn once. A
  // device's number stands for its unique identifier.
  datatype DB = DB(
    access: Tables,
    users: map<int, User>,
    devices: map<int, bool>,
    groups: set<int>,
    credentials: set<int>,
    policies: map<int, Policy>,
    tokens: map<nat, Token>,
    usage: seq<Usage>,
    decisions: map<nat, Decision>,
    next: nat,
    now: int)

  datatype Event = Started | Exited | Failed

  // The local day is an input: time zones are not part of the model.
  type LocalTime = l: Local | LocalOk(l) witness Local(0, 0, 0)

  datatype Request =
    | Tick(to: int)
    | DecideLaunch(user: int, connection: int, local: LocalTime)
    | InsertLaunch(decision: nat, device: int, life: int)
    | RedeemLaunch(token: nat, device: int)
    | CreateMaintenance(user: int, device: int, life: int)
    | RedeemMaintenance(token: nat, device: int)
    | CreateHandoff(user: int)
    | RedeemHandoff(token: nat)
    | CreateEnrolment(minutes: int)
    | Enrol(token: nat, device: int)
    | SessionEvent(device: int, ticket: nat, named: Option<int>, event: Event)
    | SavePolicy(user: int, policy: Policy)
    | DropPending(user: int)
    | SetUserPermission(user: int, connection: int, allow: bool, credential: Option<int>)
    | SetGroupPermission(group: int, connection: int, allow: bool, credential: Option<int>)
    | SetMembership(user: int, group: int, member: bool)
    | CreateConnection(info: string, enabled: bool, credential: Option<int>)
    | UpdateConnection(connection: int, info: string, enabled: bool, credential: Option<int>)
    | DeleteConnection(connection: int)
    | CreateGroup
    | DeleteGroup(group: int)
    | CreateCredential
    | DeleteCredential(removed: int)
    | CreateUser(admin: bool, enabled: bool)
    | UpdateUser(user: int, admin: bool, enabled: bool)
    | UpdateDevice(device: int, enabled: bool)

  predicate IsRedemption(r: Request, k: nat) {
    (r.RedeemLaunch? || r.RedeemMaintenance? || r.RedeemHandoff? || r.Enrol?) && r.token == k
  }

  datatype Reply = Refused | Done | Approved(id: nat) | Issued(id: nat) | Redeemed(grant: Grant, credential: Option<int>)

  datatype Outcome = Outcome(db: DB, reply: Reply)

  function Refuse(db: DB): Outcome {
    Outcome(db, Refused)
  }

  // The instants the stamp format can write.
  predicate Stamped(db: DB) {
    InRange(db.now) && InLedger(db.usage)
  }

  // ---- Shared queries ----

  predicate IsAdmin(db: DB, user: int) {
    user in db.users && db.users[user].admin && db.users[user].enabled
  }

  predicate DeviceEnabled(db: DB, device: int) {
    device in db.devices && db.devices[device]
  }

  function PolicyOf(db: DB, user: int): Policy {
    if user in db.policies then db.policies[user] else DEFAULT_POLICY
  }

  function StatusFor(db: DB, user: int, local: LocalTime): Status
    requires Stamped(db)
  {
    StatusOf(PolicyOf(db, user), local, Used(db.usage, user, local.midnight, db.now))
  }

  predicate KnownCredential(db: DB, credential: Option<int>) {
    credential.Some? ==> credential.value in db.credentials
  }

  predicate HasConnection(db: DB, connection: int) {
    exists c :: c in db.access.connections && c.id == connection
  }

  // ---- Tokens ----

  function Issue(db: DB, grant: Grant, expires: int): Outcome {
    Outcome(db.(tokens := db.tokens[db.next := Token(grant, expires, None)], next := db.next + 1), Issued(db.next))
  }

  predicate Fresh(db: DB, token: nat) {
    token in db.tokens && db.tokens[token].redeemed.None? && db.now < db.tokens[token].expires
  }

  // UPDATE ... SET redeemed_at WHERE redeemed_at IS NULL.
  function Spend(db: DB, token: nat): DB {
    if token in db.tokens && db.tokens[token].redeemed.None?
    then db.(tokens := db.tokens[token := db.tokens[token].(redeemed := Some(db.now))])
    else db
  }

  // What the queries on permission and policy decide.
  function Approve(db: DB, user: int, connection: int, local: LocalTime): Option<nat>
    requires Stamped(db)
  {
    var status := StatusFor(db, user, local);
    if CanLaunch(db.access, user, connection) && status.allowed then Some(status.capSeconds) else None
  }

  function Decide(db: DB, user: int, connection: int, cap: nat): Outcome {
    Outcome(db.(decisions := db.decisions[db.next := Decision(user, connection, cap)], next := db.next + 1), Approved(db.next))
  }

  // The insertion fails for a disabled device, and by its foreign key for a
  // connection that is gone; either way the decision is used up.
  function InsertDecided(db: DB, k: nat, device: int, life: int): Outcome
    requires k in db.decisions
  {
    var d, rest := db.decisions[k], db.(decisions := db.decisions - {k});
    if DeviceEnabled(db, device) && HasConnection(db, d.connection)
    then Issue(rest, Launch(d.user, device, d.connection, d.cap), db.now + life)
    else Refuse(rest)
  }

  predicate LaunchAccepted(db: DB, token: nat, device: int) {
    && DeviceEnabled(db, device)
    && Fresh(db, token) && db.tokens[token].grant.Launch? && db.tokens[token].grant.device == device
    && RedeemAccepts(db.access, db.tokens[token].grant.user, db.tokens[token].grant.connection)
  }

  function CredentialFor(db: DB, grant: Grant): Option<int>
    requires grant.Launch? && EnabledRows(db.access, grant.connection) != []
  {
    LaunchCredential(db.access, grant.user, EnabledRows(db.access, grant.connection)[0])
  }

  predicate MaintenanceAccepted(db: DB, token: nat, device: int) {
    && DeviceEnabled(db, device)
    && Fresh(db, token) && db.tokens[token].grant.Maintenance? && db.tokens[token].grant.device == device
    && IsAdmin(db, db.tokens[token].grant.user)
  }

  predicate HandoffAccepted(db: DB, token: nat) {
    Fresh(db, token) && db.tokens[token].grant.Handoff? && IsAdmin(db, db.tokens[token].grant.user)
  }

  // A device number already in use fails the insertion and spends nothing.
  predicate EnrolAccepted(db: DB, token: nat, device: int) {
    Fresh(db, token) && db.tokens[token].grant.Enrolment? && device !in db.devices
  }

  // expires_at < stamp(now - hour), compared as text.
  predicate LongExpired(expires: int, now: int) {
    InRange(expires) && InRange(now - HOUR) && StampLess(expires, now - HOUR)
  }

  predicate StaleHandoff(t: Token, now: int) {
    t.grant.Handoff? && (t.redeemed.Some? || LongExpired(t.expires, now))
  }

  function WithoutStale(tokens: map<nat, Token>, now: int): map<nat, Token> {
    map k | k in tokens && !StaleHandoff(tokens[k], now) :: tokens[k]
  }

  // ---- Cascades ----

  // The usage rows whose ticket is still there.
  function Cascade(usage: seq<Usage>, tokens: map<nat, Token>): seq<Usage> {
    Select(usage, (u: Usage) => u.ticket in tokens)
  }

  predicate Pending(t: Token, user: int) {
    t.grant.Launch? && t.grant.user == user && t.redeemed.None?
  }

  function WithoutPending(tokens: map<nat, Token>, user: int): map<nat, Token> {
    map k | k in tokens && !Pending(tokens[k], user) :: tokens[k]
  }

  predicate ForConnection(t: Token, connection: int) {
    t.grant.Launch? && t.grant.connection == connection
  }

  function WithoutConnection(tokens: map<nat, Token>, connection: int): map<nat, Token> {
    map k | k in tokens && !ForConnection(tokens[k], connection) :: tokens[k]
  }

  // Deleting launch tickets takes their usage rows along.
  function KeepTokens(db: DB, kept: map<nat, Token>): DB {
    db.(tokens := kept, usage := Cascade(db.usage, kept))
  }

  function DropConnection(t: Tables, connection: int): Tables {
    Tables(
      Select(t.connections, (c: ConnectionRow) => c.id != connection),
      Select(t.userPermissions, (p: UserPermission) => p.connection != connection),
      Select(t.groupPermissions, (p: GroupPermission) => p.connection != connection),
      t.memberships)
  }

  function DropGroup(t: Tables, group: int): Tables {
    t.(groupPermissions := Select(t.groupPermissions, (p: GroupPermission) => p.group != group),
       memberships := Select(t.memberships, (m: Membership) => m.group != group))
  }

  function Unset(credential: Option<int>, removed: int): Option<int> {
    if credential == Some(removed) then None else credential
  }

  function DropCredential(t: Tables, removed: int): Tables {
    Tables(
      Amend(t.connections, (c: ConnectionRow) => c.(credential := Unset(c.credential, removed))),
      Amend(t.userPermissions, (p: UserPermission) => p.(credential := Unset(p.credential, removed))),
      Amend(t.groupPermissions, (p: GroupPermission) => p.(credential := Unset(p.credential, removed))),
      t.memberships)
  }

  // ---- Usage ----

  predicate EventAccepted(db: DB, device: int, ticket: nat, named: Option<int>) {
    && DeviceEnabled(db, device)
    && ticket in db.tokens && db.tokens[ticket].grant.Launch? && db.tokens[ticket].redeemed.Some?
    && db.tokens[ticket].grant.device == device && named == Some(db.tokens[ticket].grant.connection)
  }

  function Close(u: Usage, ticket: nat, now: int): Usage {
    if u.ticket == ticket && u.ended.None?
    then u.(ended := Some(now), duration := Elapsed(u.started, now))
    else u
  }

  function CloseAll(usage: seq<Usage>, ticket: nat, now: int): seq<Usage> {
    Amend(usage, (u: Usage) => Close(u, ticket, now))
  }

  function Record(db: DB, ticket: nat, grant: Grant, event: Event): seq<Usage>
    requires grant.Launch?
  {
    if event.Started? then
      if exists u :: u in db.usage && u.ticket == ticket then db.usage
      else db.usage + [Usage(ticket, grant.user, grant.device, grant.connection, db.now, None, 0)]
    else CloseAll(db.usage, ticket, db.now)
  }

  // ---- Requests ----

  function SetUserRow(t: Tables, r: Request): Tables
    requires r.SetUserPermission?
  {
    if r.allow then t.(userPermissions := Upsert(t.userPermissions, UserKey, UserPermission(r.user, r.connection, true, r.credential)))
    else t.(userPermissions := Select(t.userPermissions, (p: UserPermission) => UserKey(p) != (r.user, r.connection)))
  }

  function SetGroupRow(t: Tables, r: Request): Tables
    requires r.SetGroupPermission?
  {
    if r.allow then t.(groupPermissions := Upsert(t.groupPermissions, GroupKey, GroupPermission(r.group, r.connection, true, r.credential)))
    else t.(groupPermissions := Select(t.groupPermissions, (p: GroupPermission) => GroupKey(p) != (r.group, r.connection)))
  }

  function SetMemberRow(t: Tables, m: Membership, member: bool): Tables {
    if member then t.(memberships := Upsert(t.memberships, MemberKey, m))
    else t.(memberships := Select(t.memberships, (x: Membership) => x != m))
  }

  // Requests about tokens.
  function ServeToken(db: DB, r: Request): Outcome
    requires Stamped(db)
  {
    match r
    case DecideLaunch(user, connection, local) =>
      var cap := Approve(db, user, connection, local);
      if cap.Some? then Decide(db, user, connection, cap.value) else Refuse(db)
    case InsertLaunch(decision, device, life) =>
      if decision in db.decisions then InsertDecided(db, decision, device, life) else Refuse(db)
    case RedeemLaunch(token, device) =>
      if LaunchAccepted(db, token, device)
      then Outcome(Spend(db, token), Redeemed(db.tokens[token].grant, CredentialFor(db, db.tokens[token].grant)))
      else Refuse(db)
    case CreateMaintenance(user, device, life) =>
      if IsAdmin(db, user) && DeviceEnabled(db, device)
      then Issue(db, Maintenance(user, device), db.now + life)
      else Refuse(db)
    case RedeemMaintenance(token, device) =>
      if MaintenanceAccepted(db, token, device)
      then Outcome(Spend(db, token), Redeemed(db.tokens[token].grant, None))
      else Refuse(db)
    case CreateHandoff(user) =>
      if IsAdmin(db, user) then Issue(db.(tokens := WithoutStale(db.tokens, db.now)), Handoff(user), db.now + HANDOFF_LIFE) else Refuse(db)
    case RedeemHandoff(token) =>
      if HandoffAccepted(db, token)
      then Outcome(Spend(db, token), Redeemed(db.tokens[token].grant, None))
      else Refuse(db)
    case CreateEnrolment(minutes) =>
      if 1 <= minutes <= 1440 then Issue(db, Enrolment, db.now + minutes * MINUTE) else Refuse(db)
    case Enrol(token, device) =>
      if EnrolAccepted(db, token, device)
      then Outcome(Spend(db, token).(devices := db.devices[device := true]), Redeemed(db.tokens[token].grant, None))
      else Refuse(db)
    case _ => Refuse(db)
  }

  // Administrators' changes to the permission tables.
  function ServeAccess(db: DB, r: Request): Outcome {
    match r
    case SetUserPermission(user, connection, allow, credential) =>
      if allow && !(user in db.users && HasConnection(db, connection) && KnownCredential(db, credential)) then Refuse(db)
      else Outcome(db.(access := SetUserRow(db.access, r)), Done)
    case SetGroupPermission(group, connection, allow, credential) =>
      if allow && !(group in db.groups && HasConnection(db, connection) && KnownCredential(db, credential)) then Refuse(db)
      else Outcome(db.(access := SetGroupRow(db.access, r)), Done)
    case SetMembership(user, group, member) =>
      if member && !(user in db.users && group in db.groups) then Refuse(db)
      else Outcome(db.(access := SetMemberRow(db.access, Membership(user, group), member)), Done)
    case CreateConnection(info, enabled, credential) =>
      if !KnownCredential(db, credential) then Refuse(db)
      else
        var row := ConnectionRow(db.next, info, enabled, credential);
        Outcome(db.(access := db.access.(connections := db.access.connections + [row]), next := db.next + 1), Issued(db.next))
    case UpdateConnection(connection, info, enabled, credential) =>
      if !KnownCredential(db, credential) then Refuse(db)
      else
        var row := ConnectionRow(connection, info, enabled, credential);
        Outcome(db.(access := db.access.(connections :=
          Amend(db.access.connections, (c: ConnectionRow) => if c.id == connection then row else c))), Done)
    case DeleteConnection(connection) =>
      Outcome(KeepTokens(db.(access := DropConnection(db.access, connection)), WithoutConnection(db.tokens, connection)), Done)
    case DeleteGroup(group) =>
      Outcome(db.(access := DropGroup(db.access, group), groups := db.groups - {group}), Done)
    case DeleteCredential(removed) =>
      Outcome(db.(access := DropCredential(db.access, removed), credentials := db.credentials - {removed}), Done)
    case _ => Refuse(db)
  }

  function Serve(db: DB, r: Request): Outcome
    requires Stamped(db)
  {
    match r
    case Tick(to) =>
      if db.now <= to && InRange(to + HOUR) then Outcome(db.(now := to), Done) else Refuse(db)
    case SessionEvent(device, ticket, named, event) =>
      if EventAccepted(db, device, ticket, named)
      then Outcome(db.(usage := Record(db, ticket, db.tokens[ticket].grant, event)), Done)
      else Refuse(db)
    case SavePolicy(user, policy) =>
      if user in db.users && ValidPolicy(policy)
      then Outcome(db.(policies := db.policies[user := policy]), Done)
      else Refuse(db)
    case DropPending(user) => Outcome(KeepTokens(db, WithoutPending(db.tokens, user)), Done)
    case CreateGroup => Outcome(db.(groups := db.groups + {db.next}, next := db.next + 1), Issued(db.next))
    case CreateCredential => Outcome(db.(credentials := db.credentials + {db.next}, next := db.next + 1), Issued(db.next))
    case CreateUser(admin, enabled) =>
      Outcome(db.(users := db.users[db.next := User(admin, enabled)], next := db.next + 1), Issued(db.next))
    case UpdateUser(user, admin, enabled) =>
      Outcome(if user in db.users then db.(users := db.users[user := User(admin, enabled)]) else db, Done)
    case UpdateDevice(device, enabled) =>
      Outcome(if device in db.devices then db.(devices := db.devices[device := enabled]) else db, Done)
    case DecideLaunch(_, _, _) => ServeToken(db, r)
    case InsertLaunch(_, _, _) => ServeToken(db, r)
    case RedeemLaunch(_, _) => ServeToken(db, r)
    case CreateMaintenance(_, _, _) => ServeToken(db, r)
    case RedeemMaintenance(_, _) => ServeToken(db, r)
    case CreateHandoff(_) => ServeToken(db, r)
    case RedeemHandoff(_) => ServeToken(db, r)
    case CreateEnrolment(_) => ServeToken(db, r)
    case Enrol(_, _) => ServeToken(db, r)
    case _ => ServeAccess(db, r)
  }

  const EMPTY := DB(Tables([], [], [], []), map[], map[], {}, {}, map[], map[], [], map[], 0, 0)
}
