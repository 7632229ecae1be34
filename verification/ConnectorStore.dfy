/** The connector credential tables and the transactions that change them:
    device authorization (RFC 8628), proof keys (RFC 7636) and rotating refresh
    tokens with reuse detection.

    Every operation is a function from the tables to the tables it commits and the
    answer it gives. A transaction that throws commits the tables it started from. */
module ConnectorStore {
  import opened Prelude

  const DEVICE_TTL_MS: Millis := 600 * 1_000
  const POLL_INTERVAL_MS: Millis := 5 * 1_000
  const ACCESS_TTL_MS: Millis := 15 * 60 * 1_000
  const REFRESH_TTL_MS: Millis := 30 * 24 * 60 * 60 * 1_000

  /** Secrets stand for their digests, which are taken to be injective. */
  type DeviceCode = nat
  type UserCode = nat
  type AccessToken = nat
  type RefreshToken = nat
  type FamilyId = nat
  type InstallationId = nat
  type ProjectId = nat
  type TenantId = nat
  type UserId = nat

  /** The S256 challenge of a verifier. */
  datatype Challenge = S256(verifier: nat)

  datatype AuthorizationStatus = PENDING | APPROVED | DENIED | CONSUMED | EXPIRED

  /** The columns that only `approve` writes. */
  datatype Approval = Approval(tenantId: TenantId, userId: UserId, projectId: ProjectId, installationId: InstallationId)

  datatype Authorization = Authorization(
    userCode: UserCode,
    platform: string,
    challenge: Option<Challenge>,
    status: AuthorizationStatus,
    approval: Option<Approval>,
    expiresAt: Millis,
    lastPolledAt: Option<Millis>)

  datatype Installation = Installation(
    tenantId: TenantId,
    createdById: UserId,
    platform: string,
    defaultProjectId: ProjectId,
    active: bool)

  datatype Credential = Credential(
    tenantId: TenantId,
    installationId: InstallationId,
    access: AccessToken,
    family: FamilyId,
    accessExpiresAt: Millis,
    refreshExpiresAt: Millis,
    usedAt: Option<Millis>,
    revokedAt: Option<Millis>,
    replacedBy: Option<RefreshToken>)

  datatype Project = Project(tenantId: TenantId, active: bool)

  /** Authorizations are keyed by device code and credentials by refresh token, both
      unique columns. */
  datatype Tables = Tables(
    authorizations: map<DeviceCode, Authorization>,
    installations: map<InstallationId, Installation>,
    credentials: map<RefreshToken, Credential>,
    projects: map<ProjectId, Project>)

  /** The random values an issuing transaction draws. */
  datatype Draw = Draw(access: AccessToken, refresh: RefreshToken, family: FamilyId)

  datatype Tokens = Tokens(access: AccessToken, refresh: RefreshToken, installationId: InstallationId, projectId: ProjectId)

  /** What `authenticate` hands to the ingest endpoint. */
  datatype Connector = Connector(
    installationId: InstallationId,
    tenantId: TenantId,
    userId: UserId,
    defaultProjectId: ProjectId,
    platform: string)

  datatype CreateAnswer = Created | CreateConflict

  datatype ApproveAnswer = UnknownUserCode | NotPending | CodeExpired | ProjectForbidden | Approved | ApproveConflict

  datatype PollAnswer = PollInvalid | InvalidVerifier | PollExpired | SlowDown | StillPending | Denied | PollIssued(tokens: Tokens) | PollConflict

  datatype RefreshAnswer = RefreshInvalid | Reuse | RefreshIssued(tokens: Tokens) | RefreshConflict | NoInstallation

  datatype RevokeAnswer = RevokeForbidden | UnknownConnector | Revoked

  // ---------------------------------------------------------------- queries

  ghost predicate UserCodeTaken(db: Tables, userCode: UserCode) {
    exists code :: code in db.authorizations && db.authorizations[code].userCode == userCode
  }

  ghost function CodeOf(db: Tables, userCode: UserCode): (code: DeviceCode)
    requires UserCodeTaken(db, userCode)
    ensures code in db.authorizations && db.authorizations[code].userCode == userCode
  {
    var code :| code in db.authorizations && db.authorizations[code].userCode == userCode;
    code
  }

  ghost predicate AccessTaken(credentials: map<RefreshToken, Credential>, access: AccessToken) {
    exists t :: t in credentials && credentials[t].access == access
  }

  /** The unique indexes of the credential table refuse the drawn tokens. */
  ghost predicate Collides(credentials: map<RefreshToken, Credential>, draw: Draw) {
    draw.refresh in credentials || AccessTaken(credentials, draw.access)
  }

  predicate VerifierAccepted(challenge: Option<Challenge>, verifier: Option<nat>) {
    challenge.None? || (verifier.Some? && S256(verifier.value) == challenge.value)
  }

  /** The tokens of credential `t` are accepted at `now`. */
  predicate Live(db: Tables, t: RefreshToken, now: Millis) {
    && t in db.credentials
    && db.credentials[t].revokedAt.None?
    && now < db.credentials[t].accessExpiresAt
    && db.credentials[t].installationId in db.installations
    && db.installations[db.credentials[t].installationId].active
  }

  function ConnectorOf(db: Tables, id: InstallationId): Connector
    requires id in db.installations
  {
    var row := db.installations[id];
    Connector(id, row.tenantId, row.createdById, row.defaultProjectId, row.platform)
  }

  /** `authenticate` accepts the access token and returns this connector. */
  ghost predicate Authenticates(db: Tables, access: AccessToken, now: Millis, connector: Connector) {
    exists t :: Live(db, t, now) && db.credentials[t].access == access
                && connector == ConnectorOf(db, db.credentials[t].installationId)
  }

  // ----------------------------------------------------------- transactions

  ghost function Create(db: Tables, code: DeviceCode, userCode: UserCode, platform: string,
                        challenge: Option<Challenge>, now: Millis): (Tables, CreateAnswer) {
    if code in db.authorizations || UserCodeTaken(db, userCode) then (db, CreateConflict)
    else
      var row := Authorization(userCode, platform, challenge, PENDING, None, now + DEVICE_TTL_MS, None);
      (db.(authorizations := db.authorizations[code := row]), Created)
  }

  /** The branch for an expired code writes EXPIRED and then throws, so nothing is kept. */
  ghost function Approve(db: Tables, actor: Actor, userCode: UserCode, projectId: ProjectId,
                         installationId: InstallationId, now: Millis): (Tables, ApproveAnswer) {
    if !UserCodeTaken(db, userCode) then (db, UnknownUserCode)
    else
      var code := CodeOf(db, userCode);
      var row := db.authorizations[code];
      if row.status != PENDING then (db, NotPending)
      else if row.expiresAt <= now then (db, CodeExpired)
      else if projectId !in db.projects || db.projects[projectId] != Project(actor.tenantId, true) then (db, ProjectForbidden)
      else if installationId in db.installations then (db, ApproveConflict)
      else
        var installation := Installation(actor.tenantId, actor.userId, row.platform, projectId, true);
        var approval := Approval(actor.tenantId, actor.userId, projectId, installationId);
        (db.(installations := db.installations[installationId := installation],
             authorizations := db.authorizations[code := row.(status := APPROVED, approval := Some(approval))]),
         Approved)
  }

  ghost function Poll(db: Tables, code: DeviceCode, verifier: Option<nat>, now: Millis, draw: Draw): (Tables, PollAnswer) {
    if code !in db.authorizations then (db, PollInvalid)
    else
      var row := db.authorizations[code];
      if !VerifierAccepted(row.challenge, verifier) then (db, InvalidVerifier)
      else if row.expiresAt <= now then
        var expired := if row.status == PENDING then row.(status := EXPIRED) else row;
        (db.(authorizations := db.authorizations[code := expired]), PollExpired)
      else if row.lastPolledAt.Some? && now - row.lastPolledAt.value < POLL_INTERVAL_MS then (db, SlowDown)
      else if row.status == PENDING then
        (db.(authorizations := db.authorizations[code := row.(lastPolledAt := Some(now))]), StillPending)
      else if row.status != APPROVED || row.approval.None? then (db, Denied)
      else if Collides(db.credentials, draw) then (db, PollConflict)
      else
        var approval := row.approval.value;
        var credential := Issue(approval.tenantId, approval.installationId, draw.family, draw, now);
        (db.(authorizations := db.authorizations[code := row.(status := CONSUMED, lastPolledAt := Some(now))],
             credentials := db.credentials[draw.refresh := credential]),
         PollIssued(Tokens(draw.access, draw.refresh, approval.installationId, approval.projectId)))
  }

  function Issue(tenantId: TenantId, installationId: InstallationId, family: FamilyId, draw: Draw, now: Millis): Credential {
    Credential(tenantId, installationId, draw.access, family, now + ACCESS_TTL_MS, now + REFRESH_TTL_MS, None, None, None)
  }

  function RevokeRow(row: Credential, now: Millis): Credential {
    if row.revokedAt.None? then row.(revokedAt := Some(now)) else row
  }

  function RevokeFamily(credentials: map<RefreshToken, Credential>, family: FamilyId, now: Millis): map<RefreshToken, Credential> {
    map t | t in credentials :: if credentials[t].family == family then RevokeRow(credentials[t], now) else credentials[t]
  }

  function RevokeInstallation(credentials: map<RefreshToken, Credential>, id: InstallationId, now: Millis): map<RefreshToken, Credential> {
    map t | t in credentials :: if credentials[t].installationId == id then RevokeRow(credentials[t], now) else credentials[t]
  }

  ghost function Refresh(db: Tables, token: RefreshToken, now: Millis, draw: Draw): (Tables, RefreshAnswer) {
    if token !in db.credentials || db.credentials[token].revokedAt.Some? || db.credentials[token].refreshExpiresAt <= now then
      (db, RefreshInvalid)
    else
      var row := db.credentials[token];
      if row.usedAt.Some? then (db.(credentials := RevokeFamily(db.credentials, row.family, now)), Reuse)
      else if Collides(db.credentials, draw) then (db, RefreshConflict)
      else if row.installationId !in db.installations then (db, NoInstallation)
      else
        var next := Issue(row.tenantId, row.installationId, row.family, draw, now);
        var used := row.(usedAt := Some(now), replacedBy := Some(draw.refresh));
        (db.(credentials := db.credentials[token := used][draw.refresh := next]),
         RefreshIssued(Tokens(draw.access, draw.refresh, row.installationId,
                              db.installations[row.installationId].defaultProjectId)))
  }

  function RevokeConnector(db: Tables, actor: Actor, id: InstallationId, now: Millis): (Tables, RevokeAnswer) {
    if !IsTenantAdmin(actor.role) then (db, RevokeForbidden)
    else if id !in db.installations || db.installations[id].tenantId != actor.tenantId then (db, UnknownConnector)
    else
      (db.(installations := db.installations[id := db.installations[id].(active := false)],
           credentials := RevokeInstallation(db.credentials, id, now)),
       Revoked)
  }

  // ------------------------------------------------------------------- runs

  /** One transaction of the service, or a change of the project table by others. */
  datatype Operation =
    | CreateOp(newCode: DeviceCode, newUserCode: UserCode, platform: string, challenge: Option<Challenge>)
    | ApproveOp(actor: Actor, userCode: UserCode, projectId: ProjectId, newInstallation: InstallationId)
    | PollOp(code: DeviceCode, verifier: Option<nat>, draw: Draw)
    | RefreshOp(token: RefreshToken, draw: Draw)
    | RevokeOp(actor: Actor, target: InstallationId)
    | ProjectsOp(projects: map<ProjectId, Project>)

  datatype Event = Event(at: Millis, op: Operation)

  datatype World = World(db: Tables, clock: Millis)

  const NoTables := Tables(map[], map[], map[], map[])

  ghost function Commit(db: Tables, e: Event): Tables {
    match e.op
    case CreateOp(code, userCode, platform, challenge) => Create(db, code, userCode, platform, challenge, e.at).0
    case ApproveOp(actor, userCode, projectId, id) => Approve(db, actor, userCode, projectId, id, e.at).0
    case PollOp(code, verifier, draw) => Poll(db, code, verifier, e.at, draw).0
    case RefreshOp(token, draw) => Refresh(db, token, e.at, draw).0
    case RevokeOp(actor, id) => RevokeConnector(db, actor, id, e.at).0
    case ProjectsOp(projects) => db.(projects := projects)
  }

  ghost predicate FamilyInUse(db: Tables, family: FamilyId) {
    exists t :: t in db.credentials && db.credentials[t].family == family
  }

  /** Clocks do not run backwards and a fresh family identifier is unused. Token
      collisions need no assumption: the unique indexes turn them into conflicts. */
  ghost predicate Admissible(w: World, e: Event) {
    && w.clock <= e.at
    && (e.op.PollOp? ==> !FamilyInUse(w.db, e.op.draw.family))
  }

  type Run = History<Event>

  ghost function After(run: Run): World {
    match run
    case Start => World(NoTables, 0)
    case Then(past, e) => World(Commit(After(past).db, e), e.at)
  }

  ghost predicate IsRun(run: Run) {
    run.Then? ==> IsRun(run.past) && Admissible(After(run.past), run.event)
  }

  lemma {:induction false} RunsArePrefixClosed(h: Run, run: Run)
    requires IsRun(run) && Within(h, run)
    ensures IsRun(h)
    decreases run
  {
    if h != run {
      RunsArePrefixClosed(h, run.past);
    }
  }
}
