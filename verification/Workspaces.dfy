/** Accounts, workspaces, memberships and sessions as tables, and what each operation on
    them does as one transaction. */
module Workspaces {
  import opened Prelude

  type TenantId = nat
  type UserId = nat
  type SessionToken = nat

  const SESSION_TTL_MS: Millis := 30 * 24 * 60 * 60 * 1000
  const DELETION_DELAY_MS: Millis := 7 * 24 * 60 * 60 * 1000

  datatype Account = Account(email: string, active: bool)

  datatype Tenant = Tenant(slug: string, deletionScheduledAt: Option<Millis>)

  /** The compound key of the membership table. */
  datatype Member = Member(tenantId: TenantId, userId: UserId)

  datatype Session = Session(tenantId: TenantId, userId: UserId, expiresAt: Millis, revokedAt: Option<Millis>)

  datatype Org = Org(accounts: map<UserId, Account>, tenants: map<TenantId, Tenant>,
                     memberships: map<Member, Role>, sessions: map<SessionToken, Session>)

  datatype Answer = Done | BadRequest | Unauthorized | Forbidden | NotFound | Conflict | MissingTenant

  const NoOrg := Org(map[], map[], map[], map[])

  predicate IsOwner(org: Org, t: TenantId, u: UserId) {
    Member(t, u) in org.memberships && org.memberships[Member(t, u)] == OWNER
  }

  function Owners(org: Org, t: TenantId): (owners: set<UserId>)
    ensures forall u :: u in owners <==> IsOwner(org, t, u)
  {
    set m | m in org.memberships && m.tenantId == t && org.memberships[m] == OWNER :: m.userId
  }

  predicate EmailTaken(org: Org, email: string) {
    exists u :: u in org.accounts && org.accounts[u].email == email
  }

  predicate SlugTaken(org: Org, slug: string) {
    exists t :: t in org.tenants && org.tenants[t].slug == slug
  }

  ghost function AccountWith(org: Org, email: string): (u: UserId)
    requires EmailTaken(org, email)
    ensures u in org.accounts && org.accounts[u].email == email
  {
    var u :| u in org.accounts && org.accounts[u].email == email;
    u
  }

  function Revoke(sessions: map<SessionToken, Session>, t: TenantId, u: UserId, now: Millis): map<SessionToken, Session> {
    map s | s in sessions ::
      if sessions[s].tenantId == t && sessions[s].userId == u && sessions[s].revokedAt.None?
      then sessions[s].(revokedAt := Some(now)) else sessions[s]
  }

  // ---------------------------------------------------------------- sessions

  /** Whose session it is, if it is live. */
  function CheckSession(org: Org, token: SessionToken, now: Millis): Option<Member> {
    if token !in org.sessions then None
    else
      var s := org.sessions[token];
      if s.userId !in org.accounts || !org.accounts[s.userId].active || s.revokedAt.Some? || s.expiresAt <= now then None
      else Some(Member(s.tenantId, s.userId))
  }

  /** The record of the acting user, with the role of the membership at this moment. */
  function LoadActor(org: Org, m: Member): Option<Actor> {
    if m in org.memberships then Some(Actor(m.tenantId, m.userId, org.memberships[m])) else None
  }

  datatype NewIds = NewIds(userId: UserId, tenantId: TenantId, session: SessionToken)

  predicate IdsTaken(org: Org, ids: NewIds) {
    ids.userId in org.accounts || ids.tenantId in org.tenants || ids.session in org.sessions
  }

  function Register(org: Org, email: string, slug: string, ids: NewIds, now: Millis): (Org, Answer) {
    if EmailTaken(org, email) || SlugTaken(org, slug) || IdsTaken(org, ids) then (org, Conflict)
    else
      (Org(org.accounts[ids.userId := Account(email, true)],
           org.tenants[ids.tenantId := Tenant(slug, None)],
           org.memberships[Member(ids.tenantId, ids.userId) := OWNER],
           org.sessions[ids.session := Session(ids.tenantId, ids.userId, now + SESSION_TTL_MS, None)]),
       Done)
  }

  /** A login, or a switch to another workspace, by a user whose identity was checked. */
  function SignIn(org: Org, u: UserId, t: TenantId, token: SessionToken, now: Millis): (Org, Answer) {
    if u !in org.accounts || !org.accounts[u].active || Member(t, u) !in org.memberships then (org, Unauthorized)
    else if token in org.sessions then (org, Conflict)
    else (org.(sessions := org.sessions[token := Session(t, u, now + SESSION_TTL_MS, None)]), Done)
  }

  function SignOut(org: Org, token: SessionToken, now: Millis): (Org, Answer) {
    if token in org.sessions && org.sessions[token].revokedAt.None? then
      (org.(sessions := org.sessions[token := org.sessions[token].(revokedAt := Some(now))]), Done)
    else (org, Done)
  }

  /** By an instance administrator. */
  function SetStatus(org: Org, u: UserId, active: bool): (Org, Answer) {
    if u !in org.accounts then (org, NotFound)
    else (org.(accounts := org.accounts[u := org.accounts[u].(active := active)]), Done)
  }

  /** One of the transactions that follow a suspension, one for each workspace. */
  function EndSessions(org: Org, u: UserId, t: TenantId, now: Millis): Org {
    org.(sessions := Revoke(org.sessions, t, u, now))
  }

  // -------------------------------------------------------------- membership

  /** The request schema refuses OWNER as the role of a new member. */
  ghost function AddMember(org: Org, actor: Actor, email: string, role: Role): (Org, Answer) {
    if role == OWNER then (org, BadRequest)
    else if !IsTenantAdmin(actor.role) then (org, Forbidden)
    else if !EmailTaken(org, email) || !org.accounts[AccountWith(org, email)].active then (org, NotFound)
    else
      var m := Member(actor.tenantId, AccountWith(org, email));
      if actor.tenantId !in org.tenants then (org, MissingTenant)
      else if m in org.memberships then (org, Conflict)
      else (org.(memberships := org.memberships[m := role]), Done)
  }

  function UpdateMember(org: Org, actor: Actor, u: UserId, role: Role): (Org, Answer) {
    var m := Member(actor.tenantId, u);
    if !IsTenantAdmin(actor.role) then (org, Forbidden)
    else if m !in org.memberships then (org, NotFound)
    else if (org.memberships[m] == OWNER || role == OWNER) && actor.role != OWNER then (org, Forbidden)
    else if org.memberships[m] == OWNER && role != OWNER && |Owners(org, actor.tenantId)| <= 1 then (org, BadRequest)
    else (org.(memberships := org.memberships[m := role]), Done)
  }

  function RemoveMember(org: Org, actor: Actor, u: UserId, now: Millis): (Org, Answer) {
    var m := Member(actor.tenantId, u);
    if !IsTenantAdmin(actor.role) then (org, Forbidden)
    else if u == actor.userId then (org, BadRequest)
    else if m !in org.memberships then (org, NotFound)
    else if org.memberships[m] == OWNER && actor.role != OWNER then (org, Forbidden)
    else
      (org.(memberships := org.memberships - {m}, sessions := Revoke(org.sessions, actor.tenantId, u, now)), Done)
  }

  // ---------------------------------------------------------------- deletion

  function ScheduleDeletion(org: Org, actor: Actor, confirmation: string, now: Millis): (Org, Answer) {
    if actor.role != OWNER then (org, Forbidden)
    else if actor.tenantId !in org.tenants then (org, NotFound)
    else if confirmation != "delete " + org.tenants[actor.tenantId].slug then (org, BadRequest)
    else
      var row := org.tenants[actor.tenantId].(deletionScheduledAt := Some(now + DELETION_DELAY_MS));
      (org.(tenants := org.tenants[actor.tenantId := row]), Done)
  }

  function CancelDeletion(org: Org, actor: Actor): (Org, Answer) {
    if actor.role != OWNER then (org, Forbidden)
    else if actor.tenantId !in org.tenants then (org, MissingTenant)
    else
      var row := org.tenants[actor.tenantId].(deletionScheduledAt := None);
      (org.(tenants := org.tenants[actor.tenantId := row]), Done)
  }

  /** Memberships and sessions go with the workspace. */
  function DeleteTenant(org: Org, t: TenantId): Org {
    Org(org.accounts, org.tenants - {t},
        map m | m in org.memberships && m.tenantId != t :: org.memberships[m],
        map s | s in org.sessions && org.sessions[s].tenantId != t :: org.sessions[s])
  }

  // -------------------------------------------------------------------- runs

  datatype Command =
    | Add(email: string, role: Role)
    | Update(userId: UserId, newRole: Role)
    | Remove(target: UserId)
    | Schedule(confirmation: string)
    | Cancel

  datatype Operation =
    | RegisterOp(email: string, slug: string, ids: NewIds)
    | SignInOp(userId: UserId, tenantId: TenantId, token: SessionToken)
    | SignOutOp(session: SessionToken)
    | StatusOp(account: UserId, active: bool)
    | EndSessionsOp(suspended: UserId, workspace: TenantId)
    | SessionOp(credential: SessionToken)
    | ActorOp(caller: Member)
    | RequestOp(actor: Actor, command: Command)
    | ReadOp
    | DeleteOp(deleted: TenantId, scheduled: Millis)

  datatype Event = Event(at: Millis, op: Operation)

  /** A workspace and the time for its deletion, as a retention pass read them. */
  datatype DueRead = DueRead(tenantId: TenantId, scheduledAt: Millis)

  /** `listed` holds what retention passes have read, `callers` whose sessions were checked,
      `actors` the records that were loaded for them, and `drawn` all session tokens that
      were given out. A request may act on any record that was ever loaded. */
  datatype World = World(
    org: Org, listed: set<DueRead>, callers: set<Member>, actors: set<Actor>, drawn: set<SessionToken>, clock: Millis)

  ghost function Obey(org: Org, actor: Actor, command: Command, now: Millis): (Org, Answer) {
    match command
    case Add(email, role) => AddMember(org, actor, email, role)
    case Update(u, role) => UpdateMember(org, actor, u, role)
    case Remove(u) => RemoveMember(org, actor, u, now)
    case Schedule(confirmation) => ScheduleDeletion(org, actor, confirmation, now)
    case Cancel => CancelDeletion(org, actor)
  }

  /** The scheduled deletions, as one query returns them. */
  function ScheduledDeletions(org: Org): set<DueRead> {
    set t | t in org.tenants && org.tenants[t].deletionScheduledAt.Some? :: DueRead(t, org.tenants[t].deletionScheduledAt.value)
  }

  /** The pass compares what it read with the clock when it comes to the workspace. */
  predicate Deletes(w: World, e: Event) {
    e.op.DeleteOp? && DueRead(e.op.deleted, e.op.scheduled) in w.listed && e.op.scheduled <= e.at
  }

  ghost function CommitOrg(w: World, e: Event): Org {
    match e.op
    case RegisterOp(email, slug, ids) => Register(w.org, email, slug, ids, e.at).0
    case SignInOp(u, t, token) => SignIn(w.org, u, t, token, e.at).0
    case SignOutOp(token) => SignOut(w.org, token, e.at).0
    case StatusOp(u, active) => SetStatus(w.org, u, active).0
    case EndSessionsOp(u, t) => EndSessions(w.org, u, t, e.at)
    case RequestOp(actor, command) => Obey(w.org, actor, command, e.at).0
    case DeleteOp(t, _) => if Deletes(w, e) then DeleteTenant(w.org, t) else w.org
    case _ => w.org
  }

  function ReadsAfter(w: World, e: Event): set<DueRead> {
    match e.op
    case ReadOp => w.listed + ScheduledDeletions(w.org)
    case DeleteOp(t, _) => if Deletes(w, e) then set r | r in w.listed && r.tenantId != t else w.listed
    case _ => w.listed
  }

  function CallersAfter(w: World, e: Event): set<Member> {
    if e.op.SessionOp? && CheckSession(w.org, e.op.credential, e.at).Some?
    then w.callers + {CheckSession(w.org, e.op.credential, e.at).value} else w.callers
  }

  function ActorsAfter(w: World, e: Event): set<Actor> {
    if e.op.ActorOp? && e.op.caller in w.callers && LoadActor(w.org, e.op.caller).Some?
    then w.actors + {LoadActor(w.org, e.op.caller).value} else w.actors
  }

  ghost function Commit(w: World, e: Event): World {
    World(CommitOrg(w, e), ReadsAfter(w, e), CallersAfter(w, e), ActorsAfter(w, e), w.drawn + Draws(e.op), e.at)
  }

  function Draws(op: Operation): set<SessionToken> {
    match op
    case RegisterOp(_, _, ids) => {ids.session}
    case SignInOp(_, _, token) => {token}
    case _ => {}
  }

  type Run = History<Event>

  ghost function After(run: Run): World {
    match run
    case Start => World(NoOrg, {}, {}, {}, {}, 0)
    case Then(past, e) => Commit(After(past), e)
  }

  /** Clocks do not run backwards, no session token is drawn twice, and a request acts on a
      record that was loaded for it. */
  ghost predicate Admissible(w: World, e: Event) {
    && w.clock <= e.at && Draws(e.op) !! w.drawn
    && (e.op.RequestOp? ==> e.op.actor in w.actors)
  }

  ghost predicate IsRun(run: Run) {
    run.Then? ==> IsRun(run.past) && Admissible(After(run.past), run.event)
  }
}
