/** Which sessions are accepted, told by the events of the run instead of the tables. */
module SessionHistory {
  import opened Prelude
  import opened Workspaces

  /** A registration for which address, slug and identifiers are free. */
  predicate Registers(org: Org, email: string, slug: string, ids: NewIds) {
    && (forall u :: u in org.accounts ==> org.accounts[u].email != email)
    && (forall t :: t in org.tenants ==> org.tenants[t].slug != slug)
    && ids.userId !in org.accounts && ids.tenantId !in org.tenants && ids.session !in org.sessions
  }

  /** A registration, or a sign-in of an active account to a workspace that it is in. */
  predicate Opens(org: Org, e: Event, m: Member, token: SessionToken) {
    match e.op
    case RegisterOp(email, slug, ids) => ids == NewIds(m.userId, m.tenantId, token) && Registers(org, email, slug, ids)
    case SignInOp(u, t, drawn) =>
      && m == Member(t, u) && drawn == token && token !in org.sessions
      && u in org.accounts && org.accounts[u].active && m in org.memberships
    case _ => false
  }

  /** A sign-out, the end of the member's sessions in the workspace, the member's removal, or
      the deletion of the workspace. */
  predicate Ends(w: World, e: Event, m: Member, token: SessionToken) {
    match e.op
    case SignOutOp(session) => session == token
    case EndSessionsOp(u, t) => m == Member(t, u)
    case RequestOp(actor, Remove(u)) =>
      && m == Member(actor.tenantId, u) && m in w.org.memberships && u != actor.userId
      && (actor.role == OWNER || (actor.role == ADMIN && w.org.memberships[m] != OWNER))
    case DeleteOp(t, scheduled) => t == m.tenantId && DueRead(t, scheduled) in w.listed && scheduled <= e.at
    case _ => false
  }

  /** When the member's session was opened, unless it has ended since. */
  ghost function OpenedAt(run: Run, m: Member, token: SessionToken): Option<Millis> {
    match run
    case Start => None
    case Then(past, e) =>
      if Opens(After(past).org, e, m, token) then Some(e.at)
      else if Ends(After(past), e, m, token) then None
      else OpenedAt(past, m, token)
  }

  /** The account by its registration and the last change of its status. */
  ghost function AccountBy(run: Run, u: UserId): Option<Account> {
    match run
    case Start => None
    case Then(past, e) =>
      match e.op
      case RegisterOp(email, slug, ids) =>
        if ids.userId == u && Registers(After(past).org, email, slug, ids) then Some(Account(email, true)) else AccountBy(past, u)
      case StatusOp(account, active) =>
        if account == u && AccountBy(past, u).Some? then Some(Account(AccountBy(past, u).value.email, active)) else AccountBy(past, u)
      case _ => AccountBy(past, u)
  }

  /** The workspace's slug by its registration, until it is deleted. */
  ghost function SlugBy(run: Run, t: TenantId): Option<string> {
    match run
    case Start => None
    case Then(past, e) =>
      match e.op
      case RegisterOp(email, slug, ids) =>
        if ids.tenantId == t && Registers(After(past).org, email, slug, ids) then Some(slug) else SlugBy(past, t)
      case DeleteOp(deleted, scheduled) =>
        if deleted == t && DueRead(t, scheduled) in After(past).listed && scheduled <= e.at then None else SlugBy(past, t)
      case _ => SlugBy(past, t)
  }

  /** The table has an open session of the member with this token, drawn at that time. */
  predicate HasOpen(org: Org, m: Member, token: SessionToken, at: Millis) {
    token in org.sessions && org.sessions[token] == Session(m.tenantId, m.userId, at + 2_592_000_000, None)
  }

  /** A session is accepted exactly for thirty days from the event that opened it, unless it
      has ended, and while the account's last status is active. */
  lemma AcceptedIff(run: Run, token: SessionToken, m: Member, now: Millis)
    ensures CheckSession(After(run).org, token, now) == Some(m) <==>
              && OpenedAt(run, m, token).Some? && now < OpenedAt(run, m, token).value + 2_592_000_000
              && AccountBy(run, m.userId).Some? && AccountBy(run, m.userId).value.active
  {
    OpenIff(run, m, token);
    AccountsFollow(run, m.userId);
    hide OpenedAt, AccountBy, After;
  }

  lemma {:induction false} OpenIff(run: Run, m: Member, token: SessionToken)
    ensures OpenedAt(run, m, token).Some? ==> HasOpen(After(run).org, m, token, OpenedAt(run, m, token).value)
    ensures OpenedAt(run, m, token).None? ==>
              var sessions := After(run).org.sessions;
              token in sessions && sessions[token].revokedAt.None? ==> Member(sessions[token].tenantId, sessions[token].userId) != m
  {
    if run.Then? {
      OpenIff(run.past, m, token);
      SessionAfter(After(run.past), run.event, m, token);
      hide CommitOrg, Opens, Ends, CheckSession;
    }
  }

  /** What one step does to a session. */
  lemma SessionAfter(w: World, e: Event, m: Member, token: SessionToken)
    ensures var before, after := w.org.sessions, CommitOrg(w, e).sessions;
            && (Opens(w.org, e, m, token) ==> HasOpen(CommitOrg(w, e), m, token, e.at))
            && (!Opens(w.org, e, m, token) && Ends(w, e, m, token) && token in after && after[token].revokedAt.None?
                ==> Member(after[token].tenantId, after[token].userId) != m)
            && (!Opens(w.org, e, m, token) && !Ends(w, e, m, token) ==>
                  forall at :: HasOpen(w.org, m, token, at) <==> HasOpen(CommitOrg(w, e), m, token, at))
            && (!Opens(w.org, e, m, token) && token in after && after[token].revokedAt.None?
                && Member(after[token].tenantId, after[token].userId) == m
                ==> token in before && before[token] == after[token])
  {
    if e.op.RequestOp? { CommandLeavesSession(w.org, e.op.actor, e.op.command, e.at, m, token); }
    hide Obey;
  }

  lemma CommandLeavesSession(org: Org, actor: Actor, command: Command, now: Millis, m: Member, token: SessionToken)
    ensures var after := Obey(org, actor, command, now).0.sessions;
            var removes := && command == Remove(m.userId) && m == Member(actor.tenantId, m.userId) && m in org.memberships && m.userId != actor.userId
                           && (actor.role == OWNER || (actor.role == ADMIN && org.memberships[m] != OWNER));
            && (removes && token in after && after[token].revokedAt.None? ==> Member(after[token].tenantId, after[token].userId) != m)
            && (token in after <==> token in org.sessions)
            && (!removes && token in org.sessions && Member(org.sessions[token].tenantId, org.sessions[token].userId) == m ==>
                  after[token] == org.sessions[token])
            && (token in after ==> after[token].tenantId == org.sessions[token].tenantId && after[token].userId == org.sessions[token].userId)
            && (token in after && after[token].revokedAt.None? ==> after[token] == org.sessions[token])
  {
    hide Owners;
  }

  lemma {:induction false} AccountsFollow(run: Run, u: UserId)
    ensures var accounts := After(run).org.accounts;
            AccountBy(run, u) == if u in accounts then Some(accounts[u]) else None
  {
    if run.Then? {
      AccountsFollow(run.past, u);
      var w, e := After(run.past), run.event;
      if e.op.RequestOp? { CommandKeepsAccounts(w.org, e.op.actor, e.op.command, e.at); }
      hide Obey;
    }
  }

  lemma CommandKeepsAccounts(org: Org, actor: Actor, command: Command, now: Millis)
    ensures var after := Obey(org, actor, command, now).0;
            && after.accounts == org.accounts && after.tenants.Keys == org.tenants.Keys
            && forall t :: t in org.tenants ==> after.tenants[t].slug == org.tenants[t].slug
  {
    hide Owners;
  }

  lemma {:induction false} SlugsFollow(run: Run, t: TenantId)
    ensures var tenants := After(run).org.tenants;
            SlugBy(run, t) == if t in tenants then Some(tenants[t].slug) else None
  {
    if run.Then? {
      SlugsFollow(run.past, t);
      var w, e := After(run.past), run.event;
      if e.op.RequestOp? { CommandKeepsAccounts(w.org, e.op.actor, e.op.command, e.at); }
      hide Obey;
    }
  }
}
