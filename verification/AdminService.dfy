/** The membership service itself: each method runs its statements in order over the tables
    it owns. */
module AdminService {
  import opened Prelude
  import opened Workspaces
  import MembershipAnswers

  class AdminService {
    var accounts: map<UserId, Account>
    var tenants: map<TenantId, Tenant>
    var memberships: map<Member, Role>
    var sessions: map<SessionToken, Session>

    function Snapshot(): Org
      reads this
    {
      Org(accounts, tenants, memberships, sessions)
    }

    /** The unique index on e-mail addresses. */
    predicate Valid()
      reads this
    {
      forall u, v :: u in accounts && v in accounts && accounts[u].email == accounts[v].email ==> u == v
    }

    constructor ()
      ensures Valid() && Snapshot() == NoOrg
    {
      accounts, tenants, memberships, sessions := map[], map[], map[], map[];
    }

    method Register(email: string, slug: string, ids: NewIds, now: Millis) returns (answer: Answer)
      requires Valid()
      modifies this
      ensures Valid() && (Snapshot(), answer) == Workspaces.Register(old(Snapshot()), email, slug, ids, now)
    {
      ghost var committed := Snapshot();
      if ids.userId in accounts || exists u | u in accounts :: accounts[u].email == email {
        return Conflict;
      }
      var before := accounts;
      accounts := accounts[ids.userId := Account(email, true)];
      if ids.tenantId in tenants || ids.session in sessions || exists t | t in tenants :: tenants[t].slug == slug {
        accounts := before; // unique violation
        assert SlugTaken(committed, slug) || IdsTaken(committed, ids);
        return Conflict;
      }
      tenants := tenants[ids.tenantId := Tenant(slug, None)];
      memberships := memberships[Member(ids.tenantId, ids.userId) := OWNER];
      sessions := sessions[ids.session := Session(ids.tenantId, ids.userId, now + SESSION_TTL_MS, None)];
      return Done;
    }

    method AddMember(actor: Actor, email: string, role: Role) returns (answer: Answer)
      requires Valid()
      modifies this`memberships
      ensures (Snapshot(), answer) == Workspaces.AddMember(old(Snapshot()), actor, email, role)
      ensures answer == Done <==>
                && role != OWNER && (actor.role == OWNER || actor.role == ADMIN) && actor.tenantId in tenants
                && exists u :: u in accounts && accounts[u].email == email && accounts[u].active
                               && Member(actor.tenantId, u) !in old(memberships)
    {
      MembershipAnswers.AddAnswersAre(Snapshot(), actor, email, role);
      if role == OWNER {
        return BadRequest;
      }
      if !IsTenantAdmin(actor.role) {
        return Forbidden;
      }
      if u :| u in accounts && accounts[u].email == email {
        assert u == AccountWith(Snapshot(), email);
        if !accounts[u].active {
          return NotFound;
        }
        if actor.tenantId !in tenants {
          return MissingTenant;
        }
        if Member(actor.tenantId, u) in memberships {
          return Conflict;
        }
        memberships := memberships[Member(actor.tenantId, u) := role];
        return Done;
      } else {
        return NotFound;
      }
    }

    method UpdateMember(actor: Actor, userId: UserId, role: Role) returns (answer: Answer)
      modifies this`memberships
      ensures (Snapshot(), answer) == Workspaces.UpdateMember(old(Snapshot()), actor, userId, role)
      ensures var key := Member(actor.tenantId, userId);
              answer == Done <==>
                && (actor.role == OWNER || actor.role == ADMIN) && key in old(memberships)
                && ((old(memberships)[key] != OWNER && role != OWNER) || actor.role == OWNER)
                && (old(memberships)[key] != OWNER || role == OWNER
                    || exists v :: v != userId && Member(actor.tenantId, v) in old(memberships)
                                   && old(memberships)[Member(actor.tenantId, v)] == OWNER)
    {
      MembershipAnswers.UpdateAnswersAre(Snapshot(), actor, userId, role);
      var key := Member(actor.tenantId, userId);
      if !IsTenantAdmin(actor.role) {
        return Forbidden;
      }
      if key !in memberships {
        return NotFound;
      }
      if (memberships[key] == OWNER || role == OWNER) && actor.role != OWNER {
        return Forbidden;
      }
      if memberships[key] == OWNER && role != OWNER {
        var owners := |Owners(Snapshot(), actor.tenantId)|;
        if owners <= 1 {
          return BadRequest;
        }
      }
      memberships := memberships[key := role];
      return Done;
    }

    method RemoveMember(actor: Actor, userId: UserId, now: Millis) returns (answer: Answer)
      modifies this`memberships, this`sessions
      ensures (Snapshot(), answer) == Workspaces.RemoveMember(old(Snapshot()), actor, userId, now)
      ensures var key := Member(actor.tenantId, userId);
              answer == Done <==>
                && (actor.role == OWNER || actor.role == ADMIN) && userId != actor.userId && key in old(memberships)
                && (old(memberships)[key] != OWNER || actor.role == OWNER)
    {
      if !IsTenantAdmin(actor.role) {
        return Forbidden;
      }
      if userId == actor.userId {
        return BadRequest;
      }
      var key := Member(actor.tenantId, userId);
      if key !in memberships {
        return NotFound;
      }
      if memberships[key] == OWNER && actor.role != OWNER {
        return Forbidden;
      }
      memberships := memberships - {key};
      sessions := Revoke(sessions, actor.tenantId, userId, now);
      return Done;
    }

    method ScheduleDeletion(actor: Actor, confirmation: string, now: Millis) returns (answer: Answer)
      modifies this`tenants
      ensures (Snapshot(), answer) == Workspaces.ScheduleDeletion(old(Snapshot()), actor, confirmation, now)
    {
      if actor.role != OWNER {
        return Forbidden;
      }
      if actor.tenantId !in tenants {
        return NotFound;
      }
      if confirmation != "delete " + tenants[actor.tenantId].slug {
        return BadRequest;
      }
      tenants := tenants[actor.tenantId := tenants[actor.tenantId].(deletionScheduledAt := Some(now + DELETION_DELAY_MS))];
      return Done;
    }

    method CancelDeletion(actor: Actor) returns (answer: Answer)
      modifies this`tenants
      ensures (Snapshot(), answer) == Workspaces.CancelDeletion(old(Snapshot()), actor)
    {
      if actor.role != OWNER {
        return Forbidden;
      }
      if actor.tenantId !in tenants {
        return MissingTenant;
      }
      tenants := tenants[actor.tenantId := tenants[actor.tenantId].(deletionScheduledAt := None)];
      return Done;
    }
  }

  /** The endpoints around the service, and the retention pass. They keep, as a ghost, the run
      that their calls amount to. */
  class WorkspaceApi {
    const admin: AdminService
    var listed: set<DueRead>
    ghost var run: Run

    ghost predicate Valid()
      reads this, admin
    {
      && admin.Valid() && IsRun(run)
      && After(run).org == admin.Snapshot() && After(run).listed == listed
    }

    ghost predicate MayAct(now: Millis)
      reads this, admin
    {
      Valid() && After(run).clock <= now
    }

    constructor ()
      ensures Valid() && run == Start && fresh(admin)
    {
      admin := new AdminService();
      listed, run := {}, Start;
    }

    /** The first half of authenticating: the session and its account. */
    method CheckSession(token: SessionToken, now: Millis) returns (caller: Option<Member>)
      requires MayAct(now)
      modifies this
      ensures Valid() && run == Then(old(run), Event(now, SessionOp(token))) && listed == old(listed)
      ensures caller == Workspaces.CheckSession(admin.Snapshot(), token, now)
      ensures caller.Some? ==> caller.value in After(run).callers
    {
      run := Then(run, Event(now, SessionOp(token)));
      if token !in admin.sessions {
        return None;
      }
      var session := admin.sessions[token];
      if session.userId !in admin.accounts || !admin.accounts[session.userId].active
         || session.revokedAt.Some? || session.expiresAt <= now {
        return None;
      }
      return Some(Member(session.tenantId, session.userId));
    }

    /** The second half: the membership, in a transaction of its own. */
    method LoadActor(caller: Member, now: Millis) returns (actor: Option<Actor>)
      requires MayAct(now) && caller in After(run).callers
      modifies this
      ensures Valid() && run == Then(old(run), Event(now, ActorOp(caller))) && listed == old(listed)
      ensures actor == Workspaces.LoadActor(admin.Snapshot(), caller)
      ensures actor.Some? ==> actor.value in After(run).actors
    {
      run := Then(run, Event(now, ActorOp(caller)));
      if caller !in admin.memberships {
        return None;
      }
      return Some(Actor(caller.tenantId, caller.userId, admin.memberships[caller]));
    }

    /** What the service does for a record, however old. */
    method Obey(actor: Actor, command: Command, now: Millis) returns (answer: Answer)
      requires MayAct(now) && actor in After(run).actors
      modifies this, admin
      ensures Valid() && run == Then(old(run), Event(now, RequestOp(actor, command))) && listed == old(listed)
      ensures (admin.Snapshot(), answer) == Workspaces.Obey(old(admin.Snapshot()), actor, command, now)
    {
      run := Then(run, Event(now, RequestOp(actor, command)));
      hide Workspaces.AddMember, Workspaces.UpdateMember, Workspaces.RemoveMember;
      hide Workspaces.ScheduleDeletion, Workspaces.CancelDeletion;
      match command
      case Add(email, role) => answer := admin.AddMember(actor, email, role);
      case Update(userId, role) => answer := admin.UpdateMember(actor, userId, role);
      case Remove(userId) => answer := admin.RemoveMember(actor, userId, now);
      case Schedule(confirmation) => answer := admin.ScheduleDeletion(actor, confirmation, now);
      case Cancel => answer := admin.CancelDeletion(actor);
    }

    method Register(email: string, slug: string, ids: NewIds, now: Millis) returns (answer: Answer)
      requires MayAct(now) && ids.session !in After(run).drawn
      modifies this, admin
      ensures Valid() && run == Then(old(run), Event(now, RegisterOp(email, slug, ids)))
      ensures (admin.Snapshot(), answer) == Workspaces.Register(old(admin.Snapshot()), email, slug, ids, now)
    {
      run := Then(run, Event(now, RegisterOp(email, slug, ids)));
      answer := admin.Register(email, slug, ids, now);
      hide Workspaces.Register;
    }

    /** A login or a switch to another workspace. */
    method SignIn(userId: UserId, tenantId: TenantId, token: SessionToken, now: Millis) returns (answer: Answer)
      requires MayAct(now) && token !in After(run).drawn
      modifies this, admin
      ensures Valid() && run == Then(old(run), Event(now, SignInOp(userId, tenantId, token)))
      ensures (admin.Snapshot(), answer) == Workspaces.SignIn(old(admin.Snapshot()), userId, tenantId, token, now)
    {
      run := Then(run, Event(now, SignInOp(userId, tenantId, token)));
      if userId !in admin.accounts || !admin.accounts[userId].active || Member(tenantId, userId) !in admin.memberships {
        return Unauthorized;
      }
      if token in admin.sessions {
        return Conflict;
      }
      admin.sessions := admin.sessions[token := Session(tenantId, userId, now + SESSION_TTL_MS, None)];
      return Done;
    }

    method SignOut(token: SessionToken, now: Millis)
      requires MayAct(now)
      modifies this, admin
      ensures Valid() && run == Then(old(run), Event(now, SignOutOp(token)))
    {
      run := Then(run, Event(now, SignOutOp(token)));
      if token in admin.sessions && admin.sessions[token].revokedAt.None? {
        admin.sessions := admin.sessions[token := admin.sessions[token].(revokedAt := Some(now))];
      }
    }

    /** By an instance administrator. The account changes first; the sessions of a suspended
        one end in further transactions, one for each workspace. */
    method SetStatus(userId: UserId, active: bool, now: Millis) returns (answer: Answer)
      requires MayAct(now)
      modifies this, admin
      ensures Valid() && run == Then(old(run), Event(now, StatusOp(userId, active)))
      ensures (admin.Snapshot(), answer) == Workspaces.SetStatus(old(admin.Snapshot()), userId, active)
    {
      run := Then(run, Event(now, StatusOp(userId, active)));
      if userId !in admin.accounts {
        return NotFound;
      }
      admin.accounts := admin.accounts[userId := admin.accounts[userId].(active := active)];
      return Done;
    }

    method EndSessions(userId: UserId, tenantId: TenantId, now: Millis)
      requires MayAct(now)
      modifies this, admin
      ensures Valid() && run == Then(old(run), Event(now, EndSessionsOp(userId, tenantId)))
    {
      run := Then(run, Event(now, EndSessionsOp(userId, tenantId)));
      admin.sessions := Revoke(admin.sessions, tenantId, userId, now);
    }

    /** The retention pass reads all workspaces, and comes to each of them later. */
    method ReadWorkspaces(now: Millis)
      requires MayAct(now)
      modifies this
      ensures Valid() && run == Then(old(run), Event(now, ReadOp))
    {
      run := Then(run, Event(now, ReadOp));
      listed := listed + ScheduledDeletions(admin.Snapshot());
    }

    method DeleteIfDue(read: DueRead, now: Millis)
      requires MayAct(now) && read in listed
      modifies this, admin
      ensures Valid() && run == Then(old(run), Event(now, DeleteOp(read.tenantId, read.scheduledAt)))
      ensures read.scheduledAt <= now ==> read.tenantId !in admin.tenants
      ensures read.scheduledAt > now ==> admin.Snapshot() == old(admin.Snapshot())
    {
      run := Then(run, Event(now, DeleteOp(read.tenantId, read.scheduledAt)));
      if read.scheduledAt <= now {
        var after := DeleteTenant(admin.Snapshot(), read.tenantId);
        admin.tenants, admin.memberships, admin.sessions := after.tenants, after.memberships, after.sessions;
        listed := set r | r in listed && r.tenantId != read.tenantId;
      }
    }
  }
}
