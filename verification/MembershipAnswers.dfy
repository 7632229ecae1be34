/** When the membership service says yes, with roles and columns written out, and who can
    change the members of a workspace over whole runs. */
module MembershipAnswers {
  import opened Prelude
  import opened Workspaces
  import opened Ownership

  /** The unique index on e-mail addresses. */
  ghost predicate EmailsUnique(org: Org) {
    forall u, v :: u in org.accounts && v in org.accounts && org.accounts[u].email == org.accounts[v].email ==> u == v
  }

  lemma AddAnswersAre(org: Org, actor: Actor, email: string, role: Role)
    requires EmailsUnique(org)
    ensures var (after, answer) := AddMember(org, actor, email, role);
            var admin := actor.role == OWNER || actor.role == ADMIN;
            && (answer == BadRequest <==> role == OWNER)
            && (answer == Forbidden <==> role != OWNER && !admin)
            && (answer == NotFound <==> role != OWNER && admin
                                        && forall u :: u in org.accounts ==> org.accounts[u].email != email || !org.accounts[u].active)
            && (answer != Done ==> after == org)
            && (forall u :: u in org.accounts && org.accounts[u].email == email ==>
                  && (answer == Done <==> && role != OWNER && admin && org.accounts[u].active && actor.tenantId in org.tenants
                                          && Member(actor.tenantId, u) !in org.memberships)
                  && (answer == Done ==> after == org.(memberships := org.memberships[Member(actor.tenantId, u) := role])))
            && (answer == Done ==> exists u :: u in org.accounts && org.accounts[u].email == email)
  {
  }

  /** A demotion is refused for the only owner. */
  lemma UpdateAnswersAre(org: Org, actor: Actor, u: UserId, role: Role)
    ensures var (after, answer) := UpdateMember(org, actor, u, role);
            var admin := actor.role == OWNER || actor.role == ADMIN;
            var m := Member(actor.tenantId, u);
            var was := if m in org.memberships then org.memberships[m] else VIEWER;
            var allowed := admin && m in org.memberships && ((was != OWNER && role != OWNER) || actor.role == OWNER);
            var another := exists v :: v != u && Member(actor.tenantId, v) in org.memberships && org.memberships[Member(actor.tenantId, v)] == OWNER;
            && (answer == NotFound <==> admin && m !in org.memberships)
            && (answer == Forbidden <==> !admin || (m in org.memberships && !allowed))
            && (answer == BadRequest <==> allowed && was == OWNER && role != OWNER && !another)
            && (answer == Done <==> allowed && (was != OWNER || role == OWNER || another))
            && after == if answer == Done then org.(memberships := org.memberships[m := role]) else org
  {
    var m := Member(actor.tenantId, u);
    if m in org.memberships && org.memberships[m] == OWNER {
      MoreThanOneIff(org, actor.tenantId, u);
    }
  }

  lemma MoreThanOneIff(org: Org, t: TenantId, u: UserId)
    requires IsOwner(org, t, u)
    ensures |Owners(org, t)| > 1 <==> exists v :: v != u && Member(t, v) in org.memberships && org.memberships[Member(t, v)] == OWNER
  {
    var owners := Owners(org, t);
    assert u in owners;
    if |owners| > 1 {
      var v := AnotherOwner(owners, u);
      assert IsOwner(org, t, v);
    }
    if v :| v != u && Member(t, v) in org.memberships && org.memberships[Member(t, v)] == OWNER {
      assert IsOwner(org, t, v);
      SubsetSize({u, v}, owners);
    }
  }

  lemma RemoveAnswersAre(org: Org, actor: Actor, u: UserId, now: Millis)
    ensures var (after, answer) := RemoveMember(org, actor, u, now);
            var admin := actor.role == OWNER || actor.role == ADMIN;
            var m := Member(actor.tenantId, u);
            && (answer == BadRequest <==> admin && u == actor.userId)
            && (answer == NotFound <==> admin && u != actor.userId && m !in org.memberships)
            && (answer == Forbidden <==> !admin || (u != actor.userId && m in org.memberships && org.memberships[m] == OWNER && actor.role != OWNER))
            && (answer == Done <==> admin && u != actor.userId && m in org.memberships && (org.memberships[m] != OWNER || actor.role == OWNER))
            && (answer != Done ==> after == org)
            && (answer == Done ==>
                  && after.memberships == org.memberships - {m} && after.accounts == org.accounts && after.tenants == org.tenants
                  && after.sessions.Keys == org.sessions.Keys
                  && forall s :: s in org.sessions ==>
                       after.sessions[s] == if org.sessions[s].tenantId == actor.tenantId && org.sessions[s].userId == u && org.sessions[s].revokedAt == None
                                            then org.sessions[s].(revokedAt := Some(now)) else org.sessions[s])
  {
  }

  lemma DeletionAnswersAre(org: Org, actor: Actor, confirmation: string, now: Millis)
    ensures var (scheduled, answer) := ScheduleDeletion(org, actor, confirmation, now);
            var (cancelled, reply) := CancelDeletion(org, actor);
            var t := actor.tenantId;
            && (answer == Done <==> actor.role == OWNER && t in org.tenants && confirmation == "delete " + org.tenants[t].slug)
            && (reply == Done <==> actor.role == OWNER && t in org.tenants)
            && (answer == Done ==>
                  scheduled == org.(tenants := org.tenants[t := Tenant(org.tenants[t].slug, Some(now + 604_800_000))]))
            && (reply == Done ==> cancelled == org.(tenants := org.tenants[t := Tenant(org.tenants[t].slug, None)]))
            && (answer != Done ==> scheduled == org) && (reply != Done ==> cancelled == org)
  {
  }

  // ------------------------------------------------------------- whole runs

  /** The role in a membership, if there is one. */
  function RoleOf(org: Org, m: Member): Option<Role> {
    if m in org.memberships then Some(org.memberships[m]) else None
  }

  /** A membership changes only when its workspace begins or ends, or in a request on the
      record of an administrator of the workspace: none removes itself, and what concerns
      owners takes an owner. */
  lemma MembersChangeOnlyBy(run: Run, e: Event, m: Member)
    requires RoleOf(After(run).org, m) != RoleOf(After(History.Then(run, e)).org, m)
    ensures var before, after := RoleOf(After(run).org, m), RoleOf(After(History.Then(run, e)).org, m);
            || (e.op.RegisterOp? && m == Member(e.op.ids.tenantId, e.op.ids.userId) && before == None && after == Some(OWNER))
            || (e.op.DeleteOp? && e.op.deleted == m.tenantId && after == None)
            || (&& e.op.RequestOp? && e.op.actor.tenantId == m.tenantId
                && (e.op.actor.role == OWNER || e.op.actor.role == ADMIN)
                && (before == Some(OWNER) || after == Some(OWNER) ==> e.op.actor.role == OWNER)
                && (before == None ==> e.op.command.Add? && after == Some(e.op.command.role))
                && (after == None ==> e.op.command == Remove(m.userId) && e.op.actor.userId != m.userId)
                && (before.Some? && after.Some? ==> e.op.command == Update(m.userId, after.value)))
  {
    AlwaysSound(run);
    var org := After(run).org;
    if e.op.RequestOp? {
      CommandChangesMembers(org, e.op.actor, e.op.command, e.at, m);
    } else if e.op.RegisterOp? {
      assert m in org.memberships ==> m.tenantId in org.tenants;
    }
    hide Obey, Sound;
  }

  lemma CommandChangesMembers(org: Org, actor: Actor, command: Command, now: Millis, m: Member)
    requires RoleOf(org, m) != RoleOf(Obey(org, actor, command, now).0, m)
    ensures var before, after := RoleOf(org, m), RoleOf(Obey(org, actor, command, now).0, m);
            && actor.tenantId == m.tenantId && (actor.role == OWNER || actor.role == ADMIN)
            && (before == Some(OWNER) || after == Some(OWNER) ==> actor.role == OWNER)
            && (before == None ==> command.Add? && after == Some(command.role))
            && (after == None ==> command == Remove(m.userId) && actor.userId != m.userId)
            && (before.Some? && after.Some? ==> command == Update(m.userId, after.value))
  {
    hide Owners;
  }

  /** A session is accepted only for an active account, and within thirty days of the
      registration or sign-in that drew its token. */
  lemma {:induction false} SessionIsRecent(run: Run, token: SessionToken, now: Millis) returns (h: Run)
    requires CheckSession(After(run).org, token, now).Some?
    ensures var m, org := CheckSession(After(run).org, token, now).value, After(run).org;
            && m.userId in org.accounts && org.accounts[m.userId].active
            && Within(h, run) && h.Then? && now < h.event.at + 2_592_000_000
            && (h.event.op == SignInOp(m.userId, m.tenantId, token)
                || (h.event.op.RegisterOp? && h.event.op.ids == NewIds(m.userId, m.tenantId, token)))
  {
    h := SessionBegan(run, token);
  }

  lemma {:induction false} SessionBegan(run: Run, token: SessionToken) returns (h: Run)
    requires token in After(run).org.sessions
    ensures var s := After(run).org.sessions[token];
            && Within(h, run) && h.Then? && s.expiresAt == h.event.at + 2_592_000_000
            && (h.event.op == SignInOp(s.userId, s.tenantId, token)
                || (h.event.op.RegisterOp? && h.event.op.ids == NewIds(s.userId, s.tenantId, token)))
    decreases run
  {
    var w, e := After(run.past), run.event;
    SessionStep(w, e, token);
    if token in w.org.sessions { h := SessionBegan(run.past, token); } else { h := run; }
    hide CommitOrg;
  }

  lemma SessionStep(w: World, e: Event, token: SessionToken)
    requires token in CommitOrg(w, e).sessions
    ensures var after := CommitOrg(w, e).sessions[token];
            if token in w.org.sessions then after == w.org.sessions[token].(revokedAt := after.revokedAt)
            else && after.expiresAt == e.at + 2_592_000_000
                 && (e.op == SignInOp(after.userId, after.tenantId, token)
                     || (e.op.RegisterOp? && e.op.ids == NewIds(after.userId, after.tenantId, token)))
  {
    if e.op.RequestOp? { SessionCommand(w.org, e.op.actor, e.op.command, e.at, token); }
    hide Obey;
  }

  lemma SessionCommand(org: Org, actor: Actor, command: Command, now: Millis, token: SessionToken)
    requires token in Obey(org, actor, command, now).0.sessions
    ensures token in org.sessions
    ensures var after := Obey(org, actor, command, now).0.sessions[token]; after == org.sessions[token].(revokedAt := after.revokedAt)
  {
  }
}
