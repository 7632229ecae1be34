/** Every workspace keeps an owner, only owners change who owns it, and a removed member's
    sessions are over for good. */
module Ownership {
  import opened Prelude
  import opened Workspaces

  ghost predicate HasOwner(org: Org, t: TenantId) {
    exists u :: IsOwner(org, t, u)
  }

  ghost predicate Owned(org: Org) {
    forall t :: t in org.tenants ==> HasOwner(org, t)
  }

  /** Memberships and sessions are of existing workspaces and accounts. */
  ghost predicate Sound(org: Org) {
    && (forall m :: m in org.memberships ==> m.tenantId in org.tenants && m.userId in org.accounts)
    && (forall s :: s in org.sessions ==> org.sessions[s].tenantId in org.tenants && org.sessions[s].userId in org.accounts)
  }

  /** A request whose actor record says that it comes from an owner of the workspace. */
  predicate ByOwner(e: Event, t: TenantId) {
    e.op.RequestOp? && e.op.actor.tenantId == t && e.op.actor.role == OWNER
  }

  /** The record says what the membership says now. */
  predicate IsCurrent(org: Org, actor: Actor) {
    LoadActor(org, Member(actor.tenantId, actor.userId)) == Some(actor)
  }

  // ------------------------------------------------------------- single steps

  lemma AnotherOwner(owners: set<UserId>, u: UserId) returns (other: UserId)
    requires |owners| > 1
    ensures other in owners && other != u
  {
    if owners - {u} == {} {
      assert owners <= {u};
      SubsetSize(owners, {u});
      assert false;
    }
    other :| other in owners - {u};
  }

  lemma {:induction false} SubsetSize(a: set<UserId>, b: set<UserId>)
    requires a <= b
    ensures |a| <= |b|
    decreases a
  {
    if a != {} {
      var x :| x in a;
      SubsetSize(a - {x}, b - {x});
    }
  }

  /** With any actor record, even an outdated one, a role change leaves an owner. */
  lemma UpdateKeepsOwner(org: Org, actor: Actor, u: UserId, role: Role, t: TenantId)
    requires HasOwner(org, t)
    ensures HasOwner(UpdateMember(org, actor, u, role).0, t)
  {
    var after := UpdateMember(org, actor, u, role).0;
    var owner :| IsOwner(org, t, owner);
    if !IsOwner(after, t, owner) {
      var other := AnotherOwner(Owners(org, t), u);
      assert IsOwner(after, t, other);
    }
  }

  /** A removal leaves an owner exactly when it is refused or some other member owns the
      workspace; the role in the actor record only decides whether it is refused. */
  lemma RemovalKeepsOwnerIff(org: Org, actor: Actor, u: UserId, now: Millis)
    requires HasOwner(org, actor.tenantId)
    ensures HasOwner(RemoveMember(org, actor, u, now).0, actor.tenantId)
            <==> !(actor.role == OWNER && u != actor.userId && Owners(org, actor.tenantId) == {u})
  {
    var t, after := actor.tenantId, RemoveMember(org, actor, u, now).0;
    var owner :| IsOwner(org, t, owner);
    if actor.role == OWNER && u != actor.userId && Owners(org, t) == {u} {
      assert IsOwner(org, t, u);
      forall v ensures !IsOwner(after, t, v) {
        if v != u { assert v !in Owners(org, t); }
      }
    } else if !IsOwner(after, t, owner) {
      assert owner == u;
      assert u in Owners(org, t);
      assert !(Owners(org, t) <= {u});
      var other :| other in Owners(org, t) && other != u;
      assert IsOwner(after, t, other);
    }
  }

  /** Two owners who both authenticate before either acts can remove each other. */
  lemma OutdatedActorsLeaveNoOwner(org: Org, t: TenantId, a: UserId, b: UserId, now: Millis)
    requires Owners(org, t) == {a, b} && a != b
    ensures var first := RemoveMember(org, Actor(t, a, OWNER), b, now);
            var second := RemoveMember(first.0, Actor(t, b, OWNER), a, now);
            first.1 == Done && second.1 == Done && !HasOwner(second.0, t)
  {
    assert IsOwner(org, t, a) && IsOwner(org, t, b);
    var first := RemoveMember(org, Actor(t, a, OWNER), b, now).0;
    forall u ensures u in Owners(first, t) <==> u == a {
      if u in Owners(first, t) { assert u in Owners(org, t); }
    }
    assert Owners(first, t) == {a};
    assert IsOwner(first, t, a);
    RemovalKeepsOwnerIff(first, Actor(t, b, OWNER), a, now);
  }

  /** The step removes, on a record that says OWNER, another user who is the only owner. */
  predicate OrphansWorkspace(org: Org, e: Event) {
    && e.op.RequestOp? && e.op.actor.role == OWNER && e.op.command.Remove?
    && e.op.command.target != e.op.actor.userId && Owners(org, e.op.actor.tenantId) == {e.op.command.target}
  }

  lemma OwnerRemains(before: Org, after: Org, t: TenantId)
    requires HasOwner(before, t) && forall u :: IsOwner(before, t, u) ==> IsOwner(after, t, u)
    ensures HasOwner(after, t)
  {
    var u :| IsOwner(before, t, u);
    assert IsOwner(after, t, u);
  }

  lemma CommandKeepsOwner(org: Org, e: Event, t: TenantId)
    requires e.op.RequestOp? && HasOwner(org, t) && !(OrphansWorkspace(org, e) && e.op.actor.tenantId == t)
    ensures HasOwner(Obey(org, e.op.actor, e.op.command, e.at).0, t)
  {
    var actor, after := e.op.actor, Obey(org, e.op.actor, e.op.command, e.at).0;
    match e.op.command
    case Update(u, role) => UpdateKeepsOwner(org, actor, u, role, t);
    case Remove(u) =>
      if t == actor.tenantId { RemovalKeepsOwnerIff(org, actor, u, e.at); } else { OwnerRemains(org, after, t); }
    case _ => OwnerRemains(org, after, t);
  }

  lemma StepKeepsSound(w: World, e: Event)
    requires Sound(w.org)
    ensures Sound(Commit(w, e).org)
  {
    if e.op.RequestOp? { CommandKeepsSound(w.org, e.op.actor, e.op.command, e.at); }
    hide Obey;
  }

  lemma CommandKeepsSound(org: Org, actor: Actor, command: Command, now: Millis)
    requires Sound(org)
    ensures Sound(Obey(org, actor, command, now).0)
  {
  }

  /** A step leaves a workspace without owner exactly if it is such a removal. */
  lemma StepKeepsOwnedIff(w: World, e: Event)
    requires Sound(w.org) && Owned(w.org)
    ensures Owned(Commit(w, e).org) <==> !OrphansWorkspace(w.org, e)
  {
    if OrphansWorkspace(w.org, e) {
      var t := e.op.actor.tenantId;
      assert e.op.command.target in Owners(w.org, t);
      assert Member(t, e.op.command.target) in w.org.memberships;
      RemovalKeepsOwnerIff(w.org, e.op.actor, e.op.command.target, e.at);
      assert t in Commit(w, e).org.tenants;
    } else {
      forall t | t in Commit(w, e).org.tenants ensures HasOwner(Commit(w, e).org, t) {
        if t in w.org.tenants {
          SurvivorKeepsOwner(w, e, t);
        } else {
          assert IsOwner(Commit(w, e).org, t, e.op.ids.userId);
        }
      }
    }
  }

  lemma SurvivorKeepsOwner(w: World, e: Event, t: TenantId)
    requires t in w.org.tenants && t in Commit(w, e).org.tenants && HasOwner(w.org, t) && !OrphansWorkspace(w.org, e)
    ensures HasOwner(Commit(w, e).org, t)
  {
    if e.op.RequestOp? { CommandKeepsOwner(w.org, e, t); } else { OwnerRemains(w.org, Commit(w, e).org, t); }
    hide Obey, OrphansWorkspace;
  }

  // --------------------------------------------------------------- whole runs

  lemma {:induction false} AlwaysSound(run: Run)
    ensures Sound(After(run).org)
  {
    if run.Then? {
      AlwaysSound(run.past);
      StepKeepsSound(After(run.past), run.event);
    }
  }

  /** At every moment of the run every workspace has an owner. */
  ghost predicate AlwaysOwned(run: Run) {
    Owned(After(run).org) && (run.Then? ==> AlwaysOwned(run.past))
  }

  ghost predicate NeverOrphans(run: Run) {
    run.Then? ==> NeverOrphans(run.past) && !OrphansWorkspace(After(run.past).org, run.event)
  }

  /** With actor records however old, every workspace has an owner throughout a run exactly
      if no step removes, on a record that says OWNER, another user who is the only owner. */
  lemma {:induction false} OwnedIff(run: Run)
    ensures AlwaysOwned(run) <==> NeverOrphans(run)
  {
    if run.Then? {
      OwnedIff(run.past);
      AlwaysSound(run.past);
      if AlwaysOwned(run.past) {
        StepKeepsOwnedIff(After(run.past), run.event);
      }
      hide Commit, Owned, OrphansWorkspace;
    }
  }

  /** Every request of the run acts on a record that is current at that moment. */
  ghost predicate AlwaysCurrent(run: Run) {
    run.Then? ==> AlwaysCurrent(run.past) && (run.event.op.RequestOp? ==> IsCurrent(After(run.past).org, run.event.op.actor))
  }

  lemma CurrentDoesNotOrphan(org: Org, e: Event)
    requires e.op.RequestOp? && IsCurrent(org, e.op.actor)
    ensures !OrphansWorkspace(org, e)
  {
    assert e.op.actor.role == OWNER ==> e.op.actor.userId in Owners(org, e.op.actor.tenantId);
  }

  lemma {:induction false} CurrentNeverOrphans(run: Run)
    requires AlwaysCurrent(run)
    ensures NeverOrphans(run)
  {
    if run.Then? {
      CurrentNeverOrphans(run.past);
      if run.event.op.RequestOp? { CurrentDoesNotOrphan(After(run.past).org, run.event); }
    }
  }

  /** So when no record is outdated, every workspace has an owner, who has an account. */
  lemma EveryWorkspaceHasAnOwner(run: Run, t: TenantId)
    requires AlwaysCurrent(run) && t in After(run).org.tenants
    ensures exists u :: IsOwner(After(run).org, t, u) && u in After(run).org.accounts
  {
    CurrentNeverOrphans(run);
    OwnedIff(run);
    AlwaysSound(run);
    assert HasOwner(After(run).org, t);
    var u :| IsOwner(After(run).org, t, u);
    assert Member(t, u) in After(run).org.memberships;
  }

  /** When two owners have sessions, both can load their records before either acts, and then
      remove each other. */
  lemma TwoOwnersCanRemoveEachOther(run: Run, t: TenantId, a: UserId, b: UserId, tokenA: SessionToken, tokenB: SessionToken, now: Millis)
    returns (longer: Run)
    requires IsRun(run) && After(run).clock <= now && Owners(After(run).org, t) == {a, b} && a != b
    requires CheckSession(After(run).org, tokenA, now) == Some(Member(t, a))
    requires CheckSession(After(run).org, tokenB, now) == Some(Member(t, b))
    ensures IsRun(longer) && Within(run, longer) && t in After(longer).org.tenants && !HasOwner(After(longer).org, t)
  {
    AlwaysSound(run);
    assert IsOwner(After(run).org, t, a) && IsOwner(After(run).org, t, b);
    var loadedA := LoadRecord(run, tokenA, t, a, now);
    var loaded := LoadRecord(loadedA, tokenB, t, b, now);
    WithinTransitive(run, loadedA, loaded);
    hide Owners, HasOwner, CheckSession;
    longer := RemoveEachOther(loaded, t, a, b);
    WithinTransitive(run, loaded, longer);
  }

  lemma RemoveEachOther(loaded: Run, t: TenantId, a: UserId, b: UserId) returns (longer: Run)
    requires IsRun(loaded) && Owners(After(loaded).org, t) == {a, b} && a != b && t in After(loaded).org.tenants
    requires Actor(t, a, OWNER) in After(loaded).actors && Actor(t, b, OWNER) in After(loaded).actors
    ensures IsRun(longer) && Within(loaded, longer) && t in After(longer).org.tenants && !HasOwner(After(longer).org, t)
  {
    var w, actorA, actorB := After(loaded), Actor(t, a, OWNER), Actor(t, b, OWNER);
    OutdatedActorsLeaveNoOwner(w.org, t, a, b, w.clock);
    hide HasOwner, Owners, RemoveMember;
    var first := Then(loaded, Event(w.clock, RequestOp(actorA, Remove(b))));
    assert After(first) == World(RemoveMember(w.org, actorA, b, w.clock).0, w.listed, w.callers, w.actors, w.drawn, w.clock);
    longer := Then(first, Event(w.clock, RequestOp(actorB, Remove(a))));
    assert Within(loaded, first);
    assert After(longer).org == RemoveMember(After(first).org, actorB, a, w.clock).0;
    TenantsKept(w.org, actorA, actorB, b, a, w.clock);
  }

  lemma TenantsKept(org: Org, actorA: Actor, actorB: Actor, u: UserId, v: UserId, now: Millis)
    ensures RemoveMember(RemoveMember(org, actorA, u, now).0, actorB, v, now).0.tenants == org.tenants
  {
  }

  lemma LoadRecord(run: Run, token: SessionToken, t: TenantId, u: UserId, now: Millis) returns (longer: Run)
    requires IsRun(run) && After(run).clock <= now && CheckSession(After(run).org, token, now) == Some(Member(t, u))
    requires IsOwner(After(run).org, t, u)
    ensures IsRun(longer) && Within(run, longer) && After(longer).clock == now && After(longer).org == After(run).org
    ensures After(longer).actors == After(run).actors + {Actor(t, u, OWNER)}
  {
    var checked := Then(run, Event(now, SessionOp(token)));
    longer := Then(checked, Event(now, ActorOp(Member(t, u))));
    assert Within(run, checked) && Within(run, longer);
  }

  /** A record was loaded from the membership at some moment, for a caller whose session was
      live at some moment before. */
  lemma {:induction false} ActorWasAuthenticated(run: Run, actor: Actor) returns (loaded: Run, checked: Run)
    requires actor in After(run).actors
    ensures Within(loaded, run) && loaded.Then? && IsCurrent(After(loaded.past).org, actor)
    ensures Within(checked, loaded) && checked.Then? && checked.event.op.SessionOp?
    ensures CheckSession(After(checked.past).org, checked.event.op.credential, checked.event.at) == Some(Member(actor.tenantId, actor.userId))
  {
    if actor in After(run.past).actors {
      loaded, checked := ActorWasAuthenticated(run.past, actor);
    } else {
      loaded := run;
      checked := CallerWasChecked(run.past, Member(actor.tenantId, actor.userId));
    }
  }

  lemma {:induction false} CallerWasChecked(run: Run, m: Member) returns (checked: Run)
    requires m in After(run).callers
    ensures Within(checked, run) && checked.Then? && checked.event.op.SessionOp?
    ensures CheckSession(After(checked.past).org, checked.event.op.credential, checked.event.at) == Some(m)
  {
    if m in After(run.past).callers { checked := CallerWasChecked(run.past, m); } else { checked := run; }
  }

  lemma OwnersCommand(org: Org, actor: Actor, command: Command, now: Millis, t: TenantId, u: UserId)
    requires Member(t, u) in org.memberships ==> t in org.tenants
    requires IsOwner(org, t, u) != IsOwner(Obey(org, actor, command, now).0, t, u)
    ensures actor.tenantId == t && actor.role == OWNER
  {
  }

  lemma OwnersStep(w: World, e: Event, t: TenantId, u: UserId)
    requires Sound(w.org) && t in w.org.tenants && t in CommitOrg(w, e).tenants
    requires IsOwner(w.org, t, u) != IsOwner(CommitOrg(w, e), t, u)
    ensures ByOwner(e, t)
  {
    if e.op.RequestOp? { OwnersCommand(w.org, e.op.actor, e.op.command, e.at, t, u); }
    hide Obey;
  }

  /** While a workspace exists, somebody becomes or stops being its owner only in a request
      by somebody who was an owner when the record for the request was loaded. */
  lemma OwnersChangeOnlyByOwners(run: Run, e: Event, t: TenantId, u: UserId) returns (loaded: Run)
    requires IsRun(History.Then(run, e))
    requires t in After(run).org.tenants && t in After(History.Then(run, e)).org.tenants
    requires IsOwner(After(run).org, t, u) != IsOwner(After(History.Then(run, e)).org, t, u)
    ensures ByOwner(e, t)
    ensures Within(loaded, run) && loaded.Then? && IsOwner(After(loaded.past).org, t, e.op.actor.userId)
  {
    AlwaysSound(run);
    OwnersStep(After(run), e, t, u);
    hide Commit, CommitOrg;
    var checked;
    loaded, checked := ActorWasAuthenticated(run, e.op.actor);
  }

  // ---------------------------------------------------------------- sessions

  /** The token was given out, and no valid session carries it. */
  ghost predicate Ended(w: World, token: SessionToken) {
    && token in w.drawn
    && (token in w.org.sessions ==> w.org.sessions[token].revokedAt.Some?)
  }

  lemma {:induction false} EndedForever(h: Run, run: Run, token: SessionToken, now: Millis)
    requires IsRun(run) && Within(h, run) && Ended(After(h), token)
    ensures Ended(After(run), token) && CheckSession(After(run).org, token, now) == None
    decreases run
  {
    if h != run {
      EndedForever(h, run.past, token, now);
      EndedStep(After(run.past), run.event, token);
      hide Commit;
    }
  }

  lemma EndedCommand(org: Org, actor: Actor, command: Command, now: Millis, token: SessionToken)
    ensures var after := Obey(org, actor, command, now).0.sessions;
            && (token in after <==> token in org.sessions)
            && (token in after && org.sessions[token].revokedAt.Some? ==> after[token].revokedAt.Some?)
  {
  }

  lemma EndedStep(w: World, e: Event, token: SessionToken)
    requires Ended(w, token) && Admissible(w, e)
    ensures Ended(Commit(w, e), token)
  {
    if e.op.RequestOp? { EndedCommand(w.org, e.op.actor, e.op.command, e.at, token); }
    hide Obey;
  }

  /** The last event of `h` ended the user's sessions in the workspace: by a removal, or by
      the transaction that follows a suspension. */
  ghost predicate EndsSessions(h: Run, t: TenantId, u: UserId) {
    && h.Then?
    && var org, e := After(h.past).org, h.event;
       || (&& e.op.RequestOp? && e.op.actor.tenantId == t && e.op.command == Remove(u)
           && RemoveMember(org, e.op.actor, u, e.at).1 == Done)
       || e.op == EndSessionsOp(u, t)
  }

  lemma {:induction false} SessionsAreDrawn(run: Run, token: SessionToken)
    requires token in After(run).org.sessions
    ensures token in After(run).drawn
  {
    if token in After(run.past).org.sessions {
      SessionsAreDrawn(run.past, token);
    } else {
      NewSessionIsDrawn(After(run.past), run.event, token);
    }
    hide CommitOrg;
  }

  lemma NewSessionIsDrawn(w: World, e: Event, token: SessionToken)
    requires token in CommitOrg(w, e).sessions && token !in w.org.sessions
    ensures token in Draws(e.op)
  {
    if e.op.RequestOp? { EndedCommand(w.org, e.op.actor, e.op.command, e.at, token); }
    hide Obey;
  }

  /** No session that a member had when removed, or that a suspension ended, is ever accepted
      again, also after the user is added back or reinstated. */
  lemma EndedSessionsAreOver(run: Run, h: Run, t: TenantId, u: UserId, token: SessionToken, now: Millis)
    requires IsRun(run) && Within(h, run) && EndsSessions(h, t, u)
    requires var s := After(h.past).org.sessions;
             token in s && s[token].tenantId == t && s[token].userId == u
    ensures CheckSession(After(run).org, token, now) == None
  {
    SessionsAreDrawn(h.past, token);
    assert Ended(After(h), token);
    EndedForever(h, run, token, now);
  }

  // ---------------------------------------------------------------- deletion

  /** A request on an owner's record that schedules the deletion, or one that cancels it. */
  ghost predicate Schedules(h: Run, t: TenantId) {
    && h.Then? && ByOwner(h.event, t) && h.event.op.command.Schedule?
    && Obey(After(h.past).org, h.event.op.actor, h.event.op.command, h.event.at).1 == Done
  }

  predicate Cancels(h: Run, t: TenantId) {
    h.Then? && ByOwner(h.event, t) && h.event.op.command.Cancel?
  }

  ghost predicate Uncancelled(schedule: Run, run: Run, t: TenantId) {
    forall x :: Within(x, run) && Within(schedule, x) && x != schedule ==> !Cancels(x, t)
  }

  /** The last schedule request, if a deletion is scheduled. */
  lemma {:induction false} ScheduledByOwner(run: Run, t: TenantId) returns (h: Run)
    requires t in After(run).org.tenants && After(run).org.tenants[t].deletionScheduledAt.Some?
    ensures Within(h, run) && Schedules(h, t)
    ensures h.event.at + DELETION_DELAY_MS == After(run).org.tenants[t].deletionScheduledAt.value
    ensures Uncancelled(h, run, t)
  {
    AlwaysSound(run.past);
    var before := After(run.past).org;
    if t in before.tenants && before.tenants[t] == After(run).org.tenants[t] && !Cancels(run, t) {
      h := ScheduledByOwner(run.past, t);
      forall x | Within(x, run) && Within(h, x) && x != h ensures !Cancels(x, t) {
        if x != run { assert Within(x, run.past); }
      }
    } else {
      h := run;
      ScheduleStep(run, t);
      forall x | Within(x, run) && Within(run, x) ensures x == run {
        WithinAntisymmetric(x, run);
      }
    }
  }

  lemma ScheduleStep(run: Run, t: TenantId)
    requires run.Then? && Sound(After(run.past).org)
    requires t in After(run).org.tenants && After(run).org.tenants[t].deletionScheduledAt.Some?
    requires !(t in After(run.past).org.tenants && After(run.past).org.tenants[t] == After(run).org.tenants[t] && !Cancels(run, t))
    ensures Schedules(run, t) && run.event.at + DELETION_DELAY_MS == After(run).org.tenants[t].deletionScheduledAt.value
  {
    var w, e := After(run.past), run.event;
    if !e.op.RequestOp? {
      TenantsStay(w, e, t);
      assert false;
    }
    ScheduleCommand(w.org, e.op.actor, e.op.command, e.at, t);
    hide Obey;
  }

  /** What a command does to a scheduled deletion. */
  lemma ScheduleCommand(org: Org, actor: Actor, command: Command, now: Millis, t: TenantId)
    ensures var (after, answer) := Obey(org, actor, command, now);
            && (t in after.tenants <==> t in org.tenants)
            && (t in after.tenants && after.tenants[t] != org.tenants[t] ==> actor.tenantId == t && actor.role == OWNER)
            && (t in after.tenants && after.tenants[t] != org.tenants[t] && after.tenants[t].deletionScheduledAt.Some? ==>
                  command.Schedule? && answer == Done && after.tenants[t].deletionScheduledAt.value == now + DELETION_DELAY_MS)
            && (t in after.tenants && command.Cancel? && actor.tenantId == t && actor.role == OWNER ==> after.tenants[t].deletionScheduledAt.None?)
  {
  }

  /** Only requests touch a deletion that is scheduled afterwards. */
  lemma TenantsStay(w: World, e: Event, t: TenantId)
    requires t in CommitOrg(w, e).tenants && CommitOrg(w, e).tenants[t].deletionScheduledAt.Some? && !e.op.RequestOp?
    ensures t in w.org.tenants && CommitOrg(w, e).tenants[t] == w.org.tenants[t]
  {
  }

  function Length(run: Run): nat {
    if run.Start? then 0 else 1 + Length(run.past)
  }

  lemma {:induction false} WithinIsShorter(a: Run, b: Run)
    requires Within(a, b)
    ensures Length(a) <= Length(b) && (a == b || Length(a) < Length(b))
    decreases b
  {
    if a != b { WithinIsShorter(a, b.past); }
  }

  lemma WithinAntisymmetric(a: Run, b: Run)
    requires Within(a, b) && Within(b, a)
    ensures a == b
  {
    WithinIsShorter(a, b);
    WithinIsShorter(b, a);
  }

  lemma {:induction false} ReadWasScheduled(run: Run, r: DueRead) returns (read: Run)
    requires r in After(run).listed
    ensures Within(read, run) && read.Then? && read.event.op == ReadOp && r in ScheduledDeletions(After(read.past).org)
  {
    if r in After(run.past).listed { read := ReadWasScheduled(run.past, r); } else { read := run; }
  }

  /** A workspace disappears exactly in a step of a retention pass whose read of it is due by
      the clock then, whatever has become of the schedule since. */
  lemma DeletedIff(w: World, e: Event, t: TenantId)
    requires t in w.org.tenants
    ensures t !in Commit(w, e).org.tenants <==> Deletes(w, e) && e.op.deleted == t
  {
    if e.op.RequestOp? { ScheduleCommand(w.org, e.op.actor, e.op.command, e.at, t); }
    hide Obey;
  }

  /** A workspace is deleted seven days or more after an owner scheduled it, on a read that a
      retention pass made since, with no cancellation between schedule and read. */
  lemma DeletionWasScheduled(run: Run, e: Event, t: TenantId) returns (schedule: Run, read: Run)
    requires t in After(run).org.tenants && t !in After(History.Then(run, e)).org.tenants
    ensures e.op.DeleteOp? && e.op.deleted == t
    ensures Within(schedule, read) && Within(read, run) && Schedules(schedule, t)
    ensures read.Then? && read.event.op == ReadOp
    ensures schedule.event.at + DELETION_DELAY_MS == e.op.scheduled <= e.at
    ensures Uncancelled(schedule, read, t)
  {
    DeletedIff(After(run), e, t);
    hide Commit;
    read := ReadWasScheduled(run, DueRead(t, e.op.scheduled));
    schedule := ScheduledByOwner(read.past, t);
    forall x | Within(x, read) && Within(schedule, x) && x != schedule ensures !Cancels(x, t) {
      if x != read { assert Within(x, read.past); }
    }
  }

  /** A cancellation after the read comes too late: the pass deletes all the same. */
  lemma LateCancellationIsIgnored(run: Run, r: DueRead, actor: Actor, now: Millis, later: Millis) returns (longer: Run)
    requires IsRun(run) && r in After(run).listed && r.tenantId in After(run).org.tenants
    requires actor in After(run).actors && actor.tenantId == r.tenantId && actor.role == OWNER
    requires After(run).clock <= now <= later && r.scheduledAt <= later
    ensures IsRun(longer) && Within(run, longer) && longer.Then? && Cancels(longer.past, r.tenantId)
    ensures r.tenantId in After(longer.past).org.tenants && r.tenantId !in After(longer).org.tenants
    ensures After(longer.past).org.tenants[r.tenantId].deletionScheduledAt == None
  {
    var cancelled := Then(run, Event(now, RequestOp(actor, Cancel)));
    longer := Then(cancelled, Event(later, DeleteOp(r.tenantId, r.scheduledAt)));
    assert Within(run, cancelled) && Within(run, longer);
    DeletedIff(After(cancelled), longer.event, r.tenantId);
  }

  const Ids := NewIds(0, 0, 0)
  const Founder := Actor(0, 0, OWNER)

  function Founded(scheduled: Option<Millis>): Org {
    Org(map[0 := Account("mail", true)], map[0 := Tenant("team", scheduled)], map[Member(0, 0) := OWNER],
        map[0 := Session(0, 0, SESSION_TTL_MS, None)])
  }

  /** A workspace whose owner's record is loaded. */
  lemma FoundedRun() returns (run: Run)
    ensures IsRun(run) && After(run).org == Founded(None) && Founder in After(run).actors && After(run).clock == 0
  {
    run := Then(Start, Event(0, RegisterOp("mail", "team", Ids)));
    assert After(run).org == Founded(None);
    run := LoadRecord(run, 0, 0, 0, 0);
  }

  /** A run that schedules a deletion at once, reads it a millisecond later, and deletes after
      seven days without reading again. */
  lemma EarlyReadDeletes() returns (run: Run)
    ensures IsRun(run) && run.Then? && run.past.Then?
    ensures 0 in After(run.past).org.tenants && 0 !in After(run).org.tenants
    ensures run.past.event == Event(1, ReadOp) && Schedules(run.past.past, 0) && run.past.past.event.at == 0
    ensures run.event.at == DELETION_DELAY_MS
  {
    var founded := FoundedRun();
    FounderSchedules();
    var scheduled := Then(founded, Event(0, RequestOp(Founder, Schedule("delete team"))));
    assert After(scheduled).org == Founded(Some(DELETION_DELAY_MS));
    assert IsRun(scheduled) && After(scheduled).clock == 0 && Schedules(scheduled, 0);
    hide Obey, Founded, Schedules;
    var read := Then(scheduled, Event(1, ReadOp));
    assert IsRun(read) && After(read).org == After(scheduled).org && After(read).clock == 1;
    run := Then(read, Event(DELETION_DELAY_MS, DeleteOp(0, DELETION_DELAY_MS)));
    assert IsRun(run);
    DeletedIff(After(read), run.event, 0);
    hide CommitOrg, IsRun;
  }

  lemma FounderSchedules()
    ensures Obey(Founded(None), Founder, Schedule("delete team"), 0) == (Founded(Some(DELETION_DELAY_MS)), Done)
    ensures 0 in Founded(Some(DELETION_DELAY_MS)).tenants
    ensures DueRead(0, DELETION_DELAY_MS) in ScheduledDeletions(Founded(Some(DELETION_DELAY_MS)))
  {
    assert "delete " + "team" == "delete team";
    assert Founded(None).tenants[0 := Tenant("team", Some(DELETION_DELAY_MS))] == Founded(Some(DELETION_DELAY_MS)).tenants;
  }
}
