/** The service itself: each method runs one transaction over the tables it owns,
    statement by statement, and puts the tables back when the transaction throws. It keeps,
    as a ghost, the run that its calls amount to, so what holds of every run holds after
    every sequence of calls. */
module DeviceAuthorization {
  import opened Prelude
  import opened ConnectorStore
  import opened CredentialChains
  import CredentialAnswers

  class DeviceAuthorizationService {
    var authorizations: map<DeviceCode, Authorization>
    var installations: map<InstallationId, Installation>
    var credentials: map<RefreshToken, Credential>
    var projects: map<ProjectId, Project>
    ghost var history: Run

    function Snapshot(): Tables
      reads this
    {
      Tables(authorizations, installations, credentials, projects)
    }

    /** The tables are those of the run. */
    ghost predicate Valid()
      reads this
    {
      IsRun(history) && After(history).db == Snapshot()
    }

    ghost predicate MayAct(now: Millis)
      reads this
    {
      Valid() && After(history).clock <= now
    }

    constructor ()
      ensures Valid() && Snapshot() == NoTables && history == Start
    {
      authorizations, installations, credentials, projects := map[], map[], map[], map[];
      history := Start;
    }

    method ChangeProjects(projects: map<ProjectId, Project>, now: Millis)
      requires MayAct(now)
      modifies this
      ensures Valid() && history == Then(old(history), Event(now, ProjectsOp(projects)))
    {
      history := Then(history, Event(now, ProjectsOp(projects)));
      this.projects := projects;
    }

    method Create(code: DeviceCode, userCode: UserCode, platform: string, challenge: Option<Challenge>, now: Millis)
      returns (answer: CreateAnswer)
      requires MayAct(now)
      modifies this
      ensures Valid() && history == Then(old(history), Event(now, CreateOp(code, userCode, platform, challenge)))
      ensures (Snapshot(), answer) == ConnectorStore.Create(old(Snapshot()), code, userCode, platform, challenge, now)
    {
      Reachable(history);
      history := Then(history, Event(now, CreateOp(code, userCode, platform, challenge)));
      if code in authorizations || exists c | c in authorizations :: authorizations[c].userCode == userCode {
        return CreateConflict;
      }
      authorizations := authorizations[code := Authorization(userCode, platform, challenge, PENDING, None, now + DEVICE_TTL_MS, None)];
      return Created;
    }

    method Approve(actor: Actor, userCode: UserCode, projectId: ProjectId, newInstallation: InstallationId, now: Millis)
      returns (answer: ApproveAnswer)
      requires MayAct(now)
      modifies this
      ensures Valid() && history == Then(old(history), Event(now, ApproveOp(actor, userCode, projectId, newInstallation)))
      ensures (Snapshot(), answer) == ConnectorStore.Approve(old(Snapshot()), actor, userCode, projectId, newInstallation, now)
      ensures answer.Approved? <==>
                && (exists code :: code in old(authorizations) && old(authorizations)[code].userCode == userCode
                                   && old(authorizations)[code].status == PENDING && now < old(authorizations)[code].expiresAt)
                && projectId in projects && projects[projectId].tenantId == actor.tenantId && projects[projectId].active
                && newInstallation !in old(installations)
    {
      Reachable(history);
      CredentialAnswers.ApproveAnswers(Snapshot(), actor, userCode, projectId, newInstallation, now);
      history := Then(history, Event(now, ApproveOp(actor, userCode, projectId, newInstallation)));
      if code :| code in authorizations && authorizations[code].userCode == userCode {
        assert code == CodeOf(Snapshot(), userCode);
        var row := authorizations[code];
        if row.status != PENDING {
          return NotPending;
        }
        if row.expiresAt <= now {
          var committed := authorizations;
          authorizations := authorizations[code := row.(status := EXPIRED)];
          authorizations := committed; // the exception undoes the transaction
          return CodeExpired;
        }
        if projectId !in projects || projects[projectId] != Project(actor.tenantId, true) {
          return ProjectForbidden;
        }
        if newInstallation in installations {
          return ApproveConflict;
        }
        installations := installations[newInstallation := Installation(actor.tenantId, actor.userId, row.platform, projectId, true)];
        authorizations := authorizations[code := row.(status := APPROVED,
                                                      approval := Some(Approval(actor.tenantId, actor.userId, projectId, newInstallation)))];
        return Approved;
      } else {
        return UnknownUserCode;
      }
    }

    method Poll(code: DeviceCode, verifier: Option<nat>, now: Millis, draw: Draw) returns (answer: PollAnswer)
      requires MayAct(now) && !FamilyInUse(Snapshot(), draw.family)
      modifies this
      ensures Valid() && history == Then(old(history), Event(now, PollOp(code, verifier, draw)))
      ensures (Snapshot(), answer) == ConnectorStore.Poll(old(Snapshot()), code, verifier, now, draw)
      ensures answer.PollIssued? <==>
                && code in old(authorizations)
                && var row := old(authorizations)[code];
                   && (row.challenge == None || (verifier.Some? && row.challenge == Some(S256(verifier.value))))
                   && now < row.expiresAt && row.status == APPROVED && row.approval.Some?
                   && (row.lastPolledAt.Some? ==> row.lastPolledAt.value + 5_000 <= now)
                   && draw.refresh !in old(credentials)
                   && forall t :: t in old(credentials) ==> old(credentials)[t].access != draw.access
    {
      Reachable(history);
      CredentialAnswers.PollAnswers(Snapshot(), code, verifier, now, draw);
      history := Then(history, Event(now, PollOp(code, verifier, draw)));
      if code !in authorizations {
        return PollInvalid;
      }
      var row := authorizations[code];
      if row.challenge.Some? && (verifier.None? || S256(verifier.value) != row.challenge.value) {
        return InvalidVerifier;
      }
      if row.expiresAt <= now {
        if row.status == PENDING {
          authorizations := authorizations[code := row.(status := EXPIRED)];
        }
        assert old(authorizations)[code := row] == old(authorizations);
        return PollExpired;
      }
      if row.lastPolledAt.Some? && now - row.lastPolledAt.value < POLL_INTERVAL_MS {
        return SlowDown;
      }
      if row.status == PENDING {
        authorizations := authorizations[code := row.(lastPolledAt := Some(now))];
        return StillPending;
      }
      if row.status != APPROVED || row.approval.None? {
        return Denied;
      }
      var committed := authorizations;
      authorizations := authorizations[code := row.(status := CONSUMED, lastPolledAt := Some(now))];
      if draw.refresh in credentials || exists t | t in credentials :: credentials[t].access == draw.access {
        authorizations := committed; // unique violation
        return PollConflict;
      }
      var approval := row.approval.value;
      credentials := credentials[draw.refresh := Issue(approval.tenantId, approval.installationId, draw.family, draw, now)];
      return PollIssued(Tokens(draw.access, draw.refresh, approval.installationId, approval.projectId));
    }

    method Refresh(token: RefreshToken, now: Millis, draw: Draw) returns (answer: RefreshAnswer)
      requires MayAct(now)
      modifies this
      ensures Valid() && history == Then(old(history), Event(now, RefreshOp(token, draw)))
      ensures (Snapshot(), answer) == ConnectorStore.Refresh(old(Snapshot()), token, now, draw)
      ensures answer.Reuse? <==>
                && token in old(credentials) && old(credentials)[token].revokedAt == None
                && now < old(credentials)[token].refreshExpiresAt && old(credentials)[token].usedAt.Some?
      ensures answer.RefreshInvalid? <==>
                !(token in old(credentials) && old(credentials)[token].revokedAt == None && now < old(credentials)[token].refreshExpiresAt)
    {
      CredentialAnswers.RefreshAnswers(Snapshot(), token, now, draw);
      history := Then(history, Event(now, RefreshOp(token, draw)));
      if token !in credentials || credentials[token].revokedAt.Some? || credentials[token].refreshExpiresAt <= now {
        return RefreshInvalid;
      }
      var row := credentials[token];
      if row.usedAt.Some? {
        credentials := RevokeFamily(credentials, row.family, now);
        return Reuse;
      }
      var committed := credentials;
      credentials := credentials[token := row.(usedAt := Some(now))];
      if draw.refresh in credentials || exists t | t in credentials :: credentials[t].access == draw.access {
        assert Collides(committed, draw) by {
          if draw.refresh !in credentials {
            var t :| t in credentials && credentials[t].access == draw.access;
            assert committed[t].access == draw.access;
          }
        }
        credentials := committed; // unique violation
        return RefreshConflict;
      }
      assert !Collides(committed, draw) by {
        assert forall t :: t in committed ==> t in credentials && committed[t].access == credentials[t].access;
      }
      credentials := credentials[draw.refresh := Issue(row.tenantId, row.installationId, row.family, draw, now)];
      credentials := credentials[token := credentials[token].(replacedBy := Some(draw.refresh))];
      if row.installationId !in installations {
        credentials := committed; // findUniqueOrThrow
        return NoInstallation;
      }
      assert credentials == committed[token := row.(usedAt := Some(now), replacedBy := Some(draw.refresh))]
                                     [draw.refresh := Issue(row.tenantId, row.installationId, row.family, draw, now)];
      return RefreshIssued(Tokens(draw.access, draw.refresh, row.installationId, installations[row.installationId].defaultProjectId));
    }

    /** Accepts a token exactly when some credential carries it, is not revoked or
        expired, and belongs to an active installation. */
    method Authenticate(access: Option<AccessToken>, now: Millis) returns (connector: Option<Connector>)
      requires Valid()
      ensures connector.Some? ==> access.Some? && Authenticates(Snapshot(), access.value, now, connector.value)
      ensures connector.None? && access.Some? ==> forall c :: !Authenticates(Snapshot(), access.value, now, c)
      ensures connector.Some? <==>
                access.Some? && exists t ::
                  && t in credentials && credentials[t].access == access.value
                  && credentials[t].revokedAt == None && now < credentials[t].accessExpiresAt
                  && credentials[t].installationId in installations && installations[credentials[t].installationId].active
    {
      Reachable(history);
      if access.None? {
        return None;
      }
      if t :| t in credentials && credentials[t].access == access.value {
        var row := credentials[t];
        if row.revokedAt.Some? || row.accessExpiresAt <= now || row.installationId !in installations || !installations[row.installationId].active {
          return None;
        }
        assert Live(Snapshot(), t, now);
        return Some(ConnectorOf(Snapshot(), row.installationId));
      } else {
        return None;
      }
    }

    method RevokeConnector(actor: Actor, id: InstallationId, now: Millis) returns (answer: RevokeAnswer)
      requires MayAct(now)
      modifies this
      ensures Valid() && history == Then(old(history), Event(now, RevokeOp(actor, id)))
      ensures (Snapshot(), answer) == ConnectorStore.RevokeConnector(old(Snapshot()), actor, id, now)
      ensures answer.Revoked? <==>
                && (actor.role == OWNER || actor.role == ADMIN)
                && id in old(installations) && old(installations)[id].tenantId == actor.tenantId
    {
      CredentialAnswers.RevokeAnswers(Snapshot(), actor, id, now);
      history := Then(history, Event(now, RevokeOp(actor, id)));
      if !IsTenantAdmin(actor.role) {
        return RevokeForbidden;
      }
      if id !in installations || installations[id].tenantId != actor.tenantId {
        return UnknownConnector;
      }
      installations := installations[id := installations[id].(active := false)];
      credentials := RevokeInstallation(credentials, id, now);
      return Revoked;
    }
  }
}
