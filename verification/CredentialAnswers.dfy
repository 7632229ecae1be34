/** When the connector service says yes, in terms of what happened before: of the requests,
    approvals, polls and revocations of the run, with times and columns written out. */
module CredentialAnswers {
  import opened Prelude
  import opened ConnectorStore
  import opened CredentialChains
  import opened CredentialHistory

  // ------------------------------------------------------------- the tables

  /** The answers of one poll, by the columns of the row. */
  lemma PollAnswers(db: Tables, code: DeviceCode, verifier: Option<nat>, now: Millis, draw: Draw)
    ensures var answer := Poll(db, code, verifier, now, draw).1;
            && (answer.PollInvalid? <==> code !in db.authorizations)
            && (code in db.authorizations ==>
                  var row := db.authorizations[code];
                  var proven := row.challenge == None || (verifier.Some? && row.challenge == Some(S256(verifier.value)));
                  var soon := row.lastPolledAt.Some? && now < row.lastPolledAt.value + 5_000;
                  var collides := draw.refresh in db.credentials || exists t :: t in db.credentials && db.credentials[t].access == draw.access;
                  && (answer.InvalidVerifier? <==> !proven)
                  && (answer.PollExpired? <==> proven && row.expiresAt <= now)
                  && (answer.SlowDown? <==> proven && now < row.expiresAt && soon)
                  && (answer.StillPending? <==> proven && now < row.expiresAt && !soon && row.status == PENDING)
                  && (answer.Denied? <==> proven && now < row.expiresAt && !soon && row.status != PENDING
                                          && !(row.status == APPROVED && row.approval.Some?))
                  && (answer.PollIssued? <==> proven && now < row.expiresAt && !soon && row.status == APPROVED && row.approval.Some? && !collides))
  {
  }

  /** What a poll without tokens writes: that a pending code has expired, or when it was
      polled while pending, and nothing else. */
  lemma PollWrites(db: Tables, code: DeviceCode, verifier: Option<nat>, now: Millis, draw: Draw)
    requires !Poll(db, code, verifier, now, draw).1.PollIssued?
    ensures var (after, answer) := Poll(db, code, verifier, now, draw);
            && (answer.StillPending? ==>
                  after == db.(authorizations := db.authorizations[code := db.authorizations[code].(lastPolledAt := Some(now))]))
            && (answer.PollExpired? && db.authorizations[code].status == PENDING ==>
                  after == db.(authorizations := db.authorizations[code := db.authorizations[code].(status := EXPIRED)]))
            && (!answer.StillPending? && !(answer.PollExpired? && db.authorizations[code].status == PENDING) ==> after == db)
  {
    if code in db.authorizations { assert db.authorizations[code := db.authorizations[code]] == db.authorizations; }
  }

  /** What an exchange writes and returns. */
  lemma ExchangeEffect(db: Tables, code: DeviceCode, verifier: Option<nat>, now: Millis, draw: Draw)
    requires Poll(db, code, verifier, now, draw).1.PollIssued?
    ensures var (after, answer) := Poll(db, code, verifier, now, draw);
            && code in db.authorizations && db.authorizations[code].approval.Some?
            && var row, approval := db.authorizations[code], db.authorizations[code].approval.value;
               && answer.tokens == Tokens(draw.access, draw.refresh, approval.installationId, approval.projectId)
               && after == db.(
                    authorizations := db.authorizations[code := row.(status := CONSUMED, lastPolledAt := Some(now))],
                    credentials := db.credentials[draw.refresh :=
                      Credential(approval.tenantId, approval.installationId, draw.access, draw.family,
                                 now + 900_000, now + 2_592_000_000, None, None, None)])
  {
  }

  lemma ApproveAnswers(db: Tables, actor: Actor, userCode: UserCode, projectId: ProjectId, id: InstallationId, now: Millis)
    requires UserCodesUnique(db)
    ensures var (after, answer) := Approve(db, actor, userCode, projectId, id, now);
            && (answer.UnknownUserCode? <==> forall code :: code in db.authorizations ==> db.authorizations[code].userCode != userCode)
            && (forall code :: code in db.authorizations && db.authorizations[code].userCode == userCode ==>
                  var row := db.authorizations[code];
                  var open := row.status == PENDING && now < row.expiresAt;
                  var ours := projectId in db.projects && db.projects[projectId].tenantId == actor.tenantId && db.projects[projectId].active;
                  && (answer.NotPending? <==> row.status != PENDING)
                  && (answer.CodeExpired? <==> row.status == PENDING && row.expiresAt <= now)
                  && (answer.ProjectForbidden? <==> open && !ours)
                  && (answer.Approved? <==> open && ours && id !in db.installations)
                  && (answer.Approved? ==>
                        && after.authorizations == db.authorizations[code := row.(status := APPROVED,
                             approval := Some(Approval(actor.tenantId, actor.userId, projectId, id)))]
                        && after.installations == db.installations[id := Installation(actor.tenantId, actor.userId, row.platform, projectId, true)]))
            && (!answer.Approved? ==> after == db)
  {
  }

  lemma RefreshAnswers(db: Tables, token: RefreshToken, now: Millis, draw: Draw)
    ensures var (after, answer) := Refresh(db, token, now, draw);
            var alive := token in db.credentials && db.credentials[token].revokedAt == None && now < db.credentials[token].refreshExpiresAt;
            && (answer.RefreshInvalid? <==> !alive)
            && (answer.Reuse? <==> alive && db.credentials[token].usedAt.Some?)
            && (answer.RefreshIssued? <==>
                  && alive && db.credentials[token].usedAt == None && draw.refresh !in db.credentials
                  && (forall t :: t in db.credentials ==> db.credentials[t].access != draw.access)
                  && db.credentials[token].installationId in db.installations)
            && (answer.RefreshIssued? ==>
                  var row := db.credentials[token];
                  && after == db.(credentials := db.credentials
                       [token := row.(usedAt := Some(now), replacedBy := Some(draw.refresh))]
                       [draw.refresh := Credential(row.tenantId, row.installationId, draw.access, row.family,
                                                   now + 900_000, now + 2_592_000_000, None, None, None)])
                  && answer.tokens == Tokens(draw.access, draw.refresh, row.installationId, db.installations[row.installationId].defaultProjectId))
  {
  }

  /** Which access tokens are accepted, and for whom. */
  lemma AuthenticatesIff(db: Tables, access: AccessToken, now: Millis, connector: Connector)
    ensures Authenticates(db, access, now, connector) <==>
              exists t :: && t in db.credentials && db.credentials[t].access == access
                          && db.credentials[t].revokedAt == None && now < db.credentials[t].accessExpiresAt
                          && db.credentials[t].installationId in db.installations
                          && var row := db.installations[db.credentials[t].installationId];
                             && row.active
                             && connector == Connector(db.credentials[t].installationId, row.tenantId, row.createdById, row.defaultProjectId, row.platform)
  {
    if Authenticates(db, access, now, connector) {
      var t :| Live(db, t, now) && db.credentials[t].access == access && connector == ConnectorOf(db, db.credentials[t].installationId);
      assert t in db.credentials;
    }
    if t :| && t in db.credentials && db.credentials[t].access == access
            && db.credentials[t].revokedAt == None && now < db.credentials[t].accessExpiresAt
            && db.credentials[t].installationId in db.installations
            && var row := db.installations[db.credentials[t].installationId];
               && row.active
               && connector == Connector(db.credentials[t].installationId, row.tenantId, row.createdById, row.defaultProjectId, row.platform) {
      assert Live(db, t, now);
    }
  }

  lemma RevokeAnswers(db: Tables, actor: Actor, id: InstallationId, now: Millis)
    ensures var (after, answer) := RevokeConnector(db, actor, id, now);
            var admin := actor.role == OWNER || actor.role == ADMIN;
            var ours := id in db.installations && db.installations[id].tenantId == actor.tenantId;
            && (answer.RevokeForbidden? <==> !admin)
            && (answer.UnknownConnector? <==> admin && !ours)
            && (answer.Revoked? <==> admin && ours)
            && (!answer.Revoked? ==> after == db)
            && (answer.Revoked? ==>
                  && after.installations == db.installations[id := db.installations[id].(active := false)]
                  && after.authorizations == db.authorizations && after.credentials.Keys == db.credentials.Keys
                  && forall t :: t in db.credentials ==>
                       var row := db.credentials[t];
                       after.credentials[t] == if row.installationId == id && row.revokedAt == None then row.(revokedAt := Some(now)) else row)
  {
  }

  // -------------------------------------------------------- where a code stands

  /** The last event of `h` created the code. */
  ghost predicate Creates(h: Run, code: DeviceCode) {
    && h.Then? && h.event.op.CreateOp? && h.event.op.newCode == code
    && Create(After(h.past).db, code, h.event.op.newUserCode, h.event.op.platform, h.event.op.challenge, h.event.at).1.Created?
  }

  /** A code carries what was requested, for ten minutes. */
  lemma {:induction false} CreatedBy(run: Run, code: DeviceCode) returns (h: Run)
    requires code in After(run).db.authorizations
    ensures Within(h, run) && Creates(h, code)
    ensures var row := After(run).db.authorizations[code];
            && row.challenge == h.event.op.challenge && row.platform == h.event.op.platform
            && row.userCode == h.event.op.newUserCode && row.expiresAt == h.event.at + 600_000
    decreases run
  {
    if code in After(run.past).db.authorizations {
      h := CreatedBy(run.past, code);
      CodesPersist(After(run.past).db, run.event, code);
    } else {
      h := run;
      NewCode(After(run.past).db, run.event, code);
    }
    hide Commit;
  }

  lemma NewCode(db: Tables, e: Event, code: DeviceCode)
    requires code in Commit(db, e).authorizations && code !in db.authorizations
    ensures e.op.CreateOp? && e.op.newCode == code
    ensures Create(db, code, e.op.newUserCode, e.op.platform, e.op.challenge, e.at).1.Created?
    ensures Commit(db, e).authorizations[code] == Authorization(e.op.newUserCode, e.op.platform, e.op.challenge, PENDING, None, e.at + 600_000, None)
  {
  }

  /** A code is created once. */
  lemma CreatedOnce(run: Run, g: Run, h: Run, code: DeviceCode)
    requires Within(g, run) && Within(h, run) && Creates(g, code) && Creates(h, code)
    ensures g == h
  {
    WithinLinear(g, h, run);
    if g != h {
      if Within(g, h) { CodeStays(g, h.past, code); } else { CodeStays(h, g.past, code); }
      assert false;
    }
  }

  lemma {:induction false} CodeStays(h: Run, run: Run, code: DeviceCode)
    requires Within(h, run) && code in After(h).db.authorizations
    ensures code in After(run).db.authorizations
    decreases run
  {
    if h != run {
      CodeStays(h, run.past, code);
      CodesPersist(After(run.past).db, run.event, code);
      hide Commit;
    }
  }

  ghost predicate WasApproved(run: Run, code: DeviceCode) {
    exists h, a :: Within(h, run) && Approves(h, code, a)
  }

  ghost predicate WasExchanged(run: Run, code: DeviceCode) {
    exists h, f :: Within(h, run) && Starts(h, code, f)
  }

  /** The last event of `h` polled the code and was told to wait for the approval. */
  ghost predicate WasPending(h: Run, code: DeviceCode) {
    && h.Then? && h.event.op.PollOp? && h.event.op.code == code
    && Poll(After(h.past).db, code, h.event.op.verifier, h.event.at, h.event.op.draw).1.StillPending?
  }

  ghost predicate PolledSince(run: Run, code: DeviceCode, since: Millis) {
    exists h :: Within(h, run) && WasPending(h, code) && h.event.at > since
  }

  /** An approved row is APPROVED or CONSUMED, and no other row is. */
  lemma {:induction false} StatusFollows(run: Run, code: DeviceCode)
    requires code in After(run).db.authorizations
    ensures var row := After(run).db.authorizations[code];
            && (row.status == APPROVED || row.status == CONSUMED <==> row.approval.Some?)
            && row.status != DENIED
    decreases run
  {
    if code in After(run.past).db.authorizations {
      StatusFollows(run.past, code);
      StatusStep(After(run.past).db, run.event, code);
    } else {
      NewCode(After(run.past).db, run.event, code);
    }
    hide Commit;
  }

  /** How a step moves the status of a code. */
  lemma StatusStep(db: Tables, e: Event, code: DeviceCode)
    requires code in db.authorizations
    ensures code in Commit(db, e).authorizations
    ensures var before, after := db.authorizations[code], Commit(db, e).authorizations[code];
            || (after.status == before.status && after.approval == before.approval)
            || (before.status == PENDING && after.status == EXPIRED && after.approval == before.approval)
            || (before.status == PENDING && after.status == APPROVED && after.approval.Some? && e.op.ApproveOp?
                && Approve(db, e.op.actor, e.op.userCode, e.op.projectId, e.op.newInstallation, e.at).1.Approved?
                && UserCodeTaken(db, e.op.userCode) && CodeOf(db, e.op.userCode) == code)
            || (before.status == APPROVED && before.approval.Some? && after.status == CONSUMED && after.approval == before.approval
                && e.op.PollOp? && e.op.code == code && Poll(db, code, e.op.verifier, e.at, e.op.draw).1.PollIssued?)
  {
    match e.op {
      case PollOp(_, _, _) => hide Refresh, Approve, Create, RevokeConnector;
      case ApproveOp(_, _, _, _) => hide Refresh, Poll, Create, RevokeConnector;
      case CreateOp(_, _, _, _) => hide Refresh, Poll, Approve, RevokeConnector;
      case _ => hide Poll, Approve, Create;
    }
  }

  lemma {:induction false} ApprovedIff(run: Run, code: DeviceCode)
    requires IsRun(run) && code in After(run).db.authorizations
    ensures After(run).db.authorizations[code].approval.Some? <==> WasApproved(run, code)
  {
    if After(run).db.authorizations[code].approval.Some? {
      var h := ApprovalOf(run, code);
    }
    if WasApproved(run, code) {
      var h, a :| Within(h, run) && Approves(h, code, a);
      ApprovalStays(h, run, code);
    }
  }

  lemma {:induction false} ApprovalStays(h: Run, run: Run, code: DeviceCode)
    requires Within(h, run) && code in After(h).db.authorizations && After(h).db.authorizations[code].approval.Some?
    ensures code in After(run).db.authorizations && After(run).db.authorizations[code].approval.Some?
    decreases run
  {
    if h != run {
      ApprovalStays(h, run.past, code);
      StatusStep(After(run.past).db, run.event, code);
      hide Commit;
    }
  }

  lemma {:induction false} ExchangedIff(run: Run, code: DeviceCode)
    requires code in After(run).db.authorizations
    ensures After(run).db.authorizations[code].status == CONSUMED <==> WasExchanged(run, code)
  {
    if After(run).db.authorizations[code].status == CONSUMED {
      var h := ExchangeOf(run, code);
    }
    if WasExchanged(run, code) {
      var h, f :| Within(h, run) && Starts(h, code, f);
      ConsumedStays(h, run, code);
    }
  }

  lemma {:induction false} ExchangeOf(run: Run, code: DeviceCode) returns (h: Run)
    requires code in After(run).db.authorizations && After(run).db.authorizations[code].status == CONSUMED
    ensures Within(h, run) && h.Then? && h.event.op.PollOp? && Starts(h, code, h.event.op.draw.family)
    decreases run
  {
    if code in After(run.past).db.authorizations {
      StatusStep(After(run.past).db, run.event, code);
      if After(run.past).db.authorizations[code].status == CONSUMED { h := ExchangeOf(run.past, code); } else { h := run; }
    } else {
      NewCode(After(run.past).db, run.event, code);
      assert false;
    }
    hide Commit;
  }

  /** Before the exchange, the time of the last poll is that of the last one told to wait. */
  lemma {:induction false} LastPolledIff(run: Run, code: DeviceCode, since: Millis)
    requires IsRun(run) && code in After(run).db.authorizations && After(run).db.authorizations[code].status != CONSUMED
    ensures var last := After(run).db.authorizations[code].lastPolledAt;
            && (last.Some? && last.value > since <==> PolledSince(run, code, since))
            && (last.Some? ==> last.value <= After(run).clock)
    decreases run
  {
    var w, e := After(run.past), run.event;
    if code in w.db.authorizations {
      PolledStep(w.db, e, code);
      hide Commit;
      LastPolledIff(run.past, code, since);
      PolledSinceStep(run, code, since);
    } else {
      NewCode(w.db, e, code);
      hide Commit;
      NotPolledYet(run, code, since);
    }
  }

  lemma PolledExists(h: Run, run: Run, code: DeviceCode)
    requires run.Then? && Within(h, run) && WasPending(h, code)
    ensures code in After(run.past).db.authorizations
  {
    if h != run {
      CodesPersist(After(h.past).db, h.event, code);
      CodeStays(h, run.past, code);
    }
  }

  lemma NotPolledYet(run: Run, code: DeviceCode, since: Millis)
    requires run.Then? && code !in After(run.past).db.authorizations
    ensures !PolledSince(run, code, since)
  {
    if PolledSince(run, code, since) {
      var h :| Within(h, run) && WasPending(h, code) && h.event.at > since;
      PolledExists(h, run, code);
      assert false;
    }
  }

  lemma PolledStep(db: Tables, e: Event, code: DeviceCode)
    requires code in db.authorizations && Commit(db, e).authorizations[code].status != CONSUMED
    ensures code in Commit(db, e).authorizations && db.authorizations[code].status != CONSUMED
    ensures Commit(db, e).authorizations[code].lastPolledAt ==
              if e.op.PollOp? && e.op.code == code && Poll(db, code, e.op.verifier, e.at, e.op.draw).1.StillPending? then Some(e.at)
              else db.authorizations[code].lastPolledAt
  {
    match e.op {
      case PollOp(_, _, _) => hide Refresh, Approve, Create, RevokeConnector;
      case ApproveOp(_, _, _, _) => hide Refresh, Poll, Create, RevokeConnector;
      case CreateOp(_, _, _, _) => hide Refresh, Poll, Approve, RevokeConnector;
      case _ => hide Poll, Approve, Create;
    }
  }

  lemma PolledSinceStep(run: Run, code: DeviceCode, since: Millis)
    requires run.Then?
    ensures PolledSince(run, code, since) <==> PolledSince(run.past, code, since) || (WasPending(run, code) && run.event.at > since)
  {
    if PolledSince(run.past, code, since) {
      var h :| Within(h, run.past) && WasPending(h, code) && h.event.at > since;
      assert Within(h, run);
    }
    if PolledSince(run, code, since) {
      var h :| Within(h, run) && WasPending(h, code) && h.event.at > since;
      assert h == run || Within(h, run.past);
    }
    if WasPending(run, code) && run.event.at > since {
      assert Within(run, run);
    }
  }

  // ------------------------------------------------------------ main results

  /** A poll is given tokens exactly if its code was created less than ten minutes before,
      with no challenge or with that of the verifier; it was approved since and not
      exchanged; no poll of the code was told to wait in the last five seconds; and the drawn
      tokens are new. */
  lemma ExchangedExactlyWhen(run: Run, code: DeviceCode, verifier: Option<nat>, now: Millis, draw: Draw)
    requires IsRun(run) && After(run).clock <= now
    ensures Poll(After(run).db, code, verifier, now, draw).1.PollIssued? <==>
              && (exists h :: && Within(h, run) && Creates(h, code) && now < h.event.at + 600_000
                              && (h.event.op.challenge == None
                                  || (verifier.Some? && h.event.op.challenge == Some(S256(verifier.value)))))
              && WasApproved(run, code) && !WasExchanged(run, code)
              && !PolledSince(run, code, now - 5_000)
              && draw.refresh !in After(run).db.credentials
              && (forall t :: t in After(run).db.credentials ==> After(run).db.credentials[t].access != draw.access)
  {
    var db := After(run).db;
    PollAnswers(db, code, verifier, now, draw);
    if code in db.authorizations {
      var create := CreatedBy(run, code);
      StatusFollows(run, code);
      ApprovedIff(run, code);
      ExchangedIff(run, code);
      if db.authorizations[code].status != CONSUMED { LastPolledIff(run, code, now - 5_000); }
      forall h | Within(h, run) && Creates(h, code) ensures h == create {
        CreatedOnce(run, h, create, code);
      }
      hide Poll, Creates, WasApproved, WasExchanged, PolledSince;
    } else if h :| Within(h, run) && Creates(h, code) {
      CodeStays(h, run, code);
      assert false;
    }
  }

  /** So behind every family there is a proof of the key that was promised for its code. */
  lemma ExchangeWasProven(run: Run, h: Run, code: DeviceCode, family: FamilyId) returns (create: Run)
    requires IsRun(run) && Within(h, run) && Starts(h, code, family)
    ensures Within(create, h.past) && Creates(create, code) && h.event.at < create.event.at + 600_000
    ensures create.event.op.challenge.Some? ==>
              h.event.op.verifier.Some? && create.event.op.challenge.value == S256(h.event.op.verifier.value)
    ensures WasApproved(h.past, code) && !WasExchanged(h.past, code) && !PolledSince(h.past, code, h.event.at - 5_000)
  {
    RunsArePrefixClosed(h, run);
    ExchangedExactlyWhen(h.past, code, h.event.op.verifier, h.event.at, h.event.op.draw);
    create :| && Within(create, h.past) && Creates(create, code) && h.event.at < create.event.at + 600_000
              && (create.event.op.challenge == None
                  || (h.event.op.verifier.Some? && create.event.op.challenge == Some(S256(h.event.op.verifier.value))));
  }

  /** An approval is of an open code, by a user of the workspace that has the project, which
      is active. */
  lemma ApprovalWasAllowed(run: Run, h: Run, code: DeviceCode, a: Approval) returns (create: Run)
    requires IsRun(run) && Within(h, run) && Approves(h, code, a)
    ensures Within(create, h.past) && Creates(create, code) && create.event.op.newUserCode == h.event.op.userCode
    ensures h.event.at < create.event.at + 600_000
    ensures a.tenantId == h.event.op.actor.tenantId && a.userId == h.event.op.actor.userId && a.projectId == h.event.op.projectId
    ensures var projects := After(h.past).db.projects;
            a.projectId in projects && projects[a.projectId].tenantId == a.tenantId && projects[a.projectId].active
    ensures code in After(h.past).db.authorizations && After(h.past).db.authorizations[code].status == PENDING
  {
    RunsArePrefixClosed(h, run);
    Reachable(h.past);
    var op := h.event.op;
    ApproveAnswers(After(h.past).db, op.actor, op.userCode, op.projectId, op.newInstallation, h.event.at);
    hide Approve;
    create := CreatedBy(h.past, code);
  }

  /** A credential is revoked only because somebody presented a used token of its family, or
      an administrator of its workspace revoked its installation. */
  lemma {:induction false} RevokedOnlyBy(run: Run, t: RefreshToken) returns (h: Run)
    requires IsRun(run) && t in After(run).db.credentials && After(run).db.credentials[t].revokedAt.Some?
    ensures Within(h, run)
    ensures var row := After(run).db.credentials[t];
            DetectsReuse(h, row.family) || RevokesConnector(h, row.installationId)
    decreases run
  {
    var db, e := After(run.past).db, run.event;
    if t in db.credentials {
      CredentialsPersist(db, e, t);
      if db.credentials[t].revokedAt.Some? {
        h := RevokedOnlyBy(run.past, t);
      } else {
        h := run;
        RevokingStep(db, e, t);
      }
    } else {
      NewIsUnrevoked(db, e, t);
      assert false;
    }
    hide Commit;
  }

  lemma RevokingStep(db: Tables, e: Event, t: RefreshToken)
    requires t in db.credentials && db.credentials[t].revokedAt.None?
    requires t in Commit(db, e).credentials && Commit(db, e).credentials[t].revokedAt.Some?
    ensures || (&& e.op.RefreshOp? && e.op.token in db.credentials && db.credentials[e.op.token].family == db.credentials[t].family
                && Refresh(db, e.op.token, e.at, e.op.draw).1.Reuse?)
            || (&& e.op.RevokeOp? && e.op.target == db.credentials[t].installationId
                && RevokeConnector(db, e.op.actor, e.op.target, e.at).1.Revoked?)
  {
  }

  lemma NewIsUnrevoked(db: Tables, e: Event, t: RefreshToken)
    requires t in Commit(db, e).credentials && t !in db.credentials
    ensures Commit(db, e).credentials[t].revokedAt.None?
  {
  }

  /** An installation is inactive only because an owner or administrator of its workspace
      revoked it. */
  lemma {:induction false} InactiveWasRevoked(run: Run, id: InstallationId) returns (h: Run)
    requires IsRun(run) && id in After(run).db.installations && !After(run).db.installations[id].active
    ensures Within(h, run) && RevokesConnector(h, id)
    ensures var actor := h.event.op.actor;
            && (actor.role == OWNER || actor.role == ADMIN)
            && actor.tenantId == After(run).db.installations[id].tenantId
    decreases run
  {
    var db, e := After(run.past).db, run.event;
    if id in db.installations && !db.installations[id].active {
      h := InactiveWasRevoked(run.past, id);
      InstallationsPersist(db, e, id);
    } else {
      h := run;
      if id in db.installations { InstallationsPersist(db, e, id); }
      DeactivatingStep(db, e, id);
    }
    hide Commit;
  }

  lemma DeactivatingStep(db: Tables, e: Event, id: InstallationId)
    requires id in Commit(db, e).installations && !Commit(db, e).installations[id].active
    requires id in db.installations ==> db.installations[id].active
    ensures e.op.RevokeOp? && e.op.target == id && RevokeConnector(db, e.op.actor, id, e.at).1.Revoked?
    ensures e.op.actor.role == OWNER || e.op.actor.role == ADMIN
    ensures e.op.actor.tenantId == Commit(db, e).installations[id].tenantId
  {
  }
}
