/** What every run of the connector service guarantees about its past and its future:
    where a working token comes from, and that a revocation is never undone. */
module CredentialHistory {
  import opened Prelude
  import opened ConnectorStore
  import opened CredentialChains

  // -------------------------------------------------------------- revocation

  /** The last event of `h` presented a used refresh token of the family. */
  ghost predicate DetectsReuse(h: Run, family: FamilyId) {
    && h.Then? && h.event.op.RefreshOp?
    && h.event.op.token in After(h.past).db.credentials
    && After(h.past).db.credentials[h.event.op.token].family == family
    && Refresh(After(h.past).db, h.event.op.token, h.event.at, h.event.op.draw).1.Reuse?
  }

  /** The last event of `h` revoked the installation. */
  ghost predicate RevokesConnector(h: Run, id: InstallationId) {
    && h.Then? && h.event.op.RevokeOp? && h.event.op.target == id
    && RevokeConnector(After(h.past).db, h.event.op.actor, id, h.event.at).1.Revoked?
  }

  ghost predicate FamilyDead(credentials: Credentials, family: FamilyId) {
    forall t :: t in credentials && credentials[t].family == family ==> credentials[t].revokedAt.Some?
  }

  /** A step neither removes a member of a dead family, revives one, nor adds one. */
  lemma DeadFamilyStaysDead(w: World, e: Event, family: FamilyId)
    requires Admissible(w, e)
    requires FamilyInUse(w.db, family) && FamilyDead(w.db.credentials, family)
    ensures FamilyDead(Commit(w.db, e).credentials, family)
    ensures forall t :: InFamily(Commit(w.db, e), t, family) <==> InFamily(w.db, t, family)
    ensures FamilyInUse(Commit(w.db, e), family)
  {
    var t :| t in w.db.credentials && w.db.credentials[t].family == family;
    CredentialsPersist(w.db, e, t);
  }

  ghost predicate InFamily(db: Tables, t: RefreshToken, family: FamilyId) {
    t in db.credentials && db.credentials[t].family == family
  }

  /** After reuse is detected, at any later time no access token of the family
      authenticates, none of its refresh tokens is accepted, and it has no new member. */
  lemma {:induction false} ReuseRevokesForever(h: Run, run: Run, family: FamilyId)
    requires IsRun(run) && Within(h, run) && DetectsReuse(h, family)
    ensures FamilyInUse(After(run).db, family) && FamilyDead(After(run).db.credentials, family)
    ensures forall t :: InFamily(After(run).db, t, family) <==> InFamily(After(h.past).db, t, family)
    ensures forall t, now :: InFamily(After(run).db, t, family) ==> !Live(After(run).db, t, now)
    decreases run
  {
    if h == run {
      assert InFamily(After(run).db, h.event.op.token, family);
    } else {
      ReuseRevokesForever(h, run.past, family);
      DeadFamilyStaysDead(After(run.past), run.event, family);
    }
  }

  /** After an administrator revokes an installation no token ever authenticates for it,
      not even one issued later from an approval that was still unconsumed. */
  lemma {:induction false} ConnectorRevokedForever(h: Run, run: Run, id: InstallationId)
    requires IsRun(run) && Within(h, run) && RevokesConnector(h, id)
    ensures id in After(run).db.installations && !After(run).db.installations[id].active
    ensures forall access, now, connector :: Authenticates(After(run).db, access, now, connector) ==> connector.installationId != id
    decreases run
  {
    if h != run {
      ConnectorRevokedForever(h, run.past, id);
      InstallationsPersist(After(run.past).db, run.event, id);
    }
  }

  // --------------------------------------------------------------- provenance

  /** The last event of `h` approved device code `code` and wrote `approval`. */
  ghost predicate Approves(h: Run, code: DeviceCode, approval: Approval) {
    && h.Then? && h.event.op.ApproveOp?
    && var db, op := After(h.past).db, h.event.op;
       && Approve(db, op.actor, op.userCode, op.projectId, op.newInstallation, h.event.at).1.Approved?
       && UserCodeTaken(db, op.userCode) && CodeOf(db, op.userCode) == code
       && approval == Approval(op.actor.tenantId, op.actor.userId, op.projectId, op.newInstallation)
  }

  /** The last event of `h` exchanged device code `code` for the first tokens of `family`. */
  ghost predicate Starts(h: Run, code: DeviceCode, family: FamilyId) {
    && h.Then? && h.event.op.PollOp? && h.event.op.code == code && h.event.op.draw.family == family
    && Poll(After(h.past).db, code, h.event.op.verifier, h.event.at, h.event.op.draw).1.PollIssued?
  }

  /** An approved authorization was approved by one event of the run, which wrote its
      approval columns and copied its platform. */
  lemma {:induction false} ApprovalOf(run: Run, code: DeviceCode) returns (h: Run)
    requires IsRun(run)
    requires code in After(run).db.authorizations && After(run).db.authorizations[code].approval.Some?
    ensures Within(h, run) && Approves(h, code, After(run).db.authorizations[code].approval.value)
    ensures code in After(h.past).db.authorizations
    ensures After(h.past).db.authorizations[code].platform == After(run).db.authorizations[code].platform
    decreases run
  {
    var before := After(run.past).db;
    if code in before.authorizations && before.authorizations[code].approval.Some? {
      h := ApprovalOf(run.past, code);
      Reachable(run.past);
      assert RowLinked(before.installations, before.authorizations[code]);
      CodesPersist(before, run.event, code);
      hide Commit;
    } else {
      FirstApproval(before, run.event, code);
      hide Commit;
      h := run;
    }
  }

  /** Only an approval of the code itself sets its approval columns. */
  lemma FirstApproval(db: Tables, e: Event, code: DeviceCode)
    requires code in Commit(db, e).authorizations && Commit(db, e).authorizations[code].approval.Some?
    requires code in db.authorizations ==> db.authorizations[code].approval.None?
    ensures e.op.ApproveOp? && code in db.authorizations
    ensures Approve(db, e.op.actor, e.op.userCode, e.op.projectId, e.op.newInstallation, e.at).1.Approved?
    ensures UserCodeTaken(db, e.op.userCode) && CodeOf(db, e.op.userCode) == code
    ensures db.authorizations[code].platform == Commit(db, e).authorizations[code].platform
    ensures Commit(db, e).authorizations[code].approval.value
            == Approval(e.op.actor.tenantId, e.op.actor.userId, e.op.projectId, e.op.newInstallation)
  {
  }

  /** At most one event approves into an installation. */
  lemma ApprovalUnique(run: Run, g: Run, h: Run, c: DeviceCode, d: DeviceCode, a: Approval, b: Approval)
    requires IsRun(run) && Within(g, run) && Within(h, run)
    requires Approves(g, c, a) && Approves(h, d, b) && a.installationId == b.installationId
    ensures g == h
  {
    WithinLinear(g, h, run);
    RunsArePrefixClosed(g, run);
    RunsArePrefixClosed(h, run);
    if g != h {
      if Within(g, h) { InstallationStays(g, h.past, a.installationId); } else { InstallationStays(h, g.past, a.installationId); }
      assert false;
    }
  }

  lemma {:induction false} InstallationStays(h: Run, run: Run, id: InstallationId)
    requires Within(h, run) && id in After(h).db.installations
    ensures id in After(run).db.installations
    decreases run
  {
    if h != run {
      InstallationStays(h, run.past, id);
      InstallationsPersist(After(run.past).db, run.event, id);
      hide Commit;
    }
  }

  /** Every credential descends from one exchange of a device code, and keeps the
      installation and tenant of that code's approval. */
  lemma {:induction false} StartOf(run: Run, t: RefreshToken) returns (h: Run, code: DeviceCode)
    requires IsRun(run) && t in After(run).db.credentials
    ensures Within(h, run) && Starts(h, code, After(run).db.credentials[t].family)
    ensures code in After(h.past).db.authorizations && After(h.past).db.authorizations[code].approval.Some?
    ensures var approval := After(h.past).db.authorizations[code].approval.value;
            && approval.installationId == After(run).db.credentials[t].installationId
            && approval.tenantId == After(run).db.credentials[t].tenantId
    decreases run
  {
    var before, e := After(run.past).db, run.event;
    if t in before.credentials {
      h, code := StartOf(run.past, t);
      CredentialsPersist(before, e, t);
      hide Commit;
    } else {
      FirstIssue(before, e, t);
      hide Commit, Poll, Refresh;
      if e.op.RefreshOp? {
        h, code := StartOf(run.past, e.op.token);
      } else {
        h, code := run, e.op.code;
      }
    }
  }

  /** A new credential comes from a rotation in its family or from an exchange. */
  lemma FirstIssue(db: Tables, e: Event, t: RefreshToken)
    requires t in Commit(db, e).credentials && t !in db.credentials
    ensures var row := Commit(db, e).credentials[t];
            || (&& e.op.RefreshOp? && e.op.token in db.credentials
                && var parent := db.credentials[e.op.token];
                   row.family == parent.family && row.installationId == parent.installationId && row.tenantId == parent.tenantId)
            || (&& e.op.PollOp? && e.op.draw.family == row.family
                && Poll(db, e.op.code, e.op.verifier, e.at, e.op.draw).1.PollIssued?
                && e.op.code in db.authorizations && db.authorizations[e.op.code].approval.Some?
                && var approval := db.authorizations[e.op.code].approval.value;
                   row.installationId == approval.installationId && row.tenantId == approval.tenantId)
  {
  }

  /** A device code starts at most one family. */
  lemma DeviceCodeUsedOnce(run: Run, g: Run, h: Run, code: DeviceCode, f: FamilyId, k: FamilyId)
    requires IsRun(run) && Within(g, run) && Within(h, run)
    requires Starts(g, code, f) && Starts(h, code, k)
    ensures g == h && f == k
  {
    WithinLinear(g, h, run);
    if g != h {
      if Within(g, h) { ConsumedStays(g, h.past, code); } else { ConsumedStays(h, g.past, code); }
      assert false;
    }
  }

  lemma {:induction false} ConsumedStays(h: Run, run: Run, code: DeviceCode)
    requires Within(h, run)
    requires code in After(h).db.authorizations && After(h).db.authorizations[code].status == CONSUMED
    ensures code in After(run).db.authorizations && After(run).db.authorizations[code].status == CONSUMED
    decreases run
  {
    if h != run {
      ConsumedStays(h, run.past, code);
      CodesPersist(After(run.past).db, run.event, code);
      hide Commit;
    }
  }

  /** A family is started by at most one event. */
  lemma FamilyStartedOnce(run: Run, g: Run, h: Run, c: DeviceCode, d: DeviceCode, family: FamilyId)
    requires IsRun(run) && Within(g, run) && Within(h, run)
    requires Starts(g, c, family) && Starts(h, d, family)
    ensures g == h && c == d
  {
    WithinLinear(g, h, run);
    RunsArePrefixClosed(g, run);
    RunsArePrefixClosed(h, run);
    if g != h {
      if Within(g, h) { FamilyStays(g, h.past, g.event.op.draw.refresh, family); } else { FamilyStays(h, g.past, h.event.op.draw.refresh, family); }
      assert false;
    }
  }

  lemma {:induction false} FamilyStays(h: Run, run: Run, t: RefreshToken, family: FamilyId)
    requires Within(h, run) && InFamily(After(h).db, t, family)
    ensures FamilyInUse(After(run).db, family) && InFamily(After(run).db, t, family)
    decreases run
  {
    if h != run {
      FamilyStays(h, run.past, t, family);
      CredentialsPersist(After(run.past).db, run.event, t);
      hide Commit;
    }
  }

  /** A token that authenticates descends from exactly one exchange of a device code,
      which came after exactly one approval of that same code; the connector acts for the
      tenant, user and project of the approver and on the platform of the code. */
  lemma Provenance(run: Run, access: AccessToken, now: Millis, connector: Connector)
    returns (approval: Run, exchange: Run, code: DeviceCode, family: FamilyId)
    requires IsRun(run) && Authenticates(After(run).db, access, now, connector)
    ensures Within(approval, exchange) && Within(exchange, run)
    ensures Starts(exchange, code, family)
    ensures Approves(approval, code, Approval(connector.tenantId, connector.userId, connector.defaultProjectId, connector.installationId))
    ensures code in After(approval.past).db.authorizations
    ensures connector.platform == After(approval.past).db.authorizations[code].platform
    ensures exists t :: InFamily(After(run).db, t, family) && After(run).db.credentials[t].access == access
    ensures forall h, c, a :: Within(h, run) && Approves(h, c, a) && a.installationId == connector.installationId ==> h == approval
    ensures forall h, c :: Within(h, run) && Starts(h, c, family) ==> h == exchange
  {
    var db := After(run).db;
    var t :| Live(db, t, now) && db.credentials[t].access == access
             && connector == ConnectorOf(db, db.credentials[t].installationId);
    family := db.credentials[t].family;
    exchange, code := StartOf(run, t);
    RunsArePrefixClosed(exchange, run);
    approval := ApprovalOf(exchange.past, code);
    assert Within(exchange.past, exchange);
    WithinTransitive(approval, exchange.past, exchange);
    WithinTransitive(approval, exchange, run);
    InstallationRecordsApproval(run, exchange, code);
    forall h, c, a | Within(h, run) && Approves(h, c, a) && a.installationId == connector.installationId ensures h == approval {
      ApprovalUnique(run, h, approval, c, code, a, After(exchange.past).db.authorizations[code].approval.value);
    }
    forall h, c | Within(h, run) && Starts(h, c, family) ensures h == exchange {
      FamilyStartedOnce(run, h, exchange, c, code, family);
    }
    assert InFamily(db, t, family);
  }

  /** The installation still records what the approval of the code wrote. */
  lemma InstallationRecordsApproval(run: Run, exchange: Run, code: DeviceCode)
    requires IsRun(run) && Within(exchange, run) && exchange.Then?
    requires code in After(exchange.past).db.authorizations && After(exchange.past).db.authorizations[code].approval.Some?
    ensures var row := After(exchange.past).db.authorizations[code];
            && row.approval.value.installationId in After(run).db.installations
            && Matches(After(run).db.installations[row.approval.value.installationId], row)
  {
    RunsArePrefixClosed(exchange, run);
    Reachable(exchange.past);
    assert RowLinked(After(exchange.past).db.installations, After(exchange.past).db.authorizations[code]);
    assert Within(exchange.past, exchange);
    WithinTransitive(exchange.past, exchange, run);
    InstallationKeepsItsRow(exchange.past, run, After(exchange.past).db.authorizations[code].approval.value.installationId);
  }

  lemma {:induction false} InstallationKeepsItsRow(h: Run, run: Run, id: InstallationId)
    requires Within(h, run) && id in After(h).db.installations
    ensures id in After(run).db.installations
    ensures After(run).db.installations[id] == After(h).db.installations[id].(active := After(run).db.installations[id].active)
    decreases run
  {
    if h != run {
      InstallationKeepsItsRow(h, run.past, id);
      InstallationsPersist(After(run.past).db, run.event, id);
    }
  }
}
