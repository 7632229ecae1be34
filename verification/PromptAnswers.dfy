/** When the prompt service says yes, with roles and columns written out, and which step of a
    run stored, reanalyzed or deleted a prompt. */
module PromptAnswers {
  import opened Prelude
  import ConnectorStore
  import opened PromptStore
  import opened Pipeline
  import opened WorkerSafety
  import opened OutboxDelivery

  // ------------------------------------------------------------- the tables

  /** Every answer to an ingest request, and what a stored event writes. */
  lemma IngestAnswersAre(db: PromptTables, connector: ConnectorStore.Connector, input: Input, now: Millis, ids: RowIds, first: AnalysisId)
    requires KeysUnique(db)
    ensures var (after, answer) := Ingest(db, connector, input, now, ids, first);
            var ours := input.projectId == connector.defaultProjectId && input.platform == connector.platform;
            var passes := ours && input.occurredAt <= now + 300_000;
            var open := && input.projectId in db.projects && db.projects[input.projectId].active
                        && db.projects[input.projectId].tenantId == connector.tenantId;
            var free := forall p :: p in db.prompts && db.prompts[p].installationId == connector.installationId
                                    ==> db.prompts[p].clientEventId != input.clientEventId;
            && (answer.WrongProject? <==> input.projectId != connector.defaultProjectId)
            && (answer.WrongPlatform? <==> input.projectId == connector.defaultProjectId && input.platform != connector.platform)
            && (answer.TooFarInFuture? <==> ours && now + 300_000 < input.occurredAt)
            && (free ==> (answer.ProjectUnavailable? <==> passes && !open) && (answer.Ok? <==> passes && open))
            && (!(free && answer.Ok?) ==> after == db)
            && (free && answer.Ok? ==>
                  && answer.prompt == Accepted(ids.promptId, input.projectId, input.clientEventId, ids.analysisId, false, now)
                  && after == db.(
                       prompts := db.prompts[ids.promptId := Prompt(connector.tenantId, input.projectId, connector.userId,
                                                                    connector.installationId, input.clientEventId, input, now, None)],
                       tags := db.tags + (set name | name in input.tags :: (connector.tenantId, name)),
                       promptTags := db.promptTags + (set name | name in input.tags :: (ids.promptId, name)),
                       analyses := db.analyses[ids.analysisId := Analysis(connector.tenantId, ids.promptId, QUEUED, now)],
                       outbox := db.outbox[ids.eventId := OutboxEvent(connector.tenantId, ids.promptId, ids.analysisId, now, None, 0)]))
  {
    assert KeyTaken(db, connector.installationId, input.clientEventId) ==>
             var p := PromptWithKey(db, connector.installationId, input.clientEventId);
             p in db.prompts && HasKey(db.prompts[p], connector.installationId, input.clientEventId);
  }

  /** And for an event that the installation has stored as prompt `p`. */
  lemma RepeatAnswersAre(db: PromptTables, connector: ConnectorStore.Connector, input: Input, now: Millis, ids: RowIds, first: AnalysisId, p: PromptId)
    requires KeysUnique(db) && p in db.prompts
    requires db.prompts[p].installationId == connector.installationId && db.prompts[p].clientEventId == input.clientEventId
    requires exists a :: a in db.analyses && db.analyses[a].promptId == p
    ensures var (after, answer) := Ingest(db, connector, input, now, ids, first);
            var passes := && input.projectId == connector.defaultProjectId && input.platform == connector.platform
                          && input.occurredAt <= now + 300_000;
            && after == db
            && (answer.HashConflict? <==> passes && db.prompts[p].eventHash != input)
            && (answer.Ok? <==> passes && db.prompts[p].eventHash == input)
            && (answer.Ok? ==> answer.prompt == Accepted(p, db.prompts[p].projectId, input.clientEventId, first, true, db.prompts[p].createdAt))
  {
    assert HasKey(db.prompts[p], connector.installationId, input.clientEventId);
    assert PromptWithKey(db, connector.installationId, input.clientEventId) == p;
    var a :| a in db.analyses && db.analyses[a].promptId == p;
    assert AnalysisOf(db, a, p);
  }

  lemma ReanalyzeAnswersAre(db: PromptTables, actor: Actor, p: PromptId, now: Millis, a: AnalysisId, e: EventId)
    ensures var (after, answer) := Reanalyze(db, actor, p, now, a, e);
            var visible := && p in db.prompts && db.prompts[p].tenantId == actor.tenantId && db.prompts[p].deletedAt == None
                           && (actor.role == OWNER || actor.role == ADMIN || db.prompts[p].userId == actor.userId);
            var active := exists x :: && x in db.analyses && db.analyses[x].promptId == p
                                      && (db.analyses[x].status == QUEUED || db.analyses[x].status == RUNNING);
            && (answer.RoleForbidden? <==> actor.role == VIEWER)
            && (answer.PromptNotFound? <==> actor.role != VIEWER && !visible)
            && (answer.AlreadyActive? <==> actor.role != VIEWER && visible && active)
            && (answer.Requeued? <==> actor.role != VIEWER && visible && !active)
            && (!answer.Requeued? ==> after == db)
            && (answer.Requeued? ==>
                  after == db.(analyses := db.analyses[a := Analysis(actor.tenantId, p, QUEUED, now)],
                               outbox := db.outbox[e := OutboxEvent(actor.tenantId, p, a, now, None, 0)]))
  {
    if x :| && x in db.analyses && db.analyses[x].promptId == p && (db.analyses[x].status == QUEUED || db.analyses[x].status == RUNNING) {
      assert AnalysisOf(db, x, p);
    }
  }

  lemma DeleteAnswersAre(db: PromptTables, actor: Actor, p: PromptId, now: Millis)
    ensures var (after, answer) := Delete(db, actor, p, now);
            var visible := && p in db.prompts && db.prompts[p].tenantId == actor.tenantId && db.prompts[p].deletedAt == None
                           && (actor.role == OWNER || actor.role == ADMIN || db.prompts[p].userId == actor.userId);
            && (answer.DeleteForbidden? <==> actor.role == VIEWER)
            && (answer.NothingDeleted? <==> actor.role != VIEWER && !visible)
            && (answer.Deleted? <==> actor.role != VIEWER && visible)
            && (!answer.Deleted? ==> after == db)
            && (answer.Deleted? ==> after == db.(prompts := db.prompts[p := db.prompts[p].(deletedAt := Some(now))]))
  {
  }

  // ------------------------------------------------------------- whole runs

  /** The step stores the prompt: an accepted request for an active project of the
      connector's workspace. */
  ghost predicate Stores(s: State, e: Event, p: PromptId) {
    && e.step.IngestPrompt? && e.step.ids.promptId == p && p !in s.db.prompts
    && var connector, input := e.step.connector, e.step.input;
       && input.projectId == connector.defaultProjectId && input.platform == connector.platform
       && input.occurredAt <= e.at + 300_000
       && input.projectId in s.db.projects && s.db.projects[input.projectId].active
       && s.db.projects[input.projectId].tenantId == connector.tenantId
  }

  /** The actor of the step may change the prompt: no viewer, of its workspace, and either an
      administrator or its owner. */
  predicate MayChange(s: State, actor: Actor, p: PromptId) {
    && actor.role != VIEWER
    && p in s.db.prompts && s.db.prompts[p].tenantId == actor.tenantId && s.db.prompts[p].deletedAt == None
    && (actor.role == OWNER || actor.role == ADMIN || s.db.prompts[p].userId == actor.userId)
  }

  /** Every prompt was stored by one such step, with the columns of its request. */
  lemma {:induction false} PromptWasAccepted(c: Config, run: Run, p: PromptId) returns (h: Run)
    requires IsRun(c, run) && p in Reached(c, run).db.prompts
    ensures Within(h, run) && h.Then? && IsRun(c, h) && Stores(Reached(c, h.past), h.event, p)
    ensures var row, step := Reached(c, run).db.prompts[p], h.event.step;
            row == Prompt(step.connector.tenantId, step.input.projectId, step.connector.userId, step.connector.installationId,
                          step.input.clientEventId, step.input, h.event.at, row.deletedAt)
    decreases run
  {
    var s, e := Reached(c, run.past), run.event;
    if p in s.db.prompts {
      h := PromptWasAccepted(c, run.past, p);
      PromptsPersist(c, s, e, p);
    } else {
      h := run;
      StoringStep(c, s, e, p);
    }
    hide Take, Enabled, Stores;
  }

  lemma StoringStep(c: Config, s: State, e: Event, p: PromptId)
    requires Enabled(c, s, e) && p !in s.db.prompts && p in Take(c, s, e).db.prompts
    ensures Stores(s, e, p)
    ensures var step := e.step;
            Take(c, s, e).db.prompts[p] == Prompt(step.connector.tenantId, step.input.projectId, step.connector.userId,
                                                  step.connector.installationId, step.input.clientEventId, step.input, e.at, None)
  {
    if IsApiStep(e.step) {
      assert Take(c, s, e).db == ActApi(s.db, e.step, e.at);
      StoringTransaction(s, e, p);
    } else if IsWorkerStep(e.step) {
      WorkersLeaveOutbox(c, s, e);
    }
    hide Take, Enabled, ActApi;
  }

  lemma StoringTransaction(s: State, e: Event, p: PromptId)
    requires IsApiStep(e.step) && p !in s.db.prompts && p in ActApi(s.db, e.step, e.at).prompts
    ensures Stores(s, e, p)
    ensures var step := e.step;
            ActApi(s.db, e.step, e.at).prompts[p] == Prompt(step.connector.tenantId, step.input.projectId, step.connector.userId,
                                                            step.connector.installationId, step.input.clientEventId, step.input, e.at, None)
  {
  }

  /** A deleted prompt was deleted by somebody who could change it. */
  lemma {:induction false} DeletionWasAllowed(c: Config, run: Run, p: PromptId) returns (h: Run)
    requires IsRun(c, run) && p in Reached(c, run).db.prompts && Reached(c, run).db.prompts[p].deletedAt.Some?
    ensures Within(h, run) && h.Then? && IsRun(c, h)
    ensures h.event.step.DeletePrompt? && h.event.step.promptId == p && MayChange(Reached(c, h.past), h.event.step.actor, p)
    decreases run
  {
    var s, e := Reached(c, run.past), run.event;
    if p in s.db.prompts && s.db.prompts[p].deletedAt.Some? {
      h := DeletionWasAllowed(c, run.past, p);
    } else {
      h := run;
      if p !in s.db.prompts { StoringStep(c, s, e, p); }
      DeletingStep(c, s, e, p);
    }
    hide Take, Enabled;
  }

  lemma DeletingStep(c: Config, s: State, e: Event, p: PromptId)
    requires Enabled(c, s, e) && p in s.db.prompts && s.db.prompts[p].deletedAt.None?
    requires p in Take(c, s, e).db.prompts && Take(c, s, e).db.prompts[p].deletedAt.Some?
    ensures e.step.DeletePrompt? && e.step.promptId == p && MayChange(s, e.step.actor, p)
  {
    if IsApiStep(e.step) {
      assert Take(c, s, e).db == ActApi(s.db, e.step, e.at);
      DeletingTransaction(s, e, p);
    } else if IsWorkerStep(e.step) {
      WorkersLeaveOutbox(c, s, e);
    }
    hide Take, Enabled, ActApi;
  }

  lemma DeletingTransaction(s: State, e: Event, p: PromptId)
    requires IsApiStep(e.step) && p in s.db.prompts && s.db.prompts[p].deletedAt.None?
    requires e.step.IngestPrompt? ==> e.step.ids.promptId !in s.db.prompts
    requires p in ActApi(s.db, e.step, e.at).prompts && ActApi(s.db, e.step, e.at).prompts[p].deletedAt.Some?
    ensures e.step.DeletePrompt? && e.step.promptId == p && MayChange(s, e.step.actor, p)
  {
  }

  /** Every analysis was queued with its prompt, or requested by somebody who could change
      the prompt while none of its analyses was waiting or running. */
  lemma {:induction false} AnalysisWasRequested(c: Config, run: Run, a: AnalysisId) returns (h: Run)
    requires IsRun(c, run) && a in Reached(c, run).db.analyses
    ensures Within(h, run) && h.Then? && IsRun(c, h) && Queues(Reached(c, h.past), h.event, a, Reached(c, run).db.analyses[a].promptId)
    ensures Reached(c, run).db.analyses[a].createdAt == h.event.at
    decreases run
  {
    var s, e := Reached(c, run.past), run.event;
    if a in s.db.analyses {
      h := AnalysisWasRequested(c, run.past, a);
      AnalysesPersist(c, s, e, a);
    } else {
      h := run;
      QueueingStep(c, s, e, a);
    }
    hide Take, Enabled, Queues;
  }

  ghost predicate Queues(s: State, e: Event, a: AnalysisId, p: PromptId) {
    || (Stores(s, e, p) && e.step.ids.analysisId == a)
    || (&& e.step.RequestAnalysis? && e.step.newAnalysis == a && e.step.promptId == p && MayChange(s, e.step.actor, p)
        && forall x :: x in s.db.analyses && s.db.analyses[x].promptId == p
                       ==> s.db.analyses[x].status != QUEUED && s.db.analyses[x].status != RUNNING)
  }

  lemma QueueingStep(c: Config, s: State, e: Event, a: AnalysisId)
    requires Enabled(c, s, e) && a !in s.db.analyses && a in Take(c, s, e).db.analyses
    ensures Queues(s, e, a, Take(c, s, e).db.analyses[a].promptId) && Take(c, s, e).db.analyses[a].createdAt == e.at
  {
    if IsApiStep(e.step) {
      assert Take(c, s, e).db == ActApi(s.db, e.step, e.at);
      QueueingTransaction(s, e, a);
    } else {
      OthersAddNoAnalysis(c, s, e);
    }
    hide Take, Enabled, ActApi, Queues;
  }

  lemma QueueingTransaction(s: State, e: Event, a: AnalysisId)
    requires IsApiStep(e.step) && a !in s.db.analyses && a in ActApi(s.db, e.step, e.at).analyses
    requires e.step.IngestPrompt? ==> e.step.ids.promptId !in s.db.prompts
    ensures Queues(s, e, a, ActApi(s.db, e.step, e.at).analyses[a].promptId) && ActApi(s.db, e.step, e.at).analyses[a].createdAt == e.at
  {
    if e.step.RequestAnalysis? {
      ReanalyzeAnswersAre(s.db, e.step.actor, e.step.promptId, e.at, e.step.newAnalysis, e.step.newEvent);
      hide Reanalyze;
    }
  }

  // --------------------------------------------------------------- dispatching

  /** A dispatcher takes at most fifty unpublished events, each no younger than the next, and
      leaves only events that are no older than any it took, and those only from a full
      batch. */
  lemma BatchIsOldest(outbox: map<EventId, OutboxEvent>, batch: seq<EventId>, e: EventId)
    requires IsBatch(outbox, batch) && e in outbox && outbox[e].publishedAt == None && e !in batch
    ensures |batch| == 50
    ensures forall i :: 0 <= i < |batch| ==> batch[i] in outbox && outbox[batch[i]].publishedAt == None
                                             && outbox[batch[i]].occurredAt <= outbox[e].occurredAt
  {
  }
}
