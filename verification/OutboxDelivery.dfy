/** The transactional outbox: every analysis is announced once, and its job is queued once
    and before the announcement is marked as published. */
module OutboxDelivery {
  import opened Prelude
  import opened PromptStore
  import opened AnalysisControls
  import opened Pipeline
  import opened WorkerSafety

  type Outbox = map<EventId, OutboxEvent>

  predicate Names(outbox: Outbox, e: EventId, a: AnalysisId) {
    e in outbox && outbox[e].analysisId == a
  }

  /** An event names an existing analysis, its prompt and its workspace. */
  ghost predicate EventsMatch(db: PromptTables) {
    forall e :: e in db.outbox ==> MatchesAnalysis(db.analyses, JobOf(db.outbox[e]))
  }

  ghost predicate EventsDistinct(outbox: Outbox) {
    forall d, e, a :: Names(outbox, d, a) && Names(outbox, e, a) ==> d == e
  }

  /** An analysis belongs to an existing prompt of the same workspace. */
  ghost predicate PromptsExist(db: PromptTables) {
    forall a :: a in db.analyses ==>
                  db.analyses[a].promptId in db.prompts && db.prompts[db.analyses[a].promptId].tenantId == db.analyses[a].tenantId
  }

  ghost predicate QueueMatches(s: State) {
    forall e :: e in s.queue ==> e in s.db.outbox && s.queue[e] == JobOf(s.db.outbox[e])
  }

  ghost predicate PublishedAreQueued(s: State) {
    forall e :: e in s.db.outbox && s.db.outbox[e].publishedAt.Some? ==> e in s.queue
  }

  /** What a dispatcher still has to send is what the outbox says. */
  ghost predicate DispatchersMatch(s: State) {
    forall d :: d in s.dispatchers ==> DispatcherMatches(s, s.dispatchers[d])
  }

  ghost predicate DispatcherMatches(s: State, dispatcher: Dispatcher) {
    && (forall o :: o in dispatcher.rest ==> o.eventId in s.db.outbox && o.job == JobOf(s.db.outbox[o.eventId]))
    && (dispatcher.added ==> dispatcher.rest != [] && dispatcher.rest[0].eventId in s.queue)
  }

  // --------------------------------------------------- what a step changes

  /** The rows that an API transaction inserts: an analysis together with its event. */
  datatype Rows = Rows(tenantId: nat, promptId: PromptId, analysisId: AnalysisId, eventId: EventId)

  ghost predicate Inserts(before: PromptTables, after: PromptTables, rows: Rows, now: Millis) {
    && rows.analysisId !in before.analyses && rows.eventId !in before.outbox
    && after.analyses == before.analyses[rows.analysisId := Analysis(rows.tenantId, rows.promptId, QUEUED, now)]
    && after.outbox == before.outbox[rows.eventId := OutboxEvent(rows.tenantId, rows.promptId, rows.analysisId, now, None, 0)]
    && rows.promptId in after.prompts && after.prompts[rows.promptId].tenantId == rows.tenantId
    && (rows.promptId in before.prompts ==> !HasActiveAnalysis(before, rows.promptId))
    && after.prompts.Keys == before.prompts.Keys + {rows.promptId}
  }

  predicate InsertsNothing(before: PromptTables, after: PromptTables) {
    after.analyses == before.analyses && after.outbox == before.outbox && after.prompts.Keys == before.prompts.Keys
  }

  function RowsOf(step: Step): Rows
    requires IsApiStep(step)
  {
    match step
    case IngestPrompt(connector, _, ids, _) => Rows(connector.tenantId, ids.promptId, ids.analysisId, ids.eventId)
    case RequestAnalysis(actor, p, a, e) => Rows(actor.tenantId, p, a, e)
    case _ => Rows(0, 0, 0, 0)
  }

  lemma ApiStepEffect(c: Config, s: State, e: Event)
    requires Enabled(c, s, e) && IsApiStep(e.step)
    ensures var after := Take(c, s, e).db;
            Inserts(s.db, after, RowsOf(e.step), e.at) || InsertsNothing(s.db, after)
  {
    var before, after := s.db, Take(c, s, e).db;
    if e.step.RequestAnalysis? && e.step.promptId in before.prompts {
      assert before.prompts.Keys + {e.step.promptId} == before.prompts.Keys;
    }
  }

  lemma ApiKeepsPrompts(c: Config, s: State, e: Event, p: PromptId)
    requires Enabled(c, s, e) && IsApiStep(e.step) && p in s.db.prompts
    ensures p in ActApi(s.db, e.step, e.at).prompts
    ensures var before, after := s.db.prompts[p], ActApi(s.db, e.step, e.at).prompts[p];
            after == before.(deletedAt := after.deletedAt)
  {
  }

  /** Prompts are never removed, and change nothing but their deletion mark. */
  lemma PromptsPersist(c: Config, s: State, e: Event, p: PromptId)
    requires Enabled(c, s, e) && p in s.db.prompts
    ensures p in Take(c, s, e).db.prompts
    ensures var before, after := s.db.prompts[p], Take(c, s, e).db.prompts[p];
            after == before.(deletedAt := after.deletedAt)
  {
    if IsApiStep(e.step) { ApiKeepsPrompts(c, s, e, p); }
    hide ActWorker, ActDispatcher, ActApi, Enabled;
  }

  /** Workers touch neither prompts nor outbox, queue or dispatchers. */
  lemma WorkersLeaveOutbox(c: Config, s: State, e: Event)
    requires Enabled(c, s, e) && IsWorkerStep(e.step)
    ensures var after := Take(c, s, e);
            && after.db.outbox == s.db.outbox && after.db.prompts == s.db.prompts
            && after.queue == s.queue && after.dispatchers == s.dispatchers
  {
    hide ActWorker;
  }

  /** A dispatcher only adds jobs it read from the outbox and stamps events. */
  lemma DispatchStepEffect(c: Config, s: State, e: Event)
    requires Enabled(c, s, e) && IsDispatchStep(e.step) && DispatchersMatch(s)
    ensures var after := Take(c, s, e);
            && after.db.analyses == s.db.analyses && after.db.prompts == s.db.prompts
            && after.db.outbox.Keys == s.db.outbox.Keys
            && (forall x :: x in s.db.outbox ==> JobOf(after.db.outbox[x]) == JobOf(s.db.outbox[x]))
            && (forall x :: x in s.queue ==> x in after.queue && after.queue[x] == s.queue[x])
            && (forall x :: x in after.queue && x !in s.queue ==> x in s.db.outbox && after.queue[x] == JobOf(s.db.outbox[x]))
            && (forall x :: x in s.db.outbox && after.db.outbox[x].publishedAt.Some? && s.db.outbox[x].publishedAt.None? ==> x in s.queue)
  {
    if e.step.AddJob? || e.step.Publish? {
      assert DispatcherMatches(s, s.dispatchers[e.step.d]);
      assert s.dispatchers[e.step.d].rest[0] in s.dispatchers[e.step.d].rest;
    }
  }

  // -------------------------------------------------------------- invariance

  ghost predicate Announced(db: PromptTables) {
    EventsMatch(db) && EventsDistinct(db.outbox) && PromptsExist(db)
  }

  ghost predicate Delivered(s: State) {
    QueueMatches(s) && PublishedAreQueued(s) && DispatchersMatch(s)
  }

  lemma InsertKeepsAnnounced(before: PromptTables, after: PromptTables, rows: Rows, now: Millis)
    requires Announced(before) && Inserts(before, after, rows, now)
    requires forall p :: p in before.prompts ==> p in after.prompts && after.prompts[p].tenantId == before.prompts[p].tenantId
    ensures Announced(after)
  {
    forall d, e, a | Names(after.outbox, d, a) && Names(after.outbox, e, a) ensures d == e {
      if d != rows.eventId { assert Names(before.outbox, d, a); }
      if e != rows.eventId { assert Names(before.outbox, e, a); }
    }
  }

  /** Announcements survive a change that keeps rows up to status and publication. */
  lemma UpdateKeepsAnnounced(before: PromptTables, after: PromptTables)
    requires Announced(before)
    requires after.outbox.Keys == before.outbox.Keys
    requires forall e :: e in before.outbox ==> JobOf(after.outbox[e]) == JobOf(before.outbox[e])
    requires after.analyses.Keys == before.analyses.Keys
    requires forall a :: a in before.analyses ==> after.analyses[a] == before.analyses[a].(status := after.analyses[a].status)
    requires forall p :: p in before.prompts ==> p in after.prompts && after.prompts[p].tenantId == before.prompts[p].tenantId
    ensures Announced(after)
  {
    forall d, e, a | Names(after.outbox, d, a) && Names(after.outbox, e, a) ensures d == e {
      assert JobOf(after.outbox[d]) == JobOf(before.outbox[d]) && JobOf(after.outbox[e]) == JobOf(before.outbox[e]);
      assert Names(before.outbox, d, a) && Names(before.outbox, e, a);
    }
    forall e | e in after.outbox ensures MatchesAnalysis(after.analyses, JobOf(after.outbox[e])) {
      assert MatchesAnalysis(before.analyses, JobOf(before.outbox[e]));
    }
  }

  lemma AnnouncedKept(c: Config, s: State, e: Event)
    requires Announced(s.db) && Delivered(s) && Enabled(c, s, e)
    ensures Announced(Take(c, s, e).db)
  {
    var after := Take(c, s, e).db;
    forall p | p in s.db.prompts ensures p in after.prompts && after.prompts[p].tenantId == s.db.prompts[p].tenantId {
      PromptsPersist(c, s, e, p);
    }
    forall a | a in s.db.analyses ensures a in after.analyses && after.analyses[a] == s.db.analyses[a].(status := after.analyses[a].status) {
      AnalysesPersist(c, s, e, a);
    }
    if IsApiStep(e.step) {
      ApiStepEffect(c, s, e);
      if Inserts(s.db, after, RowsOf(e.step), e.at) {
        InsertKeepsAnnounced(s.db, after, RowsOf(e.step), e.at);
        return;
      }
    } else if IsDispatchStep(e.step) {
      DispatchStepEffect(c, s, e);
    } else {
      WorkersLeaveOutbox(c, s, e);
      WorkerStepEffect(c, s, e);
    }
    hide Take, Enabled, Announced, Delivered;
    UpdateKeepsAnnounced(s.db, after);
  }

  /** The queue and the dispatchers keep agreeing with an outbox whose rows stay. */
  lemma DeliveredFollowsOutbox(s: State, after: State)
    requires Delivered(s)
    requires after.queue == s.queue && after.dispatchers == s.dispatchers
    requires forall e :: e in s.db.outbox ==> e in after.db.outbox && JobOf(after.db.outbox[e]) == JobOf(s.db.outbox[e])
    requires forall e :: e in after.db.outbox && after.db.outbox[e].publishedAt.Some? ==> e in s.db.outbox && s.db.outbox[e].publishedAt.Some?
    ensures Delivered(after)
  {
    forall d | d in after.dispatchers ensures DispatcherMatches(after, after.dispatchers[d]) {
      assert DispatcherMatches(s, s.dispatchers[d]);
    }
  }

  lemma DispatchKeepsQueue(c: Config, s: State, e: Event)
    requires Delivered(s) && Enabled(c, s, e) && IsDispatchStep(e.step)
    ensures QueueMatches(Take(c, s, e)) && PublishedAreQueued(Take(c, s, e))
  {
    DispatchStepEffect(c, s, e);
    hide Take, Enabled;
  }

  lemma DispatchKeepsDispatchers(c: Config, s: State, e: Event)
    requires Delivered(s) && Enabled(c, s, e) && IsDispatchStep(e.step)
    ensures DispatchersMatch(Take(c, s, e))
  {
    var after := Take(c, s, e);
    DispatchStepEffect(c, s, e);
    forall d | d in after.dispatchers ensures DispatcherMatches(after, after.dispatchers[d]) {
      if d == e.step.d {
        OwnDispatcherMatches(c, s, e);
      } else {
        assert DispatcherMatches(s, s.dispatchers[d]);
      }
    }
  }

  lemma OwnDispatcherMatches(c: Config, s: State, e: Event)
    requires Delivered(s) && Enabled(c, s, e) && IsDispatchStep(e.step)
    requires e.step.d in Take(c, s, e).dispatchers
    ensures DispatcherMatches(Take(c, s, e), Take(c, s, e).dispatchers[e.step.d])
  {
    if !e.step.FetchBatch? {
      assert DispatcherMatches(s, s.dispatchers[e.step.d]);
    }
    DispatchStepEffect(c, s, e);
  }

  lemma DeliveredKept(c: Config, s: State, e: Event)
    requires Delivered(s) && Enabled(c, s, e)
    ensures Delivered(Take(c, s, e))
  {
    if IsDispatchStep(e.step) {
      DispatchKeepsQueue(c, s, e);
      DispatchKeepsDispatchers(c, s, e);
    } else {
      if IsApiStep(e.step) { ApiStepEffect(c, s, e); } else { WorkersLeaveOutbox(c, s, e); }
      hide Enabled, ActWorker, ActApi;
      DeliveredFollowsOutbox(s, Take(c, s, e));
    }
  }

  lemma {:induction false} OutboxInvariant(c: Config, run: Run)
    requires IsRun(c, run)
    ensures Announced(Reached(c, run).db) && Delivered(Reached(c, run))
    decreases run
  {
    if run.Then? {
      OutboxInvariant(c, run.past);
      AnnouncedKept(c, Reached(c, run.past), run.event);
      DeliveredKept(c, Reached(c, run.past), run.event);
    }
  }

  // ------------------------------------------------------------ main results

  /** Every analysis has an outbox event that names it, its prompt and its workspace. */
  lemma {:induction false} EventOf(c: Config, run: Run, a: AnalysisId) returns (e: EventId)
    requires IsRun(c, run) && a in Reached(c, run).db.analyses
    ensures Names(Reached(c, run).db.outbox, e, a)
    ensures var row, event := Reached(c, run).db.analyses[a], Reached(c, run).db.outbox[e];
            event.promptId == row.promptId && event.tenantId == row.tenantId
    decreases run
  {
    var s, event := Reached(c, run.past), run.event;
    OutboxInvariant(c, run.past);
    if a in s.db.analyses {
      e := EventOf(c, run.past, a);
      EventStays(c, s, event, e);
      AnalysesPersist(c, s, event, a);
    } else {
      e := FirstEvent(c, s, event, a);
    }
    hide Take, Enabled, Announced, Delivered;
  }

  /** No step removes an event or changes what it announces. */
  lemma EventStays(c: Config, s: State, event: Event, e: EventId)
    requires Enabled(c, s, event) && Delivered(s) && e in s.db.outbox
    ensures e in Take(c, s, event).db.outbox && JobOf(Take(c, s, event).db.outbox[e]) == JobOf(s.db.outbox[e])
  {
    if IsApiStep(event.step) {
      ApiStepEffect(c, s, event);
    } else if IsDispatchStep(event.step) {
      DispatchStepEffect(c, s, event);
    } else {
      WorkersLeaveOutbox(c, s, event);
    }
    hide Take, Enabled;
  }

  /** A new analysis comes with its event. */
  lemma FirstEvent(c: Config, s: State, event: Event, a: AnalysisId) returns (e: EventId)
    requires Enabled(c, s, event) && Delivered(s)
    requires a in Take(c, s, event).db.analyses && a !in s.db.analyses
    ensures var db := Take(c, s, event).db;
            Names(db.outbox, e, a) && db.outbox[e].promptId == db.analyses[a].promptId && db.outbox[e].tenantId == db.analyses[a].tenantId
  {
    if IsApiStep(event.step) {
      ApiStepEffect(c, s, event);
      e := RowsOf(event.step).eventId;
    } else {
      OthersAddNoAnalysis(c, s, event);
      assert false;
    }
    hide Take, Enabled;
  }

  lemma OthersAddNoAnalysis(c: Config, s: State, event: Event)
    requires Enabled(c, s, event) && !IsApiStep(event.step)
    ensures Take(c, s, event).db.analyses.Keys == s.db.analyses.Keys
  {
    if IsWorkerStep(event.step) { WorkerStepEffect(c, s, event); } else { DispatchStepEffectOnAnalyses(c, s, event); }
    hide Take, Enabled;
  }

  /** And only one. */
  lemma OneEventPerAnalysis(c: Config, run: Run, a: AnalysisId, d: EventId, e: EventId)
    requires IsRun(c, run)
    requires Names(Reached(c, run).db.outbox, d, a) && Names(Reached(c, run).db.outbox, e, a)
    ensures d == e && a in Reached(c, run).db.analyses
  {
    OutboxInvariant(c, run);
    assert MatchesAnalysis(Reached(c, run).db.analyses, JobOf(Reached(c, run).db.outbox[d]));
  }

  /** An event is published only after its job was queued, and the job says what the event
      says; so every job that is delivered names an existing analysis, and no two jobs
      name the same one. */
  lemma JobsAreTheEvents(c: Config, run: Run, e: EventId)
    requires IsRun(c, run)
    ensures var s := Reached(c, run);
            && (e in s.db.outbox && s.db.outbox[e].publishedAt.Some? ==> e in s.queue)
            && (e in s.queue ==>
                  && e in s.db.outbox && s.queue[e] == JobOf(s.db.outbox[e])
                  && MatchesAnalysis(s.db.analyses, s.queue[e])
                  && forall d :: d in s.queue && s.queue[d].analysisId == s.queue[e].analysisId ==> d == e)
  {
    OutboxInvariant(c, run);
    var s := Reached(c, run);
    if e in s.queue {
      forall d | d in s.queue && s.queue[d].analysisId == s.queue[e].analysisId ensures d == e {
        assert Names(s.db.outbox, d, s.queue[e].analysisId) && Names(s.db.outbox, e, s.queue[e].analysisId);
      }
    }
  }

  /** A queued job is never replaced, however many dispatchers read the same event. */
  lemma {:induction false} JobsStay(c: Config, h: Run, run: Run, e: EventId)
    requires IsRun(c, run) && Within(h, run) && IsRun(c, h) && e in Reached(c, h).queue
    ensures e in Reached(c, run).queue && Reached(c, run).queue[e] == Reached(c, h).queue[e]
    decreases run
  {
    if h != run {
      JobsStay(c, h, run.past, e);
      OutboxInvariant(c, run.past);
      var s, event := Reached(c, run.past), run.event;
      if IsDispatchStep(event.step) {
        DispatchStepEffect(c, s, event);
      } else if IsApiStep(event.step) {
        ApiStepEffect(c, s, event);
      } else {
        WorkersLeaveOutbox(c, s, event);
      }
    }
  }

  /** No prompt is ever without an analysis. */
  lemma {:induction false} NoPromptWithoutAnalysis(c: Config, run: Run, p: PromptId)
    requires IsRun(c, run) && p in Reached(c, run).db.prompts
    ensures HasAnalysis(Reached(c, run).db, p)
    decreases run
  {
    var s, after, event := Reached(c, run.past), Reached(c, run), run.event;
    if p in s.db.prompts {
      NoPromptWithoutAnalysis(c, run.past, p);
      var a :| a in s.db.analyses && AnalysisOf(s.db, a, p);
      AnalysesPersist(c, s, event, a);
      assert AnalysisOf(after.db, a, p);
    } else {
      if IsApiStep(event.step) {
        ApiStepEffect(c, s, event);
      } else if IsWorkerStep(event.step) {
        WorkersLeaveOutbox(c, s, event);
      }
      assert AnalysisOf(after.db, RowsOf(event.step).analysisId, p);
    }
  }

  predicate QueuedOf(db: PromptTables, a: AnalysisId, p: PromptId) {
    AnalysisOf(db, a, p) && db.analyses[a].status == QUEUED
  }

  /** No step sends an analysis back to QUEUED. */
  lemma QueuedIsInitial(c: Config, s: State, e: Event, a: AnalysisId)
    requires Enabled(c, s, e) && a in s.db.analyses
    ensures a in Take(c, s, e).db.analyses
    ensures Take(c, s, e).db.analyses[a].status == QUEUED ==> s.db.analyses[a].status == QUEUED
  {
    if IsWorkerStep(e.step) {
      WorkerStepEffect(c, s, e);
    } else {
      OthersLeaveWorkers(c, s, e);
    }
    hide ActWorker, ActDispatcher, ActApi, Enabled;
  }

  /** A prompt never has two analyses waiting. */
  lemma {:induction false} OneQueuedPerPrompt(c: Config, run: Run, p: PromptId, a: AnalysisId, b: AnalysisId)
    requires IsRun(c, run)
    requires QueuedOf(Reached(c, run).db, a, p) && QueuedOf(Reached(c, run).db, b, p)
    ensures a == b
    decreases run
  {
    var s, event := Reached(c, run.past), run.event;
    if a in s.db.analyses { QueuedIsInitial(c, s, event, a); AnalysesPersist(c, s, event, a); }
    if b in s.db.analyses { QueuedIsInitial(c, s, event, b); AnalysesPersist(c, s, event, b); }
    if a in s.db.analyses && b in s.db.analyses {
      OneQueuedPerPrompt(c, run.past, p, a, b);
    } else {
      OutboxInvariant(c, run.past);
      NewcomerIsAlone(c, s, event, p, a, b);
    }
  }

  /** An analysis is queued only for a prompt without an active one. */
  lemma NewcomerIsAlone(c: Config, s: State, e: Event, p: PromptId, a: AnalysisId, b: AnalysisId)
    requires Enabled(c, s, e) && Announced(s.db)
    requires AnalysisOf(Take(c, s, e).db, a, p) && AnalysisOf(Take(c, s, e).db, b, p)
    requires a in s.db.analyses ==> QueuedOf(s.db, a, p)
    requires b in s.db.analyses ==> QueuedOf(s.db, b, p)
    requires a !in s.db.analyses || b !in s.db.analyses
    ensures a == b
  {
    if IsApiStep(e.step) {
      ApiStepEffect(c, s, e);
    } else if IsDispatchStep(e.step) {
      DispatchStepEffectOnAnalyses(c, s, e);
    } else {
      WorkerStepEffect(c, s, e);
    }
    hide ActWorker, ActDispatcher, ActApi, Enabled;
  }

  lemma DispatchStepEffectOnAnalyses(c: Config, s: State, e: Event)
    requires Enabled(c, s, e) && IsDispatchStep(e.step)
    ensures Take(c, s, e).db.analyses == s.db.analyses
  {
  }

  // ------------------------------------------------------------ publications

  /** The step stamps the event: it stands first in what the dispatcher still has to send,
      and its job was added. */
  predicate Stamps(s: State, event: Event, e: EventId) {
    && event.step.Publish? && event.step.d in s.dispatchers && s.dispatchers[event.step.d].rest != []
    && s.dispatchers[event.step.d].rest[0].eventId == e && e in s.db.outbox
  }

  ghost function Publications(c: Config, run: Run, e: EventId): nat
    requires IsRun(c, run)
  {
    if run.Start? then 0
    else Publications(c, run.past, e) + if Stamps(Reached(c, run.past), run.event, e) then 1 else 0
  }

  ghost function LastPublication(c: Config, run: Run, e: EventId): Option<Millis>
    requires IsRun(c, run)
  {
    if run.Start? then None
    else if Stamps(Reached(c, run.past), run.event, e) then Some(run.event.at)
    else LastPublication(c, run.past, e)
  }

  /** An event has as many attempts as dispatchers have published it, and the time of the
      last; overlapping dispatchers may publish it more than once. */
  lemma {:induction false} PublicationsAreCounted(c: Config, run: Run, e: EventId)
    requires IsRun(c, run)
    ensures var outbox := Reached(c, run).db.outbox;
            && (e in outbox ==> outbox[e].attempts == Publications(c, run, e) && outbox[e].publishedAt == LastPublication(c, run, e))
            && (e !in outbox ==> Publications(c, run, e) == 0 && LastPublication(c, run, e) == None)
  {
    if run.Then? {
      PublicationsAreCounted(c, run.past, e);
      StampingStep(c, Reached(c, run.past), run.event, e);
      hide Take, Enabled, Stamps;
    }
  }

  lemma StampingStep(c: Config, s: State, event: Event, e: EventId)
    requires Enabled(c, s, event)
    ensures var before, after := s.db.outbox, Take(c, s, event).db.outbox;
            && (e in before ==>
                  && e in after
                  && after[e].attempts == before[e].attempts + (if Stamps(s, event, e) then 1 else 0)
                  && after[e].publishedAt == if Stamps(s, event, e) then Some(event.at) else before[e].publishedAt)
            && (e !in before ==> !Stamps(s, event, e) && (e in after ==> after[e].attempts == 0 && after[e].publishedAt == None))
  {
    if IsApiStep(event.step) {
      ApiStepEffect(c, s, event);
      hide ActApi;
    } else if IsWorkerStep(event.step) {
      WorkersLeaveOutbox(c, s, event);
      hide ActWorker;
    } else {
      hide ActWorker, ActApi;
    }
  }
}
