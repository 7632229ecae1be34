/** The analysis pipeline as one state machine: the API transactions, any number of
    outbox dispatchers, a job queue that delivers arbitrarily often, and a fixed set of
    workers. Every statement of the worker that touches shared state is a step of its own,
    and steps of different processes interleave freely. */
module Pipeline {
  import opened Prelude
  import opened ConnectorStore
  import opened PromptStore
  import opened AnalysisControls

  const BATCH_SIZE := 50

  type WorkerId = nat
  type DispatcherId = nat

  datatype Settings = Settings(provider: string, budget: nat)

  datatype JobData = JobData(tenantId: TenantId, promptId: PromptId, analysisId: AnalysisId)

  /** How far a worker has come with the job it took. */
  datatype Worker =
    | Free
    | Loaded(job: JobData, settings: Settings)
    | Claimed(job: JobData, settings: Settings)
    | Counted(job: JobData, settings: Settings, enforcedAt: Millis)
    | Passed(job: JobData, settings: Settings)
    | Analyzed(job: JobData, settings: Settings, tokens: nat)
    | Failing(job: JobData, settings: Settings, providerFailure: bool)
    | Recording(settings: Settings)

  /** How a committing transaction ends for the worker that waits for it. It may commit
      without the worker hearing of it. */
  datatype Commit = Acknowledged | Unacknowledged | RolledBack

  datatype Outgoing = Outgoing(eventId: EventId, job: JobData)

  /** A dispatcher works through the rows it read; `added` says that the first of them has
      been handed to the queue. */
  datatype Dispatcher = Dispatcher(rest: seq<Outgoing>, added: bool)

  datatype Config = Config(options: Options, tenants: map<TenantId, Settings>, workers: set<WorkerId>, monthStart: Millis -> Millis)

  datatype State = State(
    db: PromptTables,
    queue: map<EventId, JobData>,
    workers: map<WorkerId, Worker>,
    dispatchers: map<DispatcherId, Dispatcher>,
    store: Store,
    clock: Millis)

  datatype Step =
    // API transactions
    | IngestPrompt(connector: Connector, input: Input, ids: RowIds, first: AnalysisId)
    | RequestAnalysis(actor: Actor, promptId: PromptId, newAnalysis: AnalysisId, newEvent: EventId)
    | DeletePrompt(actor: Actor, promptId: PromptId)
    | ChangeProjects(projects: map<ProjectId, Project>)
    // dispatchers
    | FetchBatch(d: DispatcherId, batch: seq<EventId>)
    | AddJob(d: DispatcherId)
    | Publish(d: DispatcherId)
    | StopDispatcher(d: DispatcherId)
    // workers
    | Deliver(w: WorkerId, jobId: EventId)
    | Claim(w: WorkerId)
    | CountRequest(w: WorkerId)
    | ReadBudget(w: WorkerId)
    | ControlFault(w: WorkerId)
    | Analyze(w: WorkerId, result: Option<nat>)
    | Complete(w: WorkerId, commit: Commit)
    | WriteFailed(w: WorkerId, committed: bool)
    | RecordProviderFailure(w: WorkerId)
    | StopWorker(w: WorkerId)

  datatype Event = Event(at: Millis, step: Step)

  // ---------------------------------------------------------------- queries

  function JobOf(event: OutboxEvent): JobData {
    JobData(event.tenantId, event.promptId, event.analysisId)
  }

  /** What the dispatcher's query returns: unpublished events, oldest first, at most
      BATCH_SIZE of them, and no older one left out. */
  predicate IsBatch(outbox: map<EventId, OutboxEvent>, batch: seq<EventId>) {
    && |batch| <= BATCH_SIZE
    && (forall i :: 0 <= i < |batch| ==> batch[i] in outbox && outbox[batch[i]].publishedAt.None?)
    && (forall i, j :: 0 <= i < j < |batch| ==> batch[i] != batch[j] && outbox[batch[i]].occurredAt <= outbox[batch[j]].occurredAt)
    && (forall e :: e in outbox && outbox[e].publishedAt.None? && e !in batch ==>
                      |batch| == BATCH_SIZE && outbox[batch[|batch| - 1]].occurredAt <= outbox[e].occurredAt)
  }

  /** The tokens recorded for a workspace since `from`. */
  function ConsumedSince(usage: History<Usage>, tenantId: TenantId, from: Millis): nat {
    match usage
    case Start => 0
    case Then(past, u) => ConsumedSince(past, tenantId, from) + if u.tenantId == tenantId && u.createdAt >= from then u.tokens else 0
  }

  /** The worker is between its claim and the write that ends it. */
  predicate Holds(worker: Worker) {
    worker.Claimed? || worker.Counted? || worker.Passed? || worker.Analyzed? || worker.Failing?
  }

  predicate HasJob(worker: Worker) {
    worker.Loaded? || Holds(worker)
  }

  predicate Claimable(status: AnalysisStatus) {
    status == QUEUED || status == FAILED
  }

  // ------------------------------------------------------------------ steps

  function SetStatus(db: PromptTables, a: AnalysisId, status: AnalysisStatus): PromptTables
    requires a in db.analyses
  {
    db.(analyses := db.analyses[a := db.analyses[a].(status := status)])
  }

  function Set(s: State, w: WorkerId, worker: Worker): State {
    s.(workers := s.workers[w := worker])
  }

  /** A worker's step leaves API rows, the outbox, the queue and all other processes alone. */
  predicate IsOwnStep(s: State, after: State, w: WorkerId) {
    && after.queue == s.queue && after.dispatchers == s.dispatchers
    && after.db.outbox == s.db.outbox && after.db.prompts == s.db.prompts
    && w in after.workers && after.workers == s.workers[w := after.workers[w]]
  }

  function DeliverJob(c: Config, s: State, w: WorkerId, jobId: EventId): (after: State)
    requires w in s.workers && jobId in s.queue
    ensures IsOwnStep(s, after, w)
  {
    var job := s.queue[jobId];
    if job.analysisId !in s.db.analyses || s.db.analyses[job.analysisId].tenantId != job.tenantId
       || s.db.analyses[job.analysisId].promptId != job.promptId then s
    else if job.tenantId !in c.tenants then s
    else if s.db.analyses[job.analysisId].status == COMPLETED then s
    else Set(s, w, Loaded(job, c.tenants[job.tenantId]))
  }

  function ClaimJob(s: State, w: WorkerId): (after: State)
    requires w in s.workers && s.workers[w].Loaded?
    ensures IsOwnStep(s, after, w)
  {
    var Loaded(job, settings) := s.workers[w];
    if job.analysisId in s.db.analyses && Claimable(s.db.analyses[job.analysisId].status) then
      Set(s.(db := SetStatus(s.db, job.analysisId, RUNNING)), w, Claimed(job, settings))
    else Set(s, w, Free)
  }

  function CountJob(c: Config, s: State, w: WorkerId, now: Millis): (after: State)
    requires w in s.workers && s.workers[w].Claimed?
    ensures IsOwnStep(s, after, w)
  {
    var Claimed(job, settings) := s.workers[w];
    var (store, verdict) := EnforceCounters(s.store, c.options, job.tenantId, settings.provider, now);
    Set(s.(store := store), w, if verdict.Admitted? then Counted(job, settings, now) else Failing(job, settings, false))
  }

  /** The month is that of the moment when `enforce` read the clock. */
  function CheckBudget(c: Config, s: State, w: WorkerId): (after: State)
    requires w in s.workers && s.workers[w].Counted?
    ensures IsOwnStep(s, after, w)
  {
    var Counted(job, settings, enforcedAt) := s.workers[w];
    if ConsumedSince(s.db.usage, job.tenantId, c.monthStart(enforcedAt)) >= settings.budget then Set(s, w, Failing(job, settings, false))
    else Set(s, w, Passed(job, settings))
  }

  /** The completing transaction; a failure inside it undoes all three writes. A worker that
      does not hear of the commit goes on as if it had failed. */
  function CompleteJob(s: State, w: WorkerId, commit: Commit, now: Millis): (after: State)
    requires w in s.workers && s.workers[w].Analyzed?
    ensures IsOwnStep(s, after, w)
  {
    var Analyzed(job, settings, tokens) := s.workers[w];
    var a := job.analysisId;
    if commit.RolledBack? || a !in s.db.analyses || a in s.db.improved then Set(s, w, Failing(job, settings, true))
    else
      var db := SetStatus(s.db, a, COMPLETED);
      Set(s.(db := db.(improved := db.improved[a := job.promptId],
                       usage := Then(db.usage, Usage(job.tenantId, a, tokens, now)))),
          w, if commit.Acknowledged? then Free else Failing(job, settings, true))
  }

  function FailJob(s: State, w: WorkerId, committed: bool): (after: State)
    requires w in s.workers && s.workers[w].Failing?
    ensures IsOwnStep(s, after, w)
  {
    var Failing(job, settings, providerFailure) := s.workers[w];
    if !committed || job.analysisId !in s.db.analyses then Set(s, w, Free)
    else Set(s.(db := SetStatus(s.db, job.analysisId, FAILED)), w, if providerFailure then Recording(settings) else Free)
  }

  /** A dispatcher leaves workers, prompts, analyses and records alone. */
  predicate IsDispatch(s: State, after: State) {
    && after.workers == s.workers && after.store == s.store
    && after.db == s.db.(outbox := after.db.outbox)
  }

  ghost function FetchEvents(s: State, d: DispatcherId, batch: seq<EventId>): State
    requires IsBatch(s.db.outbox, batch)
  {
    var rest := seq(|batch|, i requires 0 <= i < |batch| => Outgoing(batch[i], JobOf(s.db.outbox[batch[i]])));
    s.(dispatchers := s.dispatchers[d := Dispatcher(rest, false)])
  }

  /** A job identifier that the queue already knows is ignored. */
  function AddHead(s: State, d: DispatcherId): State
    requires d in s.dispatchers && s.dispatchers[d].rest != []
  {
    var head := s.dispatchers[d].rest[0];
    s.(queue := if head.eventId in s.queue then s.queue else s.queue[head.eventId := head.job],
       dispatchers := s.dispatchers[d := s.dispatchers[d].(added := true)])
  }

  function PublishHead(s: State, d: DispatcherId, now: Millis): State
    requires d in s.dispatchers && s.dispatchers[d].rest != []
  {
    var e, rest := s.dispatchers[d].rest[0].eventId, s.dispatchers[d].rest[1..];
    if e !in s.db.outbox then s.(dispatchers := s.dispatchers - {d})
    else
      var row := s.db.outbox[e];
      s.(db := s.db.(outbox := s.db.outbox[e := row.(publishedAt := Some(now), attempts := row.attempts + 1)]),
         dispatchers := s.dispatchers[d := Dispatcher(rest, false)])
  }

  ghost predicate Enabled(c: Config, s: State, event: Event) {
    && s.clock <= event.at
    && match event.step
       case IngestPrompt(connector, input, ids, first) =>
         && ids.promptId !in s.db.prompts && ids.analysisId !in s.db.analyses && ids.eventId !in s.db.outbox
         && (KeyTaken(s.db, connector.installationId, input.clientEventId) ==>
               var p := PromptWithKey(s.db, connector.installationId, input.clientEventId);
               HasAnalysis(s.db, p) ==> IsFirstAnalysis(s.db, p, first))
       case RequestAnalysis(_, _, a, e) => a !in s.db.analyses && e !in s.db.outbox
       case DeletePrompt(_, _) => true
       case ChangeProjects(_) => true
       case FetchBatch(d, batch) => (d in s.dispatchers ==> s.dispatchers[d].rest == []) && IsBatch(s.db.outbox, batch)
       case AddJob(d) => d in s.dispatchers && s.dispatchers[d].rest != [] && !s.dispatchers[d].added
       case Publish(d) => d in s.dispatchers && s.dispatchers[d].rest != [] && s.dispatchers[d].added
       case StopDispatcher(d) => true
       case Deliver(w, jobId) => w in s.workers && s.workers[w].Free? && jobId in s.queue
       case Claim(w) => w in s.workers && s.workers[w].Loaded?
       case CountRequest(w) => w in s.workers && s.workers[w].Claimed?
       case ReadBudget(w) => w in s.workers && s.workers[w].Counted?
       case ControlFault(w) => w in s.workers && (s.workers[w].Claimed? || s.workers[w].Counted?)
       case Analyze(w, _) => w in s.workers && s.workers[w].Passed?
       case Complete(w, _) => w in s.workers && s.workers[w].Analyzed?
       case WriteFailed(w, _) => w in s.workers && s.workers[w].Failing?
       case RecordProviderFailure(w) => w in s.workers && s.workers[w].Recording?
       case StopWorker(w) => w in s.workers
  }

  predicate IsApiStep(step: Step) {
    step.IngestPrompt? || step.RequestAnalysis? || step.DeletePrompt? || step.ChangeProjects?
  }

  predicate IsDispatchStep(step: Step) {
    step.FetchBatch? || step.AddJob? || step.Publish? || step.StopDispatcher?
  }

  predicate IsWorkerStep(step: Step) {
    !IsApiStep(step) && !IsDispatchStep(step)
  }

  ghost function ActApi(db: PromptTables, step: Step, now: Millis): PromptTables
    requires IsApiStep(step)
  {
    match step
    case IngestPrompt(connector, input, ids, first) => Ingest(db, connector, input, now, ids, first).0
    case RequestAnalysis(actor, p, a, e) => Reanalyze(db, actor, p, now, a, e).0
    case DeletePrompt(actor, p) => Delete(db, actor, p, now).0
    case ChangeProjects(projects) => db.(projects := projects)
  }

  ghost function ActDispatcher(c: Config, s: State, event: Event): (after: State)
    requires Enabled(c, s, event) && IsDispatchStep(event.step)
    ensures IsDispatch(s, after)
  {
    match event.step
    case FetchBatch(d, batch) => FetchEvents(s, d, batch)
    case AddJob(d) => AddHead(s, d)
    case Publish(d) => PublishHead(s, d, event.at)
    case StopDispatcher(d) => s.(dispatchers := s.dispatchers - {d})
  }

  ghost function ActWorker(c: Config, s: State, event: Event): (after: State)
    requires Enabled(c, s, event) && IsWorkerStep(event.step)
    ensures event.step.w in s.workers && IsOwnStep(s, after, event.step.w)
  {
    match event.step
    case Deliver(w, jobId) => DeliverJob(c, s, w, jobId)
    case Claim(w) => ClaimJob(s, w)
    case CountRequest(w) => CountJob(c, s, w, event.at)
    case ReadBudget(w) => CheckBudget(c, s, w)
    case ControlFault(w) => Set(s, w, Failing(s.workers[w].job, s.workers[w].settings, true))
    case Analyze(w, result) =>
      var Passed(job, settings) := s.workers[w];
      Set(s, w, if result.Some? then Analyzed(job, settings, result.value) else Failing(job, settings, true))
    case Complete(w, commit) => CompleteJob(s, w, commit, event.at)
    case WriteFailed(w, committed) => FailJob(s, w, committed)
    case RecordProviderFailure(w) =>
      Set(s.(store := RecordFailure(s.store, c.options, s.workers[w].settings.provider, event.at)), w, Free)
    case StopWorker(w) => Set(s, w, Free)
  }

  ghost function Take(c: Config, s: State, event: Event): State
    requires Enabled(c, s, event)
  {
    var after :=
      if IsApiStep(event.step) then s.(db := ActApi(s.db, event.step, event.at))
      else if IsDispatchStep(event.step) then ActDispatcher(c, s, event)
      else ActWorker(c, s, event);
    after.(clock := event.at)
  }

  function Initial(c: Config): State {
    State(NoPrompts, map[], map w | w in c.workers :: Free, map[], map[], 0)
  }

  type Run = History<Event>

  ghost predicate IsRun(c: Config, run: Run)
    decreases run, 0
  {
    run.Then? ==> IsRun(c, run.past) && Enabled(c, Reached(c, run.past), run.event)
  }

  ghost function Reached(c: Config, run: Run): State
    requires IsRun(c, run)
    decreases run, 1
  {
    if run.Start? then Initial(c) else Take(c, Reached(c, run.past), run.event)
  }

  lemma {:induction false} RunsArePrefixClosed(c: Config, h: Run, run: Run)
    requires IsRun(c, run) && Within(h, run)
    ensures IsRun(c, h)
    decreases run
  {
    if h != run {
      RunsArePrefixClosed(c, h, run.past);
    }
  }
}
