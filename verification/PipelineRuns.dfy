/** Runs of the pipeline in which something goes wrong: two active analyses of one prompt, a
    completed analysis that ends as failed, and one that is left RUNNING for ever. */
module PipelineRuns {
  import opened Prelude
  import opened ConnectorStore
  import opened PromptStore
  import opened AnalysisControls
  import opened Pipeline
  import opened WorkerSafety
  import opened StrandedAnalyses

  const OneWorker := Config(Options(60, 5), map[0 := Pipeline.Settings("fake", 1000)], {0}, (now: Millis) => 0)

  const Sender := Connector(1, 0, 2, 0, "cli")
  const Asked := Input(7, 0, "text", "cli", "model", 0, "UTC", [])
  const First := JobData(0, 0, 0)

  /** One more step of a run, at time zero. */
  lemma Extend(run: Pipeline.Run, step: Step, s: Pipeline.State) returns (longer: Pipeline.Run)
    requires Pipeline.IsRun(OneWorker, run) && Reached(OneWorker, run) == s && Enabled(OneWorker, s, Pipeline.Event(0, step))
    ensures longer == Then(run, Pipeline.Event(0, step)) && Pipeline.IsRun(OneWorker, longer)
    ensures Reached(OneWorker, longer) == Take(OneWorker, s, Pipeline.Event(0, step))
  {
    longer := Then(run, Pipeline.Event(0, step));
  }

  function Tables(status: AnalysisStatus): PromptTables {
    PromptTables(map[0 := Project(0, true)], map[0 := NewPrompt(Sender, Asked, 0)], {}, {},
                 map[0 := Analysis(0, 0, status, 0)], map[0 := OutboxEvent(0, 0, 0, 0, None, 0)], map[], Start)
  }

  const Ours := OneWorker.tenants[0]

  predicate At(s: Pipeline.State, db: PromptTables, worker: Worker, store: Store) {
    s.db == db && s.queue == map[0 := First] && s.workers == map[0 := worker] && s.store == store && s.clock == 0
  }

  ghost predicate Leads(s: Pipeline.State, step: Step, db: PromptTables, worker: Worker, store: Store) {
    && Enabled(OneWorker, s, Pipeline.Event(0, step))
    && At(Take(OneWorker, s, Pipeline.Event(0, step)), db, worker, store)
  }

  /** A prompt is stored. */
  lemma StoredPrompt() returns (run: Pipeline.Run, s: Pipeline.State)
    ensures Pipeline.IsRun(OneWorker, run) && s == Reached(OneWorker, run)
    ensures s == Pipeline.State(Tables(QUEUED), map[], map[0 := Free], map[], map[], 0)
  {
    run := Start;
    s := Initial(OneWorker);
    assert s.workers == map[0 := Free];
    run := Extend(run, ChangeProjects(map[0 := Project(0, true)]), s);
    s := Reached(OneWorker, run);
    run := Extend(run, IngestPrompt(Sender, Asked, RowIds(0, 0, 0), 0), s);
    s := Reached(OneWorker, run);
    assert s.db == Tables(QUEUED);
  }

  /** And its analysis offered to the queue. */
  lemma Offered() returns (run: Pipeline.Run, s: Pipeline.State)
    ensures Pipeline.IsRun(OneWorker, run) && s == Reached(OneWorker, run)
    ensures At(s, Tables(QUEUED), Free, map[])
  {
    run, s := StoredPrompt();
    run := Extend(run, FetchBatch(0, [0]), s);
    s := Reached(OneWorker, run);
    run := Extend(run, AddJob(0), s);
    s := Reached(OneWorker, run);
  }

  lemma Delivers(s: Pipeline.State, db: PromptTables, status: AnalysisStatus)
    requires At(s, db, Free, map[]) && 0 in db.analyses && db.analyses[0] == Analysis(0, 0, status, 0) && status != COMPLETED
    ensures Leads(s, Deliver(0, 0), db, Loaded(First, Ours), map[])
  {
  }

  lemma Claims(s: Pipeline.State, db: PromptTables, status: AnalysisStatus)
    requires At(s, db, Loaded(First, Ours), map[])
    requires 0 in db.analyses && db.analyses[0] == Analysis(0, 0, status, 0) && Claimable(status)
    ensures Leads(s, Claim(0), SetStatus(db, 0, RUNNING), Claimed(First, Ours), map[])
  {
  }

  lemma Fails(s: Pipeline.State, db: PromptTables)
    requires At(s, db, Claimed(First, Ours), map[]) && 0 in db.analyses
    ensures Leads(s, ControlFault(0), db, Failing(First, Ours, true), map[])
  {
  }

  lemma WritesFailed(s: Pipeline.State, db: PromptTables, store: Store)
    requires At(s, db, Failing(First, Ours, true), store) && 0 in db.analyses
    ensures Leads(s, WriteFailed(0, true), SetStatus(db, 0, FAILED), Recording(Ours), store)
  {
    assert FailJob(s, 0, true) == Pipeline.Set(s.(db := SetStatus(db, 0, FAILED)), 0, Recording(Ours));
    hide FailJob, SetStatus;
  }

  lemma Stops(s: Pipeline.State, db: PromptTables, worker: Worker, store: Store)
    requires At(s, db, worker, store)
    ensures Leads(s, StopWorker(0), db, Free, store)
  {
  }

  lemma Requests(s: Pipeline.State)
    requires At(s, Tables(FAILED), Free, map[])
    ensures Leads(s, RequestAnalysis(Actor(0, 2, MEMBER), 0, 1, 1), QueueAnalysis(Tables(FAILED), 0, 0, 1, 1, 0), Free, map[])
  {
  }

  function CountedOnce(): Store {
    EnforceCounters(map[], OneWorker.options, 0, "fake", 0).0
  }

  lemma Counts(s: Pipeline.State, db: PromptTables)
    requires At(s, db, Claimed(First, Ours), map[])
    ensures Leads(s, CountRequest(0), db, Counted(First, Ours, 0), CountedOnce())
  {
    assert EnforceCounters(map[], OneWorker.options, 0, "fake", 0).1 == Admitted;
    hide EnforceCounters;
  }

  lemma Passes(s: Pipeline.State, db: PromptTables, store: Store)
    requires At(s, db, Counted(First, Ours, 0), store) && db.usage == Start
    ensures Leads(s, ReadBudget(0), db, Passed(First, Ours), store)
  {
    assert ConsumedSince(db.usage, 0, 0) == 0;
    assert CheckBudget(OneWorker, s, 0) == Pipeline.Set(s, 0, Passed(First, Ours));
    hide ConsumedSince, CheckBudget;
  }

  lemma Analyzes(s: Pipeline.State, db: PromptTables, store: Store)
    requires At(s, db, Passed(First, Ours), store)
    ensures Leads(s, Analyze(0, Some(5)), db, Analyzed(First, Ours, 5), store)
  {
  }

  /** The tables after the completing transaction. */
  function Recorded(status: AnalysisStatus): PromptTables {
    Tables(status).(improved := map[0 := 0], usage := Then(Start, Usage(0, 0, 5, 0)))
  }

  lemma CommitsUnseen(s: Pipeline.State, store: Store)
    requires At(s, Tables(RUNNING), Analyzed(First, Ours, 5), store)
    ensures Leads(s, Complete(0, Unacknowledged), Recorded(COMPLETED), Failing(First, Ours, true), store)
  {
    assert SetStatus(Tables(RUNNING), 0, COMPLETED) == Tables(COMPLETED);
  }

  lemma Go(run: Pipeline.Run, step: Step, db: PromptTables, worker: Worker, store: Store) returns (longer: Pipeline.Run)
    requires Pipeline.IsRun(OneWorker, run) && Leads(Reached(OneWorker, run), step, db, worker, store)
    ensures longer == Then(run, Pipeline.Event(0, step)) && Pipeline.IsRun(OneWorker, longer)
    ensures At(Reached(OneWorker, longer), db, worker, store)
  {
    longer := Extend(run, step, Reached(OneWorker, run));
  }

  /** A worker takes the analysis. */
  lemma Held() returns (run: Pipeline.Run)
    ensures Pipeline.IsRun(OneWorker, run) && At(Reached(OneWorker, run), Tables(RUNNING), Claimed(First, Ours), map[])
  {
    var s;
    run, s := Offered();
    hide Leads, Reached, Pipeline.IsRun;
    Delivers(s, Tables(QUEUED), QUEUED);
    run := Go(run, Deliver(0, 0), Tables(QUEUED), Loaded(First, Ours), map[]);
    Claims(Reached(OneWorker, run), Tables(QUEUED), QUEUED);
    assert SetStatus(Tables(QUEUED), 0, RUNNING) == Tables(RUNNING);
    run := Go(run, Claim(0), Tables(RUNNING), Claimed(First, Ours), map[]);
  }

  /** It fails. */
  lemma Failed() returns (run: Pipeline.Run)
    ensures Pipeline.IsRun(OneWorker, run) && At(Reached(OneWorker, run), Tables(FAILED), Free, map[])
  {
    run := Held();
    hide Leads, Reached, Pipeline.IsRun;
    Fails(Reached(OneWorker, run), Tables(RUNNING));
    run := Go(run, ControlFault(0), Tables(RUNNING), Failing(First, Ours, true), map[]);
    WritesFailed(Reached(OneWorker, run), Tables(RUNNING), map[]);
    assert SetStatus(Tables(RUNNING), 0, FAILED) == Tables(FAILED);
    run := Go(run, WriteFailed(0, true), Tables(FAILED), Recording(Ours), map[]);
    Stops(Reached(OneWorker, run), Tables(FAILED), Recording(Ours), map[]);
    run := Go(run, StopWorker(0), Tables(FAILED), Free, map[]);
  }

  /** The owner of the prompt asks for a new analysis, and then the first job is delivered
      again. */
  lemma TwoAnalysesActive() returns (run: Pipeline.Run)
    ensures Pipeline.IsRun(OneWorker, run)
    ensures !OneActive(Reached(OneWorker, run).db, 0)
  {
    run := Failed();
    var db := RestartedTables();
    hide Leads, Reached, Pipeline.IsRun, Tables, QueueAnalysis, SetStatus, At, OneActive;
    Requests(Reached(OneWorker, run));
    run := Go(run, RequestAnalysis(Actor(0, 2, MEMBER), 0, 1, 1), db, Free, map[]);
    Delivers(Reached(OneWorker, run), db, FAILED);
    run := Go(run, Deliver(0, 0), db, Loaded(First, Ours), map[]);
    Claims(Reached(OneWorker, run), db, FAILED);
    run := Go(run, Claim(0), SetStatus(db, 0, RUNNING), Claimed(First, Ours), map[]);
    AtHas(Reached(OneWorker, run), SetStatus(db, 0, RUNNING), Claimed(First, Ours), map[]);
  }

  lemma AtHas(s: Pipeline.State, db: PromptTables, worker: Worker, store: Store)
    requires At(s, db, worker, store)
    ensures s.db == db && s.workers == map[0 := worker]
  {
  }

  lemma RestartedTables() returns (db: PromptTables)
    ensures db == QueueAnalysis(Tables(FAILED), 0, 0, 1, 1, 0)
    ensures 0 in db.analyses && db.analyses[0] == Analysis(0, 0, FAILED, 0)
    ensures !OneActive(SetStatus(db, 0, RUNNING), 0)
  {
    db := QueueAnalysis(Tables(FAILED), 0, 0, 1, 1, 0);
    assert ActiveOf(SetStatus(db, 0, RUNNING), 0, 0) && ActiveOf(SetStatus(db, 0, RUNNING), 1, 0);
  }

  /** A worker does not hear that its completing transaction has committed, and writes FAILED
      over COMPLETED: both records stay, the status does not. */
  lemma CompletedEndsFailed() returns (run: Pipeline.Run)
    ensures Pipeline.IsRun(OneWorker, run) && run.Then? && Overwrites(Reached(OneWorker, run.past), run.event, 0)
    ensures var db := Reached(OneWorker, run).db;
            && 0 in db.analyses && db.analyses[0].status == FAILED
            && 0 in db.improved && RecordsFor(db.usage, 0) == 1
  {
    run := Held();
    var store := CountedOnce();
    hide Leads, Reached, Pipeline.IsRun, CountedOnce;
    Counts(Reached(OneWorker, run), Tables(RUNNING));
    run := Go(run, CountRequest(0), Tables(RUNNING), Counted(First, Ours, 0), store);
    Passes(Reached(OneWorker, run), Tables(RUNNING), store);
    run := Go(run, ReadBudget(0), Tables(RUNNING), Passed(First, Ours), store);
    Analyzes(Reached(OneWorker, run), Tables(RUNNING), store);
    run := Go(run, Analyze(0, Some(5)), Tables(RUNNING), Analyzed(First, Ours, 5), store);
    CommitsUnseen(Reached(OneWorker, run), store);
    run := Go(run, Complete(0, Unacknowledged), Recorded(COMPLETED), Failing(First, Ours, true), store);
    WritesFailed(Reached(OneWorker, run), Recorded(COMPLETED), store);
    assert SetStatus(Recorded(COMPLETED), 0, FAILED) == Recorded(FAILED);
    run := Go(run, WriteFailed(0, true), Recorded(FAILED), Recording(Ours), store);
  }

  /** A worker stops right after its claim. */
  lemma LeftRunning() returns (run: Pipeline.Run)
    ensures Pipeline.IsRun(OneWorker, run) && Stranded(Reached(OneWorker, run), 0)
  {
    run := Held();
    Stops(Reached(OneWorker, run), Tables(RUNNING), Claimed(First, Ours), map[]);
    hide Leads, Reached, Pipeline.IsRun;
    run := Go(run, StopWorker(0), Tables(RUNNING), Free, map[]);
    AtHas(Reached(OneWorker, run), Tables(RUNNING), Free, map[]);
  }
}
