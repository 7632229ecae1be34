/** The worker process itself. Each method performs its statements in order on the shared
    state and keeps, as a ghost, the run of the pipeline that they amount to; so what holds
    of every run holds after every sequence of these calls. */
module AnalysisWorker {
  import opened Prelude
  import opened PromptStore
  import opened AnalysisControls
  import opened Pipeline
  import WorkerSafety
  import TokenBudget
  import PipelineControls

  datatype Outcome =
    | NotFound | AlreadyCompleted | ClaimedElsewhere
    | Rejected(verdict: Verdict) | ProviderFailed | FailureUnwritten
    | Finished

  /** What the calls to the outside do: whether the control store fails before the request is
      counted, or the usage cannot be read; the provider's result, if it gives one; how the
      completing transaction ends; and whether the failed status and the provider failure can
      be written. */
  datatype Outside = Outside(
    countFault: bool, readFault: bool, result: Option<nat>, commit: Commit, failedWritten: bool, recorded: bool)

  /** The clock at each step. */
  datatype Times = Times(
    loaded: Millis, claimed: Millis, counted: Millis, read: Millis, analyzed: Millis, completed: Millis,
    failed: Millis, recorded: Millis)

  predicate Ordered(t: Times) {
    t.loaded <= t.claimed <= t.counted <= t.read <= t.analyzed <= t.completed <= t.failed <= t.recorded
  }

  class WorkerProcess {
    const config: Config
    var state: State
    ghost var run: Run

    ghost predicate Valid()
      reads this
    {
      IsRun(config, run) && state == Reached(config, run)
    }

    constructor (config: Config)
      ensures Valid() && this.config == config && run == Start
    {
      this.config := config;
      state := Initial(config);
      run := Start;
    }

    /** The events that `batch` names are published, each after its job was added, up to the
        first that fails: `good` of them succeed, and `torn` says whether the job of the next
        was added before its update failed. `times` are the clock readings in the loop and at
        its end. */
    method DispatchOutbox(d: DispatcherId, batch: seq<EventId>, good: nat, torn: bool, fetchedAt: Millis, times: seq<Millis>)
      requires Valid() && d !in state.dispatchers && IsBatch(state.db.outbox, batch)
      requires |times| == |batch| + 1 && Ascending(times) && state.clock <= fetchedAt <= times[0]
      modifies this
      ensures Valid() && Within(old(run), run)
      ensures state.dispatchers == old(state.dispatchers)
      ensures var published := if good <= |batch| then good else |batch|;
              var added := if torn && published < |batch| then published + 1 else published;
              Dispatched(old(state), state, batch[..published], batch[..added], times)
    {
      ghost var first, r := state, run;
      BatchIsKnown(state.db.outbox, batch);
      hide Dispatched, IsBatch, Take, Enabled, Reached, IsRun, Halfway, OutgoingOf, Ascending;
      Fetch(d, batch, fetchedAt);
      assert Within(r, run.past);
      FetchedIsHalfway(first, state, d, batch, fetchedAt, times);
      var published := PublishGood(first, r, d, batch, good, times);
      EndPass(first, r, d, batch, published, torn, times);
    }

    /** The pass ends here, perhaps after adding one more job. */
    method EndPass(ghost first: State, ghost r: Run, d: DispatcherId, ghost batch: seq<EventId>, published: nat, torn: bool, times: seq<Millis>)
      requires Valid() && Within(r, run) && d !in first.dispatchers && Halfway(first, state, d, batch, published, times)
      requires published <= |batch| && |times| == |batch| + 1
      modifies this
      ensures Valid() && Within(r, run) && state.dispatchers == first.dispatchers
      ensures var added := if torn && published < |batch| then published + 1 else published;
              Dispatched(first, state, batch[..published], batch[..added], times)
    {
      HalfwayEnds(first, state, d, batch, published, times);
      hide Dispatched, Take, Enabled, Reached, IsRun, Halfway;
      if torn && published < |times| - 1 {
        AddTorn(first, r, d, batch, published, times);
        Stop(first, r, d, batch[..published], batch[..published + 1], times);
      } else {
        Stop(first, r, d, batch[..published], batch[..published], times);
      }
    }

    method PublishGood(ghost first: State, ghost r: Run, d: DispatcherId, batch: seq<EventId>, good: nat, times: seq<Millis>)
      returns (k: nat)
      requires Valid() && Within(r, run) && IsBatch(first.db.outbox, batch) && Halfway(first, state, d, batch, 0, times)
      modifies this
      ensures k == (if good <= |batch| then good else |batch|)
      ensures Valid() && Within(r, run) && Halfway(first, state, d, batch, k, times)
    {
      hide *;
      k := 0;
      while k < |batch| && k < good
        invariant 0 <= k <= |batch| && k <= good && Valid() && Within(r, run) && Halfway(first, state, d, batch, k, times)
      {
        PublishNext(first, r, d, batch, k, times);
        k := k + 1;
      }
    }

    method AddTorn(ghost first: State, ghost r: Run, d: DispatcherId, ghost batch: seq<EventId>, k: nat, times: seq<Millis>)
      requires Valid() && Within(r, run) && k < |batch| && Halfway(first, state, d, batch, k, times)
      modifies this
      ensures Valid() && Within(r, run) && state.clock <= times[|batch|]
      ensures Dispatched(first, state, batch[..k], batch[..k + 1], times)
      ensures d in state.dispatchers && state.dispatchers == first.dispatchers[d := state.dispatchers[d]]
    {
      ghost var before, e := state, batch[k];
      assert state.dispatchers[d].rest[0] == Outgoing(e, JobOf(first.db.outbox[e]));
      AddEffect(config, before, d, times[k]);
      hide Take, Enabled, Reached, IsRun, OutgoingOf;
      Add(d, times[k]);
      WithinTransitive(r, run.past, run);
      HalfwayTorn(first, before, state, d, batch, k, times);
      hide Halfway, Dispatched;
    }

    method Stop(ghost first: State, ghost r: Run, d: DispatcherId, ghost published: seq<EventId>, ghost added: seq<EventId>, times: seq<Millis>)
      requires Valid() && Within(r, run) && d !in first.dispatchers
      requires |published| < |times| && state.clock <= times[|times| - 1]
      requires d in state.dispatchers && state.dispatchers == first.dispatchers[d := state.dispatchers[d]]
      requires Dispatched(first, state, published, added, times)
      modifies this
      ensures Valid() && Within(r, run) && state.dispatchers == first.dispatchers
      ensures Dispatched(first, state, published, added, times)
    {
      var now := times[|times| - 1];
      run := Then(run, Event(now, StopDispatcher(d)));
      state := state.(dispatchers := state.dispatchers - {d}, clock := now);
      assert state.dispatchers == first.dispatchers;
      hide RowsPublished, JobsAdded;
    }

    /** One turn of the loop. */
    method PublishNext(ghost first: State, ghost r: Run, d: DispatcherId, ghost batch: seq<EventId>, k: nat, times: seq<Millis>)
      requires Valid() && Within(r, run) && k < |batch| && IsBatch(first.db.outbox, batch) && Halfway(first, state, d, batch, k, times)
      modifies this
      ensures Valid() && Within(r, run) && Halfway(first, state, d, batch, k + 1, times)
    {
      hide Dispatched, IsRun;
      ghost var before, e := state, batch[k];
      var now := times[k];
      assert state.dispatchers[d].rest[0] == Outgoing(e, JobOf(first.db.outbox[e]));
      AddEffect(config, before, d, now);
      PublishesItsRow(first, before, batch, k, times);
      hide IsBatch, Dispatched, Take, Enabled, Reached, IsRun, Halfway, OutgoingOf;
      Add(d, now);
      ghost var between := state;
      PublishEffect(config, between, d, now);
      PublishFirst(d, now);
      WithinLonger(r, run.past.past, run.past.event, run.event);
      HalfwayOneMore(first, before, state, d, batch, k, times);
    }

    method Fetch(d: DispatcherId, batch: seq<EventId>, now: Millis)
      requires Valid() && state.clock <= now && d !in state.dispatchers && IsBatch(state.db.outbox, batch)
      modifies this
      ensures Valid() && run == Then(old(run), Event(now, FetchBatch(d, batch)))
      ensures state == old(state).(dispatchers := old(state).dispatchers[d := Dispatcher(OutgoingOf(old(state).db.outbox, batch), false)], clock := now)
    {
      var rest := OutgoingOf(state.db.outbox, batch);
      FetchTakes(config, state, d, batch, now);
      run := Then(run, Event(now, FetchBatch(d, batch)));
      state := state.(dispatchers := state.dispatchers[d := Dispatcher(rest, false)], clock := now);
    }

    /** A job identifier that the queue already knows is ignored. */
    method Add(d: DispatcherId, now: Millis)
      requires Valid() && Enabled(config, state, Event(now, AddJob(d)))
      modifies this
      ensures Valid() && run == Then(old(run), Event(now, AddJob(d)))
      ensures state == Take(config, old(state), Event(now, AddJob(d)))
    {
      var head := state.dispatchers[d].rest[0];
      run := Then(run, Event(now, AddJob(d)));
      if head.eventId !in state.queue {
        state := state.(queue := state.queue[head.eventId := head.job]);
      }
      state := state.(dispatchers := state.dispatchers[d := state.dispatchers[d].(added := true)], clock := now);
    }

    method PublishFirst(d: DispatcherId, now: Millis)
      requires Valid() && Enabled(config, state, Event(now, Publish(d)))
      modifies this
      ensures Valid() && run == Then(old(run), Event(now, Publish(d)))
      ensures state == Take(config, old(state), Event(now, Publish(d)))
    {
      var e, rest := state.dispatchers[d].rest[0].eventId, state.dispatchers[d].rest[1..];
      run := Then(run, Event(now, Publish(d)));
      if e in state.db.outbox {
        var row := state.db.outbox[e];
        state := state.(db := state.db.(outbox := state.db.outbox[e := row.(publishedAt := Some(now), attempts := row.attempts + 1)]));
        state := state.(dispatchers := state.dispatchers[d := Dispatcher(rest, false)], clock := now);
      } else {
        state := state.(dispatchers := state.dispatchers - {d}, clock := now);
      }
    }

    /** One delivery of a job, from its read to its last write: what becomes of the
        analysis, the records and the counters for every outcome of the outside calls. */
    method ProcessAnalysis(w: WorkerId, jobId: EventId, o: Outside, t: Times) returns (outcome: Outcome)
      requires Valid() && Ordered(t) && state.clock <= t.loaded
      requires w in state.workers && state.workers[w].Free? && jobId in state.queue
      modifies this
      ensures Valid() && Within(old(run), run)
      ensures var result := Processed(config, old(state), old(state).queue[jobId], o, t);
              && outcome == result.outcome
              && state == old(state).(db := result.db, store := result.store, clock := state.clock)
      ensures TokenBudget.IsMonthStart(config.monthStart) ==>
                OutcomeAgrees(config, old(run), old(state).queue[jobId], o, t, outcome)
    {
      ghost var r := run;
      if TokenBudget.IsMonthStart(config.monthStart) { OutcomeByHistory(config, run, state.queue[jobId], o, t); }
      var job := state.queue[jobId];
      var a := job.analysisId;
      DeliverTakes(config, state, w, jobId, t.loaded);
      WithFree(state, w);
      hide Take, Enabled, Reached, IsRun, EnforceCounters, RecordFailure, ConsumedSince, With, SetStatus, RunResult;
      if !WorkerSafety.MatchesAnalysis(state.db.analyses, job) || job.tenantId !in config.tenants {
        Write(r, w, state.db, state.store, Free, t.loaded, Deliver(w, jobId));
        return NotFound;
      }
      var settings := config.tenants[job.tenantId];
      if state.db.analyses[a].status == COMPLETED {
        Write(r, w, state.db, state.store, Free, t.loaded, Deliver(w, jobId));
        return AlreadyCompleted;
      }
      Write(r, w, state.db, state.store, Loaded(job, settings), t.loaded, Deliver(w, jobId));
      ClaimTakes(config, state, w, t.claimed);
      if !Claimable(state.db.analyses[a].status) {
        Write(r, w, state.db, state.store, Free, t.claimed, Step.Claim(w));
        return ClaimedElsewhere;
      }
      SetStatusKeeps(state.db, a, RUNNING);
      Write(r, w, SetStatus(state.db, a, RUNNING), state.store, Claimed(job, settings), t.claimed, Step.Claim(w));
      outcome := RunClaimed(r, w, job, settings, o, t);
    }

    /** The controls, the provider and the completing transaction, with the handler of
        whatever they throw. */
    method RunClaimed(ghost r: Run, w: WorkerId, job: JobData, settings: Settings, o: Outside, t: Times) returns (outcome: Outcome)
      requires Valid() && Within(r, run) && Ordered(t) && state.clock <= t.counted
      requires w in state.workers && state.workers[w] == Claimed(job, settings)
      requires job.analysisId in state.db.analyses
      modifies this
      ensures Valid() && Within(r, run)
      ensures var result := RunResult(config, old(state).db, old(state).store, job, settings, o, t);
              outcome == result.outcome && state == With(old(state), w, result.db, result.store, Free, state.clock)
    {
      hide Take, Enabled, Reached, IsRun, EnforceCounters, RecordFailure, ConsumedSince, With, SetStatus, CompletedTables, Failed;
      if o.countFault {
        FaultTakes(config, state, w, t.counted);
        Write(r, w, state.db, state.store, Failing(job, settings, true), t.counted, ControlFault(w));
        outcome := Fail(r, w, job, settings, true, ProviderFailed, o, t);
        return;
      }
      CountTakes(config, state, w, t.counted);
      var (store, verdict) := EnforceCounters(state.store, config.options, job.tenantId, settings.provider, t.counted);
      if !verdict.Admitted? {
        Write(r, w, state.db, store, Failing(job, settings, false), t.counted, CountRequest(w));
        outcome := Fail(r, w, job, settings, false, Rejected(verdict), o, t);
        return;
      }
      Write(r, w, state.db, store, Counted(job, settings, t.counted), t.counted, CountRequest(w));
      if o.readFault {
        FaultTakes(config, state, w, t.read);
        Write(r, w, state.db, store, Failing(job, settings, true), t.read, ControlFault(w));
        outcome := Fail(r, w, job, settings, true, ProviderFailed, o, t);
        return;
      }
      BudgetTakes(config, state, w, t.read);
      if ConsumedSince(state.db.usage, job.tenantId, config.monthStart(t.counted)) >= settings.budget {
        Write(r, w, state.db, store, Failing(job, settings, false), t.read, ReadBudget(w));
        outcome := Fail(r, w, job, settings, false, Rejected(BudgetExceeded), o, t);
        return;
      }
      Write(r, w, state.db, store, Passed(job, settings), t.read, ReadBudget(w));
      outcome := RunPassed(r, w, job, settings, o, t);
    }

    /** The call of the provider and the completing transaction. */
    method RunPassed(ghost r: Run, w: WorkerId, job: JobData, settings: Settings, o: Outside, t: Times) returns (outcome: Outcome)
      requires Valid() && Within(r, run) && Ordered(t) && state.clock <= t.analyzed
      requires w in state.workers && state.workers[w] == Passed(job, settings)
      requires job.analysisId in state.db.analyses
      modifies this
      ensures Valid() && Within(r, run)
      ensures var result := PassedResult(config, old(state).db, old(state).store, job, settings, o, t);
              outcome == result.outcome && state == With(old(state), w, result.db, result.store, Free, state.clock)
    {
      hide Take, Enabled, Reached, IsRun, With, SetStatus, CompletedTables, Failed;
      AnalyzeTakes(config, state, w, o.result, t.analyzed);
      if o.result.None? {
        Write(r, w, state.db, state.store, Failing(job, settings, true), t.analyzed, Analyze(w, None));
        outcome := Fail(r, w, job, settings, true, ProviderFailed, o, t);
        return;
      }
      Write(r, w, state.db, state.store, Analyzed(job, settings, o.result.value), t.analyzed, Analyze(w, o.result));
      CompleteTakes(config, state, w, o.commit, t.completed);
      if o.commit.RolledBack? || job.analysisId in state.db.improved {
        Write(r, w, state.db, state.store, Failing(job, settings, true), t.completed, Complete(w, o.commit));
        outcome := Fail(r, w, job, settings, true, ProviderFailed, o, t);
        return;
      }
      var completed := CompletedTables(state.db, job, o.result.value, t.completed);
      if o.commit.Acknowledged? {
        Write(r, w, completed, state.store, Free, t.completed, Complete(w, o.commit));
        return Finished;
      }
      CompletedKeeps(state.db, job, o.result.value, t.completed);
      Write(r, w, completed, state.store, Failing(job, settings, true), t.completed, Complete(w, o.commit));
      outcome := Fail(r, w, job, settings, true, ProviderFailed, o, t);
    }

    /** The failed status, and a provider failure on record unless a control objected. */
    method Fail(ghost r: Run, w: WorkerId, job: JobData, settings: Settings, providerFailure: bool, reason: Outcome, o: Outside, t: Times)
      returns (outcome: Outcome)
      requires Valid() && Within(r, run) && Ordered(t) && state.clock <= t.failed
      requires w in state.workers && state.workers[w] == Failing(job, settings, providerFailure)
      requires job.analysisId in state.db.analyses
      modifies this
      ensures Valid() && Within(r, run)
      ensures var result := Failed(config, old(state).db, old(state).store, job, settings, providerFailure, reason, o, t);
              outcome == result.outcome && state == With(old(state), w, result.db, result.store, Free, state.clock)
    {
      hide Take, Enabled, Reached, IsRun, RecordFailure, With, SetStatus;
      FailTakes(config, state, w, o.failedWritten, t.failed);
      if !o.failedWritten {
        Write(r, w, state.db, state.store, Free, t.failed, WriteFailed(w, false));
        return FailureUnwritten;
      }
      var failed := SetStatus(state.db, job.analysisId, FAILED);
      if !providerFailure {
        Write(r, w, failed, state.store, Free, t.failed, WriteFailed(w, true));
        return reason;
      }
      Write(r, w, failed, state.store, Recording(settings), t.failed, WriteFailed(w, true));
      RecordTakes(config, state, w, t.recorded);
      if o.recorded {
        var store := RecordFailure(state.store, config.options, settings.provider, t.recorded);
        Write(r, w, state.db, store, Free, t.recorded, Step.RecordProviderFailure(w));
      } else {
        Write(r, w, state.db, state.store, Free, t.recorded, StopWorker(w));
      }
      return reason;
    }

    /** Writes what one step of the run writes. */
    method Write(ghost r: Run, w: WorkerId, db: PromptTables, store: Store, worker: Worker, now: Millis, ghost step: Step)
      requires Valid() && Within(r, run) && Enabled(config, state, Event(now, step))
      requires Take(config, state, Event(now, step)) == With(state, w, db, store, worker, now)
      modifies this
      ensures Valid() && Within(r, run)
      ensures state == With(old(state), w, db, store, worker, now)
      ensures state.db == db && state.store == store && state.clock == now && w in state.workers && state.workers[w] == worker
      ensures forall db1, store1, worker1, now1 :: With(state, w, db1, store1, worker1, now1) == With(old(state), w, db1, store1, worker1, now1)
    {
      state := state.(db := db, store := store, workers := state.workers[w := worker], clock := now);
      run := Then(run, Event(now, step));
      WithReplaces(old(state), w, db, store, worker, now);
      hide Take, Enabled;
    }
  }

  // ------------------------------------------------------- one delivered job

  /** The state with the tables, the counters and one worker replaced. */
  function With(s: State, w: WorkerId, db: PromptTables, store: Store, worker: Worker, now: Millis): State {
    s.(db := db, store := store, workers := s.workers[w := worker], clock := now)
  }

  function CompletedTables(db: PromptTables, job: JobData, tokens: nat, now: Millis): PromptTables
    requires job.analysisId in db.analyses
  {
    SetStatus(db, job.analysisId, COMPLETED).(improved := db.improved[job.analysisId := job.promptId],
                                              usage := Then(db.usage, Usage(job.tenantId, job.analysisId, tokens, now)))
  }

  /** Tables and counters in the end, and how the delivery is reported to the job queue. */
  datatype Result = Result(db: PromptTables, store: Store, outcome: Outcome)

  function Failed(c: Config, db: PromptTables, store: Store, job: JobData, settings: Settings, providerFailure: bool,
                  reason: Outcome, o: Outside, t: Times): Result
    requires job.analysisId in db.analyses
  {
    if !o.failedWritten then Result(db, store, FailureUnwritten)
    else
      Result(SetStatus(db, job.analysisId, FAILED),
             if providerFailure && o.recorded then RecordFailure(store, c.options, settings.provider, t.recorded) else store,
             reason)
  }

  function PassedResult(c: Config, db: PromptTables, store: Store, job: JobData, settings: Settings, o: Outside, t: Times): Result
    requires job.analysisId in db.analyses
  {
    if o.result.None? || o.commit.RolledBack? || job.analysisId in db.improved then Failed(c, db, store, job, settings, true, ProviderFailed, o, t)
    else
      var completed := CompletedTables(db, job, o.result.value, t.completed);
      if o.commit.Acknowledged? then Result(completed, store, Finished)
      else Failed(c, completed, store, job, settings, true, ProviderFailed, o, t)
  }

  function RunResult(c: Config, db: PromptTables, store: Store, job: JobData, settings: Settings, o: Outside, t: Times): Result
    requires job.analysisId in db.analyses
  {
    var (counted, verdict) := EnforceCounters(store, c.options, job.tenantId, settings.provider, t.counted);
    if o.countFault then Failed(c, db, store, job, settings, true, ProviderFailed, o, t)
    else if !verdict.Admitted? then Failed(c, db, counted, job, settings, false, Rejected(verdict), o, t)
    else if o.readFault then Failed(c, db, counted, job, settings, true, ProviderFailed, o, t)
    else if ConsumedSince(db.usage, job.tenantId, c.monthStart(t.counted)) >= settings.budget then
      Failed(c, db, counted, job, settings, false, Rejected(BudgetExceeded), o, t)
    else PassedResult(c, db, counted, job, settings, o, t)
  }

  /** An analysis that is missing, completed or running elsewhere is left alone. */
  function Processed(c: Config, s: State, job: JobData, o: Outside, t: Times): Result {
    if !WorkerSafety.MatchesAnalysis(s.db.analyses, job) || job.tenantId !in c.tenants then Result(s.db, s.store, NotFound)
    else if s.db.analyses[job.analysisId].status == COMPLETED then Result(s.db, s.store, AlreadyCompleted)
    else if s.db.analyses[job.analysisId].status == RUNNING then Result(s.db, s.store, ClaimedElsewhere)
    else RunResult(c, SetStatus(s.db, job.analysisId, RUNNING), s.store, job, c.tenants[job.tenantId], o, t)
  }

  /** The job names an analysis of its prompt and workspace. */
  predicate IsKnown(c: Config, s: State, job: JobData) {
    && job.tenantId in c.tenants && job.analysisId in s.db.analyses
    && s.db.analyses[job.analysisId].promptId == job.promptId && s.db.analyses[job.analysisId].tenantId == job.tenantId
  }

  /** How a delivery ends, by what happened before: an open breaker, as many calls of this
      minute as the limit, and tokens recorded from this month on that reach the budget, in
      this order, reject it; otherwise it depends on the outside alone. */
  ghost predicate OutcomeAgrees(c: Config, run: Run, job: JobData, o: Outside, t: Times, outcome: Outcome)
    requires IsRun(c, run)
  {
    var s, calls := Reached(c, run), PipelineControls.CallsOf(c, run);
    var known := IsKnown(c, s, job);
    var status := if known then s.db.analyses[job.analysisId].status else COMPLETED;
    && (outcome == NotFound <==> !known)
    && (outcome == AlreadyCompleted <==> known && status == COMPLETED)
    && (outcome == ClaimedElsewhere <==> known && status == RUNNING)
    && (known && (status == QUEUED || status == FAILED) ==>
          var settings := c.tenants[job.tenantId];
          var open := Present(s.store, CircuitKey(settings.provider), t.counted);
          var full := CountedCalls(calls, c.options, job.tenantId, settings.provider, t.counted / 60_000) >= c.options.requestsPerMinute;
          var spent := TokenBudget.TokensFromMonth(c, s.db.usage, job.tenantId, c.monthStart(t.counted)) >= settings.budget;
          var passes := !o.countFault && !open && !full && !o.readFault && !spent;
          var commits := o.result.Some? && o.commit == Acknowledged && job.analysisId !in s.db.improved;
          && (outcome == FailureUnwritten <==> !(passes && commits) && !o.failedWritten)
          && (outcome == Rejected(CircuitOpen) <==> o.failedWritten && !o.countFault && open)
          && (outcome == Rejected(RateLimited) <==> o.failedWritten && !o.countFault && !open && full)
          && (outcome == Rejected(BudgetExceeded) <==> o.failedWritten && !o.countFault && !open && !full && !o.readFault && spent)
          && (outcome == Finished <==> passes && commits)
          && (open ==> FailuresAfter(calls, settings.provider, t.counted - 120_000) >= c.options.failureThreshold))
  }

  lemma OutcomeByHistory(c: Config, run: Run, job: JobData, o: Outside, t: Times)
    requires IsRun(c, run) && TokenBudget.IsMonthStart(c.monthStart)
    ensures OutcomeAgrees(c, run, job, o, t, Processed(c, Reached(c, run), job, o, t).outcome)
  {
    hide EnforceCounters, ConsumedSince, TokenBudget.TokensFromMonth, RunResult, SetStatus, CountedCalls, FailuresAfter;
    hide PipelineControls.CallsOf, Reached, IsRun, TokenBudget.IsMonthStart, LastFailure, Present;
    var s := Reached(c, run);
    if IsKnown(c, s, job) && Claimable(s.db.analyses[job.analysisId].status) {
      var settings := c.tenants[job.tenantId];
      hide Processed;
      ProcessedIsRun(c, s, job, o, t);
      PipelineControls.VerdictInRun(c, run, job.tenantId, settings.provider, t.counted);
      TokenBudget.ReadCountsMonths(c, s.db.usage, job.tenantId, t.counted);
      SetStatusKeeps(s.db, job.analysisId, RUNNING);
      SetStatusKeepsUsage(s.db, job.analysisId, RUNNING);
      RunByVerdict(c, SetStatus(s.db, job.analysisId, RUNNING), s.store, job, settings, o, t);
    }
  }

  lemma ProcessedIsRun(c: Config, s: State, job: JobData, o: Outside, t: Times)
    requires IsKnown(c, s, job) && Claimable(s.db.analyses[job.analysisId].status)
    ensures Processed(c, s, job, o, t) == RunResult(c, SetStatus(s.db, job.analysisId, RUNNING), s.store, job, c.tenants[job.tenantId], o, t)
  {
    hide RunResult;
  }

  lemma SetStatusKeepsUsage(db: PromptTables, a: AnalysisId, status: AnalysisStatus)
    requires a in db.analyses
    ensures SetStatus(db, a, status).usage == db.usage
  {
  }

  /** The outcome of a run of a claimed analysis, by the verdict of the counters and the
      usage read. */
  lemma RunByVerdict(c: Config, db: PromptTables, store: Store, job: JobData, settings: Settings, o: Outside, t: Times)
    requires job.analysisId in db.analyses
    ensures var outcome := RunResult(c, db, store, job, settings, o, t).outcome;
            var verdict := EnforceCounters(store, c.options, job.tenantId, settings.provider, t.counted).1;
            var spent := ConsumedSince(db.usage, job.tenantId, c.monthStart(t.counted)) >= settings.budget;
            var passes := !o.countFault && verdict == Admitted && !o.readFault && !spent;
            var commits := o.result.Some? && o.commit == Acknowledged && job.analysisId !in db.improved;
            && (outcome == FailureUnwritten <==> !(passes && commits) && !o.failedWritten)
            && (outcome == Rejected(CircuitOpen) <==> o.failedWritten && !o.countFault && verdict == CircuitOpen)
            && (outcome == Rejected(RateLimited) <==> o.failedWritten && !o.countFault && verdict == RateLimited)
            && (outcome == Rejected(BudgetExceeded) <==> o.failedWritten && !o.countFault && verdict == Admitted && !o.readFault && spent)
            && (outcome == Finished <==> passes && commits)
            && outcome != NotFound && outcome != AlreadyCompleted && outcome != ClaimedElsewhere
  {
    VerdictOfCounters(store, c.options, job.tenantId, settings.provider, t.counted);
    hide EnforceCounters, ConsumedSince, SetStatus, CompletedTables, RecordFailure;
  }

  lemma VerdictOfCounters(store: Store, options: Options, tenantId: nat, provider: string, now: Millis)
    ensures EnforceCounters(store, options, tenantId, provider, now).1 != BudgetExceeded
  {
  }

  /** The commit takes effect, heard of or not. */
  predicate Commits(db: PromptTables, job: JobData, o: Outside) {
    o.result.Some? && !o.commit.RolledBack? && job.analysisId in db.analyses && job.analysisId !in db.improved
  }

  /** How the tables can end, against those before the claim: a finished analysis is
      completed with both records; a failed one changes nothing but its status; one whose
      failure could not be written stays RUNNING. Only a commit that was not heard of leaves
      its records behind a failure. */
  predicate Ends(db: PromptTables, job: JobData, o: Outside, t: Times, result: Result)
    requires job.analysisId in db.analyses
  {
    var a, unheard := job.analysisId, Commits(db, job, o) && o.commit.Unacknowledged?;
    match result.outcome
    case Finished => Commits(db, job, o) && result.db == CompletedTables(db, job, o.result.value, t.completed)
    case Rejected(_) => result.db == SetStatus(db, a, FAILED)
    case ProviderFailed =>
      || result.db == SetStatus(db, a, FAILED)
      || (unheard && result.db == SetStatus(CompletedTables(db, job, o.result.value, t.completed), a, FAILED))
    case FailureUnwritten =>
      || result.db == SetStatus(db, a, RUNNING)
      || (unheard && result.db == CompletedTables(db, job, o.result.value, t.completed))
    case _ => false
  }

  lemma FailedEnds(c: Config, db: PromptTables, store: Store, job: JobData, settings: Settings, providerFailure: bool,
                   reason: Outcome, o: Outside, t: Times)
    requires job.analysisId in db.analyses && (reason.Rejected? || reason.ProviderFailed?)
    ensures Ends(db, job, o, t, Failed(c, SetStatus(db, job.analysisId, RUNNING), store, job, settings, providerFailure, reason, o, t))
  {
    SetTwice(db, job.analysisId);
    hide SetStatus, CompletedTables, RecordFailure;
  }

  lemma PassedEnds(c: Config, db: PromptTables, store: Store, job: JobData, settings: Settings, o: Outside, t: Times)
    requires job.analysisId in db.analyses
    ensures Ends(db, job, o, t, PassedResult(c, SetStatus(db, job.analysisId, RUNNING), store, job, settings, o, t))
  {
    var running := SetStatus(db, job.analysisId, RUNNING);
    SetStatusKeeps(db, job.analysisId, RUNNING);
    if !Commits(db, job, o) {
      FailedEnds(c, db, store, job, settings, true, ProviderFailed, o, t);
      hide Ends, Failed;
      assert PassedResult(c, running, store, job, settings, o, t) == Failed(c, running, store, job, settings, true, ProviderFailed, o, t);
    } else {
      CompletedTwice(db, job, o.result.value, t.completed);
      hide SetStatus, CompletedTables, RecordFailure;
    }
  }

  /** So do the tables after every delivery that gets past the claim. */
  lemma ProcessedEnds(c: Config, s: State, job: JobData, o: Outside, t: Times)
    ensures var result := Processed(c, s, job, o, t);
            if result.outcome.NotFound? || result.outcome.AlreadyCompleted? || result.outcome.ClaimedElsewhere? then
              result.db == s.db && result.store == s.store
            else job.analysisId in s.db.analyses && Ends(s.db, job, o, t, result)
  {
    var result, a := Processed(c, s, job, o, t), job.analysisId;
    if WorkerSafety.MatchesAnalysis(s.db.analyses, job) && job.tenantId in c.tenants && Claimable(s.db.analyses[a].status) {
      var settings := c.tenants[job.tenantId];
      SetStatusKeeps(s.db, a, RUNNING);
      RunEnds(c, s.db, s.store, job, settings, o, t);
    }
    hide Ends, RunResult;
  }

  lemma RunEnds(c: Config, db: PromptTables, store: Store, job: JobData, settings: Settings, o: Outside, t: Times)
    requires job.analysisId in db.analyses
    ensures var result := RunResult(c, SetStatus(db, job.analysisId, RUNNING), store, job, settings, o, t);
            Ends(db, job, o, t, result) && (result.outcome.Finished? || result.outcome.Rejected? || result.outcome.ProviderFailed? || result.outcome.FailureUnwritten?)
  {
    var (counted, verdict) := EnforceCounters(store, c.options, job.tenantId, settings.provider, t.counted);
    FailedEnds(c, db, store, job, settings, true, ProviderFailed, o, t);
    FailedEnds(c, db, counted, job, settings, true, ProviderFailed, o, t);
    FailedEnds(c, db, counted, job, settings, false, Rejected(verdict), o, t);
    FailedEnds(c, db, counted, job, settings, false, Rejected(BudgetExceeded), o, t);
    PassedEnds(c, db, counted, job, settings, o, t);
    EndsIsAnOutcome(db, job, o, t, RunResult(c, SetStatus(db, job.analysisId, RUNNING), store, job, settings, o, t));
    hide Ends, Failed, PassedResult, EnforceCounters, ConsumedSince, SetStatus;
  }

  lemma EndsIsAnOutcome(db: PromptTables, job: JobData, o: Outside, t: Times, result: Result)
    requires job.analysisId in db.analyses
    ensures Ends(db, job, o, t, result) ==>
              result.outcome.Finished? || result.outcome.Rejected? || result.outcome.ProviderFailed? || result.outcome.FailureUnwritten?
  {
  }

  /** A worker that is free before and after leaves no trace of its own. */
  lemma WithFree(s: State, w: WorkerId)
    requires w in s.workers && s.workers[w].Free?
    ensures forall db, store, now :: With(s, w, db, store, Free, now) == s.(db := db, store := store, clock := now)
  {
    assert s.workers[w := Free] == s.workers;
  }

  lemma WithReplaces(s: State, w: WorkerId, db: PromptTables, store: Store, worker: Worker, now: Millis)
    ensures forall db1, store1, worker1, now1 ::
              With(With(s, w, db, store, worker, now), w, db1, store1, worker1, now1) == With(s, w, db1, store1, worker1, now1)
  {
    forall db1, store1, worker1, now1
      ensures With(With(s, w, db, store, worker, now), w, db1, store1, worker1, now1) == With(s, w, db1, store1, worker1, now1)
    {
      assert s.workers[w := worker][w := worker1] == s.workers[w := worker1];
    }
  }

  lemma SetTwice(db: PromptTables, a: AnalysisId)
    requires a in db.analyses
    ensures forall status :: SetStatus(SetStatus(db, a, RUNNING), a, status) == SetStatus(db, a, status)
  {
    forall status ensures SetStatus(SetStatus(db, a, RUNNING), a, status) == SetStatus(db, a, status) {
      assert SetStatus(SetStatus(db, a, RUNNING), a, status).analyses == SetStatus(db, a, status).analyses;
    }
  }

  lemma CompletedTwice(db: PromptTables, job: JobData, tokens: nat, now: Millis)
    requires job.analysisId in db.analyses
    ensures CompletedTables(SetStatus(db, job.analysisId, RUNNING), job, tokens, now) == CompletedTables(db, job, tokens, now)
  {
    SetTwice(db, job.analysisId);
  }

  lemma SetStatusKeeps(db: PromptTables, a: AnalysisId, status: AnalysisStatus)
    requires a in db.analyses
    ensures a in SetStatus(db, a, status).analyses && SetStatus(db, a, status).improved == db.improved
  {
  }

  lemma CompletedKeeps(db: PromptTables, job: JobData, tokens: nat, now: Millis)
    requires job.analysisId in db.analyses
    ensures job.analysisId in CompletedTables(db, job, tokens, now).analyses
  {
  }

  lemma DeliverTakes(c: Config, s: State, w: WorkerId, jobId: EventId, now: Millis)
    requires s.clock <= now && w in s.workers && s.workers[w].Free? && jobId in s.queue
    ensures Enabled(c, s, Event(now, Deliver(w, jobId)))
    ensures var job := s.queue[jobId];
            Take(c, s, Event(now, Deliver(w, jobId))) ==
              With(s, w, s.db, s.store,
                   if !WorkerSafety.MatchesAnalysis(s.db.analyses, job) || job.tenantId !in c.tenants
                      || s.db.analyses[job.analysisId].status == COMPLETED then Free
                   else Loaded(job, c.tenants[job.tenantId]), now)
  {
    assert s.workers[w := Free] == s.workers;
  }

  lemma ClaimTakes(c: Config, s: State, w: WorkerId, now: Millis)
    requires s.clock <= now && w in s.workers && s.workers[w].Loaded? && s.workers[w].job.analysisId in s.db.analyses
    ensures Enabled(c, s, Event(now, Step.Claim(w)))
    ensures var Loaded(job, settings) := s.workers[w];
            Take(c, s, Event(now, Step.Claim(w))) ==
              if Claimable(s.db.analyses[job.analysisId].status) then
                With(s, w, SetStatus(s.db, job.analysisId, RUNNING), s.store, Claimed(job, settings), now)
              else With(s, w, s.db, s.store, Free, now)
  {
  }

  lemma CountTakes(c: Config, s: State, w: WorkerId, now: Millis)
    requires s.clock <= now && w in s.workers && s.workers[w].Claimed?
    ensures Enabled(c, s, Event(now, CountRequest(w)))
    ensures var Claimed(job, settings) := s.workers[w];
            var (store, verdict) := EnforceCounters(s.store, c.options, job.tenantId, settings.provider, now);
            Take(c, s, Event(now, CountRequest(w))) ==
              With(s, w, s.db, store, if verdict.Admitted? then Counted(job, settings, now) else Failing(job, settings, false), now)
  {
    hide EnforceCounters;
  }

  lemma BudgetTakes(c: Config, s: State, w: WorkerId, now: Millis)
    requires s.clock <= now && w in s.workers && s.workers[w].Counted?
    ensures Enabled(c, s, Event(now, ReadBudget(w)))
    ensures var Counted(job, settings, at) := s.workers[w];
            Take(c, s, Event(now, ReadBudget(w))) ==
              With(s, w, s.db, s.store,
                   if ConsumedSince(s.db.usage, job.tenantId, c.monthStart(at)) >= settings.budget then Failing(job, settings, false)
                   else Passed(job, settings), now)
  {
  }

  lemma AnalyzeTakes(c: Config, s: State, w: WorkerId, result: Option<nat>, now: Millis)
    requires s.clock <= now && w in s.workers && s.workers[w].Passed?
    ensures Enabled(c, s, Event(now, Analyze(w, result)))
    ensures var Passed(job, settings) := s.workers[w];
            Take(c, s, Event(now, Analyze(w, result))) ==
              With(s, w, s.db, s.store, if result.Some? then Analyzed(job, settings, result.value) else Failing(job, settings, true), now)
  {
  }

  lemma FaultTakes(c: Config, s: State, w: WorkerId, now: Millis)
    requires s.clock <= now && w in s.workers && (s.workers[w].Claimed? || s.workers[w].Counted?)
    ensures Enabled(c, s, Event(now, ControlFault(w)))
    ensures Take(c, s, Event(now, ControlFault(w))) == With(s, w, s.db, s.store, Failing(s.workers[w].job, s.workers[w].settings, true), now)
  {
  }

  lemma CompleteTakes(c: Config, s: State, w: WorkerId, commit: Commit, now: Millis)
    requires s.clock <= now && w in s.workers && s.workers[w].Analyzed?
    requires s.workers[w].job.analysisId in s.db.analyses
    ensures Enabled(c, s, Event(now, Complete(w, commit)))
    ensures var Analyzed(job, settings, tokens) := s.workers[w];
            Take(c, s, Event(now, Complete(w, commit))) ==
              if commit.RolledBack? || job.analysisId in s.db.improved then
                With(s, w, s.db, s.store, Failing(job, settings, true), now)
              else
                With(s, w, CompletedTables(s.db, job, tokens, now), s.store,
                     if commit.Acknowledged? then Free else Failing(job, settings, true), now)
  {
  }

  lemma FailTakes(c: Config, s: State, w: WorkerId, written: bool, now: Millis)
    requires s.clock <= now && w in s.workers && s.workers[w].Failing? && s.workers[w].job.analysisId in s.db.analyses
    ensures Enabled(c, s, Event(now, WriteFailed(w, written)))
    ensures var Failing(job, settings, providerFailure) := s.workers[w];
            Take(c, s, Event(now, WriteFailed(w, written))) ==
              With(s, w, if written then SetStatus(s.db, job.analysisId, FAILED) else s.db, s.store,
                   if written && providerFailure then Recording(settings) else Free, now)
  {
  }

  lemma RecordTakes(c: Config, s: State, w: WorkerId, now: Millis)
    requires s.clock <= now && w in s.workers && s.workers[w].Recording?
    ensures Enabled(c, s, Event(now, Step.RecordProviderFailure(w))) && Enabled(c, s, Event(now, StopWorker(w)))
    ensures Take(c, s, Event(now, StopWorker(w))) == With(s, w, s.db, s.store, Free, now)
    ensures Take(c, s, Event(now, Step.RecordProviderFailure(w))) ==
              With(s, w, s.db, RecordFailure(s.store, c.options, s.workers[w].settings.provider, now), Free, now)
  {
    hide RecordFailure;
  }

  // ------------------------------------------------------------- dispatching

  function OutgoingOf(outbox: map<EventId, OutboxEvent>, batch: seq<EventId>): seq<Outgoing>
    requires forall i :: 0 <= i < |batch| ==> batch[i] in outbox
  {
    seq(|batch|, i requires 0 <= i < |batch| => Outgoing(batch[i], JobOf(outbox[batch[i]])))
  }

  function PublishedRow(row: OutboxEvent, now: Millis): OutboxEvent {
    row.(publishedAt := Some(now), attempts := row.attempts + 1)
  }

  type Outbox = map<EventId, OutboxEvent>

  type JobQueue = map<EventId, JobData>

  predicate Ascending(times: seq<Millis>) {
    forall i, j :: 0 <= i <= j < |times| ==> times[i] <= times[j]
  }

  /** The i-th event is published at the i-th time. */
  ghost predicate RowsPublished(before: Outbox, after: Outbox, events: seq<EventId>, times: seq<Millis>)
    requires |events| <= |times|
  {
    && after.Keys == before.Keys
    && (forall i :: 0 <= i < |events| ==> events[i] in before && after[events[i]] == PublishedRow(before[events[i]], times[i]))
    && (forall e :: e in before && e !in events ==> after[e] == before[e])
  }

  ghost predicate JobsAdded(outbox: Outbox, before: JobQueue, after: JobQueue, events: seq<EventId>) {
    && (forall e :: e in after <==> e in before || e in events)
    && (forall e :: e in before ==> e in after && after[e] == before[e])
    && (forall e :: e in after && e !in before ==> e in outbox && after[e] == JobOf(outbox[e]))
  }

  /** Exactly the published events are marked so, the queue gained exactly the jobs of the
      added ones that it did not know, and nothing else differs. */
  ghost predicate Dispatched(before: State, after: State, published: seq<EventId>, added: seq<EventId>, times: seq<Millis>)
    requires |published| <= |times|
  {
    && after.db == before.db.(outbox := after.db.outbox)
    && after.workers == before.workers && after.store == before.store
    && RowsPublished(before.db.outbox, after.db.outbox, published, times)
    && JobsAdded(before.db.outbox, before.queue, after.queue, added)
  }

  /** The dispatcher has published the first `k` events of its batch. */
  ghost predicate Halfway(first: State, s: State, d: DispatcherId, batch: seq<EventId>, k: nat, times: seq<Millis>) {
    && k <= |batch| && (forall i :: 0 <= i < |batch| ==> batch[i] in first.db.outbox)
    && |times| == |batch| + 1 && Ascending(times) && s.clock <= times[k]
    && d in s.dispatchers && s.dispatchers == first.dispatchers[d := s.dispatchers[d]]
    && s.dispatchers[d] == Dispatcher(OutgoingOf(first.db.outbox, batch)[k..], false)
    && Dispatched(first, s, batch[..k], batch[..k], times)
  }

  lemma BatchIsKnown(outbox: Outbox, batch: seq<EventId>)
    requires IsBatch(outbox, batch)
    ensures forall i :: 0 <= i < |batch| ==> batch[i] in outbox
  {
  }

  lemma FetchedIsHalfway(first: State, s: State, d: DispatcherId, batch: seq<EventId>, now: Millis, times: seq<Millis>)
    requires forall i :: 0 <= i < |batch| ==> batch[i] in first.db.outbox
    requires |times| == |batch| + 1 && Ascending(times) && now <= times[0]
    requires s == first.(dispatchers := first.dispatchers[d := Dispatcher(OutgoingOf(first.db.outbox, batch), false)], clock := now)
    ensures Halfway(first, s, d, batch, 0, times)
  {
  }

  lemma HalfwayEnds(first: State, s: State, d: DispatcherId, batch: seq<EventId>, k: nat, times: seq<Millis>)
    requires Halfway(first, s, d, batch, k, times)
    ensures Dispatched(first, s, batch[..k], batch[..k], times)
    ensures s.clock <= times[|batch|] && d in s.dispatchers && s.dispatchers == first.dispatchers[d := s.dispatchers[d]]
  {
  }

  lemma PublishesItsRow(first: State, s: State, batch: seq<EventId>, k: nat, times: seq<Millis>)
    requires k < |batch| <= |times| && IsBatch(first.db.outbox, batch) && Dispatched(first, s, batch[..k], batch[..k], times)
    ensures batch[k] in s.db.outbox
  {
  }

  lemma FetchTakes(c: Config, s: State, d: DispatcherId, batch: seq<EventId>, now: Millis)
    requires s.clock <= now && d !in s.dispatchers && IsBatch(s.db.outbox, batch)
    ensures Enabled(c, s, Event(now, FetchBatch(d, batch)))
    ensures Take(c, s, Event(now, FetchBatch(d, batch))) ==
              s.(dispatchers := s.dispatchers[d := Dispatcher(OutgoingOf(s.db.outbox, batch), false)], clock := now)
  {
    assert FetchEvents(s, d, batch).dispatchers[d].rest == OutgoingOf(s.db.outbox, batch);
  }

  lemma AddEffect(c: Config, s: State, d: DispatcherId, now: Millis)
    requires Enabled(c, s, Event(now, AddJob(d)))
    ensures var after, head := Take(c, s, Event(now, AddJob(d))), s.dispatchers[d].rest[0];
            && after.queue == (if head.eventId in s.queue then s.queue else s.queue[head.eventId := head.job])
            && d in after.dispatchers && after.dispatchers == s.dispatchers[d := after.dispatchers[d]] && after.dispatchers[d] == Dispatcher(s.dispatchers[d].rest, true)
            && after.db == s.db && after.workers == s.workers && after.store == s.store && after.clock == now
            && Enabled(c, after, Event(now, Publish(d)))
  {
  }

  lemma PublishEffect(c: Config, s: State, d: DispatcherId, now: Millis)
    requires Enabled(c, s, Event(now, Publish(d))) && s.dispatchers[d].rest[0].eventId in s.db.outbox
    ensures var after, e := Take(c, s, Event(now, Publish(d))), s.dispatchers[d].rest[0].eventId;
            && after.db == s.db.(outbox := s.db.outbox[e := PublishedRow(s.db.outbox[e], now)])
            && d in after.dispatchers && after.dispatchers == s.dispatchers[d := after.dispatchers[d]] && after.dispatchers[d] == Dispatcher(s.dispatchers[d].rest[1..], false)
            && after.queue == s.queue && after.workers == s.workers && after.store == s.store && after.clock == now
  {
  }

  lemma OneMoreDispatched(first: State, before: State, after: State, batch: seq<EventId>, k: nat, times: seq<Millis>)
    requires k < |batch| <= |times| && IsBatch(first.db.outbox, batch) && Dispatched(first, before, batch[..k], batch[..k], times)
    requires after.workers == before.workers && after.store == before.store
    requires var e := batch[k];
             && after.db == before.db.(outbox := before.db.outbox[e := PublishedRow(before.db.outbox[e], times[k])])
             && after.queue == (if e in before.queue then before.queue else before.queue[e := JobOf(first.db.outbox[e])])
    ensures Dispatched(first, after, batch[..k + 1], batch[..k + 1], times)
  {
    var e := batch[k];
    assert batch[..k + 1] == batch[..k] + [e];
    assert e !in batch[..k];
    OneMoreRow(first.db.outbox, before.db.outbox, batch[..k], e, times);
    OneMoreJob(first.db.outbox, first.queue, before.queue, batch[..k], e);
    hide RowsPublished, JobsAdded, IsBatch;
  }

  lemma HalfwayOneMore(first: State, before: State, after: State, d: DispatcherId, batch: seq<EventId>, k: nat, times: seq<Millis>)
    requires k < |batch| && IsBatch(first.db.outbox, batch) && Halfway(first, before, d, batch, k, times)
    requires after.workers == before.workers && after.store == before.store && after.clock == times[k]
    requires d in after.dispatchers && before.dispatchers[d].rest != []
    requires after.dispatchers == before.dispatchers[d := Dispatcher(before.dispatchers[d].rest[1..], false)]
    requires batch[k] in before.db.outbox
    requires var e := batch[k];
             && after.db == before.db.(outbox := before.db.outbox[e := PublishedRow(before.db.outbox[e], times[k])])
             && after.queue == (if e in before.queue then before.queue else before.queue[e := JobOf(first.db.outbox[e])])
    ensures Halfway(first, after, d, batch, k + 1, times)
  {
    OneMoreDispatched(first, before, after, batch, k, times);
    hide Dispatched, IsBatch;
    assert OutgoingOf(first.db.outbox, batch)[k..][1..] == OutgoingOf(first.db.outbox, batch)[k + 1..];
    assert before.dispatchers[d := Dispatcher(before.dispatchers[d].rest[1..], false)] == first.dispatchers[d := after.dispatchers[d]];
  }

  lemma HalfwayTorn(first: State, before: State, after: State, d: DispatcherId, batch: seq<EventId>, k: nat, times: seq<Millis>)
    requires k < |batch| && Halfway(first, before, d, batch, k, times)
    requires after.workers == before.workers && after.store == before.store && after.db == before.db && after.clock == times[k]
    requires d in after.dispatchers && after.dispatchers == before.dispatchers[d := after.dispatchers[d]]
    requires var e := batch[k];
             after.queue == (if e in before.queue then before.queue else before.queue[e := JobOf(first.db.outbox[e])])
    ensures Dispatched(first, after, batch[..k], batch[..k + 1], times)
    ensures after.dispatchers == first.dispatchers[d := after.dispatchers[d]] && after.clock <= times[|batch|]
  {
    assert batch[..k + 1] == batch[..k] + [batch[k]];
    OneMoreJob(first.db.outbox, first.queue, before.queue, batch[..k], batch[k]);
    hide RowsPublished, JobsAdded, OutgoingOf;
    assert before.dispatchers[d := after.dispatchers[d]] == first.dispatchers[d := after.dispatchers[d]];
  }

  lemma OneMoreRow(first: Outbox, before: Outbox, events: seq<EventId>, e: EventId, times: seq<Millis>)
    requires |events| < |times| && RowsPublished(first, before, events, times) && e in first && e !in events
    ensures RowsPublished(first, before[e := PublishedRow(before[e], times[|events|])], events + [e], times)
  {
    hide PublishedRow;
  }

  lemma OneMoreJob(outbox: Outbox, first: JobQueue, before: JobQueue, events: seq<EventId>, e: EventId)
    requires JobsAdded(outbox, first, before, events) && e in outbox
    ensures JobsAdded(outbox, first, if e in before then before else before[e := JobOf(outbox[e])], events + [e])
  {
    hide JobOf;
  }
}
