/** The control counters inside the pipeline: every run of the pipeline is, for the store,
    a run of control calls, so the limits proved for those hold for the workers. */
module PipelineControls {
  import opened Prelude
  import opened PromptStore
  import opened AnalysisControls
  import opened Pipeline
  import opened WorkerSafety

  /** The control calls that the workers made, in order. */
  ghost function CallsOf(c: Config, run: Run): Calls
    requires IsRun(c, run)
  {
    if run.Start? then Start
    else
      var s, calls := Reached(c, run.past), CallsOf(c, run.past);
      match run.event.step
      case CountRequest(w) => Then(calls, Enforce(run.event.at, s.workers[w].job.tenantId, s.workers[w].settings.provider))
      case RecordProviderFailure(w) => Then(calls, Failure(run.event.at, s.workers[w].settings.provider))
      case _ => calls
  }

  lemma StoreMoves(c: Config, s: State, e: Pipeline.Event)
    requires Enabled(c, s, e)
    ensures var store := Take(c, s, e).store;
            store == match e.step
                     case CountRequest(w) => EnforceCounters(s.store, c.options, s.workers[w].job.tenantId, s.workers[w].settings.provider, e.at).0
                     case RecordProviderFailure(w) => RecordFailure(s.store, c.options, s.workers[w].settings.provider, e.at)
                     case _ => s.store
  {
    hide EnforceCounters, RecordFailure;
  }

  /** The store is what these calls make of it, and their clock readings are in order. */
  lemma {:induction false} StoreIsThatOfCalls(c: Config, run: Run)
    requires IsRun(c, run)
    ensures Reached(c, run).store == StoreAfter(CallsOf(c, run), c.options)
    ensures InOrder(CallsOf(c, run))
    ensures CallsOf(c, run).Then? ==> CallsOf(c, run).event.at <= Reached(c, run).clock
    decreases run
  {
    if run.Then? {
      StoreIsThatOfCalls(c, run.past);
      StoreMoves(c, Reached(c, run.past), run.event);
      hide EnforceCounters, RecordFailure, ActWorker, ActDispatcher, ActApi;
    }
  }

  /** How many calls of a workspace to a provider the workers got through the limiter in a
      period: at most twice the limit in any 60 seconds. */
  lemma WorkersKeepRateLimit(c: Config, run: Run, tenantId: nat, provider: string, from: Millis, until: Millis)
    requires IsRun(c, run) && from <= until <= from + MINUTE_MS
    ensures AdmittedBetween(CallsOf(c, run), c.options, tenantId, provider, from, until) <= 2 * c.options.requestsPerMinute
    ensures from % MINUTE_MS == 0 ==>
              AdmittedBetween(CallsOf(c, run), c.options, tenantId, provider, from, until) <= c.options.requestsPerMinute
  {
    var calls := CallsOf(c, run);
    LimitPerSlidingMinute(calls, c.options, tenantId, provider, from, until);
    if from % MINUTE_MS == 0 {
      LimitPerMinute(calls, c.options, tenantId, provider, from / MINUTE_MS);
      SplitInterval(calls, c.options, tenantId, provider, from, until, from + MINUTE_MS);
    }
  }

  /** A worker is about to record a provider failure only if its job failed for a reason
      other than a control: a rejection by budget, limiter or breaker is never recorded. */
  predicate RejectedByControl(worker: Worker) {
    worker.Failing? && !worker.providerFailure
  }

  lemma RejectionIsNotRecorded(c: Config, s: State, e: Pipeline.Event, w: WorkerId)
    requires Enabled(c, s, e) && w in s.workers && RejectedByControl(s.workers[w])
    ensures var after := Take(c, s, e);
            w in after.workers && (RejectedByControl(after.workers[w]) || after.workers[w].Free?)
  {
    if IsWorkerStep(e.step) {
      WorkerStepEffect(c, s, e);
    } else {
      OthersLeaveWorkers(c, s, e);
      hide ActDispatcher, ActApi;
    }
  }

  /** So an open breaker closes within a minute of the last failure that a provider caused,
      however often jobs are rejected and retried meanwhile. */
  lemma BreakerClosesWithinAMinute(c: Config, run: Run, provider: string, now: Millis)
    requires IsRun(c, run)
    requires var last := LastFailure(CallsOf(c, run), provider); last.Some? ==> last.value + MINUTE_MS <= now
    ensures !Present(Reached(c, run).store, CircuitKey(provider), now)
  {
    StoreIsThatOfCalls(c, run);
    ClosedAMinuteAfterLastFailure(CallsOf(c, run), c.options, provider, now);
  }

  /** What the counters of a run answer to a call. */
  lemma VerdictInRun(c: Config, run: Run, tenantId: nat, provider: string, now: Millis)
    requires IsRun(c, run)
    ensures var verdict := EnforceCounters(Reached(c, run).store, c.options, tenantId, provider, now).1;
            var open := Present(Reached(c, run).store, CircuitKey(provider), now);
            var counted := CountedCalls(CallsOf(c, run), c.options, tenantId, provider, now / 60_000);
            && (verdict == CircuitOpen <==> open)
            && (verdict == RateLimited <==> !open && counted >= c.options.requestsPerMinute)
            && (verdict == Admitted <==> !open && counted < c.options.requestsPerMinute)
            && (open ==>
                  && FailuresAfter(CallsOf(c, run), provider, now - 120_000) >= c.options.failureThreshold
                  && LastFailure(CallsOf(c, run), provider).Some? && now < LastFailure(CallsOf(c, run), provider).value + 60_000)
  {
    StoreIsThatOfCalls(c, run);
    VerdictByCalls(CallsOf(c, run), c.options, tenantId, provider, now);
    FewFailuresNeverOpen(CallsOf(c, run), c.options, tenantId, provider, now);
    hide EnforceCounters, FailuresAfter, LastFailure, CountedCalls, StoreAfter, CallsOf, Reached;
  }

  /** A claimed worker gets past breaker and limiter exactly if the breaker is closed and
      fewer calls of its workspace to the provider than the limit were counted in this
      minute; and the breaker is closed unless as many failures as the threshold lie in the
      last two minutes, one of them in the last. */
  lemma WorkerAdmittedIff(c: Config, run: Run, w: WorkerId)
    requires IsRun(c, run) && run.Then? && run.event.step == CountRequest(w)
    ensures var before, after, now, calls := Reached(c, run.past), Reached(c, run), run.event.at, CallsOf(c, run.past);
            && w in before.workers && w in after.workers && before.workers[w].Claimed?
            && var Claimed(job, settings) := before.workers[w];
               var open := Present(before.store, CircuitKey(settings.provider), now);
               var counted := CountedCalls(calls, c.options, job.tenantId, settings.provider, now / 60_000);
               && (after.workers[w] == Counted(job, settings, now) <==> !open && counted < c.options.requestsPerMinute)
               && (after.workers[w] == Failing(job, settings, false) <==> open || counted >= c.options.requestsPerMinute)
               && (open ==>
                     && FailuresAfter(calls, settings.provider, now - 120_000) >= c.options.failureThreshold
                     && LastFailure(calls, settings.provider).Some? && now < LastFailure(calls, settings.provider).value + 60_000)
  {
    hide EnforceCounters, FailuresAfter, LastFailure, CountedCalls, CallsOf, Take, Enabled, Present, Reached, IsRun;
    LastStep(c, run);
    CountingStep(c, Reached(c, run.past), run.event);
    var Claimed(job, settings) := Reached(c, run.past).workers[w];
    VerdictInRun(c, run.past, job.tenantId, settings.provider, run.event.at);
  }

  lemma LastStep(c: Config, run: Run)
    requires IsRun(c, run) && run.Then?
    ensures IsRun(c, run.past) && Enabled(c, Reached(c, run.past), run.event)
    ensures Reached(c, run) == Take(c, Reached(c, run.past), run.event)
  {
  }

  lemma CountingStep(c: Config, s: State, e: Pipeline.Event)
    requires Enabled(c, s, e) && e.step.CountRequest?
    ensures var w, after := e.step.w, Take(c, s, e);
            && w in s.workers && s.workers[w].Claimed? && w in after.workers
            && var Claimed(job, settings) := s.workers[w];
               after.workers[w] == if EnforceCounters(s.store, c.options, job.tenantId, settings.provider, e.at).1.Admitted?
                                   then Counted(job, settings, e.at) else Failing(job, settings, false)
  {
    hide EnforceCounters;
  }

  /** A worker that fails records a provider failure exactly if it was no control that
      rejected its job, and it can write that the job failed. */
  lemma FailureIsRecordedIff(c: Config, s: State, e: Pipeline.Event)
    requires Enabled(c, s, e) && e.step.WriteFailed? && MatchesAnalysis(s.db.analyses, s.workers[e.step.w].job)
    ensures var w, after := e.step.w, Take(c, s, e);
            && w in after.workers
            && (after.workers[w].Recording? <==> e.step.committed && !RejectedByControl(s.workers[w]))
            && (after.workers[w].Recording? ==> after.workers[w].settings.provider == s.workers[w].settings.provider)
  {
  }

  /** Which steps put a worker into failing, and for which reason. */
  lemma FailsBecause(c: Config, s: State, e: Pipeline.Event, w: WorkerId)
    requires Enabled(c, s, e) && w in s.workers && !s.workers[w].Failing?
    requires w in Take(c, s, e).workers && Take(c, s, e).workers[w].Failing?
    ensures if RejectedByControl(Take(c, s, e).workers[w]) then e.step == CountRequest(w) || e.step == ReadBudget(w)
            else e.step == ControlFault(w) || e.step == Analyze(w, None) || (e.step.Complete? && e.step.w == w && e.step.commit != Acknowledged)
                 || (e.step.Complete? && e.step.w == w && (s.workers[w].job.analysisId in s.db.improved || s.workers[w].job.analysisId !in s.db.analyses))
  {
    hide EnforceCounters, RecordFailure, ConsumedSince;
  }
}
