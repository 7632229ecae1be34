/** What the usage records say: each one names a result that the provider gave for that
    analysis to the worker that completed it, and the moment of the completion. */
module WorkerRecords {
  import opened Prelude
  import opened PromptStore
  import opened AnalysisControls
  import opened Pipeline
  import opened WorkerSafety

  predicate IsRecorded(usage: History<Usage>, u: Usage) {
    usage.Then? && (usage.event == u || IsRecorded(usage.past, u))
  }

  /** The step is the provider's answer to the worker, with these tokens. */
  predicate Answers(s: State, e: Event, w: WorkerId, job: JobData, tokens: nat) {
    e.step == Analyze(w, Some(tokens)) && w in s.workers && s.workers[w].Passed? && s.workers[w].job == job
  }

  /** A worker that has a result got it from the provider, for the job it has. */
  lemma {:induction false} ResultWasGiven(c: Config, run: Run, w: WorkerId) returns (h: Run)
    requires IsRun(c, run) && w in Reached(c, run).workers && Reached(c, run).workers[w].Analyzed?
    ensures Within(h, run) && h.Then? && IsRun(c, h)
    ensures var worker := Reached(c, run).workers[w];
            Answers(Reached(c, h.past), h.event, w, worker.job, worker.tokens)
    decreases run
  {
    var s, e := Reached(c, run.past), run.event;
    GivingStep(c, s, e, w);
    if Reached(c, run.past).workers == Reached(c, run).workers || (w in s.workers && s.workers[w] == Reached(c, run).workers[w]) {
      h := ResultWasGiven(c, run.past, w);
    } else {
      h := run;
    }
    hide Take, Enabled;
  }

  lemma GivingStep(c: Config, s: State, e: Event, w: WorkerId)
    requires Enabled(c, s, e) && w in Take(c, s, e).workers && Take(c, s, e).workers[w].Analyzed?
    ensures w in s.workers
    ensures var worker := Take(c, s, e).workers[w];
            s.workers[w] == worker || Answers(s, e, w, worker.job, worker.tokens)
  {
    if IsWorkerStep(e.step) {
      WorkerStepEffect(c, s, e);
      if e.step.w == w { OwnGivingStep(c, s, e); }
    } else {
      OthersLeaveWorkers(c, s, e);
    }
    hide Take, Enabled;
  }

  lemma OwnGivingStep(c: Config, s: State, e: Event)
    requires Enabled(c, s, e) && IsWorkerStep(e.step)
    requires e.step.w in Take(c, s, e).workers && Take(c, s, e).workers[e.step.w].Analyzed?
    ensures e.step.w in s.workers
    ensures var worker := Take(c, s, e).workers[e.step.w];
            s.workers[e.step.w] == worker || Answers(s, e, e.step.w, worker.job, worker.tokens)
  {
    hide EnforceCounters, RecordFailure, ConsumedSince, SetStatus;
  }

  /** Every usage record was written at its time by the completion of its analysis, for its
      workspace, with the tokens of the result that the completing worker was given. */
  lemma {:induction false} RecordWasEarned(c: Config, run: Run, u: Usage) returns (written: Run, given: Run)
    requires IsRun(c, run) && IsRecorded(Reached(c, run).db.usage, u)
    ensures Within(written, run) && written.Then? && IsRun(c, written) && Within(given, written.past) && given.Then? && IsRun(c, given)
    ensures written.event.step.Complete? && written.event.step.commit != RolledBack && written.event.at == u.createdAt
    ensures given.event.step == Analyze(written.event.step.w, Some(u.tokens))
    ensures var w, s := written.event.step.w, Reached(c, given.past);
            w in s.workers && s.workers[w].Passed? && s.workers[w].job.analysisId == u.analysisId && s.workers[w].job.tenantId == u.tenantId
    decreases run
  {
    var s, e := Reached(c, run.past), run.event;
    AtMostOneHolder(c, run.past);
    RecordingStep(c, s, e);
    if IsRecorded(s.db.usage, u) {
      written, given := RecordWasEarned(c, run.past, u);
    } else {
      written := run;
      given := ResultWasGiven(c, run.past, e.step.w);
    }
    hide Take, Enabled;
  }

  /** The step that adds a record: what it writes. */
  lemma RecordingStep(c: Config, s: State, e: Event)
    requires Enabled(c, s, e) && Exclusive(s)
    ensures var after := Take(c, s, e).db.usage;
            after == s.db.usage
            || (&& e.step.Complete? && e.step.commit != RolledBack && e.step.w in s.workers && s.workers[e.step.w].Analyzed?
                && var Analyzed(job, _, tokens) := s.workers[e.step.w];
                   after == Then(s.db.usage, Usage(job.tenantId, job.analysisId, tokens, e.at)))
  {
    if IsWorkerStep(e.step) {
      OwnRecordingStep(c, s, e);
    } else {
      OthersLeaveWorkers(c, s, e);
    }
    hide Take, Enabled;
  }

  lemma OwnRecordingStep(c: Config, s: State, e: Event)
    requires Enabled(c, s, e) && IsWorkerStep(e.step)
    ensures var after := Take(c, s, e).db.usage;
            after == s.db.usage
            || (&& e.step.Complete? && e.step.commit != RolledBack && e.step.w in s.workers && s.workers[e.step.w].Analyzed?
                && var Analyzed(job, _, tokens) := s.workers[e.step.w];
                   after == Then(s.db.usage, Usage(job.tenantId, job.analysisId, tokens, e.at)))
  {
    hide EnforceCounters, RecordFailure, ConsumedSince, CompleteJob;
    if e.step.Complete? {
      CompletingRecords(s, e.step.w, e.step.commit, e.at);
    }
  }

  lemma CompletingRecords(s: State, w: WorkerId, commit: Commit, now: Millis)
    requires w in s.workers && s.workers[w].Analyzed?
    ensures var Analyzed(job, _, tokens) := s.workers[w];
            var after := CompleteJob(s, w, commit, now).db.usage;
            after == s.db.usage || (commit != RolledBack && after == Then(s.db.usage, Usage(job.tenantId, job.analysisId, tokens, now)))
  {
  }
}
