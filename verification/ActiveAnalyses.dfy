/** When a prompt has at most one active analysis, over whole runs. */
module ActiveAnalyses {
  import opened Prelude
  import opened PromptStore
  import AnalysisControls
  import opened Pipeline
  import opened WorkerSafety
  import opened OutboxDelivery

  /** The step claims a failed analysis of the prompt while another one is active. */
  predicate RestartsBeside(s: State, e: Event, p: PromptId) {
    && e.step.Claim? && e.step.w in s.workers && s.workers[e.step.w].Loaded?
    && var job := s.workers[e.step.w].job;
       && job.promptId == p && job.analysisId in s.db.analyses && s.db.analyses[job.analysisId].status == FAILED
       && HasActiveAnalysis(s.db, p)
  }

  ghost predicate NeverRestartsBeside(c: Config, run: Run, p: PromptId)
    requires IsRun(c, run)
  {
    run.Then? ==> NeverRestartsBeside(c, run.past, p) && !RestartsBeside(Reached(c, run.past), run.event, p)
  }

  /** At no moment of the run does the prompt have two active analyses. */
  ghost predicate AlwaysOneActive(c: Config, run: Run, p: PromptId)
    requires IsRun(c, run)
  {
    OneActive(Reached(c, run).db, p) && (run.Then? ==> AlwaysOneActive(c, run.past, p))
  }

  /** Only a claim makes an existing analysis active. */
  lemma OtherStepsActivateNothing(c: Config, s: State, e: Event)
    requires Enabled(c, s, e) && IsWorkerStep(e.step) && !e.step.Claim?
    ensures forall a, p :: ActiveOf(Take(c, s, e).db, a, p) ==> ActiveOf(s.db, a, p)
  {
    WorkerStepEffect(c, s, e);
    if Take(c, s, e).db.analyses != s.db.analyses { OtherWritesAreFinal(c, s, e); }
    hide Take, Enabled;
  }

  lemma OtherWritesAreFinal(c: Config, s: State, e: Event)
    requires Enabled(c, s, e) && IsWorkerStep(e.step) && !e.step.Claim? && Take(c, s, e).db.analyses != s.db.analyses
    ensures HasJob(s.workers[e.step.w]) && s.workers[e.step.w].job.analysisId in Take(c, s, e).db.analyses
    ensures !Active(Take(c, s, e).db.analyses[s.workers[e.step.w].job.analysisId].status)
  {
    var w := e.step.w;
    assert Take(c, s, e).db == ActWorker(c, s, e).db;
    hide Take;
    match e.step {
      case Complete(_, commit) => CompletionIsFinal(s, w, commit, e.at);
      case WriteFailed(_, written) => FailureIsFinal(s, w, written);
      case CountRequest(_) => CountingWritesNothing(c, s, w, e.at);
      case _ =>
    }
    hide CompleteJob, FailJob, CountJob, AnalysisControls.RecordFailure, ConsumedSince;
  }

  lemma CountingWritesNothing(c: Config, s: State, w: WorkerId, now: Millis)
    requires w in s.workers && s.workers[w].Claimed?
    ensures CountJob(c, s, w, now).db == s.db
  {
    hide AnalysisControls.EnforceCounters;
  }

  lemma CompletionIsFinal(s: State, w: WorkerId, commit: Commit, now: Millis)
    requires w in s.workers && s.workers[w].Analyzed?
    ensures var a, after := s.workers[w].job.analysisId, CompleteJob(s, w, commit, now);
            after.db.analyses != s.db.analyses ==> a in after.db.analyses && after.db.analyses[a].status == COMPLETED
  {
  }

  lemma FailureIsFinal(s: State, w: WorkerId, written: bool)
    requires w in s.workers && s.workers[w].Failing?
    ensures var a, after := s.workers[w].job.analysisId, FailJob(s, w, written);
            after.db.analyses != s.db.analyses ==> a in after.db.analyses && after.db.analyses[a].status == FAILED
  {
  }

  lemma WorkerKeepsOneActiveIff(c: Config, s: State, e: Event, p: PromptId)
    requires Enabled(c, s, e) && IsWorkerStep(e.step) && JobsMatch(s) && OneActive(s.db, p)
    ensures OneActive(Take(c, s, e).db, p) <==> !RestartsBeside(s, e, p)
  {
    if e.step.Claim? {
      var w := e.step.w;
      assert Take(c, s, e).db == ClaimJob(s, w).db;
      if s.workers[w].job.promptId == p {
        ClaimKeepsOneActiveIff(s, w);
      } else {
        ClaimLeavesOthers(s, w, p);
      }
      hide Take, ClaimJob, OneActive;
    } else {
      OtherStepsActivateNothing(c, s, e);
      hide Take;
    }
  }

  lemma ClaimLeavesOthers(s: State, w: WorkerId, p: PromptId)
    requires w in s.workers && s.workers[w].Loaded? && MatchesAnalysis(s.db.analyses, s.workers[w].job)
    requires s.workers[w].job.promptId != p && OneActive(s.db, p)
    ensures OneActive(ClaimJob(s, w).db, p)
  {
    assert forall a :: ActiveOf(ClaimJob(s, w).db, a, p) ==> ActiveOf(s.db, a, p);
  }

  /** The API adds an analysis only to a prompt without an active one. */
  lemma ApiKeepsOneActive(c: Config, s: State, e: Event, p: PromptId)
    requires Enabled(c, s, e) && IsApiStep(e.step) && Announced(s.db) && OneActive(s.db, p)
    ensures OneActive(Take(c, s, e).db, p)
  {
    ApiStepEffect(c, s, e);
    var after, rows := Take(c, s, e).db, RowsOf(e.step);
    hide Take, Enabled;
    if Inserts(s.db, after, rows, e.at) {
      forall a, b | ActiveOf(after, a, p) && ActiveOf(after, b, p) ensures a == b {
        if a != rows.analysisId { assert ActiveOf(s.db, a, p); }
        if b != rows.analysisId { assert ActiveOf(s.db, b, p); }
      }
    } else {
      assert forall a :: ActiveOf(after, a, p) <==> ActiveOf(s.db, a, p);
    }
  }

  lemma StepKeepsOneActiveIff(c: Config, s: State, e: Event, p: PromptId)
    requires Enabled(c, s, e) && JobsMatch(s) && Announced(s.db) && OneActive(s.db, p)
    ensures OneActive(Take(c, s, e).db, p) <==> !RestartsBeside(s, e, p)
  {
    if IsApiStep(e.step) {
      ApiKeepsOneActive(c, s, e, p);
    } else if IsWorkerStep(e.step) {
      WorkerKeepsOneActiveIff(c, s, e, p);
    } else {
      DispatchStepEffectOnAnalyses(c, s, e);
      hide Take;
      assert forall a :: ActiveOf(Take(c, s, e).db, a, p) <==> ActiveOf(s.db, a, p);
    }
  }

  /** A prompt has at most one active analysis throughout a run exactly if no step of the
      run claims a failed one of its analyses while another is active. */
  lemma {:induction false} OneActiveIff(c: Config, run: Run, p: PromptId)
    requires IsRun(c, run)
    ensures AlwaysOneActive(c, run, p) <==> NeverRestartsBeside(c, run, p)
  {
    if run.Then? {
      OneActiveIff(c, run.past, p);
      if AlwaysOneActive(c, run.past, p) {
        OutboxInvariant(c, run.past);
        WorkersHaveMatchingJobs(c, run.past);
        StepKeepsOneActiveIff(c, Reached(c, run.past), run.event, p);
      }
      hide Take, OneActive, Announced, Delivered;
    }
  }
}
