/** What a worker leaves behind when it stops between its claim and its last write: an
    analysis that stays RUNNING for ever and keeps its prompt from being analysed again. */
module StrandedAnalyses {
  import opened Prelude
  import opened PromptStore
  import opened Pipeline
  import opened WorkerSafety
  import AnalysisControls

  /** RUNNING, and no worker runs it. */
  ghost predicate Stranded(s: State, a: AnalysisId) {
    && a in s.db.analyses && s.db.analyses[a].status == RUNNING
    && forall w :: !HoldsAnalysis(s, w, a)
  }

  /** A step strands a held analysis exactly when it is RUNNING and its worker stops, or
      cannot write that it failed. */
  lemma StrandsIff(c: Config, s: State, e: Event, w: WorkerId, a: AnalysisId)
    requires Exclusive(s) && Enabled(c, s, e) && HoldsAnalysis(s, w, a)
    ensures Stranded(Take(c, s, e), a) <==>
              s.db.analyses[a].status == RUNNING && (e.step == StopWorker(w) || e.step == WriteFailed(w, false))
  {
    var after := Take(c, s, e);
    if IsWorkerStep(e.step) {
      WorkerStepEffect(c, s, e);
      if e.step.w == w {
        if s.db.analyses[a].status == RUNNING { OwnStep(c, s, e); } else { CompletedIsNotStranded(c, s, e); }
      } else {
        OtherStep(c, s, e, w, a);
      }
    } else {
      OthersLeaveWorkers(c, s, e);
      hide Take;
      assert HoldsAnalysis(after, w, a);
    }
    hide Take;
    if HoldsAnalysis(after, w, a) {
      assert !Stranded(after, a);
    } else {
      forall v | HoldsAnalysis(after, v, a) ensures HoldsAnalysis(s, v, a) && v == w {}
    }
  }

  /** An analysis that was completed unheard becomes FAILED or stays COMPLETED. */
  lemma CompletedIsNotStranded(c: Config, s: State, e: Event)
    requires Enabled(c, s, e) && IsWorkerStep(e.step) && s.workers[e.step.w].Failing?
    requires s.workers[e.step.w].job.analysisId in s.db.analyses
    requires s.db.analyses[s.workers[e.step.w].job.analysisId].status == COMPLETED
    ensures Take(c, s, e).db.analyses[s.workers[e.step.w].job.analysisId].status != RUNNING
  {
  }

  /** A holder keeps its analysis, or gives it up with a final status, or strands it. */
  lemma OwnStep(c: Config, s: State, e: Event)
    requires Enabled(c, s, e) && IsWorkerStep(e.step) && Holds(s.workers[e.step.w])
    requires s.workers[e.step.w].job.analysisId in s.db.analyses
    requires s.db.analyses[s.workers[e.step.w].job.analysisId].status == RUNNING
    ensures var w, a, after := e.step.w, s.workers[e.step.w].job.analysisId, Take(c, s, e);
            if Holds(after.workers[w]) then
              after.workers[w].job == s.workers[w].job && e.step != StopWorker(w) && e.step != WriteFailed(w, false)
            else (after.db.analyses[a].status == RUNNING <==> e.step == StopWorker(w) || e.step == WriteFailed(w, false))
  {
    var w, now := e.step.w, e.at;
    match e.step {
      case CountRequest(_) => CountingHolds(c, s, w, now);
      case ReadBudget(_) => ReadingHolds(c, s, w);
      case Complete(_, commit) => CompletingEnds(s, w, commit, now);
      case WriteFailed(_, committed) => FailingEnds(s, w, committed);
      case _ =>
    }
    hide DeliverJob, ClaimJob, CountJob, CheckBudget, CompleteJob, FailJob;
  }

  lemma CountingHolds(c: Config, s: State, w: WorkerId, now: Millis)
    requires w in s.workers && s.workers[w].Claimed?
    ensures Holds(CountJob(c, s, w, now).workers[w]) && CountJob(c, s, w, now).workers[w].job == s.workers[w].job
  {
    hide AnalysisControls.EnforceCounters;
  }

  lemma ReadingHolds(c: Config, s: State, w: WorkerId)
    requires w in s.workers && s.workers[w].Counted?
    ensures Holds(CheckBudget(c, s, w).workers[w]) && CheckBudget(c, s, w).workers[w].job == s.workers[w].job
  {
    hide ConsumedSince;
  }

  lemma CompletingEnds(s: State, w: WorkerId, commit: Commit, now: Millis)
    requires w in s.workers && s.workers[w].Analyzed? && s.workers[w].job.analysisId in s.db.analyses
    ensures var after := CompleteJob(s, w, commit, now);
            if Holds(after.workers[w]) then after.workers[w].job == s.workers[w].job
            else after.db.analyses[s.workers[w].job.analysisId].status == COMPLETED
  {
  }

  lemma FailingEnds(s: State, w: WorkerId, committed: bool)
    requires w in s.workers && s.workers[w].Failing? && s.workers[w].job.analysisId in s.db.analyses
    ensures var a, after := s.workers[w].job.analysisId, FailJob(s, w, committed);
            && !Holds(after.workers[w])
            && a in after.db.analyses
            && after.db.analyses[a].status == if committed then FAILED else s.db.analyses[a].status
  {
  }

  lemma OtherStep(c: Config, s: State, e: Event, w: WorkerId, a: AnalysisId)
    requires Enabled(c, s, e) && IsWorkerStep(e.step) && e.step.w != w && HoldsAnalysis(s, w, a)
    ensures HoldsAnalysis(Take(c, s, e), w, a)
  {
    WorkerStepEffect(c, s, e);
    hide Take;
  }

  lemma StrandedStep(c: Config, s: State, e: Event, a: AnalysisId)
    requires Enabled(c, s, e) && Stranded(s, a)
    ensures Stranded(Take(c, s, e), a)
  {
    var after := Take(c, s, e);
    if IsWorkerStep(e.step) { WorkerStepEffect(c, s, e); } else { OthersLeaveWorkers(c, s, e); }
    hide Take;
    forall v ensures !HoldsAnalysis(after, v, a) {
      assert !HoldsAnalysis(s, v, a);
    }
    if IsWorkerStep(e.step) { assert !HoldsAnalysis(s, e.step.w, a); }
  }

  /** No redelivery, retry or request ever frees a stranded analysis. */
  lemma {:induction false} StrandedForever(c: Config, h: Run, run: Run, a: AnalysisId)
    requires IsRun(c, run) && Within(h, run) && IsRun(c, h) && Stranded(Reached(c, h), a)
    ensures Stranded(Reached(c, run), a)
    decreases run
  {
    if h != run {
      StrandedForever(c, h, run.past, a);
      StrandedStep(c, Reached(c, run.past), run.event, a);
    }
  }

  /** From then on every request to analyse its prompt again is refused. */
  lemma StrandedBlocksPrompt(c: Config, h: Run, run: Run, a: AnalysisId, p: PromptId,
                             actor: Actor, now: Millis, newAnalysis: AnalysisId, newEvent: EventId)
    requires IsRun(c, run) && Within(h, run) && IsRun(c, h)
    requires Stranded(Reached(c, h), a) && Reached(c, h).db.analyses[a].promptId == p
    ensures !Reanalyze(Reached(c, run).db, actor, p, now, newAnalysis, newEvent).1.Requeued?
  {
    StrandedForever(c, h, run, a);
    PromptOfAnalysisFixed(c, h, run, a);
    assert AnalysisOf(Reached(c, run).db, a, p);
  }

  lemma {:induction false} PromptOfAnalysisFixed(c: Config, h: Run, run: Run, a: AnalysisId)
    requires IsRun(c, run) && Within(h, run) && IsRun(c, h) && a in Reached(c, h).db.analyses
    ensures a in Reached(c, run).db.analyses
    ensures Reached(c, run).db.analyses[a].promptId == Reached(c, h).db.analyses[a].promptId
    decreases run
  {
    if h != run {
      PromptOfAnalysisFixed(c, h, run.past, a);
      AnalysesPersist(c, Reached(c, run.past), run.event, a);
      hide Take;
    }
  }
}
