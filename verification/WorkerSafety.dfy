/** Workers never share an analysis and never repeat its effects. */
module WorkerSafety {
  import opened Prelude
  import opened PromptStore
  import opened AnalysisControls
  import opened Pipeline

  type Analyses = map<AnalysisId, Analysis>

  predicate HoldsAnalysis(s: State, w: WorkerId, a: AnalysisId) {
    w in s.workers && Holds(s.workers[w]) && s.workers[w].job.analysisId == a
  }

  /** RUNNING, or completed by a commit that the worker did not hear of. */
  predicate HeldStatus(worker: Worker, status: AnalysisStatus) {
    status == RUNNING || (status == COMPLETED && worker.Failing?)
  }

  /** No two workers hold an analysis. */
  ghost predicate Exclusive(s: State) {
    && (forall w, a :: HoldsAnalysis(s, w, a) ==> a in s.db.analyses && HeldStatus(s.workers[w], s.db.analyses[a].status))
    && (forall v, w, a :: HoldsAnalysis(s, v, a) && HoldsAnalysis(s, w, a) ==> v == w)
  }

  /** Which jobs a worker may have taken: those that name an existing analysis. */
  ghost predicate JobsMatch(s: State) {
    forall w :: w in s.workers && HasJob(s.workers[w]) ==> MatchesAnalysis(s.db.analyses, s.workers[w].job)
  }

  predicate MatchesAnalysis(analyses: Analyses, job: JobData) {
    && job.analysisId in analyses
    && analyses[job.analysisId].promptId == job.promptId
    && analyses[job.analysisId].tenantId == job.tenantId
  }

  // ------------------------------------------------- what a step changes

  /** API transactions and dispatchers leave workers, existing analyses and records alone. */
  lemma OthersLeaveWorkers(c: Config, s: State, e: Event)
    requires Enabled(c, s, e) && !IsWorkerStep(e.step)
    ensures var after := Take(c, s, e);
            && after.workers == s.workers && after.db.usage == s.db.usage && after.db.improved == s.db.improved
            && (forall a :: a in s.db.analyses ==> a in after.db.analyses && after.db.analyses[a] == s.db.analyses[a])
            && (forall a :: a in after.db.analyses && a !in s.db.analyses ==> after.db.analyses[a].status == QUEUED)
  {
  }

  /** A worker's step changes its own state and, at most, the status of its own analysis:
      a claim, a completion or a failure of what it holds. */
  lemma WorkerStepEffect(c: Config, s: State, e: Event)
    requires Enabled(c, s, e) && IsWorkerStep(e.step)
    ensures var w, after := e.step.w, Take(c, s, e);
            OwnWorkerOnly(s, e, after) && OwnRowOnly(s.workers[w], after.workers[w], s.db.analyses, after.db.analyses)
  {
    WorkerStepKeepsOthers(c, s, e);
    WorkerStepKeepsRows(c, s, e);
    hide Take, Enabled, OwnRowOnly;
  }

  ghost predicate OwnWorkerOnly(s: State, e: Event, after: State)
    requires IsWorkerStep(e.step)
  {
    var w := e.step.w;
    && w in s.workers && w in after.workers && after.workers == s.workers[w := after.workers[w]]
    && (HasJob(after.workers[w]) && HasJob(s.workers[w]) ==> after.workers[w].job == s.workers[w].job)
    && (Holds(after.workers[w]) ==> Holds(s.workers[w]) || s.workers[w].Loaded?)
    && (s.workers[w].Failing? ==> !Holds(after.workers[w]))
  }

  predicate OwnRowOnly(before: Worker, after: Worker, rows: Analyses, next: Analyses) {
    && (next != rows ==>
          && HasJob(before) && before.job.analysisId in rows && before.job.analysisId in next
          && next[before.job.analysisId].status != QUEUED
          && next == rows[before.job.analysisId := rows[before.job.analysisId].(status := next[before.job.analysisId].status)]
          && (Holds(before) && Holds(after) ==> HeldStatus(after, next[before.job.analysisId].status)))
    && (before.Loaded? && Holds(after) ==>
          && before.job.analysisId in rows && before.job.analysisId in next
          && Claimable(rows[before.job.analysisId].status) && next[before.job.analysisId].status == RUNNING)
    && (before.Loaded? && !Holds(after) ==> next == rows)
  }

  lemma WorkerStepKeepsOthers(c: Config, s: State, e: Event)
    requires Enabled(c, s, e) && IsWorkerStep(e.step)
    ensures OwnWorkerOnly(s, e, Take(c, s, e))
  {
    hide EnforceCounters, RecordFailure, ConsumedSince, SetStatus;
  }

  lemma WorkerStepKeepsRows(c: Config, s: State, e: Event)
    requires Enabled(c, s, e) && IsWorkerStep(e.step)
    ensures e.step.w in s.workers && e.step.w in Take(c, s, e).workers
    ensures OwnRowOnly(s.workers[e.step.w], Take(c, s, e).workers[e.step.w], s.db.analyses, Take(c, s, e).db.analyses)
  {
    var w, acted := e.step.w, ActWorker(c, s, e);
    assert Take(c, s, e) == acted.(clock := e.at);
    hide Take;
    match e.step {
      case Claim(_) => ClaimRow(s, w);
      case Complete(_, commit) => CompleteRow(s, w, commit, e.at);
      case WriteFailed(_, written) => FailRow(s, w, written);
      case _ => QuietRow(c, s, e);
    }
    hide ActWorker, Enabled, OwnRowOnly, ClaimJob, CompleteJob, FailJob;
  }

  lemma ClaimRow(s: State, w: WorkerId)
    requires w in s.workers && s.workers[w].Loaded?
    ensures OwnRowOnly(s.workers[w], ClaimJob(s, w).workers[w], s.db.analyses, ClaimJob(s, w).db.analyses)
  {
  }

  lemma CompleteRow(s: State, w: WorkerId, commit: Commit, now: Millis)
    requires w in s.workers && s.workers[w].Analyzed?
    ensures OwnRowOnly(s.workers[w], CompleteJob(s, w, commit, now).workers[w], s.db.analyses, CompleteJob(s, w, commit, now).db.analyses)
  {
  }

  lemma FailRow(s: State, w: WorkerId, written: bool)
    requires w in s.workers && s.workers[w].Failing?
    ensures OwnRowOnly(s.workers[w], FailJob(s, w, written).workers[w], s.db.analyses, FailJob(s, w, written).db.analyses)
  {
  }

  /** All other steps leave the table alone. */
  lemma QuietRow(c: Config, s: State, e: Event)
    requires Enabled(c, s, e) && IsWorkerStep(e.step) && !e.step.Claim? && !e.step.Complete? && !e.step.WriteFailed?
    ensures var w, acted := e.step.w, ActWorker(c, s, e);
            w in s.workers && w in acted.workers && OwnRowOnly(s.workers[w], acted.workers[w], s.db.analyses, acted.db.analyses)
  {
    hide EnforceCounters, RecordFailure, ConsumedSince, ClaimJob, CompleteJob, FailJob;
  }

  /** Rows of the analysis table are never removed, and keep everything but their status. */
  lemma AnalysesPersist(c: Config, s: State, e: Event, a: AnalysisId)
    requires Enabled(c, s, e) && a in s.db.analyses
    ensures a in Take(c, s, e).db.analyses
    ensures var before, after := s.db.analyses[a], Take(c, s, e).db.analyses[a];
            after == before.(status := after.status)
  {
    if IsWorkerStep(e.step) { WorkerStepEffect(c, s, e); } else { OthersLeaveWorkers(c, s, e); }
    hide Take;
  }

  // -------------------------------------------------------------- exclusivity

  lemma ExclusiveKept(c: Config, s: State, e: Event)
    requires Exclusive(s) && Enabled(c, s, e)
    ensures Exclusive(Take(c, s, e))
  {
    var after := Take(c, s, e);
    if IsWorkerStep(e.step) {
      WorkerStepEffect(c, s, e);
      hide Take;
      forall v, a | HoldsAnalysis(after, v, a) ensures a in after.db.analyses && HeldStatus(after.workers[v], after.db.analyses[a].status) {
        if v != e.step.w || Holds(s.workers[v]) { assert HoldsAnalysis(s, v, a); }
        if Holds(s.workers[e.step.w]) { assert HoldsAnalysis(s, e.step.w, s.workers[e.step.w].job.analysisId); }
      }
      forall u, v, a | HoldsAnalysis(after, u, a) && HoldsAnalysis(after, v, a) ensures u == v {
        if u != e.step.w { assert HoldsAnalysis(s, u, a); }
        if v != e.step.w { assert HoldsAnalysis(s, v, a); }
        if Holds(s.workers[e.step.w]) { assert HoldsAnalysis(s, e.step.w, s.workers[e.step.w].job.analysisId); }
      }
    } else {
      OthersLeaveWorkers(c, s, e);
      hide Take;
      forall v, a | HoldsAnalysis(after, v, a) ensures HoldsAnalysis(s, v, a) {}
    }
  }

  /** At most one worker holds an analysis; its status is then RUNNING, or COMPLETED by a
      commit that the worker did not hear of. */
  lemma {:induction false} AtMostOneHolder(c: Config, run: Run)
    requires IsRun(c, run)
    ensures Exclusive(Reached(c, run))
    decreases run
  {
    if run.Then? {
      AtMostOneHolder(c, run.past);
      ExclusiveKept(c, Reached(c, run.past), run.event);
    }
  }

  // ----------------------------------------------------- jobs and their rows

  lemma JobsKeptMatching(c: Config, s: State, e: Event)
    requires JobsMatch(s) && Enabled(c, s, e)
    ensures JobsMatch(Take(c, s, e))
  {
    var after := Take(c, s, e);
    forall v | v in after.workers && HasJob(after.workers[v]) ensures MatchesAnalysis(after.db.analyses, after.workers[v].job) {
      if IsWorkerStep(e.step) {
        WorkerStepEffect(c, s, e);
        if v == e.step.w && !HasJob(s.workers[v]) {
          NewJobMatches(c, s, e);
        }
      } else {
        OthersLeaveWorkers(c, s, e);
      }
      hide Take;
      var a := after.workers[v].job.analysisId;
      if a in s.db.analyses { AnalysesPersist(c, s, e, a); }
    }
  }

  /** A worker takes up a job only if its analysis exists, for its prompt and workspace. */
  lemma NewJobMatches(c: Config, s: State, e: Event)
    requires Enabled(c, s, e) && IsWorkerStep(e.step)
    requires !HasJob(s.workers[e.step.w]) && HasJob(Take(c, s, e).workers[e.step.w])
    ensures MatchesAnalysis(s.db.analyses, Take(c, s, e).workers[e.step.w].job)
  {
  }

  lemma {:induction false} WorkersHaveMatchingJobs(c: Config, run: Run)
    requires IsRun(c, run)
    ensures JobsMatch(Reached(c, run))
    decreases run
  {
    if run.Then? {
      WorkersHaveMatchingJobs(c, run.past);
      JobsKeptMatching(c, Reached(c, run.past), run.event);
    }
  }

  // -------------------------------------------------------- effects, once each

  function RecordsFor(usage: History<Usage>, a: AnalysisId): nat {
    if usage.Start? then 0 else RecordsFor(usage.past, a) + if usage.event.analysisId == a then 1 else 0
  }

  /** An analysis has as many usage records as improved versions, at most one, and that
      version is of its prompt; a completed analysis has one. */
  predicate RecordedOnce(db: PromptTables, a: AnalysisId) {
    && RecordsFor(db.usage, a) == (if a in db.improved then 1 else 0)
    && (a in db.improved ==> a in db.analyses && db.improved[a] == db.analyses[a].promptId)
    && (a in db.analyses && db.analyses[a].status == COMPLETED ==> a in db.improved)
  }

  /** Records are written only together with the completion of the analysis that the
      worker holds, and nothing else completes one. */
  lemma RecordsEffect(c: Config, s: State, e: Event)
    requires Exclusive(s) && Enabled(c, s, e)
    ensures RecordsChange(s, e, Take(c, s, e))
  {
    if IsWorkerStep(e.step) {
      if Holds(s.workers[e.step.w]) { assert HoldsAnalysis(s, e.step.w, s.workers[e.step.w].job.analysisId); }
      WorkerRecordsEffect(c, s, e);
    } else {
      OthersLeaveWorkers(c, s, e);
    }
    hide ActWorker, ActDispatcher, ActApi, Enabled, Exclusive;
  }

  ghost predicate NoneCompleted(before: Analyses, after: Analyses) {
    forall a :: a in after && after[a].status == COMPLETED ==> a in before && before[a].status == COMPLETED
  }

  ghost predicate RecordsChange(s: State, e: Event, after: State) {
    if after.db.usage == s.db.usage then
      after.db.improved == s.db.improved && NoneCompleted(s.db.analyses, after.db.analyses)
    else
      && e.step.Complete? && e.step.w in s.workers && HasJob(s.workers[e.step.w])
      && var job := s.workers[e.step.w].job;
         && after.db.usage.Then? && after.db.usage.past == s.db.usage
         && after.db.usage.event.analysisId == job.analysisId && after.db.usage.event.tenantId == job.tenantId
         && job.analysisId !in s.db.improved
         && after.db.improved == s.db.improved[job.analysisId := job.promptId]
         && HoldsAnalysis(s, e.step.w, job.analysisId) && job.analysisId in s.db.analyses
         && after.db.analyses == s.db.analyses[job.analysisId := s.db.analyses[job.analysisId].(status := COMPLETED)]
  }

  lemma WorkerRecordsEffect(c: Config, s: State, e: Event)
    requires Enabled(c, s, e) && IsWorkerStep(e.step)
    requires Holds(s.workers[e.step.w]) ==> s.workers[e.step.w].job.analysisId in s.db.analyses
    ensures RecordsChange(s, e, ActWorker(c, s, e))
  {
    match e.step {
      case CountRequest(_) => hide EnforceCounters;
      case RecordProviderFailure(_) => hide RecordFailure;
      case _ =>
    }
  }

  lemma RecordsKept(c: Config, s: State, e: Event, a: AnalysisId)
    requires Exclusive(s) && JobsMatch(s) && Enabled(c, s, e) && RecordedOnce(s.db, a)
    ensures RecordedOnce(Take(c, s, e).db, a)
  {
    RecordsEffect(c, s, e);
    if a in s.db.analyses { AnalysesPersist(c, s, e, a); }
    hide Take;
  }

  /** Whatever interleaves, fails, is redelivered, crashes or commits unheard: an analysis
      has one usage record and one improved version of its prompt, or neither; a completed
      one has both. */
  lemma {:induction false} EffectsExactlyOnce(c: Config, run: Run, a: AnalysisId)
    requires IsRun(c, run)
    ensures RecordedOnce(Reached(c, run).db, a)
    decreases run
  {
    if run.Then? {
      EffectsExactlyOnce(c, run.past, a);
      AtMostOneHolder(c, run.past);
      WorkersHaveMatchingJobs(c, run.past);
      RecordsKept(c, Reached(c, run.past), run.event, a);
    }
  }

  // ------------------------------------------------- how COMPLETED can be lost

  predicate IsCompleted(db: PromptTables, a: AnalysisId) {
    a in db.analyses && db.analyses[a].status == COMPLETED
  }

  /** The worker holds an analysis that it completed without hearing of it, and writes that
      it failed. */
  predicate Overwrites(s: State, e: Event, a: AnalysisId) {
    e.step.WriteFailed? && e.step.committed && HoldsAnalysis(s, e.step.w, a) && IsCompleted(s.db, a)
  }

  /** Some event of the run after `h` overwrites the completed analysis. */
  ghost predicate Overwritten(c: Config, h: Run, run: Run, a: AnalysisId)
    requires IsRun(c, run)
    decreases run
  {
    && h != run && run.Then?
    && (Overwrites(Reached(c, run.past), run.event, a) || Overwritten(c, h, run.past, a))
  }

  /** A step ends COMPLETED exactly if it overwrites it. */
  lemma CompletedEndsIff(c: Config, s: State, e: Event, a: AnalysisId)
    requires Exclusive(s) && Enabled(c, s, e) && IsCompleted(s.db, a)
    ensures IsCompleted(Take(c, s, e).db, a) <==> !Overwrites(s, e, a)
  {
    AnalysesPersist(c, s, e, a);
    if IsWorkerStep(e.step) {
      var w := e.step.w;
      WorkerStepEffect(c, s, e);
      if HoldsAnalysis(s, w, a) {
        HolderOfCompleted(c, s, e, a);
      }
    } else {
      OthersLeaveWorkers(c, s, e);
    }
    hide Take;
  }

  lemma HolderOfCompleted(c: Config, s: State, e: Event, a: AnalysisId)
    requires Exclusive(s) && Enabled(c, s, e) && IsWorkerStep(e.step) && HoldsAnalysis(s, e.step.w, a) && IsCompleted(s.db, a)
    ensures IsCompleted(Take(c, s, e).db, a) <==> e.step != WriteFailed(e.step.w, true)
  {
    assert s.workers[e.step.w].Failing?;
  }

  /** A recorded analysis that lost COMPLETED never regains it: its records stand in the
      way of a second completion. */
  lemma LostStaysLost(c: Config, s: State, e: Event, a: AnalysisId)
    requires Exclusive(s) && Enabled(c, s, e) && a in s.db.improved && !IsCompleted(s.db, a)
    ensures a in Take(c, s, e).db.improved && !IsCompleted(Take(c, s, e).db, a)
  {
    RecordsEffect(c, s, e);
    hide Take;
  }

  /** A recorded analysis is COMPLETED exactly if no later step overwrote it. */
  lemma {:induction false} CompletedIsFinalIff(c: Config, h: Run, run: Run, a: AnalysisId)
    requires IsRun(c, run) && Within(h, run) && IsRun(c, h) && IsCompleted(Reached(c, h).db, a)
    ensures a in Reached(c, run).db.improved
    ensures IsCompleted(Reached(c, run).db, a) <==> !Overwritten(c, h, run, a)
    decreases run
  {
    EffectsExactlyOnce(c, run, a);
    if h != run {
      CompletedIsFinalIff(c, h, run.past, a);
      AtMostOneHolder(c, run.past);
      var s, e := Reached(c, run.past), run.event;
      if IsCompleted(s.db, a) {
        CompletedEndsIff(c, s, e, a);
      } else {
        LostStaysLost(c, s, e, a);
      }
      hide Take, Enabled, Exclusive, RecordedOnce, Overwrites;
    }
  }

  /** And what was recorded was completed at that moment. */
  lemma {:induction false} RecordedWasCompleted(c: Config, run: Run, a: AnalysisId) returns (h: Run)
    requires IsRun(c, run) && a in Reached(c, run).db.improved
    ensures Within(h, run) && IsRun(c, h) && IsCompleted(Reached(c, h).db, a)
    ensures IsCompleted(Reached(c, run).db, a) <==> !Overwritten(c, h, run, a)
    decreases run
  {
    if a in Reached(c, run.past).db.improved {
      h := RecordedWasCompleted(c, run.past, a);
      CompletedIsFinalIff(c, h, run, a);
    } else {
      AtMostOneHolder(c, run.past);
      RecordsEffect(c, Reached(c, run.past), run.event);
      h := run;
      hide Take;
    }
  }

  /** The last event of `u` completed the analysis, and its worker did not hear of it. */
  ghost predicate CommitsUnheard(c: Config, u: Run, w: WorkerId, a: AnalysisId)
    requires IsRun(c, u)
  {
    && u.Then? && u.event.step == Complete(w, Unacknowledged)
    && HoldsAnalysis(Reached(c, u.past), w, a) && IsCompleted(Reached(c, u).db, a)
  }

  /** A worker that holds a completed analysis got there by a commit it did not hear of, so
      only such a commit can lead to an overwriting. */
  lemma {:induction false} OverwritingNeedsUnheardCommit(c: Config, run: Run, w: WorkerId, a: AnalysisId) returns (u: Run)
    requires IsRun(c, run) && HoldsAnalysis(Reached(c, run), w, a) && IsCompleted(Reached(c, run).db, a)
    ensures Within(u, run) && IsRun(c, u) && CommitsUnheard(c, u, w, a)
    decreases run
  {
    var s, e := Reached(c, run.past), run.event;
    AtMostOneHolder(c, run.past);
    if HoldsAnalysis(s, w, a) && IsCompleted(s.db, a) {
      u := OverwritingNeedsUnheardCommit(c, run.past, w, a);
    } else {
      UnheardCommit(c, s, e, w, a);
      u := run;
    }
    hide Take;
  }

  lemma UnheardCommit(c: Config, s: State, e: Event, w: WorkerId, a: AnalysisId)
    requires Exclusive(s) && Enabled(c, s, e) && !(HoldsAnalysis(s, w, a) && IsCompleted(s.db, a))
    requires HoldsAnalysis(Take(c, s, e), w, a) && IsCompleted(Take(c, s, e).db, a)
    ensures e.step == Complete(w, Unacknowledged) && HoldsAnalysis(s, w, a)
  {
    RecordsEffect(c, s, e);
    if IsWorkerStep(e.step) {
      WorkerStepEffect(c, s, e);
      if e.step.Complete? { AcknowledgedLetsGo(c, s, e); }
    } else {
      OthersLeaveWorkers(c, s, e);
    }
    hide Take;
  }

  lemma AcknowledgedLetsGo(c: Config, s: State, e: Event)
    requires Enabled(c, s, e) && e.step.Complete? && Take(c, s, e).db.usage != s.db.usage
    ensures Holds(Take(c, s, e).workers[e.step.w]) <==> e.step.commit.Unacknowledged?
  {
  }

  // ------------------------------------------------------ token conservation

  function TokensOf(usage: History<Usage>, a: AnalysisId): nat {
    if usage.Start? then 0 else TokensOf(usage.past, a) + if usage.event.analysisId == a then usage.event.tokens else 0
  }

  function RecordedTokens(usage: History<Usage>, tenantId: nat): nat {
    if usage.Start? then 0 else RecordedTokens(usage.past, tenantId) + if usage.event.tenantId == tenantId then usage.event.tokens else 0
  }

  ghost function Pick(analyses: set<AnalysisId>): (a: AnalysisId)
    requires analyses != {}
    ensures a in analyses
  {
    var a :| a in analyses;
    a
  }

  ghost function SumOver(analyses: set<AnalysisId>, usage: History<Usage>): nat {
    if analyses == {} then 0
    else
      var a := Pick(analyses);
      TokensOf(usage, a) + SumOver(analyses - {a}, usage)
  }

  /** The analyses of the workspace that have an improved version: all that were ever
      completed. */
  ghost function RecordedOf(db: PromptTables, tenantId: nat): set<AnalysisId> {
    set a | a in db.improved && a in db.analyses && db.analyses[a].tenantId == tenantId
  }

  /** The records of a workspace are those that name one of the analyses. */
  predicate RecordsOf(usage: History<Usage>, analyses: set<AnalysisId>, tenantId: nat) {
    usage.Then? ==> RecordsOf(usage.past, analyses, tenantId) && (usage.event.tenantId == tenantId <==> usage.event.analysisId in analyses)
  }

  lemma {:induction false} SumOverAppend(analyses: set<AnalysisId>, usage: History<Usage>)
    requires usage.Then?
    ensures SumOver(analyses, usage) == SumOver(analyses, usage.past) + if usage.event.analysisId in analyses then usage.event.tokens else 0
  {
    if analyses != {} {
      SumOverAppend(analyses - {Pick(analyses)}, usage);
    }
  }

  lemma {:induction false} SumOverNothing(analyses: set<AnalysisId>)
    ensures SumOver(analyses, Start) == 0
  {
    if analyses != {} {
      SumOverNothing(analyses - {Pick(analyses)});
    }
  }

  lemma {:induction false} RecordsAddUp(usage: History<Usage>, analyses: set<AnalysisId>, tenantId: nat)
    requires RecordsOf(usage, analyses, tenantId)
    ensures RecordedTokens(usage, tenantId) == SumOver(analyses, usage)
  {
    if usage.Start? {
      SumOverNothing(analyses);
    } else {
      RecordsAddUp(usage.past, analyses, tenantId);
      SumOverAppend(analyses, usage);
    }
  }

  /** Every record names an analysis of the record's workspace with an improved version. */
  predicate RecordsMatch(usage: History<Usage>, db: PromptTables) {
    usage.Then? ==>
      && RecordsMatch(usage.past, db)
      && usage.event.analysisId in db.improved && usage.event.analysisId in db.analyses
      && db.analyses[usage.event.analysisId].tenantId == usage.event.tenantId
  }

  lemma {:induction false} RecordsStillMatch(usage: History<Usage>, before: PromptTables, after: PromptTables)
    requires RecordsMatch(usage, before)
    requires forall a :: a in before.improved ==> a in after.improved
    requires forall a :: a in before.analyses ==> a in after.analyses && after.analyses[a].tenantId == before.analyses[a].tenantId
    ensures RecordsMatch(usage, after)
  {
    if usage.Then? {
      RecordsStillMatch(usage.past, before, after);
    }
  }

  lemma {:induction false} MatchingRecordsBelong(usage: History<Usage>, db: PromptTables, tenantId: nat)
    requires RecordsMatch(usage, db)
    ensures RecordsOf(usage, RecordedOf(db, tenantId), tenantId)
  {
    if usage.Then? {
      MatchingRecordsBelong(usage.past, db, tenantId);
    }
  }

  lemma {:induction false} AllRecordsMatch(c: Config, run: Run)
    requires IsRun(c, run)
    ensures RecordsMatch(Reached(c, run).db.usage, Reached(c, run).db)
    decreases run
  {
    if run.Then? {
      AllRecordsMatch(c, run.past);
      AtMostOneHolder(c, run.past);
      WorkersHaveMatchingJobs(c, run.past);
      var s, after := Reached(c, run.past), Reached(c, run);
      RecordsEffect(c, s, run.event);
      forall a | a in s.db.analyses ensures a in after.db.analyses && after.db.analyses[a].tenantId == s.db.analyses[a].tenantId {
        AnalysesPersist(c, s, run.event, a);
      }
      hide Take;
      RecordsStillMatch(s.db.usage, s.db, after.db);
    }
  }

  /** The tokens recorded for a workspace are those of its analyses that were ever
      completed, each counted once. */
  lemma TokensAreConserved(c: Config, run: Run, tenantId: nat)
    requires IsRun(c, run)
    ensures var db := Reached(c, run).db;
            RecordedTokens(db.usage, tenantId) == SumOver(RecordedOf(db, tenantId), db.usage)
  {
    var db := Reached(c, run).db;
    AllRecordsMatch(c, run);
    MatchingRecordsBelong(db.usage, db, tenantId);
    RecordsAddUp(db.usage, RecordedOf(db, tenantId), tenantId);
  }

  // ------------------------------------------------ several active analyses

  predicate Active(status: AnalysisStatus) {
    status == QUEUED || status == RUNNING
  }

  predicate ActiveOf(db: PromptTables, a: AnalysisId, p: PromptId) {
    AnalysisOf(db, a, p) && Active(db.analyses[a].status)
  }

  ghost predicate OneActive(db: PromptTables, p: PromptId) {
    forall a, b :: ActiveOf(db, a, p) && ActiveOf(db, b, p) ==> a == b
  }

  /** Starting an analysis leaves it the only active one exactly when no other was. */
  lemma StartKeepsOneActiveIff(db: PromptTables, a: AnalysisId, p: PromptId)
    requires AnalysisOf(db, a, p) && OneActive(db, p)
    ensures OneActive(SetStatus(db, a, RUNNING), p) <==> ActiveOf(db, a, p) || forall b :: !ActiveOf(db, b, p)
  {
    var after := SetStatus(db, a, RUNNING);
    assert ActiveOf(after, a, p);
    assert forall b :: b != a ==> (ActiveOf(after, b, p) <==> ActiveOf(db, b, p));
  }

  /** A claim leaves at most one active analysis of a prompt exactly when it does not
      restart a failed one while another is active: a retried job and a new request for
      the same prompt can run at once. */
  lemma ClaimKeepsOneActiveIff(s: State, w: WorkerId)
    requires w in s.workers && s.workers[w].Loaded?
    requires MatchesAnalysis(s.db.analyses, s.workers[w].job) && OneActive(s.db, s.workers[w].job.promptId)
    ensures var a, p := s.workers[w].job.analysisId, s.workers[w].job.promptId;
            OneActive(ClaimJob(s, w).db, p) <==> !(s.db.analyses[a].status == FAILED && HasActiveAnalysis(s.db, p))
  {
    var a, p := s.workers[w].job.analysisId, s.workers[w].job.promptId;
    if HasActiveAnalysis(s.db, p) {
      var b :| b in s.db.analyses && AnalysisOf(s.db, b, p) && (s.db.analyses[b].status == QUEUED || s.db.analyses[b].status == RUNNING);
      assert ActiveOf(s.db, b, p);
    }
    if Claimable(s.db.analyses[a].status) {
      StartKeepsOneActiveIff(s.db, a, p);
    }
    hide OneActive;
    assert ClaimJob(s, w).db == if Claimable(s.db.analyses[a].status) then SetStatus(s.db, a, RUNNING) else s.db;
  }
}
