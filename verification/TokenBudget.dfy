/** How far a workspace can overshoot its monthly token budget. */
module TokenBudget {
  import opened Prelude
  import opened PromptStore
  import opened AnalysisControls
  import opened Pipeline
  import opened WorkerSafety

  /** Rounding down to the start of the month, whatever the calendar. */
  ghost predicate IsMonthStart(f: Millis -> Millis) {
    && (forall t :: f(t) <= t)
    && (forall t, u :: f(t) <= u <= t ==> f(u) == f(t))
  }

  lemma MonthStartIsMonotone(f: Millis -> Millis, t: Millis, u: Millis)
    requires IsMonthStart(f) && t <= u
    ensures f(t) <= f(u)
  {
    assert f(t) <= t && f(u) <= u;
  }

  /** The tokens recorded for a workspace in the month that starts at `month`. */
  function TokensInMonth(c: Config, usage: History<Usage>, tenantId: nat, month: Millis): nat {
    if usage.Start? then 0
    else
      TokensInMonth(c, usage.past, tenantId, month)
      + if usage.event.tenantId == tenantId && c.monthStart(usage.event.createdAt) == month then usage.event.tokens else 0
  }

  /** The worker was let through and has not recorded its tokens yet. */
  predicate InFlight(worker: Worker, tenantId: nat) {
    (worker.Passed? || worker.Analyzed?) && worker.job.tenantId == tenantId
  }

  function InFlightSet(s: State, tenantId: nat): set<WorkerId> {
    set w | w in s.workers && InFlight(s.workers[w], tenantId)
  }

  /** No analysis of the run uses more than `most` tokens. */
  predicate ResultsWithin(run: Run, most: nat) {
    run.Then? ==> ResultsWithin(run.past, most) && ResultWithin(run.event.step, most)
  }

  predicate ResultWithin(step: Step, most: nat) {
    step.Analyze? && step.result.Some? ==> step.result.value <= most
  }

  // ------------------------------------------------- what a worker carries

  predicate WorkerSane(c: Config, worker: Worker, most: nat, clock: Millis) {
    && (HasJob(worker) ==> worker.job.tenantId in c.tenants && worker.settings == c.tenants[worker.job.tenantId])
    && (worker.Analyzed? ==> worker.tokens <= most)
    && (worker.Counted? ==> worker.enforcedAt <= clock)
  }

  predicate Dated(usage: History<Usage>, clock: Millis) {
    usage.Then? ==> Dated(usage.past, clock) && usage.event.createdAt <= clock
  }

  ghost predicate Sane(c: Config, s: State, most: nat) {
    && s.workers.Keys == c.workers
    && (forall w :: w in s.workers ==> WorkerSane(c, s.workers[w], most, s.clock))
    && Dated(s.db.usage, s.clock)
  }

  lemma {:induction false} DatedLater(usage: History<Usage>, clock: Millis, later: Millis)
    requires Dated(usage, clock) && clock <= later
    ensures Dated(usage, later)
  {
    if usage.Then? {
      DatedLater(usage.past, clock, later);
    }
  }

  lemma WorkerStaysSane(c: Config, s: State, e: Event, most: nat)
    requires Enabled(c, s, e) && IsWorkerStep(e.step) && ResultWithin(e.step, most)
    requires WorkerSane(c, s.workers[e.step.w], most, e.at)
    ensures WorkerSane(c, ActWorker(c, s, e).workers[e.step.w], most, e.at)
  {
    match e.step {
      case Deliver(_, _) => hide ClaimJob, CountJob, CheckBudget, CompleteJob, FailJob;
      case Claim(_) => hide DeliverJob, CountJob, CheckBudget, CompleteJob, FailJob;
      case CountRequest(_) => hide DeliverJob, ClaimJob, CheckBudget, CompleteJob, FailJob, EnforceCounters;
      case ReadBudget(_) => hide DeliverJob, ClaimJob, CountJob, CompleteJob, FailJob, ConsumedSince;
      case Complete(_, _) => hide DeliverJob, ClaimJob, CountJob, CheckBudget, FailJob;
      case WriteFailed(_, _) => hide DeliverJob, ClaimJob, CountJob, CheckBudget, CompleteJob;
      case _ => hide DeliverJob, ClaimJob, CountJob, CheckBudget, CompleteJob, FailJob, RecordFailure;
    }
  }

  // ------------------------------------------ what a step does to the budget

  /** The step lets one more call of its workspace through, on a read below the budget. */
  ghost predicate LetsThrough(c: Config, s: State, e: Event, after: State) {
    && e.step.ReadBudget? && e.step.w in s.workers && s.workers[e.step.w].Counted?
    && var Counted(job, settings, enforcedAt) := s.workers[e.step.w];
       && after.db.usage == s.db.usage
       && after.workers == s.workers[e.step.w := Passed(job, settings)]
       && ConsumedSince(s.db.usage, job.tenantId, c.monthStart(enforcedAt)) < settings.budget
  }

  /** The step records the tokens of one call that was in flight. */
  ghost predicate Records(s: State, e: Event, after: State) {
    && e.step.Complete? && e.step.w in s.workers && s.workers[e.step.w].Analyzed?
    && var Analyzed(job, settings, tokens) := s.workers[e.step.w];
       && after.db.usage == Then(s.db.usage, Usage(job.tenantId, job.analysisId, tokens, e.at))
       && e.step.w in after.workers && (after.workers[e.step.w].Free? || after.workers[e.step.w].Failing?)
       && after.workers == s.workers[e.step.w := after.workers[e.step.w]]
  }

  ghost predicate LeavesBudget(s: State, after: State) {
    && after.db.usage == s.db.usage
    && forall t :: InFlightSet(after, t) <= InFlightSet(s, t)
  }

  lemma WorkerBudgetEffect(c: Config, s: State, e: Event)
    requires Enabled(c, s, e) && IsWorkerStep(e.step)
    ensures var after := ActWorker(c, s, e);
            LetsThrough(c, s, e, after) || Records(s, e, after) || LeavesBudget(s, after)
  {
    match e.step {
      case ReadBudget(_) => hide DeliverJob, ClaimJob, CountJob, CompleteJob, FailJob, ConsumedSince;
      case Complete(_, _) => hide DeliverJob, ClaimJob, CountJob, CheckBudget, FailJob;
      case _ =>
        OthersLeaveBudget(c, s, e);
        hide ActWorker, Enabled, InFlightSet;
    }
  }

  lemma OthersLeaveBudget(c: Config, s: State, e: Event)
    requires Enabled(c, s, e) && IsWorkerStep(e.step) && !e.step.ReadBudget? && !e.step.Complete?
    ensures LeavesBudget(s, ActWorker(c, s, e))
  {
    hide CheckBudget, CompleteJob, EnforceCounters, RecordFailure, ConsumedSince;
    var after, w := ActWorker(c, s, e), e.step.w;
    assert forall t :: InFlight(after.workers[w], t) ==> InFlight(s.workers[w], t);
  }

  lemma BudgetEffect(c: Config, s: State, e: Event)
    requires Enabled(c, s, e)
    ensures var after := Take(c, s, e);
            LetsThrough(c, s, e, after) || Records(s, e, after) || LeavesBudget(s, after)
  {
    if IsWorkerStep(e.step) {
      WorkerBudgetEffect(c, s, e);
      var acted := ActWorker(c, s, e);
      hide ActWorker, ActDispatcher, ActApi, Enabled;
      assert Take(c, s, e) == acted.(clock := e.at);
      if LeavesBudget(s, acted) {
        forall t ensures InFlightSet(Take(c, s, e), t) <= InFlightSet(s, t) {
          assert InFlightSet(Take(c, s, e), t) == InFlightSet(acted, t);
        }
      }
    } else {
      OthersLeaveWorkers(c, s, e);
      hide ActWorker, ActDispatcher, ActApi, Enabled;
    }
  }

  lemma SaneKept(c: Config, s: State, e: Event, most: nat)
    requires Sane(c, s, most) && Enabled(c, s, e) && ResultWithin(e.step, most)
    ensures Sane(c, Take(c, s, e), most)
  {
    var after := Take(c, s, e);
    if IsWorkerStep(e.step) {
      assert WorkerSane(c, s.workers[e.step.w], most, s.clock);
      WorkerStaysSane(c, s, e, most);
    } else {
      OthersLeaveWorkers(c, s, e);
    }
    DatedLater(s.db.usage, s.clock, e.at);
    BudgetEffect(c, s, e);
    hide ActWorker, ActDispatcher, ActApi;
    forall v | v in after.workers ensures WorkerSane(c, after.workers[v], most, after.clock) {
      if v in s.workers { assert WorkerSane(c, s.workers[v], most, s.clock); }
    }
  }

  lemma {:induction false} AlwaysSane(c: Config, run: Run, most: nat)
    requires IsRun(c, run) && ResultsWithin(run, most)
    ensures Sane(c, Reached(c, run), most)
    decreases run
  {
    if run.Then? {
      AlwaysSane(c, run.past, most);
      SaneKept(c, Reached(c, run.past), run.event, most);
    }
  }

  // --------------------------------------------------------------- the bound

  /** The most tokens that `n` calls use. */
  function AtMost(n: nat, most: nat): nat {
    n * most
  }

  /** The tokens recorded in a month plus the most that the calls in flight can add. */
  ghost predicate WithinBound(c: Config, s: State, tenantId: nat, budget: nat, most: nat, month: Millis) {
    TokensInMonth(c, s.db.usage, tenantId, month) + AtMost(|InFlightSet(s, tenantId)|, most) <= budget - 1 + AtMost(|c.workers|, most)
  }

  lemma AtMostMonotone(most: nat, n: nat, m: nat)
    requires n <= m
    ensures AtMost(n, most) <= AtMost(m, most)
  {
    assert n * most <= m * most;
  }

  lemma AtMostOneMore(n: nat, most: nat)
    ensures AtMost(n + 1, most) == AtMost(n, most) + most && AtMost(0, most) == 0
  {
  }

  lemma InFlightAreWorkers(c: Config, s: State, tenantId: nat)
    requires s.workers.Keys == c.workers
    ensures |InFlightSet(s, tenantId)| <= |c.workers|
  {
    SubsetCardinality(InFlightSet(s, tenantId), c.workers);
  }

  lemma {:induction false} SubsetCardinality(a: set<WorkerId>, b: set<WorkerId>)
    requires a <= b
    ensures |a| <= |b|
  {
    if a != {} {
      var x :| x in a;
      SubsetCardinality(a - {x}, b - {x});
    }
  }

  /** A new month begins with nothing recorded. */
  lemma {:induction false} NothingInNewMonth(c: Config, usage: History<Usage>, tenantId: nat, clock: Millis, month: Millis)
    requires IsMonthStart(c.monthStart) && Dated(usage, clock) && c.monthStart(clock) < month
    ensures TokensInMonth(c, usage, tenantId, month) == 0
  {
    if usage.Then? {
      NothingInNewMonth(c, usage.past, tenantId, clock, month);
      MonthStartIsMonotone(c.monthStart, usage.event.createdAt, clock);
    }
  }

  /** A read that reaches back to an earlier month counts at least the current one. */
  lemma {:induction false} StaleReadCountsMonth(c: Config, usage: History<Usage>, tenantId: nat, from: Millis, month: Millis)
    requires IsMonthStart(c.monthStart) && from <= month
    ensures TokensInMonth(c, usage, tenantId, month) <= ConsumedSince(usage, tenantId, from)
  {
    if usage.Then? {
      StaleReadCountsMonth(c, usage.past, tenantId, from, month);
      assert c.monthStart(usage.event.createdAt) <= usage.event.createdAt;
    }
  }

  /** The tokens recorded for a workspace in the month that starts at `month` or later. */
  function TokensFromMonth(c: Config, usage: History<Usage>, tenantId: nat, month: Millis): nat {
    if usage.Start? then 0
    else
      TokensFromMonth(c, usage.past, tenantId, month)
      + if usage.event.tenantId == tenantId && c.monthStart(usage.event.createdAt) >= month then usage.event.tokens else 0
  }

  /** The usage query counts whole months: nothing before the month of the given time, and
      everything from it on. */
  lemma {:induction false} ReadCountsMonths(c: Config, usage: History<Usage>, tenantId: nat, at: Millis)
    requires IsMonthStart(c.monthStart)
    ensures ConsumedSince(usage, tenantId, c.monthStart(at)) == TokensFromMonth(c, usage, tenantId, c.monthStart(at))
  {
    if usage.Then? {
      ReadCountsMonths(c, usage.past, tenantId, at);
      var t := usage.event.createdAt;
      assert c.monthStart(t) <= t && c.monthStart(at) <= at;
      if t >= c.monthStart(at) {
        MonthStartIsMonotone(c.monthStart, c.monthStart(at), t);
        assert c.monthStart(c.monthStart(at)) == c.monthStart(at);
      }
    }
  }

  /** While the month lasts, that is the tokens of this month alone. */
  lemma {:induction false} ReadIsOfThisMonth(c: Config, usage: History<Usage>, tenantId: nat, now: Millis)
    requires IsMonthStart(c.monthStart) && Dated(usage, now)
    ensures ConsumedSince(usage, tenantId, c.monthStart(now)) == TokensInMonth(c, usage, tenantId, c.monthStart(now))
  {
    ReadCountsMonths(c, usage, tenantId, now);
    FromMonthIsMonth(c, usage, tenantId, now);
  }

  lemma {:induction false} FromMonthIsMonth(c: Config, usage: History<Usage>, tenantId: nat, now: Millis)
    requires IsMonthStart(c.monthStart) && Dated(usage, now)
    ensures TokensFromMonth(c, usage, tenantId, c.monthStart(now)) == TokensInMonth(c, usage, tenantId, c.monthStart(now))
  {
    if usage.Then? {
      FromMonthIsMonth(c, usage.past, tenantId, now);
      MonthStartIsMonotone(c.monthStart, usage.event.createdAt, now);
    }
  }

  /** The most that an analysis of the run uses. */
  function MostOf(run: Run): nat {
    if run.Start? then 0
    else
      var most := MostOf(run.past);
      if run.event.step.Analyze? && run.event.step.result.Some? && run.event.step.result.value > most then run.event.step.result.value else most
  }

  lemma {:induction false} NoneUsesMore(run: Run)
    ensures ResultsWithin(run, MostOf(run))
  {
    if run.Then? {
      NoneUsesMore(run.past);
      StillWithin(run.past, MostOf(run.past), MostOf(run));
    }
  }

  lemma {:induction false} StillWithin(run: Run, most: nat, more: nat)
    requires ResultsWithin(run, most) && most <= more
    ensures ResultsWithin(run, more)
  {
    if run.Then? {
      StillWithin(run.past, most, more);
    }
  }

  /** A counted worker is refused by the budget exactly if the tokens recorded for its
      workspace, from the month on in which it was counted, reach the budget; and it is let
      through otherwise. */
  lemma RefusedByBudgetIff(c: Config, run: Run, w: WorkerId)
    requires IsRun(c, run) && run.Then? && run.event.step == ReadBudget(w)
    requires IsMonthStart(c.monthStart)
    ensures var before, after := Reached(c, run.past), Reached(c, run);
            && w in before.workers && w in after.workers && before.workers[w].Counted?
            && var Counted(job, settings, at) := before.workers[w];
               && job.tenantId in c.tenants
               && var tokens, budget := TokensFromMonth(c, before.db.usage, job.tenantId, c.monthStart(at)), c.tenants[job.tenantId].budget;
                  && (after.workers[w] == Failing(job, settings, false) <==> tokens >= budget)
                  && (after.workers[w] == Passed(job, settings) <==> tokens < budget)
                  && (c.monthStart(at) == c.monthStart(run.event.at) ==>
                        tokens == TokensInMonth(c, before.db.usage, job.tenantId, c.monthStart(at)))
  {
    var s, most := Reached(c, run.past), MostOf(run.past);
    NoneUsesMore(run.past);
    AlwaysSane(c, run.past, most);
    var Counted(job, settings, at) := s.workers[w];
    assert WorkerSane(c, s.workers[w], most, s.clock);
    ReadCountsMonths(c, s.db.usage, job.tenantId, at);
    DatedLater(s.db.usage, s.clock, run.event.at);
    FromMonthIsMonth(c, s.db.usage, job.tenantId, run.event.at);
    hide ConsumedSince, TokensFromMonth, TokensInMonth, IsMonthStart;
  }

  lemma BoundAtNewTime(c: Config, s: State, e: Event, tenantId: nat, budget: nat, most: nat)
    requires IsMonthStart(c.monthStart) && budget >= 1 && Sane(c, s, most) && s.clock <= e.at
    requires WithinBound(c, s, tenantId, budget, most, c.monthStart(s.clock))
    ensures WithinBound(c, s, tenantId, budget, most, c.monthStart(e.at))
  {
    MonthStartIsMonotone(c.monthStart, s.clock, e.at);
    hide AtMost;
    if c.monthStart(s.clock) < c.monthStart(e.at) {
      NothingInNewMonth(c, s.db.usage, tenantId, s.clock, c.monthStart(e.at));
      InFlightAreWorkers(c, s, tenantId);
      AtMostMonotone(most, |InFlightSet(s, tenantId)|, |c.workers|);
    }
  }

  lemma BoundKept(c: Config, s: State, e: Event, tenantId: nat, budget: nat, most: nat)
    requires IsMonthStart(c.monthStart) && Sane(c, s, most) && Enabled(c, s, e) && ResultWithin(e.step, most)
    requires tenantId in c.tenants && budget >= 1 && c.tenants[tenantId].budget == budget
    requires WithinBound(c, s, tenantId, budget, most, c.monthStart(s.clock))
    ensures WithinBound(c, Take(c, s, e), tenantId, budget, most, c.monthStart(e.at))
  {
    var after := Take(c, s, e);
    BoundAtNewTime(c, s, e, tenantId, budget, most);
    BudgetEffect(c, s, e);
    SaneKept(c, s, e, most);
    assert s.clock <= e.at;
    assert e.step.ReadBudget? || e.step.Complete? ==>
             e.step.w in s.workers ==> WorkerSane(c, s.workers[e.step.w], most, s.clock);
    hide Take, Enabled, AtMost;
    if LetsThrough(c, s, e, after) {
      BoundAfterPass(c, s, e, after, tenantId, budget, most);
    } else if Records(s, e, after) {
      BoundAfterRecord(c, s, e, after, tenantId, budget, most);
    } else {
      SubsetCardinality(InFlightSet(after, tenantId), InFlightSet(s, tenantId));
      AtMostMonotone(most, |InFlightSet(after, tenantId)|, |InFlightSet(s, tenantId)|);
    }
  }

  /** A call let through saw less than the budget recorded, the current month included. */
  lemma BoundAfterPass(c: Config, s: State, e: Event, after: State, tenantId: nat, budget: nat, most: nat)
    requires LetsThrough(c, s, e, after) && IsMonthStart(c.monthStart) && WorkerSane(c, s.workers[e.step.w], most, s.clock)
    requires tenantId in c.tenants && budget >= 1 && c.tenants[tenantId].budget == budget
    requires WithinBound(c, s, tenantId, budget, most, c.monthStart(e.at)) && s.clock <= e.at && Sane(c, after, most)
    ensures WithinBound(c, after, tenantId, budget, most, c.monthStart(e.at))
  {
    var worker := s.workers[e.step.w];
    hide AtMost;
    if worker.job.tenantId == tenantId {
      MonthStartIsMonotone(c.monthStart, worker.enforcedAt, e.at);
      StaleReadCountsMonth(c, s.db.usage, tenantId, c.monthStart(worker.enforcedAt), c.monthStart(e.at));
      InFlightAreWorkers(c, after, tenantId);
      AtMostMonotone(most, |InFlightSet(after, tenantId)|, |c.workers|);
    } else {
      assert InFlightSet(after, tenantId) == InFlightSet(s, tenantId);
    }
  }

  /** A call that records its tokens is no longer in flight. */
  lemma BoundAfterRecord(c: Config, s: State, e: Event, after: State, tenantId: nat, budget: nat, most: nat)
    requires Records(s, e, after) && WorkerSane(c, s.workers[e.step.w], most, s.clock)
    requires budget >= 1 && WithinBound(c, s, tenantId, budget, most, c.monthStart(e.at))
    ensures WithinBound(c, after, tenantId, budget, most, c.monthStart(e.at))
  {
    hide AtMost;
    if s.workers[e.step.w].job.tenantId == tenantId {
      assert InFlightSet(after, tenantId) == InFlightSet(s, tenantId) - {e.step.w};
      assert e.step.w in InFlightSet(s, tenantId);
      AtMostOneMore(|InFlightSet(after, tenantId)|, most);
    } else {
      assert InFlightSet(after, tenantId) == InFlightSet(s, tenantId);
    }
  }

  lemma {:induction false} CurrentMonthBounded(c: Config, run: Run, tenantId: nat, budget: nat, most: nat)
    requires IsRun(c, run) && IsMonthStart(c.monthStart) && ResultsWithin(run, most)
    requires tenantId in c.tenants && budget >= 1 && c.tenants[tenantId].budget == budget
    ensures WithinBound(c, Reached(c, run), tenantId, budget, most, c.monthStart(Reached(c, run).clock))
    decreases run
  {
    if run.Start? {
      assert InFlightSet(Initial(c), tenantId) == {};
      AtMostOneMore(0, most);
    } else {
      CurrentMonthBounded(c, run.past, tenantId, budget, most);
      AlwaysSane(c, run.past, most);
      BoundKept(c, Reached(c, run.past), run.event, tenantId, budget, most);
    }
  }

  /** Records fall into the month in which they are written, so other months stay. */
  lemma OtherMonthsStay(c: Config, s: State, e: Event, tenantId: nat, month: Millis)
    requires Enabled(c, s, e) && month != c.monthStart(e.at)
    ensures TokensInMonth(c, Take(c, s, e).db.usage, tenantId, month) == TokensInMonth(c, s.db.usage, tenantId, month)
  {
    BudgetEffect(c, s, e);
  }

  /** With C workers, at most M tokens for each analysis and a budget B, no month ever
      records more than B - 1 + C * M tokens for the workspace. */
  lemma {:induction false} OvershootBounded(c: Config, run: Run, tenantId: nat, budget: nat, most: nat, month: Millis)
    requires IsRun(c, run) && IsMonthStart(c.monthStart) && ResultsWithin(run, most)
    requires tenantId in c.tenants && budget >= 1 && c.tenants[tenantId].budget == budget
    ensures TokensInMonth(c, Reached(c, run).db.usage, tenantId, month) <= budget - 1 + |c.workers| * most
    decreases run
  {
    if run.Start? {
      AtMostMonotone(|c.workers|, 0, most);
    } else if month == c.monthStart(run.event.at) {
      CurrentMonthBounded(c, run, tenantId, budget, most);
      AtMostMonotone(most, 0, |InFlightSet(Reached(c, run), tenantId)|);
    } else {
      OvershootBounded(c, run.past, tenantId, budget, most, month);
      OtherMonthsStay(c, Reached(c, run.past), run.event, tenantId, month);
    }
  }
}
