/** Exponential backoff over whole runs of the connector client. */
module SendPacing {
  import opened Prelude
  import opened PromptStore
  import opened ConnectorQueue
  import opened CaptureDelivery

  /** The delays after the first `failures` failed attempts, before jitter. */
  function DelaySum(failures: nat): int {
    if failures == 0 then 0 else DelaySum(failures - 1) + Delay(failures)
  }

  lemma DelayIsPositive(attempts: nat)
    ensures Delay(attempts) >= 1_000
  {
  }

  /** The first twelve sends: doubling delays that the hour does not cap. */
  lemma {:induction false} DelaySumClosedForm(k: nat)
    requires 1 <= k <= 12
    ensures DelaySum(k - 1) == 1_000 * (Pow2(k) - 2)
  {
    if k > 1 {
      DelaySumClosedForm(k - 1);
      SmallPowers(k - 1);
    }
  }

  lemma {:induction false} SmallPowers(k: nat)
    requires k <= 11
    ensures Pow2(k) <= 2_048 && (k < 11 ==> Pow2(k) <= 1_024)
  {
    assert Pow2(1) == 2 && Pow2(2) == 4 && Pow2(3) == 8 && Pow2(4) == 16 && Pow2(5) == 32 && Pow2(6) == 64;
    assert Pow2(7) == 128 && Pow2(8) == 256 && Pow2(9) == 512 && Pow2(10) == 1_024 && Pow2(11) == 2_048;
  }

  lemma JitterKeepsFourFifths(delay: int, random: real)
    requires delay >= 0 && 0.0 <= random
    ensures Jittered(delay, random) >= 0.8 * delay as real
  {
    assert delay as real * (random * 0.4) >= 0.0;
    assert delay as real * (0.8 + random * 0.4) == delay as real * 0.8 + delay as real * (random * 0.4);
  }

  // ------------------------------------------------ not before its time

  /** The item is not due before the delays of its recorded failures have passed. */
  predicate PacedItem(item: Queued, since: map<ClientEventId, real>) {
    && item.prompt.clientEventId in since
    && item.nextAttemptAt >= since[item.prompt.clientEventId] + 0.8 * DelaySum(item.attempts) as real
  }

  predicate PacedQueue(queue: Queue, since: map<ClientEventId, real>) {
    forall i :: 0 <= i < |queue| ==> PacedItem(queue[i], since)
  }

  predicate Paced(s: State) {
    && PacedQueue(s.disk, s.since)
    && (s.flush.Some? ==>
          && PacedQueue(s.flush.value.rest, s.since) && PacedQueue(s.flush.value.retained, s.since)
          && (s.flush.value.sending && s.flush.value.rest != [] ==> s.flush.value.rest[0].nextAttemptAt <= s.clock))
  }

  lemma RetryIsPaced(item: Queued, now: real, random: real, since: map<ClientEventId, real>)
    requires PacedItem(item, since) && item.nextAttemptAt <= now && 0.0 <= random
    ensures PacedItem(Retry(item, now, random), since)
  {
    DelayIsPositive(item.attempts + 1);
    JitterKeepsFourFifths(Delay(item.attempts + 1), random);
  }

  lemma PacedMoves(rest: Queue, retained: Queue, item: Queued, since: map<ClientEventId, real>)
    requires PacedQueue(rest, since) && PacedQueue(retained, since) && rest != [] && PacedItem(item, since)
    ensures PacedQueue(rest[1..], since) && PacedQueue(retained + [item], since)
  {
  }

  lemma PacedAfterEnqueue(queue: Queue, prompt: Captured, now: real, since: map<ClientEventId, real>)
    requires PacedQueue(queue, since) && !ConnectorQueue.Holds(queue, prompt.clientEventId)
    ensures PacedQueue(queue + [Queued(prompt, 0, now)], since[prompt.clientEventId := now])
  {
  }

  lemma PacedWithout(queue: Queue, since: map<ClientEventId, real>, id: ClientEventId, now: real)
    requires PacedQueue(queue, since) && !ConnectorQueue.Holds(queue, id)
    ensures PacedQueue(queue, since[id := now])
  {
  }

  lemma PacedKept(installation: nat, s: State, e: Event)
    requires Paced(s) && Enabled(installation, s, e) && (e.step.Beside? ==> FromDisk(s, e.step.prompt.clientEventId))
    ensures Paced(Take(installation, s, e))
  {
    if IsServerStep(e.step) {
      ServerLeavesClient(installation, s, e);
      assert s.clock <= e.at && Take(installation, s, e).clock == e.at;
      hide Take, Enabled, PacedQueue;
      return;
    }
    match e.step {
      case Enqueue(prompt) =>
        if !ConnectorQueue.Holds(s.disk, prompt.clientEventId) { PacedAfterEnqueue(s.disk, prompt, e.at, s.since); }
      case Beside(prompt) =>
        if !ConnectorQueue.Holds(s.disk, prompt.clientEventId) {
          PacedAfterEnqueue(s.disk, prompt, e.at, s.since);
          PacedWithout(s.flush.value.rest, s.since, prompt.clientEventId, e.at);
          PacedWithout(s.flush.value.retained, s.since, prompt.clientEventId, e.at);
        }
        hide PacedQueue;
      case KeepHead =>
        assert PacedItem(s.flush.value.rest[0], s.since);
        PacedMoves(s.flush.value.rest, s.flush.value.retained, s.flush.value.rest[0], s.since);
      case EndSend(_, random) =>
        assert PacedItem(s.flush.value.rest[0], s.since);
        RetryIsPaced(s.flush.value.rest[0], e.at, random, s.since);
        PacedMoves(s.flush.value.rest, s.flush.value.retained, Retry(s.flush.value.rest[0], e.at, random), s.since);
      case _ =>
    }
    hide PacedItem, Ingest;
  }

  lemma {:induction false} AlwaysPaced(installation: nat, run: Run)
    requires IsRun(installation, run)
    ensures Paced(Reached(installation, run))
    decreases run
  {
    if run.Then? {
      AlwaysPaced(installation, run.past);
      if run.event.step.Beside? { FateIsMet(installation, run.past, run.event.step.prompt.clientEventId); }
      PacedKept(installation, Reached(installation, run.past), run.event);
    }
  }

  /** No send comes earlier after enqueueing than four fifths of the delays of the failures
      that the client has on record, whatever the flush schedule, jitter and crashes. */
  lemma SendNotBefore(installation: nat, run: Run)
    requires IsRun(installation, run) && run.Then? && run.event.step.StartSend?
    ensures var s := Reached(installation, run.past);
            var item := s.flush.value.rest[0];
            && item.prompt.clientEventId in s.since
            && run.event.at >= s.since[item.prompt.clientEventId] + 0.8 * DelaySum(item.attempts) as real
  {
    AlwaysPaced(installation, run.past);
    assert PacedItem(Reached(installation, run.past).flush.value.rest[0], Reached(installation, run.past).since);
  }

  // ------------------------------------------------- the k-th send of an event

  function CopiesOf(queue: Queue, id: ClientEventId): nat {
    if queue == [] then 0 else CopiesOf(queue[1..], id) + if queue[0].prompt.clientEventId == id then 1 else 0
  }

  predicate AttemptsAre(queue: Queue, id: ClientEventId, n: int) {
    forall i :: 0 <= i < |queue| && queue[i].prompt.clientEventId == id ==> queue[i].attempts == n
  }

  lemma {:induction false} CopiesAppend(queue: Queue, item: Queued, id: ClientEventId)
    ensures CopiesOf(queue + [item], id) == CopiesOf(queue, id) + if item.prompt.clientEventId == id then 1 else 0
  {
    if queue == [] {
      assert queue + [item] == [item];
      assert [item][1..] == [];
    } else {
      CopiesAppend(queue[1..], item, id);
      assert (queue + [item])[1..] == queue[1..] + [item];
    }
  }

  lemma {:induction false} NoCopiesIfNotHeld(queue: Queue, id: ClientEventId)
    ensures CopiesOf(queue, id) == 0 <==> !ConnectorQueue.Holds(queue, id)
    ensures CopiesOf(queue, id) == 0 ==> forall n: int :: AttemptsAre(queue, id, n)
  {
    if queue != [] {
      NoCopiesIfNotHeld(queue[1..], id);
      HeadAndTail(queue, id);
      assert forall i :: 0 < i < |queue| ==> queue[i] == queue[1..][i - 1];
    }
  }

  /** The sends that the client's memory has on record, those of this flush included. */
  function Recorded(s: State, id: ClientEventId): int {
    SendsOf(s, id) - LostOf(s, id)
  }

  /** There is one copy of an event on disk and at most one in a flush, and its recorded
      failures are the sends before the current one, but for those that a crash erased. The
      disk has not heard of the sends of the flush under way. */
  predicate CountsSends(s: State, id: ClientEventId) {
    && Recorded(s, id) >= CountOf(s.sendsNow, id)
    && CopiesOf(s.disk, id) <= 1 && AttemptsAre(s.disk, id, Recorded(s, id) - CountOf(s.sendsNow, id))
    && match s.flush
       case None => CountOf(s.sendsNow, id) == 0
       case Some(f) => FlushCounts(f, id, Recorded(s, id))
  }

  predicate FlushCounts(f: Flush, id: ClientEventId, n: int) {
    && CopiesOf(f.rest, id) + CopiesOf(f.retained, id) <= 1
    && AttemptsAre(f.retained, id, n)
    && (if f.sending && f.rest != [] && f.rest[0].prompt.clientEventId == id then f.rest[0].attempts + 1 == n
        else AttemptsAre(f.rest, id, n))
  }

  lemma CountsKept(installation: nat, s: State, e: Event, id: ClientEventId)
    requires Enabled(installation, s, e) && CountsSends(s, id) && FromDisk(s, id)
    ensures CountsSends(Take(installation, s, e), id)
  {
    match e.step {
      case Enqueue(prompt) => CountsAfterEnqueue(installation, s, e, id);
      case Beside(prompt) => CountsAfterEnqueue(installation, s, e, id);
      case KeepHead => CountsAfterHead(installation, s, e, id);
      case StartSend => CountsAfterStart(installation, s, e, id);
      case EndSend(_, _) => CountsAfterHead(installation, s, e, id);
      case BeginFlush => CountsAfterBegin(installation, s, e, id);
      case Save => CountsAfterSave(installation, s, e, id);
      case Crash => CountsAfterCrash(installation, s, e, id);
      case _ => CountsAfterServer(installation, s, e, id);
    }
    hide Take, Enabled, CountsSends;
  }

  lemma CountsAfterServer(installation: nat, s: State, e: Event, id: ClientEventId)
    requires Enabled(installation, s, e) && CountsSends(s, id) && IsServerStep(e.step)
    ensures CountsSends(Take(installation, s, e), id)
  {
    ServerLeavesClient(installation, s, e);
    hide Take, Enabled, AttemptsAre, CopiesOf;
  }

  /** The record of a flush is that of the disk when it begins, becomes that of the disk when
      it is saved, and is gone with a crash. */
  lemma CountsAfterBegin(installation: nat, s: State, e: Event, id: ClientEventId)
    requires Enabled(installation, s, e) && CountsSends(s, id) && e.step.BeginFlush?
    ensures CountsSends(Take(installation, s, e), id)
  {
    NothingCounted(id);
    hide AttemptsAre, CopiesOf;
  }

  lemma CountsAfterSave(installation: nat, s: State, e: Event, id: ClientEventId)
    requires Enabled(installation, s, e) && CountsSends(s, id) && e.step.Save?
    ensures CountsSends(Take(installation, s, e), id)
  {
    NothingCounted(id);
    hide AttemptsAre, CopiesOf;
  }

  lemma CountsAfterCrash(installation: nat, s: State, e: Event, id: ClientEventId)
    requires Enabled(installation, s, e) && CountsSends(s, id) && e.step.Crash?
    ensures CountsSends(Take(installation, s, e), id)
  {
    SumCounts(s.lost, s.sendsNow, id);
    hide AttemptsAre, CopiesOf, Sum;
  }

  lemma SumCounts(a: map<ClientEventId, nat>, b: map<ClientEventId, nat>, id: ClientEventId)
    ensures CountOf(Sum(a, b), id) == CountOf(a, id) + CountOf(b, id)
  {
  }

  lemma NothingCounted(id: ClientEventId)
    ensures CopiesOf([], id) == 0 && forall n: int :: AttemptsAre([], id, n)
  {
  }

  lemma CountsAfterEnqueue(installation: nat, s: State, e: Event, id: ClientEventId)
    requires Enabled(installation, s, e) && CountsSends(s, id) && FromDisk(s, id) && (e.step.Enqueue? || e.step.Beside?)
    ensures CountsSends(Take(installation, s, e), id)
  {
    CountsWithEvent(s, e.step.prompt, e.at, id);
    var after := WithEvent(s, e.step.prompt, e.at);
    assert Take(installation, s, e) == after.(clock := e.at);
    hide Take, Enabled, WithEvent, CopiesOf, AttemptsAre, FlushCounts;
  }

  lemma CountsWithEvent(s: State, prompt: Captured, at: real, id: ClientEventId)
    requires CountsSends(s, id) && FromDisk(s, id)
    ensures CountsSends(WithEvent(s, prompt, at), id)
  {
    if !ConnectorQueue.Holds(s.disk, prompt.clientEventId) {
      CopiesAppend(s.disk, Queued(prompt, 0, at), id);
      if prompt.clientEventId == id {
        NoCopiesIfNotHeld(s.disk, id);
        if s.flush.Some? { NewcomerCounts(s.flush.value, id); }
      }
      hide CopiesOf, ConnectorQueue.Holds, FlushCounts, FromDisk;
      NewcomerAttempts(s.disk, Queued(prompt, 0, at), id);
    }
  }

  lemma NewcomerAttempts(queue: Queue, item: Queued, id: ClientEventId)
    ensures forall n: int :: AttemptsAre(queue, id, n) && (item.prompt.clientEventId == id ==> item.attempts == n)
                             ==> AttemptsAre(queue + [item], id, n)
  {
  }

  /** A flush that does not hold the event counts any number of its sends. */
  lemma NewcomerCounts(f: Flush, id: ClientEventId)
    requires !ConnectorQueue.Holds(f.rest, id) && !ConnectorQueue.Holds(f.retained, id)
    ensures forall n: int :: FlushCounts(f, id, n)
  {
    NoCopiesIfNotHeld(f.rest, id);
    NoCopiesIfNotHeld(f.retained, id);
    assert f.rest != [] && f.rest[0].prompt.clientEventId == id ==> ConnectorQueue.Holds(f.rest, id);
  }

  /** Steps that pass or finish with the head of the rest. */
  lemma CountsAfterHead(installation: nat, s: State, e: Event, id: ClientEventId)
    requires Enabled(installation, s, e) && CountsSends(s, id) && (e.step.KeepHead? || e.step.EndSend?)
    ensures CountsSends(Take(installation, s, e), id)
  {
    var f := s.flush.value;
    FlushAfterHead(f, if e.step.EndSend? then Retry(f.rest[0], e.at, e.step.random) else f.rest[0], id, Recorded(s, id));
    hide FlushCounts, CopiesOf, AttemptsAre;
  }

  lemma CountsAfterStart(installation: nat, s: State, e: Event, id: ClientEventId)
    requires Enabled(installation, s, e) && CountsSends(s, id) && e.step.StartSend?
    ensures CountsSends(Take(installation, s, e), id)
  {
    FlushAfterStart(s.flush.value, id, Recorded(s, id));
    hide FlushCounts, CopiesOf, AttemptsAre;
  }

  /** The head goes, or is kept with as many failures as sends. */
  lemma FlushAfterHead(f: Flush, item: Queued, id: ClientEventId, n: int)
    requires FlushCounts(f, id, n) && f.rest != [] && item.prompt == f.rest[0].prompt
    requires item.attempts == f.rest[0].attempts + if f.sending then 1 else 0
    ensures FlushCounts(Flush(f.rest[1..], f.retained + [item], false, false), id, n)
    ensures FlushCounts(Flush(f.rest[1..], f.retained, false, false), id, n)
  {
    HeadMoves(f, item, id);
    assert f.rest[0].prompt.clientEventId == id && !f.sending ==> f.rest[0].attempts == n;
    AttemptsAppend(f.retained, item, id, n);
    CopiesAppend(f.retained, item, id);
    hide CopiesOf, AttemptsAre;
  }

  lemma FlushAfterStart(f: Flush, id: ClientEventId, n: int)
    requires FlushCounts(f, id, n) && f.rest != [] && !f.sending
    ensures FlushCounts(f.(sending := true, accepted := false), id, if f.rest[0].prompt.clientEventId == id then n + 1 else n)
  {
    HeadMoves(f, f.rest[0], id);
    assert f.rest[0].prompt.clientEventId == id ==> f.rest[0].attempts == n;
    hide CopiesOf, AttemptsAre;
  }

  lemma AttemptsAppend(queue: Queue, item: Queued, id: ClientEventId, n: int)
    requires AttemptsAre(queue, id, n) && (item.prompt.clientEventId == id ==> item.attempts == n)
    ensures AttemptsAre(queue + [item], id, n)
  {
  }

  /** How copies move from the rest to what is kept; an event at the head is nowhere else. */
  lemma HeadMoves(f: Flush, item: Queued, id: ClientEventId)
    requires f.rest != [] && item.prompt == f.rest[0].prompt && CopiesOf(f.rest, id) + CopiesOf(f.retained, id) <= 1
    ensures CopiesOf(f.retained + [item], id) + CopiesOf(f.rest[1..], id) == CopiesOf(f.rest, id) + CopiesOf(f.retained, id)
    ensures forall n: int :: AttemptsAre(f.rest, id, n) ==> AttemptsAre(f.rest[1..], id, n)
    ensures f.rest[0].prompt.clientEventId == id ==>
              forall n: int :: AttemptsAre(f.rest[1..], id, n) && AttemptsAre(f.retained, id, n)
  {
    CopiesAppend(f.retained, item, id);
    NoCopiesIfNotHeld(f.rest[1..], id);
    NoCopiesIfNotHeld(f.retained, id);
  }

  lemma {:induction false} AlwaysCounts(installation: nat, run: Run, id: ClientEventId)
    requires IsRun(installation, run)
    ensures CountsSends(Reached(installation, run), id)
    decreases run
  {
    if run.Then? {
      AlwaysCounts(installation, run.past, id);
      FateIsMet(installation, run.past, id);
      CountsKept(installation, Reached(installation, run.past), run.event, id);
    }
  }

  /** The k-th send of an event comes at the earliest four fifths of the first k - 1 delays
      after it was enqueued, less one delay for each send that a crash erased from the
      record: the client has all earlier sends on record exactly if none was erased. */
  lemma KthSendNotBefore(installation: nat, run: Run)
    requires IsRun(installation, run) && run.Then? && run.event.step.StartSend?
    ensures var s := Reached(installation, run);
            var item := s.flush.value.rest[0];
            var id := item.prompt.clientEventId;
            var k, lost := SendsOf(s, id), LostOf(s, id);
            && id in s.since
            && item.attempts == k - 1 - lost
            && run.event.at >= s.since[id] + 0.8 * DelaySum(k - 1 - lost) as real
            && (k - lost <= 12 ==> run.event.at >= s.since[id] + 800.0 * (Pow2(k - lost) - 2) as real)
  {
    SendNotBefore(installation, run);
    var s := Reached(installation, run);
    var id := s.flush.value.rest[0].prompt.clientEventId;
    AlwaysCounts(installation, run, id);
    var n := Recorded(s, id);
    if n <= 12 { DelaySumClosedForm(n); }
  }

  // ------------------------------------------------------ the bound is exact

  /** One event on disk with `n` failures on record and `lost` sends erased, due at `t`. */
  predicate IsQuiet(s: State, prompt: Captured, n: nat, lost: nat, t: real) {
    var id := prompt.clientEventId;
    && s.flush.None? && s.disk == [Queued(prompt, n, t)] && s.clock <= t
    && id in s.since && s.since[id] == 0.0
    && SendsOf(s, id) == n + lost && LostOf(s, id) == lost && CountOf(s.sendsNow, id) == 0
  }

  /** It is being sent. */
  predicate IsSending(s: State, prompt: Captured, n: nat, lost: nat, t: real) {
    var id, item := prompt.clientEventId, Queued(prompt, n, t);
    && s.flush == Some(Flush([item], [], true, false)) && s.disk == [item] && s.clock == t
    && id in s.since && s.since[id] == 0.0
    && SendsOf(s, id) == n + lost + 1 && LostOf(s, id) == lost && CountOf(s.sendsNow, id) == 1
  }

  lemma SendAtOnce(installation: nat, run: Run, prompt: Captured, n: nat, lost: nat, t: real) returns (longer: Run)
    requires IsRun(installation, run) && IsQuiet(Reached(installation, run), prompt, n, lost, t)
    ensures IsRun(installation, longer) && IsSending(Reached(installation, longer), prompt, n, lost, t)
    ensures longer.Then? && longer.event == Event(t, StartSend)
  {
    var begun := Then(run, Event(t, BeginFlush));
    var item := Queued(prompt, n, t);
    assert Reached(installation, begun) == Reached(installation, run).(flush := Some(Flush([item], [], false, false)), clock := t);
    longer := Then(begun, Event(t, StartSend));
  }

  /** A crash erases the send. */
  lemma CrashErases(installation: nat, run: Run, prompt: Captured, n: nat, lost: nat, t: real) returns (longer: Run)
    requires IsRun(installation, run) && IsSending(Reached(installation, run), prompt, n, lost, t)
    ensures IsRun(installation, longer) && IsQuiet(Reached(installation, longer), prompt, n, lost + 1, t)
  {
    longer := Then(run, Event(t, Crash));
    var s := Reached(installation, run);
    SumCounts(s.lost, s.sendsNow, prompt.clientEventId);
    assert Reached(installation, longer) == s.(flush := None, lost := Sum(s.lost, s.sendsNow), sendsNow := map[], clock := t);
    hide Sum;
  }

  /** When the next attempt is due at the earliest. */
  function SoonestDue(item: Queued): real {
    item.nextAttemptAt + 0.8 * Delay(item.attempts + 1) as real
  }

  /** A failure counts, with the shortest delay that the jitter allows. */
  lemma FailureCounts(installation: nat, run: Run, item: Queued, lost: nat) returns (longer: Run)
    requires IsRun(installation, run) && IsSending(Reached(installation, run), item.prompt, item.attempts, lost, item.nextAttemptAt)
    ensures IsRun(installation, longer)
    ensures IsQuiet(Reached(installation, longer), item.prompt, item.attempts + 1, lost, SoonestDue(item))
  {
    ShortestRetry(item, item.nextAttemptAt);
    longer := FailAndSave(installation, run, item);
    QuietOnceSaved(Reached(installation, run), Reached(installation, longer), item, lost, SoonestDue(item));
    hide *;
  }

  lemma FailAndSave(installation: nat, run: Run, item: Queued) returns (longer: Run)
    requires IsRun(installation, run) && Reached(installation, run).flush == Some(Flush([item], [], true, false))
    ensures var s := Reached(installation, run);
            && IsRun(installation, longer)
            && Reached(installation, longer) == s.(disk := [Retry(item, s.clock, 0.0)], flush := None, sendsNow := map[])
  {
    var t := Reached(installation, run).clock;
    longer := SendFails(installation, run, item);
    longer := SaveRetained(installation, longer, [Retry(item, t, 0.0)], t);
    hide *;
  }

  lemma QuietOnceSaved(s: State, after: State, item: Queued, lost: nat, due: real)
    requires IsSending(s, item.prompt, item.attempts, lost, item.nextAttemptAt) && item.nextAttemptAt <= due
    requires after == s.(flush := None, disk := [Queued(item.prompt, item.attempts + 1, due)], sendsNow := map[])
    ensures IsQuiet(after, item.prompt, item.attempts + 1, lost, due)
  {
  }

  lemma SendFails(installation: nat, run: Run, item: Queued) returns (longer: Run)
    requires IsRun(installation, run) && Reached(installation, run).flush == Some(Flush([item], [], true, false))
    ensures var s := Reached(installation, run);
            && IsRun(installation, longer)
            && Reached(installation, longer) == s.(flush := Some(Flush([], [Retry(item, s.clock, 0.0)], false, false)))
  {
    var s := Reached(installation, run);
    longer := Then(run, Event(s.clock, EndSend(false, 0.0)));
    hide Retry;
    assert [item][1..] == [] && [] + [Retry(item, s.clock, 0.0)] == [Retry(item, s.clock, 0.0)];
  }

  lemma SaveRetained(installation: nat, run: Run, retained: Queue, t: real) returns (longer: Run)
    requires IsRun(installation, run) && Reached(installation, run).flush == Some(Flush([], retained, false, false))
    requires Reached(installation, run).clock == t
    ensures IsRun(installation, longer)
    ensures Reached(installation, longer) == Reached(installation, run).(disk := retained, flush := None, sendsNow := map[])
  {
    longer := Then(run, Event(t, Save));
  }

  lemma ShortestRetry(item: Queued, t: real)
    requires t == item.nextAttemptAt
    ensures Retry(item, t, 0.0) == Queued(item.prompt, item.attempts + 1, SoonestDue(item)) && SoonestDue(item) >= t
  {
    var delay := Delay(item.attempts + 1);
    DelayIsPositive(item.attempts + 1);
    assert delay as real * (0.8 + 0.0 * 0.4) == 0.8 * delay as real;
  }

  /** First the crashes, then the failures. */
  lemma {:induction false} QuietAfter(installation: nat, prompt: Captured, n: nat, lost: nat) returns (run: Run)
    ensures IsRun(installation, run) && IsQuiet(Reached(installation, run), prompt, n, lost, 0.8 * DelaySum(n) as real)
    decreases n + lost
  {
    hide IsQuiet, IsSending, Delay, Reached, IsRun;
    if n > 0 {
      var t := 0.8 * DelaySum(n - 1) as real;
      run := QuietAfter(installation, prompt, n - 1, lost);
      run := SendAtOnce(installation, run, prompt, n - 1, lost, t);
      run := FailureCounts(installation, run, Queued(prompt, n - 1, t), lost);
      assert SoonestDue(Queued(prompt, n - 1, t)) == 0.8 * DelaySum(n) as real;
    } else if lost > 0 {
      run := QuietAfter(installation, prompt, 0, lost - 1);
      run := SendAtOnce(installation, run, prompt, 0, lost - 1, 0.0);
      run := CrashErases(installation, run, prompt, 0, lost - 1, 0.0);
    } else {
      run := QuietAtFirst(installation, prompt);
    }
  }

  lemma QuietAtFirst(installation: nat, prompt: Captured) returns (run: Run)
    ensures IsRun(installation, run) && IsQuiet(Reached(installation, run), prompt, 0, 0, 0.0)
  {
    run := Then(Start, Event(0.0, Enqueue(prompt)));
    assert Enqueued([], prompt, 0.0) == [Queued(prompt, 0, 0.0)];
  }

  /** The bound of the k-th send with some sends erased is met exactly: each erased send does
      cost its delay. */
  lemma BoundIsTight(installation: nat, prompt: Captured, k: nat, lost: nat) returns (run: Run)
    requires lost < k
    ensures IsRun(installation, run) && run.Then? && run.event.step.StartSend?
    ensures var s, id := Reached(installation, run), prompt.clientEventId;
            && s.flush.Some? && s.flush.value.rest != [] && s.flush.value.rest[0].prompt == prompt
            && SendsOf(s, id) == k && LostOf(s, id) == lost && id in s.since
            && run.event.at == s.since[id] + 0.8 * DelaySum(k - 1 - lost) as real
  {
    var n := k - 1 - lost;
    run := QuietAfter(installation, prompt, n, lost);
    hide IsRun, Reached, IsQuiet, DelaySum;
    run := SendAtOnce(installation, run, prompt, n, lost, 0.8 * DelaySum(n) as real);
  }

  /** The bound with no allowance for erased sends, over all sends with `lost` of them. */
  ghost predicate FullBoundHolds(installation: nat, lost: nat) {
    forall run :: IsRun(installation, run) && run.Then? && run.event.step.StartSend? ==> MeetsFullBound(installation, run, lost)
  }

  ghost predicate MeetsFullBound(installation: nat, run: Run, lost: nat)
    requires IsRun(installation, run) && run.Then? && run.event.step.StartSend?
  {
    var s := Reached(installation, run);
    && s.flush.Some? && s.flush.value.rest != []
    && var id := s.flush.value.rest[0].prompt.clientEventId;
       LostOf(s, id) == lost ==>
         SendsOf(s, id) >= 1 && id in s.since && run.event.at >= s.since[id] + 0.8 * DelaySum(SendsOf(s, id) - 1) as real
  }

  /** It holds exactly when no send was erased. */
  lemma FullBoundIff(installation: nat, lost: nat)
    ensures FullBoundHolds(installation, lost) <==> lost == 0
  {
    if lost == 0 {
      forall run | IsRun(installation, run) && run.Then? && run.event.step.StartSend? ensures MeetsFullBound(installation, run, lost) {
        KthSendNotBefore(installation, run);
      }
    } else {
      var prompt := PromptStore.Input(0, 0, "", "", "", 0, "", []);
      var run := BoundIsTight(installation, prompt, lost + 1, lost);
      DelaySumIsPositive(lost);
      assert !MeetsFullBound(installation, run, lost);
    }
  }

  lemma DelaySumIsPositive(n: nat)
    ensures DelaySum(n) >= n && DelaySum(0) == 0
  {
    if n > 0 {
      DelayIsPositive(n);
      DelaySumIsPositive(n - 1);
    }
  }
}
