/** The queue file in the hands of several processes. Every capture runs in a process of its
    own, which enqueues and then flushes; each load and each save of the file is exclusive,
    but what a process saves rests on what it loaded. */
module SharedQueue {
  import opened Prelude
  import opened ConnectorQueue

  type ProcessId = nat

  /** What a process that has loaded the file works on. */
  datatype Process = Enqueuing(loaded: Queue, prompt: Captured) | Flushing(rest: Queue, retained: Queue)

  datatype State = State(disk: Queue, processes: map<ProcessId, Process>, stored: set<ClientEventId>)

  datatype Step =
    | LoadToEnqueue(p: ProcessId, prompt: Captured)
    | SaveEnqueued(p: ProcessId, now: real)
    | LoadToFlush(p: ProcessId)
    | TakeTurn(p: ProcessId, turn: Turn, accepted: bool)
    | SaveRetained(p: ProcessId)
    | Stop(p: ProcessId)

  predicate Enabled(s: State, step: Step) {
    match step
    case LoadToEnqueue(p, _) => p !in s.processes
    case SaveEnqueued(p, _) => p in s.processes && s.processes[p].Enqueuing?
    case LoadToFlush(p) => p !in s.processes
    case TakeTurn(p, turn, accepted) =>
      p in s.processes && s.processes[p].Flushing? && s.processes[p].rest != [] && (turn.delivered ==> accepted)
    case SaveRetained(p) => p in s.processes && s.processes[p].Flushing? && s.processes[p].rest == []
    case Stop(p) => p in s.processes
  }

  predicate IsSent(item: Queued, turn: Turn) {
    item.nextAttemptAt <= turn.checkedAt
  }

  /** The service may accept an event whose send fails for the process. */
  function Take(s: State, step: Step): State
    requires Enabled(s, step)
  {
    match step
    case LoadToEnqueue(p, prompt) => s.(processes := s.processes[p := Enqueuing(s.disk, prompt)])
    case SaveEnqueued(p, now) => s.(disk := Enqueued(s.processes[p].loaded, s.processes[p].prompt, now), processes := s.processes - {p})
    case LoadToFlush(p) => s.(processes := s.processes[p := Flushing(s.disk, [])])
    case TakeTurn(p, turn, accepted) =>
      var item := s.processes[p].rest[0];
      s.(processes := s.processes[p := Flushing(s.processes[p].rest[1..], s.processes[p].retained + AfterTurn(item, turn))],
         stored := if IsSent(item, turn) && accepted then s.stored + {item.prompt.clientEventId} else s.stored)
    case SaveRetained(p) => s.(disk := s.processes[p].retained, processes := s.processes - {p})
    case Stop(p) => s.(processes := s.processes - {p})
  }

  type Run = History<Step>

  predicate IsRun(run: Run)
    decreases run, 0
  {
    run.Then? ==> IsRun(run.past) && Enabled(Reached(run.past), run.event)
  }

  function Reached(run: Run): State
    requires IsRun(run)
    decreases run, 1
  {
    if run.Start? then State([], map[], {}) else Take(Reached(run.past), run.event)
  }

  // ------------------------------------------------------- when events are lost

  /** The process has loaded the event and not delivered it. */
  predicate Carries(process: Process, id: ClientEventId) {
    match process
    case Enqueuing(loaded, _) => Holds(loaded, id)
    case Flushing(rest, retained) => Holds(rest, id) || Holds(retained, id)
  }

  predicate CarriedBeside(s: State, p: ProcessId, id: ClientEventId) {
    exists q | q in s.processes :: q != p && Carries(s.processes[q], id)
  }

  /** The event is on disk, stored, or in the hands of a process. */
  predicate Alive(s: State, id: ClientEventId) {
    Holds(s.disk, id) || id in s.stored || exists q | q in s.processes :: Carries(s.processes[q], id)
  }

  predicate IsSave(step: Step) {
    step.SaveEnqueued? || step.SaveRetained?
  }

  /** The process saves a queue without the event, or stops with it, and nobody else has it. */
  predicate Drops(s: State, step: Step, id: ClientEventId)
    requires Enabled(s, step)
  {
    && id !in s.stored
    && ((IsSave(step) && !Holds(Take(s, step).disk, id)) || (step.Stop? && !Holds(s.disk, id)))
    && !CarriedBeside(s, step.p, id)
  }

  lemma ElementsOf(a: Queue, b: Queue, id: ClientEventId)
    ensures Holds(a + b, id) <==> Holds(a, id) || Holds(b, id)
  {
    HoldsConcat(a, b, id);
  }

  /** A turn delivers the event or keeps it with the process. */
  lemma TurnKeeps(s: State, step: Step, id: ClientEventId)
    requires Enabled(s, step) && step.TakeTurn?
    ensures var before, after := s.processes[step.p], Take(s, step).processes[step.p];
            && (Carries(before, id) ==> Carries(after, id) || id in Take(s, step).stored)
            && (Carries(after, id) ==> Carries(before, id))
            && (id in Take(s, step).stored ==> id in s.stored || Carries(before, id))
  {
    var f := s.processes[step.p];
    var kept := AfterTurn(f.rest[0], step.turn);
    assert f.rest == [f.rest[0]] + f.rest[1..];
    HoldsConcat([f.rest[0]], f.rest[1..], id);
    HoldsConcat(f.retained, kept, id);
    OneItem(f.rest[0], id);
    if kept != [] { OneItem(kept[0], id); }
    hide Holds;
  }

  lemma OneItem(item: Queued, id: ClientEventId)
    ensures Holds([item], id) <==> item.prompt.clientEventId == id
  {
    assert [item][0] == item;
  }

  /** Carriers other than the acting process stay as they are. */
  lemma OthersStay(s: State, step: Step, id: ClientEventId)
    requires Enabled(s, step)
    ensures CarriedBeside(Take(s, step), step.p, id) <==> CarriedBeside(s, step.p, id)
  {
    var after := Take(s, step);
    if q :| q in s.processes && q != step.p && Carries(s.processes[q], id) {
      assert q in after.processes && after.processes[q] == s.processes[q];
    }
    if q :| q in after.processes && q != step.p && Carries(after.processes[q], id) {
      assert q in s.processes && after.processes[q] == s.processes[q];
    }
  }

  lemma AliveSplit(s: State, p: ProcessId, id: ClientEventId)
    ensures Alive(s, id) <==>
              Holds(s.disk, id) || id in s.stored || CarriedBeside(s, p, id) || (p in s.processes && Carries(s.processes[p], id))
  {
  }

  /** A step loses an event that was alive exactly if it drops it so. */
  lemma LosesIff(s: State, step: Step, id: ClientEventId)
    requires Enabled(s, step) && Alive(s, id)
    ensures !Alive(Take(s, step), id) <==> Drops(s, step, id)
  {
    AliveSplit(s, step.p, id);
    AliveSplit(Take(s, step), step.p, id);
    OthersStay(s, step, id);
    if step.TakeTurn? { TurnKeeps(s, step, id); }
    hide Alive, CarriedBeside, Holds, AfterTurn, Enqueued;
  }

  ghost predicate NeverDrops(run: Run, id: ClientEventId)
    requires IsRun(run)
  {
    run.Then? ==> NeverDrops(run.past, id) && !(Alive(Reached(run.past), id) && Drops(Reached(run.past), run.event, id))
  }

  /** Once the event is alive it stays alive throughout the run. */
  ghost predicate StaysAlive(run: Run, id: ClientEventId)
    requires IsRun(run)
  {
    run.Then? ==> StaysAlive(run.past, id) && (Alive(Reached(run.past), id) ==> Alive(Reached(run), id))
  }

  /** Whatever processes interleave, an event survives a run exactly if no process saves a
      queue without it, or stops, while it is neither stored nor with another process. */
  lemma {:induction false} SurvivesIff(run: Run, id: ClientEventId)
    requires IsRun(run)
    ensures StaysAlive(run, id) <==> NeverDrops(run, id)
  {
    if run.Then? {
      SurvivesIff(run.past, id);
      if Alive(Reached(run.past), id) { LosesIff(Reached(run.past), run.event, id); }
      hide Alive, Drops, Take;
    }
  }

  /** What is lost stays lost until it is enqueued again. */
  lemma LostUntilEnqueued(s: State, step: Step, id: ClientEventId)
    requires Enabled(s, step) && !Alive(s, id) && Alive(Take(s, step), id)
    ensures step.SaveEnqueued? && s.processes[step.p].prompt.clientEventId == id
  {
    AliveSplit(s, step.p, id);
    AliveSplit(Take(s, step), step.p, id);
    OthersStay(s, step, id);
    HoldsNone(id);
    if step.TakeTurn? { TurnKeeps(s, step, id); }
    if step.SaveEnqueued? {
      var process := s.processes[step.p];
      HoldsConcat(process.loaded, [Queued(process.prompt, 0, step.now)], id);
      OneItem(Queued(process.prompt, 0, step.now), id);
    }
    hide Alive, CarriedBeside, Holds, AfterTurn;
  }

  lemma HoldsNone(id: ClientEventId)
    ensures !Holds([], id)
  {
  }

  // --------------------------------------------------------- one process at a time

  /** A process loads the file only when no other one is between its load and its save. */
  ghost predicate OneAtATime(run: Run)
    requires IsRun(run)
  {
    run.Then? ==> OneAtATime(run.past) && (run.event.LoadToEnqueue? || run.event.LoadToFlush? ==> Reached(run.past).processes == map[])
  }

  /** The one process has in hand what is on disk, but for what it delivered, and no more. */
  predicate Alone(s: State, p: ProcessId, id: ClientEventId) {
    && s.processes.Keys == {p}
    && (Holds(s.disk, id) ==> Carries(s.processes[p], id) || id in s.stored)
    && (Carries(s.processes[p], id) ==> Holds(s.disk, id))
  }

  predicate Exclusive(s: State, id: ClientEventId) {
    s.processes == map[] || exists p | p in s.processes :: Alone(s, p, id)
  }

  lemma ExclusiveKept(s: State, step: Step, id: ClientEventId)
    requires Enabled(s, step) && Exclusive(s, id)
    requires step.LoadToEnqueue? || step.LoadToFlush? ==> s.processes == map[]
    ensures Exclusive(Take(s, step), id)
    ensures Alive(s, id) ==> !Drops(s, step, id)
  {
    HoldsNone(id);
    var after := Take(s, step);
    if step.LoadToEnqueue? || step.LoadToFlush? {
      assert after.processes.Keys == {step.p};
      assert Alone(after, step.p, id);
    } else {
      assert Alone(s, step.p, id);
      if step.TakeTurn? {
        TurnKeeps(s, step, id);
        assert Alone(after, step.p, id);
      } else {
        assert after.processes == map[];
        SaveKeeps(s, step, id);
      }
    }
  }

  lemma SaveKeeps(s: State, step: Step, id: ClientEventId)
    requires Enabled(s, step) && Alone(s, step.p, id) && (IsSave(step) || step.Stop?)
    ensures Alive(s, id) ==> !Drops(s, step, id)
  {
    HoldsNone(id);
    if step.SaveEnqueued? {
      HoldsConcat(s.processes[step.p].loaded, [Queued(s.processes[step.p].prompt, 0, step.now)], id);
    }
    AliveSplit(s, step.p, id);
    hide Holds, Alive;
  }

  lemma {:induction false} AlwaysExclusive(run: Run, id: ClientEventId)
    requires IsRun(run) && OneAtATime(run)
    ensures Exclusive(Reached(run), id) && NeverDrops(run, id)
  {
    if run.Then? {
      AlwaysExclusive(run.past, id);
      ExclusiveKept(Reached(run.past), run.event, id);
      hide Exclusive, Alive, Drops, Take;
    }
  }

  /** If no process loads the file while another works on it, no event is ever lost, and one
      that a process has in hand is on disk or stored. */
  lemma OneAtATimeIsSafe(run: Run, id: ClientEventId)
    requires IsRun(run) && OneAtATime(run)
    ensures StaysAlive(run, id)
    ensures Alive(Reached(run), id) <==> Holds(Reached(run).disk, id) || id in Reached(run).stored
  {
    AlwaysExclusive(run, id);
    SurvivesIff(run, id);
  }

  /** Two processes that enqueue at once: the second save forgets the first event. */
  lemma TwoEnqueuesLoseOne(a: Captured, b: Captured) returns (run: Run)
    requires a.clientEventId != b.clientEventId
    ensures IsRun(run) && run.Then? && Alive(Reached(run.past), a.clientEventId) && !Alive(Reached(run), a.clientEventId)
    ensures Reached(run) == State([Queued(b, 0, 0.0)], map[], {})
  {
    var itemA, itemB := Queued(a, 0, 0.0), Queued(b, 0, 0.0);
    assert [] + [itemA] == [itemA] && [] + [itemB] == [itemB];
    run := Start;
    assert IsRun(run);
    run := Extend(run, LoadToEnqueue(0, a), State([], map[], {}));
    run := Extend(run, LoadToEnqueue(1, b), State([], map[0 := Enqueuing([], a)], {}));
    run := Extend(run, SaveEnqueued(0, 0.0), State([], map[0 := Enqueuing([], a), 1 := Enqueuing([], b)], {}));
    assert Reached(run) == State([itemA], map[1 := Enqueuing([], b)], {});
    assert Reached(run).disk[0].prompt == a;
    run := Extend(run, SaveEnqueued(1, 0.0), State([itemA], map[1 := Enqueuing([], b)], {}));
    assert Reached(run) == State([itemB], map[], {});
  }

  /** One more step of a run. */
  lemma Extend(run: Run, step: Step, s: State) returns (longer: Run)
    requires IsRun(run) && Reached(run) == s && Enabled(s, step)
    ensures longer == Then(run, step) && IsRun(longer) && Reached(longer) == Take(s, step)
  {
    longer := Then(run, step);
  }
}
