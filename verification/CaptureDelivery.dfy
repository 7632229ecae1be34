/** A captured prompt from the client's queue to the service's tables: one client of one
    installation, which flushes in one process while others may enqueue, an unreliable
    network, crashes, and a service that others use at the same time. */
module CaptureDelivery {
  import opened Prelude
  import ConnectorStore
  import opened PromptStore
  import opened ConnectorQueue
  import IngestRaces

  /** A flush in progress: what it has not looked at, what it will write back, whether a
      send of the first of the rest is out, and whether the service has accepted it. */
  datatype Flush = Flush(rest: Queue, retained: Queue, sending: bool, accepted: bool)

  /** The fields from `enqueued` on record history for the statements below: what was
      enqueued, when, and what was ever sent; how often an event was sent since it was
      enqueued, how often of these in the flush under way, and how often in flushes that a
      crash ended. */
  datatype State = State(
    db: PromptTables,
    disk: Queue,
    flush: Option<Flush>,
    clock: real,
    enqueued: map<ClientEventId, Captured>,
    since: map<ClientEventId, real>,
    sent: set<Captured>,
    sends: map<ClientEventId, nat>,
    sendsNow: map<ClientEventId, nat>,
    lost: map<ClientEventId, nat>)

  datatype Step =
    | Enqueue(prompt: Captured)
    | Beside(prompt: Captured)
    | BeginFlush
    | KeepHead
    | StartSend
    | Serve(connector: ConnectorStore.Connector, now: Millis, ids: RowIds, first: AnalysisId)
    | EndSend(succeeded: bool, random: real)
    | Save
    | Crash
    | LateServe(late: Captured, connector: ConnectorStore.Connector, now: Millis, ids: RowIds, first: AnalysisId)
    | Elsewhere(db: PromptTables)

  datatype Event = Event(at: real, step: Step)

  predicate Stored(db: PromptTables, installation: nat, id: ClientEventId) {
    exists p | p in db.prompts :: HasKey(db.prompts[p], installation, id)
  }

  ghost predicate Enabled(installation: nat, s: State, e: Event) {
    && s.clock <= e.at
    && match e.step
       // event identifiers are never reused
       case Enqueue(prompt) =>
         s.flush.None? && (prompt.clientEventId in s.enqueued ==> s.enqueued[prompt.clientEventId] == prompt)
       // another process of the client, while this one flushes
       case Beside(prompt) =>
         s.flush.Some? && (prompt.clientEventId in s.enqueued ==> s.enqueued[prompt.clientEventId] == prompt)
       case BeginFlush => s.flush.None?
       case KeepHead => AtHead(s) && s.flush.value.rest[0].nextAttemptAt > e.at
       case StartSend => AtHead(s) && s.flush.value.rest[0].nextAttemptAt <= e.at
       case Serve(connector, now, ids, first) =>
         && s.flush.Some? && s.flush.value.sending && s.flush.value.rest != []
         && connector.installationId == installation
         && ids.promptId !in s.db.prompts && ids.analysisId !in s.db.analyses && ids.eventId !in s.db.outbox
       // a send succeeds only on the service's acceptance, and may fail in spite of it
       case EndSend(succeeded, random) =>
         && s.flush.Some? && s.flush.value.sending && s.flush.value.rest != []
         && (succeeded ==> s.flush.value.accepted) && 0.0 <= random < 1.0
       case Save => s.flush.Some? && s.flush.value.rest == []
       case Crash => true
       // a request may reach the service after the client gave it up
       case LateServe(late, connector, now, ids, first) =>
         && late in s.sent && connector.installationId == installation
         && ids.promptId !in s.db.prompts && ids.analysisId !in s.db.analyses && ids.eventId !in s.db.outbox
       // other requests; none of them stores events for this installation
       case Elsewhere(db) =>
         && IngestRaces.RowsStay(s.db, db) && KeysUnique(db)
         && forall p :: p in db.prompts && p !in s.db.prompts ==> db.prompts[p].installationId != installation
  }

  predicate AtHead(s: State) {
    s.flush.Some? && !s.flush.value.sending && s.flush.value.rest != []
  }

  function CountOf(counts: map<ClientEventId, nat>, id: ClientEventId): nat {
    if id in counts then counts[id] else 0
  }

  /** How often the event was sent since it was last enqueued. */
  function SendsOf(s: State, id: ClientEventId): nat {
    CountOf(s.sends, id)
  }

  /** How many of these sends a crash erased from the client's record. */
  function LostOf(s: State, id: ClientEventId): nat {
    CountOf(s.lost, id)
  }

  function Sum(a: map<ClientEventId, nat>, b: map<ClientEventId, nat>): map<ClientEventId, nat> {
    map id | id in a.Keys + b.Keys :: CountOf(a, id) + CountOf(b, id)
  }

  /** The event is added to the queue on disk unless it is there. */
  function WithEvent(s: State, prompt: Captured, at: real): State {
    var id := prompt.clientEventId;
    if ConnectorQueue.Holds(s.disk, id) then s
    else s.(disk := Enqueued(s.disk, prompt, at), enqueued := s.enqueued[id := prompt],
            since := s.since[id := at], sends := s.sends[id := 0], sendsNow := s.sendsNow[id := 0], lost := s.lost[id := 0])
  }

  ghost function Act(installation: nat, s: State, e: Event): State
    requires Enabled(installation, s, e)
  {
    match e.step
    case Enqueue(prompt) => WithEvent(s, prompt, e.at)
    case Beside(prompt) => WithEvent(s, prompt, e.at)
    case BeginFlush => s.(flush := Some(Flush(s.disk, [], false, false)))
    case KeepHead =>
      var f := s.flush.value;
      s.(flush := Some(Flush(f.rest[1..], f.retained + [f.rest[0]], false, false)))
    case StartSend =>
      var f, id := s.flush.value, s.flush.value.rest[0].prompt.clientEventId;
      s.(flush := Some(f.(sending := true, accepted := false)),
         sent := s.sent + {f.rest[0].prompt},
         sends := s.sends[id := SendsOf(s, id) + 1], sendsNow := s.sendsNow[id := CountOf(s.sendsNow, id) + 1])
    case Serve(connector, now, ids, first) =>
      var f := s.flush.value;
      var (db, answer) := Ingest(s.db, connector, f.rest[0].prompt, now, ids, first);
      s.(db := db, flush := Some(f.(accepted := f.accepted || answer.Ok?)))
    case EndSend(succeeded, random) =>
      var f := s.flush.value;
      s.(flush := Some(Flush(f.rest[1..], if succeeded then f.retained else f.retained + [Retry(f.rest[0], e.at, random)], false, false)))
    case Save => s.(disk := s.flush.value.retained, flush := None, sendsNow := map[])
    case Crash => s.(flush := None, lost := Sum(s.lost, s.sendsNow), sendsNow := map[])
    case LateServe(late, connector, now, ids, first) => s.(db := Ingest(s.db, connector, late, now, ids, first).0)
    case Elsewhere(db) => s.(db := db)
  }

  ghost function Take(installation: nat, s: State, e: Event): State
    requires Enabled(installation, s, e)
  {
    Act(installation, s, e).(clock := e.at)
  }

  type Run = History<Event>

  const Initial := State(NoPrompts, [], None, 0.0, map[], map[], {}, map[], map[], map[])

  ghost predicate IsRun(installation: nat, run: Run)
    decreases run, 0
  {
    run.Then? ==> IsRun(installation, run.past) && Enabled(installation, Reached(installation, run.past), run.event)
  }

  ghost function Reached(installation: nat, run: Run): State
    requires IsRun(installation, run)
    decreases run, 1
  {
    if run.Start? then Initial else Take(installation, Reached(installation, run.past), run.event)
  }

  // ------------------------------------------------------- what is carried

  /** Every item of the queue carries what was enqueued under its identifier. */
  predicate Carries(queue: Queue, enqueued: map<ClientEventId, Captured>) {
    forall i :: 0 <= i < |queue| ==> CarriesItem(queue[i], enqueued)
  }

  predicate CarriesItem(item: Queued, enqueued: map<ClientEventId, Captured>) {
    item.prompt.clientEventId in enqueued && enqueued[item.prompt.clientEventId] == item.prompt
  }

  /** What the installation has stored is what the client enqueued. */
  predicate StoredFaithfully(db: PromptTables, installation: nat, enqueued: map<ClientEventId, Captured>) {
    forall p | p in db.prompts :: db.prompts[p].installationId == installation ==>
      && db.prompts[p].clientEventId in enqueued
      && db.prompts[p].eventHash == enqueued[db.prompts[p].clientEventId]
  }

  /** Everything that was ever sent was enqueued. */
  predicate SentIsEnqueued(s: State) {
    forall prompt | prompt in s.sent :: prompt.clientEventId in s.enqueued && s.enqueued[prompt.clientEventId] == prompt
  }

  ghost predicate Faithful(installation: nat, s: State) {
    && KeysUnique(s.db) && SentIsEnqueued(s)
    && Carries(s.disk, s.enqueued)
    && StoredFaithfully(s.db, installation, s.enqueued)
    && FlushIsSound(installation, s)
  }

  /** What the client believes to be accepted is stored. */
  ghost predicate FlushIsSound(installation: nat, s: State) {
    s.flush.Some? ==> FlushFaithful(installation, s, s.flush.value)
  }

  predicate FlushFaithful(installation: nat, s: State, f: Flush) {
    && Carries(f.rest, s.enqueued) && Carries(f.retained, s.enqueued)
    && (f.accepted ==> f.sending && f.rest != [] && Stored(s.db, installation, f.rest[0].prompt.clientEventId))
  }

  /** The event is still queued or already stored; during a flush, what the disk holds is
      still ahead, kept for the write-back, or stored. */
  predicate Accounted(installation: nat, s: State, id: ClientEventId) {
    && (id in s.enqueued ==> ConnectorQueue.Holds(s.disk, id) || Stored(s.db, installation, id))
    && (s.flush.Some? && ConnectorQueue.Holds(s.disk, id) ==>
          ConnectorQueue.Holds(s.flush.value.rest, id) || ConnectorQueue.Holds(s.flush.value.retained, id) || Stored(s.db, installation, id))
  }

  lemma StoredStays(before: PromptTables, after: PromptTables, installation: nat, id: ClientEventId)
    requires IngestRaces.RowsStay(before, after) && Stored(before, installation, id)
    ensures Stored(after, installation, id)
  {
    var p :| p in before.prompts && HasKey(before.prompts[p], installation, id);
    assert p in after.prompts;
    assert HasKey(after.prompts[p], installation, id);
  }

  /** An ingest stores the event it accepts, keeps every row and adds at most this one. */
  lemma IngestStores(db: PromptTables, connector: ConnectorStore.Connector, input: Captured, now: Millis, ids: RowIds, first: AnalysisId)
    requires ids.promptId !in db.prompts && ids.analysisId !in db.analyses && KeysUnique(db)
    ensures var (after, answer) := Ingest(db, connector, input, now, ids, first);
            && IngestRaces.RowsStay(db, after) && KeysUnique(after)
            && (answer.Ok? ==> Stored(after, connector.installationId, input.clientEventId))
            && (forall p :: p in after.prompts && p !in db.prompts ==>
                  after.prompts[p].installationId == connector.installationId
                  && after.prompts[p].clientEventId == input.clientEventId && after.prompts[p].eventHash == input)
  {
    if !KeyTaken(db, connector.installationId, input.clientEventId) {
      InsertStores(db, connector, input, now, ids);
    }
    hide InsertPrompt, IngestRaces.RowsStay;
    assert IngestRaces.RowsStay(db, db) by { RowsAreTheirOwn(db); }
  }

  lemma RowsAreTheirOwn(db: PromptTables)
    ensures IngestRaces.RowsStay(db, db)
  {
  }

  lemma InsertStores(db: PromptTables, connector: ConnectorStore.Connector, input: Captured, now: Millis, ids: RowIds)
    requires ids.promptId !in db.prompts && ids.analysisId !in db.analyses && KeysUnique(db)
    requires !KeyTaken(db, connector.installationId, input.clientEventId)
    ensures var after := InsertPrompt(db, connector, input, now, ids);
            && IngestRaces.RowsStay(db, after) && KeysUnique(after)
            && Stored(after, connector.installationId, input.clientEventId)
            && after.prompts == db.prompts[ids.promptId := NewPrompt(connector, input, now)]
  {
    var after := InsertPrompt(db, connector, input, now, ids);
    assert HasKey(after.prompts[ids.promptId], connector.installationId, input.clientEventId);
  }

  lemma HeadAndTail(queue: Queue, id: ClientEventId)
    requires queue != []
    ensures ConnectorQueue.Holds(queue, id) <==> queue[0].prompt.clientEventId == id || ConnectorQueue.Holds(queue[1..], id)
  {
    HoldsConcat([queue[0]], queue[1..], id);
    assert [queue[0]] + queue[1..] == queue;
    assert ConnectorQueue.Holds([queue[0]], id) <==> queue[0].prompt.clientEventId == id by {
      assert [queue[0]][0] == queue[0];
    }
  }

  lemma HoldsOne(item: Queued, id: ClientEventId)
    ensures ConnectorQueue.Holds([item], id) <==> item.prompt.clientEventId == id
  {
    assert [item][0] == item;
  }

  // -------------------------------------------------------------- invariance

  /** The steps of the service. */
  predicate IsServerStep(step: Step) {
    step.Serve? || step.LateServe? || step.Elsewhere?
  }

  /** They change the tables and whether the current send was accepted, nothing else. */
  ghost predicate SameClient(s: State, after: State) {
    && after.disk == s.disk && after.enqueued == s.enqueued && after.since == s.since && after.sent == s.sent
    && after.sends == s.sends && after.sendsNow == s.sendsNow && after.lost == s.lost
    && (s.flush.None? ==> after.flush.None?)
    && (s.flush.Some? ==> after.flush.Some? && after.flush.value == s.flush.value.(accepted := after.flush.value.accepted))
  }

  lemma ServerLeavesClient(installation: nat, s: State, e: Event)
    requires Enabled(installation, s, e) && IsServerStep(e.step)
    ensures SameClient(s, Take(installation, s, e))
  {
    hide Ingest, KeysUnique, IngestRaces.RowsStay;
  }

  /** What the service does with a send, or for others, keeps what is stored. */
  ghost predicate DbMoves(installation: nat, s: State, db: PromptTables) {
    && IngestRaces.RowsStay(s.db, db) && KeysUnique(db)
    && forall p :: p in db.prompts && p !in s.db.prompts && db.prompts[p].installationId == installation ==>
                     db.prompts[p].clientEventId in s.enqueued && db.prompts[p].eventHash == s.enqueued[db.prompts[p].clientEventId]
  }

  lemma StepMovesDb(installation: nat, s: State, e: Event)
    requires Faithful(installation, s) && Enabled(installation, s, e)
    ensures DbMoves(installation, s, Take(installation, s, e).db)
  {
    if e.step.Serve? {
      ServeMovesDb(installation, s, e);
    } else if e.step.LateServe? {
      LateServeMovesDb(installation, s, e);
    } else {
      OtherStepsMoveDb(installation, s, e);
    }
    hide Take, Enabled;
  }

  lemma ServeMovesDb(installation: nat, s: State, e: Event)
    requires Faithful(installation, s) && Enabled(installation, s, e) && e.step.Serve?
    ensures DbMoves(installation, s, Take(installation, s, e).db)
  {
    var f, step := s.flush.value, e.step;
    assert CarriesItem(f.rest[0], s.enqueued);
    IngestStores(s.db, step.connector, f.rest[0].prompt, step.now, step.ids, step.first);
    hide Ingest, KeysUnique, IngestRaces.RowsStay, StoredFaithfully, Stored, Retry;
    assert Take(installation, s, e).db == Ingest(s.db, step.connector, f.rest[0].prompt, step.now, step.ids, step.first).0;
    hide Take, Enabled, Carries;
  }

  lemma LateServeMovesDb(installation: nat, s: State, e: Event)
    requires Faithful(installation, s) && Enabled(installation, s, e) && e.step.LateServe?
    ensures DbMoves(installation, s, Take(installation, s, e).db)
  {
    var step := e.step;
    IngestStores(s.db, step.connector, step.late, step.now, step.ids, step.first);
    hide Ingest, KeysUnique, IngestRaces.RowsStay, StoredFaithfully, Stored, Retry, Carries;
    assert Take(installation, s, e).db == Ingest(s.db, step.connector, step.late, step.now, step.ids, step.first).0;
    hide Take, Enabled;
  }

  lemma SentStaysEnqueued(installation: nat, s: State, e: Event)
    requires Faithful(installation, s) && Enabled(installation, s, e)
    ensures SentIsEnqueued(Take(installation, s, e))
  {
    var after := Take(installation, s, e);
    if e.step.StartSend? {
      HeadIsCarried(installation, s);
      SentGrows(s, after, s.flush.value.rest[0].prompt);
    } else {
      OthersKeepSent(installation, s, e);
    }
    hide Take, Enabled;
  }

  lemma SentGrows(s: State, after: State, prompt: Captured)
    requires SentIsEnqueued(s) && prompt.clientEventId in s.enqueued && s.enqueued[prompt.clientEventId] == prompt
    requires after.sent == s.sent + {prompt} && after.enqueued == s.enqueued
    ensures SentIsEnqueued(after)
  {
  }

  lemma OthersKeepSent(installation: nat, s: State, e: Event)
    requires SentIsEnqueued(s) && Enabled(installation, s, e) && !e.step.StartSend?
    ensures SentIsEnqueued(Take(installation, s, e))
  {
    hide Ingest, KeysUnique, IngestRaces.RowsStay, Retry, Sum;
    match e.step {
      case Enqueue(prompt) => assert Take(installation, s, e).sent == s.sent;
      case Beside(prompt) => assert Take(installation, s, e).sent == s.sent;
      case _ =>
        OthersKeepHistory(installation, s, e);
        hide Take, Enabled;
    }
  }

  lemma OthersKeepHistory(installation: nat, s: State, e: Event)
    requires Enabled(installation, s, e) && !e.step.StartSend? && !e.step.Enqueue? && !e.step.Beside?
    ensures Take(installation, s, e).sent == s.sent && Take(installation, s, e).enqueued == s.enqueued
  {
    hide Ingest, KeysUnique, IngestRaces.RowsStay, Retry, Sum, Enqueued;
    var after := Act(installation, s, e);
    match e.step {
      case BeginFlush => assert after.sent == s.sent;
      case KeepHead => assert after.sent == s.sent;
      case EndSend(_, _) => assert after.sent == s.sent;
      case Serve(_, _, _, _) => assert after.sent == s.sent;
      case LateServe(_, _, _, _, _) => assert after.sent == s.sent;
      case Save => assert after.sent == s.sent;
      case Crash => assert after.sent == s.sent;
      case Elsewhere(_) => assert after.sent == s.sent;
    }
    hide Act, Enabled;
  }

  lemma HeadIsCarried(installation: nat, s: State)
    requires Faithful(installation, s) && s.flush.Some? && s.flush.value.rest != []
    ensures CarriesItem(s.flush.value.rest[0], s.enqueued)
  {
    hide StoredFaithfully, KeysUnique, Stored;
  }

  lemma OtherStepsMoveDb(installation: nat, s: State, e: Event)
    requires Faithful(installation, s) && Enabled(installation, s, e) && !e.step.Serve? && !e.step.LateServe?
    ensures DbMoves(installation, s, Take(installation, s, e).db)
  {
    hide Ingest, KeysUnique, StoredFaithfully, Carries, Stored, Retry, Enqueued;
    assert e.step.Elsewhere? || Take(installation, s, e).db == s.db;
  }

  lemma StoredFaithfullyKept(installation: nat, s: State, e: Event)
    requires Faithful(installation, s) && Enabled(installation, s, e)
    ensures StoredFaithfully(Take(installation, s, e).db, installation, Take(installation, s, e).enqueued)
  {
    StepMovesDb(installation, s, e);
    var after := Take(installation, s, e);
    forall p | p in after.db.prompts && after.db.prompts[p].installationId == installation
      ensures after.db.prompts[p].clientEventId in after.enqueued
              && after.db.prompts[p].eventHash == after.enqueued[after.db.prompts[p].clientEventId]
    {
      if p in s.db.prompts {
        assert s.db.prompts[p].installationId == installation;
      }
    }
  }

  lemma QueuesKeepCarrying(installation: nat, s: State, e: Event)
    requires Faithful(installation, s) && Enabled(installation, s, e)
    ensures var after := Take(installation, s, e);
            && Carries(after.disk, after.enqueued)
            && (after.flush.Some? ==> Carries(after.flush.value.rest, after.enqueued) && Carries(after.flush.value.retained, after.enqueued))
  {
    if IsServerStep(e.step) {
      ServerLeavesClient(installation, s, e);
      hide Take, Enabled, KeysUnique, StoredFaithfully, Stored, Carries, SentIsEnqueued;
      return;
    }
    hide Ingest, KeysUnique, StoredFaithfully, IngestRaces.RowsStay, Stored, Carries, SentIsEnqueued, Sum;
    match e.step {
      case Enqueue(prompt) =>
        CarriesAfterEnqueue(s.disk, s.enqueued, prompt, e.at);
      case Beside(prompt) =>
        CarriesAfterEnqueue(s.disk, s.enqueued, prompt, e.at);
        CarriesAfterEnqueue(s.flush.value.rest, s.enqueued, prompt, e.at);
        CarriesAfterEnqueue(s.flush.value.retained, s.enqueued, prompt, e.at);
      case KeepHead =>
        CarriesMoves(s.flush.value.rest, s.flush.value.retained, s.flush.value.rest[0], s.enqueued);
      case EndSend(_, random) =>
        CarriesMoves(s.flush.value.rest, s.flush.value.retained, Retry(s.flush.value.rest[0], e.at, random), s.enqueued);
      case BeginFlush =>
        CarriesNothing(s.enqueued);
      case _ =>
    }
  }

  lemma CarriesNothing(enqueued: map<ClientEventId, Captured>)
    ensures Carries([], enqueued)
  {
  }

  lemma CarriesAfterEnqueue(queue: Queue, enqueued: map<ClientEventId, Captured>, prompt: Captured, now: real)
    requires Carries(queue, enqueued)
    requires prompt.clientEventId in enqueued ==> enqueued[prompt.clientEventId] == prompt
    ensures Carries(queue, enqueued[prompt.clientEventId := prompt])
    ensures Carries(queue + [Queued(prompt, 0, now)], enqueued[prompt.clientEventId := prompt])
  {
  }

  /** Taking the head away, and appending it or a retry of it to what is kept. */
  lemma CarriesMoves(rest: Queue, retained: Queue, item: Queued, enqueued: map<ClientEventId, Captured>)
    requires Carries(rest, enqueued) && Carries(retained, enqueued) && rest != [] && item.prompt == rest[0].prompt
    ensures Carries(rest[1..], enqueued) && Carries(retained + [item], enqueued)
  {
    assert CarriesItem(rest[0], enqueued);
  }

  lemma AcceptedIsStored(installation: nat, s: State, e: Event)
    requires Faithful(installation, s) && Enabled(installation, s, e)
    ensures var after := Take(installation, s, e);
            after.flush.Some? && after.flush.value.accepted ==>
              && after.flush.value.sending && after.flush.value.rest != []
              && Stored(after.db, installation, after.flush.value.rest[0].prompt.clientEventId)
  {
    if (e.step.Elsewhere? || e.step.Serve? || e.step.LateServe?) && s.flush.Some? && s.flush.value.accepted {
      StepMovesDb(installation, s, e);
      StoredStays(s.db, Take(installation, s, e).db, installation, s.flush.value.rest[0].prompt.clientEventId);
    }
    if e.step.Serve? {
      IngestStores(s.db, e.step.connector, s.flush.value.rest[0].prompt, e.step.now, e.step.ids, e.step.first);
    }
    hide Ingest, KeysUnique, StoredFaithfully, IngestRaces.RowsStay;
  }

  lemma FaithfulKept(installation: nat, s: State, e: Event)
    requires Faithful(installation, s) && Enabled(installation, s, e)
    ensures Faithful(installation, Take(installation, s, e))
  {
    StepMovesDb(installation, s, e);
    StoredFaithfullyKept(installation, s, e);
    QueuesKeepCarrying(installation, s, e);
    AcceptedIsStored(installation, s, e);
    SentStaysEnqueued(installation, s, e);
    hide Take, Enabled;
  }

  /** The step puts a new event, or one that was lost, on disk beside the flush under way. */
  predicate GoesBeside(installation: nat, s: State, e: Event, id: ClientEventId) {
    && e.step.Beside? && e.step.prompt.clientEventId == id
    && !ConnectorQueue.Holds(s.disk, id) && !Stored(s.db, installation, id)
  }

  lemma AccountedKept(installation: nat, s: State, e: Event, id: ClientEventId)
    requires Faithful(installation, s) && Enabled(installation, s, e) && Accounted(installation, s, id) && !GoesBeside(installation, s, e, id)
    ensures Accounted(installation, Take(installation, s, e), id)
  {
    if IsServerStep(e.step) {
      AccountedByServer(installation, s, e, id);
    } else if e.step.Beside? {
      AccountedBeside(installation, s, e, id);
    } else {
      AccountedByClient(installation, s, e, id);
    }
    hide Take, Enabled, Accounted;
  }

  lemma AccountedBeside(installation: nat, s: State, e: Event, id: ClientEventId)
    requires Enabled(installation, s, e) && Accounted(installation, s, id) && e.step.Beside? && !GoesBeside(installation, s, e, id)
    ensures Accounted(installation, Take(installation, s, e), id)
  {
    HoldsConcat(s.disk, [Queued(e.step.prompt, 0, e.at)], id);
    HoldsOne(Queued(e.step.prompt, 0, e.at), id);
    hide Stored, ConnectorQueue.Holds;
  }

  lemma AccountedByServer(installation: nat, s: State, e: Event, id: ClientEventId)
    requires Faithful(installation, s) && Enabled(installation, s, e) && Accounted(installation, s, id) && IsServerStep(e.step)
    ensures Accounted(installation, Take(installation, s, e), id)
  {
    StepMovesDb(installation, s, e);
    if Stored(s.db, installation, id) {
      StoredStays(s.db, Take(installation, s, e).db, installation, id);
    }
    ServerLeavesClient(installation, s, e);
    hide Take, Enabled, Stored, Faithful;
  }

  lemma AccountedByClient(installation: nat, s: State, e: Event, id: ClientEventId)
    requires FlushIsSound(installation, s) && Enabled(installation, s, e) && Accounted(installation, s, id)
    requires !IsServerStep(e.step) && !e.step.Beside?
    ensures Accounted(installation, Take(installation, s, e), id)
  {
    hide Stored, Carries, Sum;
    match e.step {
      case Enqueue(prompt) =>
        HoldsConcat(s.disk, [Queued(prompt, 0, e.at)], id);
        HoldsOne(Queued(prompt, 0, e.at), id);
      case KeepHead =>
        var f := s.flush.value;
        HeadAndTail(f.rest, id);
        HoldsConcat(f.retained, [f.rest[0]], id);
        HoldsOne(f.rest[0], id);
      case EndSend(succeeded, random) =>
        var f := s.flush.value;
        HeadAndTail(f.rest, id);
        HoldsConcat(f.retained, [Retry(f.rest[0], e.at, random)], id);
        HoldsOne(Retry(f.rest[0], e.at, random), id);
      case BeginFlush =>
      case StartSend =>
      case Save =>
      case Crash =>
    }
    hide ConnectorQueue.Holds;
  }

  lemma {:induction false} AlwaysFaithful(installation: nat, run: Run)
    requires IsRun(installation, run)
    ensures Faithful(installation, Reached(installation, run))
    decreases run
  {
    if run.Then? {
      AlwaysFaithful(installation, run.past);
      FaithfulKept(installation, Reached(installation, run.past), run.event);
    }
  }

  // ----------------------------------------------------- the fate of an event

  /** What became of an event: it is accounted for; it was put on disk beside the flush under
      way; or such a flush was saved since, and the event was not enqueued again. */
  datatype Fate = Safe | Late | Lost

  /** It depends on the order of the client's own steps alone, and on whether the event was
      new. A crash saves an event that is late. */
  ghost function FateOf(installation: nat, run: Run, id: ClientEventId): Fate
    requires IsRun(installation, run)
  {
    if run.Start? then Safe
    else
      NextFate(installation, Reached(installation, run.past), run.event, id, FateOf(installation, run.past, id))
  }

  ghost function NextFate(installation: nat, s: State, e: Event, id: ClientEventId, fate: Fate): Fate {
    match e.step
    case Enqueue(prompt) => if prompt.clientEventId == id then Safe else fate
    case Beside(_) => if GoesBeside(installation, s, e, id) then Late else fate
    case Save => if fate.Late? then Lost else fate
    case Crash => if fate.Late? then Safe else fate
    case _ => fate
  }

  predicate NeverSent(s: State, id: ClientEventId) {
    forall prompt | prompt in s.sent :: prompt.clientEventId != id
  }

  predicate NotInFlush(s: State, id: ClientEventId) {
    s.flush.Some? ==> !ConnectorQueue.Holds(s.flush.value.rest, id) && !ConnectorQueue.Holds(s.flush.value.retained, id)
  }

  /** A flush works on what it loaded from disk. */
  predicate FromDisk(s: State, id: ClientEventId) {
    !ConnectorQueue.Holds(s.disk, id) ==> NotInFlush(s, id)
  }

  predicate Meets(installation: nat, s: State, id: ClientEventId, fate: Fate) {
    match fate
    case Safe => Accounted(installation, s, id)
    case Late =>
      && id in s.enqueued && s.flush.Some? && ConnectorQueue.Holds(s.disk, id)
      && NotInFlush(s, id) && !Stored(s.db, installation, id) && NeverSent(s, id)
    case Lost =>
      && id in s.enqueued && !ConnectorQueue.Holds(s.disk, id)
      && NotInFlush(s, id) && !Stored(s.db, installation, id) && NeverSent(s, id)
  }

  lemma FromDiskKept(installation: nat, s: State, e: Event, id: ClientEventId)
    requires Enabled(installation, s, e) && FromDisk(s, id)
    ensures FromDisk(Take(installation, s, e), id)
  {
    if IsServerStep(e.step) {
      ServerLeavesClient(installation, s, e);
      hide Take, Enabled;
    } else {
      ClientKeepsFromDisk(installation, s, e, id);
    }
  }

  lemma ClientKeepsFromDisk(installation: nat, s: State, e: Event, id: ClientEventId)
    requires Enabled(installation, s, e) && FromDisk(s, id) && !IsServerStep(e.step)
    ensures FromDisk(Take(installation, s, e), id)
    ensures NotInFlush(s, id) && !e.step.BeginFlush? ==> NotInFlush(Take(installation, s, e), id)
  {
    HoldsNothing(id);
    match e.step {
      case Enqueue(prompt) =>
        HoldsConcat(s.disk, [Queued(prompt, 0, e.at)], id);
      case Beside(prompt) =>
        HoldsConcat(s.disk, [Queued(prompt, 0, e.at)], id);
      case KeepHead =>
        var f := s.flush.value;
        HeadAndTail(f.rest, id);
        HoldsConcat(f.retained, [f.rest[0]], id);
        HoldsOne(f.rest[0], id);
      case EndSend(succeeded, random) =>
        var f := s.flush.value;
        HeadAndTail(f.rest, id);
        HoldsConcat(f.retained, [Retry(f.rest[0], e.at, random)], id);
        HoldsOne(Retry(f.rest[0], e.at, random), id);
      case BeginFlush =>
      case StartSend =>
      case Save =>
      case Crash =>
    }
    hide ConnectorQueue.Holds, Sum, Stored;
  }

  lemma HoldsNothing(id: ClientEventId)
    ensures !ConnectorQueue.Holds([], id)
  {
  }

  /** The service stores only what was sent. */
  lemma StoresOnlySent(installation: nat, s: State, e: Event, id: ClientEventId)
    requires Faithful(installation, s) && Enabled(installation, s, e) && NeverSent(s, id) && NotInFlush(s, id)
    requires !Stored(s.db, installation, id)
    ensures !Stored(Take(installation, s, e).db, installation, id)
  {
    if e.step.Serve? {
      var f := s.flush.value;
      HeadAndTail(f.rest, id);
      StoresOnlyItsOwn(s.db, e.step.connector, f.rest[0].prompt, e.step.now, e.step.ids, e.step.first, id);
      assert Take(installation, s, e).db == Ingest(s.db, e.step.connector, f.rest[0].prompt, e.step.now, e.step.ids, e.step.first).0;
      hide Take, Enabled, Ingest, Stored, Faithful;
    } else if e.step.LateServe? {
      StoresOnlyItsOwn(s.db, e.step.connector, e.step.late, e.step.now, e.step.ids, e.step.first, id);
      assert Take(installation, s, e).db == Ingest(s.db, e.step.connector, e.step.late, e.step.now, e.step.ids, e.step.first).0;
      hide Take, Enabled, Ingest, Stored, Faithful;
    } else if e.step.Elsewhere? {
      ElsewhereStoresNothing(installation, s, e, id);
      hide Take, Enabled;
    } else {
      assert Take(installation, s, e).db == s.db;
      hide Take, Enabled, Stored, Faithful;
    }
  }

  lemma StoresOnlyItsOwn(db: PromptTables, connector: ConnectorStore.Connector, input: Captured, now: Millis, ids: RowIds,
                         first: AnalysisId, id: ClientEventId)
    requires ids.promptId !in db.prompts && ids.analysisId !in db.analyses && KeysUnique(db)
    requires input.clientEventId != id && !Stored(db, connector.installationId, id)
    ensures !Stored(Ingest(db, connector, input, now, ids, first).0, connector.installationId, id)
  {
    IngestStores(db, connector, input, now, ids, first);
    hide Ingest, KeysUnique;
  }

  lemma ElsewhereStoresNothing(installation: nat, s: State, e: Event, id: ClientEventId)
    requires Enabled(installation, s, e) && e.step.Elsewhere? && !Stored(s.db, installation, id)
    ensures !Stored(Take(installation, s, e).db, installation, id)
  {
    hide KeysUnique;
  }

  /** What was never enqueued is nowhere; and a new event beside a flush was never sent. */
  lemma UnknownIsNowhere(installation: nat, s: State, id: ClientEventId)
    requires Faithful(installation, s) && id !in s.enqueued
    ensures !ConnectorQueue.Holds(s.disk, id) && !Stored(s.db, installation, id) && NeverSent(s, id)
  {
    assert forall i :: 0 <= i < |s.disk| ==> CarriesItem(s.disk[i], s.enqueued);
  }

  lemma FateKept(installation: nat, s: State, e: Event, id: ClientEventId, fate: Fate)
    requires Faithful(installation, s) && Enabled(installation, s, e) && FromDisk(s, id) && Meets(installation, s, id, fate)
    ensures Meets(installation, Take(installation, s, e), id, NextFate(installation, s, e, id, fate))
  {
    if GoesBeside(installation, s, e, id) {
      BesideIsLate(installation, s, e, id, fate);
    } else if fate.Safe? {
      AccountedKept(installation, s, e, id);
    } else if e.step.Enqueue? && e.step.prompt.clientEventId == id {
      EnqueuedIsSafe(installation, s, e, id);
    } else {
      LateOrLostKept(installation, s, e, id, fate);
    }
    hide Take, Enabled, Accounted, GoesBeside;
  }

  lemma BesideIsLate(installation: nat, s: State, e: Event, id: ClientEventId, fate: Fate)
    requires Faithful(installation, s) && Enabled(installation, s, e) && FromDisk(s, id) && Meets(installation, s, id, fate)
    requires GoesBeside(installation, s, e, id)
    ensures Meets(installation, Take(installation, s, e), id, Late)
  {
    if id !in s.enqueued { UnknownIsNowhere(installation, s, id); }
    HoldsConcat(s.disk, [Queued(e.step.prompt, 0, e.at)], id);
    HoldsOne(Queued(e.step.prompt, 0, e.at), id);
    hide ConnectorQueue.Holds, Stored, Faithful;
  }

  lemma EnqueuedIsSafe(installation: nat, s: State, e: Event, id: ClientEventId)
    requires Enabled(installation, s, e) && e.step.Enqueue? && e.step.prompt.clientEventId == id
    ensures Accounted(installation, Take(installation, s, e), id)
  {
    HoldsConcat(s.disk, [Queued(e.step.prompt, 0, e.at)], id);
    HoldsOne(Queued(e.step.prompt, 0, e.at), id);
    hide ConnectorQueue.Holds, Stored;
  }

  /** An event that is late or lost stays out of the flush and the store. */
  lemma LateOrLostKept(installation: nat, s: State, e: Event, id: ClientEventId, fate: Fate)
    requires Faithful(installation, s) && Enabled(installation, s, e) && FromDisk(s, id) && Meets(installation, s, id, fate)
    requires !fate.Safe? && !GoesBeside(installation, s, e, id) && !(e.step.Enqueue? && e.step.prompt.clientEventId == id)
    ensures Meets(installation, Take(installation, s, e), id, NextFate(installation, s, e, id, fate))
  {
    StoresOnlySent(installation, s, e, id);
    if IsServerStep(e.step) {
      ServerLeavesClient(installation, s, e);
      hide Take, Enabled, Stored, Faithful, ConnectorQueue.Holds;
    } else {
      ClientKeepsFromDisk(installation, s, e, id);
      LateDisk(installation, s, e, id);
      hide Stored, Faithful, ConnectorQueue.Holds, Sum, Retry, Enqueued;
    }
  }

  /** What the client's steps do to the disk, the history and the event's absence from what
      was sent. */
  lemma LateDisk(installation: nat, s: State, e: Event, id: ClientEventId)
    requires Enabled(installation, s, e) && !IsServerStep(e.step) && NotInFlush(s, id) && NeverSent(s, id) && id in s.enqueued
    requires !(e.step.Enqueue? && e.step.prompt.clientEventId == id)
    requires !(e.step.Beside? && e.step.prompt.clientEventId == id && !ConnectorQueue.Holds(s.disk, id))
    ensures var after := Take(installation, s, e);
            && id in after.enqueued && NeverSent(after, id)
            && (ConnectorQueue.Holds(after.disk, id) <==> !e.step.Save? && ConnectorQueue.Holds(s.disk, id))
            && (after.flush.Some? <==> (s.flush.Some? && !e.step.Save? && !e.step.Crash?) || e.step.BeginFlush?)
  {
    match e.step {
      case Enqueue(prompt) =>
        HoldsConcat(s.disk, [Queued(prompt, 0, e.at)], id);
        HoldsOne(Queued(prompt, 0, e.at), id);
      case Beside(prompt) =>
        HoldsConcat(s.disk, [Queued(prompt, 0, e.at)], id);
        HoldsOne(Queued(prompt, 0, e.at), id);
      case StartSend => HeadAndTail(s.flush.value.rest, id);
      case BeginFlush =>
      case KeepHead =>
      case EndSend(_, _) =>
      case Save =>
      case Crash =>
    }
    hide ConnectorQueue.Holds, Sum, Retry;
  }

  lemma {:induction false} FateIsMet(installation: nat, run: Run, id: ClientEventId)
    requires IsRun(installation, run)
    ensures FromDisk(Reached(installation, run), id)
    ensures Meets(installation, Reached(installation, run), id, FateOf(installation, run, id))
    decreases run
  {
    if run.Then? {
      FateIsMet(installation, run.past, id);
      AlwaysFaithful(installation, run.past);
      FromDiskKept(installation, Reached(installation, run.past), run.event, id);
      FateKept(installation, Reached(installation, run.past), run.event, id, FateOf(installation, run.past, id));
      hide Take, Enabled, Meets, NextFate;
    }
  }

  // ------------------------------------------------------------ main results

  /** In every run an event that was enqueued is queued or stored exactly if it was not put
      on disk beside a flush that was then saved, without being enqueued again since. */
  lemma QueuedOrStoredIff(installation: nat, run: Run, id: ClientEventId)
    requires IsRun(installation, run) && id in Reached(installation, run).enqueued
    ensures var s := Reached(installation, run);
            ConnectorQueue.Holds(s.disk, id) || Stored(s.db, installation, id) <==> !FateOf(installation, run, id).Lost?
  {
    FateIsMet(installation, run, id);
  }

  /** Whatever sends fail, answers are lost, requests arrive late, other processes enqueue and
      crashes happen: an event that is not lost in this way is queued or stored, and any that
      is stored is one prompt, with the content enqueued. */
  lemma ExactlyOnce(installation: nat, run: Run, id: ClientEventId)
    requires IsRun(installation, run) && id in Reached(installation, run).enqueued
    ensures var s := Reached(installation, run);
            && (ConnectorQueue.Holds(s.disk, id) || Stored(s.db, installation, id) <==> !FateOf(installation, run, id).Lost?)
            && (forall p, q :: p in s.db.prompts && q in s.db.prompts
                               && HasKey(s.db.prompts[p], installation, id) && HasKey(s.db.prompts[q], installation, id)
                               ==> p == q && s.db.prompts[p].eventHash == s.enqueued[id])
  {
    AlwaysFaithful(installation, run);
    QueuedOrStoredIff(installation, run, id);
  }

  /** At every step of a flush, an event that is neither late nor lost is, if the disk holds
      it, still ahead, kept for the write-back, or stored. */
  lemma AlwaysAccounted(installation: nat, run: Run, id: ClientEventId)
    requires IsRun(installation, run) && FateOf(installation, run, id).Safe?
    ensures Accounted(installation, Reached(installation, run), id)
  {
    FateIsMet(installation, run, id);
  }

  ghost predicate NeverBeside(run: Run, id: ClientEventId) {
    run.Then? ==> NeverBeside(run.past, id) && !(run.event.step.Beside? && run.event.step.prompt.clientEventId == id)
  }

  /** A client that enqueues the event only between flushes never loses it. */
  lemma {:induction false} SequentialIsSafe(installation: nat, run: Run, id: ClientEventId)
    requires IsRun(installation, run) && NeverBeside(run, id)
    ensures FateOf(installation, run, id) == Safe && Accounted(installation, Reached(installation, run), id)
  {
    if run.Then? {
      SequentialIsSafe(installation, run.past, id);
    }
    AlwaysAccounted(installation, run, id);
  }

  /** A lost event stays lost until it is enqueued again. */
  lemma {:induction false} LostStaysLost(installation: nat, h: Run, run: Run, id: ClientEventId)
    requires IsRun(installation, run) && Within(h, run) && IsRun(installation, h) && FateOf(installation, h, id) == Lost
    requires EnqueuedOnlyBefore(h, run, id)
    ensures FateOf(installation, run, id) == Lost
    decreases run
  {
    if h != run {
      LostStaysLost(installation, h, run.past, id);
    }
  }

  /** No step after `h` enqueues the event. */
  predicate EnqueuedOnlyBefore(h: Run, run: Run, id: ClientEventId)
    decreases run
  {
    h == run || (run.Then? ==>
                   && EnqueuedOnlyBefore(h, run.past, id)
                   && !((run.event.step.Enqueue? || run.event.step.Beside?) && run.event.step.prompt.clientEventId == id))
  }

  /** Any flush that has come to the end of its queue loses a new event that another process
      enqueues before the write-back, and keeps it if it crashes instead. */
  lemma FlushLosesLateEvent(installation: nat, run: Run, prompt: Captured, at: real) returns (saved: Run, crashed: Run)
    requires IsRun(installation, run) && Reached(installation, run).clock <= at
    requires var s := Reached(installation, run);
             && s.flush.Some? && s.flush.value.rest == [] && prompt.clientEventId !in s.enqueued
    ensures IsRun(installation, saved) && IsRun(installation, crashed) && Within(run, saved) && Within(run, crashed)
    ensures saved == Then(saved.past, Event(at, Save)) && crashed == Then(saved.past, Event(at, Crash))
    ensures var s, id := Reached(installation, saved), prompt.clientEventId;
            id in s.enqueued && !ConnectorQueue.Holds(s.disk, id) && !Stored(s.db, installation, id)
    ensures ConnectorQueue.Holds(Reached(installation, crashed).disk, prompt.clientEventId)
  {
    var s, id := Reached(installation, run), prompt.clientEventId;
    AlwaysFaithful(installation, run);
    UnknownIsNowhere(installation, s, id);
    var late := Then(run, Event(at, Beside(prompt)));
    assert Within(run, late);
    saved, crashed := Then(late, Event(at, Save)), Then(late, Event(at, Crash));
    assert FateOf(installation, late, id) == Late;
    assert FateOf(installation, saved, id) == Lost;
    FateIsMet(installation, late, id);
    FateIsMet(installation, saved, id);
    hide Stored, ConnectorQueue.Holds, Faithful;
  }

  /** So one flush of an empty queue is enough. */
  lemma EmptyFlushLosesEvent(installation: nat, prompt: Captured) returns (run: Run)
    ensures IsRun(installation, run) && prompt.clientEventId in Reached(installation, run).enqueued
    ensures FateOf(installation, run, prompt.clientEventId) == Lost
  {
    var begun := Then(Start, Event(0.0, BeginFlush));
    assert Reached(installation, begun) == Initial.(flush := Some(Flush([], [], false, false)));
    var crashed;
    run, crashed := FlushLosesLateEvent(installation, begun, prompt, 0.0);
    QueuedOrStoredIff(installation, run, prompt.clientEventId);
  }
}
