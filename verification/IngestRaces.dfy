/** Concurrent ingest requests. The lookup and the insert of one request are separate steps,
    so another request can store the same event in between; the unique index then refuses
    the insert and the request runs once more. */
module IngestRaces {
  import opened Prelude
  import opened ConnectorStore
  import opened PromptStore

  type CallId = nat

  datatype Phase = Looking(retried: bool) | Inserting(retried: bool) | Done(answer: IngestAnswer)

  datatype Call = Call(connector: Connector, input: Input, phase: Phase)

  datatype State = State(db: PromptTables, calls: map<CallId, Call>, clock: Millis)

  datatype Step =
    | Begin(id: CallId, connector: Connector, input: Input)
    | LookUp(id: CallId, first: AnalysisId)
    | Insert(id: CallId, ids: RowIds)
    // what others do to the same tables
    | AskAgain(actor: Actor, promptId: PromptId, newAnalysis: AnalysisId, newEvent: EventId)
    | Remove(actor: Actor, promptId: PromptId)
    | SetProjects(projects: map<ProjectId, Project>)
    | Progress(analysis: AnalysisId, status: AnalysisStatus)

  datatype Event = Event(at: Millis, step: Step)

  predicate SameKey(prompt: Prompt, call: Call) {
    HasKey(prompt, call.connector.installationId, call.input.clientEventId)
  }

  predicate Taken(db: PromptTables, call: Call) {
    KeyTaken(db, call.connector.installationId, call.input.clientEventId)
  }

  ghost function Existing(db: PromptTables, call: Call): PromptId
    requires Taken(db, call)
  {
    PromptWithKey(db, call.connector.installationId, call.input.clientEventId)
  }

  ghost predicate Enabled(s: State, e: Event) {
    && s.clock <= e.at
    && match e.step
       case Begin(id, _, _) => id !in s.calls
       case LookUp(id, first) =>
         && id in s.calls && s.calls[id].phase.Looking?
         && (Taken(s.db, s.calls[id]) && HasAnalysis(s.db, Existing(s.db, s.calls[id])) ==>
               IsFirstAnalysis(s.db, Existing(s.db, s.calls[id]), first))
       case Insert(id, ids) =>
         && id in s.calls && s.calls[id].phase.Inserting?
         && ids.promptId !in s.db.prompts && ids.analysisId !in s.db.analyses && ids.eventId !in s.db.outbox
       case AskAgain(_, _, a, x) => a !in s.db.analyses && x !in s.db.outbox
       case Remove(_, _) => true
       case SetProjects(_) => true
       case Progress(a, _) => a in s.db.analyses
  }

  /** The outcome of the lookup: an answer, or the insert. */
  ghost function Found(db: PromptTables, call: Call, first: AnalysisId): Phase
    requires call.phase.Looking?
  {
    if Taken(db, call) && HasAnalysis(db, Existing(db, call)) then
      var p := Existing(db, call);
      Done(if db.prompts[p].eventHash != call.input then HashConflict else Answer(db, p, first, true))
    else if !ProjectActive(db, call.connector, call.input) then Done(ProjectUnavailable)
    else Inserting(call.phase.retried)
  }

  ghost function Take(s: State, e: Event): State
    requires Enabled(s, e)
  {
    match e.step
    case Begin(id, connector, input) =>
      var phase := if Refused(connector, input, e.at) then Done(Refusal(connector, input, e.at)) else Looking(false);
      s.(calls := s.calls[id := Call(connector, input, phase)], clock := e.at)
    case LookUp(id, first) =>
      s.(calls := s.calls[id := s.calls[id].(phase := Found(s.db, s.calls[id], first))], clock := e.at)
    case Insert(id, ids) =>
      var call := s.calls[id];
      if Taken(s.db, call) then
        var next := if call.phase.retried then Done(UniqueViolation) else Looking(true);
        s.(calls := s.calls[id := call.(phase := next)], clock := e.at)
      else
        var db := InsertPrompt(s.db, call.connector, call.input, e.at, ids);
        s.(db := db, calls := s.calls[id := call.(phase := Done(Answer(db, ids.promptId, ids.analysisId, false)))], clock := e.at)
    case AskAgain(actor, p, a, x) => s.(db := Reanalyze(s.db, actor, p, e.at, a, x).0, clock := e.at)
    case Remove(actor, p) => s.(db := Delete(s.db, actor, p, e.at).0, clock := e.at)
    case SetProjects(projects) => s.(db := s.db.(projects := projects), clock := e.at)
    case Progress(a, status) => s.(db := s.db.(analyses := s.db.analyses[a := s.db.analyses[a].(status := status)]), clock := e.at)
  }

  type Run = History<Event>

  ghost predicate IsRun(run: Run)
    decreases run, 0
  {
    run.Then? ==> IsRun(run.past) && Enabled(Reached(run.past), run.event)
  }

  ghost function Reached(run: Run): State
    requires IsRun(run)
    decreases run, 1
  {
    if run.Start? then State(NoPrompts, map[], 0) else Take(Reached(run.past), run.event)
  }

  // -------------------------------------------------------------- invariant

  /** The original analysis is as old as its prompt, and no analysis is older. */
  ghost predicate Aged(db: PromptTables, clock: Millis) {
    && (forall p :: p in db.prompts ==> HasOriginal(db, p))
    && (forall a :: a in db.analyses ==> AgedAnalysis(db, a))
    && (forall p :: p in db.prompts ==> db.prompts[p].createdAt <= clock)
  }

  predicate IsOriginal(db: PromptTables, p: PromptId, a: AnalysisId) {
    p in db.prompts && AnalysisOf(db, a, p) && db.analyses[a].createdAt == db.prompts[p].createdAt
  }

  ghost predicate HasOriginal(db: PromptTables, p: PromptId) {
    exists a :: IsOriginal(db, p, a)
  }

  predicate AgedAnalysis(db: PromptTables, a: AnalysisId)
    requires a in db.analyses
  {
    db.analyses[a].promptId in db.prompts && db.prompts[db.analyses[a].promptId].createdAt <= db.analyses[a].createdAt
  }

  /** An accepted answer describes the prompt under the key of its call; a call that was
      refused by the index will find that prompt when it looks again. */
  predicate CallAgrees(db: PromptTables, call: Call) {
    match call.phase
    case Looking(retried) => retried ==> Taken(db, call)
    case Inserting(retried) => !retried
    case Done(Ok(accepted)) =>
      && accepted.id in db.prompts && SameKey(db.prompts[accepted.id], call)
      && db.prompts[accepted.id].eventHash == call.input
      && accepted.createdAt == db.prompts[accepted.id].createdAt
      && accepted.projectId == db.prompts[accepted.id].projectId
      && accepted.clientEventId == db.prompts[accepted.id].clientEventId
      && IsOriginal(db, accepted.id, accepted.analysisId)
    case Done(answer) => answer != UniqueViolation
  }

  ghost predicate CallsAgree(s: State) {
    forall id :: id in s.calls ==> CallAgrees(s.db, s.calls[id])
  }

  ghost predicate Sound(s: State) {
    KeysUnique(s.db) && Aged(s.db, s.clock) && CallsAgree(s)
  }

  /** Nothing removes a row or changes what identifies it. */
  ghost predicate RowsStay(before: PromptTables, after: PromptTables) {
    && (forall p :: p in before.prompts ==> p in after.prompts && after.prompts[p] == before.prompts[p].(deletedAt := after.prompts[p].deletedAt))
    && (forall a :: a in before.analyses ==> a in after.analyses && after.analyses[a] == before.analyses[a].(status := after.analyses[a].status))
  }

  lemma StepKeepsRows(s: State, e: Event)
    requires Enabled(s, e)
    ensures RowsStay(s.db, Take(s, e).db)
  {
  }

  lemma KeysStayUnique(s: State, e: Event)
    requires Enabled(s, e) && KeysUnique(s.db)
    ensures KeysUnique(Take(s, e).db)
  {
  }

  lemma OriginalStays(before: PromptTables, after: PromptTables, p: PromptId, a: AnalysisId)
    requires RowsStay(before, after) && IsOriginal(before, p, a)
    ensures IsOriginal(after, p, a)
  {
  }

  lemma TakenStays(before: PromptTables, after: PromptTables, call: Call)
    requires RowsStay(before, after) && Taken(before, call)
    ensures Taken(after, call)
  {
    var p := Existing(before, call);
    assert p in after.prompts;
    assert HasKey(after.prompts[p], call.connector.installationId, call.input.clientEventId);
  }

  lemma CallStaysAgreed(before: PromptTables, after: PromptTables, call: Call)
    requires RowsStay(before, after) && CallAgrees(before, call)
    ensures CallAgrees(after, call)
  {
    if call.phase.Looking? && call.phase.retried { TakenStays(before, after, call); }
  }

  /** An analysis that comes first is as old as the prompt. */
  lemma FirstIsOriginal(db: PromptTables, clock: Millis, p: PromptId, a: AnalysisId)
    requires Aged(db, clock) && p in db.prompts && IsFirstAnalysis(db, p, a)
    ensures IsOriginal(db, p, a)
  {
    assert HasOriginal(db, p);
    var o :| IsOriginal(db, p, o);
    assert AgedAnalysis(db, a);
  }

  lemma AgesStay(s: State, e: Event)
    requires Enabled(s, e) && Aged(s.db, s.clock)
    ensures Aged(Take(s, e).db, e.at)
  {
    var after := Take(s, e).db;
    StepKeepsRows(s, e);
    forall p | p in after.prompts ensures HasOriginal(after, p) {
      if p in s.db.prompts {
        assert HasOriginal(s.db, p);
        var a :| IsOriginal(s.db, p, a);
        OriginalStays(s.db, after, p, a);
      } else {
        assert IsOriginal(after, p, e.step.ids.analysisId);
      }
    }
    forall a | a in after.analyses ensures AgedAnalysis(after, a) {
      if a in s.db.analyses { assert AgedAnalysis(s.db, a); }
    }
  }

  lemma OwnCallAgrees(s: State, e: Event)
    requires Enabled(s, e) && Sound(s) && (e.step.Begin? || e.step.LookUp? || e.step.Insert?)
    ensures CallAgrees(Take(s, e).db, Take(s, e).calls[e.step.id])
  {
    if e.step.LookUp? {
      var call := s.calls[e.step.id];
      assert CallAgrees(s.db, call);
      if Taken(s.db, call) {
        var p := Existing(s.db, call);
        assert HasOriginal(s.db, p);
        var a :| IsOriginal(s.db, p, a);
        assert AnalysisOf(s.db, a, p);
        FirstIsOriginal(s.db, s.clock, p, e.step.first);
      }
    } else if e.step.Insert? {
      assert CallAgrees(s.db, s.calls[e.step.id]);
    }
  }

  lemma StepKeepsSound(s: State, e: Event)
    requires Enabled(s, e) && Sound(s)
    ensures Sound(Take(s, e))
  {
    var after := Take(s, e);
    KeysStayUnique(s, e);
    AgesStay(s, e);
    StepKeepsRows(s, e);
    forall id | id in after.calls ensures CallAgrees(after.db, after.calls[id]) {
      if (e.step.Begin? || e.step.LookUp? || e.step.Insert?) && id == e.step.id {
        OwnCallAgrees(s, e);
      } else {
        assert CallAgrees(s.db, s.calls[id]);
        CallStaysAgreed(s.db, after.db, s.calls[id]);
      }
    }
  }

  lemma {:induction false} AlwaysSound(run: Run)
    requires IsRun(run)
    ensures Sound(Reached(run))
    decreases run
  {
    if run.Then? {
      AlwaysSound(run.past);
      StepKeepsSound(Reached(run.past), run.event);
    }
  }

  // ------------------------------------------------------------ main results

  /** One retry is enough: no request ever ends with a violation of the unique index. */
  lemma OneRetrySuffices(run: Run, id: CallId)
    requires IsRun(run) && id in Reached(run).calls
    ensures Reached(run).calls[id].phase != Done(UniqueViolation)
    ensures Reached(run).calls[id].phase != Inserting(true)
  {
    AlwaysSound(run);
    assert CallAgrees(Reached(run).db, Reached(run).calls[id]);
  }

  /** All accepted answers for one installation and event agree on the prompt, its project
      and its creation time, and they answered the same request; the analyses they name
      are as old as the prompt. */
  lemma AnswersAgree(run: Run, i: CallId, j: CallId)
    requires IsRun(run) && i in Reached(run).calls && j in Reached(run).calls
    requires var c, d := Reached(run).calls[i], Reached(run).calls[j];
             && c.connector.installationId == d.connector.installationId && c.input.clientEventId == d.input.clientEventId
             && c.phase.Done? && c.phase.answer.Ok? && d.phase.Done? && d.phase.answer.Ok?
    ensures var c, d := Reached(run).calls[i], Reached(run).calls[j];
            && c.input == d.input
            && d.phase.answer.prompt == c.phase.answer.prompt.(analysisId := d.phase.answer.prompt.analysisId, duplicate := d.phase.answer.prompt.duplicate)
            && IsOriginal(Reached(run).db, c.phase.answer.prompt.id, c.phase.answer.prompt.analysisId)
            && IsOriginal(Reached(run).db, c.phase.answer.prompt.id, d.phase.answer.prompt.analysisId)
  {
    AlwaysSound(run);
    var db, c, d := Reached(run).db, Reached(run).calls[i], Reached(run).calls[j];
    assert CallAgrees(db, c) && CallAgrees(db, d);
    assert HasKey(db.prompts[c.phase.answer.prompt.id], db.prompts[d.phase.answer.prompt.id].installationId, db.prompts[d.phase.answer.prompt.id].clientEventId);
  }

  /** The analysis in the answer is determined exactly when no later analysis of the prompt
      was created at the very time of the first: the query orders by that time alone. */
  lemma AnalysisInAnswerFixedIff(run: Run, p: PromptId, original: AnalysisId)
    requires IsRun(run) && IsOriginal(Reached(run).db, p, original)
    ensures var db := Reached(run).db;
            (forall a :: IsFirstAnalysis(db, p, a) ==> a == original) <==>
              (forall b :: AnalysisOf(db, b, p) && b != original ==> db.analyses[b].createdAt > db.prompts[p].createdAt)
  {
    AlwaysSound(run);
    var db := Reached(run).db;
    forall a | AnalysisOf(db, a, p) ensures db.prompts[p].createdAt <= db.analyses[a].createdAt {
      assert AgedAnalysis(db, a);
    }
    forall b | AnalysisOf(db, b, p) && db.analyses[b].createdAt == db.prompts[p].createdAt ensures IsFirstAnalysis(db, p, b) {}
  }

  /** Once a key is taken, a request under it never writes, whatever its payload; and a
      different payload is never accepted. */
  lemma TakenKeyIsReadOnly(db: PromptTables, connector: Connector, input: Input, now: Millis, ids: RowIds, first: AnalysisId)
    requires KeyTaken(db, connector.installationId, input.clientEventId)
    ensures Ingest(db, connector, input, now, ids, first).0 == db
    ensures var p := PromptWithKey(db, connector.installationId, input.clientEventId);
            Ingest(db, connector, input, now, ids, first).1.Ok? <==>
              !Refused(connector, input, now) && HasAnalysis(db, p) && db.prompts[p].eventHash == input
  {
  }
}
