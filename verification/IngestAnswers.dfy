/** Which analysis the accepted answers for one event name, over whole runs: always the one
    stored with the prompt, unless another was requested at the very time of the prompt. */
module IngestAnswers {
  import opened Prelude
  import opened ConnectorStore
  import opened PromptStore
  import opened IngestRaces

  /** The step queues one more analysis of the prompt at the prompt's own creation time. */
  predicate Ties(s: IngestRaces.State, e: IngestRaces.Event, p: PromptId) {
    && e.step.AskAgain? && e.step.promptId == p && p in s.db.prompts && e.at == s.db.prompts[p].createdAt
    && Reanalyze(s.db, e.step.actor, p, e.at, e.step.newAnalysis, e.step.newEvent).1.Requeued?
  }

  ghost predicate Tied(run: IngestRaces.Run, p: PromptId)
    requires IngestRaces.IsRun(run)
  {
    run.Then? && (Tied(run.past, p) || Ties(Reached(run.past), run.event, p))
  }

  ghost predicate OneOriginal(db: PromptTables, p: PromptId) {
    forall a, b :: IsOriginal(db, p, a) && IsOriginal(db, p, b) ==> a == b
  }

  /** What one step does to the analyses that are as old as their prompt. */
  lemma StepKeepsOneOriginalIff(s: IngestRaces.State, e: IngestRaces.Event, p: PromptId)
    requires IngestRaces.Enabled(s, e) && Sound(s)
    ensures OneOriginal(IngestRaces.Take(s, e).db, p) <==> OneOriginal(s.db, p) && !Ties(s, e, p)
  {
    var after := IngestRaces.Take(s, e).db;
    StepKeepsRows(s, e);
    if !OneOriginal(s.db, p) {
      var a, b :| IsOriginal(s.db, p, a) && IsOriginal(s.db, p, b) && a != b;
      OriginalStays(s.db, after, p, a);
      OriginalStays(s.db, after, p, b);
    } else if Ties(s, e, p) {
      assert HasOriginal(s.db, p);
      var a :| IsOriginal(s.db, p, a);
      OriginalStays(s.db, after, p, a);
      assert IsOriginal(after, p, e.step.newAnalysis);
    } else {
      forall a, b | IsOriginal(after, p, a) && IsOriginal(after, p, b) ensures a == b {
        NewOriginal(s, e, p, a);
        NewOriginal(s, e, p, b);
      }
    }
    hide IngestRaces.Take, IngestRaces.Enabled, Ties;
  }

  /** An original analysis is not new, unless its prompt is or the step ties. */
  lemma NewOriginal(s: IngestRaces.State, e: IngestRaces.Event, p: PromptId, a: AnalysisId)
    requires IngestRaces.Enabled(s, e) && Sound(s) && !Ties(s, e, p)
    requires IsOriginal(IngestRaces.Take(s, e).db, p, a)
    ensures IsOriginal(s.db, p, a) || (p !in s.db.prompts && e.step.Insert? && a == e.step.ids.analysisId)
  {
    if a in s.db.analyses { assert AgedAnalysis(s.db, a); }
  }

  lemma {:induction false} OneOriginalIff(run: IngestRaces.Run, p: PromptId)
    requires IngestRaces.IsRun(run)
    ensures OneOriginal(Reached(run).db, p) <==> !Tied(run, p)
  {
    if run.Then? {
      OneOriginalIff(run.past, p);
      AlwaysSound(run.past);
      StepKeepsOneOriginalIff(Reached(run.past), run.event, p);
      hide IngestRaces.Take, OneOriginal;
    }
  }

  ghost predicate AcceptedFor(s: IngestRaces.State, i: CallId, p: PromptId) {
    && i in s.calls && s.calls[i].phase.Done? && s.calls[i].phase.answer.Ok?
    && s.calls[i].phase.answer.prompt.id == p
  }

  /** All accepted answers for a prompt name one analysis, if no request for another came at
      its creation time. */
  lemma AnswersNameOneAnalysis(run: IngestRaces.Run, i: CallId, j: CallId, p: PromptId)
    requires IngestRaces.IsRun(run) && !Tied(run, p)
    requires AcceptedFor(Reached(run), i, p) && AcceptedFor(Reached(run), j, p)
    ensures Reached(run).calls[i].phase.answer.prompt.analysisId == Reached(run).calls[j].phase.answer.prompt.analysisId
  {
    AlwaysSound(run);
    OneOriginalIff(run, p);
    var s := Reached(run);
    assert CallAgrees(s.db, s.calls[i]) && CallAgrees(s.db, s.calls[j]);
  }

  /** If one did, two requests that repeat the stored event can be answered differently. */
  lemma TiedAnswersDiffer(run: IngestRaces.Run, p: PromptId, i: CallId, j: CallId) returns (longer: IngestRaces.Run)
    requires IngestRaces.IsRun(run) && Tied(run, p)
    requires i !in Reached(run).calls && j !in Reached(run).calls && i != j
    ensures IngestRaces.IsRun(longer) && Within(run, longer)
    ensures AcceptedFor(Reached(longer), i, p) && AcceptedFor(Reached(longer), j, p)
    ensures Reached(longer).calls[i].phase.answer.prompt.analysisId != Reached(longer).calls[j].phase.answer.prompt.analysisId
  {
    OneOriginalIff(run, p);
    AlwaysSound(run);
    HashCarriesKey(run, p);
    var a, b :| IsOriginal(Reached(run).db, p, a) && IsOriginal(Reached(run).db, p, b) && a != b;
    longer := Repeated(run, p, i, a);
    AlwaysSound(longer);
    var next := Repeated(longer, p, j, b);
    WithinTransitive(run, longer, next);
    longer := next;
  }

  /** The request that a prompt was stored for carries its key. */
  lemma {:induction false} HashCarriesKey(run: IngestRaces.Run, p: PromptId)
    requires IngestRaces.IsRun(run) && p in Reached(run).db.prompts
    ensures Reached(run).db.prompts[p].eventHash.clientEventId == Reached(run).db.prompts[p].clientEventId
  {
    if p in Reached(run.past).db.prompts {
      HashCarriesKey(run.past, p);
      StepKeepsRows(Reached(run.past), run.event);
      hide IngestRaces.Take;
    }
  }

  /** A request that repeats a stored event is accepted with any analysis that is as old as
      the prompt. */
  lemma Repeated(run: IngestRaces.Run, p: PromptId, i: CallId, a: AnalysisId) returns (longer: IngestRaces.Run)
    requires IngestRaces.IsRun(run) && i !in Reached(run).calls && IsOriginal(Reached(run).db, p, a)
    requires Reached(run).db.prompts[p].eventHash.clientEventId == Reached(run).db.prompts[p].clientEventId
    ensures IngestRaces.IsRun(longer) && Within(run, longer) && Reached(longer).db == Reached(run).db
    ensures AcceptedFor(Reached(longer), i, p) && Reached(longer).calls[i].phase.answer.prompt.analysisId == a
    ensures forall k :: k in Reached(run).calls ==> k in Reached(longer).calls && Reached(longer).calls[k] == Reached(run).calls[k]
    ensures forall k :: k in Reached(longer).calls ==> k in Reached(run).calls || k == i
  {
    AlwaysSound(run);
    var s, row := Reached(run), Reached(run).db.prompts[p];
    var input := row.eventHash;
    var connector := Connector(row.installationId, row.tenantId, row.userId, input.projectId, input.platform);
    var at := if s.clock < input.occurredAt then input.occurredAt else s.clock;
    var begun := Then(run, IngestRaces.Event(at, Begin(i, connector, input)));
    var s1 := Reached(begun);
    assert s1.calls[i] == Call(connector, input, Looking(false)) && s1.db == s.db;
    assert HasKey(row, connector.installationId, input.clientEventId);
    assert Existing(s1.db, s1.calls[i]) == p;
    assert AnalysisOf(s1.db, a, p);
    OriginalComesFirst(s.db, s.clock, p, a);
    longer := Then(begun, IngestRaces.Event(at, LookUp(i, a)));
    assert Within(run, begun);
  }

  lemma OriginalComesFirst(db: PromptTables, clock: Millis, p: PromptId, a: AnalysisId)
    requires Aged(db, clock) && IsOriginal(db, p, a)
    ensures IsFirstAnalysis(db, p, a) && HasAnalysis(db, p)
  {
    forall b | b in db.analyses && AnalysisOf(db, b, p) ensures db.analyses[a].createdAt <= db.analyses[b].createdAt {
      assert AgedAnalysis(db, b);
    }
  }

  const Sender := Connector(1, 0, 2, 0, "cli")
  const Asked := Input(7, 0, "text", "cli", "model", 0, "UTC", [])

  /** One more step of a run, at time zero. */
  lemma Extend(run: IngestRaces.Run, step: IngestRaces.Step, s: IngestRaces.State) returns (longer: IngestRaces.Run)
    requires IngestRaces.IsRun(run) && Reached(run) == s && IngestRaces.Enabled(s, IngestRaces.Event(0, step))
    ensures longer == Then(run, IngestRaces.Event(0, step)) && IngestRaces.IsRun(longer)
    ensures Reached(longer) == IngestRaces.Take(s, IngestRaces.Event(0, step))
  {
    longer := Then(run, IngestRaces.Event(0, step));
  }

  /** A prompt is stored. */
  lemma StoredOnce() returns (run: IngestRaces.Run, s: IngestRaces.State)
    ensures IngestRaces.IsRun(run) && s == Reached(run) && s.clock == 0 && s.calls.Keys == {0}
    ensures s.db.prompts == map[0 := NewPrompt(Sender, Asked, 0)] && s.db.analyses == map[0 := Analysis(0, 0, QUEUED, 0)]
    ensures s.db.outbox.Keys == {0}
  {
    run, s := Start, IngestRaces.State(NoPrompts, map[], 0);
    run := Extend(run, SetProjects(map[0 := Project(0, true)]), s);
    s := Reached(run);
    run := Extend(run, Begin(0, Sender, Asked), s);
    s := Reached(run);
    assert s.calls[0] == Call(Sender, Asked, Looking(false));
    run := Extend(run, LookUp(0, 0), s);
    s := Reached(run);
    assert s.calls[0].phase == Inserting(false);
    run := Extend(run, Insert(0, RowIds(0, 0, 0)), s);
    s := Reached(run);
  }

  /** Its analysis fails, another is requested, and the event is sent twice more, all by one
      reading of the clock: the two answers name different analyses. */
  lemma AnswersDifferByTie() returns (run: IngestRaces.Run)
    ensures IngestRaces.IsRun(run) && Tied(run, 0)
    ensures AcceptedFor(Reached(run), 1, 0) && AcceptedFor(Reached(run), 2, 0)
    ensures Reached(run).calls[1].phase.answer.prompt.analysisId != Reached(run).calls[2].phase.answer.prompt.analysisId
  {
    var s;
    run, s := StoredOnce();
    run := Extend(run, Progress(0, AnalysisStatus.FAILED), s);
    s := Reached(run);
    assert s.db.analyses == map[0 := Analysis(0, 0, AnalysisStatus.FAILED, 0)];
    var tied := Extend(run, AskAgain(Actor(0, 2, MEMBER), 0, 1, 1), s);
    assert Ties(s, tied.event, 0);
    assert Reached(tied).calls == s.calls;
    run := TiedAnswersDiffer(tied, 0, 1, 2);
    TieStays(tied, run, 0);
  }

  lemma {:induction false} TieStays(h: IngestRaces.Run, run: IngestRaces.Run, p: PromptId)
    requires IngestRaces.IsRun(run) && Within(h, run) && IngestRaces.IsRun(h) && Tied(h, p)
    ensures Tied(run, p)
    decreases run
  {
    if h != run {
      TieStays(h, run.past, p);
    }
  }
}
