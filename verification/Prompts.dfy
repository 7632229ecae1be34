/** The prompt service itself, over tables that it owns. It keeps, as a ghost, the run of
    concurrent requests that its calls amount to when they come one after the other, so what
    holds of every such run holds after every sequence of calls. */
module Prompts {
  import opened Prelude
  import opened ConnectorStore
  import opened PromptStore
  import IngestRaces
  import PromptAnswers

  class PromptsService {
    var db: PromptTables
    ghost var run: IngestRaces.Run
    ghost var calls: nat

    /** The tables are those of the run, whose requests are numbered in order. */
    ghost predicate Valid()
      reads this
    {
      && IngestRaces.IsRun(run) && IngestRaces.Reached(run).db == db
      && forall id: nat :: id in IngestRaces.Reached(run).calls <==> id < calls
    }

    ghost predicate MayAct(now: Millis)
      reads this
    {
      Valid() && IngestRaces.Reached(run).clock <= now
    }

    /** The installation has not stored the event. */
    predicate KeyIsFree(connector: Connector, input: Input)
      reads this
    {
      forall p | p in db.prompts :: db.prompts[p].installationId == connector.installationId ==> db.prompts[p].clientEventId != input.clientEventId
    }

    constructor ()
      ensures Valid() && db == NoPrompts && calls == 0
    {
      db, run, calls := NoPrompts, Start, 0;
    }

    /** A request becomes the next call of the run, and is answered there as here. */
    method Ingest(connector: Connector, input: Input, now: Millis, ids: RowIds) returns (answer: IngestAnswer, ghost first: AnalysisId)
      requires MayAct(now) && ids.promptId !in db.prompts && ids.analysisId !in db.analyses && ids.eventId !in db.outbox
      modifies this
      ensures Valid() && Within(old(run), run) && calls == old(calls) + 1
      ensures (db, answer) == PromptStore.Ingest(old(db), connector, input, now, ids, first)
      ensures old(KeyIsFree(connector, input)) ==>
                var passes := && input.projectId == connector.defaultProjectId && input.platform == connector.platform
                              && input.occurredAt <= now + 300_000;
                var open := && input.projectId in old(db.projects) && old(db.projects)[input.projectId].active
                            && old(db.projects)[input.projectId].tenantId == connector.tenantId;
                (answer.ProjectUnavailable? <==> passes && !open) && (answer.Ok? <==> passes && open)
      ensures var call := IngestRaces.Reached(run).calls[old(calls)];
              call == IngestRaces.Call(connector, input, IngestRaces.Done(answer))
    {
      ghost var before := db;
      KeysOfRun(run);
      answer, first := TryIngest(connector, input, false, now, ids);
      PromptAnswers.IngestAnswersAre(before, connector, input, now, ids, first);
      hide PromptStore.Ingest;
      run := OneAfterTheOther(run, calls, connector, input, now, ids, first);
      calls := calls + 1;
    }

    /** The transaction of `ingest`, statement by statement, with one retry after a
        violation of the unique index. */
    method TryIngest(connector: Connector, input: Input, retriedAfterConflict: bool, now: Millis, ids: RowIds)
      returns (answer: IngestAnswer, ghost first: AnalysisId)
      requires KeysUnique(db)
      modifies this`db
      decreases !retriedAfterConflict
      ensures (db, answer) == PromptStore.Ingest(old(db), connector, input, now, ids, first)
      ensures answer.Ok? && answer.prompt.duplicate ==> IsFirstAnalysis(db, answer.prompt.id, first)
    {
      first := 0;
      if input.projectId != connector.defaultProjectId {
        return WrongProject, first;
      }
      if input.platform != connector.platform {
        return WrongPlatform, first;
      }
      if input.occurredAt > now + MAX_CLOCK_SKEW_MS {
        return TooFarInFuture, first;
      }
      if p :| p in db.prompts && HasKey(db.prompts[p], connector.installationId, input.clientEventId) {
        assert p == PromptWithKey(db, connector.installationId, input.clientEventId);
        if a :| a in db.analyses && IsFirstAnalysis(db, p, a) {
          if db.prompts[p].eventHash != input {
            return HashConflict, first;
          }
          return Answer(db, p, a, true), a;
        } else if HasAnalysis(db, p) {
          ghost var oldest := OldestExists(db, p);
          assert false;
        }
      }
      if !ProjectActive(db, connector, input) {
        return ProjectUnavailable, first;
      }
      if exists p | p in db.prompts :: HasKey(db.prompts[p], connector.installationId, input.clientEventId) {
        if !retriedAfterConflict {
          answer, first := TryIngest(connector, input, true, now, ids);
          return;
        }
        return UniqueViolation, first;
      }
      db := db.(prompts := db.prompts[ids.promptId := NewPrompt(connector, input, now)]);
      AttachTags(connector.tenantId, ids.promptId, input.tags);
      db := db.(analyses := db.analyses[ids.analysisId := Analysis(connector.tenantId, ids.promptId, QUEUED, now)]);
      db := db.(outbox := db.outbox[ids.eventId := OutboxEvent(connector.tenantId, ids.promptId, ids.analysisId, now, None, 0)]);
      return Answer(db, ids.promptId, ids.analysisId, false), first;
    }

    /** Each distinct tag is created if the workspace lacks it, and attached once. */
    method AttachTags(tenantId: TenantId, p: PromptId, tags: seq<string>)
      modifies this`db
      ensures db == old(db).(tags := old(db.tags) + Pairs(tenantId, tags), promptTags := old(db.promptTags) + Pairs(p, tags))
    {
      var done: set<string> := {};
      for i := 0 to |tags|
        invariant done == set name | name in tags[..i]
        invariant db == old(db).(tags := old(db.tags) + Pairs(tenantId, tags[..i]),
                                 promptTags := old(db.promptTags) + Pairs(p, tags[..i]))
      {
        assert tags[..i + 1] == tags[..i] + [tags[i]];
        assert Pairs(tenantId, tags[..i + 1]) == Pairs(tenantId, tags[..i]) + {(tenantId, tags[i])};
        assert Pairs(p, tags[..i + 1]) == Pairs(p, tags[..i]) + {(p, tags[i])};
        if tags[i] !in done {
          db := db.(tags := db.tags + {(tenantId, tags[i])});
          db := db.(promptTags := db.promptTags + {(p, tags[i])});
          done := done + {tags[i]};
        }
      }
      assert tags[..|tags|] == tags;
    }

    method Reanalyze(actor: Actor, p: PromptId, now: Millis, a: AnalysisId, e: EventId) returns (answer: ReanalyzeAnswer)
      requires MayAct(now) && a !in db.analyses && e !in db.outbox
      modifies this
      ensures Valid() && run == Then(old(run), IngestRaces.Event(now, IngestRaces.AskAgain(actor, p, a, e)))
      ensures (db, answer) == PromptStore.Reanalyze(old(db), actor, p, now, a, e) && calls == old(calls)
      ensures answer.Requeued? <==>
                && actor.role != VIEWER && p in old(db.prompts) && old(db.prompts)[p].tenantId == actor.tenantId
                && old(db.prompts)[p].deletedAt == None
                && (actor.role == OWNER || actor.role == ADMIN || old(db.prompts)[p].userId == actor.userId)
                && forall x :: x in old(db.analyses) && old(db.analyses)[x].promptId == p
                               ==> old(db.analyses)[x].status != QUEUED && old(db.analyses)[x].status != RUNNING
    {
      PromptAnswers.ReanalyzeAnswersAre(db, actor, p, now, a, e);
      run := Then(run, IngestRaces.Event(now, IngestRaces.AskAgain(actor, p, a, e)));
      if actor.role == VIEWER {
        return RoleForbidden;
      }
      if !Visible(db, actor, p) {
        return PromptNotFound;
      }
      if HasActiveAnalysis(db, p) {
        return AlreadyActive;
      }
      db := db.(analyses := db.analyses[a := Analysis(actor.tenantId, p, QUEUED, now)]);
      db := db.(outbox := db.outbox[e := OutboxEvent(actor.tenantId, p, a, now, None, 0)]);
      return Requeued(a);
    }

    method Delete(actor: Actor, p: PromptId, now: Millis) returns (answer: DeleteAnswer)
      requires MayAct(now)
      modifies this
      ensures Valid() && run == Then(old(run), IngestRaces.Event(now, IngestRaces.Remove(actor, p)))
      ensures (db, answer) == PromptStore.Delete(old(db), actor, p, now) && calls == old(calls)
      ensures answer.Deleted? <==>
                && actor.role != VIEWER && p in old(db.prompts) && old(db.prompts)[p].tenantId == actor.tenantId
                && old(db.prompts)[p].deletedAt == None
                && (actor.role == OWNER || actor.role == ADMIN || old(db.prompts)[p].userId == actor.userId)
    {
      PromptAnswers.DeleteAnswersAre(db, actor, p, now);
      run := Then(run, IngestRaces.Event(now, IngestRaces.Remove(actor, p)));
      if actor.role == VIEWER {
        return DeleteForbidden;
      }
      if !Visible(db, actor, p) {
        return NothingDeleted;
      }
      db := db.(prompts := db.prompts[p := db.prompts[p].(deletedAt := Some(now))]);
      return Deleted;
    }

    /** What others write to the same tables. */
    method ChangeProjects(projects: map<ProjectId, Project>, now: Millis)
      requires MayAct(now)
      modifies this
      ensures Valid() && run == Then(old(run), IngestRaces.Event(now, IngestRaces.SetProjects(projects))) && calls == old(calls)
    {
      run := Then(run, IngestRaces.Event(now, IngestRaces.SetProjects(projects)));
      db := db.(projects := projects);
    }

    method SetAnalysisStatus(a: AnalysisId, status: AnalysisStatus, now: Millis)
      requires MayAct(now) && a in db.analyses
      modifies this
      ensures Valid() && run == Then(old(run), IngestRaces.Event(now, IngestRaces.Progress(a, status))) && calls == old(calls)
    {
      run := Then(run, IngestRaces.Event(now, IngestRaces.Progress(a, status)));
      db := db.(analyses := db.analyses[a := db.analyses[a].(status := status)]);
    }
  }

  lemma KeysOfRun(run: IngestRaces.Run)
    requires IngestRaces.IsRun(run)
    ensures KeysUnique(IngestRaces.Reached(run).db)
  {
    IngestRaces.AlwaysSound(run);
  }

  /** A request that nobody interrupts begins, looks up and inserts at one instant, and ends
      as the whole transaction does. */
  lemma OneAfterTheOther(run: IngestRaces.Run, id: nat, connector: Connector, input: Input, now: Millis, ids: RowIds, first: AnalysisId)
    returns (longer: IngestRaces.Run)
    requires IngestRaces.IsRun(run) && IngestRaces.Reached(run).clock <= now && id !in IngestRaces.Reached(run).calls
    requires var db := IngestRaces.Reached(run).db;
             && ids.promptId !in db.prompts && ids.analysisId !in db.analyses && ids.eventId !in db.outbox
             && var answer := PromptStore.Ingest(db, connector, input, now, ids, first).1;
                answer.Ok? && answer.prompt.duplicate ==> IsFirstAnalysis(db, answer.prompt.id, first)
    ensures IngestRaces.IsRun(longer) && Within(run, longer)
    ensures var (db, answer) := PromptStore.Ingest(IngestRaces.Reached(run).db, connector, input, now, ids, first);
            && IngestRaces.Reached(longer).db == db && IngestRaces.Reached(longer).clock == now
            && IngestRaces.Reached(longer).calls
               == IngestRaces.Reached(run).calls[id := IngestRaces.Call(connector, input, IngestRaces.Done(answer))]
  {
    IngestRaces.AlwaysSound(run);
    var s := IngestRaces.Reached(run);
    longer := Then(run, IngestRaces.Event(now, IngestRaces.Begin(id, connector, input)));
    assert Within(run, longer);
    if !Refused(connector, input, now) {
      var begun, call := longer, IngestRaces.Call(connector, input, IngestRaces.Looking(false));
      assert IngestRaces.Reached(begun) == IngestRaces.State(s.db, s.calls[id := call], now);
      hide IngestRaces.Take, IngestRaces.Enabled, IngestRaces.IsRun, IngestRaces.Reached, PromptStore.Ingest, IngestRaces.Sound;
      longer := LookUpAndInsert(begun, s.db, s.calls, id, call, now, ids, first);
      WithinTransitive(run, begun, longer);
    }
  }

  /** The second half, after the checks that need no table. */
  lemma LookUpAndInsert(run: IngestRaces.Run, db: PromptTables, others: map<nat, IngestRaces.Call>, id: nat, call: IngestRaces.Call,
                        now: Millis, ids: RowIds, first: AnalysisId)
    returns (longer: IngestRaces.Run)
    requires IngestRaces.IsRun(run) && id !in others && call.phase == IngestRaces.Looking(false)
    requires IngestRaces.Reached(run) == IngestRaces.State(db, others[id := call], now)
    requires !Refused(call.connector, call.input, now)
    requires ids.promptId !in db.prompts && ids.analysisId !in db.analyses && ids.eventId !in db.outbox
    requires var answer := PromptStore.Ingest(db, call.connector, call.input, now, ids, first).1;
             answer.Ok? && answer.prompt.duplicate ==> IsFirstAnalysis(db, answer.prompt.id, first)
    ensures IngestRaces.IsRun(longer) && Within(run, longer)
    ensures var (after, answer) := PromptStore.Ingest(db, call.connector, call.input, now, ids, first);
            IngestRaces.Reached(longer) == IngestRaces.State(after, others[id := call.(phase := IngestRaces.Done(answer))], now)
  {
    IngestRaces.AlwaysSound(run);
    NotTaken(IngestRaces.Reached(run), call);
    hide IngestRaces.Sound, InsertPrompt;
    var oldest := first;
    if IngestRaces.Taken(db, call) && db.prompts[IngestRaces.Existing(db, call)].eventHash != call.input {
      oldest := OldestExists(db, IngestRaces.Existing(db, call));
    }
    longer := Then(run, IngestRaces.Event(now, IngestRaces.LookUp(id, oldest)));
    assert Within(run, longer);
    var found := call.(phase := IngestRaces.Found(db, call, oldest));
    assert others[id := call][id := found] == others[id := found];
    assert IngestRaces.Reached(longer) == IngestRaces.State(db, others[id := found], now);
    if found.phase.Inserting? {
      longer := Then(longer, IngestRaces.Event(now, IngestRaces.Insert(id, ids)));
      var answer := Answer(InsertPrompt(db, call.connector, call.input, now, ids), ids.promptId, ids.analysisId, false);
      assert others[id := found][id := call.(phase := IngestRaces.Done(answer))] == others[id := call.(phase := IngestRaces.Done(answer))];
    }
  }

  /** In a run a stored event has an analysis, so a lookup that goes on to insert found none. */
  lemma NotTaken(s: IngestRaces.State, call: IngestRaces.Call)
    requires IngestRaces.Sound(s)
    ensures IngestRaces.Taken(s.db, call) ==> HasAnalysis(s.db, IngestRaces.Existing(s.db, call))
  {
    if IngestRaces.Taken(s.db, call) {
      var p := IngestRaces.Existing(s.db, call);
      assert IngestRaces.HasOriginal(s.db, p);
      var a :| IngestRaces.IsOriginal(s.db, p, a);
      assert AnalysisOf(s.db, a, p);
    }
  }
}
