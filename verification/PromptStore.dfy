/** The prompt, analysis and outbox tables, and the API transactions that write them. */
module PromptStore {
  import opened Prelude
  import opened ConnectorStore

  const MAX_CLOCK_SKEW_MS: Millis := 5 * 60 * 1_000

  type PromptId = nat
  type AnalysisId = nat
  type EventId = nat
  type ClientEventId = nat

  datatype AnalysisStatus = QUEUED | RUNNING | COMPLETED | FAILED

  /** A parsed ingest request. Its digest is taken to be injective, so the request stands
      for its own digest. Tags are already in lower case. */
  datatype Input = Input(
    clientEventId: ClientEventId,
    projectId: ProjectId,
    content: string,
    platform: string,
    model: string,
    occurredAt: Millis,
    timezone: string,
    tags: seq<string>)

  datatype Prompt = Prompt(
    tenantId: TenantId,
    projectId: ProjectId,
    userId: UserId,
    installationId: InstallationId,
    clientEventId: ClientEventId,
    eventHash: Input,
    createdAt: Millis,
    deletedAt: Option<Millis>)

  datatype Analysis = Analysis(tenantId: TenantId, promptId: PromptId, status: AnalysisStatus, createdAt: Millis)

  datatype OutboxEvent = OutboxEvent(
    tenantId: TenantId,
    promptId: PromptId,
    analysisId: AnalysisId,
    occurredAt: Millis,
    publishedAt: Option<Millis>,
    attempts: nat)

  datatype Usage = Usage(tenantId: TenantId, analysisId: AnalysisId, tokens: nat, createdAt: Millis)

  /** `usage` grows at its end; `improved` has a unique key on the analysis. */
  datatype PromptTables = PromptTables(
    projects: map<ProjectId, Project>,
    prompts: map<PromptId, Prompt>,
    tags: set<(TenantId, string)>,
    promptTags: set<(PromptId, string)>,
    analyses: map<AnalysisId, Analysis>,
    outbox: map<EventId, OutboxEvent>,
    improved: map<AnalysisId, PromptId>,
    usage: History<Usage>)

  const NoPrompts := PromptTables(map[], map[], {}, {}, map[], map[], map[], Start)

  /** The identifiers that an inserting transaction draws. */
  datatype RowIds = RowIds(promptId: PromptId, analysisId: AnalysisId, eventId: EventId)

  datatype Accepted = Accepted(
    id: PromptId,
    projectId: ProjectId,
    clientEventId: ClientEventId,
    analysisId: AnalysisId,
    duplicate: bool,
    createdAt: Millis)

  datatype IngestAnswer =
    | WrongProject | WrongPlatform | TooFarInFuture
    | HashConflict | ProjectUnavailable | UniqueViolation
    | Ok(prompt: Accepted)

  datatype ReanalyzeAnswer = RoleForbidden | PromptNotFound | AlreadyActive | Requeued(analysisId: AnalysisId)

  datatype DeleteAnswer = DeleteForbidden | NothingDeleted | Deleted

  // ---------------------------------------------------------------- queries

  predicate HasKey(prompt: Prompt, installationId: InstallationId, clientEventId: ClientEventId) {
    prompt.installationId == installationId && prompt.clientEventId == clientEventId
  }

  predicate KeyTaken(db: PromptTables, installationId: InstallationId, clientEventId: ClientEventId) {
    exists p | p in db.prompts :: HasKey(db.prompts[p], installationId, clientEventId)
  }

  ghost function PromptWithKey(db: PromptTables, installationId: InstallationId, clientEventId: ClientEventId): (p: PromptId)
    requires KeyTaken(db, installationId, clientEventId)
    ensures p in db.prompts && HasKey(db.prompts[p], installationId, clientEventId)
  {
    var p :| p in db.prompts && HasKey(db.prompts[p], installationId, clientEventId);
    p
  }

  /** The unique index on (connector_installation_id, client_event_id). */
  ghost predicate KeysUnique(db: PromptTables) {
    forall p, q :: p in db.prompts && q in db.prompts
                   && HasKey(db.prompts[p], db.prompts[q].installationId, db.prompts[q].clientEventId)
                   ==> p == q
  }

  predicate AnalysisOf(db: PromptTables, a: AnalysisId, p: PromptId) {
    a in db.analyses && db.analyses[a].promptId == p
  }

  /** `a` can come first when the analyses of `p` are ordered by creation time. */
  predicate IsFirstAnalysis(db: PromptTables, p: PromptId, a: AnalysisId) {
    AnalysisOf(db, a, p)
    && forall b | b in db.analyses :: AnalysisOf(db, b, p) ==> db.analyses[a].createdAt <= db.analyses[b].createdAt
  }

  predicate HasAnalysis(db: PromptTables, p: PromptId) {
    exists a | a in db.analyses :: AnalysisOf(db, a, p)
  }

  predicate HasActiveAnalysis(db: PromptTables, p: PromptId) {
    exists a | a in db.analyses :: AnalysisOf(db, a, p) && (db.analyses[a].status == QUEUED || db.analyses[a].status == RUNNING)
  }

  /** Prompts an actor may see: all of the workspace for administrators, else their own. */
  predicate InScope(actor: Actor, prompt: Prompt) {
    prompt.tenantId == actor.tenantId && (IsTenantAdmin(actor.role) || prompt.userId == actor.userId)
  }

  predicate Visible(db: PromptTables, actor: Actor, p: PromptId) {
    p in db.prompts && InScope(actor, db.prompts[p]) && db.prompts[p].deletedAt.None?
  }

  // ----------------------------------------------------------- transactions

  function QueueAnalysis(db: PromptTables, tenantId: TenantId, p: PromptId, a: AnalysisId, e: EventId, now: Millis): PromptTables {
    db.(analyses := db.analyses[a := Analysis(tenantId, p, QUEUED, now)],
        outbox := db.outbox[e := OutboxEvent(tenantId, p, a, now, None, 0)])
  }

  function NewPrompt(connector: Connector, input: Input, now: Millis): Prompt {
    Prompt(connector.tenantId, input.projectId, connector.userId, connector.installationId, input.clientEventId, input, now, None)
  }

  /** One row for each distinct name. */
  function Pairs(owner: nat, names: seq<string>): set<(nat, string)> {
    set name | name in names :: (owner, name)
  }

  function InsertPrompt(db: PromptTables, connector: Connector, input: Input, now: Millis, ids: RowIds): PromptTables {
    QueueAnalysis(db.(prompts := db.prompts[ids.promptId := NewPrompt(connector, input, now)],
                      tags := db.tags + Pairs(connector.tenantId, input.tags),
                      promptTags := db.promptTags + Pairs(ids.promptId, input.tags)),
                  connector.tenantId, ids.promptId, ids.analysisId, ids.eventId, now)
  }

  function Answer(db: PromptTables, p: PromptId, a: AnalysisId, duplicate: bool): IngestAnswer
    requires p in db.prompts
  {
    Ok(Accepted(p, db.prompts[p].projectId, db.prompts[p].clientEventId, a, duplicate, db.prompts[p].createdAt))
  }

  /** What is checked before the transaction begins. */
  predicate Refused(connector: Connector, input: Input, now: Millis) {
    input.projectId != connector.defaultProjectId || input.platform != connector.platform || input.occurredAt > now + MAX_CLOCK_SKEW_MS
  }

  function Refusal(connector: Connector, input: Input, now: Millis): IngestAnswer
    requires Refused(connector, input, now)
  {
    if input.projectId != connector.defaultProjectId then WrongProject
    else if input.platform != connector.platform then WrongPlatform
    else TooFarInFuture
  }

  predicate ProjectActive(db: PromptTables, connector: Connector, input: Input) {
    input.projectId in db.projects && db.projects[input.projectId] == Project(connector.tenantId, true)
  }

  /** `first` is the analysis that the ordered query returns for a known prompt. */
  ghost function Ingest(db: PromptTables, connector: Connector, input: Input, now: Millis, ids: RowIds, first: AnalysisId)
    : (PromptTables, IngestAnswer)
  {
    if Refused(connector, input, now) then (db, Refusal(connector, input, now))
    else if KeyTaken(db, connector.installationId, input.clientEventId)
            && HasAnalysis(db, PromptWithKey(db, connector.installationId, input.clientEventId)) then
      var p := PromptWithKey(db, connector.installationId, input.clientEventId);
      if db.prompts[p].eventHash != input then (db, HashConflict) else (db, Answer(db, p, first, true))
    else if !ProjectActive(db, connector, input) then (db, ProjectUnavailable)
    else if KeyTaken(db, connector.installationId, input.clientEventId) then (db, UniqueViolation)
    else
      var inserted := InsertPrompt(db, connector, input, now, ids);
      (inserted, Answer(inserted, ids.promptId, ids.analysisId, false))
  }

  function Reanalyze(db: PromptTables, actor: Actor, p: PromptId, now: Millis, a: AnalysisId, e: EventId): (PromptTables, ReanalyzeAnswer) {
    if actor.role == VIEWER then (db, RoleForbidden)
    else if !Visible(db, actor, p) then (db, PromptNotFound)
    else if HasActiveAnalysis(db, p) then (db, AlreadyActive)
    else (QueueAnalysis(db, actor.tenantId, p, a, e, now), Requeued(a))
  }

  function Delete(db: PromptTables, actor: Actor, p: PromptId, now: Millis): (PromptTables, DeleteAnswer) {
    if actor.role == VIEWER then (db, DeleteForbidden)
    else if !Visible(db, actor, p) then (db, NothingDeleted)
    else (db.(prompts := db.prompts[p := db.prompts[p].(deletedAt := Some(now))]), Deleted)
  }

  /** A prompt with analyses has an oldest one. */
  lemma OldestExists(db: PromptTables, p: PromptId) returns (a: AnalysisId)
    requires HasAnalysis(db, p)
    ensures IsFirstAnalysis(db, p, a)
  {
    var all := set b | b in db.analyses && AnalysisOf(db, b, p);
    var some :| some in db.analyses && AnalysisOf(db, some, p);
    assert some in all;
    a := OldestOf(db, all);
    forall b | b in db.analyses && AnalysisOf(db, b, p) ensures db.analyses[a].createdAt <= db.analyses[b].createdAt {
      assert b in all;
    }
  }

  lemma {:induction false} OldestOf(db: PromptTables, ids: set<AnalysisId>) returns (a: AnalysisId)
    requires ids != {} && ids <= db.analyses.Keys
    ensures a in ids && forall b :: b in ids ==> db.analyses[a].createdAt <= db.analyses[b].createdAt
  {
    var x :| x in ids;
    a := x;
    if ids != {x} {
      var rest := ids - {x};
      assert rest != {};
      var y := OldestOf(db, rest);
      if db.analyses[y].createdAt < db.analyses[x].createdAt {
        a := y;
      }
    }
  }
}
