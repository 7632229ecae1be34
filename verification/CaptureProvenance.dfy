/** The credential and prompt tables together: every stored prompt traces to the approval
    that allowed it. A request may carry an authentication result that is no longer
    current, because authenticating and storing are separate transactions. */
module CaptureProvenance {
  import opened Prelude
  import opened ConnectorStore
  import opened PromptStore
  import CredentialHistory

  datatype JointStep =
    | CredentialStep(change: ConnectorStore.Event)
    | CaptureStep(seen: ConnectorStore.Run, access: AccessToken, authenticatedAt: Millis, connector: Connector,
                  input: Input, now: Millis, ids: RowIds, first: AnalysisId)
    | ReanalyzeStep(actor: Actor, p: PromptId, at: Millis, a: AnalysisId, e: EventId)
    | DeleteStep(deleter: Actor, deleted: PromptId, deletedAt: Millis)
    | ProjectsStep(projects: map<ProjectId, Project>)

  type Joint = History<JointStep>

  ghost function CredentialRun(run: Joint): ConnectorStore.Run {
    match run
    case Start => Start
    case Then(past, s) => if s.CredentialStep? then Then(CredentialRun(past), s.change) else CredentialRun(past)
  }

  ghost function PromptsAfter(run: Joint): PromptTables {
    match run
    case Start => NoPrompts
    case Then(past, s) =>
      var db := PromptsAfter(past);
      match s
      case CredentialStep(_) => db
      case CaptureStep(_, _, _, connector, input, now, ids, first) => Ingest(db, connector, input, now, ids, first).0
      case ReanalyzeStep(actor, p, at, a, e) => Reanalyze(db, actor, p, at, a, e).0
      case DeleteStep(actor, p, at) => Delete(db, actor, p, at).0
      case ProjectsStep(projects) => db.(projects := projects)
  }

  /** A capture request was authenticated at some moment so far, by a token that may have
      expired or been revoked since, and draws a new prompt identifier. */
  ghost predicate IsJoint(run: Joint) {
    run.Then? ==>
      && IsJoint(run.past)
      && (run.event.CredentialStep? ==> Admissible(After(CredentialRun(run.past)), run.event.change))
      && (run.event.CaptureStep? ==>
            && Within(run.event.seen, CredentialRun(run.past))
            && Authenticates(After(run.event.seen).db, run.event.access, run.event.authenticatedAt, run.event.connector)
            && run.event.ids.promptId !in PromptsAfter(run.past).prompts)
  }

  lemma {:induction false} CredentialRunIsRun(run: Joint)
    requires IsJoint(run)
    ensures IsRun(CredentialRun(run))
  {
    if run.Then? {
      CredentialRunIsRun(run.past);
    }
  }

  ghost predicate SameOrigin(a: Prompt, b: Prompt) {
    && a.tenantId == b.tenantId && a.projectId == b.projectId && a.userId == b.userId
    && a.installationId == b.installationId && a.eventHash == b.eventHash
  }

  /** The prompt's project is an active one of its workspace. */
  ghost predicate InOpenProject(db: PromptTables, prompt: Prompt) {
    && prompt.projectId in db.projects
    && db.projects[prompt.projectId].tenantId == prompt.tenantId
    && db.projects[prompt.projectId].active == true
  }

  /** Only ingestion adds a prompt, and nothing rewrites where it came from. */
  lemma PromptStep(run: Joint, p: PromptId)
    requires IsJoint(run) && run.Then? && p in PromptsAfter(run).prompts
    ensures p in PromptsAfter(run.past).prompts ==> SameOrigin(PromptsAfter(run).prompts[p], PromptsAfter(run.past).prompts[p])
    ensures p !in PromptsAfter(run.past).prompts ==>
              && run.event.CaptureStep? && p == run.event.ids.promptId
              && !Refused(run.event.connector, run.event.input, run.event.now)
              && InOpenProject(PromptsAfter(run.past), PromptsAfter(run).prompts[p])
              && run.event.input.occurredAt <= run.event.now + 300_000
              && PromptsAfter(run).prompts[p] == NewPrompt(run.event.connector, run.event.input, run.event.now)
  {
    hide Admissible, Authenticates, KeyTaken, HasAnalysis, HasActiveAnalysis;
    match run.event {
      case CaptureStep(_, _, _, _, _, _, _, _) => hide Reanalyze, Delete;
      case _ => hide Ingest, InsertPrompt;
    }
  }

  ghost predicate ApprovedFor(approval: ConnectorStore.Run, code: DeviceCode, prompt: Prompt) {
    && CredentialHistory.Approves(approval, code, Approval(prompt.tenantId, prompt.userId, prompt.projectId, prompt.installationId))
    && code in After(approval.past).db.authorizations
    && prompt.eventHash.platform == After(approval.past).db.authorizations[code].platform
    && prompt.eventHash.projectId == prompt.projectId
  }

  /** Every stored prompt lies in the workspace, project and platform that one approval of
      one device code allowed, and belongs to the approver; no other approval concerns its
      installation. When it was stored, its project was an active one of the workspace. */
  lemma {:induction false} EveryPromptWasApproved(run: Joint, p: PromptId)
    returns (approval: ConnectorStore.Run, code: DeviceCode, stored: Joint)
    requires IsJoint(run) && p in PromptsAfter(run).prompts
    ensures Within(stored, run) && stored.Then? && p !in PromptsAfter(stored.past).prompts
    ensures InOpenProject(PromptsAfter(stored.past), PromptsAfter(run).prompts[p])
    ensures Within(approval, CredentialRun(run))
    ensures ApprovedFor(approval, code, PromptsAfter(run).prompts[p])
    ensures forall h, c, a :: (Within(h, CredentialRun(run)) && CredentialHistory.Approves(h, c, a)
                               && a.installationId == PromptsAfter(run).prompts[p].installationId) ==> h == approval
  {
    PromptStep(run, p);
    CredentialRunIsRun(run);
    CredentialRunIsRun(run.past);
    if p in PromptsAfter(run.past).prompts {
      approval, code, stored := EveryPromptWasApproved(run.past, p);
      WithinTransitive(approval, CredentialRun(run.past), CredentialRun(run));
    } else {
      stored := run;
      ConnectorStore.RunsArePrefixClosed(run.event.seen, CredentialRun(run));
      approval, code := CaptureWasApproved(run.event.seen, run.event.access, run.event.authenticatedAt, run.event.connector, run.event.input, run.event.now);
      WithinTransitive(approval, run.event.seen, CredentialRun(run));
    }
    var prompt := PromptsAfter(run).prompts[p];
    forall h, c, a | Within(h, CredentialRun(run)) && CredentialHistory.Approves(h, c, a) && a.installationId == prompt.installationId
      ensures h == approval {
      CredentialHistory.ApprovalUnique(CredentialRun(run), h, approval, c, code, a,
                                       Approval(prompt.tenantId, prompt.userId, prompt.projectId, prompt.installationId));
    }
  }

  lemma CaptureWasApproved(seen: ConnectorStore.Run, access: AccessToken, authenticatedAt: Millis, connector: Connector, input: Input, now: Millis)
    returns (approval: ConnectorStore.Run, code: DeviceCode)
    requires IsRun(seen) && Authenticates(After(seen).db, access, authenticatedAt, connector)
    requires !Refused(connector, input, now)
    ensures Within(approval, seen) && ApprovedFor(approval, code, NewPrompt(connector, input, now))
  {
    var exchange, family;
    approval, exchange, code, family := CredentialHistory.Provenance(seen, access, authenticatedAt, connector);
    WithinTransitive(approval, exchange, seen);
  }
}
