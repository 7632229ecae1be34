# PromptLens verification

Dafny models of the parts of PromptLens whose correctness depends on more than one function: the
connector credentials, the way of a prompt from the offline queue to its analysis, the limits in
front of the AI providers, the paged export, workspace ownership and the hook installer.
`dafny verify dfyconfig.toml` checks everything.

## How it is built

A database transaction is a function from the tables to the tables it commits and the answer it
gives; one that throws commits what it started from. Classes (`DeviceAuthorizationService`,
`PromptsService`, `AnalysisControls`, `WorkerProcess`, `ConnectorClient`, `TokenClient`, `AdminService`,
`WorkspaceApi`, `SettingsFile`) perform the statements of the source one after the other on fields and
are proved to have exactly the effect of these functions. `DeviceAuthorizationService`,
`PromptsService`, `WorkerProcess`, `TokenClient` and `WorkspaceApi` also keep, as a ghost, the run that
their calls amount to, so the theorems about runs hold after every sequence of calls on them.

Everything said about time is said about a `History` of events of arbitrary length: `IsRun` holds of
the histories that can happen, and the theorems speak about every such history. Where processes
interleave, each statement that touches shared state is an event of its own.

| file | content |
|---|---|
| `Prelude` | histories and shared types |
| `ConnectorStore`, `DeviceAuthorization` | RFC 8628 device authorization, RFC 7636 proof keys, refresh rotation with reuse detection |
| `CredentialChains`, `CredentialHistory`, `CredentialAnswers` | the shape of token families; revocation and provenance over all runs; when the service says yes |
| `ClientRotation`, `ConnectorSession` | one connector client and the service together; the client's own token code, calling the service object |
| `PromptStore`, `Prompts`, `PromptAnswers`, `IngestRaces`, `IngestAnswers` | ingest, reanalysis, deletion and who may request them; concurrent ingest requests and their answers |
| `CaptureProvenance` | credential and prompt tables together |
| `Pipeline`, `AnalysisWorker` | API, dispatchers, job queue and workers as one machine; the worker's own code |
| `WorkerSafety`, `WorkerRecords`, `OutboxDelivery`, `ActiveAnalyses`, `TokenBudget`, `StrandedAnalyses` | what holds of every run of it |
| `PipelineRuns` | runs in which something goes wrong |
| `AnalysisControls`, `PipelineControls` | breaker, limiter and budget check, alone and inside the pipeline |
| `ConnectorQueue`, `CaptureDelivery`, `SendPacing` | the offline queue, delivery exactly once, backoff |
| `SharedQueue` | the queue file between any number of processes |
| `PromptHistory`, `CsvExport` | keyset pages against the sorted list; the CSV body against a reader (section 2 of RFC 4180) |
| `Workspaces`, `AdminService`, `Ownership`, `MembershipAnswers`, `SessionHistory` | memberships, sessions and workspace deletion |
| `HookInstaller` | shell quoting and the rewrite of the hook settings |

## Assumptions

- Digests are injective, so a secret stands for its digest, and the hash of an ingest request for
  the request. The proof key check compares hashes.
- Credential families, row identifiers and session tokens are drawn unused. Collisions of access and
  refresh tokens and of user codes are not excluded: they meet the unique indexes.
- Clocks do not run backwards. The client's clock and the service's are unrelated.
- The job queue ignores an identifier it knows and may deliver a job any number of times. Counters
  increment atomically, keys expire exactly on time, and an increment with its expiry is one step.
- Each load and each save of the queue file is exclusive.
- A clientEventId is used for one prompt only on the client.

## Where the code differs from what one might expect

- `approve` writes EXPIRED and then throws inside the transaction, so only `poll` ever expires a code.
- `refresh` does not look at the installation's status; that a revoked installation stays locked out
  rests on `authenticate`.
- `export` passes a cursor in the request on to its first page, so it can begin in the middle of the list.
- A crash between a send and the write-back erases the send from the client's record, and with it one
  delay of the backoff (`SendPacing.KthSendNotBefore`, `SendPacing.BoundIsTight`).
- Every capture is a process of its own, and two of them can lose an event between the load and the
  save of the queue (`CaptureDelivery.QueuedOrStoredIff`, `SharedQueue.SurvivesIff`).
- A client that lost the answer to a refresh loses its token family at the next one
  (`ClientRotation.AnsweredReuseIff`).
- A worker that does not hear of its commit writes FAILED over COMPLETED; the records stay, and every
  later attempt fails on them (`WorkerSafety.CompletedIsFinalIff`, `PipelineRuns.CompletedEndsFailed`).
- A prompt can have two active analyses (`ActiveAnalyses.OneActiveIff`, `PipelineRuns.TwoAnalysesActive`).
- A worker that stops after its claim blocks the prompt for ever (`StrandedAnalyses.StrandedBlocksPrompt`,
  `PipelineRuns.LeftRunning`).
- Two answers for one event can name different analyses if another was requested at the creation time
  of the prompt (`IngestAnswers.TiedAnswersDiffer`).
- Authentication and the operation are separate transactions, so two owners can remove each other
  (`Ownership.OwnedIff`, `Ownership.TwoOwnersCanRemoveEachOther`).
- A retention pass compares the clock with what it read before; it deletes a workspace whose deletion
  was cancelled since (`Ownership.LateCancellationIsIgnored`, `Ownership.EarlyReadDeletes`).
- `failureThreshold` failures within a minute need not open the breaker; `2 * failureThreshold - 2`
  always do, one fewer may not (`AnalysisControls.OpensIff`).

## Model

| member | source | states |
|---|---|---|
| CredentialChains.FamiliesAreChains | apps/api/src/connectors/device-authorization.service.ts:215-275 | In every reachable state the credentials of a family are, in the order of issue, one duplicate-free chain: each member but the last is used, replaced by the next and does not expire later; the last is unused and has no replacement. |
| CredentialChains.OneUnusedPerFamily | apps/api/src/connectors/device-authorization.service.ts:229-258 | A family has at most one unused credential; a credential is used exactly when it is replaced, and then by a member of its own family that expires no earlier. |
| CredentialChains.ReplacementsAreInjective | apps/api/src/connectors/device-authorization.service.ts:247-258 | No credential replaces two others. |
| CredentialChains.ChainUnique | apps/api/src/connectors/device-authorization.service.ts:215-275 | The links determine the order of a family. |
| CredentialChains.Reachable | apps/api/src/connectors/device-authorization.service.ts:53-275 | Unique access tokens and user codes, approvals that match their installations, and bounded expiries hold in every reachable state. |
| CredentialChains.CredentialsPersist | apps/api/src/connectors/device-authorization.service.ts:132-275 | No transaction removes a credential, takes back a use or revocation mark, or changes any other column. |
| CredentialChains.CodesPersist | apps/api/src/connectors/device-authorization.service.ts:53-213 | No transaction removes an authorization, changes what was requested (user code, platform, challenge, expiry), revives a consumed code or rewrites an approval. |
| CredentialChains.InstallationsPersist | apps/api/src/admin/admin.service.ts:689-716 | Only revocation changes an installation, and it is not undone. |
| CredentialHistory.ReuseRevokesForever | apps/api/src/connectors/device-authorization.service.ts:232-239 | After a reuse answer the family never again authenticates, is refused at every refresh and never gains a member. |
| CredentialHistory.ConnectorRevokedForever | apps/api/src/admin/admin.service.ts:689-716 | After an administrator revokes a connector no token ever authenticates for it, whenever and from whatever approval it was issued. |
| CredentialHistory.DeadFamilyStaysDead | apps/api/src/connectors/device-authorization.service.ts:215-275 | A family whose members are all revoked keeps its members, all revoked. |
| CredentialHistory.Provenance | apps/api/src/connectors/device-authorization.service.ts:277-308 | An accepted access token goes back to exactly one exchange and, before that, exactly one approval of the same device code; the connector acts for the tenant, user and project of the approver on the platform of the code. |
| CredentialHistory.DeviceCodeUsedOnce | apps/api/src/connectors/device-authorization.service.ts:132-213 | Over any run a device code starts at most one family. |
| CredentialHistory.FamilyStartedOnce | apps/api/src/connectors/device-authorization.service.ts:176-213 | A family is started by at most one exchange. |
| CredentialHistory.ApprovalOf | apps/api/src/connectors/device-authorization.service.ts:77-130 | Approval columns were written by one approve step for that code. |
| CredentialHistory.ApprovalUnique | apps/api/src/connectors/device-authorization.service.ts:77-130 | An installation comes from at most one approval. |
| CredentialHistory.StartOf | apps/api/src/connectors/device-authorization.service.ts:132-275 | Every credential descends from one exchange of an approved code and keeps the installation and tenant of its approval. |
| CredentialAnswers.ExchangedExactlyWhen | apps/api/src/connectors/device-authorization.service.ts:132-213 | In terms of the run: a poll gets tokens exactly if its code was created less than ten minutes before with no challenge or the verifier's, was approved and not exchanged, no poll of it was told to wait in the last five seconds, and the drawn tokens are new. |
| CredentialAnswers.ExchangeWasProven | apps/api/src/connectors/device-authorization.service.ts:138-146 | Behind every family is an exchange with the verifier for the challenge of the code's creation. |
| CredentialAnswers.PollAnswers | apps/api/src/connectors/device-authorization.service.ts:132-175 | Each answer of a poll, by the columns of the row. |
| CredentialAnswers.PollWrites | apps/api/src/connectors/device-authorization.service.ts:147-175 | A poll without tokens writes that a pending code expired, or when it was polled while pending, and nothing else. |
| CredentialAnswers.ExchangeEffect | apps/api/src/connectors/device-authorization.service.ts:176-205 | What an exchange writes: fifteen minutes of access, thirty days of refresh. |
| CredentialAnswers.ApproveAnswers | apps/api/src/connectors/device-authorization.service.ts:77-130 | Each answer of an approval, by the columns of code and project, and what it writes. |
| CredentialAnswers.ApprovalWasAllowed | apps/api/src/connectors/device-authorization.service.ts:77-112 | Every approval of a run is of an open code, for an active project of the approver's workspace. |
| CredentialAnswers.RefreshAnswers | apps/api/src/connectors/device-authorization.service.ts:215-275 | Each answer of a refresh, by the columns of the credential, and what a rotation writes. |
| CredentialAnswers.AuthenticatesIff | apps/api/src/connectors/device-authorization.service.ts:277-308 | Which access tokens are accepted, and for whom, column by column. |
| CredentialAnswers.RevokedOnlyBy | apps/api/src/connectors/device-authorization.service.ts:232-239 | A credential is revoked only because a used token of its family was presented or its installation was revoked. |
| CredentialAnswers.InactiveWasRevoked | apps/api/src/admin/admin.service.ts:689-716 | An installation is inactive only because an owner or administrator of its workspace revoked it. |
| DeviceAuthorization.DeviceAuthorizationService.Create | apps/api/src/connectors/device-authorization.service.ts:53-75 | Adds a pending authorization for ten minutes, or nothing when a unique index refuses. |
| DeviceAuthorization.DeviceAuthorizationService.Approve | apps/api/src/connectors/device-authorization.service.ts:77-130 | Approves exactly a pending, unexpired code, for an active project of the actor's workspace; its whole effect, with unchanged tables on every refusal, the expired code included. |
| DeviceAuthorization.DeviceAuthorizationService.Poll | apps/api/src/connectors/device-authorization.service.ts:132-213 | Issues tokens exactly for a known, approved, unexpired code whose challenge is none or the S256 of the given verifier, at least five seconds after the last poll, with new tokens; its whole effect for every other answer. |
| DeviceAuthorization.DeviceAuthorizationService.Refresh | apps/api/src/connectors/device-authorization.service.ts:215-275 | Refuses exactly unknown, revoked or expired tokens, answers reuse exactly to other used ones; its whole effect, with rotation. |
| DeviceAuthorization.DeviceAuthorizationService.Authenticate | apps/api/src/connectors/device-authorization.service.ts:277-308 | Accepts exactly the tokens of live credentials of active installations. |
| DeviceAuthorization.DeviceAuthorizationService.RevokeConnector | apps/api/src/admin/admin.service.ts:689-716 | Revokes the installation and all its credentials exactly for owners and administrators of its workspace. |
| ClientRotation.StoredTokenIsTheUnusedOne | connectors/sdk/src/index.ts:113-231 | In every run, with authorizations at any moment and lost requests and answers, the client's stored refresh token is unused, and then the one unused credential of its family, exactly if the service has not rotated it with an answer that is on its way or was lost; while it is on its way, the token in it is the unused one. |
| ClientRotation.TokenInHandIsTheUnusedOne | connectors/sdk/src/index.ts:191-231 | The same for the token that a send works with, also when an authorization has put others into storage. |
| ClientRotation.AnsweredReuseIff | connectors/sdk/src/index.ts:191-231 | The service answers this client "reuse", and ends the family, exactly if it rotated the presented token before with an answer that was lost and the token is neither revoked nor expired; it refuses the token exactly if it is. |
| ClientRotation.ClientStaysInStep | connectors/sdk/src/index.ts:113-231 | Every step of client, service and others keeps the tokens in storage and in hand unused, but for those whose rotation was lost. |
| ClientRotation.LostAnswerRevokesFamily | connectors/sdk/src/index.ts:211-231 | Whatever happened since a rotation, a client that presents the old token again is answered "reuse" exactly while that token lives and is not revoked, and thereby ends its family. |
| ConnectorSession.TokenClient.Send | connectors/sdk/src/index.ts:191-201 | Storage, tables and outcome of one send with its refresh before and after an "unauthorized" answer, whose request or answer may be lost; it is a run of client and service and, unless an earlier rotation of the stored token was lost, revokes nothing. |
| ConnectorSession.TokenClient.Refresh | connectors/sdk/src/index.ts:211-231 | The stored tokens are exchanged, cleared on refusal, kept on other errors and when request or answer is lost; only a token whose rotation was lost before can revoke anything. |
| ConnectorSession.SendsAre | connectors/sdk/src/index.ts:191-231 | Tokens that live for more than thirty seconds and are accepted are not refreshed; new ones are kept for fifteen minutes; a send succeeds only with an accepted request. |
| ConnectorSession.TokenClient.PollAuthorization | connectors/sdk/src/index.ts:113-134 | At any moment of a send: stores the tokens of a successful exchange whose answer arrives and nothing otherwise, and tells waiting from failure. |
| ConnectorSession.ReusedOnlyIfLost | connectors/sdk/src/index.ts:211-231 | In every joint run a refresh with a token whose rotation was not lost is not answered "reuse" and revokes no credential. |
| CaptureProvenance.EveryPromptWasApproved | apps/api/src/prompts/prompts.service.ts:23-85 | Over any run, also with authentication results whose token has expired or was revoked since, every stored prompt lies in the workspace, project and platform of exactly one approval and belongs to the approver; its project was an active one of the workspace when it was stored. |
| CaptureProvenance.PromptStep | apps/api/src/prompts/prompts.service.ts:18-128 | Only ingestion adds prompts, for projects that are then active and of the prompt's workspace, and nothing rewrites where one came from. |
| Prompts.PromptsService.Ingest | apps/api/src/prompts/prompts.service.ts:18-139 | A new event that passes the first checks is stored exactly if its project is known, of the connector's workspace and active, and is otherwise answered so; a call has the effect of the whole transaction on prompts, tags, analyses and outbox, and is the next call of a run of concurrent requests, answered there alike. |
| PromptAnswers.IngestAnswersAre | apps/api/src/prompts/prompts.service.ts:18-128 | Each answer to a new event, with the conditions written out, and every row it writes. |
| PromptAnswers.RepeatAnswersAre | apps/api/src/prompts/prompts.service.ts:36-58 | Each answer to an event that is stored: a conflict exactly if it differs. |
| PromptAnswers.PromptWasAccepted | apps/api/src/prompts/prompts.service.ts:23-85 | Every prompt of a run was stored by one accepted request, with its columns, when its project was active and of its workspace. |
| Prompts.PromptsService.TryIngest | apps/api/src/prompts/prompts.service.ts:32-139 | The statements of the transaction and the retry after a conflict have that effect. |
| Prompts.OneAfterTheOther | apps/api/src/prompts/prompts.service.ts:34-128 | A request that nobody interrupts does as separate lookup and insert what it does as one transaction. |
| Prompts.PromptsService.AttachTags | apps/api/src/prompts/prompts.service.ts:87-99 | One tag row and one attachment for each distinct name. |
| Prompts.PromptsService.Reanalyze | apps/api/src/prompts/prompt-history.service.ts:369-403 | Queues an analysis with its outbox event exactly when the actor is no viewer, the prompt is an undeleted one of the workspace that the actor administers or owns, and none of its analyses is queued or running. |
| PromptAnswers.ReanalyzeAnswersAre | apps/api/src/prompts/prompt-history.service.ts:369-403 | Each answer, with the conditions written out, and what it writes. |
| PromptAnswers.AnalysisWasRequested | apps/api/src/prompts/prompt-history.service.ts:369-403 | Every analysis of a run was queued with its prompt, or requested so. |
| Prompts.PromptsService.Delete | apps/api/src/prompts/prompt-history.service.ts:405-428 | Marks a prompt deleted exactly when the actor is no viewer and it is an undeleted one of the workspace that the actor administers or owns. |
| PromptAnswers.DeletionWasAllowed | apps/api/src/prompts/prompt-history.service.ts:405-428 | Every deleted prompt of a run was deleted so. |
| IngestRaces.OneRetrySuffices | apps/api/src/prompts/prompts.service.ts:129-138 | With any number of concurrent requests no request ends with a violation of the unique index, and none collides twice. |
| IngestRaces.AnswersAgree | apps/api/src/prompts/prompts.service.ts:34-128 | All accepted answers for one installation and event agree on request, prompt, project and creation time, across reanalyses, deletions and project changes. |
| IngestRaces.AnalysisInAnswerFixedIff | apps/api/src/prompts/prompts.service.ts:42-62 | In a reachable state the lookup can return only the original analysis exactly when all others of the prompt were created later. |
| IngestAnswers.AnswersNameOneAnalysis | apps/api/src/prompts/prompts.service.ts:34-128 | In a run without a reanalysis granted at the prompt's creation time, all accepted answers for the prompt name the same analysis. |
| IngestAnswers.TiedAnswersDiffer | apps/api/src/prompts/prompts.service.ts:42-62 | Any run with one can be continued by two repeated requests that are both accepted and name different analyses. |
| IngestAnswers.OneOriginalIff | apps/api/src/prompts/prompt-history.service.ts:383-390 | A prompt has one analysis as old as itself exactly when no reanalysis was granted at its creation time. |
| IngestAnswers.AnswersDifferByTie | apps/api/src/prompts/prompts.service.ts:42-62 | A run from the empty tables that ends with two such answers. |
| IngestRaces.TakenKeyIsReadOnly | apps/api/src/prompts/prompts.service.ts:34-62 | Under a taken key nothing is written; the request is accepted exactly when it passes the first checks and equals the stored one. |
| IngestRaces.AlwaysSound | apps/api/src/prompts/prompts.service.ts:18-139 | Keys stay unique, and every call under way agrees with the tables. |
| AnalysisWorker.WorkerProcess.ProcessAnalysis | apps/worker/src/main.ts:75-162 | The outcome of a delivery and the tables and counters after it, for every outcome of the outside calls: control store and usage reads that fail, no result, a commit that is rolled back or not heard of, a failed status or failure count that cannot be written. A control rejects it exactly for an open breaker, a full minute, or tokens recorded from this month on that reach the budget, in this order. Its statements, each with its own clock reading, are a run of the pipeline. |
| AnalysisWorker.WorkerProcess.RunClaimed | apps/worker/src/main.ts:103-161 | Controls, provider and commit after a claim, with the handler of what they throw; a provider failure is counted unless a control objected. |
| AnalysisWorker.WorkerProcess.DispatchOutbox | apps/worker/src/main.ts:173-191 | Publishes exactly the events up to the first whose add or update fails, each at its own time, queues their jobs and possibly that event's, keeps known jobs and changes nothing else; its statements are a run of the pipeline. |
| AnalysisWorker.ProcessedEnds | apps/worker/src/main.ts:95-162 | Against the tables before the claim: finished means completed with both records, failed changes nothing but the status, an unwritten failure leaves RUNNING; only a commit that was not heard of leaves records behind a failure. |
| AnalysisWorker.OutcomeByHistory | apps/worker/src/main.ts:75-162 | Each outcome of a delivery, in terms of the control calls and records of the run before it. |
| WorkerRecords.RecordWasEarned | apps/worker/src/main.ts:107-142 | Every usage record was written at its time by the completion of its analysis, with the tokens of the result that the provider gave the completing worker for it. |
| PromptAnswers.BatchIsOldest | apps/worker/src/main.ts:174-178 | A dispatcher leaves an unpublished event only from a full batch of fifty that are no younger. |
| WorkerSafety.AtMostOneHolder | apps/worker/src/main.ts:95-101 | Under any interleaving at most one worker holds an analysis; it is then RUNNING, or COMPLETED by a commit that the worker did not hear of. |
| WorkerSafety.EffectsExactlyOnce | apps/worker/src/main.ts:107-142 | Whatever fails, repeats, crashes or commits unheard, an analysis has one usage record and one improved version of its own prompt, or neither; a COMPLETED one has both. |
| WorkerSafety.CompletedIsFinalIff | apps/worker/src/main.ts:75-162 | A completed analysis is COMPLETED later exactly if no step in between wrote FAILED for a worker that held it. |
| WorkerSafety.RecordedWasCompleted | apps/worker/src/main.ts:107-142 | A recorded analysis was completed once, and is COMPLETED exactly if not overwritten since. |
| WorkerSafety.OverwritingNeedsUnheardCommit | apps/worker/src/main.ts:143-152 | A worker that holds a completed analysis completed it itself by a commit it did not hear of; nothing else leads to an overwriting. |
| WorkerSafety.LostStaysLost | apps/worker/src/main.ts:122-130 | A recorded analysis that lost COMPLETED never regains it. |
| PipelineRuns.CompletedEndsFailed | apps/worker/src/main.ts:107-152 | A run in which a recorded analysis ends as FAILED. |
| WorkerSafety.TokensAreConserved | apps/worker/src/main.ts:131-141 | The tokens recorded for a workspace are those of its analyses that were ever completed, each once. |
| WorkerSafety.WorkerStepEffect | apps/worker/src/main.ts:75-162 | A worker changes only its own state and the status of its own analysis: by a claim of a QUEUED or FAILED one, or by ending what it holds. |
| WorkerSafety.RecordsEffect | apps/worker/src/main.ts:107-142 | Records appear only together with the completion of the analysis the worker holds. |
| WorkerSafety.WorkersHaveMatchingJobs | apps/worker/src/main.ts:76-85 | A worker's job names an existing analysis of its prompt and workspace. |
| WorkerSafety.ClaimKeepsOneActiveIff | apps/worker/src/main.ts:95-101 | A claim leaves one active analysis of a prompt exactly when it does not restart a failed one while another is active. |
| ActiveAnalyses.OneActiveIff | apps/worker/src/main.ts:95-101 | A prompt has at most one active analysis throughout a run exactly if no step of the run claims a failed one of its analyses while another is active. |
| ActiveAnalyses.StepKeepsOneActiveIff | apps/api/src/prompts/prompt-history.service.ts:379-401 | So for every single step of API, dispatchers and workers. |
| PipelineRuns.TwoAnalysesActive | apps/worker/src/main.ts:95-101 | A run that ends with two active analyses of one prompt. |
| StrandedAnalyses.StrandsIff | apps/worker/src/main.ts:95-153 | A held analysis becomes RUNNING without a worker exactly when it is RUNNING and its worker stops or cannot write FAILED. |
| PipelineRuns.LeftRunning | apps/worker/src/main.ts:95-101 | A run that ends so. |
| StrandedAnalyses.StrandedForever | apps/worker/src/main.ts:95-101 | No redelivery, retry or request ever changes such an analysis. |
| StrandedAnalyses.StrandedBlocksPrompt | apps/api/src/prompts/prompt-history.service.ts:379-382 | From then on every reanalysis of its prompt is refused. |
| OutboxDelivery.EventOf | apps/api/src/prompts/prompts.service.ts:101-118 | Every analysis has an outbox event naming it, its prompt and its workspace. |
| OutboxDelivery.OneEventPerAnalysis | apps/api/src/prompts/prompt-history.service.ts:383-401 | And only one, and every event names an existing analysis. |
| OutboxDelivery.JobsAreTheEvents | apps/worker/src/main.ts:173-191 | A published event has its job in the queue; a job says what its event says, names an existing analysis, and no other job names that one. |
| OutboxDelivery.PublicationsAreCounted | apps/worker/src/main.ts:186-189 | Over runs, with overlapping and stopping dispatchers: an event has as many attempts as it was published, and the time of the last. |
| OutboxDelivery.JobsStay | apps/worker/src/main.ts:181-185 | Overlapping dispatchers and crashes never replace or drop a queued job. |
| OutboxDelivery.OutboxInvariant | apps/worker/src/main.ts:173-191 | Outbox, queue and what dispatchers have read agree in every reachable state. |
| OutboxDelivery.NoPromptWithoutAnalysis | apps/api/src/prompts/prompts.service.ts:64-108 | A prompt without an analysis is unreachable. |
| OutboxDelivery.OneQueuedPerPrompt | apps/api/src/prompts/prompt-history.service.ts:379-390 | A prompt never has two QUEUED analyses. |
| OutboxDelivery.PromptsPersist | apps/api/src/prompts/prompt-history.service.ts:405-428 | Prompts change nothing but their deletion mark. |
| TokenBudget.OvershootBounded | apps/worker/src/analysis/analysis-controls.ts:45-51 | With C workers, at most M tokens an analysis and a budget B, no month records more than B - 1 + C * M tokens, whatever stale reads, failures and month changes interleave. |
| TokenBudget.CurrentMonthBounded | apps/worker/src/main.ts:58-73 | The same bound covers what calls in flight may still add in the current month. |
| TokenBudget.StaleReadCountsMonth | apps/worker/src/main.ts:61-72 | A read that reaches back to an earlier month counts at least the current one. |
| TokenBudget.ReadCountsMonths | apps/worker/src/main.ts:61-72 | The usage read counts nothing before the month of the given time and everything from it on. |
| TokenBudget.ReadIsOfThisMonth | apps/worker/src/analysis/analysis-controls.ts:45-48 | While the month lasts it is the tokens of this month. |
| TokenBudget.RefusedByBudgetIff | apps/worker/src/analysis/analysis-controls.ts:45-51 | Over runs, a counted worker is refused by the budget exactly if the tokens recorded from the month of its count on reach it, and let through otherwise. |
| AnalysisControls.AnalysisControls.Enforce | apps/worker/src/analysis/analysis-controls.ts:31-52 | The verdict by the calls before: open exactly if the breaker is, limited exactly if `requestsPerMinute` calls of this minute got past the breaker, then the budget; never open with fewer failures than the threshold in two minutes. Its effect on the counters. |
| AnalysisControls.AnalysisControls.RecordProviderFailure | apps/worker/src/analysis/analysis-controls.ts:54-61 | The failure counter, its expiry and the opening of the breaker. |
| AnalysisControls.BucketCountsItsMinute | apps/worker/src/analysis/analysis-controls.ts:36-40 | A bucket counts the calls of its minute and outlives it: the expiry resets none in use. |
| AnalysisControls.LimitPerMinute | apps/worker/src/analysis/analysis-controls.ts:36-43 | In each minute exactly the first `requestsPerMinute` counted calls are admitted. |
| AnalysisControls.LimitPerSlidingMinute | apps/worker/src/analysis/analysis-controls.ts:36-43 | In any 60 seconds at most twice that many. |
| AnalysisControls.FailureWindow | apps/worker/src/analysis/analysis-controls.ts:54-57 | The failure counter holds the failures of the 60 seconds that its first failure began. |
| AnalysisControls.VerdictByCalls | apps/worker/src/analysis/analysis-controls.ts:31-43 | Breaker and limiter alone decide, in this order, with exact conditions for each verdict. |
| AnalysisControls.FewFailuresNeverOpen | apps/worker/src/analysis/analysis-controls.ts:32-34 | A call is answered "circuit open" only if as many failures as the threshold lie in the last two minutes, the last in the last one. |
| AnalysisControls.OpenOnlyAfterFailures | apps/worker/src/analysis/analysis-controls.ts:54-60 | The breaker is open only within 60 seconds of a failure before which at least `failureThreshold` were recorded within 60 seconds. |
| AnalysisControls.ClosedAMinuteAfterLastFailure | apps/worker/src/analysis/analysis-controls.ts:58-60 | It is closed 60 seconds after the last recorded failure. |
| AnalysisControls.OpensIff | apps/worker/src/analysis/analysis-controls.ts:54-60 | A number of failures within a minute opens the breaker wherever the windows fall exactly if it is at least twice the threshold less two (one for a threshold of one). |
| AnalysisControls.EnoughFailuresOpen | apps/worker/src/analysis/analysis-controls.ts:54-60 | That many failures within the last minute leave it open after any calls. |
| AnalysisControls.OneFewerMayNotOpen | apps/worker/src/analysis/analysis-controls.ts:54-60 | For every threshold, calls with one fewer within the last minute and a closed breaker. |
| AnalysisControls.FullCounterKeepsOpen | apps/worker/src/analysis/analysis-controls.ts:54-60 | A counter at the threshold keeps the breaker open for a minute after the last failure. |
| PipelineControls.StoreIsThatOfCalls | apps/worker/src/main.ts:103-153 | The counters of a pipeline run are those of its calls, in the order of their clocks. |
| PipelineControls.WorkersKeepRateLimit | apps/worker/src/main.ts:103-104 | The workers together keep the limiter's bounds. |
| PipelineControls.WorkerAdmittedIff | apps/worker/src/main.ts:103-104 | In every run a claimed worker gets past breaker and limiter exactly under these conditions. |
| PipelineControls.FailureIsRecordedIff | apps/worker/src/main.ts:143-153 | A worker goes on to record a provider failure exactly if no control rejected its job and it could write that it failed. |
| PipelineControls.FailsBecause | apps/worker/src/main.ts:103-145 | A worker fails for a control exactly in the steps that count and read the budget, and for a provider failure in the others. |
| PipelineControls.RejectionIsNotRecorded | apps/worker/src/main.ts:143-153 | A rejection by a control never becomes a recorded failure. |
| PipelineControls.BreakerClosesWithinAMinute | apps/worker/src/main.ts:143-153 | In every pipeline run the breaker is closed a minute after the last provider failure. |
| ConnectorQueue.ConnectorClient.Enqueue | connectors/sdk/src/index.ts:136-141 | Appends an event unless one with its identifier is queued. |
| ConnectorQueue.ConnectorClient.FlushInternal | connectors/sdk/src/index.ts:168-189 | What the loop writes back, for any outcome of the sends. |
| ConnectorQueue.FlushKeepsUndelivered | connectors/sdk/src/index.ts:168-189 | A flush keeps an event exactly if some item carrying it was not delivered. |
| ConnectorQueue.TurnsAre | connectors/sdk/src/index.ts:172-187 | A turn leaves an item that is not due, drops a delivered one, and otherwise counts a failure and waits for its delay give or take a fifth. |
| ConnectorQueue.DelaysAre | connectors/sdk/src/index.ts:181 | The delays double from two seconds and are an hour from the twelfth failure on. |
| ConnectorQueue.EnqueuedIs | connectors/sdk/src/index.ts:136-141 | An event is appended, due at once, unless it is queued. |
| CaptureDelivery.ExactlyOnce | connectors/sdk/src/index.ts:136-189 | With failed sends, lost answers, requests served after the client gave them up, crashes, and other processes that enqueue, an enqueued event is queued or stored exactly if it is not lost beside a flush, and what is stored is one prompt with the content that was enqueued. |
| CaptureDelivery.QueuedOrStoredIff | connectors/claude-code/src/cli.ts:48-66 | An enqueued event is neither queued nor stored exactly if, being new, it was enqueued beside a flush that was then saved, and not enqueued again; a crash of that flush saves it. |
| CaptureDelivery.SequentialIsSafe | connectors/sdk/src/index.ts:136-189 | An event enqueued only between flushes is always queued or stored. |
| CaptureDelivery.LostStaysLost | connectors/sdk/src/index.ts:168-189 | A lost event stays lost until it is enqueued again. |
| CaptureDelivery.FlushLosesLateEvent | connectors/sdk/src/index.ts:168-189 | Any run whose flush has come to the end of its queue can be continued so that a new event is lost, or kept by a crash. |
| CaptureDelivery.AlwaysAccounted | connectors/sdk/src/index.ts:168-189 | At every step of a flush an event that was not enqueued beside it is, if on disk, ahead, kept for the write-back, or stored. |
| CaptureDelivery.AlwaysFaithful | connectors/sdk/src/index.ts:136-189 | Queue and store carry only what was enqueued. |
| CaptureDelivery.IngestStores | apps/api/src/prompts/prompts.service.ts:32-128 | An accepted event is stored, all rows stay, and at most this one is added. |
| CaptureDelivery.EmptyFlushLosesEvent | connectors/claude-code/src/cli.ts:48-66 | A run from the empty queue that ends with a lost event. |
| SharedQueue.SurvivesIff | connectors/sdk/src/index.ts:136-189 | Whatever processes interleave their loads and saves, an event survives a run exactly if none saves a queue without it, or stops, while it is neither stored nor with another process. |
| SharedQueue.OneAtATimeIsSafe | connectors/sdk/src/index.ts:143-149 | If no process loads the file while another works on it, no event is lost. |
| SharedQueue.LostUntilEnqueued | connectors/sdk/src/index.ts:136-141 | Only another enqueue brings a lost event back. |
| SharedQueue.TwoEnqueuesLoseOne | connectors/claude-code/src/cli.ts:48-66 | Two processes that enqueue at once lose the first event. |
| SendPacing.SendNotBefore | connectors/sdk/src/index.ts:168-189 | Crashes allowed, no send comes before four fifths of the delays of the failures on record. |
| SendPacing.KthSendNotBefore | connectors/sdk/src/index.ts:168-189 | In every run the k-th send of an event, of which crashes erased l from the record, is of an item with k - 1 - l recorded failures, and comes at least four fifths of the first k - 1 - l delays after enqueueing, 800 * (2^(k-l) - 2) ms for k - l up to 12. |
| SendPacing.DelaySumClosedForm | connectors/sdk/src/index.ts:181-182 | The first delays add up to 1000 * (2^k - 2) ms. |
| SendPacing.BoundIsTight | connectors/sdk/src/index.ts:168-189 | For every k and l below it, a run whose k-th send, with l erased, meets this bound exactly. |
| SendPacing.FullBoundIff | connectors/sdk/src/index.ts:168-189 | The bound over all earlier sends holds for all sends with l erased ones exactly when l is 0. |
| PromptHistory.Export | apps/api/src/prompts/prompt-history.service.ts:303-313 | The page loop, by pages of 100: on unchanging data exactly the first 1000 rows of the simple sorted list; on changing data strictly ordered by time and identifier, no row that stayed listed skipped, and every row, when its page was read, an undeleted one of the workspace that passes every filter; members and viewers get only their own. |
| PromptHistory.ListedIff | apps/api/src/prompts/prompt-history.service.ts:74-167 | The list holds exactly the rows that pass every filter, column by column, and that the text, if any, finds with fewer than a thousand newer ones. |
| PromptHistory.TakenIff | apps/api/src/prompts/prompt-history.service.ts:97-114 | The first rows of a list are those with few before them. |
| PromptHistory.SortedIsOrdered | apps/api/src/prompts/prompt-history.service.ts:117-167 | The list holds exactly the matching rows, each once, ordered by (occurredAt, id) descending. |
| PromptHistory.SortedUnique | apps/api/src/prompts/prompt-history.service.ts:117-167 | There is only one such list. |
| PromptHistory.NextPageFollows | apps/api/src/prompts/prompt-history.service.ts:86-167 | The query after the n-th row's key yields the rest of the list. |
| PromptHistory.PageSkipsNothing | apps/api/src/prompts/prompt-history.service.ts:86-167 | A page that continues after insertions and deletions skips no row that stayed listed. |
| PromptHistory.PageKeepsCollected | apps/api/src/prompts/prompt-history.service.ts:303-313 | A page never fails on its cursor and keeps what the loop has collected in order. |
| CsvExport.ParseUndoesPrint | apps/api/src/prompts/prompt-history.service.ts:333-366 | A reader for section 2 of RFC 4180 gets back the header and exactly the neutralised cells, whatever characters they have. |
| CsvExport.NoCellLooksLikeFormula | apps/api/src/prompts/prompt-history.service.ts:343-347 | No cell read back begins with =, +, - or @. |
| CsvExport.NeutralIsFaithful | apps/api/src/prompts/prompt-history.service.ts:343-347 | A cell is exported unchanged exactly if it does not look like a formula; otherwise it gains one apostrophe. |
| CsvExport.ColumnsAre | apps/api/src/prompts/prompt-history.service.ts:333-361 | Which field of which prompt a reader finds in each column. |
| CsvExport.NumberReadsBack | apps/api/src/prompts/prompt-history.service.ts:343-347 | Scores are shown in decimal and read back as the number. |
| AdminService.AdminService.Register | apps/api/src/auth/auth.service.ts:56-150 | Creates user, workspace, OWNER membership and session together, or nothing on a unique conflict. |
| AdminService.AdminService.AddMember | apps/api/src/admin/admin.service.ts:555-597 | Adds exactly an active account that is no member, with a role other than owner, for owners and administrators; its whole effect. |
| AdminService.AdminService.UpdateMember | apps/api/src/admin/admin.service.ts:599-636 | Changes a role exactly for owners and administrators, where owners are concerned for owners, and never that of the only owner; its whole effect. |
| AdminService.AdminService.RemoveMember | apps/api/src/admin/admin.service.ts:638-667 | Removes exactly another member, an owner only for owners, for owners and administrators; its whole effect on memberships and sessions. |
| MembershipAnswers.AddAnswersAre | apps/api/src/admin/admin.service.ts:555-597 | Each answer, with roles and columns written out. |
| MembershipAnswers.UpdateAnswersAre | apps/api/src/admin/admin.service.ts:599-636 | Each answer, with roles and columns written out. |
| MembershipAnswers.RemoveAnswersAre | apps/api/src/admin/admin.service.ts:638-667 | Each answer, with roles and columns written out, and what it does to sessions. |
| MembershipAnswers.DeletionAnswersAre | apps/api/src/admin/admin.service.ts:500-553 | Scheduling and cancelling a deletion, with roles, confirmation and the seven days written out. |
| MembershipAnswers.MembersChangeOnlyBy | apps/api/src/admin/admin.service.ts:555-667 | Over runs, a membership changes only when its workspace begins or ends, or in a request of an administrator of it: none removes itself, and what concerns owners takes an owner. |
| SessionHistory.AcceptedIff | apps/api/src/auth/auth.service.ts:202-239 | Over runs, in terms of events alone: a session token is accepted for a member exactly within thirty days of the registration or sign-in that opened it, unless a sign-out, the end of the member's sessions, a removal or a deletion of the workspace followed, and while the account's last status is active. |
| SessionHistory.AccountsFollow | apps/api/src/admin/admin.service.ts:110-150 | Each account is that of its registration, with the status of the last change; nothing else touches it. |
| SessionHistory.SlugsFollow | apps/api/src/auth/auth.service.ts:72-104 | Each workspace has the slug of its registration until it is deleted; nothing else touches it. |
| MembershipAnswers.SessionIsRecent | apps/api/src/auth/auth.service.ts:202-214 | A session is accepted only for an active account and within thirty days of the registration or sign-in that drew its token. |
| AdminService.AdminService.ScheduleDeletion | apps/api/src/admin/admin.service.ts:500-531 | Schedules the deletion a week ahead, for owners with the exact confirmation. |
| AdminService.AdminService.CancelDeletion | apps/api/src/admin/admin.service.ts:533-553 | Takes the schedule back, for owners. |
| AdminService.WorkspaceApi.CheckSession | apps/api/src/auth/auth.service.ts:202-214 | The caller of a live session, as a step of a run. |
| AdminService.WorkspaceApi.Obey | apps/api/src/admin/admin.service.ts:500-667 | A command on a loaded record, however old, has its effect and is a step of a run. |
| AdminService.WorkspaceApi.LoadActor | apps/api/src/auth/auth.service.ts:215-231 | The caller's record with the role of the membership at that moment, as a step of its own. |
| AdminService.WorkspaceApi.DeleteIfDue | apps/worker/src/main.ts:203-208 | Deletes a workspace as read exactly if the time read has come. |
| Ownership.OwnedIff | apps/api/src/admin/admin.service.ts:555-667 | With actor records from any earlier authentication, every workspace has an owner throughout a run exactly if no step removes, on a record that says OWNER, another user who is the only owner. |
| Ownership.StepKeepsOwnedIff | apps/api/src/admin/admin.service.ts:555-667 | So for every single step. |
| Ownership.EveryWorkspaceHasAnOwner | apps/api/src/admin/admin.service.ts:555-667 | If no request of a run acts on an outdated record, every workspace has an owner with an account. |
| Ownership.ActorWasAuthenticated | apps/api/src/auth/auth.service.ts:202-231 | A record was loaded from the membership at some moment, for a caller whose session was live before. |
| Ownership.OwnersChangeOnlyByOwners | apps/api/src/admin/admin.service.ts:599-667 | While a workspace exists, its owners change only in a request by somebody who was an owner when the record for it was loaded. |
| Ownership.UpdateKeepsOwner | apps/api/src/admin/admin.service.ts:606-617 | A role change keeps an owner even if the actor's role is outdated. |
| Ownership.RemovalKeepsOwnerIff | apps/api/src/admin/admin.service.ts:638-653 | For any actor record, a removal leaves no owner exactly when that record says OWNER and the target is another user and the only owner. |
| Ownership.TwoOwnersCanRemoveEachOther | apps/api/src/admin/admin.service.ts:638-667 | Any run with two owners of a workspace who have sessions can be continued so that they remove each other. |
| Ownership.EndedSessionsAreOver | apps/api/src/admin/admin.service.ts:649-656 | No session a member had when removed, or that a suspension ended, is ever accepted again. |
| Ownership.EndedForever | apps/api/src/auth/auth.service.ts:202-232 | A revoked session token never authenticates again. |
| Ownership.DeletionWasScheduled | apps/worker/src/main.ts:199-208 | A workspace is deleted seven days or more after an owner scheduled it, on a read that a pass made since, with no cancellation between schedule and read. |
| Ownership.DeletedIff | apps/worker/src/main.ts:203-208 | A step deletes a workspace exactly if it is of a pass whose read of it is due by the clock then, whatever became of the schedule since. |
| Ownership.LateCancellationIsIgnored | apps/worker/src/main.ts:199-208 | After a read, an owner's cancellation succeeds and the pass deletes all the same. |
| Ownership.EarlyReadDeletes | apps/worker/src/main.ts:199-208 | A run that reads a millisecond after scheduling and deletes after seven days on that read. |
| Ownership.ScheduledByOwner | apps/api/src/admin/admin.service.ts:500-553 | A scheduled deletion is the last schedule request of an owner, not cancelled since. |
| HookInstaller.CommandRunsThePaths | connectors/claude-code/src/install.ts:11-20 | Word splitting and quote removal (section 2.2 of the POSIX Shell Command Language) turn the command into exactly the two paths and "capture", whatever characters the paths have. |
| HookInstaller.ReadShellQuote | connectors/claude-code/src/install.ts:11-15 | A quoted text reads as one word with exactly its characters. |
| HookInstaller.SettingsFile.InstallHook | connectors/claude-code/src/install.ts:22-62 | Content and backup afterwards, for a missing, finished or outdated file. |
| HookInstaller.InstallIsIdempotent | connectors/claude-code/src/install.ts:32-46 | After one installation the hook is installed and a second changes nothing. |
| HookInstaller.InstallWritesIff | connectors/claude-code/src/install.ts:32-47 | The file changes exactly if the event has no such hook or an outdated one; then it has the hook, none outdated, and a new one stands at the end with matcher, kind and timeout as written. |
| HookInstaller.InstallKeepsOthers | connectors/claude-code/src/install.ts:32-46 | Other settings and events stay; the event's hooks are the non-legacy ones in order, and the new hook at the end if it was missing. |
| HookInstaller.RewrittenIsStable | connectors/claude-code/src/install.ts:32-46 | Rewritten groups hold the command, no legacy hook, and need no further rewrite. |
| HookInstaller.CleanedHooks | connectors/claude-code/src/install.ts:35-40 | Filtering keeps the non-legacy hooks, in order, and nothing else. |

## Left out

- User interface, controllers, mail, telemetry, configuration, statistics, support grants and audit events: no property here depends on them.
- Cryptography and random numbers, beyond the assumptions above.
- Database isolation: a transaction happens at one instant. Lost acknowledgements of a commit are modelled for the worker, for ingest and for the refresh of tokens.
- Retention deletes of prompts, and what deleting a workspace does to installations, credentials and prompts: they free idempotency keys and remove cursors.
- AI providers and the classification of their errors: an analysis returns a token count or fails. Which failures the job queue retries is not modelled, since it may redeliver any job.
- The budget of a workspace is fixed during a run; changing it or the provider in the settings is not modelled.
- The provider cache and the score of an analysis.
- Upper-casing of user codes, lower-casing of tags and e-mail addresses, and slug generation: inputs are taken in their normal form.
- The text search itself is a predicate on rows; its limit of rows is kept.
- The JSON body of the export, and the texts of its cells for numbers and dates.
- The Windows branch of the quoting, settings files that do not parse, and the temporary file behind the rename.
- Logins choose the oldest membership and a workspace switch revokes the old session; both are modelled as a sign-in to any workspace of the user, with the checks of account and membership in the same transaction as the insert, and with sign-out as a step of its own. A password reset ends sessions like a suspension.
- Token handling inside a send is in `ClientRotation` and `ConnectorSession`, delivery in `CaptureDelivery`; there a send just succeeds, fails, or loses its answer.
- CaptureDelivery.ExactlyOnce: holds for each installation; the same event sent through a second installation is a second prompt. Other processes enqueue in one step and do not flush there; their loads, saves and flushes are in SharedQueue, without the service.
