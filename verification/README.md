# ArchiBot job core in Dafny

ArchiBot classifies Paperless documents in the background. PHP (Laravel) claims durable rows and
starts Python attempts; Temporal workflows own the newer document and embedding lifecycles; an
outbox connects the two. This project models the Python side of that machinery and proves what it
keeps over every interleaving of attempts, crashes, retries, signals and recoveries. Beside the
protocols it models the compact algorithms that decide what reaches the language model, Paperless
and the configuration file.

Reading order:

- **Fenced attempts**: `ActorExecution` (rows and transactions), `FencingProtocol` (all
  interleavings), `SourceEdits` (beside other writers), `StaleRecovery`, `ExecutionLifecycle` (failure
  classes, audit events), `StagedBatchFence` (child rows of a batch command).
- **Document workflow and embedding gate**: `DocumentWorkflow`, `ForceRequests` (how it answers them),
  `ReviewOutcome` (what a workflow did before it reports it), `EmbeddingGate`, `GateWakeup`,
  `GateEvents` (what the events around the gate do), `LostWakeup`, `EmbeddingWorkflow`,
  `PipelineFence`, `RunProjection`.
- **Outbox**: `Outbox`, `Relay`, `RelayTiming` (when an intent can be claimed again), `Delivery` (what
  the final statuses say about the server).
- **Review commit and staged batch**: `TagPolicy`, `ReviewPatch`, `ReviewCommit`, `StagedPhases`.
- **Algorithm cores**: `Utf8`, `Truncation`, `PromptBudget`, `PromptText` (what the prompt says),
  `PyText`, `ResultNormalizer`, `ReservedNames`, `RateLimiter`, `EnvFile`. `Wrappers` holds Option and
  Result.

How the protocols are modelled: a database transaction is one method of a class that holds the
tables as fields, and its contract equates the new tables with a function of the old ones. The same
function is the step of a state machine whose events also include what the environment does: the
Laravel claim (a fresh token, the next version, one queued execution), crashes, lost responses,
signals, other writers of a status. Theorems speak about every finite sequence of such events. Beside the
function a contract says in terms of the rows alone what a transaction leaves in them, and theorems over runs
say which results can be found there.

`dafny verify dfyconfig.toml` checks everything.

## What turned out false, and when it does hold

- A parked document workflow can be forgotten in eight ways, each with its exact condition and a run from the
  start that ends there. Three belong to the generations and their intents: a finish that commits twice with
  another generation in between, because the signal intent is keyed by run and build
  (`GateWakeup.FinishForgetsNobodyIffFresh`, `LostWakeup.RepeatedFinishLosesWakeup`); a start intent that is
  dead-lettered although the workflow runs (`GateWakeup.DeadLetterForgetsNobodyIff`,
  `LostWakeup.DeadLetterLosesWakeup`); a ready signal that is given up (`GateWakeup.LostSignalForgetsNobodyIff`,
  `LostWakeup.LostSignalLosesWakeup`). Three open the gate and signal nobody: a late progress report
  (`GateWakeup.LateProjectionForgetsNobodyIff`, `LostWakeup.LateProjectionLosesWakeup`); a build or reindex
  actor that completes its index (`GateWakeup.LegacyBuildForgetsNobodyIff`, `LostWakeup.LegacyBuildLosesWakeup`);
  a change of the configured model to one whose index is complete (`GateWakeup.ModelChangeForgetsNobodyIff`,
  `LostWakeup.ModelChangeLosesWakeup`). Two are writes of Laravel to the run: its recovery of blocked runs when it
  has another model's setting (`GateWakeup.ReleaseForgetsNobodyIff`, `LostWakeup.ReleaseLosesWakeup`), and an
  administrator's retry (`GateWakeup.RetryForgetsNobodyIff`, `LostWakeup.RetryLosesWakeup`). No other event of the
  model can (`GateWakeup.StepForgetsNobodyIffHarmless`).
- Delivered does not mean accepted: a start whose workflow id was ever used is refused and still
  delivered (`Delivery.DeliveredStartMayBeRefused`). It was accepted exactly when its first call found
  the id unused (`Delivery.DeliveredStartAcceptedIffIdWasUnused`).
- Dead-lettered does not mean that nothing happened (`Delivery.DeadLetterMayHaveBeenCarriedOut`); the
  exact condition is `Delivery.DeadLetterCarriedOutIff`.
- Execution and source disagree after other writers, exactly as `SourceEdits.AgreesIffLastEditFits`
  says. After a cancel request on a running source no settlement of its execution, not even as
  cancelled, can commit (`SourceEdits.CancelRequestStrandsExecution`).
- Recovery counts rows that it did not move when they were already retrying
  (`StaleRecovery.CountIsRowsMovedIffNoReplay`).
- A given-up embedding generation can stay running, and then keeps every other command that has no build
  of its own from preparing one, when the activity that marks it failed runs out of retries
  (`EmbeddingWorkflow.EmbeddingIndexWorkflow.GiveUp`, `EmbeddingWorkflow.RunningBuildBlocksOthers`).
- Readiness read under the shared lease is not protected from finishing, which takes no lock: it
  breaks exactly when the newest generation gets a second, failing outcome
  (`PipelineFence.FinishUnderLeaseBreaksReadsIffSecondOutcome`, reached in
  `PipelineFence.SecondOutcomeBreaksReading`).
- A decision that arrives before the review is published passes by a pending forced generation
  (`DocumentWorkflow.EarlyDecisionPassesByForcedGeneration`), which can end the workflow with that
  generation never served (`DocumentWorkflow.EarlyDecisionLosesForcedGeneration`). So does every force request
  after the decision; over whole runs these are exactly the cases
  (`DocumentWorkflow.CompletedLeavesGenerationPendingIffMissed`). And a malformed force signal replaces a valid
  pending one (`DocumentWorkflow.SignalKeepsPendingGeneration`).
- A phase that fails permanently does not end its workflow: the routine raises what is no activity failure, so
  Temporal retries the workflow task for ever and no force request is served any more
  (`DocumentWorkflow.PermanentFailureNeverContinues`, reached in `DocumentWorkflow.PhaseFailureBlocksReprocessing`).
  A failing task can be rescued by a newer force request exactly where the routine looks at force requests before
  it raises (`DocumentWorkflow.StuckForGoodIffRaisedUnlooked`).
- A batch that fails late sets children that already succeeded back to retrying or failed
  (`StagedBatchFence.FailureRevivesSucceededChildIff`, reached in `StagedBatchFence.SucceededChildIsRevived`).
- Publishing a review does not look at the run's status: a terminal run stays as it is exactly when
  nothing is published after it (`RunProjection.TerminalStaysIffNotPublished`), and otherwise can end
  twice (`RunProjection.RevivedRunEndsTwice`). A rejection after a commit is accepted silently.
- The prompt fits the context window if titles and metadata fit the headroom, but a title is never
  cut, so a long one overflows the window (`PromptBudget.LongTitleOverflows`); the exact condition over all
  contents is `PromptBudget.AlwaysFitsIffLargestFits`.
- Not every dictionary survives writing and reading an env file: exactly the clean ones do
  (`EnvFile.WriteReadRestoresIffClean`).
- Two runs of one batch that share a document share that document's phase items; every document's
  items go to its own run exactly when no two different runs share one
  (`StagedPhases.ItemsGoToOwnRunIff`).

## Model

| member | source | states |
|---|---|---|
| ActorExecution.LifecycleStore.StartActorExecution | app/jobs/actor_execution.py:60-190 | A fenced start activates exactly the queued execution its token, version, actor and attempt name, while the source still holds that fence; otherwise nothing changes and the error says which check failed. |
| ActorExecution.LifecycleStore.TransitionSourceForExecution | app/jobs/actor_execution.py:193-263 | A source under its current version and token shows the outcome by its kind: a run the execution's own status, a command too unless it is retried, a webhook the five statuses of its own; an unknown outcome and a lost fence are told apart and change nothing. |
| ActorExecution.LifecycleStore.ReleaseSourceFence | app/jobs/actor_execution.py:266-290 | The token is cleared and the retry time set only on the source row that still carries this version and token. |
| ActorExecution.LifecycleStore.Settle | app/jobs/actor_execution.py:293-356 | The execution takes the given status and its source shows it, in one step, or neither changes on any failure; no other row is touched, and repeating the same settlement succeeds without a change. |
| ActorExecution.LifecycleStore.MoveAndRelease | app/jobs/actor_execution.py:337-356 | The source half of a settlement: the status its kind shows for the outcome, the retry count, and the fence given up in the same step. |
| ActorExecution.LifecycleStore.FinishActorExecution | app/jobs/actor_execution.py:293-356 | A finish is a settlement with the given status and no retry time: the execution says it and the source shows it, or nothing changes. |
| ActorExecution.LifecycleStore.ScheduleActorExecutionRetry | app/jobs/actor_execution.py:359-424 | A retry is a settlement that leaves the execution retrying and its source released, both with the error class and the backoff; a run counts one retry more. |
| ActorExecution.SettlementIsAnswered | app/jobs/actor_execution.py:293-356 | By the two rows as they were a settlement moves them, repeats itself, is refused as unsupported, or is refused because the source or the execution is stale; exactly one of the five. |
| ActorExecution.MatrixOnlyGoesForward | app/execution_lifecycle.py:34-51 | The transition matrix read by its targets: nothing is reopened, and a final status allows only itself. |
| ActorExecution.OutcomeIsMirrored | app/jobs/actor_execution.py:211-245 | Every outcome has a status in each kind of source: the same in a run, the same in a command except that a retry leaves it pending, and in a webhook processed, dismissed, blocked, failed or failed_permanent. |
| ActorExecution.SelectsTheGivenOne | app/jobs/actor_execution.py:95-120 | A source is selected exactly when one id is given, and it is that kind's source of that id. |
| FencingProtocol.RunKeepsInv | app/jobs/actor_execution.py:60-424 | Over every run tokens stay unique, a source version has at most one execution, and a held fence names a live execution issued for it. |
| FencingProtocol.SupersededForever | app/jobs/actor_execution.py:246-263 | Once a source has moved past a version and token, no sequence of events brings that fence back. |
| FencingProtocol.StaleAttemptNeverWrites | app/jobs/actor_execution.py:325-356 | After a newer claim no start, finish or retry of an older attempt changes any row, even while its execution still says running. |
| FencingProtocol.SettledAttemptNeverWrites | app/jobs/actor_execution.py:395-424 | After a settlement the same attempt can never write again, whatever happens later. |
| FencingProtocol.AtMostOneSettlement | app/jobs/actor_execution.py:293-424 | Of all racing finishes, retries and recoveries at most one commits for an execution, and exactly then it has left its active states. |
| FencingProtocol.SettlingHandleNamesItsSource | app/jobs/actor_execution.py:325-340 | A handle that may settle an execution names the source that execution was claimed for. |
| FencingProtocol.ExecutionAndSourceAgree | app/jobs/actor_execution.py:193-290 | While no other writer moves the source's status, the newest execution and its source agree by the per-kind table in every reachable state, and the fence is held exactly while the execution is active; SourceEdits.AgreesIffLastEditFits has the other writers. |
| FencingProtocol.SettledSourceShowsItsOutcome | app/jobs/actor_execution.py:193-290 | In every reachable state without other writers a source whose newest attempt has ended shows that attempt's status as its kind does, and can be claimed again exactly if the attempt is to be retried. |
| SourceEdits.AgreesIffLastEditFits | app/jobs/actor_execution.py:193-290 | After any run, cancellations and other status writers included, execution and source agree exactly when the last such write since the newest claim or settlement, if any, left the status the table gives. |
| SourceEdits.RunningSettlesIffSourceStillRuns | app/jobs/actor_execution.py:246-263 | A running execution can settle exactly when it is the newest claim of its source and no other writer since has left the source in a status other than running. |
| SourceEdits.CancelRequestStrandsExecution | app/actors/document.py:454-470 | After a cancel request on a running source every settlement raises, the one with status cancelled included, recovery changes nothing, and the execution goes on saying running. |
| StaleRecovery.RecoverStaleExecutions | app/execution_lifecycle.py:373-436 | Recovery moves exactly the rows whose attempt still owns its source, leaves the others alone, and counts the moved rows and the replays. |
| StaleRecovery.RecoveredCountIs | app/execution_lifecycle.py:377-436 | The count is the attempts that still owned their source plus those already retrying, both as the tables were before recovery. |
| StaleRecovery.RecoveryMovesExactly | app/execution_lifecycle.py:403-414 | A row changes exactly if its attempt could still settle, and then it is retrying at once for the recovery reason. |
| StaleRecovery.MovedSourceIsReleased | app/execution_lifecycle.py:403-410 | The source of a moved execution is released with its retrying status and stays so to the end of the recovery. |
| StaleRecovery.CountIsRowsMovedIffNoReplay | app/execution_lifecycle.py:403-436 | The count is the number of rows moved exactly when no row of the scan was already retrying. |
| FencingProtocol.StatusStep | app/execution_lifecycle.py:34-51 | One event changes an execution's status only from nothing to queued, from queued to running, or from running to a status the matrix allows. |
| FencingProtocol.HistoryIsMatrixPath | app/execution_lifecycle.py:34-51 | Every execution's whole history is a path of the transition matrix with at most three entries, ending in its current status. |
| FencingProtocol.SettlementHappened | app/execution_lifecycle.py:469-546 | An execution found in a final status got there by one identifiable committed event with its own token and version. |
| FencingProtocol.RunnerReportsOnlyCommittedOutcomes | app/actor_runner.py:521-585 | Whatever the runner prints other than a protocol failure names exactly the status that one committed transaction of its own invocation wrote. |
| FencingProtocol.ExitZeroMeansCommitted | app/actor_runner.py:536-585 | Exit code 0 means that the invocation did not raise and exactly one committed transaction of its own attempt gave the outcome. |
| FencingProtocol.QueryAnswers | app/execution_lifecycle.py:469-500 | In every reachable state the runner's query has an answer, and it is the only execution of its invocation. |
| FencingProtocol.CommittedOutcomeIsReported | app/actor_runner.py:521-585 | If the invocation's own execution has ended, the runner finds it and prints its status, unless it is a failure without an error type; exit code 0 is exactly such an outcome without an exception. |
| ExecutionLifecycle.RetryBackoffSeconds | app/jobs/retry.py:35-41 | Every attempt number gives a delay between 30 and 1800 seconds. |
| ExecutionLifecycle.BackoffGrowsToItsLast | app/jobs/retry.py:22-41 | The delays are 30, 120, 300, 900 and then 1800 seconds, and a later attempt never waits less. |
| ExecutionLifecycle.RetriesUnlessFutile | app/jobs/retry.py:24-46 | A failure is retried before the last attempt unless its class is one that another attempt cannot mend. |
| ExecutionLifecycle.ExecutionLifecycle.Finish | app/execution_lifecycle.py:240-261 | An impossible final status is refused before the store is touched; the audit event is emitted only by the call whose transaction moved the rows. |
| ExecutionLifecycle.ExecutionLifecycle.Fail | app/execution_lifecycle.py:263-310 | A failure before the last attempt of a class that is worth retrying ends as retrying after the attempt's backoff, every other one as permanently failed, under the name of its class and with one audit event only for the winner. |
| StagedBatchFence.BatchStore.StartOrResumeStagedPipelineItem | app/jobs/pipeline_items.py:157-253 | Under the command's current fence and a live child run the item starts with the next attempt number; otherwise nothing is written. |
| StagedBatchFence.BatchStore.FinishStagedPipelineItem | app/jobs/pipeline_items.py:256-306 | Exactly the item's current attempt is finished, for its own run and under the command's current fence; anything else raises and writes nothing. |
| StagedBatchFence.BatchStore.MarkPipelineRunStatus | app/jobs/pipeline_runs.py:326-397 | A run's status changes only under its fence and never away from a cancellation; a command attempt that lost its fence raises. |
| StagedBatchFence.BatchStore.MarkPipelineRunRetrying | app/jobs/pipeline_runs.py:279-323 | A retry is scheduled only under the run's fence and never undoes a cancellation. |
| StagedBatchFence.BatchStore.MarkPipelineRunCancelled | app/jobs/pipeline_runs.py:216-239 | A run is cancelled only under its fence. |
| StagedBatchFence.BatchStore.UpdatePipelineRunProgress | app/jobs/progress.py:36-97 | Progress is written only under the fence. |
| StagedBatchFence.BatchStore.StoreBatchContent | app/jobs/document_embeddings.py:203-233 | Embeddings, OCR corrections and suggestions are stored only while the batch command holds this attempt's fence. |
| StagedBatchFence.BatchStore.EnsureStagedBatchActive | app/jobs/pipeline_runs.py:117-162 | The guard passes exactly while this attempt holds the command and no child is cancelled; a lost fence is reported before a cancelled child. |
| StagedBatchFence.WriteRaisesSkipsOrWrites | app/jobs/pipeline_items.py:157-306 | By the rows as they are, every child write raises, leaves its row alone silently, or does exactly what it says: which of the three follows from the command's running version and token, the batch of the run, and its cancellation. |
| StagedBatchFence.BatchWriteNeedsItsFence | app/jobs/pipeline_items.py:157-178 | No child write of a batch attempt changes anything unless the command row still carries its version and token. |
| StagedBatchFence.SupersededForever | app/jobs/pipeline_items.py:157-178 | Child writes and lifecycle steps together never bring a superseded fence back. |
| StagedBatchFence.OldBatchAttemptNeverWrites | app/jobs/pipeline_items.py:157-306 | Once version v+1 of the command is claimed, no child write of attempt v commits, ever. |
| StagedBatchFence.CancellationIsFinal | app/jobs/pipeline_runs.py:216-397 | No lifecycle step and no child write takes a run out of cancel_requested or cancelled. |
| StagedBatchFence.ItemAttemptsNeverDecrease | app/jobs/pipeline_items.py:181-253 | An item's attempt number only grows. |
| StagedBatchFence.OldItemAttemptNeverFinishes | app/jobs/pipeline_items.py:256-306 | After a restart the record of the earlier item attempt finishes nothing, under any fence. |
| StagedBatchFence.FailureRevivesSucceededChildIff | app/actors/document_batch.py:381-393 | A failing batch sets a child that already succeeded back to retrying or failed exactly when it still owns its fence. |
| StagedBatchFence.SucceededChildIsRevived | app/actors/document_batch.py:339-393 | From every initial state with an unclaimed batch there is a run in which one attempt, holding its fence throughout, finishes a child and afterwards sets it back to retrying or failed. |
| DocumentWorkflow.DocumentWorkflow.ReviewDecision | app/temporal/workflows.py:307-310 | The first decision wins. |
| DocumentWorkflow.DocumentWorkflow.ForceReprocess | app/temporal/workflows.py:316-322 | Of two readable requests the larger generation stays pending. |
| DocumentWorkflow.DocumentWorkflow.EmbeddingReady | app/temporal/workflows.py:328-330 | The ready flag is set. |
| DocumentWorkflow.DocumentWorkflow.ReplacementRequest | app/temporal/workflows.py:357-379 | A well-formed request is consumed and answered only if it is newer; a malformed one raises and stays pending. |
| DocumentWorkflow.StepShape | app/temporal/workflows.py:381-403 | Every transition leaves the chain of generations alone or extends it by one newer generation that superseded the current one. |
| DocumentWorkflow.RunTracksNewest | app/temporal/workflows.py:316-403 | In every interleaving the current or pending generation is the largest asked for so far, and consumed generations increase strictly. |
| DocumentWorkflow.FirstGenerationStays | app/temporal/workflows.py:381-403 | The chain always begins with the generation the workflow was started for. |
| DocumentWorkflow.ContinueAsNewGoesToTheNewestGeneration | app/temporal/workflows.py:345-403 | While open, current and pending together hold the maximum of all ids handled; Continue-As-New goes exactly there, after every earlier consumed generation was superseded by its successor. |
| DocumentWorkflow.EarlyDecisionPassesByForcedGeneration | app/temporal/workflows.py:405-418 | After publication a pending newer generation is served next exactly when no decision came first. |
| DocumentWorkflow.EarlyDecisionLosesForcedGeneration | app/temporal/workflows.py:405-436 | For every request and newer generation there is a run from the start that completes as rejected with the newer request still pending and nothing superseded. |
| DocumentWorkflow.ReviewLoopServesForcedGenerationFirst | app/temporal/workflows.py:405-420 | Inside the review loop a pending newer generation is always served before a decision. |
| DocumentWorkflow.SignalKeepsPendingGeneration | app/temporal/workflows.py:316-322 | A valid pending generation survives a further signal exactly when that signal is well formed or names no newer generation. |
| DocumentWorkflow.CompletedLeavesGenerationPendingIffMissed | app/temporal/workflows.py:405-464 | Over all runs from the start with well-formed force signals, a workflow completes with a newer generation pending exactly when that was asked for while the review was being published with the decision already there, or after the decision. |
| DocumentWorkflow.StuckForGoodIffRaisedUnlooked | app/temporal/workflows.py:357-440 | A workflow task that raises can be made to pass by later signals exactly if the routine looks at force requests before it raises; after a permanent phase failure, or at a bad decision that came before publication, the workflow stays open for good. |
| DocumentWorkflow.PermanentFailureNeverContinues | app/temporal/workflows.py:545-552 | After a permanent phase failure the workflow never ends, never continues as new and supersedes nothing, whatever is signalled. |
| DocumentWorkflow.PhaseFailureBlocksReprocessing | app/temporal/workflows.py:545-552 | In each of the four phases that is reached from the start. |
| ForceRequests.RequestIsReadInOrder | app/temporal/workflows.py:357-379 | A request is refused for the first thing that is wrong with it, and otherwise answered with the next generation of the same workflow and document exactly if it is newer. |
| ForceRequests.LooksBeforeGoingOn | app/temporal/workflows.py:381-403 | From the start to the publication, before each step a malformed request makes the workflow task raise and stays, a newer generation supersedes the current one, and any other request is dropped and the routine goes on to its next phase. |
| ForceRequests.LooksAfterReadiness | app/temporal/workflows.py:466-497 | So does a readiness result, which then counts as if no request had been pending. |
| ForceRequests.ContinuesAfterSupersession | app/temporal/workflows.py:381-403 | After a supersession a still newer generation supersedes that one; otherwise the workflow continues as new with it and with no signal left over. |
| ForceRequests.ReviewLooksFirst | app/temporal/workflows.py:409-425 | In the review loop a request for another workflow ends this one as superseded exactly if it names the suggestion under review; one for this workflow is treated as elsewhere, and only then the decision counts. |
| ForceRequests.OnlyLooksConsume | app/temporal/workflows.py:357-577 | Nothing else consumes a request, starts a supersession or continues as new. |
| ForceRequests.ReportsBeforeReturning | app/temporal/workflows.py:332-464 | What the workflow returns has been reported to the database before, and a commit is reported when it is done. |
| ForceRequests.RetryRepeats | app/temporal/workflows.py:381-577 | A task that raised is tried again from where it stood, with whatever has been signalled since. |
| ReviewOutcome.ReviewFollowsFourPhases | app/temporal/workflows.py:499-577 | Over all runs a review is published only after the gate was open and all four phases have succeeded since; the suggestion under review is the one published last, and it is committed only for a decision that accepts it. |
| ReviewOutcome.CommittedIffCommitSucceeded | app/temporal/workflows.py:438-464 | Over all runs a workflow reports a commit, or is about to, exactly if the commit activity succeeded and the report has not failed; the decision then accepts the suggestion that was published and committed. |
| ReviewOutcome.CompletedAsDecided | app/temporal/workflows.py:405-487 | A completed workflow is committed exactly if the decision accepts the published suggestion, rejected exactly if it rejects it, superseded only by a request that displaces it, and otherwise ended by the readiness result it names. |
| ReviewOutcome.ReadinessIsObeyed | app/temporal/workflows.py:466-497 | With no force request pending the readiness result alone decides whether the workflow goes on, parks, reviews, stops or raises. |
| ReviewOutcome.DecisionIsAnswered | app/temporal/workflows.py:405-442 | A decision for the published suggestion leads to its commit or its rejection; any other decision makes the workflow task raise, and without one the workflow waits. |
| ReviewOutcome.FailsIff | app/temporal/workflows.py:441-577 | The workflow fails exactly when an activity that nothing catches runs out of retries, or after the failure of another one has been recorded. |
| ReviewOutcome.FailureIsRecorded | app/temporal/workflows.py:441-577 | A failed phase, publication or commit is recorded before the workflow fails or raises. |
| EmbeddingGate.GateStore.PrepareBuildProjection | app/temporal/embedding_activities.py:85-192 | Preparation resumes the command's newest build or creates one, only for a Temporal build command and only while no other command's build runs. |
| EmbeddingGate.GateStore.FinishEmbeddingGeneration | app/temporal/embedding_activities.py:359-419 | The build becomes complete exactly when nothing failed, and then the blocked runs are released in the same transaction; the command has failed for good exactly if something failed, goes on exactly if it is a successful reindex, and has otherwise succeeded. |
| EmbeddingGate.FinishedByRow | app/temporal/embedding_activities.py:359-419 | A finish, row by row: which statuses the build, the command, each run, each start and each signal have afterwards. |
| EmbeddingGate.ReportAfterFinish | app/temporal/embedding_activities.py:316-407 | After a finish a later progress report of the same generation is accepted exactly if it was a successful reindex. |
| EmbeddingGate.GateStore.ReleaseBlockedDocumentWorkflows | app/temporal/embedding_activities.py:422-511 | The loop queues all index-blocked Temporal runs and gives each a start intent and, once per run and build, a signal intent. |
| EmbeddingGate.GateStore.ProjectEmbeddingProgress | app/temporal/embedding_activities.py:316-351 | Progress is stored only for the command's own build while the command runs. |
| EmbeddingGate.GateStore.FailEmbeddingPreparation | app/temporal/embedding_activities.py:520-545 | Only builds of the command that are still running become failed. |
| EmbeddingGate.GateStore.CheckDocumentReadiness | app/temporal/document_activities.py:702-773 | A run is queued or blocked according to the gate; finished, cancelled and already reviewed runs are reported and left alone. |
| EmbeddingGate.ReadyIffLatestComplete | app/temporal/document_activities.py:251-267 | The gate asks about exactly one generation, the model's newest by update and then by id, and is open exactly if that is complete. |
| GateWakeup.StepForgetsNobodyIffHarmless | app/temporal/workflows.py:466-497 | From a state in which every waiting workflow has a way to wake up, an event leaves it so exactly when it meets the condition stated for its kind; eight kinds have one: a successful finish, a late projection, a build actor's completion, a change of model, the two dead letters, and Laravel's release and retry. |
| GateWakeup.FinishReleasesEveryBlockedRun | app/temporal/embedding_activities.py:422-511 | After a successful finish no index-blocked Temporal run is left, and each has a start intent and a signal intent for the build. |
| GateWakeup.FinishForgetsNobodyIffFresh | app/temporal/embedding_activities.py:410-511 | A successful finish keeps every waiting workflow in sight exactly when each one that depends on it has a blocked run whose signal for this build is not inserted yet. |
| GateWakeup.DeadLetterForgetsNobodyIff | app/temporal/outbox.py:176-199 | A dead-lettered start intent forgets a workflow exactly when it fails the run on which a waiting workflow depends. |
| GateWakeup.LostSignalForgetsNobodyIff | app/temporal/outbox.py:102-117 | A ready signal that is given up forgets a workflow exactly when no other signal, flag or later finish would reach it. |
| GateWakeup.LateProjectionForgetsNobodyIff | app/temporal/embedding_activities.py:316-351 | A progress report for a completed generation reopens the gate and forgets exactly the workflows that depend on the next finish. |
| GateWakeup.LegacyBuildForgetsNobodyIff | app/jobs/embedding_index.py:167-184 | A build actor's completion of the configured model's index forgets exactly the workflows that depend on the next finish. |
| GateWakeup.ModelChangeForgetsNobodyIff | app/temporal/document_activities.py:251-267 | A change of the configured model forgets a workflow exactly when the new model's index is complete and a workflow depends on the next finish. |
| GateWakeup.ReleaseForgetsNobodyIff | laravel/app/Services/Pipeline/PipelineRecoveryDispatcher.php:1638-1698 | Laravel's recovery forgets a workflow exactly when it releases the run on which that depends, which takes another model's setting. |
| GateWakeup.RetryForgetsNobodyIff | laravel/app/Http/Controllers/PipelineRunController.php:61-97 | A retry forgets the waiting workflow of its run exactly when the gate is open by either side's model and nothing is on its way to that workflow. |
| GateWakeup.NeverForgetsIffAllHarmless | app/temporal/document_activities.py:702-773 | Over every interleaving no workflow is ever forgotten exactly when every event was harmless when it came. |
| GateWakeup.NoLostWakeup | app/temporal/document_activities.py:702-773 | In such runs a workflow parked while the index is complete has its ready flag set or a signal for its workflow id in flight, unless its run was cancelled. |
| GateWakeup.OrderlyRunsAreHarmless | app/temporal/embedding_activities.py:359-511 | Runs in which each generation finishes once and is not projected afterwards, no intent is given up, no actor build or change of model opens the gate, and Laravel reads the same model and retries no cancelled run, are harmless throughout. |
| GateEvents.AnswerIsObeyed | app/temporal/workflows.py:466-497 | What a readiness check found reaches the workflow: an open gate lets it go on, a closed one parks it, a finished or cancelled run ends it, and a stored review turns it to the decision. |
| GateEvents.ContinuedFlowLeaves | app/temporal/workflows.py:381-403 | A workflow that continues as new leaves its old run, and only that one. |
| GateEvents.PhasesMarkTheirRun | app/temporal/document_phase_activities.py:558-593 | While a workflow stands at the gate its run is not marked; past it every status but blocked can be written, and a cancellation always. |
| GateEvents.DeadLetterFailsWaitingRun | app/temporal/outbox.py:176-199 | A start intent that is given up fails its run exactly while that is pending, queued or blocked. |
| GateEvents.GenerationsUseTheGate | app/temporal/embedding_activities.py:316-545 | Progress, finish and failure of a generation are the transactions of the gate, each as it is or without effect. |
| GateEvents.ActorWritesItsRow | app/jobs/embedding_index.py:167-184 | A build actor adds an index row only while no build runs, and otherwise writes only a row of its own command and model. |
| GateEvents.LaravelReleases | laravel/app/Services/Pipeline/PipelineRecoveryDispatcher.php:1638-1698 | Laravel frees an index-blocked run exactly if its own model's index is complete, and asks for its workflow. |
| GateEvents.LaravelRetries | laravel/app/Http/Controllers/PipelineRunController.php:61-97 | A retry takes a blocked, failed or cancelled run and makes it pending or blocked as Laravel's model has it. |
| GateEvents.RunsAndWorkflowsBegin | app/temporal/document_activities.py:270-400 | A run is created once, and its workflow started for its own id while no other execution of that is open. |
| LostWakeup.RepeatedFinishLosesWakeup | app/temporal/embedding_activities.py:484-511 | A repeated finish with another generation in between leaves a parked workflow that nothing will wake, and the next finished generation passes it by too. |
| LostWakeup.DeadLetterLosesWakeup | app/temporal/outbox.py:176-199 | A start intent given up after its response was lost fails the run of a parked workflow; the next finish passes it by and nothing wakes it. |
| LostWakeup.LostSignalLosesWakeup | app/temporal/outbox.py:102-117 | A ready signal that is given up leaves its workflow parked at the open gate with nothing to wake it. |
| LostWakeup.LateProjectionLosesWakeup | app/temporal/embedding_activities.py:316-351 | A progress report of a finished reindex generation that arrives during the next one opens the gate over a workflow that waits for that. |
| LostWakeup.LegacyBuildLosesWakeup | app/actors/embedding.py:198-263 | A build actor that completes the index leaves a workflow parked at the open gate, its run still blocked. |
| LostWakeup.ModelChangeLosesWakeup | app/temporal/document_activities.py:251-267 | Configuring a model with a complete index leaves a workflow parked at the open gate. |
| LostWakeup.ReleaseLosesWakeup | laravel/app/Services/Pipeline/PipelineRecoveryDispatcher.php:1638-1698 | Laravel, reading another model, releases the run of a workflow that waits; the next finished generation passes it by. |
| LostWakeup.RetryLosesWakeup | laravel/app/Http/Controllers/PipelineRunController.php:61-97 | A run is cancelled, its ready signal given up, and the run retried: its workflow stays parked at the open gate. |
| EmbeddingWorkflow.EveryOutcomeIsCounted | app/temporal/workflows.py:184-202 | Every document is counted once as embedded, skipped or failed. |
| EmbeddingWorkflow.ReportsAddUp | app/temporal/workflows.py:184-216 | Each progress report misses exactly the documents still to come; after the last one done equals total. |
| EmbeddingWorkflow.EmbeddingIndexWorkflow.RunGeneration | app/temporal/workflows.py:184-240 | A completed generation is stored with counters that add up, is complete exactly when no document ran out of retries, and leaves its command failed, running or succeeded by that and by its kind; one that was given up leaves a build running exactly when marking it failed did not commit and one was running. |
| EmbeddingWorkflow.EmbeddingIndexWorkflow.GiveUp | app/temporal/workflows.py:230-240 | The activity that marks a generation failed may itself run out of retries; a build of the command is left running exactly when it did not commit and one was running. |
| EmbeddingWorkflow.RunningBuildBlocksOthers | app/temporal/embedding_activities.py:85-192 | A build left running keeps every other command without a build of its own from preparing one. |
| PipelineFence.Lease | app/jobs/pipeline_fence.py:34-82 | The lock is given back whenever it was taken, the session always closed; the first failure escapes and later cleanup failures become notes on it. |
| PipelineFence.LeaseIsSharedOrExclusive | app/jobs/pipeline_fence.py:34-95 | Readers share the lease and a writer has it alone; whoever gets it has read nothing yet, and only its holder gives it back. |
| PipelineFence.NewestDecides | app/jobs/pipeline_fence.py:98-112 | The reading is the status of the model's newest generation, and not ready without one. |
| PipelineFence.WhoWrites | app/temporal/embedding_activities.py:85-192 | A build writes the index only as the writer, and a generation is prepared only while nobody holds the lease; later writes of Temporal take none. |
| PipelineFence.ReadinessIsStableUnderLease | app/jobs/pipeline_fence.py:98-112 | Readiness read on a session that holds the shared lease stays true until release, in every interleaving with exclusive builds and Temporal generations that have one outcome each. |
| PipelineFence.FinishUnderLeaseBreaksReadsIffSecondOutcome | app/temporal/embedding_activities.py:359-389 | Finishing takes no lock: it breaks such a reading exactly when it is a failing outcome of the newest generation. |
| PipelineFence.SecondOutcomeBreaksReading | app/temporal/embedding_activities.py:359-389 | There is a run from a system without readers in which a reading under the lease is broken by a second outcome. |
| RunProjection.ProjectionStore.FinishDocumentProjection | app/temporal/document_phase_activities.py:558-610 | The run waits for review and the event is written once; a run already waiting is left alone. |
| RunProjection.ProjectionStore.FinishDocumentReview | app/temporal/document_phase_activities.py:666-750 | A waiting run ends by the outcome's status and phase with one event; a repetition changes nothing and a conflict raises. |
| RunProjection.ProjectionStore.SupersedeDocumentProcessing | app/temporal/document_phase_activities.py:759-834 | A run that is not over is cancelled as superseded, its pending suggestions become stale, and one event is written. |
| RunProjection.ProjectionWritesOrRaises | app/temporal/document_phase_activities.py:558-834 | A projection writes run, suggestions and events of a run that may be written, leaves a run alone that shows it already, and otherwise raises without a trace; which of the three, and with which error, is decided by the row. |
| RunProjection.FirstSuccessFixesTheRun | app/temporal/document_phase_activities.py:666-834 | Of any completions and supersessions the first success fixes the terminal status; all others change nothing, one terminal event is written, and later calls succeed exactly when they ask for that status. |
| RunProjection.NoSuccessNoChange | app/temporal/document_phase_activities.py:709-728 | Projections that raise leave no trace. |
| RunProjection.RejectionAfterCommitGoesUnnoticed | app/temporal/document_phase_activities.py:667-678 | Commit and rejection share a terminal state, so a rejection after a commit is accepted without effect. |
| RunProjection.TerminalStaysIffNotPublished | app/temporal/document_phase_activities.py:558-593 | A terminal run stays as it is through a sequence of projections exactly when none of them publishes a review. |
| RunProjection.RevivedRunEndsTwice | app/temporal/document_phase_activities.py:558-579 | A late publication lets one run end as succeeded and then as cancelled, with two terminal events. |
| Outbox.DelaySeconds | app/temporal/outbox.py:102-105 | Every retry waits between 1 and 60 seconds, and 60 from the sixth attempt on. |
| Outbox.DelayDoublesUpToCap | app/temporal/outbox.py:102-105 | The delay is one second for no attempt and doubles with each one up to 60. |
| Outbox.DelayTable | app/temporal/outbox.py:102-105 | The delays after the first five attempts are 2, 4, 8, 16 and 32 seconds, and then 60. |
| Outbox.OutboxStore.ClaimNextIntent | app/temporal/outbox.py:27-81 | The claim takes the due, unlocked row with the smallest id, changes only its status, attempt count and lease, and takes none only when none is due. |
| Outbox.OutboxStore.MarkDelivered | app/temporal/outbox.py:84-99 | Only a row in delivery becomes delivered. |
| Outbox.OutboxStore.MarkFailed | app/temporal/outbox.py:102-199 | A row in delivery returns to pending, due exactly from the attempt's delay on, or becomes a dead letter at the attempt limit and fails exactly its not yet started owners; a suggestion without a commit status is left alone. |
| Relay.DeliverIntent | app/temporal/relay.py:30-82 | A delivery changes the server as the operation says and reports success only if the response arrived; a start whose id was ever used is refused and still reported as delivered. |
| Relay.DeliveredByOperation | app/temporal/relay.py:30-82 | Operation by operation, what a delivery leaves on the server and when it returns normally: a start uses an unused id or is noted as refused, a signal-with-start makes an execution exactly if none is open, the others need an open one. |
| Relay.RelayTurn | app/temporal/relay.py:104-129 | One undisturbed turn claims a due intent, performs it on the server and marks that row, and no other, by the result. |
| Relay.ClaimLife | app/temporal/relay.py:104-129 | A claim lasts from its claiming to its acknowledgement, its rejection or its relay's crash, and makes one call in between. |
| Relay.AttemptsAreBounded | app/temporal/outbox.py:27-65 | With any number of relays and crashes, attempts stay within max_attempts plus the number of lease takeovers. |
| Relay.TerminalIntentsNeverChange | app/temporal/outbox.py:84-126 | Delivered and dead_letter are absorbing. |
| RelayTiming.DueExactlyAfterTheDelay | app/temporal/outbox.py:102-117 | In every run an intent whose n-th attempt failed is due again exactly from its delay on until it is claimed, whatever other relays do, so its next claim comes no earlier. |
| RelayTiming.LeaseKeepsOthersOut | app/temporal/outbox.py:27-65 | In every run a claim that is not yet marked keeps every other relay out exactly until its lease is over. |
| Delivery.CarriedOutIffACallWasAccepted | app/temporal/relay.py:30-82 | In every run the server carried an intent out exactly when one of its calls was well formed, arrived, and found an unused id or an open workflow; it answered exactly when a call arrived. |
| Delivery.DeliveredStartAcceptedIffIdWasUnused | app/temporal/relay.py:32-47 | A delivered start intent was accepted exactly when its workflow id had not been started when its first call reached the server. |
| Delivery.DeliveredMeansCarriedOut | app/temporal/relay.py:49-81 | Every other delivered intent was carried out. |
| Delivery.DeliveredStartMayBeRefused | app/temporal/relay.py:43-47 | Two start intents of one workflow id can both be delivered with only the first accepted and one execution created. |
| Delivery.DeadLetterCarriedOutIff | app/temporal/relay.py:112-129 | A dead letter was carried out exactly when one of its claims made a call that the server accepted, for a start exactly when its first call found the id unused. |
| Delivery.DeadLetterMayHaveBeenCarriedOut | app/temporal/relay.py:112-129 | A start whose only response was lost ends as a dead letter although its workflow runs. |
| Delivery.StartsCreateAtMostOne | app/temporal/relay.py:35-47 | However often start intents of one workflow id are redelivered, beside child workflows started under the same id, they create at most one execution. |
| Delivery.RedeliveryCreatesIffClosedInBetween | app/temporal/relay.py:58-67 | A redelivered signal-with-start creates another execution exactly when the workflow was closed in between and not opened again. |
| TagPolicy.ReservedClassificationTagIds | app/pipeline/tag_policy.py:10-35 | The loop ends and returns exactly the control tags and, with an Inbox tag, everything that descends from them. |
| TagPolicy.ReservedIsLeastClosedSet | app/pipeline/tag_policy.py:27-35 | With an Inbox tag the result is the least set that holds the control tags and is closed under parent links, for cycles, duplicates and dangling parents alike. |
| TagPolicy.ReservedExactly | app/pipeline/tag_policy.py:10-35 | Without an Inbox tag only a set OCR tag is reserved; with one, exactly the control tags and the children of reserved tags. |
| TagPolicy.ReservedGrowsWithTags | app/pipeline/tag_policy.py:27-35 | More tags never release a reserved id, so order and repetition do not matter. |
| ReviewPatch.Sorted | app/jobs/review_commit.py:145-146 | The patched tag list holds each id once, in increasing order. |
| ReviewPatch.BuildPaperlessPatch | app/jobs/review_commit.py:107-146 | After the patch the document has its old tags and every proposed one that is not reserved, every non-empty proposed title and date, every proposed correspondent and document type, the proposed storage path if it had none, and otherwise what it had. |
| ReviewPatch.PatchReviewed | app/jobs/review_commit.py:107-146 | The same with the reserved ids that the tag policy finds in the current tags; a written tag list is strictly increasing. |
| ReviewPatch.PatchShowsReview | app/jobs/review_commit.py:107-146 | The same of the pure patch, for every record, document and set of reserved ids; the document's version is not touched. |
| ReviewPatch.PatchConverges | app/jobs/review_commit.py:121-177 | After the patch the recogniser says yes, and patching again, with the old or a new patch, changes nothing. |
| ReviewPatch.MatchesIffPatchChangesNothing | app/jobs/review_commit.py:149-177 | The recogniser says yes exactly when the patch would leave the document's metadata as they are. |
| ReviewPatch.PatchIsSafe | app/jobs/review_commit.py:107-146 | A review never drops a tag, changes a set storage path, or adds a reserved or unproposed tag. |
| ReviewCommit.ReviewStore.BeginReviewCommit | app/temporal/review_activities.py:44-109 | An attempt begins only for the accepted suggestion its command owns, and reports a commit that already happened. |
| ReviewCommit.ReviewStore.FinishReviewCommit | app/temporal/review_activities.py:112-166 | Command and suggestion become committed, and the success event is written only by the call that moved the command. |
| ReviewCommit.ReviewStore.FailReviewCommit | app/temporal/review_activities.py:196-255 | A failure never overrides a recorded commit. |
| ReviewCommit.DecideByVersion | app/jobs/review_commit.py:180-206 | An unchanged document version is patched; a changed one is refused, for its version or else for its checksum, unless the patch would change nothing. |
| ReviewCommit.PatchIsSentIff | app/clients/paperless.py:153-172 | A patch is sent unless it sets a storage path that is not positive, in a document that has one, does not report it, or has no verifiable version. |
| ReviewCommit.AttemptAdvances | app/temporal/review_activities.py:169-193 | What each event of an attempt does to the tables and to the attempt, and that it touches no other. |
| ReviewCommit.ReviewCommitConverges | app/temporal/review_activities.py:44-193 | With crashes between any two steps and overlapping attempts the document is untouched or shows exactly one application of the patch; a recorded commit means it shows it and one success event exists. |
| ReviewCommit.AttemptCommitsIff | app/temporal/review_activities.py:169-193 | An undisturbed attempt of a review that is neither committed nor given up commits, with one success event, exactly if the document has the reviewed version and a storage path that must be filled can be, or has another version and shows the review already. |
| ReviewCommit.CommittedDocumentShowsReview | app/temporal/review_activities.py:112-193 | Over all crashes and overlapping attempts, once a commit is recorded the document shows each value of the review and no other change. |
| ReviewCommit.RetryRecognisesItsOwnPatch | app/jobs/review_commit.py:180-206 | A retry never refuses the document because of its own earlier patch, even under a new document version. |
| StagedPhases.AnyPrefixIsOrderly | app/actors/document.py:173-333 | Wherever the event trace stops, at most one item is open, the one started last, at most six steps are counted for each document, and six for each exactly when the trace is complete. |
| StagedPhases.StepsStandInOrder | app/actors/document.py:142-356 | Where each step stands in a whole batch's trace: all documents are fetched, embedded, corrected, classified, judged and stored, phase by phase. |
| StagedPhases.ResultIsBySteps | app/actors/document_batch.py:249-258 | An item fails exactly without its embedding and is skipped exactly if optional work did nothing. |
| StagedPhases.RunOfDocument | app/actors/document_batch.py:221-233 | The observer's lookup finds a run of the document it was told about. |
| StagedPhases.ItemsGoToOwnRunIff | app/actors/document_batch.py:221-233 | Phase items of all documents go to their own runs exactly when no two different runs share a document. |
| StagedPhases.StagedBatch.ObserveCompleted | app/actors/document_batch.py:223-285 | A completion closes exactly the open item, counts one step, and announces the phase after its last document; on failure the trace stays a prefix. |
| StagedPhases.StagedBatch.EmbedOne | app/actors/document.py:175-239 | In a batch an embedding step completes only if the document has text, the call succeeded, and a non-empty embedding was stored; every other path raises. |
| StagedPhases.StagedBatch.OcrOne | app/actors/document.py:242-283 | A failed correction does not stop the batch: the step still completes, as skipped unless a correction was stored. |
| StagedPhases.StagedBatch.ModelStep | app/actors/document.py:285-333 | Classification and judging complete only after the call and the fence check, and judging only with a classified document. |
| StagedPhases.StagedBatch.RunStagedDocumentPhases | app/actors/document.py:142-356 | All documents pass one phase before any starts the next, and a normal return has an outcome for every document. |
| StagedPhases.StagedBatch.Process | app/actors/document_batch.py:95-357 | At every exit the trace is a prefix of the full trace, the only item that can still be active is that of the trace's open step, every finished item has the status its document's calls explain, the counter is within six steps for each document, and completion is published only with all of them counted. |
| StagedPhases.StagedBatch.Handle | app/actors/document_batch.py:77-397 | The same for the whole actor; after a lost fence nothing is cleaned up, after any other failure exactly the open items are. |
| Utf8.EncodedCharIsComplete | app/pipeline/classifier.py:48-53 | Every encodable character's bytes form one complete sequence that decodes to it. |
| Utf8.FittingChars | app/pipeline/classifier.py:51-53 | The number of characters is the largest whose encoding fits the bytes. |
| Utf8.CutDecodesToLongestPrefix | app/pipeline/classifier.py:51-53 | Cutting an encoding at any byte and decoding with errors ignored gives the longest character prefix that fits. |
| Utf8.DecodeInvertsEncode | app/pipeline/classifier.py:48-53 | Decoding an uncut encoding gives the text back. |
| Utf8.StrayByteIsDropped | app/pipeline/classifier.py:53 | A byte that starts no character, or whose next byte does not fit it, is dropped. |
| Utf8.DecodedTextIsEncodable | app/pipeline/classifier.py:53-56 | Whatever the bytes, decoded text can be encoded again. |
| Truncation.CutKeepsLongestPrefix | app/pipeline/classifier.py:51-56 | When bytes are cut, the longest prefix that leaves room for the marker is kept. |
| Truncation.FailsOnlyOnSurrogates | app/pipeline/classifier.py:46-48 | Truncation fails exactly when the characters it would keep contain a lone surrogate. |
| Truncation.TruncateIsExact | app/pipeline/classifier.py:44-56 | Text within both caps is unchanged; otherwise the result is a prefix within both caps plus the marker, and one more character would not do. |
| Truncation.TruncatedSize | app/pipeline/classifier.py:44-56 | The result never exceeds the byte cap and the marker together, for any character cap. |
| Truncation.ByteCutStaysWithinCap | app/pipeline/classifier.py:51-56 | When bytes are cut and the cap has room for the marker, the result stays within the cap. |
| PromptBudget.BudgetsStayWithinDocBudget | app/pipeline/classifier.py:346-370 | Target and context budgets together never exceed the document budget; each kept document has at least 100 bytes and one more would not. |
| PromptBudget.DocBudgetIs85PerCent | app/pipeline/classifier.py:346-347 | The document budget is 85 per cent of what is available, to the byte. |
| PromptBudget.BudgetIsSplit | app/pipeline/classifier.py:349-370 | With context documents the target gets 60 per cent and each kept document an equal part of the rest, at least 100 bytes; as many are kept as that allows, and without any the target gets everything. |
| PromptBudget.SelectContext | app/pipeline/classifier.py:355-360 | The drop loop keeps exactly the first min(n, budget/100) documents. |
| PromptBudget.SplitBudget | app/pipeline/classifier.py:349-370 | The target gets its share, and the whole budget when no context document remains. |
| PromptBudget.BuildUserPrompt | app/pipeline/classifier.py:273-395 | The assembled prompt is that of the closed-form budget; too small a window and unencodable text are refused. |
| PromptBudget.PromptFitsTheWindow | app/pipeline/classifier.py:330-395 | If titles, metadata and markers fit the headroom, system prompt, user prompt and response reserve stay within num_ctx. |
| PromptBudget.LongTitleOverflows | app/pipeline/classifier.py:69-73 | A title longer than the window overflows it, whatever the budgets. |
| PromptBudget.ContentWithinLargest | app/pipeline/classifier.py:44-56 | For every character cap and byte cap, truncation leaves no content larger than a closed form of the two. |
| PromptBudget.FilledSize | app/pipeline/classifier.py:44-56 | Some content is left with exactly that many bytes. |
| PromptBudget.AlwaysFitsIffLargestFits | app/pipeline/classifier.py:330-395 | For every character cap, the prompt fits for all document contents exactly when the largest prompt of these titles and budgets does. |
| PromptText.NoPromptIff | app/pipeline/classifier.py:330-344 | There is no prompt exactly if the window, less 512 tokens for the answer, the system prompt, the fixed parts and 50 spare ones, leaves under 200, or if a part that would be kept has a lone surrogate; which error it is follows. |
| PromptText.AvailableIsTheRest | app/pipeline/classifier.py:330-340 | What is left for documents is the window less those parts, an empty section counting one token. |
| PromptText.PromptReadsInOrder | app/pipeline/classifier.py:372-395 | The prompt is the entities, the kept context documents in their order under their numbered title, the target under its own and the instructions, every content truncated to what its document may spend. |
| PromptText.JoinedReads | app/pipeline/classifier.py:395 | One newline stands between any two sections. |
| PromptText.DigitsAreDecimal | app/pipeline/classifier.py:376-378 | The number in the context title is decimal, without a leading zero, and the number of kept documents. |
| PyText.StripSplits | app/pipeline/classifier.py:231-246 | Stripping removes exactly the maximal runs of white space at both ends. |
| PyText.StripLeavesNothingIffBlank | app/pipeline/classifier.py:231-248 | Nothing is left exactly of a text of white space. |
| ResultNormalizer.NormalizeTags | app/pipeline/classifier.py:241-255 | The loop keeps the first max(1, max_tags) usable, case-fold-distinct names in their order. |
| ResultNormalizer.NormalTagsAreExact | app/pipeline/classifier.py:241-255 | Kept tags are stripped, allowed, distinct up to case, with confidences in 0..100; under the limit no usable name is missing; normalising them again changes nothing. |
| ResultNormalizer.CleanMeansDistinct | app/pipeline/classifier.py:249-253 | Any two kept tags differ up to case and none is forbidden. |
| ResultNormalizer.NormalTagsArePicked | app/pipeline/classifier.py:241-255 | Kept tags are proposed ones in their order, each stripped, with its confidence brought within 0 to 100, and each the first of its name up to case. |
| ResultNormalizer.MaxTagsIsSetting | app/pipeline/classifier.py:144-149 | The limit is the setting brought within 0 to 20, and 4 when that is no number. |
| ResultNormalizer.NormalizeClassificationResult | app/pipeline/classifier.py:208-270 | The title is the model's, then the document's, then a fixed one, by what is not blank; a date survives exactly if it is one; names exactly if not blank, a storage path only where the document has none; reasoning loses exactly what is beyond 500 characters and the blanks before it; tags are the normal ones. |
| ResultNormalizer.TitleIsStable | app/pipeline/classifier.py:231-233 | A normalised title is never empty and is its own normal form. |
| ResultNormalizer.ReasoningIsStable | app/pipeline/classifier.py:257-259 | Normalised reasoning has at most 500 characters and is its own normal form. |
| ResultNormalizer.NormalisationIsIdempotent | app/pipeline/classifier.py:224-270 | Normalising a normalised result changes nothing. |
| ReservedNames.ReservedClassificationTagNames | app/pipeline/tag_policy.py:38-43 | The names are those of the tags whose id is reserved, stripped and case-folded, without empty ones. |
| ReservedNames.NamesAreThoseOfReservedTags | app/pipeline/tag_policy.py:38-43 | A name is among them exactly if some tag with a reserved id has it, stripped and folded, and it is not blank. |
| ReservedNames.NormalTagsAvoidNamesIff | app/pipeline/classifier.py:241-252 | Normalised output avoids every reserved name, for every model answer, exactly when folding the names twice still covers them. |
| RateLimiter.PruningForgetsNothing | app/mcp_tools/_auth.py:69-70 | Pruning at an earlier time never changes what is pruned at a later one. |
| RateLimiter.RecentIsTheLastHour | app/mcp_tools/_auth.py:66-70 | Pruning keeps, in order, exactly the calls of the last 3600 seconds. |
| RateLimiter.EveryHourIsWithinLimit | app/mcp_tools/_auth.py:69-78 | Every hour, wherever it starts, holds at most max_per_hour accepted calls. |
| RateLimiter.RateLimiter.Check | app/mcp_tools/_auth.py:60-78 | A call is refused exactly when max_per_hour accepted calls of the key in the whole history lie in its last hour; other keys are untouched and no limit records nothing. |
| RateLimiter.NoHourExceedsTheLimit | app/mcp_tools/_auth.py:53-78 | The same for the limiter object after any calls, for every key. |
| EnvFile.EnvFile.Read | app/config_writer.py:29-42 | Reading line by line gives the dictionary of the file's lines; a missing file gives an empty one. |
| EnvFile.EnvFile.Write | app/config_writer.py:45-57 | The old text becomes the backup and the new text replaces it; unencodable text fails and leaves the file. |
| EnvFile.LinesEndAtBreaks | app/config_writer.py:34 | Each of the ten line breaks ends a line, a carriage return together with a newline after it. |
| EnvFile.AssignmentSplitsAtEquals | app/config_writer.py:34-41 | A blank line, a comment and a line without '=' assign nothing; any other is split at its first '='. |
| EnvFile.RenderedLineByLine | app/config_writer.py:54-55 | A written dictionary is one line for each pair, in order: the key, '=', the value. |
| EnvFile.LastAssignmentWins | app/config_writer.py:34-42 | Looking up a key gives the value of the last line that assigns it. |
| EnvFile.AssignedIsClean | app/config_writer.py:35-41 | Whatever a line holds, the pair it assigns is in normal form. |
| EnvFile.ReadWriteReadIsRead | app/config_writer.py:29-56 | For every file, writing what was read and reading again gives the same keys, values and order. |
| EnvFile.WriteReadRestoresIffClean | app/config_writer.py:29-56 | Exactly the dictionaries of clean pairs come back as written. |

## Left out

- Database isolation below the transaction: every `with engine().begin()` block is one atomic step. At statement granularity the gate's reading and the scan for blocked runs can miss each other.
- Clock columns, except where an order by time decides (lease expiry, retry availability, index rows by update); `created_at` order of index rows is taken to be id order.
- Calls without an invocation fence (no token), `mark_pipeline_run_pending` and `finish_pipeline_item`: they carry no fence, so the fencing theorems do not speak of them.
- Laravel itself: only its claim, its cancellation, its release and retry of runs and its other status writes appear, as events of the environment.
- HTTP, model providers, prompts, PDF rendering and logging: their results are arbitrary values or arbitrary failures. What Paperless stores is taken to be what was sent.
- Hashes, UUIDs and tokens: fresh or injective identities. Item ids are identified with the pair of run and key.
- DocumentWorkflow.ContinueAsNewGoesToTheNewestGeneration: speaks of well-formed force signals for this workflow id, because a malformed one may replace a valid one (SignalKeepsPendingGeneration).
- DocumentWorkflow.CompletedLeavesGenerationPendingIffMissed: the same.
- DocumentWorkflow: the command id and workflow id of an accepted decision are taken to be present; without them the workflow task raises before the commit. Temporal's default is assumed, by which only an activity's failure ends a workflow and any other exception fails the workflow task, which is retried; the workers of app/temporal/worker.py set nothing else.
- GateWakeup.NoLostWakeup: requires every event to be harmless, which NeverForgetsIffAllHarmless shows to be exact. It assumes that every blocked run carries the error type embedding_index_not_ready, as discovery, the readiness check and Laravel write it. A readiness check that commits a second time after its first result was lost is not modelled, nor are index rows marked stale or deleted by Laravel, which cannot open the gate.
- PipelineFence.ReadinessIsStableUnderLease: requires one outcome for each generation, for the reason FinishUnderLeaseBreaksReadsIffSecondOutcome states. The gate of the workflows and the fence order index rows differently, and no theorem identifies them.
- ReviewCommit.ReviewCommitConverges: no other editor touches the document and the tag catalogue stays the same during the commit; the list of patched fields in the event payload is not kept.
- FencingProtocol.ExecutionAndSourceAgree: for runs without other writers of the source's status (cancellation, the batch's own status writes, edits by hand); SourceEdits.AgreesIffLastEditFits has no such hypothesis.
- Outbox: the text of the stored error, and the events a dead letter writes beside its owners' status.
- PromptBudget: the wording and order of entity lists, title lines and metadata lines are parameters; `int(x * 0.85)` and `int(x * 0.6)` are integer floors of the decimal fractions.
- Truncation.TruncateIsExact: for caps of zero or more; TruncatedSize and CutKeepsLongestPrefix cover negative character caps.
- ResultNormalizer: `casefold`, `lower` and the digits of `\d` are arbitrary functions; model answers are taken after their schema validation, so confidences are integers. Other judge parsing is left out.
- EnvFile: file contents are decoded text, so undecodable files and newline translation do not appear (every line break is one for `splitlines`); backup file names are not kept, only the latest backup's text.
- StaleRecovery.RecoverStaleExecutions: its account of rows and count speaks of tables that the protocol can reach and of a scan that returns every row once.
- StagedPhases: covers the batch's use of the phase loops (embeddings persisted, observer present); the single-document use without an observer, the text of errors, and the run statuses written by the failure handler are left out, the last being in StagedBatchFence and ExecutionLifecycle.
- RunProjection: progress counters, messages and time stamps of the run row.
- RateLimiter: times are exact reals instead of floating-point seconds, and the clock does not run back.
- Relay: reconciling the poll schedule and sleeping between turns.
- Poll and reindex discovery, webhooks, the OCR pipeline, the configuration tables, command line parsing and the user interface.
