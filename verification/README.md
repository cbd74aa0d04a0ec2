# Verified model of the GopherAI task, index and message protocols

This project models the parts of GopherAI whose correctness spans several processes, stores or functions, and proves
what they are for. Everything is checked by Dafny 4.11 alone: `dafny verify dfyconfig.toml` verifies all files.

## How it is organised

| part | files | what it is |
|---|---|---|
| durable Agent tasks | `Agent*.dfy` | one labelled transition system: claims, worker steps, heartbeats, recovery, owner actions |
| knowledge documents | `Kb*.dfy` | index and delete attempts over MySQL rows, Redis chunks and the source file |
| message path | `Rabbit*.dfy` | persisting calls, an at-least-once broker, consumers and an idempotent insert |
| chunks | `RagChunks`, `RagMerge`, `RagDocuments` | the overlapping splitter and the in-place merger |
| tool schemas | `Json*.dfy` | the depth-limited argument checker against draft-07 of JSON Schema |
| smaller protocols | `RateLimit`, `HistoryPages`, `SessionGates`, `SurrogateScan`, `Voice*` | limiter script, keyset paging, per-session gates, escape scan, voice tags |

Code that changes rows, fields or buffers step by step is an imperative method (`AgentStore.Store`, `KbStore.Store`,
`RabbitChannel.RabbitMQ`, `RagDocuments.Document`, `RateLimit.Redis`, …) proved equal to a function on values. The
transition systems and their theorems are about those same functions; `AgentMoves` and `KbMoves` say of every point of a
run where it goes and when, in terms of the rows alone. Three systems (`AgentSystem`, `KbSystem`,
`RabbitSystem`) have one transition per database transaction, read, broker operation or external call; every choice of
the environment is in the label, so a behaviour is a finite list of labels and each theorem quantifies over all of them.
Clock readings are arbitrary. A write may commit, commit with its answer lost, or be refused. Any run may stop anywhere.

## Where a natural claim is false

* A tool step that succeeded may be called again: the call itself is not fenced, so a run that was armed before it stalled
  still sends (`AgentWitness.StalledRunCallsAfterSuccess`, which also shows that the replay bound is tight). It is called
  again in some continuation exactly if a run was armed for it before (`AgentCalls.UnsafeSuccessIsCalledExactly`,
  `AgentCalls.FinishedIsCalledExactly`).
* The success of a replay-safe tool step can be overwritten by a failure when the answer to its committed write is lost
  (`AgentWitness.LostAnswerOverwritesSuccess`). `AgentSuccess.SuccessLostExactly` says exactly which write does it, and
  `AgentSuccess.SuccessIsFinalFromStart` that nothing else can.
* A failed task cannot always be resumed: if the failure of its step was not recorded before its own, its current step
  still reads as running or pending, a resume is refused for ever, and a cancellation is refused too
  (`AgentWitness.FailedTaskIsStuck`, `AgentResume.ParkedLeavesExactly`, `AgentResume.LostStepWriteStrands`). A task in review always can,
  and every other open task can still succeed (`AgentProgress.CanSucceedExactly`).
* A searchable document can lose its chunks: an index attempt that found its knowledge base inactive cleans up without
  asking whether a newer attempt succeeded (`KbWitness.InactiveBaseEmptiesReadyDocument`). It misses a chunk exactly if a
  landed removal was the last write that named it (`KbLoss.ReadyMissesExactly`), and a complete one stays complete exactly
  if no attempt is at a point that leads to such a removal (`KbLoss.StaysCompleteExactly`).
* A pending document need not become searchable: an attempt that finds the base inactive cancels the only indexing task
  (`KbWitness.InactiveBaseStrandsDocument`, `KbProgress.CanBecomeReadyExactly`).
* A deleted document can leave chunks behind: an index attempt that fails after the deletion takes a failure path without
  cleanup (`KbWitness.FailedAttemptLeaksChunk`). From any reachable state a chunk can outlive its document exactly if an attempt
  can still store, or the document is gone and the chunk is there, or a live deletion attempt has passed it over
  (`KbOutlive.CanOutliveExactly`). The document lock would prevent this inside one process; the model does
  not assume it because other processes do not share it.
* The splitter does not always advance: asked for chunks of one rune it stalls at the first place where a boundary is better
  than the next rune's, and only there (`RagChunks.AdvancesExactly`, `RagChunks.BlankLineStalls`).
* The schema checker departs from the standard where values are equal but written differently, because `const` and `enum`
  compare encodings, and where a count does not fit the machine, because it is then ignored. Nothing else departs
  (`JsonDraft07.AcceptedSchemaMeansWhatItSays`), and for a schema of one of these keywords it is said exactly when
  (`JsonDraft07.ConstDiffersExactly`, `EnumDiffersExactly`, `MinimumDiffersExactly`, `MaximumDiffersExactly`).
* A rate-limit window below one millisecond reaches the script as zero and never refuses; the admission bound holds exactly
  for longer windows (`RateLimitTheorems.BoundHoldsExactly`).
* The comment at `service/knowledgebase/worker.go:205-207` describes a stale index worker changing a document that is being
  deleted; no interleaving does that (`KbTheorems.RepairNeverNeeded`).

## Model

| member | source | states |
|---|---|---|
| AgentTheorems.NoSilentReplay | service/agent/graph.go:309-426 | in every run, calls of a step that were not safe to repeat by the tool's policy when they were made never exceed one plus the owner's explicit retries of it |
| AgentTheorems.ToolsAreCalledUnchanged | service/agent/graph.go:367-369 | every call ever made was made while the tool's policy was the one recorded with the plan |
| AgentPolicy.ChangedPolicyIsNotCalled | service/agent/graph.go:367-369 | a worker that finds the policy changed calls nothing and is bound to report it for review |
| AgentPolicy.ReviewIsRecorded | dao/agent/agent.go:620-698 | its next write, once it lands, leaves the task in review and the step unknown, with the new policy stored and the decision taken back |
| AgentEvents.EventsExactly | service/agent/graph.go:309-426 | the log of calls and owner decisions grows by exactly what the transition is, and only then |
| AgentTheorems.DispatchableIsConfirmed | service/agent/graph.go:208-231 | while a step can still be dispatched without confirmation, calls made and calls still able to leave are all confirmed |
| AgentReplay.StepReplay | service/agent/worker.go:267-318 | every transition keeps the accounting of calls, armed runs and confirmations, lost failure writes included |
| AgentTheorems.ClaimsNeverShareVersions | dao/agent/agent.go:236-271 | later claims have strictly larger run versions |
| AgentTheorems.RunVersionMonotone | dao/agent/agent.go:486-546 | the run version never decreases and a claim's token never changes |
| AgentTheorems.AdvanceFenced | dao/agent/agent.go:1282-1309 | any worker step changes at most the checkpoint, or passed version, owner and expiry checks |
| AgentTheorems.OnlyHolderWrites | dao/agent/agent.go:1282-1309 | a run that changes a row beyond the checkpoint is the latest claim and holds the lease |
| AgentTheorems.NoLateWrite | dao/agent/agent.go:486-546 | once a run has lost the lease, nothing it does later changes a row beyond the checkpoint |
| AgentLeases.RecoveryTakesExactly | dao/agent/agent.go:1135-1139 | recovery changes the rows if and only if the task is running or planning and its lease, or without one its last sign of life, has run out |
| AgentLeases.RecoveryLeaves | dao/agent/agent.go:1141-1215 | a recovered task has no owner, running steps start over or are unknown, and it is in review exactly if one of them may have had an effect |
| AgentLeases.RecoveryKeepsCurrent | dao/agent/agent.go:1141-1195 | in every reachable state recovery keeps the current step |
| AgentLeases.BlamesLastInDoubt | dao/agent/agent.go:1141-1195 | of several running steps that may have had an effect the last one becomes current |
| AgentLeases.BlamesFirstRunning | dao/agent/agent.go:1141-1195 | without one the first running step does, if none was current |
| AgentLeases.ClaimLeases | dao/agent/agent.go:236-271 | a claim that lands at `now` holds the task until `now` plus the lease |
| AgentLeases.HeartbeatRenews | dao/agent/agent.go:276-304 | and so does a heartbeat |
| AgentLeases.FreshLeaseIsSafe | dao/agent/agent.go:1135-1139 | no recovery before that time touches the task |
| AgentLeases.LeaseIsKept | dao/agent/agent.go:1282-1309 | whatever other workers, claims, renewals, recoveries up to that time and owners do short of a cancellation, the worker still holds the task and its rows are as they were |
| AgentTheorems.OwnershipEnds | dao/agent/agent.go:734-836 | recovery, cancel, reject, approve, resume, review and release leave no run holding the lease (a consequence of AgentInvariant.StepCore) |
| AgentTheorems.LeaseIffActive | dao/agent/agent.go:306-311 | a lease owner is recorded exactly while the task is running or planning, and it is the latest claim |
| AgentTheorems.RunningStepIsCurrent | dao/agent/agent.go:1141-1215 | at most one step is running, it is the current one, and only a running, planning or failed task has one |
| AgentTheorems.DispatcherSkipsRunning | service/agent/graph.go:208-255 | the lease holder's dispatcher selects no running step, and a gated tool only when approved |
| AgentTheorems.SendsAreApproved | service/agent/graph.go:319-370 | every call of a tool whose policy demanded approval when it was made follows an owner approval of exactly the arguments sent, not reset before the calling run's claim |
| AgentTheorems.PlanIsCommittedOnce | dao/agent/agent.go:321-391 | a committed plan keeps its steps, tools, arguments, digests and operation identifiers for good |
| AgentTheorems.OneOperationPerStep | service/agent/graph.go:326-341 | all calls of one step, across crashes and retries, carry one operation identifier and the same arguments |
| AgentTheorems.ClosedForever | dao/agent/agent.go:943-1023 | succeeded, rejected and cancelled tasks never change again except for a late checkpoint |
| AgentInvariant.StepCore | dao/agent/agent.go:873-887 | every transition keeps the shape of the plan, lease ownership, the running step and what the lease holder's position assumes |
| AgentFootprint.StepKept | dao/agent/agent.go:1420-1431 | no transition alters the payload of a committed step or drops one |
| AgentApproval.StepApproval | dao/agent/agent.go:734-836 | every transition keeps approvals bound to the digest of the stored arguments |
| AgentSuccess.SuccessLostExactly | service/agent/graph.go:529-545 | a finished tool step stays finished if and only if its own run's ordinary failure write does not land on it |
| AgentSuccess.UnsafeSuccessIsFinal | service/agent/graph.go:551-560 | a finished step that must not be replayed stays finished for ever |
| AgentSuccess.SuccessIsFinalFromStart | service/agent/graph.go:407-424 | without a lost answer to a committed success write, every finished tool step stays finished |
| AgentSuccess.NoNewCallAfterSuccess | service/agent/graph.go:309-341 | no run gets ready to call a finished step |
| AgentCalls.FinishedIsCalledExactly | service/agent/graph.go:309-426 | while a step stays finished, some continuation calls it again if and only if a run is armed for it now |
| AgentCalls.UnsafeSuccessIsCalledExactly | service/agent/graph.go:309-426 | a finished step that must not be replayed is called again in some continuation if and only if a run is armed for it now |
| AgentResume.ParkedLeavesExactly | dao/agent/agent.go:848-938 | a failed task, or one in review, leaves that state in some continuation without a cancellation if and only if its current step has failed or is unknown |
| AgentResume.ReviewCanResume | dao/agent/agent.go:848-938 | a task in review can always be resumed |
| AgentResume.LostStepWriteStrands | service/agent/worker.go:297-318 | after both failure writes the task can be resumed if and only if the step write landed or the step had failed before |
| AgentOrder.StepOrder | service/agent/graph.go:196-256 | every transition keeps the plan in order: everything before the first unfinished step has succeeded and nothing after it has begun |
| AgentOrder.StepsInOrder | service/agent/graph.go:196-256 | while a task is open, a step begins or is decided about only after all earlier ones have succeeded |
| AgentOrder.SuccessIsComplete | service/agent/graph.go:428-487 | a task reported as succeeded has every step of its plan succeeded, with arguments that match their digests |
| AgentMoves.PlanSaveExactly | service/agent/graph.go:110-173 | a plan is written only if the model answered, the plan is well formed and the run still holds the task; then all rows are as stated |
| AgentMoves.DispatchCheckExactly | service/agent/graph.go:196-256 | the first open tool step, else the first final step, decides: an unknown outcome ends the run, a failed step fails it, any other is routed |
| AgentMoves.DispatchRouteExactly | service/agent/graph.go:196-256 | and to which node, recorded as current first unless it is |
| AgentMoves.ApprovalReadExactly | service/agent/graph.go:258-307 | the current tool step goes back to the dispatcher if it needs no approval or has it, ends the run if declined, and is made to wait otherwise |
| AgentMoves.ToolReadExactly | service/agent/graph.go:309-341 | only an approved current tool step is marked for a call, under the operation it has, or a new one |
| AgentMoves.ToolArmedExactly | service/agent/graph.go:343-406 | a call is made if and only if the checks pass, arguments and policy are the recorded ones and the request leaves; and where the run goes in each case |
| AgentMoves.FailReadExactly | service/agent/worker.go:267-318 | the failure reporter leaves a task alone that is not this run's or is parked or closed; else it parks a call that cannot be repeated, and fails other steps and the task |
| AgentProgress.CanSucceedExactly | service/agent/worker.go:117-350 | from any reachable state some continuation ends in success if and only if the task has succeeded, or is open with all arguments matching their digests and is not a failed task whose current step is recorded neither failed nor unknown |
| AgentWitness.FailedTaskIsStuck | service/agent/graph.go:529-545 | a reachable failed task whose current step still reads as running, so that only a cancellation would move it and it can never succeed |
| AgentWitness.StalledRunCallsAfterSuccess | service/agent/graph.go:371-400 | a reachable state where a stalled run calls a finished step, making calls equal one plus retries |
| AgentWitness.LostAnswerOverwritesSuccess | service/agent/graph.go:407-424 | a reachable state where a recorded success is overwritten by a failure |
| AgentRouting.ChooseRoute | service/agent/graph.go:196-256 | the dispatcher's loop computes the choice of `AgentMoves.DispatchCheckExactly` |
| AgentRouting.ChooseFailureStep | service/agent/worker.go:320-350 | the loops pick the step of `AgentMoves.FailReadExactly`: current unfinished, else first unfinished, else the finalizer |
| AgentStore.Store.ClaimTask | dao/agent/agent.go:236-271 | claims a pending task with a new version and lease, and changes nothing otherwise |
| AgentStore.Store.RenewLeaseFenced | dao/agent/agent.go:276-304 | extends the lease of the current owner only, whole new state |
| AgentStore.Store.SavePlanFenced | dao/agent/agent.go:321-391 | completes the planning step and appends the plan once, under the fence |
| AgentStore.Store.UpdateTaskFenced | dao/agent/agent.go:486-509 | applies a task patch only under the fence, whole new state and answer |
| AgentStore.Store.UpdateStepFenced | dao/agent/agent.go:511-549 | applies a step patch only under the fence to an existing step, whole new state and answer |
| AgentStore.Store.MarkExecutionUnknownFenced | dao/agent/agent.go:551-618 | parks a running tool step as unknown, bumps the version and releases the lease |
| AgentStore.Store.MarkPolicyReviewFenced | dao/agent/agent.go:620-698 | the same with the new policy stored and the decision reset |
| AgentStore.Store.ApproveStep | dao/agent/agent.go:734-836 | approves a waiting step with a matching digest without bumping the version, whole new state and answer |
| AgentStore.Store.RejectStep | dao/agent/agent.go:734-836 | rejects a waiting step, closes the task, releases the lease and bumps the version; every other step stays as it is |
| AgentStore.Store.ResumeOwnedTask | dao/agent/agent.go:848-928 | requeues the resumable current step; unknown ones only when a retry is confirmed |
| AgentStore.Store.CancelOwnedTask | dao/agent/agent.go:943-1023 | cancels and marks every active step skipped or, if its outcome is uncertain, unknown |
| AgentStore.ApproveExactly | dao/agent/agent.go:734-836 | an approval lands exactly on a waiting, undecided step with the digest the owner saw, and what all rows are then |
| AgentStore.RejectExactly | dao/agent/agent.go:734-836 | a rejection on a waiting, undecided step; it closes the task under a new run version |
| AgentStore.ResumeExactly | dao/agent/agent.go:848-928 | a resume resets the first failed step, or unknown one if confirmed, that is current or finds none current; it becomes current under a new run version |
| AgentStore.ResumeRefused | dao/agent/agent.go:848-928 | without such a step it changes nothing |
| AgentStore.CancelExactly | dao/agent/agent.go:943-1023 | a cancellation closes any task that is not closed; steps that had not ended are skipped, except a running call that may have had an effect |
| AgentStore.Store.NormalizeRunning | dao/agent/agent.go:1141-1195 | one pass requeues replayable running steps, parks the others as unknown and finds the step to blame |
| AgentStore.Store.RecoverStaleTask | dao/agent/agent.go:1141-1215 | takes a running or planning task whose lease end, else last sign of life, has passed, to pending or review; bumps the version, drops lease and checkpoint |
| AgentStore.Store.SetCheckpointFenced | dao/agent/agent.go:1362-1399 | a checkpoint write checks the version only |
| KbTheorems.ReadyOnlyByLatestAttempt | dao/knowledgebase/knowledgebase.go:463-496 | a document becomes ready exactly when a run completes the attempt on record, the latest handed out |
| KbTheorems.ReadyExactly | dao/knowledgebase/knowledgebase.go:463-540 | ready if and only if the index task succeeded and no deletion is scheduled |
| KbTheorems.TombstoneIsForGood | dao/knowledgebase/knowledgebase.go:151-180 | after a scheduled deletion no continuation makes the document ready again, nor brings a deleted row back |
| KbTheorems.ReadyUntilDeleted | dao/knowledgebase/knowledgebase.go:574-624 | retries, recovery and stale attempts never take a ready document out of view |
| KbTheorems.RepairNeverNeeded | service/knowledgebase/worker.go:204-213 | the repair of a tombstone during a deletion never changes a row |
| KbTheorems.OneOwner | dao/knowledgebase/knowledgebase.go:422-461 | of two runs of a task the earlier never passes the attempt check |
| KbTheorems.DeletionNeverLost | dao/knowledgebase/knowledgebase.go:364-418 | while a document is being deleted some cleanup task is pending, running or retryable (a consequence of KbInvariant.StepInv, used for DeletionCanFinish) |
| KbTheorems.DeletionCanFinish | service/knowledgebase/worker.go:131-153 | from every reachable deletion some continuation finishes it, with all indexing attempts left where they are |
| KbTheorems.GoneMeansFileRemoved | service/knowledgebase/worker.go:185-197 | the row disappears only after the source file |
| KbInvariant.StepInv | dao/knowledgebase/knowledgebase.go:422-624 | every transition keeps attempt ownership and cleanup work, and tombstones only advance |
| KbInvariant.RecoverFacts | dao/knowledgebase/knowledgebase.go:574-624 | the recovery pass touches only running tasks and moves the document at most from indexing to pending |
| KbCleanup.ReadyIsComplete | service/knowledgebase/worker.go:224-251 | a ready document has all its chunks in the index if no attempt found its base inactive |
| KbMoves.LookupExactly | service/knowledgebase/worker.go:255-274 | a superseded attempt removes chunks if and only if its lookup succeeds and finds a deletion, or it had seen a conflict itself |
| KbMoves.StoreExactly | service/knowledgebase/worker.go:224-251 | a batch is stored under the attempt's own stamp, and the attempt completes once every chunk was stored |
| KbLoss.ChunkLostExactly | service/knowledgebase/worker.go:255-274 | before a deletion, a step takes a chunk out of the index if and only if it lands a cleanup's removal naming it |
| KbLoss.ReadyMissesExactly | service/knowledgebase/worker.go:255-274 | a ready document misses a chunk if and only if a landed removal was the last write naming it |
| KbLoss.CanLoseExactly | service/knowledgebase/worker.go:224-274 | some continuation without deletion loses a stored chunk of a ready document if and only if an attempt is at a point that can still reach its removal |
| KbLoss.StaysCompleteExactly | service/knowledgebase/worker.go:224-274 | a complete ready document stays complete until deleted if and only if no attempt is at such a point |
| KbLeftover.AccountabilityLostExactly | service/knowledgebase/worker.go:255-286 | after the deletion, a chunk that stays stored loses the attempt answering for it if and only if its last writer abandons it in this step |
| KbLeftover.LeftoverWasAbandoned | service/knowledgebase/worker.go:255-286 | a chunk that outlives its document and all its attempts was abandoned by its last writer |
| KbLeftover.GoneLeavesNothing | service/knowledgebase/worker.go:255-274 | in particular when no attempt failed or crashed after the deletion while owing a cleanup |
| KbOutlive.CanOutliveExactly | service/knowledgebase/worker.go:160-286 | from any reachable state, some continuation deletes the document, ends its attempts and leaves a chunk if and only if an attempt can still store, or the document is gone and the chunk is there, or a deletion attempt that still owns its task has scanned without listing it |
| KbOutlive.GoneOutliveExactly | service/knowledgebase/worker.go:255-286 | once the document is gone: if and only if the chunk is there or an attempt stands at its store |
| KbOutlive.DeletesCleanlyExactly | service/knowledgebase/worker.go:160-286 | a deletion is sure to leave nothing, whatever happens, if and only if no chunk of the text can escape that way |
| KbProgress.CanBecomeReadyExactly | dao/knowledgebase/knowledgebase.go:422-624 | a document that is neither searchable nor deleted can become searchable if and only if its text has chunks and its indexing task is pending, or running and thus recoverable |
| KbWitness.InactiveBaseStrandsDocument | service/knowledgebase/worker.go:224-274 | a reachable pending document that no continuation makes searchable |
| KbWitness.InactiveBaseEmptiesReadyDocument | service/knowledgebase/worker.go:229-269 | a reachable ready document without chunks |
| KbWitness.FailedAttemptLeaksChunk | service/knowledgebase/worker.go:276-286 | a reachable deleted document with a chunk left and no attempt running |
| KbRetrieval.FilterReadyCandidates | common/rag/rag.go:571-615 | keeps, in order, exactly the hits without a document record or with a ready one, and counts the rest |
| KbRetrieval.FilteredExactly | common/rag/rag.go:600-613 | every visible hit is kept as often as it came and no other |
| KbRetrieval.FilteredInOrder | common/rag/rag.go:600-613 | what is kept are the hits without a document or of a ready one, in their order |
| KbRetrieval.DeletedIsNeverRetrieved | common/rag/rag.go:549-556 | a retrieval whose status query runs after the deletion returns none of the document's chunks |
| KbStore.Store.Claim | dao/knowledgebase/knowledgebase.go:422-461 | claims a pending task and hands out the next attempt, whole new state |
| KbStore.Store.MarkDocumentIndexing | dao/knowledgebase/knowledgebase.go:558-572 | pending to indexing or a lifecycle error |
| KbStore.Store.CompleteIndexTask | dao/knowledgebase/knowledgebase.go:463-496 | document and task change together or not at all |
| KbStore.Store.FailIndexTask | dao/knowledgebase/knowledgebase.go:498-540 | the failure or retry of exactly this attempt |
| KbStore.Store.CancelIndexTask | dao/knowledgebase/knowledgebase.go:542-556 | cancels exactly this attempt |
| KbStore.Store.CreateDeleteTask | dao/knowledgebase/knowledgebase.go:151-180 | sets the tombstone, supersedes queued indexing and adds cleanup work, or reports that it exists |
| KbStore.Store.CompleteDeleteTask | dao/knowledgebase/knowledgebase.go:182-207 | removes the row only for a tombstoned document and this attempt |
| KbStore.Store.FailDeleteTask | dao/knowledgebase/knowledgebase.go:209-244 | fails or requeues exactly this attempt, keeping the tombstone |
| KbStore.Store.RequeueDeleteTask | dao/knowledgebase/knowledgebase.go:249-287 | reasserts the tombstone and requeues this attempt |
| KbStore.Store.RequeueFailedDeleteTask | dao/knowledgebase/knowledgebase.go:381-418 | requeues a failed cleanup and reasserts the tombstone |
| KbStore.Store.RecoverStaleTasks | dao/knowledgebase/knowledgebase.go:574-624 | one pass in task order, later tasks seeing earlier document changes |
| RabbitTheorems.NeverLost | common/rabbitmq/meesage.go:101-130 | after a successful persist the message is always a row or a copy the broker confirmed: queued, unacknowledged or dead-lettered |
| RabbitTheorems.OneRowPerMessage | dao/message/message.go:119-155 | if everyone using an identifier meant one content, the row under it has that content |
| RabbitTheorems.RowsAndDeadLettersStay | dao/message/message.go:131-154 | duplicates never change a row, and confirmed dead letters stay |
| RabbitTheorems.RetriesAreBounded | common/rabbitmq/rabbitmq.go:235-264 | a copy of a persisted message is a dead letter if and only if it is past its third republication; deliveries that were requeued are not counted |
| RabbitTheorems.CopyCanBeStored | common/rabbitmq/meesage.go:71-92 | a readable copy outside the dead letters can always still be stored |
| RabbitIds.RepublishingKeepsIdentity | common/rabbitmq/meesage.go:135-162 | any number of republications keeps payload and identity, legacy and malformed payloads included |
| RabbitIds.DeadLetterAfterFour | common/rabbitmq/rabbitmq.go:235-250 | a new message is a dead letter exactly from its fourth republication on; requeued deliveries are not counted |
| RabbitIds.RepublishingCounts | common/rabbitmq/rabbitmq.go:396-445 | whatever the retry header of a publication, a republication is a dead letter exactly if it makes the failures more than three |
| RabbitRuns.TwoAttempts | common/rabbitmq/rabbitmq.go:107-125 | from any state, a persisting call tries the broker twice at most, whatever became of each attempt, and then the table |
| RabbitRuns.PublishesAfterFailures | common/rabbitmq/meesage.go:101-130 | before that the next attempt can succeed, with a confirmed copy and nothing in the table |
| RabbitRuns.FallsBackToTable | common/rabbitmq/meesage.go:101-130 | after two failures the call succeeds if and only if the insert reports success, and an existing row stays |
| RabbitRuns.StoredDeliveryIsAcknowledged | common/rabbitmq/rabbitmq.go:224-233 | a readable delivery whose insert reports success is acknowledged and not republished, also if its row was there |
| RabbitRuns.RepublishesAfterFailures | common/rabbitmq/rabbitmq.go:235-264 | a failed delivery is replaced by one confirmed copy that counts one failure more |
| RabbitRuns.GivenBackAfterTwoFailures | common/rabbitmq/rabbitmq.go:252-260 | after two failed republications it is queued again as it was |
| RabbitChannel.RabbitMQ.PublishLocked | common/rabbitmq/rabbitmq.go:127-161 | success means the acknowledgement read is about this publication and none is outstanding |
| RabbitChannel.RabbitMQ.Publish | common/rabbitmq/rabbitmq.go:107-125 | succeeds exactly if the first attempt or one on a new channel is acknowledged; at most two copies, never a confirmation of another publication, and none left outstanding |
| RabbitChannel.RabbitMQ.EnsureConnected | common/rabbitmq/rabbitmq.go:266-287 | connected if the channel is alive or one of three dials succeeds |
| RabbitChannel.RabbitMQ.Reconnect | common/rabbitmq/rabbitmq.go:354-365 | success gives a new channel without old publications |
| RabbitChannel.RabbitMQ.Destroy | common/rabbitmq/rabbitmq.go:89-97 | closing marks the client destroyed and closes its channel |
| RabbitStore.Table.CreateMessage | dao/message/message.go:119-155 | a free identifier gets the row; a taken one keeps it and, if it is found, the stored row is the answer |
| RabbitStore.PersistMessage | common/rabbitmq/meesage.go:101-130 | queue first, table as fallback, under one identifier: exactly when it succeeds and what it leaves in the table; persisting a stored message again succeeds |
| RabbitStore.ProcessDelivery | common/rabbitmq/rabbitmq.go:224-264 | a delivery is acknowledged exactly if its message was stored or its republication confirmed, and requeued otherwise; a message that was stored before is acknowledged and nothing is sent |
| RagChunks.ChunkMarkdown | common/rag/chunk.go:41-80 | on every text where it advances: terminates; chunks are exact, trimmed and bounded, cover every visible rune, overlap neighbours by at most the overlap, and share with the next chunk every visible rune of the last `OverlapRunes` of their window |
| RagChunks.ChooseChunkEnd | common/rag/chunk.go:101-131 | the last paragraph end in the window, else line, sentence or word end, else its right edge |
| RagChunks.TrimRuneRange | common/rag/chunk.go:142-150 | keeps every visible rune of the range and no blank at either end |
| RagChunks.NextChunkStart | common/rag/chunk.go:68-77 | back by the overlap and past blanks only; the window's end if the overlap would reach the window's start |
| RagChunks.AdvancesExactly | common/rag/chunk.go:82-99 | on a text, every round the loop reaches starts after the one before if and only if the maximum is not one rune or no boundary of the text is better than the next rune's |
| RagChunks.BlankLineStalls | common/rag/chunk.go:101-131 | a text with a blank line on which the loop for one rune does not advance |
| RagMerge.MergedAreExact | common/rag/hybrid.go:448-468 | every merged result is the exact source text of its recorded range, for any selection in any order |
| RagMerge.MergingConserves | common/rag/hybrid.go:410-438 | per document, merging keeps exactly the covered runes and exactly the named chunks |
| RagMerge.UnmergeablePass | common/rag/hybrid.go:416-421 | hits without a known document come through unchanged and in order |
| RagMerge.AscendingLeavesNothing | common/rag/hybrid.go:410-446 | if the pieces of each document come in its order, no two results overlap or meet: all that can be merged is |
| RagMerge.BridgeLeavesNeighbours | common/rag/hybrid.go:422-437 | out of that order a piece between two results leaves them side by side |
| RagMerge.MergedIdsExactly | common/rag/hybrid.go:470-491 | the merged reference names exactly the chunks its parts named |
| RagMerge.RetrievedTextIsExact | common/rag/rag.go:277-297 | whatever stored chunks are retrieved, in whatever order, every merged result is exact source text |
| RagDocuments.MergedChunkIds | common/rag/hybrid.go:470-491 | every identifier of both parts but the first part's own, none empty and none twice |
| RagDocuments.MergeDocumentContent | common/rag/hybrid.go:448-468 | the in-place swap and extension yield the merged value: both parts in one, from the part that starts first and what the other has beyond it (`RagMerge.MergeJoins`) |
| RagDocuments.PlaceDocument | common/rag/hybrid.go:416-437 | a hit goes into the first result of its document that it overlaps or meets, and is appended exactly if there is none |
| RagDocuments.MergeAdjacentDocuments | common/rag/hybrid.go:410-438 | results are the merged values of the inputs, and results plus merged equals inputs |
| JsonDraft07.AcceptedSchemaMeansWhatItSays | common/mcphub/schema.go:310-380 | for accepted reference-free schemas the verdict is membership as draft-07 defines it, if compared numbers are written canonically and counts fit the machine |
| JsonAccept.AcceptedExactly | common/mcphub/schema.go:156-238 | a schema is accepted if and only if every schema nested in it, along every chain of keywords, is sound by itself and at most 32 levels down |
| JsonAccept.ValidateSchemaNode | common/mcphub/schema.go:156-238 | the recursive check with its loops computes that acceptance |
| JsonDraft07.ConstDiffersExactly | common/mcphub/schema.go:359-361 | on a constant, verdict and draft-07 differ if and only if the value equals it and is written differently |
| JsonDraft07.EnumDiffersExactly | common/mcphub/schema.go:356-358 | on an enumeration they differ if and only if a candidate equals the value and none is written like it |
| JsonDraft07.MinimumDiffersExactly | common/mcphub/schema.go:570-576 | on a minimum length, item or property count they differ if and only if it exceeds the largest machine integer and the value falls short of it |
| JsonDraft07.MaximumDiffersExactly | common/mcphub/schema.go:570-576 | on a maximum length, item or property count they differ if and only if it exceeds the largest machine integer and the value exceeds it |
| JsonDraft07.SameEncodingIsEqual | common/mcphub/schema.go:639-643 | comparing encodings is comparing values when numbers are written canonically |
| JsonDraft07.LiteralConstantRejectsEqualNumber | common/mcphub/schema.go:359-361 | a constant written `1.0` rejects the number one, against draft-07 |
| JsonSchemaTheorems.LimitNeverDecides | common/mcphub/schema.go:310-313 | for every accepted reference-free schema the verdict is the one without a nesting limit, and a larger limit changes nothing |
| JsonSchemaTheorems.CircularReferenceRejects | common/mcphub/schema.go:310-320 | a reference to its own schema rejects every value |
| JsonSchemaTheorems.ReferenceReachesMember | common/mcphub/schema.go:607-628 | an escaped reference reaches exactly the member it names, whatever characters the names contain |
| JsonSchemaCheck.ValidateValue | common/mcphub/schema.go:310-380 | the recursive checker with its loops terminates on every schema and computes the depth-limited verdict |
| JsonSchemaCheck.ValidateFields | common/mcphub/schema.go:391-414 | visiting the fields in any order accepts exactly if every field is acceptable |
| JsonSchemaCheck.ValidateArray | common/mcphub/schema.go:424-441 | length bounds and every item |
| RateLimit.Redis.ReserveRateLimit | common/redis/rate_limit.go:18-39 | the two passes of the script, whole new state and reply |
| RateLimitTheorems.AllOrNothing | common/redis/rate_limit.go:18-39 | refused exactly when some key is full, counting nothing; otherwise every key counts once |
| RateLimitTheorems.RetryAfterDelaySucceeds | common/redis/rate_limit.go:20-32 | with no other admission, a retry after the announced delay succeeds |
| RateLimitTheorems.RetryBeforeDelayFails | common/redis/rate_limit.go:20-32 | and any earlier retry fails |
| RateLimitTheorems.AtMostTwiceTheLimit | common/redis/rate_limit.go:33-37 | more than twice the limit of admissions of a key always span more than one window length |
| RateLimitTheorems.RefusalIsDeserved | common/redis/rate_limit.go:22-31 | a refusing key was used up to its limit within the last window |
| RateLimitTheorems.ZeroWindowNeverRefuses | common/redis/rate_limit.go:51-55 | after any history a rule with window zero is not full and its call leaves no counter behind |
| RateLimitTheorems.OnlyWindowsRefuse | common/redis/rate_limit.go:18-39 | whatever refuses a call has a window above zero |
| RateLimitTheorems.BoundHoldsExactly | common/redis/rate_limit.go:33-37 | the bound on admissions holds in all histories if and only if the window is above zero |
| HistoryPages.TraversalIsComplete | service/session/session.go:659-693 | following the cursor with any limits ends and shows the first snapshot exactly once in order, despite inserts above the cursor |
| HistoryPages.NothingLostOrRepeated | service/session/session.go:659-693 | at any point rows shown plus rows to come are the first snapshot |
| HistoryPages.PageIsChronological | dao/message/message.go:63-90 | each page is in full order |
| HistoryPages.PageSplits | dao/message/message.go:79-89 | one page splits what is below its cursor into the page and what is below the next cursor |
| HistoryPages.InsertAboveCursor | dao/message/message.go:75-77 | inserts not below the cursor leave the rest unchanged |
| HistoryPages.LoadPage | dao/message/message.go:78-89 | dropping the extra row and reversing in place gives the last rows in chronological order |
| HistoryPages.ReversePrefix | dao/message/message.go:86-88 | the in-place reversal |
| SessionGates.OneOwnerPerSession | service/session/session.go:142-170 | at most one request owns a session at any time |
| SessionGates.GateIsStable | service/session/session.go:172-185 | everyone who still counts uses the registered gate, so the mismatch return is unreachable |
| SessionGates.RegisteredWhileUsed | service/session/session.go:172-185 | a key is registered exactly while someone owns, waits for or is leaving its gate |
| SessionGates.WaitingMeansOwned | service/session/session.go:157-169 | a waiting request can acquire unless a present request owns the session |
| SessionGates.Registry.Lock | service/session/session.go:145-155 | the object finds or creates the gate and counts a reference: the entry step of the transition system |
| SessionGates.Registry.ReleaseSessionGate | service/session/session.go:172-185 | the object gives up a reference and deletes the gate with the last one: the release step of the transition system |
| SurrogateScan.ValidSurrogatePairs | controller/session/strict_json.go:52-94 | the indexed scan computes the recursive verdict |
| SurrogateScan.ParseHexQuad | controller/session/strict_json.go:96-115 | accepts exactly four hexadecimal digits and yields their value without overflow |
| SurrogateScan.SpelledReads | controller/session/strict_json.go:96-115 | every sixteen-bit value is read back from its four digits, in either case |
| SurrogateScan.DigitsExactly | controller/session/strict_json.go:100-112 | exactly the sixteen digits in both cases are read, each with its value |
| SurrogateScan.PairsExactly | controller/session/strict_json.go:117-123 | a high and a low surrogate together are the code points above 0xFFFF, each exactly once |
| SurrogateScan.ScanDecidesSoundness | controller/session/strict_json.go:52-94 | accepted if and only if in every string no backslash dangles, every `\u` has four hex digits and surrogates are paired (RFC 8259, section 7) |
| SurrogateScan.ReadingIsUnique | controller/session/strict_json.go:52-94 | a payload has only one reading |
| VoiceText.SanitizeText | common/voicecontrol/voicecontrol.go:252-279 | the indexed scan computes the sanitized text |
| VoiceText.SanitizedIsClean | common/voicecontrol/voicecontrol.go:248-279 | no brackets, no control characters, only single spaces between words |
| VoiceText.SanitizeIsIdempotent | common/voicecontrol/voicecontrol.go:252-279 | sanitizing again changes nothing |
| VoiceText.StripKeepsExactly | common/voicecontrol/voicecontrol.go:252-278 | a character is kept exactly if it is no bracket, no control character and not between an opening bracket and the first closing one after it |
| VoicePlan.RenderedIsFaithful | common/voicecontrol/voicecontrol.go:203-219 | bracketed sequences are exactly the whitelisted tags asked for, and sanitizing gives the plain text back, spaces aside |
| VoicePlaces.RenderedExactly | common/voicecontrol/voicecontrol.go:203-219 | a plan renders to a text if and only if it is within the limits and that text spells the style tags and then the plain text with one tag for every directive, each right where it was asked for, in order of place, kind and listing |
| VoicePlaces.OccurrenceIsNth | common/voicecontrol/voicecontrol.go:399-413 | the search finds the requested occurrence from the left without overlaps, and fails only if there is none |
| VoicePlaces.StandsExactly | common/voicecontrol/voicecontrol.go:318-386 | the insertion of a directive is the tag right before or right after the requested occurrence of its sanitized anchor, or at either end |
| VoicePlaces.AcceptedExactly | common/voicecontrol/voicecontrol.go:281-386 | a plan is accepted if and only if it is within the limits and every directive has a place |
| VoicePlaces.RefusalNamesTheFault | common/voicecontrol/voicecontrol.go:281-397 | a refusal names the first thing wrong: text, numbers, vocabulary, or the first directive without a place |
| VoicePlaces.OneCueAfter | common/voicecontrol/voicecontrol.go:363-368 | one cue after occurrence `p` of anchor `a` gives the text up to `p + len(a)`, a space and the tag, and the rest |
| VoicePlaces.OneCueBefore | common/voicecontrol/voicecontrol.go:363-370 | one cue before it gives the text up to `p`, the tag and a space, and the rest |
| VoicePlaces.OneEmphasis | common/voicecontrol/voicecontrol.go:322-340 | and so does one emphasis |
| VoicePlan.Render | common/voicecontrol/voicecontrol.go:203-219 | the rendering that `VoicePlaces.RenderedExactly` describes, or the error of `VoicePlaces.RefusalNamesTheFault` |
| VoicePlan.MakeInsertions | common/voicecontrol/voicecontrol.go:318-386 | the insertion of every directive in order, each as `VoicePlaces.StandsExactly` says, or the first error |
| VoicePlan.OccurrenceIndex | common/voicecontrol/voicecontrol.go:399-413 | the requested occurrence counted from the left without overlaps |
| VoicePlan.ApplyInsertions | common/voicecontrol/voicecontrol.go:433-457 | the text with all insertions woven in, in sorted order |
| VoicePlan.SortSorts | common/voicecontrol/voicecontrol.go:437-445 | insertions are in order of place, priority and appearance |

## Left out

- Agent: one task is modelled, because every transaction touches one task's rows; the rounds and batches of `RecoverStaleTasks` are not.
- Agent: input validation (empty identifiers, zero versions), trimming and lower-casing of digests and worker names, attempt counters, messages and finish times.
- Agent: a database write is atomic, may fail, and its answer may be lost, but it does not land after the caller has moved on.
- Agent: UUIDs are abstract values, SHA-256 is an injective constructor, and the 64-bit run version does not overflow.
- Agent: checkpoint contents are reduced to the node to restart at; nodes read their data from the database again.
- Agent: the transition system also cancels failed tasks, which the service refuses before it calls the store; `AgentResume` leaves those cancellations out. `CreateStepsFenced` and `UpdateOwnedTask`, which no service code calls.
- Agent: the nodes of a worker are transition functions and not methods, because any other run may act between two of their reads and writes; the same holds for the knowledge worker and the message consumers.
- Agent: a task and its steps are read by two queries outside a transaction (dao/agent/agent.go:165-177); the model reads both at one instant.
- Agent: plans may carry any digest, although the program computes it of the arguments (service/agent/plan.go:97-115); the check before a call is then not superfluous.
- Agent: planner, model and tool answers, prompts, redaction and the graph runtime.
- Knowledge: deletion of a whole knowledge base, ownership checks, chunk counts and messages. A document's text never changes, so the removal of chunks of an earlier text during indexing has nothing to remove.
- Knowledge: the document lock, which is local to one process; all proofs hold without it.
- Knowledge: the backoff delay before a failed cleanup is retried; a retry may come at any time.
- Retrieval: user names arrive trimmed; embedding, vector and text search, fusion, reranking. Scores are compared with a tolerance that is not transitive, so no order is claimed.
- RagDocuments.MergeAdjacentDocuments: documents are distinct objects; references synthesized from legacy metadata are given as values.
- RagChunks.ChunkMarkdown: heading paths and chunk identifiers, and the texts on which the loop does not end for size one.
- Messages: integer widths of the retry header, connection set-up, queue declaration details and back-off; nobody reads the dead letters; the JSON encoding of a payload is a constructor.
- JsonDraft07.AcceptedSchemaMeansWhatItSays: schemas with references, whose verdict depends on the limit; only termination and self-reference are stated for them. Keywords the checker does not know are not part of the meaning.
- JsonSchema: numbers are reals, so rounding to floating point and out-of-range literals are not modelled. In particular the count 9223372036854775808 passes the source's comparison in floating point and then overflows, so that a maximum may reject everything; the model ignores that count.
- JsonSchema: `normalizeSchema`, size limits and regular expressions, which are an abstract engine.
- RateLimitTheorems.AtMostTwiceTheLimit: for distinct keys in a call, one rule per key, a clock that does not go back and no resets.
- HistoryPages: authorization, cursor encoding and the conversion of rows to the reply.
- SessionGates: counts are mathematical integers, and cancellation may come at any time while waiting.
- SurrogateScan: UTF-8 validation and the body limit.
- VoicePlan: the library's stable sort is any sort by the same order; texts are sequences of code points, not bytes, and invalid UTF-8 is assumed to be dropped before.
