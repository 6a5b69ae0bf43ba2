# Verified model of the execution platform

A Dafny project that models the control plane of the platform and what surrounds it, and
proves what they promise.

**Control plane.** `Lifecycle` gives each atomic get..update section of the orchestrator
and of the services around it as a function on the rows of one execution (`Case`), and
puts them together as a transition system: one engine runner interleaved in any order with
enqueue, worker, cancellation and approval actors. `Safety` proves an invariant over every
run; `Effects` and `Theorems` draw the safety theorems from it. `Origins` and `Accounts`
trace everything stored back to the action that wrote it, and show that records, timeline
and result document tell one story. The planner is arbitrary:
`Scheduling` and `SerialRun` prove the scheduler theorem for every dependency graph, cyclic
or not, and `Planner` places the three built-in plans in it. `Errors` shows over every
interleaved run which engine errors there can be. `Repository`, `Engine`,
`Dispatch` and `Service` are the same thing as classes that change dictionaries in place;
each method is proved to perform those sections on its own execution and to touch no other.

**Replay.** `Replay` derives children from sources, over whole chains of replays.
`ReplayDiff` compares two executions and proves the comparison exact.

**Streaming.** `Stream` turns snapshots into numbered events and proves that a client
rebuilds the execution from them; `StreamBatches` says type by type what a batch carries;
`StreamedRun` shows that polling any run of the control
plane meets the assumption of that theorem; `Sse` proves the printer, the incremental
splitter and the block parser inverse to each other for every chunking.

**Bounded loops and arithmetic.** `Chunking`, `Retrieval`, `Retry` and `Rollups`, and the
encodings of `Storage`.

Atomicity is the one deliberate modelling choice: a section runs from the read of a record
to its write. `Theorems.StaleWriteLosesCancellation` shows that the safety theorems fail at
the granularity of single repository calls. Where the code differs from what one might
expect, the model follows the code: VALIDATING means that validation steps ran, not that
their verdict was good; a terminal record's runtime metadata still changes; rows of a step
under way are still appended after a cancellation; a repeated step key keeps its last step;
an edge from an unknown key leaves a stored plan and an execution in PLANNING; chunking with
an overlap as large as the window does not end; every ranked chunk carries the title of the
document scanned last unless nothing matched; the error row of a tool call reports the
maximal retry count, however few retries there were; work that raises leaves its step
RUNNING for good; a worker stops at an item that raises; a replay outside prod of a prod
execution needs no approval.

The sections of `Lifecycle` and where they come from:

- `Begin`, `Instantiate`: services/orchestrator/app/runtime/orchestrator.py lines 121-157 and 262-304
- `LoopHead`: lines 160-176 and 314-335
- `Decide`, `Finish`, `Finalize`: lines 178-232 and 1285-1484
- `BeginStep`, `WorkOnStep`, `CompleteStep`: lines 1142-1210
- `Decided`: lines 1497-1618; `Cancel`: lines 1637-1682; `Fail`: lines 1685-1717
- `Enqueue`, `WorkerMark`, `RequestCancel` of `Apply`: services/orchestrator/app/services/execution_service.py lines 110-114, 136-142 and 145-152

## Model

| member | source | states |
|---|---|---|
| StateMachine.ValidateExecution | services/orchestrator/app/runtime/state_machine.py:60-67 | The two tests of the validator together permit exactly the edges of the relation, and never one out of a terminal status. |
| StateMachine.ValidateStep | services/orchestrator/app/runtime/state_machine.py:70-77 | The same for steps. |
| StateMachine.CompletionPassesValidation | services/orchestrator/app/runtime/state_machine.py:13-32 | Every path through the relation from creation to completion contains VALIDATING, however long it is. |
| Safety.InvInitial | services/orchestrator/app/services/execution_service.py:43-90 | The control-plane invariant holds of a freshly created execution. |
| Safety.StepKeeps | services/orchestrator/app/runtime/orchestrator.py:119-1717 | Every section of the engine and of every other actor keeps the invariant (timeline, steps, step rows, gate, governance records, runner position). |
| Safety.RunKeeps | services/orchestrator/app/runtime/orchestrator.py:119-1717 | So it holds after every interleaving of the engine with enqueue, worker, cancellation and approval sections. |
| Safety.FinalizeKeeps | services/orchestrator/app/runtime/orchestrator.py:1285-1484 | Proposing, evaluating and branching leaves records that agree with the status reached. |
| Safety.ApprovalKeeps | services/orchestrator/app/runtime/orchestrator.py:1486-1619 | So does a human decision, including its error cases. |
| Theorems.TerminalFrozen | services/orchestrator/app/runtime/orchestrator.py:1637-1717 | Once terminal, status, result, completed_at and cancelled_at never change again, whatever any actor does. |
| Theorems.TimelineOnlyGrows | services/orchestrator/app/runtime/orchestrator.py:67-80 | Every stored timeline is a prefix of all later ones. |
| Theorems.StampsAlwaysAgree | services/orchestrator/app/runtime/orchestrator.py:119-1717 | In every reachable state completed_at is set exactly for COMPLETED, cancelled_at exactly for CANCELLED, and a result exists exactly for the four statuses that have an outcome, with that outcome. |
| Theorems.StatusHistory | services/orchestrator/app/runtime/orchestrator.py:119-232 | In every reachable state the status rows form a path of allowed edges from CREATED, and folding them gives the stored status. |
| Theorems.StepRowsMatchStatus | services/orchestrator/app/runtime/orchestrator.py:1142-1210 | Between steps, in every reachable state: a step has its start row and then its completion row exactly when it is stored as SUCCEEDED, only the start row exactly when it is stored as RUNNING, and neither exactly when it is PENDING or not stored. |
| Theorems.RunningOnlyIfRaised | services/orchestrator/app/runtime/orchestrator.py:1142-1210 | A step is left RUNNING only if its work raised at some earlier point of the run. |
| Theorems.StartsAfterDependencies | services/orchestrator/app/runtime/orchestrator.py:306-312 | A step starts only after every dependency has succeeded, has a stored result and both its rows; in VALIDATING only validation steps start; no step starts twice. |
| Theorems.ValidationGate | services/orchestrator/app/runtime/orchestrator.py:191-226 | COMPLETED is reached only via VALIDATING with all stored steps succeeded and a validation step that ran and has a stored result. |
| Theorems.RecordsAgree | services/orchestrator/app/runtime/orchestrator.py:1285-1619 | What proposals, evaluations, approvals and the result say in each status of an incident execution. |
| Theorems.AtMostOneDecision | services/orchestrator/app/runtime/orchestrator.py:1486-1619 | No execution ever gets two approvals, two proposals or two evaluations. |
| Theorems.IdentityKept | services/orchestrator/app/runtime/orchestrator.py:119-232 | Workflow and context are the ones of creation. |
| Theorems.DeniedNeverCompletes | services/policy-engine/policy_engine/evaluator.py:28-71 | Over all runs, an incident execution in scope phase3_deny never completes. |
| Theorems.CompletionPoint | services/orchestrator/app/runtime/orchestrator.py:1486-1619 | A completed run has one action at which it completed. |
| Theorems.ConditionalNeedsApproval | services/policy-engine/policy_engine/evaluator.py:28-71 | In environment prod or scope phase3_conditional it completes only if APPROVE was submitted after it had reached AWAITING_APPROVAL. |
| Theorems.ReturnedRunEnds | services/orchestrator/app/runtime/orchestrator.py:159-226 | A run that returns leaves the execution terminal or waiting for approval, whatever the other actors did meanwhile. |
| Theorems.ReturnedRunSettles | services/orchestrator/app/runtime/orchestrator.py:159-226 | If nobody asked for cancellation in mid-run, it also does not wait with the cancellation flag up. |
| Theorems.RedeliveryHarmless | services/orchestrator/app/runtime/worker.py:42-62 | Delivering a settled execution again changes nothing but its runtime metadata. |
| Theorems.TerminalStaysAtRest | services/orchestrator/app/runtime/orchestrator.py:1650-1654 | A terminal execution with no step chosen or under way is left alone by every actor, runtime metadata aside. |
| Theorems.TerminalStartsNoOther | services/orchestrator/app/runtime/orchestrator.py:159-189 | After a terminal status, by a cancellation in mid-run say, at most the step already chosen still starts, and no other step changes. |
| Theorems.CancelledBeforeDequeueNeverRuns | services/orchestrator/app/services/execution_service.py:145-161 | An execution cancelled before it is dequeued never plans or runs a step. |
| Theorems.CancellationSurvivesIff | services/orchestrator/app/runtime/orchestrator.py:160-176 | At the granularity of single repository calls, a cancellation between the read and the write of the loop head survives exactly if the record read had its flag up, awaited approval or had no plan. |
| Theorems.StaleWriteLosesCancellation | services/orchestrator/app/runtime/orchestrator.py:160-176 | So in every state of the invariant it survives exactly if the flag was up or approval was awaited; otherwise status, stamp, flag and timeline row of the cancellation are all overwritten, along no allowed edge. |
| Origins.ResultsAreReturned | services/orchestrator/app/runtime/orchestrator.py:1163-1180 | Over every run, the stored result of a step is what its work returned, in the action named. |
| Origins.TracesAreReported | services/orchestrator/app/runtime/orchestrator.py:1150-1200 | The trace rows of any run are exactly what the work of its steps reported, in order. |
| Origins.EveryRowHasItsCause | services/orchestrator/app/runtime/orchestrator.py:67-80 | Every timeline row that was not there at creation was written by one action of the run, carries its time, and is one of those that action may write at that point. |
| Origins.UpdatedWithTheLastRow | services/orchestrator/app/runtime/orchestrator.py:67-80 | The record keeps its identity (id, workflow, context, parent, creation), and its update stamp is the time of its last row. |
| Accounts.BooksBalance | services/orchestrator/app/runtime/orchestrator.py:1285-1619 | In every reachable state the governance rows of the timeline are exactly the story of the stored proposal, evaluation and approval, those name each other and this execution, the decision is what scope and environment ask for, and the result document says the same, field by field. |
| Accounts.WaitingIsAnnounced | services/orchestrator/app/runtime/orchestrator.py:1426-1483 | An execution that awaits approval has proposed, evaluated and asked for approval in its timeline, under the identifiers its result names, and nothing else about governance. |
| Accounts.DecisionOutcome | services/orchestrator/app/runtime/orchestrator.py:1497-1618 | The exact outcome of a human decision: refused unless approval is awaited, a deferral refused without a change, an approval completes, a rejection fails, and the row stored is the caller's. |
| Accounts.ApprovalsAreSubmitted | services/orchestrator/app/runtime/orchestrator.py:1513-1529 | Every stored approval was submitted in the run: approver, decision and time are the caller's, proposal and evaluation those the execution then waited for. |
| Accounts.EndingIsTold | services/orchestrator/app/runtime/orchestrator.py:1637-1717 | Every ended execution was ended by one action, and its record tells which: completed_at or cancelled_at is its time, the reason of a cancellation or an error is its own. |
| Accounts.StepsBelongToThePlan | services/orchestrator/app/runtime/orchestrator.py:262-304 | All stored steps belong to the current plan, which is the execution's own, and are as old as it. |
| Accounts.SectionMoves | services/orchestrator/app/runtime/orchestrator.py:1142-1185 | After planning no section changes more of a step than its status and update stamp, and the stamp is the section's time. |
| Accounts.ValidationIsRecorded | services/orchestrator/app/runtime/orchestrator.py:1197-1209 | Each completion of a validation step, and no other, has its validation row. |
| Effects.ActionEffect | services/orchestrator/app/runtime/orchestrator.py:119-1717 | Per section: what it may change, which actions can complete an execution and which can start a step. |
| Scheduling.ScheduleOk | services/orchestrator/app/runtime/orchestrator.py:234-259 | The greedy schedule takes keys of the plan, each at most once, after everything they depend on, and stops only when nothing is ready. |
| Scheduling.ScheduleTakesFirst | services/orchestrator/app/runtime/orchestrator.py:242-260 | Each time it takes the first key in plan order that is not done and whose dependencies are. |
| Scheduling.BlockedHasCycle | services/orchestrator/app/runtime/orchestrator.py:228-232 | If a key is never scheduled, the plan has a dependency cycle. |
| Scheduling.RunsEverythingIffAcyclic | services/orchestrator/app/runtime/orchestrator.py:228-232 | Every key is scheduled if and only if the dependency graph is acyclic. |
| Scheduling.GateOpensIffValidationLast | services/orchestrator/app/runtime/orchestrator.py:314-341 | For a plan that runs to its end the gate opens exactly when there is work and a validation step comes last. |
| Scheduling.DependentValidationPasses | services/orchestrator/app/runtime/orchestrator.py:314-341 | It does whenever some validation step depends, directly or not, on every work step. |
| SerialRun.NextReadyIsNextKey | services/orchestrator/app/runtime/orchestrator.py:242-259 | The step the engine picks from the store is the next key of the schedule. |
| SerialRun.SerialRunEnds | services/orchestrator/app/runtime/orchestrator.py:119-232 | The scheduler theorem: for every plan whose edges resolve, an uninterrupted run in which no work raises starts exactly the schedule, in order, once each; those steps succeed, all others stay pending, and it ends as plan, workflow and policy determine. |
| SerialRun.DeadlockIffCyclic | services/orchestrator/app/services/execution_service.py:129-134 | The run fails through the deadlock error if and only if the plan is cyclic, and all steps succeed if and only if it is not. |
| SerialRun.GateErrorIff | services/orchestrator/app/runtime/orchestrator.py:221-226 | Exactly when the "not in VALIDATING" error ends an uninterrupted run of an acyclic plan; the interleaved runs are those of `Errors`. |
| SerialRun.EngineProgress | services/orchestrator/app/runtime/orchestrator.py:159-232 | Every engine section after planning lowers a measure of pending steps and position, trace rows of a step's own work aside. |
| SerialRun.SerialRunTerminates | services/orchestrator/app/runtime/orchestrator.py:159-232 | An uninterrupted run comes to rest. |
| Errors.ErrorsJustified | services/orchestrator/app/runtime/orchestrator.py:178-232 | Over every interleaved run: whenever the engine raises or has stored an error, the current plan resolves, and the error is the one its graph gives, or, with a step left RUNNING by work that raised, the one that the pending steps give. |
| Errors.ThreeErrors | services/orchestrator/app/runtime/orchestrator.py:166-232 | Over every run the engine has only the deadlock, the gate and the unexpected-state error, the last only after work that raised; a missing plan, step or context is never met. |
| Errors.GraphDecidesError | services/orchestrator/app/runtime/orchestrator.py:191-232 | The error theorem: in every run in which no work raises, with any other actors at work, the graph of the current plan decides which error there can be: the gate error if the plan runs to its end without opening the gate, the deadlock if it cannot run to its end, none otherwise. |
| Errors.CycleDecidesError | services/orchestrator/app/runtime/orchestrator.py:221-232 | In all such runs the deadlock goes with cyclic plans only and the gate error with acyclic ones only. |
| Errors.DependentValidationNeverErrs | services/orchestrator/app/runtime/orchestrator.py:221-226 | Over all runs the gate error cannot fire for an acyclic plan in which some validation step depends on all the work, and if no work raises no error can. |
| Errors.BuiltInNeverErrs | services/orchestrator/app/runtime/planner.py:31-179 | With the built-in planner no engine error ever fires, over all runs in which no work raises. |
| Errors.CurrentPlan | services/orchestrator/app/runtime/orchestrator.py:262-304 | The current plan of any run is the answer of one of its planning sections, and its edges resolve. |
| Planner.BuiltInPlansPass | services/orchestrator/app/runtime/planner.py:31-179 | The three built-in plans are acyclic chains whose edges resolve, whose every key is scheduled and whose schedule opens the gate, whatever their fresh keys. |
| Planner.BuiltInSteps | services/orchestrator/app/runtime/planner.py:31-179 | The three built-in plans, step by step and edge by edge. |
| Planner.BuiltInOrder | services/orchestrator/app/runtime/planner.py:31-179 | A run of a built-in plan starts its steps in the order they are written in. |
| Planner.BuiltInRunEnds | services/orchestrator/app/runtime/planner.py:21-29 | An uninterrupted run of a built-in plan in which no work raises succeeds in every step, and only policy decides whether it completes, fails or waits. |
| Dispatch.StepsInPlanOrder | services/orchestrator/app/runtime/orchestrator.py:242-253 | From any listing, the stored steps of the plan's keys in plan order. |
| Dispatch.IsReady | services/orchestrator/app/runtime/orchestrator.py:306-312 | A step is ready exactly when every dependency is stored and succeeded. |
| Dispatch.NextPendingReady | services/orchestrator/app/runtime/orchestrator.py:255-260 | The first pending ready step in plan order. |
| Dispatch.ChooseNext | services/orchestrator/app/runtime/orchestrator.py:184-189 | The choice is the first of the plan's steps, in plan order, that is pending with all dependencies succeeded, and none if there is none, whatever the listing. |
| Dispatch.ListingOrderIrrelevant | services/orchestrator/app/adapters/repository.py:158-162 | Two listings of the same steps in any orders lead to the same choice. |
| Policy.Evaluate | services/policy-engine/policy_engine/evaluator.py:28-71 | Decision and rule for every action, scope and environment. |
| RuntimeMeta.ApplyMeta | services/orchestrator/app/runtime/runtime_meta.py:20-32 | Patching reads back as patched, removes null keys, and leaves every other key of the input alone. |
| RuntimeMeta.ApplyRuntimeMeta | services/orchestrator/app/runtime/runtime_meta.py:20-32 | The loop over the patch computes that input. |
| RuntimeMeta.PatchedReads | services/orchestrator/app/runtime/runtime_meta.py:20-32 | After any patches each key reads as its last patch says, null meaning absence, and every other key as before. |
| RuntimeMeta.MarkQueued | services/orchestrator/app/runtime/runtime_meta.py:44-45 | Queueing stores its time, lowers the cancellation flag and leaves all else alone. |
| RuntimeMeta.MarkWorkerStarted | services/orchestrator/app/runtime/runtime_meta.py:48-53 | Marking the worker stores its id and time and neither raises nor lowers the flag. |
| RuntimeMeta.MarkCancelled | services/orchestrator/app/runtime/runtime_meta.py:56-62 | A cancellation request raises the flag and stores its time and reason. |
| Timeline.Statuses | services/orchestrator/app/runtime/orchestrator.py:67-80 | The statuses a timeline goes through start at CREATED, end at its folded status and, when each row continues the one before, form a path. |
| Timeline.Snoc | services/orchestrator/app/runtime/orchestrator.py:67-80 | What one more row does to every reading of a timeline at once. |
| Repository.InMemoryRepository.UpdateExecution | services/orchestrator/app/adapters/repository.py:134-138 | Replaces one record; no other execution has a row changed. |
| Repository.InMemoryRepository.SaveStep | services/orchestrator/app/adapters/repository.py:146-147 | Stores one step under its execution and nothing else. |
| Repository.InMemoryRepository.SaveStepResult | services/orchestrator/app/adapters/repository.py:164-165 | Stores one result under the execution of its step and nothing else. |
| Repository.InMemoryRepository.SaveProposal | services/orchestrator/app/adapters/repository.py:170-171 | Stores or replaces one proposal and nothing else. |
| Repository.InMemoryRepository.ListSteps | services/orchestrator/app/adapters/repository.py:158-162 | Every step of the execution once, sorted by creation time, ties in no particular order. |
| Repository.InMemoryRepository.CreateExecution | services/orchestrator/app/services/execution_service.py:43-90 | A new execution has no rows in any other table, and no other execution is touched. |
| Engine.ExecutionEngine.BeginRun | services/orchestrator/app/runtime/orchestrator.py:119-157 | The planning section, in place, for any planner. |
| Engine.ExecutionEngine.SaveSteps | services/orchestrator/app/runtime/orchestrator.py:262-304 | Saving the instantiated steps one by one stores one step for each key, a repeated key's last one. |
| Engine.ExecutionEngine.HeadSection | services/orchestrator/app/runtime/orchestrator.py:159-176 | The loop head, in place. |
| Engine.ExecutionEngine.DecideSection | services/orchestrator/app/runtime/orchestrator.py:178-232 | The choice, the finish and the three errors, in place. |
| Engine.ExecutionEngine.FinalizeGovernance | services/orchestrator/app/runtime/orchestrator.py:1285-1484 | Governance, in place, for all three decisions. |
| Engine.ExecutionEngine.RunStep | services/orchestrator/app/runtime/orchestrator.py:1142-1210 | Running one chosen step is a sequence of engine sections that ends at the loop head with that step no longer pending, or, if its work raises, in a crash; what is stored of it, trace rows and result, is what its work did given the step as stored running. |
| Engine.ExecutionEngine.RunExecution | services/orchestrator/app/runtime/orchestrator.py:119-232 | The imperative loop terminates and is a run of the transition system on the rows of its execution alone; unless it crashes, no work raised; every result that is new is the work of its step, and no other has changed. |
| Engine.ExecutionEngine.CancelExecution | services/orchestrator/app/runtime/orchestrator.py:1637-1682 | Cancellation, in place. |
| Engine.ExecutionEngine.FailExecution | services/orchestrator/app/runtime/orchestrator.py:1685-1717 | Failing with a reason, in place. |
| Engine.ExecutionEngine.SubmitApproval | services/orchestrator/app/runtime/orchestrator.py:1486-1619 | A human decision with its errors, in place; once the invariant holds the proposal is always found. |
| Engine.SavedAll | services/orchestrator/app/runtime/orchestrator.py:262-304 | The steps saved one by one are the steps instantiated. |
| Service.ExecutionService.CreateExecution | services/orchestrator/app/services/execution_service.py:43-90 | The new execution is fresh, has the workflow, context, input, parent and time it is created with, and nothing else changes. |
| Service.ExecutionService.EnqueueExecution | services/orchestrator/app/services/execution_service.py:110-127 | The execution is marked and joins the end of the queue; an unknown one changes nothing. |
| Service.ExecutionService.StartExecution | services/orchestrator/app/services/execution_service.py:129-134 | Runs to rest, an orchestration error becomes a failed execution, only this execution changes, and it ends settled with no work raised unless the run crashed. |
| Service.ExecutionService.RecordWorkerStarted | services/orchestrator/app/services/execution_service.py:136-143 | Only runtime metadata changes. |
| Service.ExecutionService.RequestCancellation | services/orchestrator/app/services/execution_service.py:145-161 | The request is on record, and the execution is terminal afterwards: one that had not ended is cancelled for that reason at that time, one that had keeps its outcome. |
| Service.ExecutionService.SubmitApproval | services/orchestrator/app/services/execution_service.py:163-177 | One decision of the transition system on a resting execution, which stays at rest; an unknown execution changes nothing. |
| Service.StartOutcome | services/orchestrator/app/services/execution_service.py:129-134 | What one start comes to: the scheduler theorem for a fresh execution, nothing but metadata for a settled one. |
| Service.CrashIff | services/orchestrator/app/runtime/orchestrator.py:262-304 | A run crashes exactly when it plans with an edge from an unknown key or the work of a step raises. |
| Service.ExecutionQueue.Enqueue | services/orchestrator/app/runtime/queue.py:25-29 | Items join at the end. |
| Service.ExecutionQueue.Dequeue | services/orchestrator/app/runtime/queue.py:31-35 | Items leave at the front, none from an empty queue. |
| Service.ExecutionWorker.RunOnce | services/orchestrator/app/runtime/worker.py:34-40 | Serves exactly the first item; an exception out of it comes out. |
| Service.ExecutionWorker.Process | services/orchestrator/app/runtime/worker.py:42-62 | One item is one delivery, whose start is reported with the depth of the queue. |
| Service.ExecutionWorker.RunUntilIdle | services/orchestrator/app/runtime/worker.py:93-99 | Serves min(max_items, queue length) items in arrival order, each with the effect of one delivery, and leaves the rest queued; an exception out of one ends it early, after the items before it. |
| Service.SettledStays | services/orchestrator/app/runtime/worker.py:42-62 | At-least-once delivery is harmless: after the delivery that settles an execution, no later item of the queue changes anything of it but its metadata. |
| Service.DeliveryHarmless | services/orchestrator/app/runtime/worker.py:42-62 | The same for one delivery. |
| Storage.InputRoundTripIff | services/orchestrator/app/adapters/repository.py:272-286 | The execution mode always survives storage in the input; the input survives exactly when it does not use the reserved key. |
| Storage.DependenciesRoundTrip | services/orchestrator/app/adapters/repository.py:289-300 | Dependencies read back as written. |
| Replay.ReplayService.CreateReplay | services/orchestrator/app/services/replay_service.py:86-181 | The frame theorem: accepted or not, started or not, no row of any execution stored before changes, a rejected request stores nothing, and the "source was mutated" error cannot occur. |
| Replay.ReplayService.Validate | services/orchestrator/app/services/replay_service.py:194-208 | The checks in their order: exactly the rejection of the request, the reserved key aside, which is looked for only when overrides are applied. |
| Replay.AcceptedIff | services/orchestrator/app/services/replay_service.py:194-208 | Which requests are accepted, in terms of the request alone. |
| Replay.ReplayService.Derive | services/orchestrator/app/services/replay_service.py:104-118 | The child's input before provenance, or the exact reason against it. |
| Replay.ChildInput | services/orchestrator/app/services/replay_service.py:106-118 | The child's input, key by key: the requested value where an investigative request has one, the source's otherwise. |
| Replay.ChildProvenance | services/orchestrator/app/services/replay_service.py:135-148 | What the child's provenance says, with the overrides exactly as requested. |
| Replay.ChildRecord | services/orchestrator/app/services/replay_service.py:120-151 | The rest of the child: workflow and scope of the source, the requested environment, its parent, and one row naming source and mode. |
| Replay.ReplayService.Create | services/orchestrator/app/services/replay_service.py:120-151 | The child in its two sections: input derived from the source, provenance, and its first timeline row. |
| Replay.RunKeepsPayload | services/orchestrator/app/runtime/runtime_meta.py:20-32 | Whatever happens to an execution, the business part of its input is the one it was created with. |
| Replay.ChainPayload | services/orchestrator/app/services/replay_service.py:106-148 | Along any chain of replays, with anything done to each generation in between, the payload is the root's with the overrides of the investigative requests applied in order. |
| Replay.ExactChainPayload | services/orchestrator/app/services/replay_service.py:109-110 | Exact replays add nothing. |
| Replay.ChainScope | services/orchestrator/app/services/replay_service.py:120-133 | Every generation keeps the workflow and the policy scope of the root. |
| Replay.DeniedReplaysNeverComplete | services/orchestrator/app/services/replay_service.py:120-133 | No descendant of an incident execution in a denying scope ever completes, whatever environment its replays ask for. |
| Replay.ApprovalDuty | services/orchestrator/app/services/replay_service.py:120-133 | A descendant needs approval exactly if the last request names prod or the root's scope is conditional; so the duty of a prod source is lost exactly by a replay outside prod in an unconditional scope. |
| Replay.ReplayNeedsApproval | services/orchestrator/app/services/replay_service.py:120-133 | A descendant in prod or of a conditional scope completes only after an APPROVE of its own. |
| Replay.ExactCopiesFlag | services/orchestrator/app/services/replay_service.py:36-39 | Only provenance is stripped: the cancellation flag is copied. |
| Replay.FlaggedReplayNeverRuns | services/orchestrator/app/services/replay_service.py:168-169 | So an exact replay of a flagged source that is started at once is cancelled without running a step. |
| Stream.StreamCursor.DiffStreamEvents | services/api-gateway/gateway/streaming/diff.py:75-190 | For any two successive snapshots: the new events, numbered on from the cursor, and the cursor's new state. |
| Stream.LearnBatch | services/api-gateway/gateway/streaming/diff.py:75-190 | One batch brings a client exactly as far as the cursor. |
| Stream.Reconstruction | services/api-gateway/gateway/streaming/diff.py:67-190 | For every polling schedule over an append-only history, folding all events from nothing gives the last snapshot: status, timeline row for row, step statuses, and one ending if and only if it has ended. |
| Stream.EachRowOnce | services/api-gateway/gateway/streaming/diff.py:136-142 | Each timeline row is carried exactly once, in order. |
| Stream.EachNoticeOnce | services/api-gateway/gateway/streaming/diff.py:143-151 | A notice goes out for each row that records a replay, with its source and mode, and no other. |
| StreamBatches.StatusEvents | services/api-gateway/gateway/streaming/diff.py:100-133 | A status that is new to a poll is told once, with the one request for approval, naming the snapshot's governance, or the one ending it brings. |
| StreamBatches.RowEventsOnce | services/api-gateway/gateway/streaming/diff.py:136-152 | A batch carries the rows beyond those seen, once each in order, and the notices of the replays among them. |
| StreamBatches.StepEventsExact | services/api-gateway/gateway/streaming/diff.py:155-174 | A step is told exactly when the poll shows it new or with another status. |
| StreamBatches.ApprovalEvents | services/api-gateway/gateway/streaming/diff.py:176-188 | The newest approval is told when their number has grown, and only then. |
| StreamBatches.BatchOrder | services/api-gateway/gateway/streaming/diff.py:100-188 | Status first with what it brings, then rows, then steps, the approval last. |
| StreamBatches.ApprovalsTold | services/api-gateway/gateway/streaming/diff.py:100-188 | Over a whole stream approval is asked for once each time the execution is first seen to wait, and each growth of the approvals is told once. |
| Stream.EndingLastIff | services/api-gateway/gateway/streaming/diff.py:75-190 | The terminal event is the last of its batch exactly when the poll brought no new row, no changed step and no new approval. |
| Stream.RowsFollowEnding | services/api-gateway/gateway/streaming/diff.py:120-152 | New rows of the poll come after the terminal event. |
| StreamedRun.EndingSeldomLast | services/api-gateway/gateway/streaming/diff.py:120-190 | In a stream of a real run the terminal event is the last of its batch only if the poll before had read the projection, but not the execution record, after the end. |
| Stream.StreamExecution | services/api-gateway/gateway/streaming/sse.py:83-133 | The poll loop sends the events of the polls taken, numbered 1..n without gaps, a heartbeat whenever one is due, and never needs the fallback ending. |
| Stream.OneEnding | services/api-gateway/gateway/streaming/sse.py:96-118 | Exactly one terminal event per stream that sees a terminal status, with that status, and none otherwise. |
| StreamedRun.ReadingsAppendOnly | services/orchestrator/app/runtime/orchestrator.py:67-80 | What successive polls read of any run, with any actors at work, is append-only. |
| StreamedRun.ClientSeesTheRun | services/api-gateway/gateway/streaming/diff.py:67-190 | So whatever happens during the stream, the client ends up with the stored status, timeline and step statuses of the last poll. |
| Sse.SplitJoins | services/operator-console/src/app/core/api/execution-stream.service.ts:66-67 | Splitting on blank lines loses nothing and leaves no separator in a part. |
| Sse.SplitIncrementally | services/operator-console/src/app/core/api/execution-stream.service.ts:62-72 | Incremental splitting equals splitting everything at once, for all strings. |
| Sse.RunStream | services/operator-console/src/app/core/api/execution-stream.service.ts:60-72 | The read loop hands on what the complete blocks of the whole text hold, for every way it is cut into chunks. |
| Sse.FrameText | services/api-gateway/gateway/streaming/sse.py:34-38 | The text of each event on the wire. |
| Sse.ParseFormatted | services/api-gateway/gateway/streaming/sse.py:34-38 | The block parser reads back what the printer wrote. |
| Sse.StreamRoundTrip | services/operator-console/src/app/core/api/execution-stream.service.ts:60-86 | For every chunking the client hands on exactly the events that are not heartbeats, in order, with an empty final buffer. |
| Sse.PollToScreen | services/operator-console/src/app/core/api/execution-stream.service.ts:60-86 | End to end: the client gets events 1..n and folds them to the last snapshot polled. |
| ReplayDiff.Compare | services/orchestrator/app/services/replay_diff_service.py:99-148 | Sound, complete, without duplicates, with lineage, severities and counts; refuses unknown executions and more than 500 items.  What that means on the fields is said by the rows below. |
| ReplayDiff.HeaderItems | services/orchestrator/app/services/replay_diff_service.py:198-706 | On the fields themselves: status, workflow, plan, validation summary and presence of a result each have an item exactly if they differ, with its severity. |
| ReplayDiff.InputItems | services/orchestrator/app/services/replay_diff_service.py:226-253 | Each business key of the input has an item exactly if the values differ, null and absent being equal, a warning unless it was overridden. |
| ReplayDiff.CountItems | services/orchestrator/app/services/replay_diff_service.py:268-645 | The six counts and their severities. |
| ReplayDiff.StepItems | services/orchestrator/app/services/replay_diff_service.py:302-370 | A step only one side has, and type, status, agent and presence of a result of a step both have. |
| ReplayDiff.StepResultItems | services/orchestrator/app/services/replay_diff_service.py:374-436 | Completeness, confidence and validation outcome, where both sides have a result. |
| ReplayDiff.OutputItems | services/orchestrator/app/services/replay_diff_service.py:436-739 | The six chosen output fields, where both outputs are objects. |
| ReplayDiff.ReasoningItems | services/orchestrator/app/services/replay_diff_service.py:448-496 | Path and task of the reasoning events, a differing path being significant unless both are paths of the model runtime. |
| ReplayDiff.ToolItems | services/orchestrator/app/services/replay_diff_service.py:498-570 | Name, status, side effect and idempotency of the tool calls. |
| ReplayDiff.DecisionItems | services/orchestrator/app/services/replay_diff_service.py:572-663 | Decisions and reasons of the evaluations, decisions of the approvals. |
| ReplayDiff.ResultItems | services/orchestrator/app/services/replay_diff_service.py:684-739 | The seven chosen result fields, where both sides have a result. |
| ReplayDiff.NoOtherItems | services/orchestrator/app/services/replay_diff_service.py:99-148 | And no item about any other part of an entry. |
| ReplayDiff.ReplaysAreLinked | services/orchestrator/app/services/replay_diff_service.py:150-196 | Any replay is reported as linked to its source. |
| ReplayDiff.CompareLineage | services/orchestrator/app/services/replay_diff_service.py:150-196 | Linked exactly when the parent or the provenance names the source, gravely not linked otherwise; overrides are reported exactly when there are some. |
| ReplayDiff.CompareInput | services/orchestrator/app/services/replay_diff_service.py:226-253 | One item for each business key whose values differ, absent and null being the same. |
| ReplayDiff.CompareSteps | services/orchestrator/app/services/replay_diff_service.py:285-372 | Steps by position: one-sided ones once, the others part by part. |
| ReplayDiff.CompareStep | services/orchestrator/app/services/replay_diff_service.py:322-370 | The parts of one step. |
| ReplayDiff.CompareStepResults | services/orchestrator/app/services/replay_diff_service.py:374-446 | Results compared only where both sides have one, chosen output fields only where both are objects. |
| ReplayDiff.CompareReasoning | services/orchestrator/app/services/replay_diff_service.py:448-496 | Reasoning events by position, as far as both sides go. |
| ReplayDiff.CompareToolCalls | services/orchestrator/app/services/replay_diff_service.py:498-570 | Tool calls by position, as far as both sides go. |
| ReplayDiff.CompareEvaluations | services/orchestrator/app/services/replay_diff_service.py:572-619 | Reasons are compared only where decisions agree. |
| ReplayDiff.CompareApprovals | services/orchestrator/app/services/replay_diff_service.py:632-663 | Approvals by position. |
| ReplayDiff.CompareResult | services/orchestrator/app/services/replay_diff_service.py:665-706 | Validation summary, presence of a result, chosen result fields where both have one. |
| ReplayDiff.ItemsExact | services/orchestrator/app/services/replay_diff_service.py:99-148 | The items for given paths are exactly those where the projections differ. |
| ReplayDiff.PathsDistinct | services/orchestrator/app/services/replay_diff_service.py:99-148 | No path is compared twice. |
| ReplayDiff.PathsCover | services/orchestrator/app/services/replay_diff_service.py:99-148 | Every path at which two executions can differ is compared. |
| ReplayDiff.CompareSymmetric | services/orchestrator/app/services/replay_diff_service.py:99-148 | Swapping the arguments gives the same set of paths, lineage aside. |
| ReplayDiff.FreshExactReplayInput | services/orchestrator/app/services/replay_diff_service.py:226-253 | A freshly created exact replay yields no input item. |
| ReplayDiff.ExactReplayInputLater | services/orchestrator/app/services/replay_diff_service.py:226-253 | Later on only runtime metadata can show up among its input items, whatever happens to either side. |
| Chunking.ChunkText | services/knowledge-service/knowledge_service/ingestion.py:10-30 | The loop, for all integer sizes and overlaps, under exactly the condition under which it ends. |
| Chunking.WindowAt | services/knowledge-service/knowledge_service/ingestion.py:22-29 | Every window for all such integers: where it starts, and the slice it holds, negative ends included. |
| Chunking.CoversIff | services/knowledge-service/knowledge_service/ingestion.py:22-29 | Chunking a longer text leaves no character out exactly when the overlap is not negative. |
| Chunking.TerminatesIff | services/knowledge-service/knowledge_service/ingestion.py:22-29 | Chunking ends if and only if the text is empty, fits one window, or the overlap is smaller than the window, for all integers. |
| Chunking.ChunkingTheorem | services/knowledge-service/knowledge_service/ingestion.py:10-30 | Bounded chunks, exact overlaps, the text rebuilt, and exactly ceil((n - overlap)/(size - overlap)) chunks. |
| Retrieval.CauchySchwarz | services/knowledge-service/knowledge_service/retrieval.py:100-108 | dot^2 is at most the product of the squared norms, over any set of terms. |
| Retrieval.CosineSquared | services/knowledge-service/knowledge_service/retrieval.py:100-108 | For the sums as computed, each over its own vector's terms. |
| Retrieval.CosineInUnit | services/knowledge-service/knowledge_service/retrieval.py:100-108 | The cosine of any two term-count vectors lies in [0,1]. |
| Retrieval.FilterCorpus | services/knowledge-service/knowledge_service/retrieval.py:125-140 | The documents in scope in order, or the whole corpus when there is none. |
| Retrieval.ScopedExact | services/knowledge-service/knowledge_service/retrieval.py:111-140 | Exactly the documents of the corpus that pass version and metadata. |
| Retrieval.ScoreAndRank | services/knowledge-service/knowledge_service/retrieval.py:143-193 | The top max_results of the positive-scored documents in the total order, a fallback otherwise, empty exactly for an empty corpus or no room; every ranked chunk carries the title of the document scanned last. |
| Retrieval.AnswerOrder | services/knowledge-service/knowledge_service/retrieval.py:161-176 | In an answer that is no fallback each chunk is a document's of the corpus with a fifth of its score, at most one; scores do not increase, and chunks of one score come in the order of their ids. |
| Retrieval.TopIsBest | services/knowledge-service/knowledge_service/retrieval.py:161-163 | No document left out scores more than one returned, and at the same score none has an earlier id. |
| Retrieval.TextOrder | services/knowledge-service/knowledge_service/retrieval.py:161-161 | The order of ids: a prefix first, or the smaller character at the first difference. |
| Retrieval.ScoreParts | services/knowledge-service/knowledge_service/retrieval.py:153-158 | What each part of a match adds to the score. |
| Retrieval.ScoreBounds | services/knowledge-service/knowledge_service/retrieval.py:156-165 | Ranked are exactly the documents that share a keyword, a title hit or a term with the query, and every returned score lies above zero and at most at one. |
| Retrieval.TitleFidelityIff | services/knowledge-service/knowledge_service/retrieval.py:154-193 | Every chunk is returned under its own title exactly when nothing matched or every document kept has the title of the document scanned last. |
| Retrieval.WrongTitle | services/knowledge-service/knowledge_service/retrieval.py:154-177 | Two runbooks that share a keyword with the query: the first is returned under the title of the second. |
| Retry.Attempts | services/tool-runtime/tool_runtime/executor.py:113-200 | At most max_retries + 1 invocations, all but the last failed transiently; the row is decided by the last attempt alone, as the source decides it, and 2 * pause = backoff * k(k+1) for k pauses. |
| Retry.Execute | services/tool-runtime/tool_runtime/executor.py:51-112 | Denied, unknown, pre-cancelled and malformed requests invoke nothing; default state-changing tools are invoked at most once. |
| Retry.ErrorCountIff | services/tool-runtime/tool_runtime/executor.py:196-199 | The error row reports the retries made exactly when every attempt that a retry could follow failed transiently. |
| Retry.ErrorCountWrong | services/tool-runtime/tool_runtime/executor.py:196-199 | A handler that fails for good at once: one invocation, reported as max_retries retries. |
| Retry.BuildDefaultRegistry | services/tool-runtime/tool_runtime/registry.py:31-109 | Five tools that only read, with two retries each, and the update tool, the one that changes state, with none. |
| Retry.CallWithRetries | services/model-runtime/model_runtime/resilient.py:89-197 | Succeeds exactly when some attempt within the limit does and all before it fail transiently; then reports that many retries and has paused base*k(k+1)/2. |
| Rollups.MetricsOf | services/evaluation-engine/evaluation_engine/metrics.py:86-147 | The rates of one execution are shares of what was counted, there exactly when something was. |
| Rollups.RatesAre | services/evaluation-engine/evaluation_engine/metrics.py:82-131 | They are the fallbacks among its reasoning events and the successes among its tool calls. |
| Rollups.AggregateByWorkflow | services/evaluation-engine/evaluation_engine/aggregate.py:28-58 | One rollup per workflow with its execution, failure and decision counts and its two mean rates. |
| Rollups.WorkflowRollupIs | services/evaluation-engine/evaluation_engine/aggregate.py:40-43 | Its execution and failure counts, counted on the executions. |
| Rollups.MeansInUnit | services/evaluation-engine/evaluation_engine/aggregate.py:38-50 | The mean rates of measured executions lie in [0,1], and a workflow has one exactly when one of its executions has the rate. |
| Rollups.CountDecisions | services/evaluation-engine/evaluation_engine/aggregate.py:32-65 | For each decision taken: how often, and by how many distinct executions. |
| Rollups.DecisionRollupIs | services/evaluation-engine/evaluation_engine/aggregate.py:60-65 | A decision has a rollup exactly if some execution took it; it says how often, and in how many distinct executions. |
| Rollups.DistinctExecutions | services/evaluation-engine/evaluation_engine/aggregate.py:60-65 | The executions of a decision are at most its evaluations and at most all executions, and none exactly when it was never taken. |
| Rollups.ExecutionsConserve | services/evaluation-engine/evaluation_engine/aggregate.py:28-73 | Workflow execution counts sum to the executions in scope. |
| Rollups.DecisionsConserve | services/evaluation-engine/evaluation_engine/aggregate.py:52-66 | The two dictionaries agree: the evaluations of a decision are the sum over the workflow rollups, for every decision, taken or not. |
| Rollups.RollUpTools | services/evaluation-engine/evaluation_engine/aggregate.py:127-141 | Invocations, successes and failures of each tool. |
| Rollups.ToolCounters | services/evaluation-engine/evaluation_engine/aggregate.py:127-141 | The three counters of a tool, counted on the calls; an empty name counts as unknown. |
| Rollups.InvocationsConserve | services/evaluation-engine/evaluation_engine/aggregate.py:127-141 | Successes plus failures equal invocations for each tool, and the invocations total the calls of all executions. |
| Rollups.RollUpSteps | services/evaluation-engine/evaluation_engine/aggregate.py:98-125 | The five counters of each step type. |
| Rollups.StepCounters | services/evaluation-engine/evaluation_engine/aggregate.py:98-125 | The five counters of a step type, as totals over the executions of its steps, how they ended, and the reasoning events that name one of them. |
| Rollups.StepsConserve | services/evaluation-engine/evaluation_engine/aggregate.py:98-125 | Fallbacks never exceed reasoning events, outcomes never exceed steps, and steps of all types total all steps. |
| Rollups.ScoreInUnit | services/evaluation-engine/evaluation_engine/scoring.py:8-51 | For any executions the score is defined exactly when one of them called a tool or has a reasoning event; then it lies in [0,1], and it is one exactly when no execution failed, no tool call failed and no reasoning fell back. |
| Rollups.ScoreWeights | services/evaluation-engine/evaluation_engine/scoring.py:14-49 | What each part weighs: the score when all tool calls fail, all reasoning falls back or all executions fail alone, with both rates and with one. |
| Rollups.TotalAdds | services/evaluation-engine/evaluation_engine/scoring.py:30-35 | A mean is the total shared out, and totals add up. |

## Left out

- Identifiers are numbers handed out by a counter, as `uuid4` makes them fresh; the clock returns arbitrary times; workflow, environment, scope and action names are datatypes with the names the code branches on and one constructor for all others.
- Contents of step outputs, validation summaries, row details and digests; what a step reports is an arbitrary function of the step, and the tool-call table of the store is not modelled.
- Lifecycle.Apply: the inside of a step's work, which is an arbitrary sequence of trace rows ended by a result or an exception.
- Engine.ExecutionEngine.RunExecution: the injected planner is a function of the workflow; one that looks at more of the execution is covered by the transition system, where every plan is possible.
- Engine.ExecutionEngine.RunStep: step names and agents, and which service does the work of a step.
- Repository.InMemoryRepository.ListSteps: the other listings (executions by tenant, status or parent, approvals, evaluations, tool calls) and their limits.
- Service.ExecutionQueue.Enqueue: the lock; the queue is changed by one caller at a time.
- Replay.ReplayService.CreateReplay: the missing-context error, which the store's invariant excludes, and the principal, tenant and feature flags of the child's context.
- ReplayDiff.Compare: titles, descriptions and shortened value texts of the items and their length limits; values are compared as JSON values, without Python's equality of true and 1.
- Stream.StreamCursor.DiffStreamEvents: bounded excerpts of row details and of results; an event carries the row itself.
- Stream.StreamExecution: the polls are a finite sequence, each with what it read and whether a heartbeat was due; waiting, visibility checks and metrics are not modelled.
- Sse.StreamRoundTrip: JSON encoding is any codec whose texts are one line between braces and decode to what they encode; UTF-8 decoding is not modelled, the encoder writes ASCII.
- Chunking.ChunkText: white-space normalization, tokenization and digests; the text is any string.
- Retrieval.ScoreAndRank: tokenization and rounding; how a document meets the query (shared keywords, title hit, cosine) is any function of the document, and `Retrieval.CosineInUnit` takes the square roots of the norms as given.
- Retry.Attempts: latencies, timeouts by threads and the bodies of handlers; an attempt has an arbitrary outcome.
- Rollups.ScoreInUnit: rounding to four digits; rates, means and scores are exact.
- Rollups.MetricsOf: validation success, latencies and notes; decisions come in the order of their evaluations.
- HTTP routing, authentication, tenant checks, the relational mapping other than the two encodings in `Storage`, model providers, pages of the console, observability and scripts.
