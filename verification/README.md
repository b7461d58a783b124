# Protocols of the AI employee platform, verified

The back end moves work through Redis queues, database rows and worker processes, and the front end decides in the
browser what a signed-in user may activate. This project models the small protocols that carry that work and proves
what they keep, over every run, interleaving and failure pattern:

- **Orchestrator event queue** (`EventQueue`, `EventWorkers`): push, pop, retry and the status key of each event.
- **Task queue with successors** (`FlowQueue`, `FlowDelivery`): an executed item may be retried and may also spawn the
  next one, and the event that brings it to the handler is delivered again when the handler raises.
- **Daily scheduler** (`DailyScheduler`, `Ownership`, `FlowHandoff`): which ownership sources are trusted, a SET-NX
  protocol that creates one daily flow per scope, and how its item fares when it is taken before its row is committed.
- **Execution engine** (`ExecutionEngine`, `ExecutionLock`, `Redaction`): the status machine with its log, the Redis lock
  with a time to live, and the recursive redaction of everything that is logged.
- **Agent Runtime** (`AgentRuntime`): approval, retry, cancel and reject by sessions that read, decide and commit apart
  from each other, with an audit log that should replay to the row.
- **Alpha Workflow** (`AlphaStart`, `AlphaSaga`, `AlphaRuns`): idempotent start, a multi-commit pipeline with
  compensation, and recovery.
- **Front-end authorization epochs** (`AuthorizationEpochs`): guards and activation loops that interleave at every await.
- **Migration 0044** (`Migration0044`): the downgrade guard against the upgrade, in SQL's three-valued logic.

Code that changes fields step by step is a class whose methods are proved equal to a function of the old state; what
happens between processes is a state machine whose steps are single Redis commands, commits or stretches between two
awaits. Digests (SHA-256) are injective, fresh identifiers are fresh, and executors, collectors and skill runtimes are
oracles that return, fail or raise as they like. `Options`, `Text` and `RedisKeys` hold what the modules share.

Where a property one would expect is false of the code, a lemma gives the run or the state that shows it, and another
says exactly when the property holds:

- two approvals that both read the waiting execution run it twice, after its success and beyond its retries
  (`TwoApprovalsCallTwice`); calls stay bounded exactly while no approval commits on a row that has left the waiting
  states since it was read and for which a flow is under way or a call has been made (`CallsBounded`,
  `SecondApprovalExceeds`, `LateApprovals`). An attempt that read the execution
  before it was cancelled can reopen it with a retry (`RetryReopensCancelled`, `ReopenedExactly`), and a cancellation that
  read it as pending overwrites an approval that the log keeps (`CancelledApprovalDiverges`, `ReplaysExactly`);
- an event's status is written after the event is queued and can be overtaken (`OvertakenAnnouncement`); a stored status is
  wrong exactly while the last step about its event was such an announcement (`TruthfulExactly`);
- a daily flow is lost when its item is delivered four times before its row is committed (`FlowLost`), and exactly then
  (`LostExactly`);
- a lock holder that outlives its 600 seconds can delete the next holder's lock between GET and DELETE
  (`LateReleaseBreaksExclusion`); exclusion holds up to the first state in which a worker has outlived its lock
  (`MutualExclusion`), and from there any other worker can be brought in beside it (`OverstayingBreaksExclusion`);
- a scheduler section that outlives its 36 hours can create a second flow (`OverstayingDuplicates`); there is one flow up
  to the first state in which a section has outlived its key while its slot has no flow (`OneTaskPerDayAndScope`), and
  from there any other worker can bring about a second (`OverstayingCanDuplicate`). A key nobody works under loses the
  day (`CrashLosesTheSlot`);
- a second delivery of an engine item turns a completed row into a failed one (`ProcessVerdict`);
- a successful agent execution can be rejected (`SuccessCanBeRejected`), cancelled by a request that read it before its
  success (`SuccessCanBeCancelled`), or overwritten by a second attempt (`SuccessCanBeOverrun`); which steps take a success
  away is `SuccessLeftExactly`, and while nobody approves twice it stays exactly if no rejection and no such cancellation
  commits (`SuccessStaysExactly`);
- the downgrade guard lets through a membership of an unprivileged user in a store without a manager, which no upgrade
  brings back (`GuardMissesAnOrphan`, `MembershipsSurvive`); nothing else is ever lost but names and flags of the default
  rows, and all that loses no more is let through (`AcceptsExactly`);
- a guard can answer "allowed" after a reset (`AllowedAfterReset`), exactly when its epoch is no longer the current one
  (`AllowedExactly`); an inline script that logs out during the first synchronous stretch of a loop leaves a rejected
  promise behind (`PromiseOutlivesReset`, `PromiseOutlivesExactly`), on which the next admitted guard waits in vain
  (`DeadPromiseDenies`); and a dynamic action can take over one registered by hand (`DynamicIdTakesStaticOne`), exactly when
  that was given the very id (`DynamicIdIsFresh`);
- an agent execution committed before its id is cached is missed by compensation (`ExecutionMissedByCompensation`);
- a trace that contains a word the planner redacts can be started once and never found again
  (`RedactedTraceNeverReturns`), and without the advisory lock a request can be answered with another request's run
  (`ForeignAnswerWithoutLock`);
- a recovery or cancellation that decides on a row read before a recovery commits over it (`OvertakenRuns`,
  `RecoveredAtMostOnce`); a recovery of a run whose context does not parse forgets the request identity
  (`RecoveryOfDamagedContextForgets`); and a new run can be started under the trace a recovery has returned
  (`RecoveryTraceCanBeAskedFor`, `RecoveryTraceAsRunTrace`).

In two places the code guards against what cannot happen: once a run exists no statement of its pipeline can violate an
identity column, so the branch that answers such a violation with a run, without compensation, is never taken
(`EveryFailureIsCompensated`); and the downgrade's tests on users and stores never decide, because those on tenants and
companies have refused by then (`PlacesNeverDecide`).

## Model

| member | source | states |
|---|---|---|
| EventQueue.OrchestratorQueue.PushQueue | backend/task_queue.py:18-30 | the new event is queued last with attempt 0 and its status is written as queued; nothing else changes |
| EventQueue.OrchestratorQueue.PopQueue | backend/task_queue.py:33-41 | takes the head, or nothing from an empty queue; statuses are untouched |
| EventQueue.OrchestratorQueue.RequeueEvent | backend/task_queue.py:44-49 | the item goes back last with one more attempt and a retrying status |
| EventQueue.OrchestratorQueue.UpdateEventStatus | backend/task_queue.py:52-70 | overwrites the status entry of that one event |
| EventQueue.OrchestratorQueue.ProcessNextEvent | backend/queue_worker.py:14-35 | one call pops, marks running, runs, and completes, retries or fails the event, for every outcome of the executor |
| EventQueue.OrchestratorQueue.Drain | backend/queue_worker.py:14-35 | draining ends for every executor, as the recursive drain does |
| EventQueue.ProcessedBudget | backend/queue_worker.py:14-35 | every call uses up retry budget, and exactly one unit of it when the execution fails |
| EventQueue.DrainExecutions | backend/queue_worker.py:14-35 | draining any queue takes at most one execution per item and allowed retry; exactly that many if all fail, exactly one each if none does |
| EventQueue.DrainRecords | backend/queue_worker.py:14-35 | after a drain every event that was queued is on record as one of its executions ended: completed with the value returned, or failed with the message raised and no retry left |
| EventQueue.PushKeepsConsistent | backend/task_queue.py:18-30 | a push of a new event keeps queue and statuses in agreement and adds one status key |
| EventQueue.PopKeepsConsistent | backend/queue_worker.py:14-20 | a popped event is in flight, nowhere in the queue, and its status says running |
| EventQueue.EndKeepsConsistent | backend/queue_worker.py:20-35 | however the execution ends, the event is then queued once as retrying or finished with a final status |
| EventQueue.ProcessKeepsConsistent | backend/queue_worker.py:14-35 | no call loses an event or invents one: queued iff attempt 0 in the queue, retrying iff attempt above 0 in the queue, final iff gone, never above the retry limit |
| EventWorkers.Conservation | backend/queue_worker.py:14-35 | with commands of any number of processes interleaving, every pushed event is always in exactly one place: queued once, in one worker's hands, or finished |
| EventWorkers.GivenUpWhenExhausted | backend/queue_worker.py:24-31 | in every run an event is taken off the queue at most once for each allowed retry and once more, and is given up only when it has been taken exactly that often |
| EventWorkers.RecordedEnds | backend/queue_worker.py:20-31 | the full status entry of a completed or failed event, and the item with its healing note that a retry queues |
| EventWorkers.TruthfulExactly | backend/task_queue.py:18-70 | in every state of every run the stored status of an event names the place it is in, or that is about to be written, unless the last step about the event was an announcement somebody had overtaken |
| EventWorkers.TruthfulNext | backend/task_queue.py:44-49 | a step keeps truthful statuses truthful exactly unless it announces an event that is being executed, is finished, or is queued for a later attempt already announced |
| EventWorkers.StatusesTruthful | backend/task_queue.py:18-70 | statuses are truthful in every state of a run exactly when the run has no overtaken announcement |
| EventWorkers.FinishedStaysMisled | backend/queue_worker.py:19-31 | a wrong status of a finished event is never corrected |
| EventWorkers.OvertakenAnnouncement | backend/task_queue.py:18-30 | a run in which the late status write leaves "queued" on a finished event |
| FlowQueue.Worker.EnqueueTask | backend/queue.py:25-38 | queues a new item with attempt 0 and records it as queued |
| FlowQueue.Worker.RequeueTask | backend/queue.py:41-53 | queues the item again with one more attempt and records it as retrying |
| FlowQueue.Worker.DequeueTask | backend/queue.py:56-65 | takes the head of the queue, or nothing |
| FlowQueue.Worker.UpdateTaskStatus | backend/queue.py:68-95 | overwrites the item's status and puts the update in front of the bounded recent list |
| FlowQueue.RecentIsNewest | backend/queue.py:68-95 | the recent list always holds the last 200 updates, newest first |
| FlowQueue.Worker.CreateSuccessorIfNeeded | backend/worker.py:528-624 | at most one row is created: the next flow step for the employee of that step, or the one feedback iteration for the strategist, with the parent's ownership; it is committed before it is queued with one retry |
| FlowQueue.Worker.Execute | backend/worker.py:278-348 | running, completed, then the successor, with the exception of the oracle at any point |
| FlowQueue.Worker.HandleTaskDirect | backend/worker.py:214-275 | refuses items whose ownership does not match, else executes and records success, retry or failure |
| FlowQueue.Worker.Drain | backend/worker.py:705-720 | the worker's loop ends for every failure pattern and executes at most the weight of its queue |
| FlowQueue.ChildWeight | backend/worker.py:581-624 | a spawned item is opened by its own ownership context and weighs as much as two executions one level down |
| FlowQueue.ProcessedTotals | backend/worker.py:214-275 | every execution uses up weight although it may both retry and spawn; failing after queueing the successor uses up exactly one unit |
| FlowQueue.DrainBounds | backend/worker.py:214-275 | executions and created rows of any drain stay within the weights of the queue, and reach them when everything fails late |
| FlowQueue.DrainWithoutFailures | backend/worker.py:214-275 | without failures every item and every successor runs exactly once |
| FlowQueue.FlowBounds | backend/worker.py:214-316 | counted at the handler, with one delivery for each queued item, a flow of n steps queued with one retry takes at most 2^(n+1)-2 executions and 2^n-1 rows, both reached by late failures, and exactly n of each when nothing fails |
| FlowQueue.LineageKept | backend/worker.py:581-624 | every call keeps the root's five ownership fields on everything the flow has created |
| FlowQueue.DrainKeepsOwner | backend/worker.py:528-624 | after any drain every spawned row carries the five ownership fields of its root and no item of the flow is refused |
| FlowQueue.DrainKeepsPlan | backend/worker.py:528-624 | whatever fails in a drain, every row it creates has its parent's flow and steps, the parent's index plus one and the employee of that step; a feedback row has its parent's loop, the iteration plus one, no further optimisation and the strategist |
| FlowQueue.FlowRunsInOrder | backend/worker.py:581-624 | when nothing fails, a flow handed to the employee of its first step is worked on by the employees of all its steps, once each and in their order |
| FlowQueue.HandledStatus | backend/worker.py:214-275 | the last status written for an item: success, retrying with one more attempt while retries are left, else failed; no status but its own and its successor's changes |
| FlowQueue.HandledAnnounced | backend/worker.py:226-240 | the list of recent updates shows that the item was running before |
| FlowQueue.HandledRows | backend/worker.py:278-348 | the item's row ends running or completed as far as the execution came; a successor's row is assigned and its item recorded as queued |
| FlowQueue.RefusedExactly | backend/worker.py:214-225 | an item of a flow or loop is refused, with nothing changed, exactly when it does not carry its row's own ownership context |
| FlowQueue.IdsKept | backend/queue.py:25-53 | a successor's item gets an id that has not been handed out before, a retry keeps its item's id, and no two queued items share one |
| FlowQueue.PastStays | backend/queue.py:68-95 | what is on record of an item that has left the queue stays through every drain |
| FlowDelivery.CostLeft | backend/queue_worker.py:24-35 | with the event delivered up to three more times, each delivery still uses up at least one unit of what is left, and exactly one when it fails late |
| FlowDelivery.RunBounds | backend/worker.py:201-211 | in whatever order task queue and event queue are worked off, deliveries and created rows stay within the sums over what is on its way, and reach them when everything fails late |
| FlowDelivery.RunLength | backend/worker.py:705-720 | when nothing fails every item and every successor is delivered once |
| FlowDelivery.Drain | backend/worker.py:705-720 | from any state both queues can be emptied, with any outcome throughout |
| FlowDelivery.FlowDeliveries | backend/worker.py:201-275 | through both queues a flow of n steps takes at most (8^(n+1)-8)/7 deliveries and (8^n-1)/7 rows, both reached by late failures, and n of each when nothing fails |
| FlowDelivery.RunKeepsPlan | backend/worker.py:528-624 | in whatever order the two queues are worked off and whatever fails, every row created is the next step of its parent's flow, or its parent's one feedback row |
| FlowDelivery.FlowDeliveredInOrder | backend/worker.py:581-624 | while nothing fails, what has been delivered of a flow is the work of its first steps, once each and in order, and of all its steps once both queues are empty |
| FlowHandoff.LostExactly | backend/worker.py:172-187 | the item of a daily flow is lost exactly when its first delivery and all three redeliveries come before the commit of its row has taken effect, late or never |
| FlowHandoff.Fate | backend/worker.py:214-225 | until it is let in, the item is on its way exactly once, carrying the number of times it was refused |
| FlowHandoff.LetInIffCommitted | backend/task_center_ownership.py:65-88 | a delivery of the item is let in exactly when the commit of its row has taken effect |
| FlowHandoff.LostFlowNeverRuns | backend/worker.py:124-196 | a lost flow stays lost: its row, committed or not, is never anything but assigned |
| FlowHandoff.FlowLost | backend/worker.py:172-187 | a run in which four deliveries overtake the commit, which then leaves an assigned row and nothing queued for it |
| Ownership.OwnedIffOwnContext | backend/task_center_ownership.py:49-88 | a claim opens a row exactly when it is that row's own complete ownership context |
| Ownership.OpensExactly | backend/task_center_ownership.py:49-88 | a claim opens a row exactly when it repeats the row's record with all five fields there and neither text empty |
| Ownership.BoundIsOwned | backend/task_center_ownership.py:57-62 | binding succeeds exactly for a complete parent, copies five fields, drops the canonical run, and the child is opened by its own context |
| Ownership.SelectSources | backend/worker.py:86-118 | a scope is kept exactly when some complete source claims it, every such source is confirmed by its active requester on all five fields, and all contexts are equal; the lowest id is kept |
| Ownership.TrustedExactly | backend/worker.py:86-118 | what a kept scope takes, field by field: a whole claim, and every whole claim names a requester whose scope resolves to its five fields now, and all have one record |
| Ownership.DropAll | backend/worker.py:117-118 | drops exactly the discredited scopes |
| DailyScheduler.OneTaskPerDayAndScope | backend/worker.py:124-196 | over every interleaving of scheduler workers, with errors, lost commit replies and crashes anywhere, a day and scope has at most one daily flow up to the first state in which a section has outlived its key while its slot has no flow |
| DailyScheduler.OverstayingCanDuplicate | backend/worker.py:124-196 | from that state on any other worker can bring about a second flow, whatever the section that overstays is about to do, with no error and no crash but that of a busy worker |
| DailyScheduler.CommittedStays | backend/worker.py:124-196 | nothing ever takes a committed daily flow back |
| DailyScheduler.OverstayingDuplicates | backend/worker.py:124-196 | a run with a section that outlives the key commits two |
| DailyScheduler.CrashLosesTheSlot | backend/worker.py:124-196 | while a key is live and nobody works under it, nobody enters the section, creates the flow or frees the key |
| DailyScheduler.KeyMoves | backend/worker.py:124-196 | a key is set for 36 hours where none is live, marked for 36 hours by a worker that has found or enqueued the flow, deleted after a rollback and otherwise left alone; only a commit adds a flow |
| DailyScheduler.CommitClosesTheSlot | backend/worker.py:186-187 | once a flow is committed, nobody enters the section, frees the key or adds a flow until the mark expires |
| ExecutionLock.MutualExclusion | backend/execution_engine.py:228-251 | no two workers are inside the execution section of one row, Redis errors and crashes included, up to the first state in which a holder has outlived its lock |
| ExecutionLock.OverstayingBreaksExclusion | backend/execution_engine.py:228-251 | from that state on any other worker can be brought into the section beside the holder, whether it is executing, about to GET or about to DELETE, with no error and no crash but that of a busy worker |
| ExecutionLock.HeldStep | backend/execution_engine.py:228-251 | every worker that has acquired holds the key of its row, alone, until it has released it |
| ExecutionLock.LateReleaseBreaksExclusion | backend/execution_engine.py:243-251 | a run with distinct owner names and no error in which a late DELETE removes the lock of the next holder and lets a third worker in |
| ExecutionLock.OrphanBlocksUntilExpiry | backend/execution_engine.py:228-240 | a lock nobody works under blocks every start until it expires and is not touched |
| ExecutionLock.ExpiredLockIsTaken | backend/execution_engine.py:228-240 | an attempt succeeds exactly when no live lock is there |
| ExecutionLock.KeyMoves | backend/execution_engine.py:228-251 | a key is set for ten minutes where none is live, deleted only by a worker past its GET, and otherwise left alone |
| ExecutionLock.AnothersKeyIsLeft | backend/execution_engine.py:243-251 | a GET that shows another's name ends the release with the key as it is |
| ExecutionLock.DeletesWhatItRead | backend/execution_engine.py:243-251 | in every run a key is deleted only by a worker whose last GET showed it nothing or its own name |
| ExecutionEngine.Engine.EnqueueExecutionTask | backend/execution_engine.py:69-99 | refuses with the first failing check, for want of approval exactly if the text has a risky word and not both approvals are there; else queues the item with its ownership and logs it; a failing push is reported and not logged, whether or not the item got through |
| ExecutionEngine.Engine.StartTaskExecution | backend/execution_engine.py:146-171 | only an assigned row with an employee becomes running, with one log, and one whose text has a risky word only with boss confirmation and audit |
| ExecutionEngine.Engine.CompleteTaskExecution | backend/execution_engine.py:174-207 | only a running or waiting row completes or waits, with its log and, on completion, its result row |
| ExecutionEngine.Engine.FailTaskExecution | backend/execution_engine.py:210-225 | any row becomes failed, with the error text redacted |
| ExecutionEngine.Engine.ProcessNextExecutionTask | backend/execution_engine.py:114-143 | pops, checks ownership and lock, starts and completes; whatever is raised, by the start checks or at any commit, fails the row if that can be recorded |
| ExecutionEngine.Engine.WriteExecutionLog | backend/execution_engine.py:277-305 | one sanitised log row |
| ExecutionEngine.LedgerAlways | backend/execution_engine.py:146-225 | over any sequence of engine calls the status rank never falls, there is at most one start log, one completion log and one result row, and the last log has the row's status |
| ExecutionEngine.ResultsAlwaysLogged | backend/execution_engine.py:184-201 | every result row holds the value its completion log holds, although one was sanitised once and the other twice |
| ExecutionEngine.ProcessVerdict | backend/execution_engine.py:114-143 | without trouble an admitted item ends its row completed exactly when it could be started, else failed, a completed one included; with trouble it ends failed, or where it had come to if the failure cannot be recorded |
| ExecutionEngine.RiskyNeedsApproval | backend/execution_engine.py:258-274 | over any sequence of engine calls, a row whose title, description or priority spells one of the 17 words at any position and in any letter case is neither queued with both approvals nor started before a claim or start of it has brought both |
| ExecutionEngine.StartsExactly | backend/execution_engine.py:146-171 | a call starts a row exactly if it is assigned, has an employee, and its text has none of the words or both approvals are there; for an item off the queue also exactly if it is let in and nothing breaks off before; a call that does not start it never gets it as far as running |
| ExecutionEngine.QueuesExactly | backend/execution_engine.py:69-99 | an item is queued exactly by a claim that may start the row, with complete ownership and a push that got through; it carries the row's ownership and the approvals of the claim |
| Redaction.AnyLetterCaseIsRedacted | backend/execution_engine.py:363-370 | a sensitive word anywhere in a text, in any letter case, replaces the whole text |
| Redaction.SanitizeIsClean | backend/execution_engine.py:350-360 | the sanitised form of every JSON tree holds no key and no string with a sensitive word |
| Redaction.UnchangedIffClean | backend/execution_engine.py:350-360 | a tree is left alone exactly when it was clean |
| Redaction.OtherEntriesKept | backend/execution_engine.py:350-360 | under keys that are not sensitive the sanitised value is kept, and no other key appears |
| Redaction.SanitizeTwice | backend/execution_engine.py:277-305 | sanitising is idempotent |
| Redaction.RedactTwice | backend/execution_engine.py:363-370 | redacting a text is idempotent |
| AgentRuntime.ExecutionService.CreateExecution | backend/agent_runtime/service.py:229-284 | a pending row waits for approval; any other row and its first attempt are committed together, or not at all if the attempt raises |
| AgentRuntime.ExecutionService.ApproveExecution | backend/agent_runtime/service.py:287-311 | approves what the session has read as waiting, over whatever is stored by then, and runs the flow |
| AgentRuntime.ExecutionService.RejectExecution | backend/agent_runtime/service.py:314-339 | any row becomes rejected; columns the session read as rejected already are not written |
| AgentRuntime.ExecutionService.CancelExecution | backend/agent_runtime/service.py:342-369 | succeeds exactly if the session has read the execution as unvalidated, waiting, running or rejected, and leaves it cancelled |
| AgentRuntime.CancelVerdict | backend/agent_runtime/service.py:342-369 | what was read as succeeded, failed, cancelled or timed out is not cancelled; every other status is, a running and a rejected one too, with a pending approval refused and one audit event |
| AgentRuntime.DecisionVerdict | backend/agent_runtime/service.py:287-339 | only what was read as waiting for approval or not yet validated is approved; anything is rejected |
| AgentRuntime.RequestDecides | backend/agent_runtime/service.py:287-369 | read and written with nothing in between, each request leads from every status to the one it should |
| AgentRuntime.CreatedVerdict | backend/agent_runtime/service.py:229-284 | the row, audit events and going-on session that a creation leaves, for every outcome of the first attempt |
| AgentRuntime.AttemptVerdict | backend/agent_runtime/service.py:402-534 | a session goes on from a row read waiting for execution or running, calls the executor once, and commits two audit events with the columns that success, timeout, retryable failure with retries left, or other failure call for; only a retry reads again |
| AgentRuntime.WaitsExactly | backend/agent_runtime/service.py:402-534 | a commit waits exactly while another session that read the row waiting for execution has called the executor |
| AgentRuntime.ExecutionService.RunExecutionFlow | backend/agent_runtime/service.py:402-534 | the recursive retry decides its first attempt on what the session has read and every other on what it committed; an exception leaves the last commit |
| AgentRuntime.ExecutionService.Rollback | backend/agent_runtime/service.py:402-534 | the session's row falls back to what is committed, calls made stay made |
| AgentRuntime.ReplaysExactly | backend/agent_runtime/service.py:250-534 | a commit on a row that its audit log replays to leaves such a row exactly unless it overwrites what it has not read: a rejection that found a column refused, a cancellation of an approval, a retry of a moved count |
| AgentRuntime.OnlyStaleCommitsDiverge | backend/agent_runtime/service.py:287-534 | a session that commits over the row it has read never does so |
| AgentRuntime.AuditReplaysToRow | backend/agent_runtime/service.py:250-534 | over any interleaving of reads, checks, calls and commits of any number of sessions, replaying the audit events gives status, approval status and retry count at every commit point before the first such commit, and no longer after it |
| AgentRuntime.CancelledApprovalDiverges | backend/agent_runtime/service.py:342-369 | a run in which a cancellation overwrites an approval granted since it read the execution |
| AgentRuntime.ExecutorCalledOnlyWhenOpen | backend/agent_runtime/service.py:402-440 | unless a commit reopens an ended execution, the executor is called only for one read as released and without a final event; the call comes after a final event exactly when a rejection or cancellation was committed in between |
| AgentRuntime.ReopenedExactly | backend/agent_runtime/service.py:287-534 | a step takes an execution out of a final status exactly if it is an approval, or a retry of an attempt that read the execution waiting |
| AgentRuntime.ReopenedIsRun | backend/agent_runtime/service.py:402-440 | after the first such commit the same session passes the status check with a final event in the log |
| AgentRuntime.RetryReopensCancelled | backend/agent_runtime/service.py:496-534 | a run in which a retry makes a cancelled execution run again |
| AgentRuntime.CallsBounded | backend/agent_runtime/service.py:402-534 | while no approval commits twice: at most max(0, max_retries)+1 executor calls, committed starts equal retries plus ends, and at most one end |
| AgentRuntime.SecondApprovalExceeds | backend/agent_runtime/service.py:287-311 | from the first approval that commits a second time, executor results alone lead past that bound |
| AgentRuntime.LateApprovals | backend/agent_runtime/service.py:287-311 | an approval is such a one only if the row has left the waiting states since it was read; one on a row still waiting keeps every property, and a late one approves twice, reopens an ended execution, or finds no call made |
| AgentRuntime.TwoApprovalsCallTwice | backend/agent_runtime/service.py:287-311 | a run of two approvals that read the same waiting row and, with no retry allowed, call the executor twice, the second time after success |
| AgentRuntime.EndedStaysEnded | backend/agent_runtime/service.py:287-369 | unless a commit reopens it, an ended execution stays ended, keeps its audit log as a prefix, and nobody who had not passed the status check before decides to call the executor |
| AgentRuntime.SuccessLeftExactly | backend/agent_runtime/service.py:314-534 | a step takes a success away exactly if it is a decision that changes the status its session read, or an unsuccessful attempt other than a retry that read the execution running |
| AgentRuntime.SuccessStaysExactly | backend/agent_runtime/service.py:314-369 | while nobody approves twice, a success stays one in every later state exactly if no rejection (but by a session that read one) and no cancellation is committed |
| AgentRuntime.OnlyDecisionsDiscard | backend/agent_runtime/service.py:342-369 | such a cancellation read the execution before it succeeded |
| AgentRuntime.SuccessCanBeRejected | backend/agent_runtime/service.py:314-339 | success is not final |
| AgentRuntime.SuccessCanBeCancelled | backend/agent_runtime/service.py:342-369 | a run in which a cancellation overtakes a success |
| AgentRuntime.SuccessCanBeOverrun | backend/agent_runtime/service.py:402-534 | a run in which the failure of a second attempt overwrites a success |
| AgentRuntime.FlowSound | backend/agent_runtime/service.py:402-534 | when nobody else commits, the retry recursion ends in success, timeout or failure with started events equal to retry events plus one |
| AgentRuntime.FlowReturnsExactly | backend/agent_runtime/service.py:402-534 | the recursion returns exactly if it was allowed to run and the execution has ended |
| AgentRuntime.FlowOnVerdict | backend/agent_runtime/service.py:402-534 | for a row read earlier: nothing happens unless it was read waiting for execution or running, an exception leaves what was committed, and else what was read decides the first attempt and what was committed the next ones |
| AgentRuntime.MockFlow | backend/agent_runtime/executor.py:19-89 | the mock's retry mode makes exactly two calls and succeeds when a retry is allowed; each other mode makes one |
| AlphaRuns.MatchesOnlyItsIdentity | backend/alpha_workflow/service.py:589-612 | a stored context answers exactly the identity it was written with, and only a normalised non-empty one |
| AlphaRuns.NormalisedTwice | backend/alpha_workflow/service.py:505-509 | normalising again changes nothing exactly when the scenario is not empty |
| AlphaRuns.RecoveredAtMostOnce | backend/alpha_workflow/service.py:1199-1311 | over any run of start, pipeline, read, recover and cancel steps a run has at most one workflow_recovered event, exactly when it is recovered, until a request commits on a row it read before the recovery; that adds a second event or cancels the recovered run |
| AlphaRuns.AgreesNext | backend/alpha_workflow/service.py:1199-1311 | step by step: the event agrees with the recovery status exactly unless the step is such a commit |
| AlphaRuns.OvertakenRuns | backend/alpha_workflow/service.py:1545-1560 | both such commits happen: a cancel that read the run while it was running, and a second recovery that read it failed |
| AlphaRuns.RecoveredStays | backend/alpha_workflow/service.py:1221-1234 | a step changes a recovered run exactly if it commits on an overtaken read, damage aside |
| AlphaRuns.RecoveredIsForever | backend/alpha_workflow/service.py:1221-1234 | while no request commits on an overtaken read, 已恢复 is never left and only damage touches the context |
| AlphaRuns.RecoveryIsIdempotent | backend/alpha_workflow/service.py:1221-1234 | the same stripped reason is answered again without a change, every other one conflicts without a change |
| AlphaRuns.RecoveryIsAnsweredForever | backend/alpha_workflow/service.py:1221-1234 | whatever calls come in between, the reason a run was recovered with is answered and any other conflicts |
| AlphaRuns.RecoveryTraceIdentifies | backend/alpha_workflow/service.py:1203-1213 | recovery traces are equal exactly for the same run and the same stripped reason |
| AlphaRuns.RecoveryTraceAsRunTrace | backend/alpha_workflow/service.py:494-542 | a start request gets a recovery's trace exactly when the client asked for that text |
| AlphaRuns.RecoveryTraceCanBeAskedFor | backend/alpha_workflow/service.py:494-502 | and such a request is accepted |
| AlphaRuns.AutoTracesAgree | backend/alpha_workflow/service.py:527-542 | two requests of one scope that bring no trace get the same one exactly when their identities are equal |
| AlphaRuns.TraceVerdict | backend/alpha_workflow/service.py:494-542 | a given trace is taken without the blanks around it, and refused exactly if nothing or more than 114 characters are left; without one the request gets the digest of its scope and identity |
| AlphaRuns.OnlyFailedRunsRecover | backend/alpha_workflow/service.py:1235-1236 | a run that can be recovered has failed and is no longer in the pipeline, so compensation never follows recovery |
| AlphaRuns.RecoverAgrees | backend/alpha_workflow/service.py:1219-1236 | a recovery that decides on a row read earlier writes a second recovered event exactly when the run was recovered in between |
| AlphaRuns.StoredRun.Recover | backend/alpha_workflow/service.py:1199-1311 | completes exactly a run read as failed or paused and not recovered, with the dependencies enabled; answers, conflicts or refuses as the recovery rule says |
| AlphaRuns.StoredRun.Cancel | backend/alpha_workflow/service.py:1545-1560 | leaves a run read as completed, failed, cancelled or terminated alone; one read as running or paused is cancelled with the given or the default reason |
| AlphaRuns.CancelVerdict | backend/alpha_workflow/service.py:1545-1560 | a run read as completed, failed, cancelled or terminated is not changed; one read as running or paused becomes cancelled with the given reason, or the default one for an empty reason, and gets one event |
| AlphaRuns.RecoverVerdict | backend/alpha_workflow/service.py:1221-1311 | a recovery changes the run exactly if it read it failed or paused and not recovered, with the dependencies enabled; it is then completed, with the stripped reason and its trace in the context that was read |
| AlphaRuns.FailedStays | backend/alpha_workflow/service.py:1545-1547 | damage aside, a failed run awaiting recovery is changed exactly by a recovery that may, or a cancellation that read it while it was running |
| AlphaRuns.FailedCanBeRecovered | backend/alpha_workflow/service.py:1235-1311 | through all other steps it stays as it is, and whoever then reads it recovers it |
| AlphaRuns.PipelineVerdict | backend/alpha_workflow/service.py:796-1183 | a run starts running with its request in the stored context; only the request inside the pipeline adds stages, completes it or fails it, and writes its own context back; once that has returned, failed or crashed the pipeline touches the run no more |
| AlphaRuns.CompletedOnce | backend/alpha_workflow/service.py:1033-1089 | in every run there is at most one workflow_completed event, and there is one whenever the run is completed without a recovery |
| AlphaRuns.SameRequestSameRun | backend/alpha_workflow/service.py:1033-1047 | in every state of a run (running, completed, failed, cancelled, recovered) re-requesting its well-formed identity matches it and any other identity does not, unless its stored context was damaged from outside |
| AlphaRuns.DamagedRunAnswersNoOther | backend/alpha_workflow/service.py:589-612 | with damage it still matches no other identity, and its own exactly while the stored request is there |
| AlphaRuns.RecoveryOfDamagedContextForgets | backend/alpha_workflow/service.py:1238-1283 | recovering a run whose context does not parse loses the request identity |
| AlphaRuns.AlphaWorkflowContext.SetStage | backend/alpha_workflow/context.py:69-94 | appends one span and the matching history entry, numbers it by its position and makes it the current stage |
| AlphaStart.ResolveByIdentities | backend/alpha_workflow/service.py:214-253 | the two loops return none exactly when no visible run has any of the identities, a run exactly when one has all of them, else a conflict |
| AlphaStart.ResolutionIsUnique | backend/alpha_workflow/service.py:214-253 | that answer is determined by the visible runs |
| AlphaStart.OneRunPerTraceAndGraph | backend/alpha_workflow/service.py:719-820 | in every interleaving of start requests there is at most one run per trace and per orchestrator graph, and it is its graph's canonical run |
| AlphaStart.VisibleIff | backend/alpha_workflow/service.py:550-564 | a run is visible exactly to the scope it was created in, provided the planner's cleaning leaves its trace unchanged |
| AlphaStart.RepeatedRequest | backend/alpha_workflow/service.py:643-656 | a request whose scope already has a run for its trace is answered with it exactly if it is the same request, else conflicts; a redacted trace is not found |
| AlphaStart.TraceTaken | backend/alpha_workflow/service.py:793-820 | once a trace has a run, no request for that trace creates another |
| AlphaStart.RedactedTraceNeverReturns | backend/brain_orchestrator/planner.py:144-145 | a later request for a redacted trace ends in a conflict or an error, never with the run |
| AlphaStart.RedactedTraces | backend/tool_center/gateway.py:258-265 | cleaning leaves a trimmed trace unchanged exactly when it contains no sensitive word |
| AlphaStart.LockedResolve | backend/alpha_workflow/service.py:719-733 | under the lock, the resolver never finds a run after a lookup that found none |
| AlphaStart.LockedRetry | backend/alpha_workflow/service.py:802-820 | under the lock, neither does the second resolution after a violated constraint |
| AlphaStart.OnlyOwnRunsAnswer | backend/alpha_workflow/service.py:638-656 | with the advisory lock a request is only ever answered with a run created for the same scope, trace and request identity |
| AlphaStart.EndedStays | backend/alpha_workflow/service.py:693-820 | what a request has ended with is final |
| AlphaStart.LookPossibleIff | backend/alpha_workflow/service.py:545-547 | under the lock a request can look exactly while no other one of its scope and trace is between its lookup and its commit |
| AlphaStart.ResolutionVerdict | backend/alpha_workflow/service.py:719-820 | a visible run with all four identities answers and one with some of them conflicts; with none the first resolution goes on to the insert, and the one after a violated constraint fails if the trace was taken and conflicts otherwise |
| AlphaStart.InsertVerdict | backend/alpha_workflow/service.py:793-820 | an insert is blocked exactly if a run of any scope has one of its four identities, fails if the graph has been taken otherwise since, and else adds the run and binds its graph |
| AlphaStart.ForeignAnswerWithoutLock | backend/alpha_workflow/service.py:719-733 | without it, a run in which a request is answered with the run of a different request |
| AlphaStart.WithoutTracesSameRunIffSameRequest | backend/alpha_workflow/service.py:524-542 | two requests of one scope that bring no trace end with the same run exactly when they are the same request |
| AlphaStart.RecoveryTraceIsStarted | backend/alpha_workflow/service.py:633-690 | an execution in which a new run gets the trace of a recovery |
| AlphaSaga.CompensationUndoesEverything | backend/alpha_workflow/service.py:822-1183 | a failure after any step leaves, of all artefact tables, exactly the rows of before the run less those keyed by a cached id |
| AlphaSaga.FreshIdsLeaveNoTrace | backend/alpha_workflow/service.py:822-1183 | with ids nobody had used, the artefact tables are as before the run |
| AlphaSaga.OthersAreUntouched | backend/alpha_workflow/service.py:101-127 | no row keyed to other ids changes, and no row a cached id reaches is left |
| AlphaSaga.FailedRun | backend/alpha_workflow/service.py:130-211 | the events committed so far are kept and one is added, the run is failed and awaits recovery, the agent execution is failed with one execution_failed audit exactly when its id was cached, the work item is rejected exactly when it was linked |
| AlphaSaga.EventsAfter | backend/alpha_workflow/service.py:822-1089 | which events of the run are written and which are committed after every instruction |
| AlphaSaga.CompensatedAgain | backend/alpha_workflow/service.py:130-211 | compensating once more adds an event and nothing else |
| AlphaSaga.ExecutionMissedByCompensation | backend/alpha_workflow/service.py:367-406 | between commit and caching the execution stays completed |
| AlphaSaga.EveryFailureIsCompensated | backend/alpha_workflow/service.py:1091-1145 | whichever instruction fails after the run exists, and whatever its identities resolve to, the failure is compensated: no later statement can violate an identity column |
| AlphaSaga.ResolvesToItself | backend/alpha_workflow/service.py:1134-1142 | a visible run's own identities resolve to it and to no other |
| AlphaSaga.ChunksAfter | backend/alpha_workflow/service.py:907-927 | after every step each committed chunk has a version, which the delete by cascade relies on |
| AlphaSaga.WorkflowSession.CleanupArtifacts | backend/alpha_workflow/service.py:101-127 | the sequence of deletes with its cascades removes exactly the rows reached by the cached ids |
| AlphaSaga.WorkflowSession.CompensateFailure | backend/alpha_workflow/service.py:130-211 | rolls back what is pending and commits exactly the compensated state |
| AlphaSaga.WorkflowSession.Delete | backend/alpha_workflow/service.py:110-127 | one DELETE by key with its foreign-key cascades |
| AlphaSaga.VersionDeleted | backend/alpha_workflow/service.py:110-127 | deleting a version takes its chunks and tag relations along, and changes nothing where there is no version |
| AlphaSaga.ParentDeleted | backend/alpha_workflow/service.py:101-127 | deleting a research source, a research execution or a knowledge asset takes exactly what the schema cascades to |
| AuthorizationEpochs.OneLoopOneFingerprint | frontend/rbac-navigation.js:194-254 | in every reachable state an epoch has at most one activation loop, which has inserted a prefix of the protected scripts once each in document order, and all identities accepted in it share one fingerprint |
| AuthorizationEpochs.InsertsOnlyWhileAuthorized | frontend/rbac-navigation.js:194-222 | a script is inserted only while authorized, and only if no reset has happened in the whole time since its loop began |
| AuthorizationEpochs.StaleLoopIsSilent | frontend/rbac-navigation.js:205-218 | a loop overtaken by a reset inserts nothing more and never finishes, however its fetches end |
| AuthorizationEpochs.ResetLeavesNothing | frontend/rbac-navigation.js:160-167 | the epoch changes only by a reset, by one; it leaves no listener, action or pending action, and none appears before the next accepted identity |
| AuthorizationEpochs.AllowedMeansActivated | frontend/rbac-navigation.js:223-246 | a guard that answers "allowed" was preceded by the insertion of every protected script by the loop of its own epoch |
| AuthorizationEpochs.CurrentExactly | frontend/rbac-navigation.js:223-229 | a guard's epoch is the current one exactly when nothing has been reset since it began |
| AuthorizationEpochs.AuthorizedExactly | frontend/rbac-navigation.js:235-250 | the page is authorized exactly when an identity has been accepted since the last reset and no revalidation has withdrawn it since; whose identity that is says AuthorizedByPermission |
| AuthorizationEpochs.IdentityVerdict | frontend/rbac-navigation.js:223-246 | a guard whose identity cannot be read, may not open the page or is not that of the session, or that a reset has overtaken, answers "not allowed" and leaves a new epoch with nothing authorized; every other one goes on to activation with the page authorized |
| AuthorizationEpochs.AuthorizedByPermission | frontend/rbac-navigation.js:223-237 | whenever the page is authorized or a script is inserted, an identity check of this very epoch has read a user who may open the page, and the fingerprint in use is that user's |
| AuthorizationEpochs.LoopVerdict | frontend/rbac-navigation.js:194-222 | when a loop waits, inserts a script, ends well or fails, and that the page is activated only by a loop that ends in its own epoch |
| AuthorizationEpochs.AwaitVerdict | frontend/rbac-navigation.js:238-245 | a guard goes on when the loop it awaits has ended, and answers "allowed" exactly if that ended well |
| AuthorizationEpochs.AllowedExactly | frontend/rbac-navigation.js:238-243 | an answer "allowed" is about the current session exactly when no reset has happened since its guard began; the page is then authorized exactly when no revalidation has withdrawn that |
| AuthorizationEpochs.RevalidationIsSingleFlight | frontend/rbac-navigation.js:247-254 | at most one guard started by a revalidation is unanswered at a time |
| AuthorizationEpochs.PromiseOutlivesExactly | frontend/rbac-navigation.js:194-222 | while no identity is accepted there is a promise exactly when the last reset fell in the first synchronous stretch of a loop that has ended it since |
| AuthorizationEpochs.PromiseAfterResetIsDead | frontend/rbac-navigation.js:194-222 | such a promise belongs to an older epoch and never resolves |
| AuthorizationEpochs.DeadPromiseDenies | frontend/rbac-navigation.js:194-196 | the next guard whose identity is accepted starts no loop, waits for that promise and never answers "allowed" |
| AuthorizationEpochs.DynamicIdIsFresh | frontend/rbac-navigation.js:147-153 | the next dynamic id belongs to nothing another dynamic registration made, and to a live action exactly when that was registered by hand under this very id since the last reset |
| AuthorizationEpochs.DynamicIdTakesStaticOne | frontend/rbac-navigation.js:126-158 | a run in which a flush overwrites an action registered by hand, and a later one deletes it |
| AuthorizationEpochs.AllowedAfterReset | frontend/rbac-navigation.js:223-246 | a run in which a logout queued by an inserted script falls between the end of a loop and the guard that awaits it, which answers "allowed" |
| AuthorizationEpochs.PromiseOutlivesReset | frontend/rbac-navigation.js:194-222 | a run in which activationPromise is assigned after the reset that cleared it |
| AuthorizationEpochs.Navigation.ResetActions | frontend/rbac-navigation.js:160-167 | clears authorization and registry and moves to the next epoch |
| AuthorizationEpochs.Navigation.EnsureEvent | frontend/rbac-navigation.js:114-119 | one listener per business event, refused before authorization |
| AuthorizationEpochs.Navigation.RegisterAction | frontend/rbac-navigation.js:120-125 | registers a valid action with its listener while authorized, else changes nothing |
| AuthorizationEpochs.Navigation.RegisterDynamicAction | frontend/rbac-navigation.js:147-153 | makes a numbered pending action while authorized, else changes nothing |
| AuthorizationEpochs.RegistrationVerdict | frontend/rbac-navigation.js:120-153 | registration succeeds exactly while authorized, for a non-empty id of ASCII letters, digits and dashes and a click, change or input event |
| AuthorizationEpochs.Navigation.FlushDynamicActions | frontend/rbac-navigation.js:126-138 | pending actions on the page become live, vanished dynamic ones go, every other action stays, and nothing stays pending |
| AuthorizationEpochs.Navigation.DispatchAction | frontend/rbac-navigation.js:103-113 | reaches exactly the binding for this event nearest to the target, and none unless authorized |
| AuthorizationEpochs.Navigation.RevalidateAuthorization | frontend/rbac-navigation.js:247-263 | withdraws authorization and starts a guard, unless there is nothing to revalidate, one is on its way, or the event does not ask for it |
| AuthorizationEpochs.RevalidationVerdict | frontend/rbac-navigation.js:247-263 | a page shown again, a focus or a change of one of the four credentials, or of all storage, starts a guard if an identity is known and none is on its way; nothing else does anything |
| AuthorizationEpochs.SettleVerdict | frontend/rbac-navigation.js:252 | the next revalidation can start once that guard has answered, and not before |
| Migration0044.AcceptedRow | alembic/versions/0044_tenant_company_store_authorization_scope.py:162-186 | what the guard's WHERE clause lets through in three-valued logic, for each kind of user and manager |
| Migration0044.OnlyOrphansAreLost | alembic/versions/0044_tenant_company_store_authorization_scope.py:162-196 | of everything the guard accepts, exactly the memberships of unprivileged users in stores without manager are lost; the rest comes back unchanged and nothing is invented |
| Migration0044.MembershipsSurvive | alembic/versions/0044_tenant_company_store_authorization_scope.py:120-196 | for every accepted database, downgrade then upgrade gives the same memberships exactly when no such membership exists |
| Migration0044.AcceptsExactly | alembic/versions/0044_tenant_company_store_authorization_scope.py:137-196 | the guard accepts a database exactly if its store codes are unique and a downgrade and upgrade lose no tenant code, no pair of tenant and company code, no log's store and no membership but plain ones of orphans |
| Migration0044.CodesSurvive | alembic/versions/0044_tenant_company_store_authorization_scope.py:140-160 | what it accepts has only the default tenant and company, as before and after; every user and store is in them before and after; and the downgraded database is a valid one |
| Migration0044.PlacesNeverDecide | alembic/versions/0044_tenant_company_store_authorization_scope.py:140-160 | where tenants and companies are the default ones, the foreign keys have put every user and store there, so the guard's tests on users and stores never decide |
| Migration0044.ScopeSurvives | alembic/versions/0044_tenant_company_store_authorization_scope.py:137-196 | the whole scope survives exactly when in addition the default tenant and company rows are as seeded |
| Migration0044.FreshUpgradeIsAccepted | alembic/versions/0044_tenant_company_store_authorization_scope.py:137-196 | the guard accepts every database straight after its upgrade, and the downgrade then restores it |
| Migration0044.UpgradeIsDetermined | alembic/versions/0044_tenant_company_store_authorization_scope.py:20-133 | a database has one upgrade |
| Migration0044.GuardMissesAnOrphan | alembic/versions/0044_tenant_company_store_authorization_scope.py:162-196 | an accepted database whose full membership no upgrade of the downgraded one brings back |
| Migration0044.Database.Upgrade | alembic/versions/0044_tenant_company_store_authorization_scope.py:20-133 | the statements in order make exactly the upgrade of the database |
| Migration0044.Database.Insert | alembic/versions/0044_tenant_company_store_authorization_scope.py:120-133 | an insert that does nothing on conflict adds the new keys and keeps every row that is there |
| Migration0044.Database.Downgrade | alembic/versions/0044_tenant_company_store_authorization_scope.py:136-196 | raises with nothing changed exactly when the guard refuses (AcceptsExactly says when that is), else drops the scope, which then had no tenant and no company but the default ones |

## Left out

- AgentRuntime.AuditReplaysToRow: a session reads the row once before it decides, and again after each commit; reads that a database isolates from each other's commits in other ways, and the research-persistence branch, which raises without a commit, are not modelled.
- AlphaSaga.CompensationUndoesEverything: the research, knowledge and skill helpers either do all they do or nothing (a failure of their own refresh after their own commit is not modelled), the session user is bound, and the compensation itself does not fail.
- AlphaSaga.CompensationUndoesEverything: skills, installations, capabilities and audit rows of the skills engine that a failed run leaves behind are not artefacts keyed by the run and are not modelled.
- AlphaStart.OneRunPerTraceAndGraph: an insert and its commit are one step, so requests that wait on each other's uncommitted rows are not told apart from requests that come later; the semantic hash of a graph is left to the planner.
- AlphaRuns.RecoveredAtMostOnce: whether the second read of a recovery, under its lock, is fresh depends on the database session's cache; here a recovery decides on any row it has read, the current one included.
- AlphaRuns.SameRequestSameRun: mid-pipeline commits are told apart only by whether they write the context; scores, reports and timestamps of a run are not modelled. The audit entry that cancel adds after its commit is never committed by it and is not modelled.
- AuthorizationEpochs.InsertsOnlyWhileAuthorized: a loop may be interrupted between any two scripts and a guard between the end of its loop and its continuation, by anything; the browser's microtask order would exclude some of these runs. Drawing, navigation links and the abort of fetches are not modelled beyond a fetch that may end in any way at any time.
- DailyScheduler.OneTaskPerDayAndScope: a worker may take any scope next, not only the next in sorted order, and clocks agree.
- EventWorkers.Conservation: a result whose completion could not be recorded is not carried into the retry here, as it is in EventQueue.
- EventQueue.OrchestratorQueue.ProcessNextEvent: executors that push further events, the expiry of status keys and Redis errors between two commands of one call.
- FlowQueue.FlowBounds: counts what the handler does with each queued item; the worker reaches the handler through the orchestrator's event queue, which delivers again what raised, and with it the bounds are those of FlowDelivery.FlowDeliveries.
- FlowQueue.Worker.HandleTaskDirect: collectors, analysis and decision texts, employee logs and normalisation of employee codes; a failure of what the handler does about an exception (its commit, the requeue), here and in FlowDelivery.
- FlowDelivery.FlowDeliveries: the orchestrator's review lets every event of the worker through, and its queue gives every event to this handler.
- FlowHandoff.LostExactly: a delivery is one step; its look at the row and what it does with it are not told apart.
- ExecutionEngine.LedgerAlways: engine calls are serial here and the lock is ExecutionLock; start, complete and fail called by an operator either commit or do nothing; rows changed by other parts of the platform between two calls, and an operator's complete or fail that releases a lock it never took, are not modelled. The log's input summary is not modelled.
- Redaction.SanitizeIsClean: lower-casing is modelled as far as it can produce an ASCII letter.
- Migration0044.ScopeSurvives: ids of membership rows, indexes and server defaults.
- Tokens, password hashing, HTTP routing, pages and the `redact_url` of the agent audit, which is not idempotent.
