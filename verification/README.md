# Agent platform: a verified model

The platform runs LLM agents. A gateway limits request rates; a Go queue hands tasks to workers; an
agent runtime drives each execution through rounds of inference and tools; a router picks a model
for every inference and remembers sessions; an inference service walks a provider route behind a
circuit breaker. This project models the parts of those services where state and concurrency meet,
and proves what they keep in every run.

| file | models |
|---|---|
| `Lifecycle.dfy` | execution state machine, execution and step operations |
| `ToolBudget.dfy` | admission of a tool batch against three budgets |
| `ToolPool.dfy` | the semaphore-bounded tasks of a batch and their join |
| `RunTrace.dfy` | what a run leaves behind: steps, events, records, as values |
| `RunLoop.dfy` | the agent's run loop, batch by batch, to its terminal event |
| `Approval.dfy` | the approval book and the gate it holds shut |
| `Idempotency.dfy` | the claim/wait/put/release protocol of tool executions |
| `ContextTrim.dfy` | token counting and trimming of the inference context |
| `EventLog.dfy` | the two event stores and the allocation of sequences |
| `TaskQueue.dfy` | stream, pending list, execution hashes, dead letters, workers, for every interleaving |
| `TaskAttempts.dfy`, `TaskHolds.dfy` | how often a message is attempted; how long a worker may hold it |
| `TaskWorkers.dfy` | the worker's own code, and the step machine that refines it |
| `SessionStore.dfy`, `Routing.dfy` | optimistic session updates; the routing pipeline |
| `Breaker.dfy`, `Failover.dfy` | the provider circuit breaker and the walk over a route |
| `RateLimiter.dfy` | the token-bucket limiter and its eviction |
| `Prelude.dfy`, `Tables.dfy`, `Ordering.dfy` | shared vocabulary, sums of tables, a stable sort |

How things are modelled:

- A class of the source is a class here, and its methods are proved against functions on values.
  Concurrent behaviour is a step function over a value holding the store and all clients; code
  between two `await`s, or one store command, is one step, and theorems quantify over every schedule.
- What a component does not decide itself (providers, tools, sandboxes, planners, clocks, failures,
  crashes) is a parameter, an action, or, in the run loop, the script of a `World`.
- Clocks never run backwards. `float64` is `real`; counters and sequences are unbounded integers.
  Case folding and trimming of names are ASCII.
- An `asyncio.Event` is named by the ordinal of its creation, so that an event replaced on a
  re-claim differs from its predecessor.

Where code and documentation differ, the model follows the code:

- The breaker documents "exactly one probe request". A late outcome of an earlier request can close
  or reopen the half-open round while the probe is still out, so two probes can be in flight, whatever
  the thresholds (`Breaker.ProbesMayOverlap`). At most one is in flight exactly when requests report
  sooner than the recovery time (`Breaker.OneProbeInFlightExactly`).
- The limiter's burst + rate window bound holds exactly when a bucket idle for its time to live has
  refilled. The gateway configuration does not enforce this (`RateLimiter.WindowBoundExactly`).
- The two event stores do not accept the same batches. They differ exactly on batches out of sequence
  order, which PostgreSQL sorts first, and on batches that leave a gap, which only the in-memory store
  takes (`EventLog.StoresDiffer`).
- The default queue settings allow a message to be reclaimed while its worker still waits for the
  agent. Attempt counts mean something exactly when no worker holds a message for the idle time or
  longer (`TaskHolds.AttemptBoundExactly`). Theorems about exclusive claims say so; conservation and
  ack safety need no such hypothesis.
- Every run is said to end in a terminal state with a terminal event. An exception without a text ends
  it in neither: the failure is refused, and the stream is closed without a terminal event. An
  inference that raises without a text leaves its step running
  (`RunLoop.AgentRun.RunExecution`, `RunLoop.AgentRun.Infer`).
- Results are said to be applied deterministically. Calls with one id share the later one's step and
  race for it: the order of the tasks is irrelevant exactly when ids are distinct
  (`ToolPool.OrderFreeExactly`), and a batch that shares a step never succeeds as a whole
  (`ToolPool.AllSucceeded`).

## Model

| member | source | states |
|---|---|---|
| `Lifecycle.Execution.TransitionTo` | internal/agent/app/agent_runtime/domain/execution.py:119-146 | a transition happens exactly when the table allows it, and then status, start and completion times follow; otherwise nothing changes |
| `Lifecycle.Execution.MarkStarted` | internal/agent/app/agent_runtime/domain/execution.py:152-187 | starting moves a new execution to planning, leaves an active one alone and is refused after the end |
| `Lifecycle.Execution.MarkCompleted` | internal/agent/app/agent_runtime/domain/execution.py:189-229 | completing bridges planning to inference, works from inference, is accepted twice and refused elsewhere |
| `Lifecycle.Execution.MarkFailed` | internal/agent/app/agent_runtime/domain/execution.py:231-262 | failing records the error and works in every state but a terminal one; an empty error is refused |
| `Lifecycle.Execution.MarkCancelled` | internal/agent/app/agent_runtime/domain/execution.py:264-283 | cancelling works in every active state and is accepted twice |
| `Lifecycle.RecordsStayConsistent` | internal/agent/app/agent_runtime/domain/execution.py:119-326 | under any sequence of lifecycle requests the status follows the state, a completion time exists exactly at the end and is not before the start, and only failed executions carry an error |
| `Lifecycle.TerminalIsFinal` | internal/agent/app/agent_runtime/state_machine.py:79-112 | no sequence of requests changes anything about an execution that is over |
| `Lifecycle.StartedOnce` | internal/agent/app/agent_runtime/domain/execution.py:332-339 | a start time, once set, never moves |
| `Lifecycle.StoppingAlwaysPossible` | internal/agent/app/agent_runtime/domain/execution.py:231-283 | exactly when failing and cancelling succeed, and where they lead |
| `Lifecycle.RoundsRunTools` | internal/agent/app/agent_runtime/state_machine.py:24-85 | between two inferences lie tool execution and observation, with at most an approval wait before them |
| `Lifecycle.CompletionStaysReachable` | internal/agent/app/agent_runtime/state_machine.py:24-85 | no active state is a dead end |
| `Lifecycle.FinishedStepIsFinal` | internal/agent/app/agent_runtime/domain/step.py:62-134 | no operation changes a step that is over |
| `ToolBudget.AdmitMeaning` | internal/agent/app/agent_runtime/runtime.py:1649-1754 | checking call after call admits a batch exactly when all calls are well formed and the final totals meet the global, per-tool and repetition limits |
| `ToolBudget.AdmissionIgnoresOrder` | internal/agent/app/agent_runtime/runtime.py:1649-1754 | two orders of the same calls are admitted or refused together |
| `ToolBudget.TallyCounts` | internal/agent/app/agent_runtime/runtime.py:1756-1777 | the counters hold, per tool and per call, how often it was admitted |
| `ToolBudget.RunsStayWithinBudget` | internal/agent/app/agent_runtime/runtime.py:1649-1777 | batches admitted one after another fit the limits as if they were one batch |
| `ToolBudget.BudgetsHold` | internal/agent/app/agent_runtime/execution_limits.py:121-217 | whatever was admitted, no limit is exceeded and both counter tables sum to the number of calls |
| `ToolPool.NeverOverfull` | internal/agent/app/agent_runtime/runtime.py:1832-1890 | at no point of any schedule do more bodies run than the semaphore has permits |
| `ToolPool.NoDeadlock` | internal/agent/app/agent_runtime/runtime.py:1832-1906 | an unfinished pool always has a task that can move |
| `ToolPool.EveryScheduleTerminates` | internal/agent/app/agent_runtime/runtime.py:1832-1906 | no schedule takes more than two turns a call, and one that takes them all has finished; with a step of its own every call takes exactly two |
| `ToolPool.CanAlwaysFinish` | internal/agent/app/agent_runtime/runtime.py:1832-1906 | any partial schedule can be completed |
| `ToolPool.Confluence` | internal/agent/app/agent_runtime/runtime.py:1832-2040 | when every call has a step of its own, for fixed outcomes every complete schedule ends like running the calls one by one in model order: same steps, same results, all permits back |
| `ToolPool.OrderFreeExactly` | internal/agent/app/agent_runtime/runtime.py:1787-1883 | the order of the turns is irrelevant for all outcomes exactly when every call has a step of its own |
| `ToolPool.CallEnds` | internal/agent/app/agent_runtime/runtime.py:1836-1883 | how a call's step ends, by outcome |
| `ToolPool.SharedStepSucceedsOnce` | internal/agent/app/agent_runtime/runtime.py:1832-1883 | of two calls that share a step at most one ever succeeds, whatever the schedule |
| `ToolPool.AllSucceeded` | internal/agent/app/agent_runtime/runtime.py:1787-1883 | a batch whose calls all succeed has completed every step, and its ids were distinct |
| `ToolPool.NothingRuns` | internal/agent/app/agent_runtime/runtime.py:1884-1938 | a batch that is over, or stopped in the middle, leaves no step running and keeps every step's call |
| `ToolPool.FirstFailure` | internal/agent/app/agent_runtime/runtime.py:1946-1990 | the failure kept is the first in model order |
| `RunLoop.AgentRun.ProjectBatch` | internal/agent/app/agent_runtime/runtime.py:1649-1754 | only a batch that passes every check gets through, and undisturbed checks raise exactly the first refusal |
| `RunLoop.AgentRun.AdmitBatch` | internal/agent/app/agent_runtime/runtime.py:1638-1777 | a batch is admitted whole and counted once, or refused or interrupted without touching a counter; undisturbed, the answer is exactly that of admission |
| `RunLoop.AgentRun.AddToolSteps` | internal/agent/app/agent_runtime/runtime.py:1789-1809 | one CREATED step a call, numbered on; a call id leads to the last step with that id, whether the ids are distinct or not |
| `RunLoop.AgentRun.HandleRequiredApprovals` | internal/agent/app/agent_runtime/runtime.py:2042-2238 | waiting for the verdicts in whatever order they come, it goes on only with a grant for each call the policy asked an approval for, and for no other; no call id is asked for twice in a run, and a rejection always raises |
| `RunLoop.AgentRun.PassGate` | internal/agent/app/agent_runtime/runtime.py:1811-1830 | past the gate exactly the steps of the calls that needed an approval wait, and all of those were granted; short of it no step of the batch has started |
| `RunLoop.AgentRun.PrepareBatch` | internal/agent/app/agent_runtime/runtime.py:1638-1830 | a refused batch changes no counter and no step; nothing runs and nothing is published before the gate |
| `RunLoop.AgentRun.RunPool` | internal/agent/app/agent_runtime/runtime.py:1832-1938 | a batch, undisturbed or interrupted, leaves no step running and earlier steps untouched; if every call succeeded every step is completed; with distinct ids every step ends as its call did, with the events each result calls for and no others about those calls |
| `RunTrace.TurnAnnounced` | internal/agent/app/agent_runtime/runtime.py:2277-2403 | in a batch with distinct ids every turn keeps the account: one started event once the call has a permit, unless its deadline has passed or it was cancelled by then; one completed event with its outcome, unless it was cancelled or its deadline passed after the tool returned |
| `RunLoop.AgentRun.RecordResults` | internal/agent/app/agent_runtime/runtime.py:1996-2014 | the context gains the successes in model order, or a prefix of them if interrupted, each with its two completed steps |
| `RunLoop.AgentRun.ObserveResults` | internal/agent/app/agent_runtime/runtime.py:1946-2040 | results are recorded before anything is raised, and, undisturbed, what is raised is the first failure in model order |
| `RunLoop.AgentRun.FinishBatch` | internal/agent/app/agent_runtime/runtime.py:1832-2040 | a batch without failure leaves every step completed and one result a call |
| `RunLoop.AgentRun.ExecuteToolCalls` | internal/agent/app/agent_runtime/runtime.py:1605-2040 | a batch either ends the run or leaves recorded results equal to admitted calls, in order |
| `RunLoop.AgentRun.Infer` | internal/agent/app/agent_runtime/runtime.py:1360-1470 | an inference adds one step, completed or failed and never left open, except for an exception without a text; it announces its start unless the deadline has passed by then, and only a real completion |
| `RunLoop.AgentRun.ActOn` | internal/agent/app/agent_runtime/runtime.py:1472-1598 | only a final decision ends the loop, with its text and a final step; all others continue settled or raise |
| `RunLoop.AgentRun.Execute` | internal/agent/app/agent_runtime/runtime.py:1172-1603 | at most the allowed number of inferences, and an answer only from a final decision with nothing left unfinished |
| `RunLoop.AgentRun.Conclude` | internal/agent/app/agent_runtime/runtime.py:628-835 | one terminal state, one terminal event, then the stream closes; a failure without a text changes no state and publishes nothing |
| `RunLoop.AgentRun.RunExecution` | internal/agent/app/agent_runtime/runtime.py:561-835 | for every world: no illegal transition, started first, stream closed, steps numbered and none left running but an inference that raised without a text, inferences and budgets within limits; exactly when what ended it is not an exception without a text, one terminal state that fits it and one terminal event, last; a completed run answers with a final decision, every step from plan to final completed, every admitted call's result recorded in order |
| `Approval.ApprovalManager.CreateRequest` | internal/agent/app/agent_runtime/approval.py:133-191 | a complete, new request is booked as pending with an unset event; anything else changes nothing |
| `Approval.ApprovalManager.Decide` | internal/agent/app/agent_runtime/approval.py:256-338 | only a pending request is resolved, and its event is set |
| `Approval.ApprovalManager.EnterWait` | internal/agent/app/agent_runtime/approval.py:213-254 | whether a wait returns, raises or sleeps |
| `Approval.ToolsStartOnlyWhenApproved` | internal/agent/app/agent_runtime/runtime.py:1811-1830 | in every run of the gate, tools start only if all required approvals are granted, and one rejection keeps all of them from starting |
| `Approval.RejectionIsFinal` | internal/agent/app/agent_runtime/approval.py:298-338 | a rejected batch never starts, whatever happens later |
| `Approval.NoSleeperForgotten` | internal/agent/app/agent_runtime/approval.py:213-254 | a sleeping waiter's event is set exactly when its request is resolved, and waking delivers the verdict |
| `Approval.ApprovedBatchProceeds` | internal/agent/app/agent_runtime/runtime.py:2201-2238 | a fully approved batch can always open its gate |
| `Idempotency.InMemoryIdempotencyStore.Get` | internal/agent/app/agent_runtime/idempotency.py:67-72 | the stored result, if any |
| `Idempotency.InMemoryIdempotencyStore.TryClaim` | internal/agent/app/agent_runtime/idempotency.py:74-97 | a claim succeeds only on a key neither recorded nor claimed, and then starts a new event |
| `Idempotency.InMemoryIdempotencyStore.Save` | internal/agent/app/agent_runtime/idempotency.py:99-110 | recording ends the claim and wakes the waiters |
| `Idempotency.InMemoryIdempotencyStore.Discard` | internal/agent/app/agent_runtime/idempotency.py:112-122 | releasing ends the claim without a record and wakes the waiters |
| `Idempotency.InMemoryIdempotencyStore.EnterWait` | internal/agent/app/agent_runtime/idempotency.py:124-156 | what a waiter finds before it sleeps |
| `Idempotency.ToolExecutor.Resume` | internal/agent/app/tools/executor.py:34-162 | the executor's code between two suspensions is one step of the protocol |
| `Idempotency.SandboxRunsExclude` | internal/agent/app/tools/executor.py:98-160 | with any number of concurrent calls, sandbox runs of one key never overlap and at most one succeeds |
| `Idempotency.RecordsAreFinal` | internal/agent/app/agent_runtime/idempotency.py:74-110 | a record is never overwritten, and nobody owns its key again |
| `Idempotency.SuccessesAgree` | internal/agent/app/tools/executor.py:98-160 | all calls that return success for a key return the recorded result |
| `Idempotency.NoLostWakeup` | internal/agent/app/agent_runtime/idempotency.py:87-156 | who sleeps on an unset event sleeps on the key's current event, under a claim whose owner can move |
| `Idempotency.FallThroughUnreachable` | internal/agent/app/tools/executor.py:98-160 | no keyed call reaches the sandbox without a claim or finds no operation to wait for |
| `Idempotency.NeverStalls` | internal/agent/app/tools/executor.py:98-160 | while a call is unfinished, some call can move |
| `Idempotency.NeverSpins` | internal/agent/app/tools/executor.py:98-160 | every step uses up a bounded amount of work, so all calls finish |
| `ContextTrim.CountMessageTokens` | internal/agent/app/agent_runtime/context_manager.py:25-89 | a list costs its total characters over the ratio, rounded up once |
| `ContextTrim.CeilDivSubadditive` | internal/agent/app/agent_runtime/context_manager.py:46-89 | rounding each message up never undercounts the list |
| `ContextTrim.SplitSystem` | internal/agent/app/agent_runtime/context_manager.py:456-500 | the first system message and all others in order |
| `ContextTrim.KeepNewest` | internal/agent/app/agent_runtime/context_manager.py:484-527 | the newest-first loop keeps what the rule keeps |
| `ContextTrim.ContextManager.AddMessage` | internal/agent/app/agent_runtime/context_manager.py:195-213 | well-formed messages are appended, others change nothing |
| `ContextTrim.ContextManager.GetMessagesForInference` | internal/agent/app/agent_runtime/context_manager.py:416-440 | the view: everything if it fits, else the trimmed list |
| `ContextTrim.ContextManager.TrimToBudget` | internal/agent/app/agent_runtime/context_manager.py:442-454 | the stored messages become the view |
| `ContextTrim.ViewFits` | internal/agent/app/agent_runtime/context_manager.py:416-527 | the view never exceeds the budget |
| `ContextTrim.TrimMeaning` | internal/agent/app/agent_runtime/context_manager.py:456-527 | the trimmed list is the first system message and an order-preserving choice in which a message is kept exactly when it fits after all newer kept ones; nothing if the system message alone is too big |
| `ContextTrim.GreedyMaskUnique` | internal/agent/app/agent_runtime/context_manager.py:484-527 | that rule leaves one choice |
| `ContextTrim.GreedyIsMaximal` | internal/agent/app/agent_runtime/context_manager.py:484-527 | nothing left out fits beside what was kept |
| `ContextTrim.TrimIdempotent` | internal/agent/app/agent_runtime/context_manager.py:416-527 | trimming again changes nothing |
| `EventLog.PostgreSQLExecutionEventStore.Append` | internal/agent/app/agent_runtime/persistence/postgres.py:320-351 | one row is added unless its number is taken |
| `EventLog.PostgreSQLExecutionEventStore.AppendMany` | internal/agent/app/agent_runtime/persistence/postgres.py:353-447 | all or nothing: accepted when each execution's sorted batch continues its log without a gap |
| `EventLog.PostgreSQLExecutionEventStore.List` | internal/agent/app/agent_runtime/persistence/postgres.py:449-485 | the rows after a sequence, in order |
| `EventLog.InMemoryExecutionEventStore.Append` | internal/agent/app/agent_runtime/persistence/in_memory.py:99-117 | one event is added if it is past the log's last |
| `EventLog.InMemoryExecutionEventStore.AppendMany` | internal/agent/app/agent_runtime/persistence/in_memory.py:119-170 | all or nothing: accepted when each execution's batch ascends past its log |
| `EventLog.InMemoryExecutionEventStore.List` | internal/agent/app/agent_runtime/persistence/in_memory.py:172-196 | the events after a sequence, in order |
| `EventLog.StoresAgree` | internal/agent/app/agent_runtime/persistence/postgres.py:353-447 | from equal logs, PostgreSQL accepts a batch that is in sequence order exactly when the in-memory store accepts it and it leaves no gap, and the logs stay equal |
| `EventLog.StoresDiffer` | internal/agent/app/agent_runtime/persistence/postgres.py:353-447 | the stores differ on any batch exactly by order or by gaps: PostgreSQL alone takes those out of order, the in-memory store alone those with a gap |
| `EventLog.SortingReconciles` | internal/agent/app/agent_runtime/persistence/postgres.py:380-447 | for batches in any order PostgreSQL accepts exactly those that, sorted, the in-memory store accepts without gaps |
| `EventLog.ListingsAgree` | internal/agent/app/agent_runtime/persistence/in_memory.py:172-196 | equal logs list equally from every point |
| `EventLog.OrderMatters` | internal/agent/app/agent_runtime/persistence/in_memory.py:119-170 | for every execution, its next two events given in reverse are taken by PostgreSQL and refused by the in-memory store |
| `EventLog.ListingSplits` | internal/agent/app/agent_runtime/persistence/postgres.py:449-485 | listing up to k and listing after k is the whole log |
| `EventLog.SequencesAscend` | internal/agent/app/agent_runtime/persistence/service.py:125-167 | across interleaved appends, restarts and closes, stored sequences strictly increase, and are 1..n if no commit of the execution failed |
| `EventLog.NumbersAreFree` | internal/agent/app/agent_runtime/persistence/service.py:125-167 | an allocated number is never already stored |
| `EventLog.NextStored` | internal/agent/app/agent_runtime/persistence/service.py:125-167 | an undisturbed append stores exactly one row, with the next number |
| `EventLog.FailedCommitLeavesGap` | internal/agent/app/agent_runtime/persistence/service.py:125-191 | after a failed commit the execution's next row is stored behind the lost number, two after the last one if no earlier commit failed; with a restart in between it is stored one after the last |
| `TaskQueue.DelayDoubles` | internal/worker/worker.go:517-524 | retry delays start at the base, double and stop at the maximum |
| `TaskWorkers.TaskWorker.Process` | internal/worker/worker.go:318-422 | what one undisturbed attempt does to hash, pending list and dead letters, in all three outcomes, with separate clock readings for the answer and the save |
| `TaskWorkers.TaskWorker.DeadLetter` | internal/worker/worker.go:468-515 | giving up publishes the entry, fails the execution naming it, and acknowledges |
| `TaskWorkers.TaskWorker.RecoverPending` | internal/worker/worker.go:265-316 | the claim resets the idle times of what it hands over, and those messages are processed in order, each at its own time, except those whose retry time is then ahead |
| `TaskWorkers.StepsSettle` | internal/worker/worker.go:318-422 | the command-by-command worker, left alone with a clock that runs, reaches the same store |
| `TaskQueue.MessagesAreConserved` | internal/worker/worker.go:190-422 | for any workers, crashes, lost replies and double claims, each message is in exactly one of undelivered, pending or acknowledged, and an acknowledged one was completed or has a dead letter |
| `TaskAttempts.CommandFits` | internal/worker/worker.go:336-422 | every command of an attempt keeps the count of attempts, failures and dead letters |
| `TaskAttempts.AttemptsAreBounded` | internal/worker/worker.go:336-422 | with exclusive claims, agent calls per message are at most the limit plus its interruptions |
| `TaskAttempts.RetriesWait` | internal/worker/worker.go:265-316 | no start comes before the recorded failure's time plus its delay |
| `TaskAttempts.DeadLettersAreExact` | internal/worker/worker.go:392-422 | without interruptions a message is dead-lettered once and exactly when all allowed calls failed |
| `TaskAttempts.AckedIsFinal` | internal/worker/worker.go:336-422 | after acknowledgement the execution's hash, completed or failed, never changes |
| `TaskAttempts.NewMessageFits` | internal/orchestrator/valkey.go:93-131 | a submission adds one unread message and one queued hash with no attempt made, together, and nothing else |
| `TaskAttempts.HashComesWithMessage` | internal/orchestrator/valkey.go:93-131 | in every run every message of the stream has its execution's hash |
| `TaskHolds.ReclaimRepeatsCall` | internal/worker/worker.go:265-316 | for every configuration a run from the empty queue in which one more worker than attempts are allowed reclaims the busy message each, so that it gets one call too many with no interruption |
| `TaskHolds.ShortHoldsAreExclusive` | internal/worker/worker.go:265-316 | if no worker holds a message for the idle time, every claim is exclusive |
| `TaskHolds.AttemptBoundExactly` | internal/worker/worker.go:265-316 | the bound on attempts holds of all runs whose holds are at most that long exactly when that is less than the idle time |
| `SessionStore.MemoryStore.Get` | router/internal/session/memory.go:32-50 | the stored state, if any |
| `SessionStore.MemoryStore.CompareAndSwap` | router/internal/session/memory.go:53-88 | the state is replaced, one version up, exactly when the expected version is current |
| `SessionStore.CloneState` | router/internal/session/memory.go:90-100 | the copy equals the state |
| `SessionStore.UpdateSession` | router/internal/router/router.go:199-236 | a turn advances the state it was computed from and swaps against its version |
| `SessionStore.SuccessfulCallsLinearize` | router/internal/router/router.go:199-236 | in any interleaving the successful calls of a session form one sequential run, each computed from its predecessor's state |
| `SessionStore.LogOnlyGrows` | router/internal/session/memory.go:53-88 | that order is never revised |
| `SessionStore.SessionCounters` | router/internal/router/router.go:199-236 | version, turn count and the sum of model turns equal the number of successes; switches are fewer than turns and models at most switches plus one |
| `SessionStore.ConflictMeansProgress` | router/internal/session/memory.go:53-88 | a call conflicts exactly when another succeeded since its read |
| `Routing.Registry.Register` | router/internal/registry/registry.go:30-41 | valid models are stored under their names, others refused |
| `Routing.Registry.Remove` | router/internal/registry/registry.go:60-77 | a known trimmed name is removed, anything else changes nothing |
| `Routing.Registry.Enabled` | router/internal/registry/registry.go:101-118 | the enabled models, each once, by name, whatever the map's iteration order |
| `Routing.EnabledListingUnique` | router/internal/registry/registry.go:101-118 | there is only one such listing |
| `Routing.FilterCandidates` | router/internal/router/router.go:252-290 | the loop keeps what the filter function keeps |
| `Routing.FilterKeepsEligible` | router/internal/router/router.go:252-343 | that is exactly the eligible models |
| `Routing.EvaluateCapabilities` | router/internal/strategy/capability.go:26-73 | each candidate's share of matched capabilities |
| `Routing.FindCandidate` | router/internal/router/router.go:368-379 | the first candidate with the name |
| `Routing.ValidateRequest` | router/internal/router/router.go:238-250 | which requests are accepted |
| `Routing.Route` | router/internal/router/router.go:50-170 | the whole decision is a function of the enabled listing, the request and the session's model |
| `Routing.StrategyIsUniform` | router/internal/strategy/capability.go:39-70 | after the filter the strategy drops nobody and scores all alike |
| `Routing.PriorityScoreMonotone` | router/internal/scoring/scorer.go:26-31 | the priority scorer is monotone exactly for weights that are not negative |
| `Routing.SessionlessDecision` | router/internal/router/router.go:105-170 | without a session the decision is the eligible enabled model of highest priority, least name, and fails only if none is eligible |
| `Routing.ChooseMeaning` | router/internal/router/router.go:105-147 | score, sort and hysteresis come down to the best candidate or the session's model |
| `Routing.SwitchNeedsALead` | router/internal/router/router.go:105-147 | leaving an eligible model takes a lead of at least affinity plus threshold |
| `Routing.SwitchesAtMostOnce` | router/internal/router/router.go:105-147 | on fixed candidates any number of turns switches at most once, and only to the best |
| `Routing.RoutedSessionSettles` | router/internal/router/router.go:50-170 | the same for whole routing calls on a fixed registry and request |
| `Breaker.ReliabilityManager.Register` | inference/app/reliability/manager.py:185-231 | a new, non-blank provider starts closed; others are refused |
| `Breaker.ReliabilityManager.AllowRequest` | inference/app/reliability/manager.py:254-376 | admission and the move to half-open |
| `Breaker.ReliabilityManager.RecordSuccess` | inference/app/reliability/manager.py:382-419 | a success closes the circuit and returns the probe |
| `Breaker.ReliabilityManager.RecordFailure` | inference/app/reliability/manager.py:449-587 | a failure counts, degrades or opens, and returns the probe |
| `Breaker.ReachableInv` | inference/app/reliability/manager.py:254-587 | after any events a circuit is closed exactly below the failure threshold and half-open exactly while a probe is held |
| `Breaker.AdmissionRule` | inference/app/reliability/manager.py:254-376 | in every reachable state a request is admitted exactly below the threshold or when an open circuit has recovered |
| `Breaker.ProvidersAreIndependent` | inference/app/reliability/manager.py:254-587 | events of one provider leave the others alone |
| `Breaker.ProbeSpacing` | inference/app/reliability/manager.py:271-376 | two admissions while not closed are at least the recovery time apart, whatever late outcomes arrive |
| `Breaker.OneProbePerHalfOpen` | inference/app/reliability/manager.py:295-360 | between two probes an outcome was recorded |
| `Breaker.ProbeRate` | inference/app/reliability/manager.py:271-376 | the number of probes in a window is bounded by its length |
| `Breaker.ProbesMayOverlap` | inference/app/reliability/manager.py:268-268 | for every configuration, a trace in which each outcome answers its own request within the recovery time and two probes are in flight at once |
| `Breaker.OneProbeInFlightExactly` | inference/app/reliability/manager.py:254-376 | at most one probe is in flight in all traces of requests that report within a latency exactly when that latency is below the recovery time |
| `Breaker.PromptProbeAnswered` | inference/app/reliability/manager.py:271-376 | with such a latency a probe has been answered before the next one is admitted |
| `Breaker.NoProbeWithoutRequest` | inference/app/reliability/manager.py:295-360 | once all admitted requests have reported, in whatever order, no probe is held |
| `Failover.ChatCompletion` | inference/app/failover/manager.py:115-213 | the loop over the route computes the walk: ending, attempt log, call count and breaker state |
| `Failover.AttemptsFollowRoute` | inference/app/failover/manager.py:115-213 | the log follows the route, calls stay within the limit, and the only success is the last entry and the served response |
| `Failover.FailureIsExhaustion` | inference/app/failover/manager.py:115-213 | a request fails only when route or call limit is used up, with the right error |
| `Failover.NoProbeLeaks` | inference/app/failover/manager.py:115-213 | a finished request leaves no new probe behind and keeps the breaker's invariant |
| `Failover.SkipsOpenCircuits` | inference/app/failover/manager.py:115-213 | the first closed provider that answers serves, after refused ones |
| `Failover.NoProbeOutlivesItsRequest` | inference/app/failover/manager.py:115-213 | any number of interleaved requests: every held probe is out with one of them, and none is held once all have finished |
| `Failover.AloneWalks` | inference/app/failover/manager.py:115-213 | an interleaved request that nobody interferes with does what the loop does |
| `RateLimiter.RateLimiter.RemoveExpiredBuckets` | internal/gateway/middleware.go:191-198 | exactly the expired buckets go |
| `RateLimiter.RateLimiter.Allow` | internal/gateway/middleware.go:200-241 | refill, cap, spend or refuse, with eviction only when the map is full |
| `RateLimiter.MapStaysBounded` | internal/gateway/middleware.go:200-222 | the map stays within its limit and only expired buckets are dropped, to make room |
| `RateLimiter.WindowHolds` | internal/gateway/middleware.go:200-241 | every client in every window gets at most burst plus rate times length, if idle buckets refill before eviction |
| `RateLimiter.WindowBoundExactly` | internal/gateway/middleware.go:174-241 | the window bound holds of all traces exactly under that condition |
| `RateLimiter.SpacedClientPasses` | internal/gateway/middleware.go:224-241 | a client with a bucket, spaced at least 1/rate, is never denied |
| `RateLimiter.EvictionIsInvisible` | internal/gateway/middleware.go:191-222 | the bounded limiter answers like one that keeps every bucket, except for turning new clients away when full |

## Left out

- WindowBoundExactly: stated for limits of at least two buckets; the constructor fixes ten thousand.
- RunPool: when the deadline check between the creation of the tasks and their gather raises, the tasks are not awaited; they find the deadline passed and fail their own steps after the run has ended and its stream is closed, which is not modelled. The account of events is for batches with distinct ids, since events name a call by its id.
- RunExecution: persistence is absent, and nothing fails after the terminal event; an approval still awaited when another one ends the gather is not followed further.
- DeadLettersAreExact, AttemptsAreBounded, RetriesWait and AckedIsFinal: for exclusive claims and new execution ids only. The code ensures neither; short holds ensure exclusivity (`TaskHolds.ShortHoldsAreExclusive`).
- ChatCompletion: the loop has the breaker to itself; interleaved requests are a step machine of their own, equal to the loop when nobody interferes (`Failover.AloneWalks`).
- NoProbeLeaks: one request at a time; for interleaved ones see `Failover.NoProbeOutlivesItsRequest`.
- Steps are values in the execution's list, without their timestamps and inputs; an execution reads one clock value per request.
- LLM-facing messages appended by the run loop; the context manager is modelled on its own.
- Task cancellation inside the idempotency protocol and inside provider calls, where the code releases neither claim nor probe.
- Unique event ids in the stores, closing in the middle of an append, and what JSON encoding may refuse.
- Expiry of execution hashes and of Valkey sessions, and overflow of retry delays.
- Agent answers' contents, durations and tool calls in the execution hash; worker names.
- The Python worker, execution recovery and replay, HTTP and streaming plumbing, authentication, recipe loading, telemetry, the sandbox services and the planner's parsing.
