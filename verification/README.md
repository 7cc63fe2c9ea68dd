# Shared-budget admission, scheduling and retry: a verified model

The gateway lets several clients of one owner share a budget of outstanding work. A submission takes the queue lock,
takes a permit from the resizable budget of its owner and class, gets an admission number and waits in one of two class
queues. A single scheduler task selects jobs by a weighted 3:1 rule or by global FIFO, hands them to a bounded set of
executors, expires them at their deadlines, and sleeps when it can do nothing. Closing, shutdown and dropping the gateway
race with all of this. Three clients retry against it: a Rust loop behind a shared local dispatcher, a synchronous Python
helper and an adaptive Python client. What they rely on is one promise: a task reported as `not_started` was never
executed, and a retried task executes at most once.

This project states that protocol in Dafny and proves its whole-run guarantees for every interleaving.

## How it is organised

- `Budget.dfy`, `Queues.dfy`, `AppState.dfy`, `Gate.dfy`, `Sdk.dfy`, `Dispatcher.dfy`, `Identities.dfy`, `Routes.dfy`,
  `Service.dfy`, `Native.dfy`, `Retry.dfy`, `Responses.dfy`, `Descriptors.dfy`: the code itself. What the repository
  changes in place is a class or a loop here, proved against a function on values. `Waiters.dfy`: the coroutines that wait
  at the gate of `Sdk.dfy`.
- `Gateway.dfy`: the protocol. A state holds the queues, the budgets, who holds the lock and how far it is, the scheduler,
  the stored notification, callers that still owe a notification, executing and finishing tasks, closing and drop, the
  clock and the departed callers. Thirty-two kinds of atomic step interleave freely: any run of enabled steps is
  considered. `GatewayEffects.dfy` says what each kind of step leaves alone.
- `GatewayInvariants.dfy` (permits and shape), `GatewayCallers.dfy` (places, fates and answers of callers),
  `GatewayOrder.dfy` (admission order and bypass), `GatewayProgress.dfy` (wake-ups and draining): what each step keeps.
- `GatewayTheorems.dfy`: the guarantees over all reachable states and all runs. `GatewayDrain.dfy`: a closing
  or dropped gateway can always finish. `GatewayRecords.dfy`: an onlooker notes of each caller how it entered, started and
  ended, from the steps alone, and every answer and every deadline agrees with the notes. `GatewayTurns.dfy`: whose turn it
  is, and what the ceilings are.
- `GatewayInterference.dfy`: what other tasks may do while the queue lock is held, and that a scan or drain of the queues
  may be seen as one uninterrupted block.
- `AppState.dfy` closes the circle: the critical sections of submission, scheduler pass and drop, written in place on the
  `Queues` and `World` classes and with other tasks going on between their accesses, are each proved to be a run of the
  protocol of `Gateway.dfy`, so its theorems are about that code. `AppState.Elsewhere` takes any other step of the
  protocol, so whole executions are chains of these methods.
- `AtMostOnce.dfy` and `Dispatching` in `Dispatcher.dfy`: the clients composed with the gateway. `DispatchReplies.dfy`:
  what a dispatcher replies, and when it goes on. `EndToEnd.dfy`: what reaches a caller through a client is the result of
  its own execution. `Discovery.dfy`: what a parsed manifest or a native service publishes, and what the clients make of it.

`Responses`, `Queueing` and `Text` hold the values shared by several of these. `World` in `Queues.dfy` stands for what the
queue code shares with other tasks: the monotonic clock (every reading is fresh and no earlier than the last), the
callers that have dropped their receivers (a set that only grows), the budgets behind the permits and the answers sent.

## Model

| member | source | states |
|---|---|---|
| Budgets.Budget.constructor | src/budget.rs:18-27 | a new budget has nothing outstanding and revision one |
| Budgets.Budget.SetMaximum | src/budget.rs:33-40 | a resize changes the ceiling and takes a new revision only when the ceiling differs; outstanding work is kept; the snapshot returned is the new one |
| Budgets.Budget.TryAcquireObserved | src/budget.rs:49-56 | admission succeeds exactly below the ceiling, and hands back the snapshot of that very admission |
| Budgets.Budget.Release | src/budget.rs:69-74 | dropping a permit undoes one admission; callers must show that the unsigned counter is positive |
| Budgets.HistoryContinues | src/budget.rs:33-40 | over any history of resizes, admissions and releases, revisions never fall and one revision has one maximum |
| Budgets.BoundedUntilResize | src/budget.rs:33-74 | until the next resize, outstanding work cannot rise at or above the ceiling, and once within it stays within it |
| Budgets.OutstandingIsDifference | src/budget.rs:49-74 | outstanding work is admissions minus releases, and is never negative |
| Budgets.AdmissionWithinCeiling | src/budget.rs:47-56 | every admission's own snapshot is within the ceiling that admitted it |
| Responses.BodyIsConcatenation | src/lib.rs:749-772 | a buffered body is the concatenation of all chunks, and is refused exactly when a chunk breaks or the whole exceeds the limit |
| Responses.ReadBody | src/lib.rs:749-772 | the buffering loop returns exactly that, with the error of the first failing chunk |
| Responses.ExecutionsAreNeverRetryable | src/lib.rs:603-638 | whatever an upstream or handler answers, its caller sees a success or an error marked unknown, never a response a client takes for not started |
| Responses.SuccessIsGenuine | src/lib.rs:693-783 | a success is reported exactly when the execution was in time and fits, and the handler succeeded or the upstream replied 200 with a body that arrived whole and within the limit; it is the handler's own reply or carries the upstream's own document |
| Responses.FailureIsNamed | src/lib.rs:603-783 | every other execution fails for exactly one reason (timeout, no upstream, handler, transport, status, broken body, too large; of a body, the first chunk that cannot be buffered decides) and is answered with the status, code and marker of that reason and nothing else |
| Responses.EarlyAnswersAreNotStarted | src/lib.rs:454-488 | every answer given before hand-off is known not to have started; exactly the 429s and the queue expiry may be retried |
| Responses.ClassifiersAgree | python/ai_protocol/protocol.py:103-117 | the Rust and Python classifiers agree on every parsed response, and everything retryable is known not to have started |
| Queueing.RemoveCovered | src/queue.rs:110-113 | a waiting job's permit is counted, so releasing it cannot underflow, and the others stay counted |
| Queueing.RemovingIsFiltering | src/queue.rs:102-119 | removing one by one exactly the jobs that must not stay is the stable filter of the queue, whatever the order of removal |
| Queueing.RemovedAreGone | src/queue.rs:102-119 | a removed caller is in neither queue afterwards, and no caller is duplicated |
| Queueing.SelectionRule | src/queue.rs:124-143 | first come, first served takes the smaller admission number of the two fronts; the weighted rule takes an interactive job unless three in a row went before a waiting agent job; nothing is selected only when both queues are empty |
| GatewayOrder.SelectedIsFirst | src/queue.rs:124-143 | in ordered queues the selected front comes before every waiting job it is compared with, in FIFO mode before all of both classes |
| Queueing.NextDeadline | src/queue.rs:165-171 | the earliest deadline of any waiting job, attained by one of them |
| QueueClass.MaintenanceFilters | src/queue.rs:102-119 | what the rotating scan leaves is the stable filter by open and unexpired, where the callers counted as gone lie between those departed before the scan and those departed by its end |
| QueueClass.Queues.TakeOrder | src/queue.rs:90-94 | admission numbers are consecutive |
| QueueClass.Queues.Visit | src/queue.rs:106-116 | one job of the scan stays only if open and unexpired; otherwise its permit is released and then its caller told, unless it has left |
| QueueClass.Queues.Rotate | src/queue.rs:103-118 | rotating the queue in place keeps survivors in order and releases each removed permit once |
| QueueClass.Queues.Maintain | src/queue.rs:102-119 | both queues become their stable filters, budgets and answers change exactly by the removals, and each removal is warranted by a departure or a deadline |
| QueueClass.Queues.Select | src/queue.rs:125-143 | the two selection rules of the code compute the weighted or FIFO choice |
| QueueClass.Queues.Recheck | src/queue.rs:144-154 | a job passes only if its caller is present and its deadline is after a fresh reading of the clock |
| QueueClass.Queues.Round | src/queue.rs:122-154 | one round removes only warranted jobs, yields the front of the chosen queue, or shrinks the queues |
| QueueClass.Queues.PopNext | src/queue.rs:121-163 | selection terminates; it removes only jobs closed or expired at some reading during the call besides the one returned, whose deadline is strictly after the hand-off reading; the streak is kept until a hand-off or an empty selection, and then grows by one exactly for an interactive job taken in weighted mode while an agent job waits, and otherwise is zero |
| QueueClass.Queues.RejectPending | src/queue.rs:81-88 | both queues are emptied from the front, every permit released and every caller told once |
| GatewayInvariants.ShapeStep | src/lib.rs:640-691 | every step keeps the execution limit, the streak bound, lock ownership, the single stored notification, and that closure is seen before draining ends |
| GatewayInvariants.ConservedStep | src/lib.rs:484-529 | every step of every task keeps each budget equal to the permits that are out |
| GatewayCallers.CallersStep | src/lib.rs:480-529 | every step keeps each caller in exactly one place and each accepted job at exactly one fate |
| GatewayCallers.HonestStep | src/lib.rs:652-670 | every step keeps all answers, past and pending, in agreement with the hand-offs |
| GatewayOrder.OrderedStep | src/queue.rs:121-163 | hand-offs keep increasing in admission number, whatever leaves the queues and whichever numbers a full queue wastes |
| GatewayOrder.BypassStep | src/queue.rs:121-163 | in weighted mode every hand-off of the other class uses up one of a waiting job's allowance, and nothing else raises what it may still see |
| GatewayProgress.AwakeStep | src/lib.rs:646-690 | no interleaving of pushes, notifications, timers, joins and passes loses a wake-up |
| GatewayProgress.SealedStep | src/lib.rs:671-677 | after closure twice the queued plus the running work never grows, and falls at every expiry, discard, hand-off and join |
| GatewayProgress.DrainIsBounded | src/gateway.rs:430-446 | so a run after closure holds at most that many of them |
| GatewayDrain.DrainCompletes | src/gateway.rs:430-446 | from every reachable state after a close there is a run without any further caller in which the scheduler returns with nothing queued and nothing running: shutdown can always complete |
| GatewayDrain.DropCompletes | src/gateway.rs:448-467 | from every reachable state after a drop began, whoever holds the lock, there is a run without any further caller after which everything queued is refused, the scheduler is gone, nothing runs and every budget is zero |
| GatewayTheorems.StepInv | src/lib.rs:480-691 | all invariants together are kept by every step |
| GatewayTheorems.RunInv | src/lib.rs:480-691 | and hold in every state of every run |
| GatewayTheorems.PermitConservation | src/lib.rs:484-520 | in every reachable state and for every budget, outstanding is exactly the queued jobs, executing jobs and the caller about to push that hold it |
| GatewayTheorems.NoUnderflow | src/budget.rs:69-74 | every step that drops a permit, in any reachable state, finds it counted |
| GatewayTheorems.UniqueFate | src/queue.rs:81-163 | every accepted job is still queued or has met exactly one of hand-off, expiry, closure and silent discard, and no other caller has met any |
| GatewayTheorems.OneAnswer | src/lib.rs:521-528 | no caller is answered twice |
| GatewayTheorems.AnswersFit | src/lib.rs:652-670 | every answer agrees with the hand-offs: after one, a success or an unknown error, otherwise a response known not to have started |
| GatewayTheorems.NotStartedIsForGood | src/lib.rs:571-586 | a caller answered with any not-started response has not been executed and never is, in any continuation |
| GatewayTheorems.HandedOffIsNeverNotStarted | docs/protocol.md:222-246 | a handed-off job is handed off once and is never told that it expired or that the gateway closed |
| GatewayRecords.KeptStep | src/lib.rs:480-691 | every step keeps queued jobs, answers given and answers owed in agreement with what an onlooker noted of each caller: its entry, its start and its ending |
| GatewayRecords.ToldWhatHappened | src/lib.rs:480-529 | over any run, every answer says exactly what happened to its caller, with the status, code, marker and Retry-After of that: refused early, closed, a budget at its ceiling, a full queue, a deadline passed, a dropped gateway, a lost task, or the outcome of the very execution its own task completed with; a caller is told a success exactly when that execution was genuinely one, and was handed off exactly when it is told an outcome or a loss |
| GatewayRecords.EndedIsTold | src/lib.rs:521-528 | whoever's submission has ended has its answer, unless it left its queue before, or its execution has just completed and the answer is on its way |
| GatewayRecords.DeadlinesAreKept | src/queue.rs:25-30 | over any run, every queued interactive job waits since the reading at which it entered and for the interactive wait, every queued agent job likewise for the agent wait, each on a permit of its own class |
| GatewayRecords.StartsInTime | src/lib.rs:650-670 | every job handed off had entered a queue, and was handed off while its caller was still there and strictly before its entry plus the wait of its class |
| GatewayTheorems.WorkConservation | src/lib.rs:646-690 | a scheduler that waits, or has released the lock and is about to, with no notification stored, assigned or owed to it, has empty queues or no free slot, and its timer is no later than any queued deadline |
| GatewayTheorems.ClosingNeverStalls | src/gateway.rs:422-428 | a scheduler that sleeps through a close still has a task to join or a deadline to wake for |
| GatewayTheorems.NothingAfterTheEnd | src/gateway.rs:448-467 | once the scheduler returned or drop rejected what was pending, the queues stay empty and no later submission is accepted, although drop stores the flag without the lock |
| GatewayTheorems.ReturnedReleasesEverything | src/lib.rs:671-677 | when the scheduler has returned, every budget is zero and stays zero |
| GatewayTheorems.HandOffsInAdmissionOrder | src/queue.rs:125-139 | over any run the admission numbers handed off strictly increase, across both classes in FIFO mode and within each class in weighted mode |
| GatewayTheorems.BoundedBypass | docs/protocol.md:198-212 | in weighted mode, whatever arrives, expires or departs, an agent job at index k sees at most 3(k+1) interactive hand-offs and an interactive job at index j at most 1 + j/3 agent hand-offs before it leaves its queue |
| GatewayTurns.AgentsTurn | src/queue.rs:121-163 | in weighted mode, over any run, while jobs of both classes wait the agent job goes next exactly when each of the last three selections handed off an interactive job although an agent job waited; a hand-off of an agent, one without competition and an empty selection each start the count again |
| GatewayTurns.CeilingIsLastResize | src/budget.rs:33-40 | over any run of admissions, releases, drops and losses, a budget's ceiling is the last one it was given |
| GatewayInterference.ForeignUndisturbed | src/lib.rs:648-690 | no step of a task that does not take the lock changes the queues, the numbers or the streak, or moves a scheduler in its pass |
| GatewayInterference.Swap | src/queue.rs:102-119 | every step of another task commutes with every removal from the queues and every reading, up to the order of answers to different callers |
| GatewayInterference.BlockIsAtomic | src/queue.rs:81-119 | so a scan or drain during which other tasks release permits, resize, reply or set the drop flag is a scan or drain without interruption, followed by what they did |
| AppStates.HistoryIsFree | src/lib.rs:480-691 | which step can be taken and what it does never depends on what the history records |
| AppStates.AppState.constructor | src/lib.rs:175-199 | a new gateway on the given queues and world is in the initial state of the protocol |
| AppStates.AppState.Elsewhere | src/lib.rs:480-691 | any enabled step of the protocol, by whichever task, keeps the object valid and is exactly that step |
| AppStates.AppState.Others | src/lib.rs:648-690 | whatever other tasks do while the lock is held is a run of the protocol that leaves the queues, the numbers and the holder alone |
| AppStates.AppState.Look | src/lib.rs:487-489 | the closing flag read under the lock decides between refusal and admission |
| AppStates.AppState.Take | src/lib.rs:492-495 | a permit is taken within the ceiling, or the caller is answered that the budget is exhausted and the lock is free |
| AppStates.AppState.MaintainLocked | src/lib.rs:490-490 | maintenance under the lock is a run of warranted drops |
| AppStates.AppState.Place | src/lib.rs:496-511 | a full queue gives the permit back and turns the caller away although its number is used; otherwise exactly its job is appended |
| AppStates.AppState.Admit | src/lib.rs:490-511 | maintenance, permit, number, capacity and push, with other tasks going on in between, are a run of the protocol in which the caller does exactly what its outcome says |
| AppStates.AppState.Submit | src/lib.rs:484-520 | the whole critical section of a submission, with permit drops, resizes, replies and the drop flag of other tasks in between, is a run of the protocol: the caller is refused with the answer of its outcome, or its job is the last of its queue with the next number and a permit within the ceiling; a closed gateway refuses; the lock is free again |
| AppStates.AppState.HandOffNext | src/lib.rs:650-670 | one turn of the filling loop is a run of the protocol that hands off the selected job, or finds nothing and resets the streak |
| AppStates.AppState.Pass | src/lib.rs:648-679 | a scheduler pass, with other tasks going on in between, is a run of the protocol with as many hand-offs as it counts; it leaves a job queued only when every slot is taken, arms the earliest deadline, and returns exactly when closed and drained |
| AppStates.AppState.RejectAll | src/gateway.rs:459-465 | the critical section of a dropped gateway is a run of rejections that leaves nothing queued |
| Retry.Run | src/bin/load/retry.rs:25-55 | at most five attempts; every retry follows a retryable answer and waits the seconds asked for; success exactly when the last attempt succeeded; giving up early only on a lost, unretryable or too long delayed attempt |
| Retry.Execute | python/ai_protocol/protocol.py:120-143 | at most five attempts, each begun before the deadline; every retry follows a retryable answer and a delay that fits; an answer returned is that of the last attempt, which may not or can no longer be retried; it stops at the deadline only when a reading of the clock or the delay says so |
| Retry.SecondsOfHeader | src/bin/load/retry.rs:41-47 | whatever the Retry-After header (section 10.2.3 of RFC 9110, delay-seconds), blanks around it are trimmed, a numeral asks for its number of seconds, and any other text or no header for one |
| Retry.SecondsOfNumeral | src/bin/load/retry.rs:41-47 | a number of seconds written out in decimal is the number waited for |
| AtMostOnce.RetryingExecutesAtMostOnce | src/bin/load/retry.rs:25-55 | of the attempts either loop makes against the gateway, at most one is ever handed to an executor, then or in any continuation |
| AtMostOnce.SuccessMeansExecuted | src/lib.rs:664-669 | an attempt answered with a success has been executed exactly once |
| AtMostOnce.CallExecutesAtMostOnce | python/ai_protocol/client.py:207-259 | for every conclusion of an SDK call: at most one attempt executed; none, then or later, when it fails as not started; exactly one when it returns |
| EndToEnd.CallReturnsItsResult | python/ai_protocol/client.py:235-239 | what an SDK call returns is the document of the one genuine execution that its last attempt had at the gateway |
| EndToEnd.ReplyIsItsResult | src/bin/dispatcher.rs:343-363 | so is what the dispatcher replies with a success |
| Sdk.AsyncClient.Refresh | python/ai_protocol/client.py:152-168 | a document is applied, and the client ready, exactly if its fields and every operation descriptor are valid and it continues the last one, before closing; a refused document only pauses, and after closing an acceptable one changes nothing |
| Sdk.AsyncClient.RefreshFailed | python/ai_protocol/client.py:162-168 | a failed refresh only pauses |
| Sdk.AsyncClient.TryAcquire | python/ai_protocol/client.py:178-189 | closed decides first; a ready client below the latest maximum admits or refuses at once, by whether an operation of that name is offered; otherwise the attempt waits |
| Sdk.AsyncClient.Release | python/ai_protocol/client.py:230-234 | the slot is given back |
| Sdk.AsyncClient.Close | python/ai_protocol/client.py:263-265 | closing is final and stops new attempts |
| Sdk.EventSound | python/ai_protocol/client.py:146-189 | every step keeps the active count equal to the attempts holding a slot, and raises it only when ready, open and below the maximum applied last |
| Sdk.RunSound | python/ai_protocol/client.py:146-189 | over any run of refreshes, failures, attempts and a close: the identity never changes, revisions never fall, one revision has one maximum, and after the close the active count only falls |
| Sdk.ReadyMeans | python/ai_protocol/client.py:146-168 | over any run, a client is ready exactly when some document was applied and since then no refresh failed, no document was refused and the client was not closed |
| Sdk.KnownIsLast | python/ai_protocol/client.py:146-168 | over any run, what it knows is the document applied last, if any was |
| Waiters.MoveSettled | python/ai_protocol/client.py:177-189 | every refresh, failure, release, close, arrival, check and cancellation leaves parked only coroutines that would be neither admitted nor refused if they checked now, and is an event of the gate or none |
| Waiters.NothingMissed | python/ai_protocol/client.py:177-189 | so over any run with any number of waiters nobody is parked while a slot is free or after a close: no refresh, release or close is missed, although a granted slot and a refresh of a closed client notify nobody |
| Sdk.AsyncClient.Acquire | python/ai_protocol/client.py:177-189 | waiting at the gate, with other coroutines going on between checks, is a run of the gate that ends with one slot taken, or none and a refusal or the deadline |
| Sdk.AsyncClient.Judge | python/ai_protocol/client.py:235-257 | an attempt ends the call for a stated cause with its code, or is known not to have started and has slept the delay asked for |
| Sdk.ErrorCodeIsNamed | python/ai_protocol/client.py:240-254 | the code reported of an error answer is the one its error object names when that is well formed, and `http_error` in every other case |
| Sdk.AsyncClient.Call | python/ai_protocol/client.py:207-259 | among other calls, refreshes and a close, a call is a run of the gate that gives back every slot it takes; at most five attempts, with the delay asked for slept within the deadline between them; it fails only for a cause at the gate, the parameters, the transport, the body, the answer or the deadline, with its code; a failure says not started exactly when the gateway is known not to have started any attempt sent, also when the deadline falls in the gate or before a retry; the attempt count is the attempts sent unless the gate refused |
| Gates.Gate.Apply | src/bin/load/control.rs:53-83 | a policy is applied exactly when it is supported and continues owner, revisions and maximum; otherwise nothing changes |
| Gates.Gate.Pause | src/bin/load/control.rs:85-88 | new attempts wait |
| Gates.Gate.Stop | src/bin/load/control.rs:90-93 | new attempts are refused for good |
| Gates.Gate.TryAcquire | src/bin/load/control.rs:100-110 | a slot is granted exactly when ready, not stopped and below the maximum |
| Gates.Gate.Release | src/bin/load/control.rs:118-123 | a guard gives its slot back |
| Gates.EventSound | src/bin/load/control.rs:53-123 | every event keeps the active count equal to the live guards, raises it only when there is room, and leaves no parked waiter that could proceed without a change announced or owed to it |
| Gates.RunSound | src/bin/load/control.rs:95-123 | over any run: the owner never changes, revisions never fall, one revision has one maximum, after a stop the active count only falls, and no resize, release or stop is missed |
| Gates.SnapshotsAreCompatible | python/ai_protocol/client.py:64-70 | any in-order sequence of published snapshots of one live budget, resized within 1..1000 at arbitrary points, passes the continuity checks of both a Rust gate and a Python client |
| Gates.GateMirrorsBudget | src/bin/load/control.rs:74-83 | after any in-order sequence of such documents the gate is ready and holds the ceiling, the revision and the outstanding work of the budget at the last reading |
| Dispatching.Progress.Begin | src/bin/dispatcher.rs:61-69 | dispatch begins exactly before closure and strictly before the deadline |
| Dispatching.Progress.Fail | src/bin/dispatcher.rs:70-82 | a reported failure repeats the state at that instant and closes the request for good |
| Dispatching.Progress.Cancel | src/bin/dispatcher.rs:84-89 | a disconnected caller closes the request |
| Dispatching.Progress.Settle | src/bin/dispatcher.rs:294-296 | only a response known not to have started clears the doubt |
| Dispatching.StepInv | src/bin/dispatcher.rs:269-428 | every step of the request and of the gateway keeps the counts, the certainty of all earlier attempts and the truth of the reply |
| Dispatching.AttemptsAreDispatches | src/bin/dispatcher.rs:311-359 | the reported attempts are the successful dispatches, at most five |
| Dispatching.ClosedForGood | src/bin/dispatcher.rs:60-69 | after closure nothing more is dispatched |
| Dispatching.ProjectedRun | src/bin/dispatcher.rs:269-309 | a run of the composition contains a run of the gateway, so its theorems apply |
| Dispatching.NotStartedIsTrue | src/bin/dispatcher.rs:417-427 | a reply saying not started is never a lie: no attempt was executed or ever will be, and none is dispatched afterwards, under every interleaving of deadline, disconnection, dispatch and late answers |
| Dispatching.RequestExecutesAtMostOnce | src/bin/dispatcher.rs:311-359 | at most one attempt of a request is ever executed, whatever becomes of it |
| DispatchReplies.ReplyIsExplained | src/bin/dispatcher.rs:311-369 | every reply of every run is given by one step, for its cause: the deadline, a stopped queue, or the result received; it carries the code of that cause, the number of dispatches, and the answer received if the loop ended on one; it says not started exactly when nothing was dispatched or the last attempt's answer showed it |
| DispatchReplies.SuccessIsReceived | src/bin/dispatcher.rs:343-363 | the reply is a success exactly when an attempt was received as one while the connection was open, and carries that answer; it is the gateway's answer to the last attempt, the only one executed |
| DispatchReplies.RetryGoesOn | src/bin/load/retry.rs:25-55 | a received retryable answer before the fifth attempt, asking at most 86400 seconds, informs nobody; until the next attempt is queued, whatever happens but a deadline, a disconnection or a stopped queue, the caller stays connected and the loop can go on to exactly one more attempt |
| DispatchReplies.DispatchedInTime | src/bin/dispatcher.rs:61-69 | every dispatch of a run happens strictly before the deadline and before the request is closed |
| Identities.Add | src/gateway.rs:69-102 | one credential is added exactly when it is valid, its token is new and its maximum agrees with its owner and class |
| Identities.Build | src/gateway.rs:63-107 | identities are built exactly from a non-empty list of valid, distinct, agreeing credentials; two tokens hold the same fresh budget object exactly when owner and class agree |
| Identities.AgentBudget | src/lib.rs:202-209 | the budget found does not depend on the order of iteration: it is the one every agent token of that owner holds and no other token does |
| Identities.SetAgentLimit | src/gateway.rs:401-414 | a limit update resizes the budget of every agent token of that owner and no other budget; it fails exactly out of range or for an unknown owner |
| Text.PathPieces | src/service.rs:64-68 | a path whose pieces between slashes are all identifiers is one of name characters with single inner slashes |
| Text.RouteShape | src/service.rs:64-68 | the same for whole routes |
| Text.TrimRoute | src/bin/dispatcher.rs:160-160 | trimming leading slashes of a valid route removes exactly one |
| Text.Decimal | src/service.rs:251-251 | reading the numeral of a number back gives the number, and it has no needless zeros |
| Text.DecimalOnly | src/service.rs:251-251 | no other numeral without needless zeros reads as that number |
| Routes.AddRoutes | src/bin/dispatcher.rs:143-171 | aliases are added exactly when all entries are valid, names differ and the table with the new aliases is a function; then the table is exactly both |
| Routes.CoherentSnoc | src/bin/load/control.rs:53-83 | the gate takes one more discovery exactly when it is supported and continues every one before it |
| Routes.Take | src/bin/dispatcher.rs:206-220 | one discovery is taken into table and gate exactly when the discoveries so far stay consistent and coherent |
| Routes.Initialize | src/bin/dispatcher.rs:201-220 | folding over all credentials succeeds exactly when they name one service, each is valid, the combined relation is a function and every policy continues those before it; the table is then that relation and the gate holds the last policy |
| Routes.FunctionalMeans | src/bin/dispatcher.rs:160-167 | the relation is a function exactly when operations of one name share a path and a name that is also a path stands for that path |
| Routes.FunctionalAcross | src/bin/dispatcher.rs:201-220 | over all credentials the relation is a function exactly when every two operations offered by any of them agree |
| Routes.TableIsIdempotent | src/bin/dispatcher.rs:158-167 | every entry is the path of a discovered operation, under its name or its path, and the entry of an entry is itself and a valid route |
| Routes.EveryOperationIsFound | src/bin/dispatcher.rs:399-412 | every discovered operation is reached by its name and by its path, and both lead to its own path |
| Routes.OrderIsIrrelevant | src/bin/dispatcher.rs:201-220 | the order of credentials changes neither the verdict nor the table |
| Services.ReservedPaths | src/service.rs:69-76 | besides three fixed paths, what is reserved is the first component `admin` and nothing that merely begins like it |
| Services.CheckParameters | src/service.rs:133-135 | the set-based loop accepts exactly parameters that are identifiers with pairwise distinct upstream keys |
| Services.CheckOperations | src/service.rs:126-141 | the loop accepts exactly operations that are well formed with pairwise distinct names and paths |
| Services.CheckGrants | src/service.rs:142-161 | the loop accepts exactly grants that are well formed, with distinct variables, granting known operations, and agreeing budgets |
| Services.Parse | src/service.rs:107-163 | a manifest is accepted, unchanged, exactly when it is well formed |
| Services.ReadIdentities | src/service.rs:164-187 | identities are built exactly from the credentials whose tokens are there, when no required or malformed token is missing; every such token stands for the owner, class and operations of its own manifest entry, and there is no other |
| Services.OnlyTokensCanFail | src/service.rs:142-187 | for a parsed manifest only the tokens themselves can still be wrong: the credentials are acceptable exactly when the tokens differ |
| Services.CountAndPresence | src/service.rs:242-249 | as many fields as parameters and every parameter present hold exactly when the two key sets are equal |
| Services.SchemaByParameter | src/service.rs:219-240 | the published schema accepts exactly objects with those keys whose values have the declared types |
| Services.RequestMeetsSchema | src/service.rs:219-263 | a request succeeds exactly on what the published schema accepts with every integer written as an integer literal below 2^64 |
| Services.SchemaIsWider | src/service.rs:249-252 | the restriction is needed: 2^64 and 1.0 pass the schema and are refused by the request |
| Services.QueryByParameter | src/service.rs:246-258 | the query is built exactly when every parameter is present with its type (an integer below 2^64), and pairs each upstream key, in order, with the text that says the value of its own parameter |
| Services.EntrySaysValue | src/service.rs:249-258 | of an accepted request, each query entry is the upstream key with the very text given, or with digits without needless zeros that read as the integer given |
| Services.SpellingIsUnique | src/service.rs:249-258 | only one text says a given value |
| Services.QueryKeysDiffer | src/service.rs:126-141 | for a well-formed operation the request goes to its upstream path and the query has one entry for each parameter, with pairwise distinct keys |
| Services.RequestIsInjective | src/service.rs:241-263 | the upstream request determines the parameters: different accepted parameters make different requests |
| Natives.Register | src/operation.rs:37-75 | a native operation is registered, unchanged, exactly when its name is an identifier, its path is a route that is not reserved and its schema is an object |
| Natives.Native | src/service.rs:189-217 | the set-based loop configures a native service exactly from a valid id and at least one operation, with pairwise distinct names and paths |
| Natives.VisibleIsRegistry | src/lib.rs:216-222 | what a credential is shown of a service is again a list of registrable operations with distinct names and paths |
| Natives.PublishedIsOwn | src/service.rs:219-223 | each descriptor shown carries the name, description, path and schema of one registered and granted operation, the only one of that name |
| Natives.OfferedExactly | python/ai_protocol/client.py:183-187 | a client finds a name among what it is shown exactly when an operation of that name exists and is granted |
| Natives.DescriptorIsValid | src/service.rs:219-223 | the descriptor of a registered operation passes the Python descriptor check exactly when every reference in its schema is local: name, description, method and route always pass |
| Natives.OperationsAreValid | python/ai_protocol/protocol.py:36-69 | so does everything a credential is shown together, and no name is shown twice |
| Discoveries.AcceptedExactly | python/ai_protocol/client.py:36-71 | for any service, native or mapped, the documents a credential reads in order from one live budget resized within 1..1000 are accepted by the Python client exactly when every schema it is shown has local references only |
| Discoveries.ExternalReferenceIsRefused | python/ai_protocol/protocol.py:53-67 | so one granted native operation with an external reference anywhere in its schema makes every Python client of that credential refuse every document |
| Discoveries.ExternalMeans | python/ai_protocol/protocol.py:56-67 | the recursive reference check fails exactly when some object inside the schema, at any depth, has a `$ref` or `$dynamicRef` that is no string beginning with `#` |
| Discoveries.ExternalExample | src/operation.rs:46-55 | such an operation can be registered: its schema need only be an object |
| Discoveries.MappedSchemaIsLocal | src/service.rs:224-240 | the schema of a mapped operation of a parsed manifest has no external reference, and the operation is registrable |
| Discoveries.ParsedManifestsAreAccepted | python/ai_protocol/client.py:36-71 | so for a parsed manifest the documents of every credential are accepted by the Python client from the first on, and by the Rust gate for an agent |
| Discoveries.MappedIsPublished | src/service.rs:219-263 | every granted operation of a parsed manifest is published with its own name, description and path, and with a schema that accepts exactly what its requests take, but for integers that are no literals below 2^64 |
| Discoveries.RoutesAreDescriptors | src/bin/dispatcher.rs:132-137 | the routes the dispatcher reads are the names, methods and paths of those descriptors |
| Discoveries.PublishedRoutesAreValid | src/bin/dispatcher.rs:143-158 | everything a service shows is a valid list of routes for the dispatcher |
| Discoveries.StartupIsCoherent | src/bin/load/control.rs:53-83 | the gate takes the policies of all agent credentials of one owner, read in order from their live budget |
| Discoveries.StartupVerdict | src/bin/dispatcher.rs:201-220 | but the dispatcher starts exactly when no operation name visible to any of these credentials is another visible operation's path without its slash |
| Discoveries.AmbiguousManifest | src/service.rs:126-141 | the condition can fail: a manifest with operations x at /a and y at /x, both granted to one agent, parses and cannot be started |

## Reading the model

- A `Budget` is one object per owner and class. Inside the protocol the states of all budgets are one map from owner and
  class to snapshot; `Identities.Build` proves that tokens share a budget object exactly when that key agrees, which is
  what makes the map faithful.
- Steps of the protocol are the critical sections of locks or parts of them, so a step may fall between any two accesses
  that other tasks can observe. A push and its notification are two steps, and so are the end of a pass and the moment
  the scheduler begins to listen: a notification that falls in between is the one that must be stored. `close` stores
  its flag and notifies while it holds the queue lock, and admission and scheduling read the flag only under that lock
  (readiness and metrics merely report it), so it is one step; drop stores the flag without the lock, which is a step
  of its own, followed by the abort of the scheduler and by the rejection under the lock in either order.
- An execution may end with any upstream behaviour, be lost to a panic or an abort, or never end. An attempt of a client
  may be answered, lost after having been executed, or never sent. What clients see is otherwise what the gateway answered.
- The runs of a client are given by scripts: functions from the attempt number to what the network, the clock and the gate
  do. The loops are proved for every script.
- What a gateway accepts, its clients may still refuse, in two ways. A native operation may be registered with a schema
  that refers to another document, and every Python client of a credential that is shown it refuses all its documents:
  `Discoveries.AcceptedExactly` gives the exact condition, which the host can check on the schemas before it starts. And
  names and paths share the dispatcher's alias table while no manifest check compares them:
  `Discoveries.StartupVerdict` gives the exact condition for a dispatcher to start.
- Documentation and code differ in one place that matters here: the schema published for an integer parameter has no
  upper bound and admits `1.0`, while requests take integer literals below 2^64 only, as docs/protocol.md:254-256 says
  in words. The model follows the code (`Services.SchemaIsWider`).

## Left out

- HTTP, routing, TLS, Unix sockets, framing and the parsing of JSON text: parsed requests, responses and values are inputs,
  and a body that is not JSON is `None`. Environment variables and settings files likewise.
- Authentication, admin authorization, header handling and custom authenticators: the identity of a caller is given.
- Telemetry, tracing, metrics, request logging and signal handling.
- Integer widths: admission numbers, revisions and counters are unbounded, so the panic when 2^64 admission numbers are
  used up is not modelled; the budget counter is an integer so that an underflow would show.
- Memory ordering: atomics are sequentially consistent. Admission and scheduling read the one relaxed flag
  under the queue lock.
- Wall-clock bounds and fairness: order, counts and enabledness are proved, not latency, and no statement says that an
  enabled step is eventually taken. `GatewayDrain.DrainCompletes` and `DropCompletes` say that a drain can be completed,
  not that it is.
- Bounds on the test-only rejection: it may answer any agent submission that has not taken the lock, not only the first.
- The critical sections of `AppStates` let other tasks go on between maintenance, permit, push, each hand-off and the end;
  inside one scan, selection or drain only the clock and departures move. `GatewayInterference.BlockIsAtomic` shows that
  nothing is lost by that.
- Routes.AddRoutes: nothing is said about the table after an error, because the code may have inserted entries by then.
- Routes.Initialize: the checks of the dispatcher's own configuration (token list, capacity, origin) and the fetches are not
  part of this model.
- Retry.Execute: parameters are validated before the loop, and decimal delays too long for Python to convert are not modelled.
- Sdk.AsyncClient.Call: direct mode only, not the mode that forwards to a dispatcher. Whether the parameters meet the
  published schema is an input, and so is a deadline that falls while a lock is awaited, except while the final lock of an
  attempt is. The checks of the timeout arguments come before the loop and are not part of this model. A decimal delay too
  long for Python to convert is not modelled: there the conversion raises ValueError, and the model reports the deadline.
- Sdk.AsyncClient.Refresh: the fetch itself, its size limit and its two-second timeout are a document or a failure. Whether
  an input schema is itself a valid JSON Schema is not part of this model.
- Discoveries.AcceptedExactly: the check that an input schema is itself a valid JSON Schema is not part of this model, so a
  registered schema that is none is refused by Python clients as well.
- Dispatching follows one request: others of the same dispatcher are other callers of the gateway, and the attempt queue and
  the gate only delay a dispatch, so their order among requests is not part of this model.
- DispatchReplies.RetryGoesOn: the delay itself is that of `Retry.Run`; here a retry may come at any time.
- DispatchReplies.ReplyIsExplained: a reply too large for a frame is replaced by an error marked unknown when it is written;
  the state modelled is that before writing. Requests refused before dispatching (malformed, unregistered, unknown
  operation, full) never reach this machine.
- Services.RequestMeetsSchema: mapped operations only; native handlers validate their own input.
- Services.Parse: error texts are shortened to their kind, without the index.
- The local connectors, the operation builders, benchmarks, load generators, examples and release scripts.
