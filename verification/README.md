# TaskGrid dispatcher: model and proofs

TaskGrid distributes tasks that clients post over workers. The dispatcher keeps every task in a
store, queues it, asks the naming service for workers of the task's type, sends the task to one of
them and waits for the result. A timeout puts a silent task back into the queue a bounded number of
times. Three parties compete for a task that is out: the outcome of the `ExecuteTask` call, the
timeout callback, and `ReturnResult`. Outcomes and results of earlier attempts can arrive after a
retry. This project models that protocol, the naming service and the worker's side of an attempt,
and proves what holds in every run.

## How the model is built

* **State machines on values.** `DispatcherSpec` (tasks, queue, threads that carry a task,
  outstanding calls, timers) and `RegistrySpec` (list of entries, `idcount`) define one function per
  handler and a `Step` over all events. Every event is possible in every state, so a run is any
  sequence of events: any lookup answer, any call outcome at any time, any result message, any timer
  order.
* **Programs on shared objects.** `StateMachine.Task`, `TaskStorage`, `DispatcherLoop`, `Servicer`,
  `RoundRobin`, `Collector`, `Registry` and `WorkerSide` are the classes of the program with their
  fields updated in place and their loops. Each method is proved to compute the step of the same
  meaning. `Program.Drive` and `Registry.Namensdienst.Serve` lift this to any schedule, so the
  theorems about runs are theorems about the objects.
* **Theorems about runs.** `DispatcherCustody` and `DispatcherRecords` hold the invariants,
  `DispatcherRuns`, `DispatcherFlow`, `DispatcherTimes`, `DispatcherProgress`, `Monitoring`, `RoundRobin`
  and `RegistryRuns` the results.
* **What is answered.** `ClientAnswers`, `Figures` and `RegistryLaws` state the answers to clients, the
  figures of the report and the requests to the naming service on the events of the run and the fields of
  tasks and entries, apart from the functions that compute them; `WorkerSide.ExecutionByCases` does so for
  the worker.
* **The composed system.** `Grid` joins dispatcher, naming service and workers by messages that may be
  delivered late, out of order, repeatedly or never; `GridCalls` says where calls go and `GridProgress`
  that tasks can still complete.
* **A finer grain.** `FineGrain` interleaves one task at single `transition()` calls. `FineSafety` says
  what still holds there, `FineCustody` when a task can be lost, `FineLate` what comes too late, and
  `FineRuns` holds runs in which something happens that cannot happen when handlers are atomic.

Two fields of a task are history variables that no step reads: `path` (every status it had) and
`attempts` (how often it was sent to a worker).

## Assumptions

* In all modules but `FineGrain` and the other `Fine` modules a handler segment between two blocking
  calls is atomic. The program takes no lock per task, so this is an assumption about scheduling.
  `FineGrain` drops it for one task. There each of these is a move of its own: one `transition()` call,
  one test of the status, one cancel, counting a retry, starting a timer, starting a call, writing a
  result. These still go together in one move: a store lookup and the read that follows it, a reply and
  the transition it causes, counting a retry and comparing the count with the limit, a transition and the
  assigned worker and store update that follow it, registering and starting a timer, leaving the executor
  and queueing again.
  `ResultUndisturbed`, `TimeoutUndisturbed`, `RejectionUndisturbed`, `RepliesUndisturbed` and
  `DispatchUndisturbed` show that the handlers, run without interruption, have the effect of the coarse
  ones.
* Clocks are parameters: integers in the dispatcher, reals in the naming service. A claim about time
  assumes readings that never run backwards and says so.
* Task ids are numbers; the decimal strings of the program name the same ids one to one.

## What the proofs show

* While a task waits, exactly one queue entry or thread carries it and no timer runs; while it runs,
  nothing carries it and exactly one timer, the registered one, runs. A cancel that hits a running
  timer ends that step in a terminal status. A terminal task never has a running timer.
* A terminal task has no carrier either, except when a failure (a report of one, or a rejected call)
  met it while it waited: then, and only then, the queue entry, executor slot, no-worker sleeper or
  delayed retry that carried it remains (`LeftoverCarrier`). It never gains another, so all ended tasks
  are let go throughout a run if and only if no failure meets a waiting task in it
  (`EndedGainsNoCarrier`, `EndedTasksAreLetGo`; `LeftoverHappens` is a run with a leftover).
* No task is stuck: from every reachable state the dispatcher's own events can still end an unfinished
  task, and can send it to where one result completes it, if lookups name a worker (`NoTaskIsStuck`).
* A task is sent at most max(1, `MAX_RETRIES`) times and changes its status at most four times as
  often plus once, however often it is queued again for lack of a worker.
* A client that sees COMPLETED sees the handler's value for the type and payload it posted. Whatever
  happened before, as long as a task has not ended and its handler returns, there is a way to go on that
  completes it with that value (`EveryTaskCanComplete`).
* A client is answered with the status and text of the event that ended its task, from then on; what
  `ReturnResult` acknowledges as stored is what `GetResult` answers (`AnswerComesFromTheRun`,
  `StoredResultIsAnswered`).
* Timestamps are readings of events: the posting, the last sending and the ending, in this order for a
  completed task (`DurationIsBetweenEvents`).
* Every call goes to a worker that was registered in the run, at that address, for the task's type
  (`CallsGoToRegisteredWorkers`).
* At single transitions the bounds on attempts, retries and status changes still hold, the terminal
  status has one writer, and the result is written at most once, by the winner. Other things that hold
  at the coarse grain do not hold there, among them these:
  * A terminal answer need not be final: a client can read COMPLETED with an empty result. The answer is
    final exactly if no `ReturnResult` call stands between its transition and its write with a different
    text (`FinalUnlessWritePending`, `EarlyLook`). `GetResult` reads the status and then the result, so
    it can also answer a status that is not terminal together with a text, exactly if the text was
    written between the two reads (`AnswerReadInTwoSteps`, `TornAnswer`).
  * A task can be lost, with its timer cancelled and the status PROCESSING for good. A step loses it
    exactly if it is an accepting reply (in practice of an earlier attempt) that arrives while the timer
    is cancelled and all `ReturnResult` calls under way have already found the task DISPATCHED: their own
    change to PROCESSING is then refused and they give up (`LostExactlyByRace`, `RaceHappens`). Not lost
    means that it can still end without any new result or rejection, and lost that it cannot
    (`HeldMeansCanEnd`). With the default timings the call deadline of 5 seconds lies well before the
    30-second timer, so such a late reply needs a shorter timer; the model has no durations.
  * A task that has ended can have a running timer, exactly if its dispatch started it after the end or
    the call that ended the task had cancelled before the timer was started. Such a timer changes
    nothing when it fires (`TimerOutlivesExactly`, `OutlivingTimerIsHarmless`, `LateTimerHappens`).
  * After the end a retry can still be counted, if the callback had set RETRYING and not yet counted, and
    a call can still start, if its dispatch had not yet started it. Nothing else is counted or started
    (`WhatFollowsTheEnd`, `LateCountHappens`).
  * A running task can be without a running timer: before its dispatch has started it, while the
    callback is at work, and after a cancel (`PlacesOfTheChain`).
  * A refused `ReturnResult` call can have changed the task: it set PROCESSING and its second transition
    was refused. That happens exactly if by then the task has ended or timed out or, for a COMPLETED
    report, waits or is DISPATCHED again; and the status leaves PROCESSING in between exactly if the
    timeout callback takes the task on or another result or a rejection ends it (`RefusedAfterAChange`;
    both ways as runs: `RefusedByTheCallback`, `RefusedByAnotherCall`).
* The lookup never returns an entry silent for x or longer at the last sweep; this holds for all
  runs exactly if x is positive.
* A sweep takes a worker out exactly if all its entries have been silent for x * y or longer; from then
  on it is not returned and its heartbeats are refused until it registers again (`SilentWorkerIsRemoved`).
* A worker that heartbeats in time keeps its first entry. Heartbeats do not reach its other entries:
  a worker registered for several types loses the later ones at the first sweep that comes x or more
  after registration.

## Where documents and code disagree

The model follows the code.

* `docs/STATE_MODEL.md:98` omits PROCESSING → TIMEOUT, which `src/dispatcher/state_machine.py:34`
  allows.
* `docs/STATE_MODEL.md:53` and `docs/STATE_MODEL.md:74` let a QUEUED task fail when no worker is
  found for long. The code waits without limit: `Grid.NothingFailsUntried`, `Grid.UnservedTypesWait`.
* `docs/STATE_MODEL.md:77` and the docstring at `src/dispatcher/worker_client.py:26-27` say that a
  gRPC error fails the task; the call returns None and the timer decides.
* `src/dispatcher/namensdienst_client.py:48` promises ACTIVE workers; the lookup also returns DRAINING
  ones (`src/namensdienst/nameservice.py:58-61`).
* `MAX_RETRIES` is called the number of repetitions (`docs/STATE_MODEL.md:135`); it bounds the
  attempts, so a task is repeated at most `MAX_RETRIES` - 1 times.

## Model

| member | source | states |
|---|---|---|
| `Protocol.TaskIdCounter.NewTaskId` | src/common/protocol.py:38-45 | Ids handed out are 1, 2, 3, ... without repetition. |
| `DispatcherSpec.Admission` | src/dispatcher/servicer.py:77-96 | A request is accepted iff the type has 1 to 32 and the payload at most 1024 characters; a missing type, a type too long and, with a good type, a payload too long are refused as such. |
| `StateMachine.Task.DoTransition` | src/dispatcher/state_machine.py:30-62 | The in-place transition succeeds iff the table allows it, sets status and timestamps as specified, and otherwise leaves the task as it was. |
| `StateMachine.TableIsTheDiagram` | src/dispatcher/state_machine.py:30-39 | The table allows exactly the twelve arrows of the diagram; terminal are exactly the statuses without one, and every status but CREATED has one leading to it. |
| `StateMachine.MovedExtendsPath` | src/dispatcher/state_machine.py:30-62 | An allowed transition extends a legal status history to a legal one that ends in the new status. |
| `StateMachine.EveryChangeIsPaidFor` | src/dispatcher/state_machine.py:30-39 | Every change in the table strictly lowers a measure on remaining retries and status rank. |
| `RoundRobin.RoundRobinSelector.Select` | src/dispatcher/worker_selector.py:27-39 | The counter of the type picks the worker modulo the list length and advances; an empty list picks nobody and changes nothing. |
| `RoundRobin.PicksAreARotation` | src/dispatcher/worker_selector.py:27-39 | Whatever other types and empty lists come in between, the choices for a type are one rotation from where its counter stood. |
| `RoundRobin.FirstPicksFirst` | src/dispatcher/worker_selector.py:23-39 | From the start, selection j of a type takes index j modulo the length of its lists. |
| `RoundRobin.SelectionIsFair` | src/dispatcher/worker_selector.py:27-39 | In any sequence of calls each of the n indices of a type's lists is chosen floor(k/n) or ceil(k/n) times in k selections, and exactly once in any n consecutive ones. |
| `TaskStorage.TaskQueue.Enqueue` | src/dispatcher/task_queue.py:17-18 | Appends the reference at the end. |
| `TaskStorage.TaskQueue.Dequeue` | src/dispatcher/task_queue.py:20-25 | Takes the oldest reference, or None from an empty queue. |
| `TaskStorage.TaskStore.Add` | src/dispatcher/task_store.py:18-20 | Maps the id to this very object and keeps insertion order. |
| `TaskStorage.TaskStore.Get` | src/dispatcher/task_store.py:22-24 | Hands out the stored object itself, or None. |
| `TaskStorage.TaskStore.Update` | src/dispatcher/task_store.py:26-31 | For a stored object changes nothing: no KeyError, no other object under the id. |
| `DispatcherLoop.DispatchLoop.RunRound` | src/dispatcher/dispatch_loop.py:87-98 | One round takes the oldest task and submits it iff its stored status is QUEUED or RETRYING. |
| `DispatcherLoop.DispatchLoop.Try` | src/dispatcher/dispatch_loop.py:144-153 | A guarded transition and update: refused ones leave store and task as they were. |
| `DispatcherLoop.DispatchLoop.MarkSent` | src/dispatcher/dispatch_loop.py:116-125 | DISPATCHED, the assigned worker and one more attempt, or nothing at all. |
| `DispatcherLoop.DispatchLoop.SendTo` | src/dispatcher/dispatch_loop.py:116-139 | A task that may be dispatched gets exactly one timer and one call to the chosen worker; any other gets neither. |
| `DispatcherLoop.DispatchLoop.Dispatch` | src/dispatcher/dispatch_loop.py:102-139 | An executor slot continues after its lookup: sleeps without a worker, else dispatches; the whole new state is given. |
| `DispatcherLoop.DispatchLoop.Wake` | src/dispatcher/dispatch_loop.py:109-114 | After the no-worker sleep the task is queued again and nothing else changes. |
| `DispatcherLoop.DispatchLoop.CallReturns` | src/dispatcher/dispatch_loop.py:139-176 | True moves to PROCESSING, False cancels the timer and fails, None changes nothing, for any outstanding attempt. |
| `DispatcherLoop.DispatchLoop.StartTimeoutTimer` | src/dispatcher/dispatch_loop.py:231-235 | A new running timer is registered under the id. |
| `DispatcherLoop.DispatchLoop.CancelTimeout` | src/dispatcher/dispatch_loop.py:244-248 | Removes the registered timer and stops it if it still runs. |
| `DispatcherLoop.DispatchLoop.TimeOut` | src/dispatcher/dispatch_loop.py:193-213 | TIMEOUT, RETRYING, one more retry and FAILED once the retries are used up, or nothing. |
| `DispatcherLoop.DispatchLoop.OnTimeout` | src/dispatcher/dispatch_loop.py:183-229 | A firing timer retries, fails or ignores its task; the whole new state is given. |
| `DispatcherLoop.DispatchLoop.DelayOver` | src/dispatcher/dispatch_loop.py:224-229 | After the retry delay the task is queued again. |
| `Servicer.DispatcherServicer.Refusal` | src/dispatcher/servicer.py:77-96 | A request is refused iff the type is missing, the type too long or the payload too large, in that order of precedence. |
| `Servicer.DispatcherServicer.AddTask` | src/dispatcher/servicer.py:98-107 | The new id is one no stored task has; every other id keeps its object; the task enters the store and the queue together. |
| `Servicer.DispatcherServicer.PostTask` | src/dispatcher/servicer.py:67-127 | Refuses without effect or stores and queues a new QUEUED task; no id ever changes its object. |
| `Servicer.DispatcherServicer.GetResult` | src/dispatcher/servicer.py:131-173 | Reports status and result of the stored task, or not found. |
| `Servicer.DispatcherServicer.Conclude` | src/dispatcher/servicer.py:238-256 | Moves through PROCESSING to the reported status and stores the text iff the state machine lets it. |
| `Servicer.DispatcherServicer.ReturnResult` | src/dispatcher/servicer.py:210-275 | Unknown and terminal tasks are left alone; otherwise the timer is cancelled and the result concluded; state and answer are given. |
| `DispatcherCustody.StepKeepsCustody` | src/dispatcher/dispatch_loop.py:87-248 | Every event keeps the rule that one carrier or one registered timer, never both, moves a task that is not terminal. |
| `DispatcherCustody.RpcEffect` | src/dispatcher/dispatch_loop.py:141-176 | True moves a DISPATCHED task to PROCESSING, False fails any task that is not terminal and cancels its timer, whichever attempt they belong to; None, and True for a task that is not DISPATCHED, change no status. |
| `DispatcherRecords.StepMovesTasks` | src/dispatcher/dispatch_loop.py:102-229 | Every step changes every task by one of six record steps, and only a post adds a task. |
| `DispatcherRecords.TaskStepKeepsRecord` | src/dispatcher/dispatch_loop.py:116-213 | Record steps keep attempts, retries, history and result consistent with the status, and pay for each change. |
| `DispatcherRecords.TaskStepFrame` | src/dispatcher/state_machine.py:48-67 | Identity, type, payload and creation time never change, counters never fall, a terminal task does not change at all. |
| `DispatcherRuns.NoTaskIsOrphaned` | src/dispatcher/dispatch_loop.py:87-248 | In every reachable state a waiting task has one carrier and no running timer, a running one no carrier and exactly its registered timer, a terminal one no running timer; none is CREATED or TIMEOUT. |
| `DispatcherRuns.EventChangesItsTask` | src/dispatcher/dispatch_loop.py:102-229 | A step changes at most the task its event is about. |
| `DispatcherRuns.CancelEndsTerminal` | src/dispatcher/servicer.py:230-256 | Whatever cancels a running timer, stale or not, ends that step in a terminal status. |
| `DispatcherRuns.LeftoverCarrier` | src/dispatcher/dispatch_loop.py:154-168 | A task that becomes terminal keeps a carrier iff it was waiting at that moment. |
| `DispatcherRuns.LeftoverHappens` | src/dispatcher/servicer.py:238-256 | A run with the default timings in which a late failure report leaves a terminal task with its delayed retry. |
| `DispatcherRuns.AttemptsAreBounded` | src/dispatcher/dispatch_loop.py:116-213 | Attempts and retries stay within max(1, MAX_RETRIES); they differ by one while running, agree while waiting, and by zero or one at the end. |
| `DispatcherRuns.HistoryIsABoundedPath` | src/dispatcher/state_machine.py:30-62 | The history is a path of the table from QUEUED with at most 4 max(1, MAX_RETRIES) + 1 changes in any run. |
| `DispatcherRuns.StatusChangesArePaidFor` | src/dispatcher/dispatch_loop.py:105-213 | A step that changes a status lowers the measure, which never becomes negative; queueing again for lack of a worker is free. |
| `DispatcherRuns.TasksPersist` | src/dispatcher/task_store.py:18-31 | Over any continuation a task stays under its id with its type and payload, and a terminal one stays as it is. |
| `DispatcherRuns.ClientViewIsStable` | src/dispatcher/servicer.py:131-173 | No result before the end, and after a terminal answer every later answer is identical. |
| `DispatcherRuns.PostedTasksStay` | src/dispatcher/servicer.py:98-107 | An accepted request gets an id larger than all before and is found under it ever after. |
| `DispatcherRuns.CompletedTimesAreSound` | src/dispatcher/state_machine.py:55-60 | With a positive clock that never runs backwards 0 < timestamp_dispatched <= timestamp_completed for every COMPLETED task. |
| `DispatcherTimes.StepStamps` | src/dispatcher/state_machine.py:55-60 | The step that sends a task, and no other, sets its dispatch time, to that event's reading, and its worker; the step that ends it, and no other, its completion time. |
| `DispatcherTimes.PostOf` | src/dispatcher/servicer.py:98-107 | Type, payload and creation time of a task are those of the event that posted it. |
| `DispatcherTimes.SendOf` | src/dispatcher/state_machine.py:57-58 | Dispatch time and assigned worker of a task are those of the last event that sent it: its reading and the worker it called. |
| `DispatcherTimes.EndOf` | src/dispatcher/state_machine.py:59-60 | The completion time of a task is the reading of the event that ended it, and the task has not changed since. |
| `DispatcherTimes.NotYet` | src/dispatcher/task.py:26-27 | A task never sent has dispatch time 0, an unfinished one completion time 0. |
| `DispatcherTimes.DurationIsBetweenEvents` | src/dispatcher/status_collector.py:34-39 | The duration of a completed task is the reading of its ending event minus that of its last sending; posting, sending and end come in this order. |
| `DispatcherFlow.QueueIsFifo` | src/dispatcher/task_queue.py:17-25 | Over any run entries leave the queue in order and nothing overtakes. |
| `DispatcherFlow.RoundByCases` | src/dispatcher/dispatch_loop.py:87-98 | A round takes the oldest entry off the queue, submits its task iff it is QUEUED or RETRYING, and changes nothing else. |
| `DispatcherFlow.EndedEntryIsDropped` | src/dispatcher/dispatch_loop.py:93-96 | The leftover entry of an ended task is gone once its turn has come. |
| `DispatcherFlow.AttemptsAreCalls` | src/dispatcher/dispatch_loop.py:137-139 | In every run the returned and the outstanding calls about a task add up to its attempts, at most max(1, MAX_RETRIES). |
| `DispatcherFlow.AttemptGoesToTheChosen` | src/dispatcher/dispatch_loop.py:105-139 | The worker assigned, the worker called and the worker the selector chose for a new attempt are the same. |
| `DispatcherFlow.RunsSelectInTurn` | src/dispatcher/dispatch_loop.py:105-107 | The counters of a run are those of its sequence of selections, to which the fairness of the selector applies. |
| `DispatcherFlow.HowTasksEnd` | src/dispatcher/servicer.py:238-256 | A task ends with status and text of a result for it, or as FAILED without a text by the rejection of a call about it or by its own running timer, and then it was sent and retried exactly max(1, MAX_RETRIES) times. |
| `DispatcherFlow.AnswersAreTrue` | src/dispatcher/servicer.py:215-275 | Stored iff this message ended the task, refused iff COMPLETED came for a waiting task, unknown and late results as such; only Stored changes the store. |
| `ClientAnswers.AnswerComesFromTheRun` | src/dispatcher/servicer.py:131-173 | Found are exactly the ids of accepted requests; an unfinished task is answered with its last status and no text, an ended one with status and text of the event that ended it. |
| `ClientAnswers.StoredResultIsAnswered` | src/dispatcher/servicer.py:241-256 | After an acknowledged result every answer is COMPLETED with that result or FAILED with that error, as the message says. |
| `ClientAnswers.EndIsAnswered` | src/dispatcher/servicer.py:167-172 | A task that ends is answered ever after as the ending event says: FAILED without a text after a rejection or the last timeout. |
| `DispatcherFlow.EndedGainsNoCarrier` | src/dispatcher/dispatch_loop.py:87-229 | No event gives a task that has ended another carrier. |
| `DispatcherFlow.EndedTasksAreLetGo` | src/dispatcher/dispatch_loop.py:87-229 | Throughout a run the tasks that have ended are without a carrier iff no failure report and no rejected call meets a waiting task in it. |
| `DispatcherFlow.SpentTimersExpired` | src/dispatcher/dispatch_loop.py:231-248 | In every run the timer dictionary holds, besides running timers, only timers that expired: a cancel takes its entry out. |
| `DispatcherProgress.NoTaskIsStuck` | src/dispatcher/dispatch_loop.py:87-235 | From every reachable state rounds, wake-ups, timers and lookups that name a worker can end an unfinished task as FAILED, and can bring it to where one result completes it with its text. |
| `Monitoring.RetriesAreFirings` | src/dispatcher/dispatch_loop.py:193-197 | Over any run the sum of retry counts grows by exactly the number of timers that fired. |
| `Monitoring.AcceptedAreStored` | src/dispatcher/servicer.py:98-107 | Over any run the store grows by exactly the accepted requests. |
| `Monitoring.ReportConserves` | src/dispatcher/status_collector.py:19-26 | In every reachable state queued + running + completed + failed is the number of requests accepted in the run, no task rests in CREATED or TIMEOUT, and timeouts is the number of timers that fired. |
| `Monitoring.AverageIsSound` | src/dispatcher/status_collector.py:28-41 | The filter selects exactly the COMPLETED tasks and the average, rounded to one decimal, lies between any bounds on their durations. |
| `Figures.ReportIsTrue` | src/dispatcher/status_collector.py:21-60 | Each figure is the number of stored tasks with its statuses; the average is the total duration of the measured tasks by their number to one decimal; types are those stored, active workers the distinct ids their lookups return. |
| `Figures.RoundingIsNearest` | src/dispatcher/status_collector.py:35-39 | Rounded is the nearest tenth, and of two equally near the even one. |
| `Monitoring.LoadMapAgrees` | src/dispatcher/task_store.py:41-53 | The workers with load account for all DISPATCHED and PROCESSING tasks if lookups name their workers. |
| `Collector.CountByStatus` | src/dispatcher/task_store.py:37-39 | The loop counts the stored tasks of a status. |
| `Collector.WorkerLoadMap` | src/dispatcher/task_store.py:41-53 | The accumulated map gives each worker exactly its number of running tasks and has no other entries. |
| `Collector.ActiveWorkers` | src/dispatcher/status_collector.py:45-48 | The nested loops collect exactly the ids that the lookups of the known types return. |
| `Collector.GetStatus` | src/dispatcher/status_collector.py:18-60 | All figures of the report: counts, sums, rounded average, known types and number of active workers. |
| `Program.Assemble` | src/dispatcher/server.py:27-46 | The parts share one store and one queue and start in the initial state. |
| `Program.HeldReferencesAreStored` | src/dispatcher/task_store.py:18-31 | Every task reference held by queue, threads or calls is the very object the store maps its id to. |
| `Program.Perform` | src/dispatcher/dispatch_loop.py:87-248 | Each handler segment on the shared objects is the step of the state machine for its event. |
| `Program.Drive` | src/dispatcher/dispatch_loop.py:87-248 | Any schedule of handler segments takes the objects through the run of the state machine, and every id keeps its object. |
| `Program.RunAndReport` | src/dispatcher/servicer.py:177-206 | After any schedule each reported figure is the number of stored tasks with its statuses, they add up to the requests accepted, and timeouts, average, types and active workers are those of the run. |
| `Program.RunAndMap` | src/dispatcher/task_store.py:41-53 | After any schedule whose lookups name their workers the map gives each worker the number of tasks running on it, has no other entries, and its values add up to the number of running tasks. |
| `Registry.Where` | src/namensdienst/nameservice.py:58-61 | A list comprehension keeps exactly the matching entries in order. |
| `Registry.Namensdienst.Keep` | src/namensdienst/nameservice.py:31-34 | The list is rebuilt from the entries that satisfy a condition, in order; idcount stays. |
| `Registry.Namensdienst.AddEntries` | src/namensdienst/nameservice.py:36-51 | The append loop adds one entry per listed type, numbered on from idcount. |
| `Registry.Namensdienst.RegisterWorker` | src/namensdienst/nameservice.py:24-54 | Replaces the entries of this worker at this address, or refuses a missing id; list, idcount and answer are given. |
| `Registry.Namensdienst.LookupWorker` | src/namensdienst/nameservice.py:56-61 | Returns the entries of the type that are neither UNHEALTHY nor OFFLINE, in order. |
| `Registry.Namensdienst.DeregisterWorker` | src/namensdienst/nameservice.py:86-92 | Removes the entries of the id; list and answer are given. |
| `Registry.Namensdienst.SendHeartbeat` | src/namensdienst/nameservice.py:94-108 | Refreshes the first entry with the id in place and no other; list and answer are given. |
| `Registry.Namensdienst.Visit` | src/namensdienst/nameservice.py:118-126 | One entry in the sweep: left alone, marked, or marked and removed from the list. |
| `Registry.Namensdienst.Walk` | src/namensdienst/nameservice.py:117-126 | Removing from the list while walking a copy visits every entry once and leaves exactly the kept references. |
| `Registry.Namensdienst.Sweep` | src/namensdienst/nameservice.py:113-126 | Leaves exactly the entries silent for less than x * y in their order, those silent for x or more marked UNHEALTHY, others untouched. |
| `Registry.Namensdienst.Serve` | src/namensdienst/nameservice.py:24-126 | Any sequence of requests and sweeps takes the list of objects through the run of the value model. |
| `RegistrySpec.SweptIn` | src/namensdienst/nameservice.py:115-126 | The entries after a sweep are exactly those silent for less than x * y, marked if silent for x or more. |
| `RegistryLaws.RegisterByCases` | src/namensdienst/nameservice.py:24-54 | A registration is confirmed iff it names a worker; then its entries at that address are replaced by one per listed type with its fields, numbered on from idcount; otherwise nothing changes. |
| `RegistryLaws.LookupByStatus` | src/namensdienst/nameservice.py:56-61 | Returned are exactly the entries of the type with any status but UNHEALTHY and OFFLINE, DRAINING included, in the order of their numbers. |
| `RegistryLaws.HeartbeatByCases` | src/namensdienst/nameservice.py:94-108 | A heartbeat is confirmed iff its worker has an entry; it sets time, load and status of the one with the lowest number and nothing else. |
| `RegistryLaws.SweepBySilence` | src/namensdienst/nameservice.py:113-126 | A sweep keeps exactly the entries silent for less than x * y, marked UNHEALTHY if silent for x or more, else unchanged. |
| `RegistryLaws.SweepByNumber` | src/namensdienst/nameservice.py:124-126 | An entry is still in the list after a sweep iff it was silent for less than x * y. |
| `RegistryLaws.SilentWorkerIsRemoved` | src/namensdienst/nameservice.py:86-126 | A sweep removes a worker iff all its entries were silent for x * y or longer; then no lookup returns it and its heartbeats and deregistrations are refused until it registers again. |
| `RegistryLaws.SilenceRemoves` | src/namensdienst/nameservice.py:113-126 | In any run, a sweep x * y or more after the last registration and heartbeat of a worker leaves no entry of it. |
| `RegistryRuns.NumbersRise` | src/namensdienst/nameservice.py:37-51 | In every run entry numbers rise along the list and stay below idcount. |
| `RegistryRuns.StepEntries` | src/namensdienst/nameservice.py:24-126 | Entry by entry, what each request and sweep keeps, changes, drops and adds. |
| `RegistryRuns.EveryEntryWasHeard` | src/namensdienst/nameservice.py:47-106 | The time kept in an entry is that of an accepted registration of its worker or of a heartbeat naming it in the run. |
| `RegistryRuns.LookupsAreNotStale` | src/namensdienst/nameservice.py:113-126 | For positive x there was, for every entry a lookup returns, a registration or heartbeat later than x before the last sweep, and the entry's time says so. |
| `RegistryRuns.StalenessBound` | src/namensdienst/nameservice.py:113-126 | That bound holds of all runs with a clock that never runs backwards iff x is positive. |
| `RegistryRuns.EntriesOfLatestRegistration` | src/namensdienst/nameservice.py:31-51 | All entries of one worker id, address and port come from its latest accepted registration, each for the listed type of its number. |
| `RegistryRuns.RegisterReplaces` | src/namensdienst/nameservice.py:31-51 | A registration leaves exactly one entry per listed type of that worker and all other entries as they were. |
| `RegistryRuns.AnswersAboutAbsent` | src/namensdienst/nameservice.py:86-108 | Heartbeats are confirmed iff they name a worker with an entry, deregistrations iff an entry was removed; no lookup returns a worker without one. |
| `RegistryRuns.DeregisteredWorkerIsGone` | src/namensdienst/nameservice.py:86-92 | Deregistration succeeds iff there was an entry; until a new registration no lookup returns the worker and its heartbeats are refused. |
| `RegistryRuns.FirstEntryIsKept` | src/namensdienst/nameservice.py:113-126 | The first entry of a worker that is never silent for x stays in the list as ACTIVE through every sweep when y >= 1. |
| `RegistryRuns.EntryBehindGoesStale` | src/namensdienst/nameservice.py:101-106 | Any other entry stays as it is until a sweep finds it silent for x and is unusable or gone from then on, in spite of heartbeats. |
| `RegistryRuns.LiveWorkerIsKept` | src/namensdienst/nameservice.py:94-126 | A lookup returns an entry of such a worker iff it is its first or no sweep came x or more after the entry was last heard of. |
| `WorkerSide.WorkerService.SendResult` | src/worker/worker.py:204-227 | One message is handed to the network, whether or not the call raises. |
| `WorkerSide.WorkerService.Begin` | src/worker/worker.py:329-349 | A request is refused while draining, else it is one more execution under way and one more unit of load. |
| `WorkerSide.WorkerService.Handle` | src/worker/worker.py:356-372 | The handler's value is reported; the execution ends iff that worked, else the failure is to be reported. |
| `WorkerSide.WorkerService.ReportFailure` | src/worker/worker.py:374-407 | The failure is reported and the execution ends, whether or not the report raises. |
| `WorkerSide.WorkerService.ExecuteTask` | src/worker/worker.py:325-407 | Messages sent and answer given in every case (draining, success, raising handler, raising sends), with the load restored; for every listed type whose handler returns, exactly its value is reported. |
| `WorkerSide.WorkerService.Serve` | src/worker/worker.py:229-407 | Under any overlapping of executions the load is their number, and every COMPLETED message belongs to a request that came in and holds its handler's value. |
| `WorkerSide.ReportsAreHonest` | src/worker/worker.py:184-202 | COMPLETED is reported only for the request at hand with the handler's value; accepted iff that was the only message; a rejection without draining follows a FAILED message. |
| `WorkerSide.ExecutionByCases` | src/worker/worker.py:184-202 | Which messages go out with which texts: the handler's value for every listed type with a handler that returns; FAILED exactly if the type is not listed, has no handler, the handler raises or the first sending raised, naming that cause. |
| `WorkerSide.OutcomeByCases` | src/dispatcher/worker_client.py:47-56 | The call is accepted iff the worker does not drain, lists the type, has a handler that returns and could report; an error iff neither message could be sent; else rejected. |
| `WorkerSide.DigitsAreDecimal` | src/worker/worker.py:374-378 | Task ids appear in error texts as their decimal numerals. |
| `Grid.UntriedStaysQueued` | src/dispatcher/dispatch_loop.py:105-125 | A task never sent to a worker changes only by being dispatched to one that a lookup for its type named. |
| `Grid.WorldStepKeeps` | src/worker/worker.py:356-404 | Every move of the composed system keeps requests, results, answers and tasks honest. |
| `Grid.WorldRunsAreRuns` | src/dispatcher/namensdienst_client.py:46-96 | Seen from the dispatcher every run of the composed system is one of its runs, with lookup answers that name their workers. |
| `Grid.CompletedMeansComputed` | src/dispatcher/servicer.py:131-173 | Whatever is posted at any point of any run, COMPLETED is reported only with the handler's value for the posted type and payload, and never if the handler raises or is missing. |
| `Grid.NothingFailsUntried` | src/dispatcher/dispatch_loop.py:105-114 | A task that left QUEUED was sent to a worker between 1 and max(1, MAX_RETRIES) times. |
| `Grid.LoadMapOfTheSystem` | src/dispatcher/task_store.py:41-53 | In the composed system the load map accounts for every running task. |
| `Grid.UnservedTypesWait` | src/dispatcher/dispatch_loop.py:105-114 | A task of a type never registered is QUEUED with no attempt, no retry, one carrier and no running timer in every reachable state. |
| `Grid.TasksComplete` | src/worker/worker.py:325-375 | The claims are not empty: a run of the composed system that completes a posted task with the handler's value. |
| `GridCalls.CallsGoToRegisteredWorkers` | src/dispatcher/dispatch_loop.py:105-139 | Every outstanding call goes to the id, address and port of a worker that was registered in the run for the task's type. |
| `GridCalls.HandledRequestIsReported` | src/worker/worker.py:356-372 | A request whose type the worker lists and whose handler returns puts the handler's value on its way. |
| `GridProgress.EveryTaskCanComplete` | src/dispatcher/dispatch_loop.py:87-248 | From every reachable state of the composed system an unfinished task whose handler returns can still be answered COMPLETED with that value. |
| `FineGrain.ResultUndisturbed` | src/dispatcher/servicer.py:230-256 | The single moves of a ReturnResult call, run without interruption, have the effect of the one-step handler. |
| `FineGrain.TimeoutUndisturbed` | src/dispatcher/dispatch_loop.py:183-229 | The same for the timeout callback, whatever status it finds. |
| `FineGrain.RejectionUndisturbed` | src/dispatcher/dispatch_loop.py:154-168 | The same for the handler of a rejected call. |
| `FineGrain.RepliesUndisturbed` | src/dispatcher/dispatch_loop.py:141-176 | An accepted reply moves the task as the coarse one does, one that meets an error changes no status; each ends one call. |
| `FineGrain.DispatchUndisturbed` | src/dispatcher/dispatch_loop.py:102-139 | The same for an executor slot after its lookup. |
| `FineSafety.FineAttemptsAreBounded` | src/dispatcher/dispatch_loop.py:116-213 | At single transitions at most max(1, MAX_RETRIES) calls are started, the retry count stays within that bound and the status changes at most 4 max(1, MAX_RETRIES) + 1 times. |
| `FineSafety.PlacesOfTheChain` | src/dispatcher/dispatch_loop.py:87-235 | Where a waiting, a timed out and a running task without a running timer can stand. |
| `FineSafety.WhatFollowsTheEnd` | src/dispatcher/dispatch_loop.py:135-203 | After the end only the retry that the callback was about to count is counted, and only the calls that dispatches were about to start are started. |
| `FineSafety.TerminalIsFinal` | src/dispatcher/state_machine.py:48-67 | At single transitions a terminal status never changes and neither does the actor that set it. |
| `FineSafety.WrittenByTheWinner` | src/dispatcher/servicer.py:238-256 | The result is written at most once, only by the call whose transition set the terminal status, with its own text. |
| `FineSafety.FinalUnlessWritePending` | src/dispatcher/servicer.py:167-172 | A terminal answer is final iff no winning call still has a different text to write. |
| `FineSafety.AnswerReadInTwoSteps` | src/dispatcher/servicer.py:170-171 | Read as status and then result, an answer that is not terminal has a text iff it was written between the reads; the task has then ended with that text for good. |
| `FineRuns.EarlyLook` | src/dispatcher/servicer.py:244-256 | A run in which a client reads COMPLETED with an empty result. |
| `FineRuns.TornAnswer` | src/dispatcher/servicer.py:170-171 | A run in which the two reads of one answer give DISPATCHED and the text of the result. |
| `FineCustody.LostExactlyByRace` | src/dispatcher/servicer.py:235-251 | A step leaves a task with nothing that moves it iff it is an accepting reply that overtakes every ReturnResult call under way between test and transition. |
| `FineCustody.HeldMeansCanEnd` | src/dispatcher/servicer.py:235-251 | In every reachable state something moves the task iff it can still end without any new result or rejection. |
| `FineCustody.RaceFreeRunsHold` | src/dispatcher/servicer.py:235-251 | In runs without such a reply something always moves the task. |
| `FineCustody.LostForGood` | src/dispatcher/dispatch_loop.py:144-153 | After it the task stays PROCESSING until another result or rejection arrives. |
| `FineRuns.RaceHappens` | src/dispatcher/servicer.py:235-251 | A run with two attempts in which this happens: the first result comes too late and is refused, then the first call is accepted in the midst of the second result. |
| `FineLate.TimerRunsSince` | src/dispatcher/dispatch_loop.py:231-248 | After any run a timer runs iff some event of it started the timer and it has neither fired nor been cancelled since. |
| `FineLate.TimerOutlivesExactly` | src/dispatcher/dispatch_loop.py:135-248 | A terminal task gets a running timer iff its dispatch starts it after the end, or the call that ends the task cancelled at an earlier event of the run than the one that started the timer. |
| `FineLate.OutlivingTimerIsHarmless` | src/dispatcher/dispatch_loop.py:183-186 | Such a timer leaves everything as it was when it fires. |
| `FineRuns.LateTimerHappens` | src/dispatcher/dispatch_loop.py:135-235 | A run in which a task that has ended gets a running timer and a call about to start. |
| `FineRuns.LateCountHappens` | src/dispatcher/dispatch_loop.py:195-196 | A run in which a failure is reported between RETRYING and the count, so that the retry is counted after the end. |
| `FineLate.RefusedAfterAChange` | src/dispatcher/servicer.py:238-251 | When a call that set PROCESSING is refused: iff the task has ended, is in TIMEOUT or, for COMPLETED, waits or is DISPATCHED; PROCESSING is left iff the callback takes the task on or another result or a rejection ends it. |
| `FineRuns.RefusedByTheCallback` | src/dispatcher/dispatch_loop.py:184-194 | A run in which a call sets PROCESSING and is refused after the callback set TIMEOUT. |
| `FineRuns.RefusedByAnotherCall` | src/dispatcher/servicer.py:238-251 | A run in which a call sets PROCESSING and is refused after another call ended the task. |

## Left out

- gRPC plumbing, protobuf messages, servers, signal handling, Docker files: only the outcomes of calls remain.
- HTTP status server, JSON, logger, command-line client: presentation.
- Task handlers: one partial function from payloads to values per task type; an exception of a handler is always wrapped (`src/worker/worker.py:199-202`), as no handler raises `TaskProcessingError` itself.
- Durations, sleeps, the limit of ten executor threads and fairness of scheduling: any event may come next.
- Races inside one `transition()` call, and requests to the naming service that overlap a sweep: excluded by the atomicity assumption.
- `DispatcherServicer.lookup_worker` with its own selector: not on the dispatch path.
- Worker shutdown, registration backoff and the heartbeat sender loop: loops around network calls. Heartbeats and registrations are events.
- int32 overflow of task ids.
- Monitoring.AverageIsSound: does not model binary floating point; the quotient is exact before it is rounded.
- Collector.ActiveWorkers: the lookups of one report answer as one function of the type; that the registry may change between them is not modelled.
- Registry.Worker.constructor: does not model the defaults for a missing id or type list, which registration never passes.
- FineGrain: one task, so timestamps and other tasks are those of the coarse model; a `ReturnResult` call may begin at any time.
- Grid: a call may return with any outcome, whatever its worker did, and a request may be executed by any worker.
- Texts of error messages to clients and in acknowledgements: kept as distinct answers, without the text.
