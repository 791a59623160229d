/** The dispatch loop on shared mutable task objects. Each method is one handler segment
    between two blocking calls and is proved to compute the step of DispatcherSpec of the
    same meaning, so everything proved about runs of that state machine holds of it. */
module DispatcherLoop {
  import opened Counting
  import opened Protocol
  import opened StateMachine
  import opened RoundRobin
  import opened TaskStorage
  import Spec = DispatcherSpec

  datatype PendingCall = PendingCall(task: Task, worker: WorkerInfo)

  function Ids(tasks: seq<Task>): seq<nat> {
    seq(|tasks|, i requires 0 <= i < |tasks| => tasks[i].taskId)
  }

  function Calls(calls: seq<PendingCall>): seq<Spec.Rpc> {
    seq(|calls|, i requires 0 <= i < |calls| => Spec.Rpc(calls[i].task.taskId, calls[i].worker))
  }

  ghost predicate CalledIn(calls: seq<PendingCall>, objects: set<Task>) {
    forall i :: 0 <= i < |calls| ==> calls[i].task in objects
  }

  lemma Append(tasks: seq<Task>, t: Task, objects: set<Task>)
    requires AllIn(tasks, objects) && t in objects
    ensures Ids(tasks + [t]) == Ids(tasks) + [t.taskId] && AllIn(tasks + [t], objects)
  {
  }

  lemma Remove(tasks: seq<Task>, k: nat, objects: set<Task>)
    requires AllIn(tasks, objects) && k < |tasks|
    ensures Ids(RemoveAt(tasks, k)) == RemoveAt(Ids(tasks), k) && AllIn(RemoveAt(tasks, k), objects)
    ensures Ids(tasks)[k] == tasks[k].taskId && tasks[k] in objects
    ensures k == 0 ==> Ids(tasks[1..]) == Ids(tasks)[1..] && AllIn(tasks[1..], objects)
  {
  }

  lemma AppendCall(calls: seq<PendingCall>, c: PendingCall, objects: set<Task>)
    requires CalledIn(calls, objects) && c.task in objects
    ensures Calls(calls + [c]) == Calls(calls) + [Spec.Rpc(c.task.taskId, c.worker)]
    ensures CalledIn(calls + [c], objects)
  {
  }

  lemma RemoveCall(calls: seq<PendingCall>, k: nat, objects: set<Task>)
    requires CalledIn(calls, objects) && k < |calls|
    ensures Calls(RemoveAt(calls, k)) == RemoveAt(Calls(calls), k) && CalledIn(RemoveAt(calls, k), objects)
    ensures Calls(calls)[k].taskId == calls[k].task.taskId && calls[k].task in objects
  {
  }

  /** A task offered to a worker: sent there unless it may no longer be. */
  function Sent(s: Spec.Sys, id: nat, worker: WorkerInfo, now: int): Spec.Sys
    requires id in s.store
  {
    if Allowed(s.store[id].status, DISPATCHED) then
      Spec.StartTimer(s.(store := s.store[id := Spec.AfterDispatch(s.store[id], worker, now)],
                        rpcs := s.rpcs + [Spec.Rpc(id, worker)]), id)
    else s
  }

  /** A dispatch is made of taking the slot, choosing and sending. */
  lemma DispatchInSteps(s: Spec.Sys, k: nat, workers: seq<WorkerInfo>, now: int)
    requires k < |s.executing| && s.executing[k] in s.store && workers != []
    ensures var id := s.executing[k];
      var (i, counters) := Choice(s.counters, s.store[id].taskType, |workers|);
      Spec.Dispatch(s, k, workers, now)
        == Sent(s.(executing := RemoveAt(s.executing, k), counters := counters), id, workers[i], now)
  {
  }

  /** What a step is for each event, case by case. */
  lemma StepOf(s: Spec.Sys, e: Spec.Stamped)
    ensures match e.event
      case Post(taskType, payload) => Spec.Step(s, e) == Spec.PostTask(s, taskType, payload, e.now).0
      case DequeueNext => Spec.Step(s, e) == Spec.Dequeue(s)
      case LookupAnswered(k, workers) =>
        if k < |s.executing| && s.executing[k] in s.store then Spec.Step(s, e) == Spec.Dispatch(s, k, workers, e.now)
        else Spec.Step(s, e) == s
      case SleeperWakes(k) => if k < |s.sleeping| then Spec.Step(s, e) == Spec.Wake(s, k) else Spec.Step(s, e) == s
      case CallReturns(k, outcome) =>
        if k < |s.rpcs| && s.rpcs[k].taskId in s.store then Spec.Step(s, e) == Spec.RpcReturned(s, k, outcome, e.now)
        else Spec.Step(s, e) == s
      case TimeoutExpires(k) => if k in s.live then Spec.Step(s, e) == Spec.TimerFires(s, k, e.now)
        else Spec.Step(s, e) == s
      case DelayExpires(k) => if k < |s.delayed| then Spec.Step(s, e) == Spec.DelayOver(s, k) else Spec.Step(s, e) == s
      case ResultArrives(msg) => Spec.Step(s, e) == Spec.ReturnResult(s, msg, e.now).0
  {
  }

  class DispatchLoop {
    const store: TaskStore
    const queue: TaskQueue
    const selector: RoundRobinSelector
    const maxRetries: int

    /** Threads that carry a task: submitted to the executor, asleep for lack of a worker,
        waiting out the retry delay; and the ExecuteTask calls that have not returned. */
    var executing: seq<Task>
    var sleeping: seq<Task>
    var delayed: seq<Task>
    var calls: seq<PendingCall>

    /** `timers` maps task ids to timer numbers, `live` running timers to task ids. */
    var timers: map<nat, nat>
    var live: map<nat, nat>
    var nextTimer: nat

    /** Every reference held anywhere is the stored object of its id. */
    ghost predicate RefsHeld()
      reads this, store, queue
    {
      && AllIn(queue.items, store.objects)
      && AllIn(executing, store.objects)
      && AllIn(sleeping, store.objects)
      && AllIn(delayed, store.objects)
      && CalledIn(calls, store.objects)
    }

    ghost predicate Valid()
      reads this, store, queue, store.objects
    {
      store.Valid() && RefsHeld()
    }

    ghost function View(): Spec.Sys
      reads this, store, queue, selector
    {
      Spec.Sys(store.contents, Ids(queue.items), Ids(executing), Ids(sleeping), Ids(delayed), Calls(calls),
               timers, live, nextTimer, selector.counters, maxRetries)
    }

    constructor (store: TaskStore, queue: TaskQueue, selector: RoundRobinSelector, maxRetries: int)
      requires store.Valid() && store.contents == map[] && queue.items == [] && selector.counters == map[]
      ensures this.store == store && this.queue == queue && this.selector == selector
      ensures Valid() && View() == Spec.Init(maxRetries)
    {
      this.store := store;
      this.queue := queue;
      this.selector := selector;
      this.maxRetries := maxRetries;
      executing, sleeping, delayed, calls := [], [], [], [];
      timers, live, nextTimer := map[], map[], 0;
    }

    /** One round of the run loop: the status is read from the store, a task that is no
        longer waiting is dropped. */
    method RunRound()
      requires Valid()
      modifies queue, this`executing
      ensures Valid() && store.tasks == old(store.tasks)
      ensures View() == Spec.Dequeue(old(View()))
    {
      var next := TakeNext();
      if next.None? {
        return;
      }
      var current := store.Get(next.value.taskId);
      if current.None? || !(current.value.status == QUEUED || current.value.status == RETRYING) {
        return;
      }
      assert View().store[current.value.taskId] == current.value.Val();
      Submit(current.value);
    }

    /** Takes the oldest entry off the queue. */
    method TakeNext() returns (next: Option<Task>)
      requires Valid()
      modifies queue
      ensures Valid()
      ensures var s := old(View());
        if next == None then s.queue == [] && View() == s
        else
          && next.value in store.objects && s.queue != [] && next.value.taskId == s.queue[0]
          && View() == s.(queue := s.queue[1..])
    {
      next := queue.Dequeue();
      if next.Some? {
        Remove(old(queue.items), 0, store.objects);
      }
    }

    /** The task gets an executor slot. */
    method Submit(task: Task)
      requires Valid() && task in store.objects
      modifies this`executing
      ensures Valid()
      ensures var s := old(View()); View() == s.(executing := s.executing + [task.taskId])
    {
      Append(executing, task, store.objects);
      executing := executing + [task];
    }

    /** `try: transition(...); update(...)`: a refused change leaves everything as it is. */
    method Try(task: Task, to: TaskState, now: int) returns (ok: bool)
      requires store.Valid() && task in store.objects
      modifies store`tasks, store`contents, task
      ensures store.Valid() && store.tasks == old(store.tasks)
      ensures ok <==> Allowed(old(store.contents)[task.taskId].status, to)
      ensures store.contents == old(store.contents)[task.taskId := Moved(old(store.contents)[task.taskId], to, now)]
    {
      ok := task.DoTransition(to, now);
      store.Note(task);
      if ok {
        store.Update(task);
      }
    }

    /** The same, seen from the whole dispatcher. */
    method Change(task: Task, to: TaskState, now: int)
      requires Valid() && task in store.objects
      modifies store`tasks, store`contents, task
      ensures Valid() && store.tasks == old(store.tasks)
      ensures var s := old(View()); View() == s.(store := s.store[task.taskId := Moved(s.store[task.taskId], to, now)])
    {
      var _ := Try(task, to, now);
      assert RefsHeld();
    }

    /** Moves a waiting task to DISPATCHED and assigns the worker. */
    method MarkSent(task: Task, worker: WorkerInfo, now: int) returns (ok: bool)
      requires store.Valid() && task in store.objects
      modifies store`tasks, store`contents, task
      ensures store.Valid() && store.tasks == old(store.tasks)
      ensures ok <==> Allowed(old(store.contents)[task.taskId].status, DISPATCHED)
      ensures store.contents == if !ok then old(store.contents) else
        old(store.contents)[task.taskId := Spec.AfterDispatch(old(store.contents)[task.taskId], worker, now)]
    {
      ghost var t := task.Val();
      assert store.contents[task.taskId] == t;
      ok := task.DoTransition(DISPATCHED, now);
      if ok {
        task.assignedWorker := worker.workerId;
        task.attempts := task.attempts + 1;
        store.Update(task);
      }
      assert task.Val() == if ok then Spec.AfterDispatch(t, worker, now) else t;
      store.Note(task);
    }

    /** Starts the timer and the ExecuteTask call of a task just dispatched. */
    method Send(task: Task, worker: WorkerInfo)
      requires Valid() && task in store.objects
      modifies this`timers, this`live, this`nextTimer, this`calls
      ensures Valid()
      ensures var s := old(View());
        View() == Spec.StartTimer(s.(rpcs := s.rpcs + [Spec.Rpc(task.taskId, worker)]), task.taskId)
    {
      AppendCall(calls, PendingCall(task, worker), store.objects);
      StartTimeoutTimer(task);
      calls := calls + [PendingCall(task, worker)];
    }

    /** A worker was chosen for the task: it is sent there unless it may no longer be. */
    method SendTo(task: Task, worker: WorkerInfo, now: int)
      requires Valid() && task in store.objects
      modifies this`calls, this`timers, this`live, this`nextTimer, store`tasks, store`contents, task
      ensures Valid() && store.tasks == old(store.tasks)
      ensures View() == Sent(old(View()), task.taskId, worker, now)
    {
      ghost var s := View();
      var ok := MarkSent(task, worker, now);
      assert RefsHeld();
      assert View() == s.(store := store.contents);
      if ok {
        Send(task, worker);
      }
    }

    /** The executor slot k is taken up. */
    method Take(k: nat) returns (task: Task)
      requires Valid() && k < |executing|
      modifies this`executing
      ensures Valid() && task in store.objects
      ensures var s := old(View());
        task.taskId == s.executing[k] && View() == s.(executing := RemoveAt(s.executing, k))
    {
      Remove(executing, k, store.objects);
      task := executing[k];
      executing := RemoveAt(executing, k);
    }

    method Sleep(task: Task)
      requires Valid() && task in store.objects
      modifies this`sleeping
      ensures Valid()
      ensures var s := old(View()); View() == s.(sleeping := s.sleeping + [task.taskId])
    {
      Append(sleeping, task, store.objects);
      sleeping := sleeping + [task];
    }

    method Choose(task: Task, workers: seq<WorkerInfo>) returns (worker: Option<WorkerInfo>)
      requires Valid() && task in store.objects
      modifies selector
      ensures Valid()
      ensures workers == [] ==> worker == None && View() == old(View())
      ensures workers != [] ==>
        var (i, counters) := Choice(old(View()).counters, task.taskType, |workers|);
        worker == Some(workers[i]) && View() == old(View()).(counters := counters)
    {
      worker := selector.Select(task.taskType, workers);
    }

    /** The executor slot k goes on with the answer of the naming service. */
    method Dispatch(k: nat, workers: seq<WorkerInfo>, now: int)
      requires Valid() && k < |executing|
      modifies this`executing, this`sleeping, this`calls, this`timers, this`live, this`nextTimer
      modifies store`tasks, store`contents, selector, store.objects
      ensures Valid() && store.tasks == old(store.tasks)
      ensures View() == Spec.Dispatch(old(View()), k, workers, now)
    {
      ghost var s := View();
      var task := Take(k);
      assert s.store[task.taskId] == task.Val();
      var worker := Choose(task, workers);
      if worker.None? {
        Sleep(task);
      } else {
        SendTo(task, worker.value, now);
        DispatchInSteps(s, k, workers, now);
      }
    }

    /** The no-worker sleep of slot k is over. */
    method Wake(k: nat)
      requires Valid() && k < |sleeping|
      modifies queue, this`sleeping
      ensures Valid() && store.tasks == old(store.tasks)
      ensures View() == Spec.Wake(old(View()), k)
    {
      Remove(sleeping, k, store.objects);
      Append(queue.items, sleeping[k], store.objects);
      var task := sleeping[k];
      sleeping := RemoveAt(sleeping, k);
      queue.Enqueue(task);
    }

    /** The call k is over. */
    method Return(k: nat) returns (task: Task)
      requires Valid() && k < |calls|
      modifies this`calls
      ensures Valid() && task in store.objects
      ensures var s := old(View());
        task.taskId == s.rpcs[k].taskId && View() == s.(rpcs := RemoveAt(s.rpcs, k))
    {
      RemoveCall(calls, k, store.objects);
      task := calls[k].task;
      calls := RemoveAt(calls, k);
    }

    method Cancel(id: nat)
      requires Valid()
      modifies this`timers, this`live
      ensures Valid() && View() == Spec.CancelTimeout(old(View()), id)
    {
      CancelTimeout(id);
    }

    /** The ExecuteTask call k returns True, False or None. */
    method CallReturns(k: nat, outcome: Spec.Outcome, now: int)
      requires Valid() && k < |calls|
      modifies this`calls, this`timers, this`live, store`tasks, store`contents, store.objects
      ensures Valid() && store.tasks == old(store.tasks)
      ensures View() == Spec.RpcReturned(old(View()), k, outcome, now)
    {
      var task := Return(k);
      if outcome == Spec.Accepted {
        Change(task, PROCESSING, now);
      } else if outcome == Spec.Rejected {
        Cancel(task.taskId);
        Change(task, FAILED, now);
      }
    }

    method StartTimeoutTimer(task: Task)
      modifies this`timers, this`live, this`nextTimer
      ensures timers == old(timers)[task.taskId := old(nextTimer)]
      ensures live == old(live)[old(nextTimer) := task.taskId]
      ensures nextTimer == old(nextTimer) + 1
    {
      timers := timers[task.taskId := nextTimer];
      live := live[nextTimer := task.taskId];
      nextTimer := nextTimer + 1;
    }

    method CancelTimeout(id: nat)
      modifies this`timers, this`live
      ensures timers == old(timers) - {id}
      ensures live == if id in old(timers) then old(live) - {old(timers)[id]} else old(live)
    {
      if id in timers {
        live := live - {timers[id]};
        timers := timers - {id};
      }
    }

    /** The status changes and the retry count of a timeout; false if the task may not time
        out any more. */
    method TimeOut(task: Task, now: int) returns (ok: bool)
      requires store.Valid() && task in store.objects
      modifies store`tasks, store`contents, task
      ensures store.Valid() && store.tasks == old(store.tasks)
      ensures ok <==> Allowed(old(store.contents)[task.taskId].status, TIMEOUT)
      ensures store.contents == if !ok then old(store.contents) else
        old(store.contents)[task.taskId := Spec.AfterTimeout(old(store.contents)[task.taskId], maxRetries, now)]
      ensures task.retryCount == store.contents[task.taskId].retryCount
    {
      ghost var t := task.Val();
      assert store.contents[task.taskId] == t;
      ok := task.DoTransition(TIMEOUT, now);
      if !ok {
        store.Note(task);
        return;
      }
      var retrying := task.DoTransition(RETRYING, now);
      assert retrying;
      task.retryCount := task.retryCount + 1;
      store.Update(task);
      if task.retryCount >= maxRetries {
        var failed := task.DoTransition(FAILED, now);
        if failed {
          store.Update(task);
        }
      }
      assert task.Val() == Spec.AfterTimeout(t, maxRetries, now);
      store.Note(task);
    }

    /** The same, seen from the whole dispatcher; `again` if the task is to be retried. */
    method Expire(task: Task, now: int) returns (again: bool)
      requires Valid() && task in store.objects
      modifies store`tasks, store`contents, task
      ensures Valid() && store.tasks == old(store.tasks)
      ensures var s, id := old(View()), task.taskId;
        if Allowed(s.store[id].status, TIMEOUT) then
          var t := Spec.AfterTimeout(s.store[id], maxRetries, now);
          View() == s.(store := s.store[id := t]) && again == (t.retryCount < maxRetries)
        else View() == s && !again
    {
      ghost var s := View();
      var ok := TimeOut(task, now);
      assert RefsHeld();
      assert View() == s.(store := store.contents);
      again := ok && task.retryCount < maxRetries;
    }

    /** The timer k is used up; a task to be retried waits out its delay. */
    method UseUp(k: nat, task: Task, again: bool)
      requires Valid() && task in store.objects
      modifies this`live, this`delayed
      ensures Valid()
      ensures var s := old(View());
        View() == s.(live := s.live - {k}, delayed := if again then s.delayed + [task.taskId] else s.delayed)
    {
      Append(delayed, task, store.objects);
      live := live - {k};
      if again {
        delayed := delayed + [task];
      }
    }

    /** The timer k is used up without effect. */
    method Retire(k: nat)
      requires Valid()
      modifies this`live
      ensures Valid() && View() == old(View()).(live := old(live) - {k})
    {
      live := live - {k};
    }

    /** The running timer k fires. */
    method OnTimeout(k: nat, now: int)
      requires Valid() && k in live
      modifies this`live, this`delayed, store`tasks, store`contents, store.objects
      ensures Valid() && store.tasks == old(store.tasks)
      ensures View() == Spec.TimerFires(old(View()), k, now)
    {
      var found := store.Get(live[k]);
      if found.None? {
        Retire(k);
        return;
      }
      assert View().store[found.value.taskId] == found.value.Val();
      if IsTerminalState(found.value.status) {
        Retire(k);
        return;
      }
      var again := Expire(found.value, now);
      UseUp(k, found.value, again);
    }

    /** The retry delay of entry k is over. */
    method DelayOver(k: nat)
      requires Valid() && k < |delayed|
      modifies queue, this`delayed
      ensures Valid() && store.tasks == old(store.tasks)
      ensures View() == Spec.DelayOver(old(View()), k)
    {
      Remove(delayed, k, store.objects);
      Append(queue.items, delayed[k], store.objects);
      var task := delayed[k];
      delayed := RemoveAt(delayed, k);
      queue.Enqueue(task);
    }

    // The segments for events that may refer to a thread, call or timer that is not there.

    method PerformWake(k: nat)
      requires Valid()
      modifies queue, this`sleeping
      ensures Valid() && store.tasks == old(store.tasks)
      ensures var s := old(View()); View() == if k < |s.sleeping| then Spec.Wake(s, k) else s
    {
      if k < |sleeping| {
        Wake(k);
      }
    }

    method PerformDelay(k: nat)
      requires Valid()
      modifies queue, this`delayed
      ensures Valid() && store.tasks == old(store.tasks)
      ensures var s := old(View()); View() == if k < |s.delayed| then Spec.DelayOver(s, k) else s
    {
      if k < |delayed| {
        DelayOver(k);
      }
    }

    method PerformLookup(k: nat, workers: seq<WorkerInfo>, now: int)
      requires Valid()
      modifies this, selector, store`tasks, store`contents, store.objects
      ensures Valid() && store.tasks == old(store.tasks)
      ensures var s := old(View());
        View() == if k < |s.executing| && s.executing[k] in s.store then Spec.Dispatch(s, k, workers, now) else s
    {
      if k < |executing| {
        Dispatch(k, workers, now);
      }
    }

    method PerformCall(k: nat, outcome: Spec.Outcome, now: int)
      requires Valid()
      modifies this, store`tasks, store`contents, store.objects
      ensures Valid() && store.tasks == old(store.tasks)
      ensures var s := old(View());
        View() == if k < |s.rpcs| && s.rpcs[k].taskId in s.store then Spec.RpcReturned(s, k, outcome, now) else s
    {
      if k < |calls| {
        CallReturns(k, outcome, now);
      }
    }

    method PerformTimeout(k: nat, now: int)
      requires Valid()
      modifies this, store`tasks, store`contents, store.objects
      ensures Valid() && store.tasks == old(store.tasks)
      ensures var s := old(View()); View() == if k in s.live then Spec.TimerFires(s, k, now) else s
    {
      if k in live {
        OnTimeout(k, now);
      }
    }

    /** The segment of the loop, its threads or its timers that the event stands for. */
    method Perform(e: Spec.Stamped)
      requires Valid() && !e.event.Post? && !e.event.ResultArrives?
      modifies this, queue, selector, store`tasks, store`contents, store.objects
      ensures Valid() && store.tasks == old(store.tasks) && store.order == old(store.order)
      ensures View() == Spec.Step(old(View()), e)
    {
      StepOf(View(), e);
      match e.event
      case DequeueNext => RunRound();
      case LookupAnswered(k, workers) => PerformLookup(k, workers, e.now);
      case SleeperWakes(k) => PerformWake(k);
      case CallReturns(k, outcome) => PerformCall(k, outcome, e.now);
      case TimeoutExpires(k) => PerformTimeout(k, e.now);
      case DelayExpires(k) => PerformDelay(k);
    }
  }
}
