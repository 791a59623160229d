/** The dispatcher's service methods: entry of tasks, results from workers and the view
    of the client, on the same shared objects as the dispatch loop. */
module Servicer {
  import opened Protocol
  import opened StateMachine
  import opened TaskStorage
  import opened DispatcherLoop
  import Spec = DispatcherSpec

  /** The ids in use are 1, 2, ... in insertion order. */
  ghost predicate InUse(order: seq<nat>, tasks: map<nat, Task>) {
    && |order| == |tasks|
    && (forall i :: 0 <= i < |order| ==> order[i] == i + 1)
    && (forall id: nat :: id in tasks <==> 1 <= id <= |tasks|)
  }

  lemma NextInUse(order: seq<nat>, tasks: map<nat, Task>, t: Task)
    requires InUse(order, tasks)
    ensures |order| + 1 !in tasks
    ensures InUse(order + [|order| + 1], tasks[|order| + 1 := t])
  {
  }

  lemma SizesAgree(store: TaskStore)
    requires store.Consistent()
    ensures |store.contents| == |store.tasks|
  {
    assert |store.contents.Keys| == |store.contents| && |store.tasks.Keys| == |store.tasks|;
  }

  class DispatcherServicer {
    const store: TaskStore
    const queue: TaskQueue
    const loop: DispatchLoop
    const ids: TaskIdCounter

    ghost predicate IdsInUse()
      reads this, store, ids
    {
      ids.counter == |store.order| && InUse(store.order, store.tasks)
    }

    ghost predicate Valid()
      reads this, loop, store, queue, ids, store.objects
    {
      && loop.store == store && loop.queue == queue
      && loop.Valid()
      && IdsInUse()
    }

    constructor (loop: DispatchLoop, ids: TaskIdCounter)
      requires loop.Valid() && loop.store.contents == map[] && loop.store.order == [] && ids.counter == 0
      ensures this.loop == loop && this.ids == ids && store == loop.store && queue == loop.queue
      ensures Valid()
    {
      this.store := loop.store;
      this.queue := loop.queue;
      this.loop := loop;
      this.ids := ids;
    }

    /** Stores and queues a new task under an id that is not in use. */
    method Enter(task: Task)
      requires loop.store == store && loop.queue == queue && loop.Valid()
      requires task !in store.objects && task.taskId !in store.tasks
      modifies store, queue
      ensures loop.Valid() && store.objects == old(store.objects) + {task}
      ensures store.order == old(store.order) + [task.taskId] && store.tasks == old(store.tasks)[task.taskId := task]
      ensures var s := old(loop.View());
        loop.View() == s.(store := s.store[task.taskId := task.Val()], queue := s.queue + [task.taskId])
    {
      store.Add(task);
      Append(queue.items, task, store.objects);
      queue.Enqueue(task);
      assert loop.RefsHeld();
    }

    /** The checks of a request, in the order the program makes them. */
    method Refusal(taskType: string, payload: string) returns (refusal: Option<Spec.PostReply>)
      ensures refusal.None? <==> Spec.Admission(taskType, payload, 0).Posted?
      ensures refusal.Some? ==> forall id: nat :: Spec.Admission(taskType, payload, id) == refusal.value
    {
      if taskType == "" {
        return Some(Spec.MissingType);
      }
      if |taskType| > MAX_TYPE_LEN {
        return Some(Spec.TypeTooLong);
      }
      if |payload| > MAX_PAYLOAD_LEN {
        return Some(Spec.PayloadTooLong);
      }
      refusal := None;
    }

    /** The task under the next id is entered; the ids in use are still consecutive. */
    method EnterNext(task: Task)
      requires loop.store == store && loop.queue == queue && loop.Valid() && InUse(store.order, store.tasks)
      requires task !in store.objects && task.taskId == |store.order| + 1
      modifies store, queue
      ensures loop.Valid() && InUse(store.order, store.tasks)
      ensures store.objects == old(store.objects) + {task} && KeepsObjects(old(store.tasks), store.tasks)
      ensures |store.order| == old(|store.order|) + 1
      ensures var s := old(loop.View());
        loop.View() == s.(store := s.store[task.taskId := task.Val()], queue := s.queue + [task.taskId])
    {
      NextInUse(store.order, store.tasks, task);
      Enter(task);
    }

    /** A new task object is created and entered. */
    method Create(id: nat, taskType: string, payload: string, now: int)
      requires loop.store == store && loop.queue == queue && loop.Valid() && InUse(store.order, store.tasks)
      requires id == |store.order| + 1
      modifies store, queue
      ensures loop.Valid() && InUse(store.order, store.tasks)
      ensures forall t :: t in store.objects ==> t in old(store.objects) || fresh(t)
      ensures KeepsObjects(old(store.tasks), store.tasks)
      ensures |store.order| == id == old(|store.contents|) + 1
      ensures var s := old(loop.View());
        loop.View() == s.(store := s.store[id := NewTask(id, taskType, payload, now)], queue := s.queue + [id])
    {
      SizesAgree(store);
      var task := new Task(id, taskType, payload, now);
      EnterNext(task);
    }

    /** The new task gets an id that no stored task has; all other ids keep their objects. */
    method AddTask(taskType: string, payload: string, now: int) returns (id: nat)
      requires Valid()
      modifies store, queue, ids
      ensures Valid() && forall t :: t in store.objects ==> t in old(store.objects) || fresh(t)
      ensures KeepsObjects(old(store.tasks), store.tasks)
      ensures var s := old(loop.View());
        && id == |s.store| + 1
        && loop.View() == s.(store := s.store[id := NewTask(id, taskType, payload, now)], queue := s.queue + [id])
    {
      id := ids.NewTaskId();
      assert loop.Valid() && loop.View() == old(loop.View());
      Create(id, taskType, payload, now);
    }

    method PostTask(taskType: string, payload: string, now: int) returns (reply: Spec.PostReply)
      requires Valid()
      modifies store, queue, ids
      ensures loop.View() == Spec.PostTask(old(loop.View()), taskType, payload, now).0
      ensures reply == Spec.PostTask(old(loop.View()), taskType, payload, now).1
      ensures Valid() && forall t :: t in store.objects ==> t in old(store.objects) || fresh(t)
      ensures KeepsObjects(old(store.tasks), store.tasks)
    {
      var refusal := Refusal(taskType, payload);
      if refusal.Some? {
        reply := refusal.value;
      } else {
        var id := AddTask(taskType, payload, now);
        reply := Spec.Posted(id);
      }
    }

    method GetResult(id: nat) returns (view: Spec.ResultView)
      requires Valid()
      ensures view == Spec.GetResult(loop.View(), id)
    {
      var found := store.Get(id);
      if found.None? {
        return Spec.NotFound;
      }
      view := Spec.Found(found.value.status, found.value.result);
    }

    /** Moves the task through PROCESSING to the status the worker reports and stores the
        result or the error; false if the state machine refuses. */
    method Conclude(task: Task, msg: Spec.ResultMsg, now: int) returns (ok: bool)
      requires store.Valid() && task in store.objects
      modifies store`tasks, store`contents, task
      ensures store.Valid() && store.tasks == old(store.tasks)
      ensures ok <==> Allowed(Spec.Begun(old(store.contents)[task.taskId], now).status, Spec.TargetState(msg))
      ensures store.contents ==
        old(store.contents)[task.taskId := Spec.AfterResult(old(store.contents)[task.taskId], msg, now)]
    {
      ghost var t := task.Val();
      assert store.contents[task.taskId] == t;
      if task.status == DISPATCHED {
        var begun := task.DoTransition(PROCESSING, now);
        assert begun;
        store.Update(task);
      }
      assert task.Val() == Spec.Begun(t, now);
      var target := if msg.status == "COMPLETED" then COMPLETED else FAILED;
      ok := task.DoTransition(target, now);
      if ok {
        task.result := if msg.status == "COMPLETED" then msg.result else msg.error;
        store.Update(task);
      }
      assert task.Val() == Spec.AfterResult(t, msg, now);
      store.Note(task);
    }

    method CancelAndConclude(task: Task, msg: Spec.ResultMsg, now: int) returns (ok: bool)
      requires loop.store == store && loop.Valid() && task in store.objects
      modifies loop`timers, loop`live, store`tasks, store`contents, task
      ensures loop.Valid() && store.tasks == old(store.tasks)
      ensures ok <==> Allowed(Spec.Begun(old(store.contents)[task.taskId], now).status, Spec.TargetState(msg))
      ensures
        var s, id := old(loop.View()), task.taskId;
        loop.View() == Spec.CancelTimeout(s.(store := s.store[id := Spec.AfterResult(s.store[id], msg, now)]), id)
    {
      loop.CancelTimeout(task.taskId);
      assert loop.Valid();
      ghost var s := loop.View();
      ok := Conclude(task, msg, now);
      assert loop.RefsHeld();
      assert loop.View() == s.(store := store.contents);
    }

    method ReturnResult(msg: Spec.ResultMsg, now: int) returns (ack: Spec.Ack)
      requires Valid()
      modifies loop`timers, loop`live, store`tasks, store`contents, store.objects
      ensures loop.View() == Spec.ReturnResult(old(loop.View()), msg, now).0
      ensures ack == Spec.ReturnResult(old(loop.View()), msg, now).1
      ensures Valid() && store.tasks == old(store.tasks)
    {
      var found := store.Get(msg.taskId);
      if found.None? {
        return Spec.UnknownTask;
      }
      if IsTerminalState(found.value.status) {
        return Spec.AlreadyTerminal;
      }
      var ok := CancelAndConclude(found.value, msg, now);
      ack := if ok then Spec.Stored else Spec.RefusedTransition;
    }
  }
}
