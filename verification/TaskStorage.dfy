/** The shared containers of the dispatcher: the store, which hands out the stored task
    objects themselves, and the queue, which carries references to them. */
module TaskStorage {
  import opened Protocol
  import opened StateMachine

  /** Every reference in `held` is one of `objects`. */
  ghost predicate AllIn(held: seq<Task>, objects: set<Task>) {
    forall i :: 0 <= i < |held| ==> held[i] in objects
  }

  /** Every id keeps its object. */
  ghost predicate KeepsObjects(before: map<nat, Task>, after: map<nat, Task>) {
    forall id :: id in before ==> id in after && after[id] == before[id]
  }

  class TaskQueue {
    var items: seq<Task>

    constructor ()
      ensures items == []
    {
      items := [];
    }

    method Enqueue(task: Task)
      modifies this
      ensures items == old(items) + [task]
    {
      items := items + [task];
    }

    /** None stands for the timeout of an empty queue. */
    method Dequeue() returns (task: Option<Task>)
      modifies this
      ensures old(items) == [] ==> task == None && items == []
      ensures old(items) != [] ==> task == Some(old(items)[0]) && items == old(items)[1..]
    {
      if items == [] {
        return None;
      }
      task := Some(items[0]);
      items := items[1..];
    }
  }

  class TaskStore {
    var tasks: map<nat, Task>
    /** The keys in insertion order, as the dictionary iterates over them. */
    var order: seq<nat>

    /** The stored objects, and the values they have. */
    ghost var objects: set<Task>
    ghost var contents: map<nat, TaskVal>

    /** Keys and objects belong together. */
    ghost predicate Consistent()
      reads this
    {
      && contents.Keys == tasks.Keys
      && (forall id :: id in tasks ==> tasks[id].taskId == id && tasks[id] in objects)
      && (forall t :: t in objects ==> t.taskId in tasks && tasks[t.taskId] == t)
    }

    /** `contents` records the present values. */
    ghost predicate Valid()
      reads this, objects
    {
      Consistent() && forall t :: t in objects ==> contents[t.taskId] == t.Val()
    }

    /** Brings `contents` up to date after the stored object `task` was written to. */
    ghost method Note(task: Task)
      requires Consistent() && task in objects
      requires forall t :: t in objects && t != task ==> contents[t.taskId] == t.Val()
      modifies this`contents
      ensures Valid() && contents == old(contents)[task.taskId := task.Val()]
    {
      contents := contents[task.taskId := task.Val()];
    }

    constructor ()
      ensures Valid() && tasks == map[] && order == [] && objects == {} && contents == map[]
    {
      tasks := map[];
      order := [];
      objects := {};
      contents := map[];
    }

    method Add(task: Task)
      requires Valid() && task !in objects
      modifies this
      ensures Valid() && task in objects
      ensures tasks == old(tasks)[task.taskId := task]
      ensures contents == old(contents)[task.taskId := task.Val()]
      ensures task.taskId !in old(tasks) ==> objects == old(objects) + {task} && order == old(order) + [task.taskId]
    {
      if task.taskId !in tasks {
        order := order + [task.taskId];
      } else {
        objects := objects - {tasks[task.taskId]};
      }
      tasks := tasks[task.taskId := task];
      objects := objects + {task};
      contents := contents[task.taskId := task.Val()];
    }

    method Get(id: nat) returns (task: Option<Task>)
      ensures task == if id in tasks then Some(tasks[id]) else None
    {
      if id in tasks {
        task := Some(tasks[id]);
      } else {
        task := None;
      }
    }

    /** Stores the object under its id again. The KeyError of an id that is not stored and
        the replacement of another object cannot happen to a stored object. */
    method Update(task: Task)
      requires Consistent() && task in objects
      modifies this`tasks
      ensures tasks == old(tasks)
    {
      assert task.taskId in tasks;
      tasks := tasks[task.taskId := task];
    }
  }
}
