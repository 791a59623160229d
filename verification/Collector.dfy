/** The monitoring loops over the stored task objects: counts by status, the load map of
    the store and the report of the status collector. */
module Collector {
  import opened Protocol
  import opened StateMachine
  import opened TaskStorage
  import opened Monitoring
  import opened RoundRobin

  ghost predicate Listed(store: TaskStore)
    reads store, store.objects
  {
    store.Valid() && forall i :: 0 <= i < |store.order| ==> store.order[i] in store.contents
  }

  function Lookup(order: seq<nat>, contents: map<nat, TaskVal>): seq<TaskVal>
    requires forall i :: 0 <= i < |order| ==> order[i] in contents
  {
    seq(|order|, i requires 0 <= i < |order| => contents[order[i]])
  }

  /** The values of the stored tasks in iteration order. */
  ghost function Values(store: TaskStore): seq<TaskVal>
    requires Listed(store)
    reads store, store.objects
  {
    Lookup(store.order, store.contents)
  }

  lemma PrefixStep(ts: seq<TaskVal>, i: nat)
    requires i < |ts|
    ensures ts[..i + 1][..i] == ts[..i] && |ts[..i + 1]| == i + 1 && ts[..i + 1][i] == ts[i]
  {
  }

  method CountByStatus(store: TaskStore, status: TaskState) returns (count: nat)
    requires Listed(store)
    ensures count == CountIn(Values(store), {status})
  {
    ghost var ts := Values(store);
    count := 0;
    for i := 0 to |store.order|
      invariant count == CountIn(ts[..i], {status})
    {
      PrefixStep(ts, i);
      var t := store.tasks[store.order[i]];
      assert t.Val() == ts[i];
      if t.status == status {
        count := count + 1;
      }
    }
    assert ts[..|store.order|] == ts;
  }

  /** The load map with its keys in insertion order: every worker that runs a task has its
      number of running tasks, and no one else has an entry. */
  method WorkerLoadMap(store: TaskStore) returns (load: map<string, nat>, workers: seq<string>)
    requires Listed(store)
    ensures forall w :: w in load <==> w in workers
    ensures Distinct(workers)
    ensures forall w :: w in load ==> w != "" && load[w] == LoadOf(Values(store), w) > 0
    ensures forall w :: w != "" && w !in load ==> LoadOf(Values(store), w) == 0
  {
    ghost var ts := Values(store);
    load, workers := map[], [];
    for i := 0 to |store.order|
      invariant forall w :: w in load <==> w in workers
      invariant Distinct(workers)
      invariant forall w :: w in load ==> w != "" && load[w] == LoadOf(ts[..i], w) > 0
      invariant forall w :: w != "" && w !in load ==> LoadOf(ts[..i], w) == 0
    {
      PrefixStep(ts, i);
      var t := store.tasks[store.order[i]];
      assert t.Val() == ts[i];
      if (t.status == DISPATCHED || t.status == PROCESSING) && t.assignedWorker != "" {
        if t.assignedWorker !in load {
          workers := workers + [t.assignedWorker];
          load := load[t.assignedWorker := 0];
        }
        load := load[t.assignedWorker := load[t.assignedWorker] + 1];
      }
    }
    assert ts[..|store.order|] == ts;
  }

  datatype Counts = Counts(
    queued: nat, running: nat, completed: nat, failed: nat, timeouts: nat, timed: nat, sum: int)

  /** The sums over the stored tasks. */
  method CountAll(store: TaskStore) returns (c: Counts)
    requires Listed(store)
    ensures var ts := Values(store);
      c == Counts(CountIn(ts, {QUEUED}), CountIn(ts, {DISPATCHED, PROCESSING, RETRYING}), CountIn(ts, {COMPLETED}),
                  CountIn(ts, {FAILED, TIMEOUT}), SumRetries(ts), CountTimed(ts), SumTimed(ts))
  {
    ghost var ts := Values(store);
    var queued: nat, running: nat, completed: nat, failed: nat, timeouts: nat := 0, 0, 0, 0, 0;
    var timed: nat, sum: int := 0, 0;
    for i := 0 to |store.order|
      invariant queued == CountIn(ts[..i], {QUEUED})
      invariant running == CountIn(ts[..i], {DISPATCHED, PROCESSING, RETRYING})
      invariant completed == CountIn(ts[..i], {COMPLETED})
      invariant failed == CountIn(ts[..i], {FAILED, TIMEOUT})
      invariant timeouts == SumRetries(ts[..i])
      invariant timed == CountTimed(ts[..i])
      invariant sum == SumTimed(ts[..i])
    {
      PrefixStep(ts, i);
      var t := store.tasks[store.order[i]];
      assert t.Val() == ts[i];
      timeouts := timeouts + t.retryCount;
      match t.status {
        case QUEUED => queued := queued + 1;
        case DISPATCHED => running := running + 1;
        case PROCESSING => running := running + 1;
        case RETRYING => running := running + 1;
        case COMPLETED =>
          completed := completed + 1;
          if t.timestampDispatched > 0 && t.timestampCompleted > 0 {
            timed := timed + 1;
            sum := sum + (t.timestampCompleted - t.timestampDispatched) * 1000;
          }
        case FAILED => failed := failed + 1;
        case TIMEOUT => failed := failed + 1;
        case CREATED =>
      }
    }
    assert ts[..|store.order|] == ts;
    c := Counts(queued, running, completed, failed, timeouts, timed, sum);
  }

  /** known_types */
  method ListTypes(store: TaskStore) returns (types: set<string>)
    requires Listed(store)
    ensures types == KnownTypes(Values(store))
  {
    ghost var ts := Values(store);
    types := {};
    for i := 0 to |store.order|
      invariant types == KnownTypes(ts[..i])
    {
      PrefixStep(ts, i);
      var t := store.tasks[store.order[i]];
      assert t.Val() == ts[i];
      types := types + {t.taskType};
    }
    assert ts[..|store.order|] == ts;
  }

  lemma PrefixIds(workers: seq<WorkerInfo>, i: nat)
    requires i < |workers|
    ensures WorkerIds(workers[..i + 1]) == WorkerIds(workers[..i]) + {workers[i].workerId}
  {
    assert workers[..i + 1][..i] == workers[..i];
  }

  lemma OneMoreType(types: set<string>, t: string, lookup: string -> seq<WorkerInfo>)
    ensures ActiveIds(types + {t}, lookup) == ActiveIds(types, lookup) + WorkerIds(lookup(t))
  {
  }

  /** The inner loop: the ids of one answer are added. */
  method AddIds(ids: set<string>, workers: seq<WorkerInfo>) returns (all: set<string>)
    ensures all == ids + WorkerIds(workers)
  {
    all := ids;
    for i := 0 to |workers|
      invariant all == ids + WorkerIds(workers[..i])
    {
      PrefixIds(workers, i);
      all := all + {workers[i].workerId};
    }
    assert workers[..|workers|] == workers;
  }

  /** active_worker_ids: one lookup per known type, in any order. */
  method ActiveWorkers(types: set<string>, lookup: string -> seq<WorkerInfo>) returns (ids: set<string>)
    ensures ids == ActiveIds(types, lookup)
  {
    ids := {};
    var left := types;
    while left != {}
      invariant left <= types
      invariant ids == ActiveIds(types - left, lookup)
      decreases |left|
    {
      var t :| t in left;
      OneMoreType(types - left, t, lookup);
      assert types - (left - {t}) == types - left + {t};
      ids := AddIds(ids, lookup(t));
      left := left - {t};
    }
    assert types - {} == types;
  }

  method GetStatus(store: TaskStore, lookup: string -> seq<WorkerInfo>) returns (report: Report)
    requires Listed(store)
    ensures report == Collect(Values(store), lookup)
  {
    var counts := CountAll(store);
    var types := ListTypes(store);
    var ids := ActiveWorkers(types, lookup);
    var average := if counts.timed == 0 then 0.0 else RoundToTenth(counts.sum as real / counts.timed as real);
    report := Report(counts.queued, counts.running, counts.completed, counts.failed, counts.timeouts, average,
                     types, |ids|);
  }
}
