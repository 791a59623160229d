/** The figures of the status report and of the load map, as counts of task ids in the
    store of the state. */
module Figures {
  import opened Protocol
  import opened StateMachine
  import opened RoundRobin
  import opened DispatcherSpec
  import opened DispatcherCustody
  import opened Monitoring

  /** The stored ids up to n with one of the statuses. */
  function Having(s: Sys, n: nat, statuses: set<TaskState>): set<nat> {
    set id | id in s.store && id <= n && s.store[id].status in statuses
  }

  /** The stored ids up to n that run on the worker. */
  function RunningOn(s: Sys, n: nat, worker: string): set<nat> {
    set id | id in s.store && id <= n
      && s.store[id].status in {DISPATCHED, PROCESSING} && s.store[id].assignedWorker == worker
  }

  /** The completed tasks with both timestamps set. */
  function Measured(s: Sys, n: nat): set<nat> {
    set id | id in s.store && id <= n && s.store[id].status == COMPLETED
      && s.store[id].timestampDispatched > 0 && s.store[id].timestampCompleted > 0
  }

  /** The durations of the measured tasks among the ids 1 to n, in milliseconds. */
  function TotalDuration(s: Sys, n: nat): int {
    if n == 0 then 0
    else
      TotalDuration(s, n - 1) + if n in Measured(s, n) then
        1000 * s.store[n].timestampCompleted - 1000 * s.store[n].timestampDispatched else 0
  }

  /** r is x to one decimal: the nearest, and of two equally near the one whose last digit
      is even. */
  ghost predicate IsRounded(x: real, r: real) {
    exists tenths: int :: IsNearestTenth(x, tenths) && r == tenths as real / 10.0
  }

  predicate IsNearestTenth(x: real, tenths: int) {
    && -0.5 <= 10.0 * x - tenths as real <= 0.5
    && (10.0 * x - tenths as real == 0.5 || 10.0 * x - tenths as real == -0.5 ==> tenths % 2 == 0)
  }

  lemma RoundingIsNearest(x: real)
    ensures IsRounded(x, RoundToTenth(x))
  {
    var tenths := RoundHalfEven(x * 10.0);
    assert IsNearestTenth(x, tenths);
  }

  ghost predicate Dense(s: Sys, n: nat) {
    forall id: nat :: 1 <= id <= n ==> id in s.store
  }

  /** No id is 0. */
  ghost predicate Positive(s: Sys) {
    forall id: nat :: id in s.store ==> 1 <= id
  }

  /** One id more in a set, or not. */
  lemma OneMore(a: set<nat>, b: set<nat>, n: nat, grows: bool)
    requires n !in a && b == if grows then a + {n} else a
    ensures |b| == |a| + if grows then 1 else 0
  {
  }

  lemma {:induction false} CountsAreSizes(s: Sys, n: nat, statuses: set<TaskState>)
    requires Dense(s, n) && Positive(s)
    ensures CountIn(TasksUpTo(s, n), statuses) == |Having(s, n, statuses)|
  {
    if n == 0 {
      assert Having(s, 0, statuses) == {};
    } else {
      CountsAreSizes(s, n - 1, statuses);
      assert TasksUpTo(s, n)[..n - 1] == TasksUpTo(s, n - 1);
      OneMore(Having(s, n - 1, statuses), Having(s, n, statuses), n, s.store[n].status in statuses);
    }
  }

  lemma {:induction false} LoadsAreSizes(s: Sys, n: nat, worker: string)
    requires Dense(s, n) && Positive(s)
    ensures LoadOf(TasksUpTo(s, n), worker) == |RunningOn(s, n, worker)|
  {
    if n == 0 {
      assert RunningOn(s, 0, worker) == {};
    } else {
      LoadsAreSizes(s, n - 1, worker);
      assert TasksUpTo(s, n)[..n - 1] == TasksUpTo(s, n - 1);
      RunningOnNext(s, n, worker);
    }
  }

  lemma RunningOnNext(s: Sys, n: nat, worker: string)
    requires 0 < n && n in s.store
    ensures var runs := IsRunning(s.store[n].status) && s.store[n].assignedWorker == worker;
      |RunningOn(s, n, worker)| == |RunningOn(s, n - 1, worker)| + if runs then 1 else 0
  {
    var runs := IsRunning(s.store[n].status) && s.store[n].assignedWorker == worker;
    OneMore(RunningOn(s, n - 1, worker), RunningOn(s, n, worker), n, runs);
  }

  lemma MeasuredNext(s: Sys, n: nat)
    requires 0 < n && n in s.store
    ensures n in Measured(s, n) <==> Timed(s.store[n])
    ensures |Measured(s, n)| == |Measured(s, n - 1)| + if n in Measured(s, n) then 1 else 0
  {
    OneMore(Measured(s, n - 1), Measured(s, n), n, n in Measured(s, n));
  }

  lemma {:induction false} MeasuredAreTimed(s: Sys, n: nat)
    requires Dense(s, n) && Positive(s)
    ensures CountTimed(TasksUpTo(s, n)) == |Measured(s, n)|
  {
    if n == 0 {
      assert Measured(s, 0) == {};
    } else {
      MeasuredAreTimed(s, n - 1);
      assert TasksUpTo(s, n)[..n - 1] == TasksUpTo(s, n - 1);
      MeasuredNext(s, n);
    }
  }

  lemma {:induction false} DurationsAreSums(s: Sys, n: nat)
    requires Dense(s, n) && Positive(s)
    ensures SumTimed(TasksUpTo(s, n)) == TotalDuration(s, n)
  {
    if n > 0 {
      DurationsAreSums(s, n - 1);
      assert TasksUpTo(s, n)[..n - 1] == TasksUpTo(s, n - 1);
      MeasuredNext(s, n);
    }
  }

  lemma {:induction false} TypesAreStored(s: Sys, n: nat)
    requires Dense(s, n) && Positive(s)
    ensures KnownTypes(TasksUpTo(s, n)) == set id | id in s.store && id <= n :: s.store[id].taskType
  {
    if n > 0 {
      TypesAreStored(s, n - 1);
      assert TasksUpTo(s, n)[..n - 1] == TasksUpTo(s, n - 1);
    }
  }

  lemma {:induction false} IdsAreListed(workers: seq<WorkerInfo>)
    ensures WorkerIds(workers) == set w | w in workers :: w.workerId
  {
    if workers != [] {
      var n := |workers| - 1;
      IdsAreListed(workers[..n]);
      assert workers == workers[..n] + [workers[n]];
    }
  }

  /** The worker ids that lookups of the types of stored tasks return. */
  function Active(s: Sys, lookup: string -> seq<WorkerInfo>): set<string> {
    set id, w | id in s.store && w in lookup(s.store[id].taskType) :: w.workerId
  }

  lemma ActiveAreReturned(s: Sys, types: set<string>, lookup: string -> seq<WorkerInfo>)
    requires types == set id | id in s.store :: s.store[id].taskType
    ensures ActiveIds(types, lookup) == Active(s, lookup)
  {
    forall t
      ensures WorkerIds(lookup(t)) == set w | w in lookup(t) :: w.workerId
    {
      IdsAreListed(lookup(t));
    }
    forall w | w in ActiveIds(types, lookup)
      ensures w in Active(s, lookup)
    {
      var t :| t in types && w in WorkerIds(lookup(t));
      var id :| id in s.store && s.store[id].taskType == t;
      var info :| info in lookup(t) && info.workerId == w;
    }
    forall w | w in Active(s, lookup)
      ensures w in ActiveIds(types, lookup)
    {
      var id, info :| id in s.store && info in lookup(s.store[id].taskType) && info.workerId == w;
      var t := s.store[id].taskType;
      assert t in types && w in WorkerIds(lookup(t));
    }
  }

  /** The counts of the report are numbers of stored tasks. */
  ghost predicate CountsOk(r: Report, s: Sys) {
    var n := |s.store|;
    && r.queued == |Having(s, n, {QUEUED})|
    && r.running == |Having(s, n, {DISPATCHED, PROCESSING, RETRYING})|
    && r.completed == |Having(s, n, {COMPLETED})|
    && r.failed == |Having(s, n, {FAILED, TIMEOUT})|
  }

  /** The average is over the measured tasks, to one decimal. */
  ghost predicate AverageOk(r: Report, s: Sys) {
    var n := |s.store|;
    if Measured(s, n) == {} then r.averageMs == 0.0
    else IsRounded(TotalDuration(s, n) as real / |Measured(s, n)| as real, r.averageMs)
  }

  ghost predicate TypesOk(r: Report, s: Sys, lookup: string -> seq<WorkerInfo>) {
    && r.knownTypes == (set id | id in s.store :: s.store[id].taskType)
    && r.activeWorkers == |Active(s, lookup)|
  }

  /** What the report says about a state. */
  lemma ReportIsTrue(s: Sys, lookup: string -> seq<WorkerInfo>)
    requires StoreOk(s)
    ensures var r := Collect(Tasks(s), lookup); CountsOk(r, s) && AverageOk(r, s) && TypesOk(r, s, lookup)
  {
    var n := |s.store|;
    CountsAreSizes(s, n, {QUEUED});
    CountsAreSizes(s, n, {DISPATCHED, PROCESSING, RETRYING});
    CountsAreSizes(s, n, {COMPLETED});
    CountsAreSizes(s, n, {FAILED, TIMEOUT});
    AverageIsTrue(s, lookup);
    TypesAreTrue(s, lookup);
  }

  lemma AverageIsTrue(s: Sys, lookup: string -> seq<WorkerInfo>)
    requires StoreOk(s)
    ensures AverageOk(Collect(Tasks(s), lookup), s)
  {
    var n := |s.store|;
    DurationsAreSums(s, n);
    MeasuredAreTimed(s, n);
    if Measured(s, n) != {} {
      RoundingIsNearest(TotalDuration(s, n) as real / |Measured(s, n)| as real);
    }
  }

  lemma TypesAreTrue(s: Sys, lookup: string -> seq<WorkerInfo>)
    requires StoreOk(s)
    ensures TypesOk(Collect(Tasks(s), lookup), s, lookup)
  {
    var n := |s.store|;
    TypesAreStored(s, n);
    assert (set id | id in s.store && id <= n :: s.store[id].taskType)
        == set id | id in s.store :: s.store[id].taskType;
    ActiveAreReturned(s, KnownTypes(Tasks(s)), lookup);
  }
}
