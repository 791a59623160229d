/** What the status collector and the load map report, and why the figures add up in
    every reachable state. The figures are functions of the list of task values in the
    order the store iterates over them. */
module Monitoring {
  import opened Protocol
  import opened StateMachine
  import opened RoundRobin
  import opened DispatcherSpec
  import opened DispatcherCustody
  import opened DispatcherRecords
  import opened DispatcherRuns

  // ---------- Figures over a list of tasks ----------

  function CountIn(ts: seq<TaskVal>, statuses: set<TaskState>): nat {
    if ts == [] then 0
    else CountIn(ts[..|ts| - 1], statuses) + if ts[|ts| - 1].status in statuses then 1 else 0
  }

  function SumRetries(ts: seq<TaskVal>): nat {
    if ts == [] then 0 else SumRetries(ts[..|ts| - 1]) + ts[|ts| - 1].retryCount
  }

  /** The filter of the collector: completed tasks with both timestamps set. */
  predicate Timed(t: TaskVal) {
    t.status == COMPLETED && t.timestampDispatched > 0 && t.timestampCompleted > 0
  }

  function CountTimed(ts: seq<TaskVal>): nat {
    if ts == [] then 0 else CountTimed(ts[..|ts| - 1]) + if Timed(ts[|ts| - 1]) then 1 else 0
  }

  function DurationMs(t: TaskVal): int {
    (t.timestampCompleted - t.timestampDispatched) * 1000
  }

  function SumTimed(ts: seq<TaskVal>): int {
    if ts == [] then 0 else SumTimed(ts[..|ts| - 1]) + if Timed(ts[|ts| - 1]) then DurationMs(ts[|ts| - 1]) else 0
  }

  /** round(x): to the nearest integer, halves to the even one. */
  function RoundHalfEven(x: real): int {
    var below := x.Floor;
    if x - below as real < 0.5 then below
    else if x - below as real > 0.5 then below + 1
    else if below % 2 == 0 then below
    else below + 1
  }

  /** round(x, 1) */
  function RoundToTenth(x: real): real {
    RoundHalfEven(x * 10.0) as real / 10.0
  }

  function KnownTypes(ts: seq<TaskVal>): set<string> {
    if ts == [] then {} else KnownTypes(ts[..|ts| - 1]) + {ts[|ts| - 1].taskType}
  }

  function WorkerIds(workers: seq<WorkerInfo>): set<string> {
    if workers == [] then {} else WorkerIds(workers[..|workers| - 1]) + {workers[|workers| - 1].workerId}
  }

  /** The workers a lookup of one of the types returns. */
  ghost function ActiveIds(types: set<string>, lookup: string -> seq<WorkerInfo>): set<string> {
    set t, w | t in types && w in WorkerIds(lookup(t)) :: w
  }

  datatype Report = Report(
    queued: nat,
    running: nat,
    completed: nat,
    failed: nat,
    timeouts: nat,
    averageMs: real,
    knownTypes: set<string>,
    activeWorkers: nat)

  /** `lookup` is what the naming service answers for each type. */
  ghost function Collect(ts: seq<TaskVal>, lookup: string -> seq<WorkerInfo>): Report {
    Report(CountIn(ts, {QUEUED}),
           CountIn(ts, {DISPATCHED, PROCESSING, RETRYING}),
           CountIn(ts, {COMPLETED}),
           CountIn(ts, {FAILED, TIMEOUT}),
           SumRetries(ts),
           if CountTimed(ts) == 0 then 0.0 else RoundToTenth(SumTimed(ts) as real / CountTimed(ts) as real),
           KnownTypes(ts),
           |ActiveIds(KnownTypes(ts), lookup)|)
  }

  /** The active tasks of one worker. */
  function LoadOf(ts: seq<TaskVal>, worker: string): nat {
    if ts == [] then 0
    else
      var t := ts[|ts| - 1];
      LoadOf(ts[..|ts| - 1], worker) + if IsRunning(t.status) && t.assignedWorker == worker then 1 else 0
  }

  // ---------- The list of a state ----------

  function TasksUpTo(s: Sys, n: nat): seq<TaskVal>
    requires forall id :: 1 <= id <= n ==> id in s.store
  {
    seq(n, (i: nat) requires i < n => s.store[i + 1])
  }

  function Tasks(s: Sys): seq<TaskVal>
    requires StoreOk(s)
  {
    TasksUpTo(s, |s.store|)
  }

  /** The list of a reachable state. */
  function RunTasks(maxRetries: int, es: seq<Stamped>): seq<TaskVal> {
    RunKeeps(maxRetries, es);
    Tasks(Run(maxRetries, es))
  }

  // ---------- Conservation ----------

  lemma {:induction false} EveryTaskIsCounted(ts: seq<TaskVal>)
    requires forall t :: t in ts ==> t.status != CREATED
    ensures CountIn(ts, {QUEUED}) + CountIn(ts, {DISPATCHED, PROCESSING, RETRYING}) + CountIn(ts, {COMPLETED})
         + CountIn(ts, {FAILED, TIMEOUT}) == |ts|
  {
    if ts != [] {
      assert ts[|ts| - 1] in ts;
      EveryTaskIsCounted(ts[..|ts| - 1]);
    }
  }

  lemma {:induction false} NoneIn(ts: seq<TaskVal>, statuses: set<TaskState>)
    requires forall t :: t in ts ==> t.status !in statuses
    ensures CountIn(ts, statuses) == 0
  {
    if ts != [] {
      assert ts[|ts| - 1] in ts;
      NoneIn(ts[..|ts| - 1], statuses);
    }
  }

  /** The number of timer expiries in a run that hit a running timer. */
  function Firings(s: Sys, es: seq<Stamped>): nat
    decreases |es|
  {
    if es == [] then 0
    else
      (if es[0].event.TimeoutExpires? && es[0].event.timer in s.live then 1 else 0) + Firings(Step(s, es[0]), es[1..])
  }

  lemma {:induction false} SameRetries(ts: seq<TaskVal>, us: seq<TaskVal>)
    requires |ts| == |us| && forall i :: 0 <= i < |ts| ==> us[i].retryCount == ts[i].retryCount
    ensures SumRetries(us) == SumRetries(ts)
  {
    if ts != [] {
      SameRetries(ts[..|ts| - 1], us[..|us| - 1]);
    }
  }

  lemma {:induction false} OneMoreRetry(ts: seq<TaskVal>, us: seq<TaskVal>, k: nat)
    requires |ts| == |us| && k < |ts| && us[k].retryCount == ts[k].retryCount + 1
    requires forall i :: 0 <= i < |ts| && i != k ==> us[i].retryCount == ts[i].retryCount
    ensures SumRetries(us) == SumRetries(ts) + 1
  {
    if k == |ts| - 1 {
      SameRetries(ts[..k], us[..k]);
    } else {
      OneMoreRetry(ts[..|ts| - 1], us[..|us| - 1], k);
    }
  }

  lemma DispatchKeepsRetries(s: Sys, k: nat, workers: seq<WorkerInfo>, now: int, id: nat)
    requires id in s.store && k < |s.executing| && s.executing[k] in s.store
    ensures id in Dispatch(s, k, workers, now).store
    ensures Dispatch(s, k, workers, now).store[id].retryCount == s.store[id].retryCount
  {
  }

  lemma CallKeepsRetries(s: Sys, k: nat, outcome: Outcome, now: int, id: nat)
    requires id in s.store && k < |s.rpcs| && s.rpcs[k].taskId in s.store
    ensures id in RpcReturned(s, k, outcome, now).store
    ensures RpcReturned(s, k, outcome, now).store[id].retryCount == s.store[id].retryCount
  {
  }

  lemma ResultKeepsRetries(s: Sys, msg: ResultMsg, now: int, id: nat)
    requires id in s.store
    ensures id in ReturnResult(s, msg, now).0.store
    ensures ReturnResult(s, msg, now).0.store[id].retryCount == s.store[id].retryCount
  {
  }

  /** Only a timer that fires counts a retry, and it counts exactly one. */
  lemma RetriesOfStep(s: Sys, e: Stamped, id: nat)
    requires Inv(s) && id in s.store
    ensures id in Step(s, e).store
    ensures Step(s, e).store[id].retryCount == s.store[id].retryCount
      + if e.event.TimeoutExpires? && e.event.timer in s.live && s.live[e.event.timer] == id then 1 else 0
  {
    StepKeepsTask(s, e, id);
    assert |s.store| + 1 !in s.store;
    match e.event
    case LookupAnswered(k, workers) =>
      if k < |s.executing| && s.executing[k] in s.store { DispatchKeepsRetries(s, k, workers, e.now, id); }
    case CallReturns(k, outcome) =>
      if k < |s.rpcs| && s.rpcs[k].taskId in s.store { CallKeepsRetries(s, k, outcome, e.now, id); }
    case TimeoutExpires(k) => if k in s.live { FiringCounts(s, k, e.now, id); }
    case ResultArrives(msg) => ResultKeepsRetries(s, msg, e.now, id);
    case _ => CarryingKeepsStored(s, e, id);
  }

  lemma CarryingKeepsStored(s: Sys, e: Stamped, id: nat)
    requires id in s.store && |s.store| + 1 !in s.store
    requires e.event.Post? || e.event.DequeueNext? || e.event.SleeperWakes? || e.event.DelayExpires?
    ensures id in Step(s, e).store && Step(s, e).store[id] == s.store[id]
  {
  }

  lemma FiringCounts(s: Sys, k: nat, now: int, id: nat)
    requires Inv(s) && id in s.store && k in s.live
    ensures id in TimerFires(s, k, now).store
    ensures TimerFires(s, k, now).store[id].retryCount == s.store[id].retryCount + if s.live[k] == id then 1 else 0
  {
    assert InCustody(s, s.live[k]) && Armed(s, s.live[k]);
  }

  /** When at most the task `bumped` counts a retry, so does the sum. */
  lemma SumAfter(s: Sys, s': Sys, bumped: nat)
    requires StoreOk(s) && StoreOk(s') && s'.store.Keys == s.store.Keys
    requires forall id :: id in s.store ==>
      s'.store[id].retryCount == s.store[id].retryCount + if id == bumped then 1 else 0
    ensures SumRetries(Tasks(s')) == SumRetries(Tasks(s)) + if bumped in s.store then 1 else 0
  {
    assert |s'.store.Keys| == |s.store.Keys|;
    if bumped in s.store {
      OneMoreRetry(Tasks(s), Tasks(s'), bumped - 1);
    } else {
      SameRetries(Tasks(s), Tasks(s'));
    }
  }

  lemma SumAfterNew(s: Sys, s': Sys, t: TaskVal)
    requires StoreOk(s) && StoreOk(s') && s'.store == s.store[|s.store| + 1 := t] && t.retryCount == 0
    ensures SumRetries(Tasks(s')) == SumRetries(Tasks(s))
  {
    assert |s.store| + 1 !in s.store;
    var us := Tasks(s');
    assert |us| == |s.store| + 1;
    assert us[..|us| - 1] == Tasks(s);
  }

  /** The task whose retry the step counts, or 0. */
  function Bumped(s: Sys, e: Stamped): nat {
    if e.event.TimeoutExpires? && e.event.timer in s.live then s.live[e.event.timer] else 0
  }

  /** Either the tasks stay and only `bumped` counts a retry, or a task is added. */
  ghost predicate RetryStep(s: Sys, s': Sys, bumped: nat) {
    || (&& s'.store.Keys == s.store.Keys
        && forall id :: id in s.store ==>
             s'.store[id].retryCount == s.store[id].retryCount + if id == bumped then 1 else 0)
    || (exists t: TaskVal :: s'.store == s.store[|s.store| + 1 := t] && t.retryCount == 0 && bumped == 0)
  }

  lemma StepIsARetryStep(s: Sys, e: Stamped)
    requires Inv(s)
    ensures RetryStep(s, Step(s, e), Bumped(s, e))
  {
    StepMovesTasks(s, e);
    if TasksStep(s, Step(s, e), e.now) {
      forall id | id in s.store
        ensures Step(s, e).store[id].retryCount == s.store[id].retryCount + if id == Bumped(s, e) then 1 else 0
      {
        RetriesOfStep(s, e, id);
      }
    } else {
      var id := |s.store| + 1;
      assert Step(s, e).store == s.store[id := NewTask(id, e.event.taskType, e.event.payload, e.now)];
    }
  }

  lemma RetryStepSums(s: Sys, s': Sys, bumped: nat)
    requires StoreOk(s) && StoreOk(s') && RetryStep(s, s', bumped)
    ensures SumRetries(Tasks(s')) == SumRetries(Tasks(s)) + if bumped in s.store then 1 else 0
  {
    assert |s.store| + 1 !in s.store;
    if s'.store.Keys == s.store.Keys {
      assert |s.store| + 1 !in s'.store;
      SumAfter(s, s', bumped);
    } else {
      var t: TaskVal :| s'.store == s.store[|s.store| + 1 := t] && t.retryCount == 0 && bumped == 0;
      SumAfterNew(s, s', t);
    }
  }

  lemma StepSumsRetries(s: Sys, e: Stamped)
    requires Inv(s)
    ensures Inv(Step(s, e))
    ensures SumRetries(Tasks(Step(s, e))) == SumRetries(Tasks(s))
      + if e.event.TimeoutExpires? && e.event.timer in s.live then 1 else 0
  {
    StepKeeps(s, e);
    StepIsARetryStep(s, e);
    RetryStepSums(s, Step(s, e), Bumped(s, e));
  }

  lemma {:induction false} RetriesAreFirings(s: Sys, es: seq<Stamped>)
    requires Inv(s)
    ensures Inv(Exec(s, es))
    ensures SumRetries(Tasks(Exec(s, es))) == SumRetries(Tasks(s)) + Firings(s, es)
    decreases |es|
  {
    if es != [] {
      StepSumsRetries(s, es[0]);
      RetriesAreFirings(Step(s, es[0]), es[1..]);
    }
  }

  /** The number of requests that a run accepts. */
  function Accepts(es: seq<Stamped>): nat {
    if es == [] then 0
    else
      (if es[0].event.Post? && Admission(es[0].event.taskType, es[0].event.payload, 0).Posted? then 1 else 0)
      + Accepts(es[1..])
  }

  lemma StepStores(s: Sys, e: Stamped)
    requires StoreOk(s)
    ensures |Step(s, e).store| == |s.store|
      + if e.event.Post? && Admission(e.event.taskType, e.event.payload, 0).Posted? then 1 else 0
  {
    assert |s.store| + 1 !in s.store;
    StepMovesTasks(s, e);
    if TasksStep(s, Step(s, e), e.now) {
      assert |Step(s, e).store.Keys| == |s.store.Keys|;
    }
  }

  /** Every accepted request is stored, once, and nothing else is. */
  lemma {:induction false} AcceptedAreStored(s: Sys, es: seq<Stamped>)
    requires Inv(s)
    ensures |Exec(s, es).store| == |s.store| + Accepts(es)
    decreases |es|
  {
    if es != [] {
      StepStores(s, es[0]);
      StepKeeps(s, es[0]);
      AcceptedAreStored(Step(s, es[0]), es[1..]);
    }
  }

  /** In every reachable state the four task figures of the report add up to the number of
      requests accepted in the run, no task rests in CREATED or TIMEOUT, and the reported
      number of timeouts is the number of timers that fired in the run. */
  lemma ReportConserves(maxRetries: int, es: seq<Stamped>, lookup: string -> seq<WorkerInfo>)
    ensures var r := Collect(RunTasks(maxRetries, es), lookup);
      && r.queued + r.running + r.completed + r.failed == Accepts(es)
      && r.failed == CountIn(RunTasks(maxRetries, es), {FAILED})
      && r.timeouts == Firings(Init(maxRetries), es)
  {
    RunKeeps(maxRetries, es);
    var s := Run(maxRetries, es);
    InitOk(maxRetries);
    AcceptedAreStored(Init(maxRetries), es);
    RetriesAreFirings(Init(maxRetries), es);
    NoneRests(s);
    EveryTaskIsCounted(Tasks(s));
    FailedOnly(Tasks(s));
  }

  lemma NoneRests(s: Sys)
    requires Inv(s)
    ensures forall t :: t in Tasks(s) ==> t.status != CREATED && t.status != TIMEOUT
  {
    forall t | t in Tasks(s)
      ensures t.status != CREATED && t.status != TIMEOUT
    {
      var id := ListedIsStored(s, t);
      assert InCustody(s, id);
    }
  }

  lemma {:induction false} FailedOnly(ts: seq<TaskVal>)
    requires forall t :: t in ts ==> t.status != TIMEOUT
    ensures CountIn(ts, {FAILED, TIMEOUT}) == CountIn(ts, {FAILED})
  {
    if ts != [] {
      assert ts[|ts| - 1] in ts;
      FailedOnly(ts[..|ts| - 1]);
    }
  }

  // ---------- Average ----------

  lemma {:induction false} SumWithin(ts: seq<TaskVal>, lo: int, hi: int)
    requires forall t :: t in ts && Timed(t) ==> lo <= DurationMs(t) <= hi
    ensures lo * CountTimed(ts) <= SumTimed(ts) <= hi * CountTimed(ts)
  {
    if ts != [] {
      var t, rest := ts[|ts| - 1], ts[..|ts| - 1];
      assert t in ts;
      SumWithin(rest, lo, hi);
      Distribute(lo, CountTimed(rest));
      Distribute(hi, CountTimed(rest));
    }
  }

  lemma Distribute(a: int, n: nat)
    ensures a * (n + 1) == a * n + a
  {
  }

  lemma {:induction false} TimedAreCompleted(ts: seq<TaskVal>)
    requires forall t :: t in ts ==> (Timed(t) <==> t.status == COMPLETED)
    ensures CountTimed(ts) == CountIn(ts, {COMPLETED})
  {
    if ts != [] {
      assert ts[|ts| - 1] in ts;
      TimedAreCompleted(ts[..|ts| - 1]);
    }
  }

  /** If exactly the completed tasks have both timestamps, the average is over them and,
      rounded, within the bounds on their durations. */
  lemma AverageOverCompleted(ts: seq<TaskVal>, lookup: string -> seq<WorkerInfo>, lo: int, hi: int)
    requires forall t :: t in ts ==> (Timed(t) <==> t.status == COMPLETED) && (Timed(t) ==> lo <= DurationMs(t) <= hi)
    ensures CountTimed(ts) == Collect(ts, lookup).completed
    ensures Collect(ts, lookup).completed > 0 ==> lo as real <= Collect(ts, lookup).averageMs <= hi as real
  {
    TimedAreCompleted(ts);
    SumWithin(ts, lo, hi);
    if CountTimed(ts) > 0 {
      QuotientWithin(SumTimed(ts), CountTimed(ts), lo, hi);
      RoundWithin(SumTimed(ts) as real / CountTimed(ts) as real, lo, hi);
    }
  }

  /** Rounding does not leave the interval between two integers. */
  lemma RoundWithin(x: real, lo: int, hi: int)
    requires lo as real <= x <= hi as real
    ensures lo as real <= RoundToTenth(x) <= hi as real
  {
    var y := x * 10.0;
    assert (10 * lo) as real <= y <= (10 * hi) as real;
    assert 10 * lo <= RoundHalfEven(y) <= 10 * hi;
  }

  /** The durations of the completed tasks are within the bounds. */
  ghost predicate DurationsWithin(s: Sys, lo: int, hi: int) {
    forall id :: id in s.store && s.store[id].status == COMPLETED ==> lo <= DurationMs(s.store[id]) <= hi
  }

  /** Every task in the list is stored under some id. */
  lemma ListedIsStored(s: Sys, t: TaskVal) returns (id: nat)
    requires StoreOk(s) && t in Tasks(s)
    ensures id in s.store && s.store[id] == t
  {
    var ts := Tasks(s);
    var i :| 0 <= i < |ts| && ts[i] == t;
    id := i + 1;
  }

  lemma CompletedIsTimed(maxRetries: int, t0: int, es: seq<Stamped>, id: nat)
    requires 0 < t0 && Monotone(t0, es) && id in Run(maxRetries, es).store
    ensures var t := Run(maxRetries, es).store[id]; Timed(t) <==> t.status == COMPLETED
  {
    if Run(maxRetries, es).store[id].status == COMPLETED {
      CompletedTimesAreSound(maxRetries, t0, es, id);
    }
  }

  lemma ListedAreTimed(maxRetries: int, t0: int, es: seq<Stamped>, lo: int, hi: int, t: TaskVal)
    requires 0 < t0 && Monotone(t0, es) && DurationsWithin(Run(maxRetries, es), lo, hi)
    requires t in RunTasks(maxRetries, es)
    ensures (Timed(t) <==> t.status == COMPLETED) && (Timed(t) ==> lo <= DurationMs(t) <= hi)
  {
    RunKeeps(maxRetries, es);
    var id := ListedIsStored(Run(maxRetries, es), t);
    CompletedIsTimed(maxRetries, t0, es, id);
  }

  /** With a positive clock that never runs backwards the collector averages over exactly
      the completed tasks, and the rounded average lies between any bounds on their
      durations, the shortest and the longest in particular. */
  lemma AverageIsSound(maxRetries: int, t0: int, es: seq<Stamped>, lookup: string -> seq<WorkerInfo>, lo: int, hi: int)
    requires 0 < t0 && Monotone(t0, es) && DurationsWithin(Run(maxRetries, es), lo, hi)
    ensures var ts := RunTasks(maxRetries, es);
      && CountTimed(ts) == Collect(ts, lookup).completed
      && (Collect(ts, lookup).completed > 0 ==> lo as real <= Collect(ts, lookup).averageMs <= hi as real)
  {
    var ts := RunTasks(maxRetries, es);
    forall t | t in ts
      ensures (Timed(t) <==> t.status == COMPLETED) && (Timed(t) ==> lo <= DurationMs(t) <= hi)
    {
      ListedAreTimed(maxRetries, t0, es, lo, hi, t);
    }
    AverageOverCompleted(ts, lookup, lo, hi);
  }

  lemma QuotientWithin(sum: int, n: nat, lo: int, hi: int)
    requires n > 0 && lo * n <= sum <= hi * n
    ensures lo as real <= sum as real / n as real <= hi as real
  {
    assert (lo * n) as real == lo as real * n as real;
    assert (hi * n) as real == hi as real * n as real;
  }

  // ---------- Load map ----------

  /** The sum of the loads of a list of workers. */
  function TotalLoad(ts: seq<TaskVal>, workers: seq<string>): nat {
    if workers == [] then 0 else LoadOf(ts, workers[0]) + TotalLoad(ts, workers[1..])
  }

  ghost predicate Distinct(workers: seq<string>) {
    forall i, j :: 0 <= i < j < |workers| ==> workers[i] != workers[j]
  }

  lemma {:induction false} LastTaskLoads(ts: seq<TaskVal>, workers: seq<string>)
    requires ts != [] && Distinct(workers)
    ensures var t := ts[|ts| - 1];
      TotalLoad(ts, workers) == TotalLoad(ts[..|ts| - 1], workers)
        + if IsRunning(t.status) && t.assignedWorker in workers then 1 else 0
  {
    if workers != [] {
      LastTaskLoads(ts, workers[1..]);
      assert workers == [workers[0]] + workers[1..];
      assert forall i :: 0 < i < |workers| ==> workers[i] != workers[0];
    }
  }

  lemma {:induction false} NoLoads(workers: seq<string>)
    ensures TotalLoad([], workers) == 0
  {
    if workers != [] {
      NoLoads(workers[1..]);
    }
  }

  /** Over any distinct workers that include the ones tasks run on, the loads add up to
      the number of running tasks. */
  lemma {:induction false} LoadsAddUp(ts: seq<TaskVal>, workers: seq<string>)
    requires Distinct(workers)
    requires forall t :: t in ts && IsRunning(t.status) ==> t.assignedWorker in workers
    ensures TotalLoad(ts, workers) == CountIn(ts, {DISPATCHED}) + CountIn(ts, {PROCESSING})
  {
    if ts == [] {
      NoLoads(workers);
    } else {
      assert ts[|ts| - 1] in ts;
      LastTaskLoads(ts, workers);
      LoadsAddUp(ts[..|ts| - 1], workers);
    }
  }

  /** A running task has a worker assigned. */
  predicate Named(t: TaskVal) {
    IsRunning(t.status) ==> t.assignedWorker != ""
  }

  /** The lookups answer with workers that have an id; the registry admits no others. */
  ghost predicate NamesWorkers(e: Stamped) {
    e.event.LookupAnswered? ==> forall w :: w in e.event.workers ==> w.workerId != ""
  }

  lemma DispatchNames(s: Sys, k: nat, workers: seq<WorkerInfo>, now: int, id: nat)
    requires id in s.store && k < |s.executing| && s.executing[k] in s.store
    requires Named(s.store[id]) && forall w :: w in workers ==> w.workerId != ""
    ensures id in Dispatch(s, k, workers, now).store && Named(Dispatch(s, k, workers, now).store[id])
  {
  }

  lemma CallNames(s: Sys, k: nat, outcome: Outcome, now: int, id: nat)
    requires id in s.store && k < |s.rpcs| && s.rpcs[k].taskId in s.store && Named(s.store[id])
    ensures id in RpcReturned(s, k, outcome, now).store && Named(RpcReturned(s, k, outcome, now).store[id])
  {
  }

  lemma TimerNames(s: Sys, k: nat, now: int, id: nat)
    requires id in s.store && k in s.live && Named(s.store[id])
    ensures id in TimerFires(s, k, now).store && Named(TimerFires(s, k, now).store[id])
  {
  }

  lemma ResultNames(s: Sys, msg: ResultMsg, now: int, id: nat)
    requires id in s.store && Named(s.store[id])
    ensures id in ReturnResult(s, msg, now).0.store && Named(ReturnResult(s, msg, now).0.store[id])
  {
  }

  lemma StepNames(s: Sys, e: Stamped, id: nat)
    requires StoreOk(s) && id in Step(s, e).store && NamesWorkers(e)
    requires id in s.store ==> Named(s.store[id])
    ensures Named(Step(s, e).store[id])
  {
    if id !in s.store {
      StepMovesTask(s, e, id);
    } else {
      assert |s.store| + 1 !in s.store;
      match e.event
      case LookupAnswered(k, workers) =>
        if k < |s.executing| && s.executing[k] in s.store { DispatchNames(s, k, workers, e.now, id); }
      case CallReturns(k, outcome) =>
        if k < |s.rpcs| && s.rpcs[k].taskId in s.store { CallNames(s, k, outcome, e.now, id); }
      case TimeoutExpires(k) => if k in s.live { TimerNames(s, k, e.now, id); }
      case ResultArrives(msg) => ResultNames(s, msg, e.now, id);
      case _ =>
    }
  }

  lemma {:induction false} RunNames(s: Sys, es: seq<Stamped>)
    requires Inv(s) && forall e :: e in es ==> NamesWorkers(e)
    requires forall id :: id in s.store ==> Named(s.store[id])
    ensures forall id :: id in Exec(s, es).store ==> Named(Exec(s, es).store[id])
    decreases |es|
  {
    if es != [] {
      assert es[0] in es;
      StepKeeps(s, es[0]);
      forall id | id in Step(s, es[0]).store
        ensures Named(Step(s, es[0]).store[id])
      {
        StepNames(s, es[0], id);
      }
      RunNames(Step(s, es[0]), es[1..]);
    }
  }

  /** The load map of a reachable state: listing the workers that run something, each with
      its number of running tasks, accounts for every dispatched or processing task. */
  lemma LoadMapAgrees(maxRetries: int, es: seq<Stamped>, workers: seq<string>)
    requires forall e :: e in es ==> NamesWorkers(e)
    requires Distinct(workers)
    requires forall w :: w in workers <==> w != "" && LoadOf(RunTasks(maxRetries, es), w) > 0
    ensures var ts := RunTasks(maxRetries, es);
      TotalLoad(ts, workers) == CountIn(ts, {DISPATCHED}) + CountIn(ts, {PROCESSING})
  {
    var s := Run(maxRetries, es);
    var ts := RunTasks(maxRetries, es);
    RunKeeps(maxRetries, es);
    InitOk(maxRetries);
    RunNames(Init(maxRetries), es);
    forall i | 0 <= i < |ts| && IsRunning(ts[i].status)
      ensures ts[i].assignedWorker in workers
    {
      assert Named(s.store[i + 1]);
      LoadIsPositive(ts, i);
    }
    LoadsAddUp(ts, workers);
  }

  /** The sum of the values of a load map. */
  function LoadSum(load: map<string, nat>, workers: seq<string>): nat
    requires forall w :: w in workers ==> w in load
  {
    if workers == [] then 0 else load[workers[0]] + LoadSum(load, workers[1..])
  }

  lemma {:induction false} LoadSumIsTotal(load: map<string, nat>, workers: seq<string>, ts: seq<TaskVal>)
    requires forall w :: w in workers ==> w in load && load[w] == LoadOf(ts, w)
    ensures LoadSum(load, workers) == TotalLoad(ts, workers)
  {
    if workers != [] {
      LoadSumIsTotal(load, workers[1..], ts);
    }
  }

  lemma {:induction false} LoadIsPositive(ts: seq<TaskVal>, i: nat)
    requires i < |ts| && IsRunning(ts[i].status)
    ensures LoadOf(ts, ts[i].assignedWorker) > 0
  {
    if i < |ts| - 1 {
      LoadIsPositive(ts[..|ts| - 1], i);
    }
  }
}
