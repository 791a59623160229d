/** What holds in every run of the dispatcher, from the empty state, for any sequence of
    client requests, lookup answers, call outcomes, timer expiries and result messages. */
module DispatcherRuns {
  import opened Protocol
  import opened StateMachine
  import opened RoundRobin
  import opened DispatcherSpec
  import opened DispatcherCustody
  import opened DispatcherRecords

  ghost predicate RecordsInv(s: Sys) {
    forall id :: id in s.store ==> RecordOk(s.store[id], s.maxRetries)
  }

  ghost predicate Inv(s: Sys) {
    CustodyInv(s) && RecordsInv(s)
  }

  lemma StepKeepsRecords(s: Sys, e: Stamped)
    requires StoreOk(s) && RecordsInv(s)
    ensures RecordsInv(Step(s, e)) && Step(s, e).maxRetries == s.maxRetries
  {
    var s' := Step(s, e);
    StepMovesTasks(s, e);
    forall id | id in s'.store
      ensures RecordOk(s'.store[id], s.maxRetries)
    {
      StepMovesTask(s, e, id);
      if id in s.store {
        TaskStepKeepsRecord(s.store[id], s'.store[id], e.now, s.maxRetries);
      } else {
        NewRecord(id, e.event.taskType, e.event.payload, e.now, s.maxRetries);
      }
    }
  }

  lemma StepKeeps(s: Sys, e: Stamped)
    requires Inv(s)
    ensures Inv(Step(s, e)) && Step(s, e).maxRetries == s.maxRetries
  {
    StepKeepsCustody(s, e);
    StepKeepsRecords(s, e);
  }

  lemma {:induction false} ExecKeeps(s: Sys, es: seq<Stamped>)
    requires Inv(s)
    ensures Inv(Exec(s, es)) && Exec(s, es).maxRetries == s.maxRetries
    decreases |es|
  {
    if es != [] {
      StepKeeps(s, es[0]);
      ExecKeeps(Step(s, es[0]), es[1..]);
    }
  }

  lemma InitOk(maxRetries: int)
    ensures Inv(Init(maxRetries))
  {
  }

  function Run(maxRetries: int, es: seq<Stamped>): Sys {
    Exec(Init(maxRetries), es)
  }

  lemma RunKeeps(maxRetries: int, es: seq<Stamped>)
    ensures Inv(Run(maxRetries, es)) && Run(maxRetries, es).maxRetries == maxRetries
  {
    InitOk(maxRetries);
    ExecKeeps(Init(maxRetries), es);
  }

  // ---------- No task is orphaned ----------

  /** The timers of a task that are still running. */
  function LiveTimers(s: Sys, id: nat): set<nat> {
    set k | k in s.live && s.live[k] == id
  }

  lemma LiveTimersOf(s: Sys, id: nat)
    requires TimersOk(s)
    ensures LiveTimers(s, id) == if Armed(s, id) then {s.timers[id]} else {}
  {
  }

  /** In every reachable state a waiting task has exactly one carrier and no running
      timer; a dispatched or processing one has no carrier and exactly one running timer,
      the one registered under its id; a terminal one has no running timer. No task rests
      in CREATED or TIMEOUT. */
  lemma NoTaskIsOrphaned(maxRetries: int, es: seq<Stamped>, id: nat)
    requires id in Run(maxRetries, es).store
    ensures var s := Run(maxRetries, es); var status := s.store[id].status;
      && (IsWaiting(status) || IsRunning(status) || IsTerminalState(status))
      && (IsWaiting(status) ==> Carriers(s, id) == 1 && LiveTimers(s, id) == {})
      && (IsRunning(status) ==> Carriers(s, id) == 0 && id in s.timers && LiveTimers(s, id) == {s.timers[id]})
      && (IsTerminalState(status) ==> Carriers(s, id) <= 1 && LiveTimers(s, id) == {})
  {
    var s := Run(maxRetries, es);
    RunKeeps(maxRetries, es);
    LiveTimersOf(s, id);
    assert InCustody(s, id);
  }

  lemma DispatchChangesOne(s: Sys, k: nat, workers: seq<WorkerInfo>, now: int, id: nat)
    requires id in s.store && k < |s.executing| && s.executing[k] in s.store
    requires id in Dispatch(s, k, workers, now).store && Dispatch(s, k, workers, now).store[id] != s.store[id]
    ensures s.executing[k] == id && Dispatch(s, k, workers, now).store[id].status == DISPATCHED
  {
  }

  lemma CallChangesOne(s: Sys, k: nat, outcome: Outcome, now: int, id: nat)
    requires id in s.store && k < |s.rpcs| && s.rpcs[k].taskId in s.store
    requires id in RpcReturned(s, k, outcome, now).store && RpcReturned(s, k, outcome, now).store[id] != s.store[id]
    ensures s.rpcs[k].taskId == id
  {
  }

  /** The event concerns the task: it is a lookup answer that dispatches it, a call about
      it, its timer, or a result for it while it is not terminal. */
  ghost predicate Concerns(s: Sys, e: Stamped, id: nat)
    requires id in s.store && id in Step(s, e).store
  {
    match e.event
    case LookupAnswered(k, workers) => Step(s, e).store[id].status == DISPATCHED
    case CallReturns(k, outcome) => k < |s.rpcs| && s.rpcs[k].taskId == id
    case TimeoutExpires(k) => k in s.live && s.live[k] == id
    case ResultArrives(msg) => msg.taskId == id && !IsTerminal(s.store[id])
    case _ => false
  }

  /** A task that changes is the task the event is about. */
  lemma EventChangesItsTask(s: Sys, e: Stamped, id: nat)
    requires StoreOk(s) && id in s.store && id in Step(s, e).store && Step(s, e).store[id] != s.store[id]
    ensures Concerns(s, e, id)
  {
    assert |s.store| + 1 !in s.store;
    match e.event
    case LookupAnswered(k, workers) =>
      if k < |s.executing| && s.executing[k] in s.store { DispatchChangesOne(s, k, workers, e.now, id); }
    case CallReturns(k, outcome) =>
      if k < |s.rpcs| && s.rpcs[k].taskId in s.store { CallChangesOne(s, k, outcome, e.now, id); }
    case _ =>
  }

  lemma CallEnd(s: Sys, k: nat, outcome: Outcome, now: int)
    requires CustodyInv(s) && k < |s.rpcs| && s.rpcs[k].taskId in s.store
    ensures var id, s' := s.rpcs[k].taskId, RpcReturned(s, k, outcome, now);
      && id in s'.store && Carriers(s', id) == Carriers(s, id)
      && (IsRunning(s.store[id].status) && Armed(s, id) && !Armed(s', id) ==> IsTerminal(s'.store[id]))
  {
    RpcEffect(s, k, outcome, now);
  }

  lemma ResultEnd(s: Sys, msg: ResultMsg, now: int)
    requires msg.taskId in s.store && !IsTerminal(s.store[msg.taskId])
    ensures var id, s' := msg.taskId, ReturnResult(s, msg, now).0;
      && id in s'.store && Carriers(s', id) == Carriers(s, id)
      && (IsRunning(s.store[id].status) ==> IsTerminal(s'.store[id]))
  {
    ResultEffect(s, msg, now);
  }

  lemma TimerEnd(s: Sys, k: nat, now: int)
    requires CustodyInv(s) && k in s.live
    ensures var id, s' := s.live[k], TimerFires(s, k, now);
      && id in s.timers && s.timers[id] == k
      && id in s'.store && (IsTerminal(s'.store[id]) ==> Carriers(s', id) == Carriers(s, id))
  {
    assert InCustody(s, s.live[k]) && Armed(s, s.live[k]);
    TimerEffect(s, k, now);
  }

  lemma RunningAfterStep(s: Sys, e: Stamped, id: nat)
    requires Inv(s) && id in s.store
    ensures id in Step(s, e).store
    ensures IsRunning(Step(s, e).store[id].status) ==> Armed(Step(s, e), id)
  {
    StepKeeps(s, e);
    StepKeepsTask(s, e, id);
    assert InCustody(Step(s, e), id);
  }

  /** Whatever cancels a running timer (a rejection of this or of an earlier attempt, an
      early or a late result) ends that step in a terminal status. */
  lemma CancelEndsTerminal(s: Sys, e: Stamped, id: nat)
    requires Inv(s) && id in s.store && Armed(s, id)
    requires !Armed(Step(s, e), id) && e.event != TimeoutExpires(s.timers[id])
    ensures id in Step(s, e).store && IsTerminal(Step(s, e).store[id])
  {
    RunningAfterStep(s, e, id);
    assert InCustody(s, id);
    EventChangesItsTask(s, e, id);
    match e.event
    case CallReturns(k, outcome) => CallEnd(s, k, outcome, e.now);
    case TimeoutExpires(k) => TimerEnd(s, k, e.now);
    case ResultArrives(msg) => ResultEnd(s, msg, e.now);
    case _ =>
  }

  /** A step that makes a task terminal leaves it a carrier exactly when the task was
      waiting: then a late failure overtook the queue entry or the thread that carried it. */
  lemma LeftoverCarrier(s: Sys, e: Stamped, id: nat)
    requires Inv(s) && id in s.store && !IsTerminal(s.store[id])
    ensures id in Step(s, e).store
    ensures IsTerminal(Step(s, e).store[id]) ==>
      Carriers(Step(s, e), id) == if IsWaiting(s.store[id].status) then 1 else 0
  {
    StepKeepsTask(s, e, id);
    assert InCustody(s, id);
    if IsTerminal(Step(s, e).store[id]) {
      EventChangesItsTask(s, e, id);
      match e.event
      case CallReturns(k, outcome) => CallEnd(s, k, outcome, e.now);
      case TimeoutExpires(k) => TimerEnd(s, k, e.now);
      case ResultArrives(msg) => ResultEnd(s, msg, e.now);
      case _ =>
    }
  }

  lemma ExecCons(s: Sys, e: Stamped, rest: seq<Stamped>)
    ensures Exec(s, [e] + rest) == Exec(Step(s, e), rest)
  {
    assert ([e] + rest)[1..] == rest;
  }

  lemma PostFirst(s: Sys, taskType: string, payload: string, now: int)
    requires s.store == map[] && s.queue == [] && Admission(taskType, payload, 1).Posted?
    ensures Step(s, At(now, Post(taskType, payload)))
         == s.(store := map[1 := NewTask(1, taskType, payload, now)], queue := [1])
  {
    assert |s.store| == 0;
  }

  lemma DispatchFirst(s: Sys, t: TaskVal, worker: WorkerInfo, now: int)
    requires s.store == map[1 := t] && t.status == QUEUED && s.executing == [1] && s.nextTimer == 0
    requires s.live == map[] && s.rpcs == []
    ensures var s' := Step(s, At(now, LookupAnswered(0, [worker])));
      && s'.store == map[1 := AfterDispatch(t, worker, now)]
      && s'.queue == s.queue && s'.executing == [] && s'.sleeping == s.sleeping && s'.delayed == s.delayed
      && s'.rpcs == [Rpc(1, worker)] && s'.live == map[0 := 1] && s'.maxRetries == s.maxRetries
  {
  }

  lemma TimeoutFirst(s: Sys, t: TaskVal, now: int)
    requires s.store == map[1 := t] && s.live == map[0 := 1]
    requires t.status == DISPATCHED && t.retryCount + 1 < s.maxRetries
    ensures var s' := Step(s, At(now, TimeoutExpires(0)));
      && s'.store == map[1 := AfterTimeout(t, s.maxRetries, now)] && s'.store[1].status == RETRYING
      && s'.delayed == s.delayed + [1]
      && s'.rpcs == s.rpcs && s'.queue == s.queue && s'.executing == s.executing && s'.sleeping == s.sleeping
  {
  }

  /** The call meets its deadline. */
  lemma CallExpires(s: Sys, t: TaskVal, worker: WorkerInfo, now: int)
    requires s.store == map[1 := t] && s.rpcs == [Rpc(1, worker)]
    ensures Step(s, At(now, CallReturns(0, GrpcError))) == s.(rpcs := [])
  {
  }

  lemma FailFirst(s: Sys, t: TaskVal, error: string, now: int)
    requires s.store == map[1 := t] && t.status == RETRYING
    ensures var s' := Step(s, At(now, ResultArrives(ResultMsg(1, "FAILED", "", error))));
      && s'.store == map[1 := Moved(t, FAILED, now).(result := error)]
      && s'.delayed == s.delayed && s'.queue == s.queue && s'.executing == s.executing && s'.sleeping == s.sleeping
  {
  }

  /** A task that takes the worker 31 seconds: its call meets the deadline of 5 seconds, its
      timer expires after 30, sending its result raises, and the report of that failure
      comes within the second for which the retry is delayed. */
  function LateFailure(worker: WorkerInfo, error: string): seq<Stamped> {
    [At(1, Post("wait", "31"))]
    + ([At(1, DequeueNext)]
       + ([At(2, LookupAnswered(0, [worker]))]
          + ([At(7, CallReturns(0, GrpcError))]
             + ([At(32, TimeoutExpires(0))]
                + ([At(33, ResultArrives(ResultMsg(1, "FAILED", "", error)))] + [])))))
  }

  /** Such a leftover is reachable: a terminal task can keep its delayed retry. */
  lemma LeftoverHappens(maxRetries: int, worker: WorkerInfo, error: string)
    requires maxRetries >= 2
    ensures var s := Run(maxRetries, LateFailure(worker, error));
      1 in s.store && IsTerminal(s.store[1]) && s.store[1].result == error && Carriers(s, 1) == 1
  {
    var s0 := Init(maxRetries);
    var a, b, c := At(1, Post("wait", "31")), At(1, DequeueNext), At(2, LookupAnswered(0, [worker]));
    var d, e := At(7, CallReturns(0, GrpcError)), At(32, TimeoutExpires(0));
    var f := At(33, ResultArrives(ResultMsg(1, "FAILED", "", error)));
    var s1 := Step(s0, a);
    PostFirst(s0, "wait", "31", 1);
    var s2 := Step(s1, b);
    assert s2 == s1.(queue := [], executing := [1]);
    var s3 := Step(s2, c);
    DispatchFirst(s2, s2.store[1], worker, 2);
    var s4 := Step(s3, d);
    CallExpires(s3, s3.store[1], worker, 7);
    var s5 := Step(s4, e);
    TimeoutFirst(s4, s4.store[1], 32);
    var s6 := Step(s5, f);
    FailFirst(s5, s5.store[1], error, 33);
    ExecCons(s0, a, [b] + ([c] + ([d] + ([e] + ([f] + [])))));
    ExecCons(s1, b, [c] + ([d] + ([e] + ([f] + []))));
    ExecCons(s2, c, [d] + ([e] + ([f] + [])));
    ExecCons(s3, d, [e] + ([f] + []));
    ExecCons(s4, e, [f] + []);
    ExecCons(s5, f, []);
    assert s6.delayed == [1] && [1][1..] == [];
  }

  // ---------- Bounded re-execution and status changes ----------

  /** A task is sent to a worker at most max(1, MAX_RETRIES) times and its retry count
      never exceeds that bound; by status, attempts and retries differ by one while it
      runs and agree while it waits. */
  lemma AttemptsAreBounded(maxRetries: int, es: seq<Stamped>, id: nat)
    requires id in Run(maxRetries, es).store
    ensures var t := Run(maxRetries, es).store[id];
      && t.attempts <= RetryCap(maxRetries) && t.retryCount <= RetryCap(maxRetries)
      && (IsRunning(t.status) ==> t.attempts - t.retryCount == 1)
      && (IsWaiting(t.status) ==> t.attempts - t.retryCount == 0)
      && (IsTerminal(t) ==> 0 <= t.attempts - t.retryCount <= 1)
      && (t.status == COMPLETED ==> t.attempts - t.retryCount == 1)
  {
    RunKeeps(maxRetries, es);
    assert RecordOk(Run(maxRetries, es).store[id], maxRetries);
  }

  /** The status history of a task is a path of the transition table that starts at
      QUEUED and ends in its status; it makes at most 4 * max(1, MAX_RETRIES) + 1 changes
      in any run, however often the task is queued again for lack of a worker. */
  lemma HistoryIsABoundedPath(maxRetries: int, es: seq<Stamped>, id: nat)
    requires id in Run(maxRetries, es).store
    ensures var t := Run(maxRetries, es).store[id];
      && LegalPath(t.path) && t.path[|t.path| - 1] == t.status
      && |t.path| - 1 <= 4 * RetryCap(maxRetries) + 1
  {
    RunKeeps(maxRetries, es);
    assert RecordOk(Run(maxRetries, es).store[id], maxRetries);
  }

  /** A step appends to the history what it changes, and each appended status lowers the
      measure; so a step that changes a status lowers it strictly. */
  lemma StatusChangesArePaidFor(s: Sys, e: Stamped, id: nat)
    requires Inv(s) && id in s.store
    ensures id in Step(s, e).store
    ensures Pays(s.store[id], Step(s, e).store[id], s.maxRetries)
    ensures ChangesLeft(Step(s, e).store[id].status, Step(s, e).store[id].retryCount, s.maxRetries) >= 0
    ensures Step(s, e).store[id].status != s.store[id].status ==>
      ChangesLeft(Step(s, e).store[id].status, Step(s, e).store[id].retryCount, s.maxRetries)
      < ChangesLeft(s.store[id].status, s.store[id].retryCount, s.maxRetries)
  {
    StepKeepsTask(s, e, id);
    StepMovesTask(s, e, id);
    TaskStepKeepsRecord(s.store[id], Step(s, e).store[id], e.now, s.maxRetries);
    if |Step(s, e).store[id].path| == |s.store[id].path| {
      assert Step(s, e).store[id].path == s.store[id].path;
    }
  }

  // ---------- Nothing posted is lost, nothing terminal changes ----------

  /** Over any continuation of a run a task stays stored under its id with the type and
      payload it was posted with, its counters do not fall, and once it is terminal
      nothing about it changes, whatever results, timeouts or rejections arrive. */
  lemma {:induction false} TasksPersist(s: Sys, es: seq<Stamped>, id: nat)
    requires Inv(s) && id in s.store
    ensures id in Exec(s, es).store
    ensures var t, u := s.store[id], Exec(s, es).store[id];
      && u.taskId == t.taskId && u.taskType == t.taskType && u.payload == t.payload
      && t.attempts <= u.attempts && t.retryCount <= u.retryCount
      && (IsTerminal(t) ==> u == t)
    decreases |es|
  {
    if es != [] {
      StepKeeps(s, es[0]);
      StepKeepsTask(s, es[0], id);
      StepMovesTask(s, es[0], id);
      TaskStepFrame(s.store[id], Step(s, es[0]).store[id], es[0].now, s.maxRetries);
      TasksPersist(Step(s, es[0]), es[1..], id);
    }
  }

  /** What a client sees: no result before the end, and once GetResult has reported a
      terminal status every later answer for that id is the same. */
  lemma ClientViewIsStable(maxRetries: int, es: seq<Stamped>, later: seq<Stamped>, id: nat)
    requires id in Run(maxRetries, es).store
    ensures var first := GetResult(Run(maxRetries, es), id);
      && first.Found?
      && (!IsTerminalState(first.status) ==> first.result == "")
      && (IsTerminalState(first.status) ==> GetResult(Run(maxRetries, es + later), id) == first)
  {
    RunKeeps(maxRetries, es);
    ExecConcat(Init(maxRetries), es, later);
    TasksPersist(Run(maxRetries, es), later, id);
    assert RecordOk(Run(maxRetries, es).store[id], maxRetries);
  }

  /** An accepted request gets an id that was never used before, and the task is found
      under it with its own type and payload ever after. */
  lemma PostedTasksStay(maxRetries: int, es: seq<Stamped>, taskType: string, payload: string, now: int,
        later: seq<Stamped>)
    requires Admission(taskType, payload, 0).Posted?
    ensures var s := Run(maxRetries, es); var reply := PostTask(s, taskType, payload, now).1;
      && reply.Posted? && reply.taskId !in s.store && (forall id :: id in s.store ==> id < reply.taskId)
      && var s' := Run(maxRetries, es + [At(now, Post(taskType, payload))] + later);
         && reply.taskId in s'.store
         && s'.store[reply.taskId].taskType == taskType && s'.store[reply.taskId].payload == payload
  {
    var s, post := Run(maxRetries, es), At(now, Post(taskType, payload));
    RunKeeps(maxRetries, es);
    StepKeeps(s, post);
    assert es + [post] + later == es + ([post] + later);
    ExecConcat(Init(maxRetries), es, [post] + later);
    assert ([post] + later)[1..] == later;
    assert Exec(s, [post] + later) == Exec(Step(s, post), later);
    assert |s.store| + 1 !in s.store;
    TasksPersist(Step(s, post), later, |s.store| + 1);
  }

  // ---------- Timestamps ----------

  /** Clock readings that never run backwards from t0 on. */
  predicate Monotone(t0: int, es: seq<Stamped>)
    decreases |es|
  {
    es == [] || (t0 <= es[0].now && Monotone(es[0].now, es[1..]))
  }

  function LastReading(t0: int, es: seq<Stamped>): int {
    if es == [] then t0 else es[|es| - 1].now
  }

  lemma {:induction false} TimesStayOk(s: Sys, t0: int, es: seq<Stamped>)
    requires Inv(s) && 0 < t0 && Monotone(t0, es)
    requires forall id :: id in s.store ==> TimesOk(s.store[id], t0)
    ensures t0 <= LastReading(t0, es)
    ensures forall id :: id in Exec(s, es).store ==> TimesOk(Exec(s, es).store[id], LastReading(t0, es))
    decreases |es|
  {
    if es != [] {
      var e, s' := es[0], Step(s, es[0]);
      StepKeeps(s, e);
      forall id | id in s'.store
        ensures TimesOk(s'.store[id], e.now)
      {
        StepMovesTask(s, e, id);
        if id in s.store {
          TaskStepKeepsTimes(s.store[id], s'.store[id], e.now, s.maxRetries);
        }
      }
      TimesStayOk(s', e.now, es[1..]);
    }
  }

  /** With a positive clock that never runs backwards every completed task was dispatched
      after zero and completed no earlier than it was dispatched. */
  lemma CompletedTimesAreSound(maxRetries: int, t0: int, es: seq<Stamped>, id: nat)
    requires 0 < t0 && Monotone(t0, es)
    requires id in Run(maxRetries, es).store && Run(maxRetries, es).store[id].status == COMPLETED
    ensures var t := Run(maxRetries, es).store[id]; 0 < t.timestampDispatched <= t.timestampCompleted
  {
    InitOk(maxRetries);
    TimesStayOk(Init(maxRetries), t0, es);
  }
}
