/** Records: how the counters, the history, the result and the timestamps of one task
    relate to its status. Every step of the dispatcher moves every task by one of a few
    record steps, so whatever record steps keep holds in every run. */
module DispatcherRecords {
  import opened Protocol
  import opened StateMachine
  import opened RoundRobin
  import opened DispatcherSpec
  import opened DispatcherCustody

  /** The ways in which one step can change one task. */
  ghost predicate TaskStep(t: TaskVal, u: TaskVal, now: int, maxRetries: int) {
    || u == t
    || (IsWaiting(t.status) && exists w :: u == AfterDispatch(t, w, now))
    || (t.status == DISPATCHED && u == Moved(t, PROCESSING, now))
    || (!IsTerminal(t) && u == Moved(t, FAILED, now))
    || (IsRunning(t.status) && u == AfterTimeout(t, maxRetries, now))
    || (!IsTerminal(t) && exists msg :: u == AfterResult(t, msg, now))
  }

  /** Between two stores with the same tasks, every task makes a record step. */
  ghost predicate TasksStep(s: Sys, s': Sys, now: int) {
    && s'.maxRetries == s.maxRetries
    && s'.store.Keys == s.store.Keys
    && forall id :: id in s.store ==> TaskStep(s.store[id], s'.store[id], now, s.maxRetries)
  }

  lemma DispatchMovesTasks(s: Sys, k: nat, workers: seq<WorkerInfo>, now: int)
    requires k < |s.executing| && s.executing[k] in s.store
    ensures TasksStep(s, Dispatch(s, k, workers, now), now)
  {
    var id, s' := s.executing[k], Dispatch(s, k, workers, now);
    if workers != [] && Allowed(s.store[id].status, DISPATCHED) {
      var i := Choice(s.counters, s.store[id].taskType, |workers|).0;
      assert s'.store[id] == AfterDispatch(s.store[id], workers[i], now);
    }
  }

  lemma CallMovesTasks(s: Sys, k: nat, outcome: Outcome, now: int)
    requires k < |s.rpcs| && s.rpcs[k].taskId in s.store
    ensures TasksStep(s, RpcReturned(s, k, outcome, now), now)
  {
  }

  lemma TimerMovesTasks(s: Sys, k: nat, now: int)
    requires k in s.live
    ensures TasksStep(s, TimerFires(s, k, now), now)
  {
  }

  lemma ResultMovesTasks(s: Sys, msg: ResultMsg, now: int)
    ensures TasksStep(s, ReturnResult(s, msg, now).0, now)
  {
    var id, s' := msg.taskId, ReturnResult(s, msg, now).0;
    if id in s.store && !IsTerminal(s.store[id]) {
      assert s'.store[id] == AfterResult(s.store[id], msg, now);
    }
  }

  /** Every step moves every task by a record step, and only Post adds a task. */
  lemma StepMovesTasks(s: Sys, e: Stamped)
    requires StoreOk(s)
    ensures var s' := Step(s, e);
      || TasksStep(s, s', e.now)
      || (&& e.event.Post?
          && s' == PostTask(s, e.event.taskType, e.event.payload, e.now).0
          && PostTask(s, e.event.taskType, e.event.payload, e.now).1.Posted?)
  {
    match e.event
    case LookupAnswered(k, workers) =>
      if k < |s.executing| && s.executing[k] in s.store { DispatchMovesTasks(s, k, workers, e.now); }
    case CallReturns(k, outcome) =>
      if k < |s.rpcs| && s.rpcs[k].taskId in s.store { CallMovesTasks(s, k, outcome, e.now); }
    case TimeoutExpires(k) => if k in s.live { TimerMovesTasks(s, k, e.now); }
    case ResultArrives(msg) => ResultMovesTasks(s, msg, e.now);
    case _ =>
  }

  /** The same for one task: it makes a record step, or it is new. */
  lemma StepMovesTask(s: Sys, e: Stamped, id: nat)
    requires StoreOk(s) && id in Step(s, e).store
    ensures Step(s, e).maxRetries == s.maxRetries
    ensures id in s.store ==> TaskStep(s.store[id], Step(s, e).store[id], e.now, s.maxRetries)
    ensures id !in s.store ==>
      && e.event.Post? && id == |s.store| + 1 && Admission(e.event.taskType, e.event.payload, id).Posted?
      && Step(s, e).store[id] == NewTask(id, e.event.taskType, e.event.payload, e.now)
  {
    StepMovesTasks(s, e);
  }

  lemma StepKeepsTask(s: Sys, e: Stamped, id: nat)
    requires StoreOk(s) && id in s.store
    ensures id in Step(s, e).store
  {
    StepMovesTasks(s, e);
  }

  // ---------- Counters and history ----------

  /** Attempts against retries, by status. */
  predicate Accounting(t: TaskVal, maxRetries: int) {
    var cap := RetryCap(maxRetries);
    match t.status
    case QUEUED => t.attempts == t.retryCount == 0
    case RETRYING => t.attempts == t.retryCount < cap
    case DISPATCHED => t.attempts == t.retryCount + 1 <= cap
    case PROCESSING => t.attempts == t.retryCount + 1 <= cap
    case COMPLETED => t.attempts == t.retryCount + 1 <= cap
    case FAILED => t.retryCount <= t.attempts <= t.retryCount + 1 && t.attempts <= cap
    case CREATED => false
    case TIMEOUT => false
  }

  predicate HistoryOk(t: TaskVal) {
    LegalPath(t.path) && t.path[|t.path| - 1] == t.status
  }

  /** What the history has used up and what is left stay within the bound together. */
  predicate BudgetOk(t: TaskVal, maxRetries: int) {
    |t.path| - 1 + ChangesLeft(t.status, t.retryCount, maxRetries) <= 4 * RetryCap(maxRetries) + 1
  }

  predicate RecordOk(t: TaskVal, maxRetries: int) {
    && Accounting(t, maxRetries)
    && HistoryOk(t)
    && BudgetOk(t, maxRetries)
    && (!IsTerminal(t) ==> t.result == "")
  }

  /** The history grows at its end, and each status it gains is paid for. */
  predicate Pays(t: TaskVal, u: TaskVal, maxRetries: int) {
    && t.path <= u.path
    && |u.path| - |t.path|
         <= ChangesLeft(t.status, t.retryCount, maxRetries) - ChangesLeft(u.status, u.retryCount, maxRetries)
  }

  lemma MoveKeepsHistory(t: TaskVal, to: TaskState, now: int)
    requires HistoryOk(t)
    ensures HistoryOk(Moved(t, to, now)) && t.path <= Moved(t, to, now).path
  {
    if Allowed(t.status, to) {
      MovedExtendsPath(t, to, now);
    }
  }

  lemma TimeoutKeepsRecord(t: TaskVal, now: int, maxRetries: int)
    requires RecordOk(t, maxRetries) && IsRunning(t.status)
    ensures RecordOk(AfterTimeout(t, maxRetries, now), maxRetries)
    ensures Pays(t, AfterTimeout(t, maxRetries, now), maxRetries)
  {
    var timedOut := Moved(t, TIMEOUT, now);
    MoveKeepsHistory(t, TIMEOUT, now);
    var retrying := Moved(timedOut, RETRYING, now);
    MoveKeepsHistory(timedOut, RETRYING, now);
    MoveKeepsHistory(retrying.(retryCount := t.retryCount + 1), FAILED, now);
  }

  lemma MoveKeepsRecord(t: TaskVal, to: TaskState, now: int, maxRetries: int)
    requires RecordOk(t, maxRetries) && !IsTerminal(t) && to in {PROCESSING, COMPLETED, FAILED}
    ensures RecordOk(Moved(t, to, now), maxRetries) && Pays(t, Moved(t, to, now), maxRetries)
  {
    MoveKeepsHistory(t, to, now);
    if Allowed(t.status, to) {
      EveryChangeIsPaidFor(t.status, to, t.retryCount, maxRetries);
    }
  }

  lemma DispatchKeepsRecord(t: TaskVal, worker: WorkerInfo, now: int, maxRetries: int)
    requires RecordOk(t, maxRetries) && IsWaiting(t.status)
    ensures RecordOk(AfterDispatch(t, worker, now), maxRetries) && Pays(t, AfterDispatch(t, worker, now), maxRetries)
  {
    MoveKeepsHistory(t, DISPATCHED, now);
    EveryChangeIsPaidFor(t.status, DISPATCHED, t.retryCount, maxRetries);
  }

  lemma ResultKeepsRecord(t: TaskVal, msg: ResultMsg, now: int, maxRetries: int)
    requires RecordOk(t, maxRetries) && !IsTerminal(t)
    ensures RecordOk(AfterResult(t, msg, now), maxRetries) && Pays(t, AfterResult(t, msg, now), maxRetries)
  {
    var begun, to := Begun(t, now), TargetState(msg);
    MoveKeepsRecord(t, PROCESSING, now, maxRetries);
    assert RecordOk(begun, maxRetries) && Pays(t, begun, maxRetries) && !IsTerminal(begun);
    MoveKeepsRecord(begun, to, now, maxRetries);
    var moved := Moved(begun, to, now);
    assert AfterResult(t, msg, now) == moved.(result := AfterResult(t, msg, now).result);
  }

  lemma TaskStepKeepsRecord(t: TaskVal, u: TaskVal, now: int, maxRetries: int)
    requires RecordOk(t, maxRetries) && TaskStep(t, u, now, maxRetries)
    ensures RecordOk(u, maxRetries) && Pays(t, u, maxRetries)
  {
    if u == t {
    } else if w :| IsWaiting(t.status) && u == AfterDispatch(t, w, now) {
      DispatchKeepsRecord(t, w, now, maxRetries);
    } else if t.status == DISPATCHED && u == Moved(t, PROCESSING, now) {
      MoveKeepsRecord(t, PROCESSING, now, maxRetries);
    } else if u == Moved(t, FAILED, now) {
      MoveKeepsRecord(t, FAILED, now, maxRetries);
    } else if IsRunning(t.status) && u == AfterTimeout(t, maxRetries, now) {
      TimeoutKeepsRecord(t, now, maxRetries);
    } else {
      var msg :| u == AfterResult(t, msg, now);
      ResultKeepsRecord(t, msg, now, maxRetries);
    }
  }

  lemma NewRecord(id: nat, taskType: string, payload: string, now: int, maxRetries: int)
    ensures RecordOk(NewTask(id, taskType, payload, now), maxRetries)
  {
  }

  // ---------- What never changes ----------

  /** What one task may become keeps its identity and does not lower its counters. */
  predicate Framed(t: TaskVal, u: TaskVal) {
    && u.taskId == t.taskId && u.taskType == t.taskType && u.payload == t.payload
    && u.timestampCreated == t.timestampCreated
    && t.attempts <= u.attempts && t.retryCount <= u.retryCount
  }

  lemma TimeoutFrame(t: TaskVal, maxRetries: int, now: int)
    ensures Framed(t, AfterTimeout(t, maxRetries, now))
  {
  }

  lemma ResultFrame(t: TaskVal, msg: ResultMsg, now: int)
    ensures Framed(t, AfterResult(t, msg, now))
  {
  }

  /** Id, type, payload and creation time of a task never change, attempts and retries
      never fall, and a terminal task does not change at all. */
  lemma TaskStepFrame(t: TaskVal, u: TaskVal, now: int, maxRetries: int)
    requires TaskStep(t, u, now, maxRetries)
    ensures u.taskId == t.taskId && u.taskType == t.taskType && u.payload == t.payload
    ensures u.timestampCreated == t.timestampCreated
    ensures t.attempts <= u.attempts && t.retryCount <= u.retryCount
    ensures IsTerminal(t) ==> u == t
  {
    if u != t {
      TimeoutFrame(t, maxRetries, now);
      if msg :| u == AfterResult(t, msg, now) {
        ResultFrame(t, msg, now);
      }
    }
  }

  // ---------- Timestamps ----------

  /** With the clock past zero: dispatched before now, completed after dispatched. */
  predicate TimesOk(t: TaskVal, now: int) {
    && t.timestampDispatched <= now && t.timestampCompleted <= now
    && (t.status == DISPATCHED || t.status == PROCESSING || t.status == COMPLETED ==> 0 < t.timestampDispatched)
    && (t.status == COMPLETED ==> t.timestampDispatched <= t.timestampCompleted)
  }

  lemma MoveKeepsTimes(t: TaskVal, to: TaskState, now: int)
    requires TimesOk(t, now) && 0 < now
    ensures TimesOk(Moved(t, to, now), now)
  {
  }

  lemma TaskStepKeepsTimes(t: TaskVal, u: TaskVal, now: int, maxRetries: int)
    requires TaskStep(t, u, now, maxRetries) && TimesOk(t, now) && 0 < now
    ensures TimesOk(u, now)
  {
    if u == t {
    } else if w :| IsWaiting(t.status) && u == AfterDispatch(t, w, now) {
      MoveKeepsTimes(t, DISPATCHED, now);
    } else if t.status == DISPATCHED && u == Moved(t, PROCESSING, now) {
      MoveKeepsTimes(t, PROCESSING, now);
    } else if u == Moved(t, FAILED, now) {
      MoveKeepsTimes(t, FAILED, now);
    } else if IsRunning(t.status) && u == AfterTimeout(t, maxRetries, now) {
      var retrying := Moved(Moved(t, TIMEOUT, now), RETRYING, now);
      MoveKeepsTimes(Moved(t, TIMEOUT, now), RETRYING, now);
      MoveKeepsTimes(retrying.(retryCount := t.retryCount + 1), FAILED, now);
    } else {
      var msg :| u == AfterResult(t, msg, now);
      MoveKeepsTimes(t, PROCESSING, now);
      MoveKeepsTimes(Begun(t, now), TargetState(msg), now);
    }
  }
}
