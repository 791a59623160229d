/** Custody: who carries a task and which timer guards it. Every step keeps the rule that
    exactly one thing moves a task that is not terminal. */
module DispatcherCustody {
  import opened Counting
  import opened Protocol
  import opened StateMachine
  import opened RoundRobin
  import opened DispatcherSpec

  /** How many queue entries and threads carry the task. */
  function Carriers(s: Sys, id: nat): nat {
    Occurrences(s.queue, id) + Occurrences(s.executing, id) + Occurrences(s.sleeping, id) + Occurrences(s.delayed, id)
  }

  /** The timer registered under the id is still running. */
  predicate Armed(s: Sys, id: nat) {
    id in s.timers && s.timers[id] in s.live
  }

  // ---------- Custody ----------

  ghost predicate StoreOk(s: Sys) {
    && (forall id: nat :: id in s.store <==> 1 <= id <= |s.store|)
    && (forall id :: id in s.store ==> s.store[id].taskId == id)
  }

  /** Whatever is queued, carried, called out or timed is a stored task. */
  ghost predicate RefsOk(s: Sys) {
    && (forall id: nat :: Carriers(s, id) > 0 ==> id in s.store)
    && (forall r :: r in s.rpcs ==> r.taskId in s.store)
  }

  /** Every live timer is the one registered under its task; numbers are not reused. */
  ghost predicate TimersOk(s: Sys) {
    && (forall k :: k in s.live ==>
          && k < s.nextTimer
          && s.live[k] in s.store
          && s.live[k] in s.timers
          && s.timers[s.live[k]] == k)
    && (forall id :: id in s.timers ==> s.timers[id] < s.nextTimer)
    && (forall id :: Armed(s, id) ==> s.live[s.timers[id]] == id)
  }

  /** Exactly one thing moves a task that is not terminal: a carrier or its timer. */
  predicate Custody(status: TaskState, carriers: nat, armed: bool) {
    || (IsWaiting(status) && carriers == 1 && !armed)
    || (IsRunning(status) && carriers == 0 && armed)
    || (IsTerminalState(status) && carriers <= 1 && !armed)
  }

  ghost predicate InCustody(s: Sys, id: nat)
    requires id in s.store
  {
    Custody(s.store[id].status, Carriers(s, id), Armed(s, id))
  }

  ghost predicate CustodyInv(s: Sys) {
    && StoreOk(s)
    && RefsOk(s)
    && TimersOk(s)
    && (forall id :: id in s.store ==> InCustody(s, id))
  }

  /** Nothing but the task `id` gains or loses a carrier, a timer or its status. */
  ghost predicate Elsewhere(s: Sys, s': Sys, id: nat) {
    && s'.store.Keys == s.store.Keys
    && (forall j :: j in s.store && j != id ==> s'.store[j] == s.store[j])
    && (forall j: nat :: j != id ==> Carriers(s', j) == Carriers(s, j))
    && (forall j: nat :: j != id ==> (Armed(s', j) <==> Armed(s, j)))
    && (forall r :: r in s'.rpcs ==> r in s.rpcs || r.taskId == id)
  }

  lemma Localize(s: Sys, s': Sys, id: nat)
    requires CustodyInv(s) && id in s.store
    requires Elsewhere(s, s', id) && TimersOk(s')
    requires s'.store[id].taskId == id && InCustody(s', id)
    ensures CustodyInv(s')
  {
    assert |s'.store| == |s'.store.Keys| == |s.store.Keys| == |s.store|;
    forall j | j in s'.store
      ensures InCustody(s', j)
    {
      assert InCustody(s, j);
    }
  }

  lemma TimersAfterStart(s: Sys, id: nat)
    requires TimersOk(s) && id in s.store && !Armed(s, id)
    ensures TimersOk(StartTimer(s, id))
    ensures forall j :: Armed(StartTimer(s, id), j) <==> j == id || Armed(s, j)
  {
  }

  lemma TimersAfterCancel(s: Sys, id: nat)
    requires TimersOk(s)
    ensures TimersOk(CancelTimeout(s, id))
    ensures forall j :: Armed(CancelTimeout(s, id), j) <==> j != id && Armed(s, j)
  {
  }

  /** Losing the live timer k disarms its task and no other. */
  lemma TimersAfterFiring(s: Sys, k: nat)
    requires TimersOk(s) && k in s.live
    ensures var s' := s.(live := s.live - {k});
      TimersOk(s') && forall j :: Armed(s', j) <==> j != s.live[k] && Armed(s, j)
  {
  }

  lemma SameTimers(s: Sys, s': Sys)
    requires TimersOk(s) && s'.timers == s.timers && s'.live == s.live && s'.nextTimer == s.nextTimer
    requires s'.store.Keys >= s.store.Keys
    ensures TimersOk(s') && forall j :: Armed(s', j) <==> Armed(s, j)
  {
  }

  /** A new task under the next id, with one carrier. */
  lemma TaskIsAdded(s: Sys, s': Sys, id: nat, t: TaskVal)
    requires CustodyInv(s) && id == |s.store| + 1
    requires s'.store == s.store[id := t] && t.taskId == id && t.status == QUEUED
    requires s'.rpcs == s.rpcs && s'.timers == s.timers && s'.live == s.live && s'.nextTimer == s.nextTimer
    requires forall j: nat :: Carriers(s', j) == Carriers(s, j) + if j == id then 1 else 0
    ensures CustodyInv(s')
  {
    assert id !in s.store && Carriers(s, id) == 0 && !Armed(s, id);
    SameTimers(s, s');
    forall j | j in s'.store && j != id
      ensures InCustody(s', j)
    {
      assert InCustody(s, j);
    }
  }

  lemma PostKeepsCustody(s: Sys, taskType: string, payload: string, now: int)
    requires CustodyInv(s)
    ensures CustodyInv(PostTask(s, taskType, payload, now).0)
  {
    var (s', reply) := PostTask(s, taskType, payload, now);
    if reply.Posted? {
      var id := |s.store| + 1;
      OccurrencesAfterAppend(s.queue, id);
      TaskIsAdded(s, s', id, s'.store[id]);
    }
  }

  /** A waiting or terminal task moves from one carrier to another, or a terminal one is
      put down. */
  lemma CarrierMoves(s: Sys, s': Sys, id: nat)
    requires CustodyInv(s) && id in s.store
    requires s'.store == s.store && s'.timers == s.timers && s'.live == s.live && s'.nextTimer == s.nextTimer
    requires s'.rpcs == s.rpcs
    requires forall j: nat :: j != id ==> Carriers(s', j) == Carriers(s, j)
    requires Carriers(s', id) == Carriers(s, id) || (Carriers(s', id) < Carriers(s, id) && IsTerminal(s.store[id]))
    ensures CustodyInv(s')
  {
    assert InCustody(s, id);
    SameTimers(s, s');
    Localize(s, s', id);
  }

  /** A task that has a carrier is waiting or terminal. */
  lemma CarriedTask(s: Sys, id: nat)
    requires CustodyInv(s) && Carriers(s, id) > 0
    ensures id in s.store && !Armed(s, id) && Carriers(s, id) == 1
    ensures IsWaiting(s.store[id].status) || IsTerminal(s.store[id])
  {
    assert InCustody(s, id);
  }

  lemma DequeueKeepsCustody(s: Sys)
    requires CustodyInv(s)
    ensures CustodyInv(Dequeue(s))
  {
    if s.queue != [] {
      var id := s.queue[0];
      OccurrencesAfterRemoval(s.queue, 0);
      OccurrencesAfterAppend(s.executing, id);
      assert RemoveAt(s.queue, 0) == s.queue[1..];
      CarriedTask(s, id);
      CarrierMoves(s, Dequeue(s), id);
    }
  }

  lemma WakeKeepsCustody(s: Sys, k: nat)
    requires CustodyInv(s) && k < |s.sleeping|
    ensures CustodyInv(Wake(s, k))
  {
    OccurrencesAfterRemoval(s.sleeping, k);
    OccurrencesAfterAppend(s.queue, s.sleeping[k]);
    CarriedTask(s, s.sleeping[k]);
    CarrierMoves(s, Wake(s, k), s.sleeping[k]);
  }

  lemma DelayKeepsCustody(s: Sys, k: nat)
    requires CustodyInv(s) && k < |s.delayed|
    ensures CustodyInv(DelayOver(s, k))
  {
    OccurrencesAfterRemoval(s.delayed, k);
    OccurrencesAfterAppend(s.queue, s.delayed[k]);
    CarriedTask(s, s.delayed[k]);
    CarrierMoves(s, DelayOver(s, k), s.delayed[k]);
  }

  ghost predicate SameCarriers(s: Sys, s': Sys) {
    s'.queue == s.queue && s'.executing == s.executing && s'.sleeping == s.sleeping && s'.delayed == s.delayed
  }

  /** Only the record of the task `id` changes, and it remains the record of `id`. */
  ghost predicate OnlyTask(s: Sys, s': Sys, id: nat)
    requires id in s.store
  {
    && s'.store.Keys == s.store.Keys
    && (forall j :: j in s.store && j != id ==> s'.store[j] == s.store[j])
    && s'.store[id].taskId == s.store[id].taskId
  }

  /** A step that changes the status of one task, and may cancel its timer, keeps custody
      if the new status suits the carriers and the timer that remain. */
  lemma StatusChanges(s: Sys, s': Sys, id: nat, cancel: bool)
    requires CustodyInv(s) && id in s.store
    requires SameCarriers(s, s') && OnlyTask(s, s', id)
    requires forall r :: r in s'.rpcs ==> r in s.rpcs
    requires s'.nextTimer == s.nextTimer
    requires s'.timers == if cancel then CancelTimeout(s, id).timers else s.timers
    requires s'.live == if cancel then CancelTimeout(s, id).live else s.live
    requires Custody(s'.store[id].status, Carriers(s, id), Armed(s, id) && !cancel)
    ensures CustodyInv(s')
  {
    TimersAfterCancel(s, id);
    SameTimers(if cancel then CancelTimeout(s, id) else s, s');
    Localize(s, s', id);
  }

  /** A step that takes a waiting task off its carrier and starts its timer. */
  lemma CarrierBecomesTimer(s: Sys, s': Sys, id: nat)
    requires CustodyInv(s) && id in s.store && IsWaiting(s.store[id].status)
    requires OnlyTask(s, s', id) && s'.store[id].status == DISPATCHED
    requires forall j: nat :: Carriers(s', j) + (if j == id then 1 else 0) == Carriers(s, j)
    requires forall r :: r in s'.rpcs ==> r in s.rpcs || r.taskId == id
    requires s'.timers == StartTimer(s, id).timers && s'.live == StartTimer(s, id).live
    requires s'.nextTimer == StartTimer(s, id).nextTimer
    ensures CustodyInv(s')
  {
    assert InCustody(s, id);
    TimersAfterStart(s, id);
    SameTimers(StartTimer(s, id), s');
    Localize(s, s', id);
  }

  lemma SendEffect(s: Sys, k: nat, workers: seq<WorkerInfo>, now: int)
    requires k < |s.executing| && s.executing[k] in s.store && workers != []
    requires IsWaiting(s.store[s.executing[k]].status)
    ensures var s', id := Dispatch(s, k, workers, now), s.executing[k];
      && OnlyTask(s, s', id) && s'.store[id].status == DISPATCHED
      && s'.queue == s.queue && s'.sleeping == s.sleeping && s'.delayed == s.delayed
      && s'.executing == RemoveAt(s.executing, k)
      && (forall r :: r in s'.rpcs ==> r in s.rpcs || r.taskId == id)
      && s'.timers == StartTimer(s, id).timers && s'.live == StartTimer(s, id).live
      && s'.nextTimer == StartTimer(s, id).nextTimer
  {
  }

  lemma SendKeepsCustody(s: Sys, k: nat, workers: seq<WorkerInfo>, now: int)
    requires CustodyInv(s) && k < |s.executing| && s.executing[k] in s.store && workers != []
    requires IsWaiting(s.store[s.executing[k]].status)
    ensures CustodyInv(Dispatch(s, k, workers, now))
  {
    OccurrencesAfterRemoval(s.executing, k);
    SendEffect(s, k, workers, now);
    CarrierBecomesTimer(s, Dispatch(s, k, workers, now), s.executing[k]);
  }

  lemma PutDownKeepsCustody(s: Sys, k: nat, workers: seq<WorkerInfo>, now: int)
    requires CustodyInv(s) && k < |s.executing| && s.executing[k] in s.store
    requires workers == [] || IsTerminal(s.store[s.executing[k]])
    ensures CustodyInv(Dispatch(s, k, workers, now))
  {
    var id := s.executing[k];
    OccurrencesAfterRemoval(s.executing, k);
    OccurrencesAfterAppend(s.sleeping, id);
    CarrierMoves(s, Dispatch(s, k, workers, now), id);
  }

  lemma DispatchKeepsCustody(s: Sys, k: nat, workers: seq<WorkerInfo>, now: int)
    requires CustodyInv(s) && k < |s.executing| && s.executing[k] in s.store
    ensures CustodyInv(Dispatch(s, k, workers, now))
  {
    OccurrencesAfterRemoval(s.executing, k);
    CarriedTask(s, s.executing[k]);
    if workers == [] || IsTerminal(s.store[s.executing[k]]) {
      PutDownKeepsCustody(s, k, workers, now);
    } else {
      SendKeepsCustody(s, k, workers, now);
    }
  }

  lemma RpcEffect(s: Sys, k: nat, outcome: Outcome, now: int)
    requires k < |s.rpcs| && s.rpcs[k].taskId in s.store
    ensures var s', id, cancel := RpcReturned(s, k, outcome, now), s.rpcs[k].taskId, outcome == Rejected;
      && SameCarriers(s, s') && OnlyTask(s, s', id)
      && (forall r :: r in s'.rpcs ==> r in s.rpcs)
      && s'.nextTimer == s.nextTimer
      && s'.timers == (if cancel then CancelTimeout(s, id).timers else s.timers)
      && s'.live == (if cancel then CancelTimeout(s, id).live else s.live)
      && s'.store[id].status ==
           (if outcome == Accepted && s.store[id].status == DISPATCHED then PROCESSING
            else if outcome == Rejected && s.store[id].status in {QUEUED, DISPATCHED, PROCESSING, RETRYING} then FAILED
            else s.store[id].status)
  {
    RemovedElements(s.rpcs, k);
  }

  lemma RpcKeepsCustody(s: Sys, k: nat, outcome: Outcome, now: int)
    requires CustodyInv(s) && k < |s.rpcs| && s.rpcs[k].taskId in s.store
    ensures CustodyInv(RpcReturned(s, k, outcome, now))
  {
    var id := s.rpcs[k].taskId;
    assert InCustody(s, id);
    RpcEffect(s, k, outcome, now);
    StatusChanges(s, RpcReturned(s, k, outcome, now), id, outcome == Rejected);
  }

  /** A step that takes away the live timer of a running task and either fails the task
      or gives it a carrier. */
  lemma TimerBecomesCarrier(s: Sys, s': Sys, k: nat, id: nat)
    requires CustodyInv(s) && k in s.live && s.live[k] == id && id in s.store
    requires OnlyTask(s, s', id) && s'.rpcs == s.rpcs
    requires s'.timers == s.timers && s'.live == s.live - {k} && s'.nextTimer == s.nextTimer
    requires s'.store[id].status == RETRYING || s'.store[id].status == FAILED
    requires forall j: nat ::
      Carriers(s', j) == Carriers(s, j) + if j == id && s'.store[id].status == RETRYING then 1 else 0
    ensures CustodyInv(s')
  {
    assert Armed(s, id) && InCustody(s, id);
    TimersAfterFiring(s, k);
    SameTimers(s.(live := s.live - {k}), s');
    Localize(s, s', id);
  }

  lemma TimerEffect(s: Sys, k: nat, now: int)
    requires k in s.live && s.live[k] in s.store && IsRunning(s.store[s.live[k]].status)
    ensures var s', id := TimerFires(s, k, now), s.live[k];
      && OnlyTask(s, s', id) && s'.rpcs == s.rpcs
      && s'.timers == s.timers && s'.live == s.live - {k} && s'.nextTimer == s.nextTimer
      && s'.queue == s.queue && s'.executing == s.executing && s'.sleeping == s.sleeping
      && (|| (s'.store[id].status == RETRYING && s'.delayed == s.delayed + [id])
          || (s'.store[id].status == FAILED && s'.delayed == s.delayed))
  {
  }

  lemma TimerKeepsCustody(s: Sys, k: nat, now: int)
    requires CustodyInv(s) && k in s.live
    ensures CustodyInv(TimerFires(s, k, now))
  {
    var id := s.live[k];
    assert Armed(s, id) && InCustody(s, id);
    OccurrencesAfterAppend(s.delayed, id);
    TimerEffect(s, k, now);
    TimerBecomesCarrier(s, TimerFires(s, k, now), k, id);
  }

  lemma ResultEffect(s: Sys, msg: ResultMsg, now: int)
    requires msg.taskId in s.store && !IsTerminal(s.store[msg.taskId])
    ensures var s', id := ReturnResult(s, msg, now).0, msg.taskId;
      && SameCarriers(s, s') && OnlyTask(s, s', id)
      && s'.rpcs == s.rpcs
      && s'.nextTimer == s.nextTimer
      && s'.timers == CancelTimeout(s, id).timers && s'.live == CancelTimeout(s, id).live
      && (IsRunning(s.store[id].status) ==> s'.store[id].status == TargetState(msg))
      && (IsWaiting(s.store[id].status) ==>
            s'.store[id].status == if TargetState(msg) == FAILED then FAILED else s.store[id].status)
  {
  }

  lemma ResultKeepsCustody(s: Sys, msg: ResultMsg, now: int)
    requires CustodyInv(s)
    ensures CustodyInv(ReturnResult(s, msg, now).0)
  {
    var id := msg.taskId;
    if id in s.store && !IsTerminal(s.store[id]) {
      assert InCustody(s, id);
      ResultEffect(s, msg, now);
      StatusChanges(s, ReturnResult(s, msg, now).0, id, true);
    }
  }

  lemma StepKeepsCustody(s: Sys, e: Stamped)
    requires CustodyInv(s)
    ensures CustodyInv(Step(s, e))
  {
    match e.event
    case Post(taskType, payload) => PostKeepsCustody(s, taskType, payload, e.now);
    case DequeueNext => DequeueKeepsCustody(s);
    case LookupAnswered(k, workers) =>
      if k < |s.executing| && s.executing[k] in s.store { DispatchKeepsCustody(s, k, workers, e.now); }
    case SleeperWakes(k) => if k < |s.sleeping| { WakeKeepsCustody(s, k); }
    case CallReturns(k, outcome) =>
      if k < |s.rpcs| && s.rpcs[k].taskId in s.store { RpcKeepsCustody(s, k, outcome, e.now); }
    case TimeoutExpires(k) => if k in s.live { TimerKeepsCustody(s, k, e.now); }
    case DelayExpires(k) => if k < |s.delayed| { DelayKeepsCustody(s, k); }
    case ResultArrives(msg) => ResultKeepsCustody(s, msg, e.now);
  }
}
