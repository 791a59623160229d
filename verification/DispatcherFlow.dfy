/** What flows through the dispatcher in a run: the order of the queue, the calls to the
    workers, how tasks end and what ReturnResult answers. */
module DispatcherFlow {
  import opened Counting
  import opened Protocol
  import opened StateMachine
  import opened RoundRobin
  import opened DispatcherSpec
  import opened DispatcherCustody
  import opened DispatcherRecords
  import opened DispatcherRuns

  // ---------- The queue ----------

  function Dequeues(es: seq<Stamped>): nat {
    if es == [] then 0 else (if es[0].event.DequeueNext? then 1 else 0) + Dequeues(es[1..])
  }

  lemma QueueStep(s: Sys, e: Stamped)
    ensures e.event.DequeueNext? && s.queue != [] ==> Step(s, e).queue == s.queue[1..]
    ensures !e.event.DequeueNext? ==> s.queue <= Step(s, e).queue
  {
  }

  /** One round of the run loop: it takes the oldest entry off the queue, and the task gets an
      executor slot iff its status is QUEUED or RETRYING. Nothing else changes. */
  lemma RoundByCases(s: Sys, now: int)
    ensures var s' := Step(s, At(now, DequeueNext));
      && s'.store == s.store && s'.sleeping == s.sleeping && s'.delayed == s.delayed && s'.rpcs == s.rpcs
      && s'.timers == s.timers && s'.live == s.live
      && s'.queue == (if s.queue == [] then [] else s.queue[1..])
      && s'.executing ==
           if s.queue != [] && s.queue[0] in s.store && s.store[s.queue[0]].status in {QUEUED, RETRYING} then
             s.executing + [s.queue[0]]
           else s.executing
  {
  }

  /** So the entry of a task that has ended is let go when its turn comes. */
  lemma EndedEntryIsDropped(s: Sys, now: int)
    requires Inv(s) && s.queue != [] && s.queue[0] in s.store && IsTerminal(s.store[s.queue[0]])
    ensures Carriers(Step(s, At(now, DequeueNext)), s.queue[0]) == 0
  {
    RoundByCases(s, now);
    OccurrencesAfterRemoval(s.queue, 0);
    assert RemoveAt(s.queue, 0) == s.queue[1..];
    assert InCustody(s, s.queue[0]);
  }

  /** Nothing overtakes: after n rounds of the run loop the queue starts with what was in it
      behind the first n entries, in the same order, whatever else was queued since. */
  lemma {:induction false} QueueIsFifo(s: Sys, es: seq<Stamped>)
    requires Dequeues(es) <= |s.queue|
    ensures s.queue[Dequeues(es)..] <= Exec(s, es).queue
    decreases |es|
  {
    if es != [] {
      var s', n := Step(s, es[0]), Dequeues(es[1..]);
      QueueStep(s, es[0]);
      if es[0].event.DequeueNext? {
        assert s.queue[1..][n..] == s.queue[n + 1..];
      } else {
        assert s.queue[n..] <= s'.queue[n..];
      }
      QueueIsFifo(s', es[1..]);
    }
  }

  // ---------- Calls ----------

  function TaskIds(rpcs: seq<Rpc>): seq<nat> {
    seq(|rpcs|, i requires 0 <= i < |rpcs| => rpcs[i].taskId)
  }

  /** The calls about a task that have not returned. */
  function Outstanding(s: Sys, id: nat): nat {
    Occurrences(TaskIds(s.rpcs), id)
  }

  function ReturnsOne(s: Sys, e: Event, id: nat): nat {
    if e.CallReturns? && e.slot < |s.rpcs| && s.rpcs[e.slot].taskId in s.store && s.rpcs[e.slot].taskId == id then 1
    else 0
  }

  /** How many calls about a task return in a run. */
  function Returns(s: Sys, es: seq<Stamped>, id: nat): nat
    decreases |es|
  {
    if es == [] then 0 else ReturnsOne(s, es[0].event, id) + Returns(Step(s, es[0]), es[1..], id)
  }

  function AttemptsOf(s: Sys, id: nat): nat {
    if id in s.store then s.store[id].attempts else 0
  }

  lemma DispatchCounts(s: Sys, k: nat, workers: seq<WorkerInfo>, now: int, id: nat)
    requires k < |s.executing| && s.executing[k] in s.store
    ensures var s' := Dispatch(s, k, workers, now);
      Outstanding(s', id) - Outstanding(s, id) == AttemptsOf(s', id) - AttemptsOf(s, id)
  {
    var s' := Dispatch(s, k, workers, now);
    OccurrencesAfterAppend(TaskIds(s.rpcs), s.executing[k]);
    assert s'.rpcs == s.rpcs || TaskIds(s'.rpcs) == TaskIds(s.rpcs) + [s.executing[k]];
  }

  lemma ReturnCounts(s: Sys, k: nat, outcome: Outcome, now: int, id: nat)
    requires k < |s.rpcs| && s.rpcs[k].taskId in s.store
    ensures var s' := RpcReturned(s, k, outcome, now);
      && Outstanding(s', id) + (if s.rpcs[k].taskId == id then 1 else 0) == Outstanding(s, id)
      && AttemptsOf(s', id) == AttemptsOf(s, id)
  {
    var s' := RpcReturned(s, k, outcome, now);
    assert TaskIds(s'.rpcs) == RemoveAt(TaskIds(s.rpcs), k);
    OccurrencesAfterRemoval(TaskIds(s.rpcs), k);
  }

  lemma TimerCounts(s: Sys, k: nat, now: int, id: nat)
    requires k in s.live
    ensures TimerFires(s, k, now).rpcs == s.rpcs && AttemptsOf(TimerFires(s, k, now), id) == AttemptsOf(s, id)
  {
  }

  lemma ResultCounts(s: Sys, msg: ResultMsg, now: int, id: nat)
    ensures var s' := ReturnResult(s, msg, now).0; s'.rpcs == s.rpcs && AttemptsOf(s', id) == AttemptsOf(s, id)
  {
  }

  lemma OthersCount(s: Sys, e: Stamped, id: nat)
    requires StoreOk(s) && !e.event.LookupAnswered? && !e.event.CallReturns?
    ensures Step(s, e).rpcs == s.rpcs && AttemptsOf(Step(s, e), id) == AttemptsOf(s, id)
  {
    assert |s.store| + 1 !in s.store;
    match e.event
    case TimeoutExpires(k) => if k in s.live { TimerCounts(s, k, e.now, id); }
    case ResultArrives(msg) => ResultCounts(s, msg, e.now, id);
    case _ =>
  }

  lemma StepCounts(s: Sys, e: Stamped, id: nat)
    requires StoreOk(s)
    ensures Outstanding(Step(s, e), id) + ReturnsOne(s, e.event, id) - Outstanding(s, id)
         == AttemptsOf(Step(s, e), id) - AttemptsOf(s, id)
  {
    match e.event
    case LookupAnswered(k, workers) =>
      if k < |s.executing| && s.executing[k] in s.store { DispatchCounts(s, k, workers, e.now, id); }
    case CallReturns(k, outcome) =>
      if k < |s.rpcs| && s.rpcs[k].taskId in s.store { ReturnCounts(s, k, outcome, e.now, id); }
    case _ => OthersCount(s, e, id);
  }

  lemma {:induction false} ExecCounts(s: Sys, es: seq<Stamped>, id: nat)
    requires Inv(s)
    ensures Outstanding(Exec(s, es), id) + Returns(s, es, id) - Outstanding(s, id)
         == AttemptsOf(Exec(s, es), id) - AttemptsOf(s, id)
    decreases |es|
  {
    if es != [] {
      StepCounts(s, es[0], id);
      StepKeeps(s, es[0]);
      ExecCounts(Step(s, es[0]), es[1..], id);
    }
  }

  /** Attempts are calls: in every run the calls about a task that have returned and those
      that have not are together its attempts, at most max(1, MAX_RETRIES). */
  lemma AttemptsAreCalls(maxRetries: int, es: seq<Stamped>, id: nat)
    ensures var s := Run(maxRetries, es);
      Outstanding(s, id) + Returns(Init(maxRetries), es, id) == AttemptsOf(s, id) <= RetryCap(maxRetries)
  {
    InitOk(maxRetries);
    ExecCounts(Init(maxRetries), es, id);
    if id in Run(maxRetries, es).store {
      AttemptsAreBounded(maxRetries, es, id);
    }
  }

  /** A new attempt goes to the worker that the selector chose from the answer: it is the
      one assigned and the one called. */
  lemma AttemptGoesToTheChosen(s: Sys, e: Stamped, id: nat)
    requires StoreOk(s)
    ensures AttemptsOf(Step(s, e), id) != AttemptsOf(s, id) ==>
      && id in s.store && id in Step(s, e).store
      && e.event.LookupAnswered? && e.event.workers != []
      && var worker := e.event.workers[Choice(s.counters, s.store[id].taskType, |e.event.workers|).0];
         Step(s, e).store[id].assignedWorker == worker.workerId && Step(s, e).rpcs == s.rpcs + [Rpc(id, worker)]
  {
    match e.event
    case LookupAnswered(k, workers) =>
    case CallReturns(k, outcome) =>
      if k < |s.rpcs| && s.rpcs[k].taskId in s.store { ReturnCounts(s, k, outcome, e.now, id); }
    case _ => OthersCount(s, e, id);
  }

  /** The selections a run makes. */
  function Selections(s: Sys, es: seq<Stamped>): seq<Call>
    decreases |es|
  {
    if es == [] then []
    else SelectionOf(s, es[0].event) + Selections(Step(s, es[0]), es[1..])
  }

  function SelectionOf(s: Sys, e: Event): seq<Call> {
    if e.LookupAnswered? && e.slot < |s.executing| && s.executing[e.slot] in s.store then
      [Call(s.store[s.executing[e.slot]].taskType, e.workers)]
    else []
  }

  lemma DispatchSelects(s: Sys, k: nat, workers: seq<WorkerInfo>, now: int)
    requires k < |s.executing| && s.executing[k] in s.store
    ensures Dispatch(s, k, workers, now).counters
         == CountersAfter(s.counters, [Call(s.store[s.executing[k]].taskType, workers)])
  {
    assert [Call(s.store[s.executing[k]].taskType, workers)][1..] == [];
  }

  lemma RestSelectsNobody(s: Sys, e: Stamped)
    requires !e.event.LookupAnswered?
    ensures Step(s, e).counters == s.counters
  {
  }

  lemma CountersStep(s: Sys, e: Stamped)
    ensures Step(s, e).counters == CountersAfter(s.counters, SelectionOf(s, e.event))
  {
    match e.event
    case LookupAnswered(k, workers) =>
      if k < |s.executing| && s.executing[k] in s.store { DispatchSelects(s, k, workers, e.now); }
    case _ => RestSelectsNobody(s, e);
  }

  lemma {:induction false} CountersConcat(counters: map<string, nat>, a: seq<Call>, b: seq<Call>)
    requires |a| <= 1
    ensures CountersAfter(counters, a + b) == CountersAfter(CountersAfter(counters, a), b)
  {
    if a == [] {
      assert a + b == b;
    } else {
      assert (a + b)[1..] == b && a[1..] == [];
    }
  }

  /** The counters of a run are those of its selections, so the fairness of the selector
      is the fairness of the dispatcher. */
  lemma {:induction false} RunsSelectInTurn(s: Sys, es: seq<Stamped>)
    ensures Exec(s, es).counters == CountersAfter(s.counters, Selections(s, es))
    decreases |es|
  {
    if es != [] {
      CountersStep(s, es[0]);
      RunsSelectInTurn(Step(s, es[0]), es[1..]);
      CountersConcat(s.counters, SelectionOf(s, es[0].event), Selections(Step(s, es[0]), es[1..]));
    }
  }

  // ---------- How tasks end ----------

  /** The text a step leaves in a task it makes terminal. */
  function FinalText(e: Event): string {
    if !e.ResultArrives? then "" else if e.msg.status == "COMPLETED" then e.msg.result else e.msg.error
  }

  function FinalStatus(e: Event): TaskState {
    if e.ResultArrives? then TargetState(e.msg) else FAILED
  }

  lemma CallsEnd(s: Sys, k: nat, outcome: Outcome, now: int)
    requires k < |s.rpcs| && s.rpcs[k].taskId in s.store && !IsTerminal(s.store[s.rpcs[k].taskId])
    ensures var id := s.rpcs[k].taskId; var t, u := s.store[id], RpcReturned(s, k, outcome, now).store[id];
      u.result == t.result && (IsTerminal(u) ==> u.status == FAILED && outcome == Rejected)
  {
  }

  lemma TimeoutsEnd(t: TaskVal, maxRetries: int, now: int)
    requires !IsTerminal(t)
    ensures var u := AfterTimeout(t, maxRetries, now);
      u.result == t.result && (IsTerminal(u) ==> u.status == FAILED)
  {
  }

  /** A task that its timer fails has been sent as often as the bound allows. */
  lemma FullyRetried(s: Sys, k: nat, now: int)
    requires Inv(s) && k in s.live && !IsTerminal(s.store[s.live[k]])
    ensures var u := TimerFires(s, k, now).store[s.live[k]];
      IsTerminal(u) ==> u.retryCount == u.attempts == if s.maxRetries < 1 then 1 else s.maxRetries
  {
    assert InCustody(s, s.live[k]) && RecordOk(s.store[s.live[k]], s.maxRetries);
  }

  lemma ResultsEnd(t: TaskVal, msg: ResultMsg, now: int)
    requires !IsTerminal(t)
    ensures var u := AfterResult(t, msg, now);
      IsTerminal(u) ==> u.status == TargetState(msg) && u.result == FinalText(ResultArrives(msg))
  {
  }

  /** The event is the rejection of a call about the task. */
  predicate RejectsCall(s: Sys, e: Event, id: nat) {
    e.CallReturns? && e.outcome == Rejected && e.slot < |s.rpcs| && s.rpcs[e.slot].taskId == id
  }

  /** The event is the expiry of the task's own running timer. */
  predicate Expires(s: Sys, e: Event, id: nat) {
    e.TimeoutExpires? && e.timer in s.live && s.live[e.timer] == id
  }

  /** A task ends in one of three ways: by a result for it, with the status and the text the
      message reports, or it fails without a text, by the rejection of a call about it or
      when its own running timer expires and the retries are used up. */
  lemma HowTasksEnd(s: Sys, e: Stamped, id: nat)
    requires Inv(s) && id in s.store && !IsTerminal(s.store[id])
    ensures id in Step(s, e).store
    ensures var u := Step(s, e).store[id];
      IsTerminal(u) ==>
        && u.status == FinalStatus(e.event) && u.result == FinalText(e.event)
        && (|| (e.event.ResultArrives? && e.event.msg.taskId == id)
            || RejectsCall(s, e.event, id)
            || (Expires(s, e.event, id) && u.retryCount == u.attempts == if s.maxRetries < 1 then 1 else s.maxRetries))
  {
    StepKeepsTask(s, e, id);
    assert RecordOk(s.store[id], s.maxRetries);
    if IsTerminal(Step(s, e).store[id]) {
      EventChangesItsTask(s, e, id);
      match e.event
      case CallReturns(k, outcome) => CallsEnd(s, k, outcome, e.now);
      case TimeoutExpires(k) =>
        TimeoutsEnd(s.store[id], s.maxRetries, e.now);
        FullyRetried(s, k, e.now);
      case ResultArrives(msg) => ResultsEnd(s.store[id], msg, e.now);
      case _ =>
    }
  }

  lemma RefusedStays(s: Sys, msg: ResultMsg, now: int)
    requires msg.taskId in s.store && IsWaiting(s.store[msg.taskId].status) && msg.status == "COMPLETED"
    ensures ReturnResult(s, msg, now).0.store == s.store && ReturnResult(s, msg, now).1 == RefusedTransition
  {
    var t := s.store[msg.taskId];
    assert AfterResult(t, msg, now) == t;
    assert s.store[msg.taskId := t] == s.store;
  }

  lemma StoredEnds(s: Sys, msg: ResultMsg, now: int)
    requires var id := msg.taskId;
      id in s.store && (IsRunning(s.store[id].status) || (IsWaiting(s.store[id].status) && msg.status != "COMPLETED"))
    ensures var (s', ack) := ReturnResult(s, msg, now);
      ack == Stored && msg.taskId in s'.store && IsTerminal(s'.store[msg.taskId])
  {
    ResultEffect(s, msg, now);
  }

  /** The answers of ReturnResult tell the truth: unknown ids are unknown, a terminal task
      is reported as such, Stored means that this message ended the task, and a refusal
      that a COMPLETED came for a task that is waiting for another attempt. */
  lemma AnswersAreTrue(s: Sys, msg: ResultMsg, now: int)
    requires Inv(s)
    ensures var (s', ack), id := ReturnResult(s, msg, now), msg.taskId;
      && (ack == UnknownTask <==> id !in s.store)
      && (ack == AlreadyTerminal <==> id in s.store && IsTerminal(s.store[id]))
      && (ack == Stored <==> id in s.store && !IsTerminal(s.store[id]) && id in s'.store && IsTerminal(s'.store[id]))
      && (ack == RefusedTransition <==> id in s.store && IsWaiting(s.store[id].status) && msg.status == "COMPLETED")
      && (ack != Stored ==> s'.store == s.store)
  {
    if msg.taskId in s.store && !IsTerminal(s.store[msg.taskId]) {
      assert InCustody(s, msg.taskId);
      if IsWaiting(s.store[msg.taskId].status) && msg.status == "COMPLETED" {
        RefusedStays(s, msg, now);
      } else {
        StoredEnds(s, msg, now);
      }
    }
  }

  // ---------- Registered timers ----------

  /** The entry of a task in the timer dictionary is spent: its timer does not run. */
  predicate Spent(s: Sys, id: nat) {
    id in s.timers && s.timers[id] !in s.live
  }

  lemma CancelSpendsNothing(s: Sys, id: nat, j: nat)
    requires TimersOk(s)
    ensures Spent(CancelTimeout(s, id), j) ==> Spent(s, j) && CancelTimeout(s, id).timers[j] == s.timers[j]
    ensures id !in CancelTimeout(s, id).timers
  {
  }

  lemma OthersSpendNothing(s: Sys, e: Stamped, id: nat)
    requires TimersOk(s) && !e.event.TimeoutExpires? && !e.event.CallReturns? && !e.event.ResultArrives?
    ensures Spent(Step(s, e), id) ==> Spent(s, id) && Step(s, e).timers[id] == s.timers[id]
  {
  }

  lemma CallSpendsNothing(s: Sys, k: nat, outcome: Outcome, now: int, id: nat)
    requires TimersOk(s) && k < |s.rpcs| && s.rpcs[k].taskId in s.store
    ensures var s' := RpcReturned(s, k, outcome, now); Spent(s', id) ==> Spent(s, id) && s'.timers[id] == s.timers[id]
  {
    RpcEffect(s, k, outcome, now);
    CancelSpendsNothing(s, s.rpcs[k].taskId, id);
  }

  lemma ResultSpendsNothing(s: Sys, msg: ResultMsg, now: int, id: nat)
    requires TimersOk(s)
    ensures var s' := ReturnResult(s, msg, now).0; Spent(s', id) ==> Spent(s, id) && s'.timers[id] == s.timers[id]
  {
    if msg.taskId in s.store && !IsTerminal(s.store[msg.taskId]) {
      ResultEffect(s, msg, now);
      CancelSpendsNothing(s, msg.taskId, id);
    }
  }

  lemma FiringSpendsItself(s: Sys, k: nat, now: int, id: nat)
    requires k in s.live
    ensures var s' := TimerFires(s, k, now);
      Spent(s', id) ==> id in s.timers && s'.timers[id] == s.timers[id] && (Spent(s, id) || s.timers[id] == k)
  {
  }

  /** A step leaves a spent entry only if it is the expiry of that very timer, or the entry
      was there before: a cancel takes the entry out of the dictionary. */
  lemma SpentByExpiry(s: Sys, e: Stamped, id: nat)
    requires Inv(s) && Spent(Step(s, e), id)
    ensures var timer := Step(s, e).timers[id];
      e.event == TimeoutExpires(timer) || (Spent(s, id) && s.timers[id] == timer)
  {
    match e.event
    case CallReturns(k, outcome) =>
      if k < |s.rpcs| && s.rpcs[k].taskId in s.store { CallSpendsNothing(s, k, outcome, e.now, id); }
    case ResultArrives(msg) => ResultSpendsNothing(s, msg, e.now, id);
    case TimeoutExpires(k) => if k in s.live { FiringSpendsItself(s, k, e.now, id); }
    case _ => OthersSpendNothing(s, e, id);
  }

  /** In every run the dictionary keeps, besides running timers, only timers that expired. */
  lemma {:induction false} SpentTimersExpired(maxRetries: int, es: seq<Stamped>, id: nat)
    requires Spent(Run(maxRetries, es), id)
    ensures exists k :: 0 <= k < |es| && es[k].event == TimeoutExpires(Run(maxRetries, es).timers[id])
    decreases |es|
  {
    assert es != [];
    var n := |es| - 1;
    var s := Run(maxRetries, es[..n]);
    assert es == es[..n] + [es[n]] && [es[n]][1..] == [];
    ExecConcat(Init(maxRetries), es[..n], [es[n]]);
    RunKeeps(maxRetries, es[..n]);
    SpentByExpiry(s, es[n], id);
    if es[n].event != TimeoutExpires(Run(maxRetries, es).timers[id]) {
      SpentTimersExpired(maxRetries, es[..n], id);
      var k :| 0 <= k < n && es[..n][k].event == TimeoutExpires(s.timers[id]);
      assert es[k].event == TimeoutExpires(Run(maxRetries, es).timers[id]);
    }
  }

  // ---------- Carriers of tasks that have ended ----------

  lemma PostCarriers(s: Sys, taskType: string, payload: string, now: int, id: nat)
    requires StoreOk(s) && id in s.store
    ensures Carriers(PostTask(s, taskType, payload, now).0, id) == Carriers(s, id)
  {
    OccurrencesAfterAppend(s.queue, |s.store| + 1);
  }

  lemma DequeueCarriers(s: Sys, id: nat)
    requires id in s.store
    ensures Carriers(Dequeue(s), id) <= Carriers(s, id)
  {
    if s.queue != [] {
      OccurrencesAfterRemoval(s.queue, 0);
      OccurrencesAfterAppend(s.executing, s.queue[0]);
      assert RemoveAt(s.queue, 0) == s.queue[1..];
    }
  }

  lemma DispatchMovesCarrier(s: Sys, k: nat, workers: seq<WorkerInfo>, now: int)
    requires k < |s.executing| && s.executing[k] in s.store
    ensures var s' := Dispatch(s, k, workers, now);
      && s'.queue == s.queue && s'.delayed == s.delayed && s'.executing == RemoveAt(s.executing, k)
      && s'.sleeping == if workers == [] then s.sleeping + [s.executing[k]] else s.sleeping
  {
  }

  lemma DispatchCarriers(s: Sys, k: nat, workers: seq<WorkerInfo>, now: int, id: nat)
    requires k < |s.executing| && s.executing[k] in s.store
    ensures Carriers(Dispatch(s, k, workers, now), id) <= Carriers(s, id)
  {
    DispatchMovesCarrier(s, k, workers, now);
    OccurrencesAfterRemoval(s.executing, k);
    if workers == [] {
      OccurrencesAfterAppend(s.sleeping, s.executing[k]);
    }
  }

  lemma WakeCarriers(s: Sys, k: nat, id: nat)
    requires k < |s.sleeping|
    ensures Carriers(Wake(s, k), id) == Carriers(s, id)
  {
    OccurrencesAfterRemoval(s.sleeping, k);
    OccurrencesAfterAppend(s.queue, s.sleeping[k]);
  }

  lemma DelayCarriers(s: Sys, k: nat, id: nat)
    requires k < |s.delayed|
    ensures Carriers(DelayOver(s, k), id) == Carriers(s, id)
  {
    OccurrencesAfterRemoval(s.delayed, k);
    OccurrencesAfterAppend(s.queue, s.delayed[k]);
  }

  lemma TimerCarriers(s: Sys, k: nat, now: int, id: nat)
    requires k in s.live && id in s.store && IsTerminal(s.store[id])
    ensures Carriers(TimerFires(s, k, now), id) == Carriers(s, id)
  {
    OccurrencesAfterAppend(s.delayed, s.live[k]);
  }

  lemma CallCarriers(s: Sys, k: nat, outcome: Outcome, now: int, id: nat)
    requires k < |s.rpcs| && s.rpcs[k].taskId in s.store
    ensures Carriers(RpcReturned(s, k, outcome, now), id) == Carriers(s, id)
  {
    RpcEffect(s, k, outcome, now);
  }

  lemma ResultCarriers(s: Sys, msg: ResultMsg, now: int, id: nat)
    ensures Carriers(ReturnResult(s, msg, now).0, id) == Carriers(s, id)
  {
  }

  /** The events at which the queue or a carrying thread moves on. */
  predicate Carries(e: Event) {
    e.DequeueNext? || e.LookupAnswered? || e.SleeperWakes? || e.DelayExpires?
  }

  lemma CarryingGainsNone(s: Sys, e: Stamped, id: nat)
    requires id in s.store && Carries(e.event)
    ensures Carriers(Step(s, e), id) <= Carriers(s, id)
  {
    match e.event
    case DequeueNext => DequeueCarriers(s, id);
    case LookupAnswered(k, workers) =>
      if k < |s.executing| && s.executing[k] in s.store { DispatchCarriers(s, k, workers, e.now, id); }
    case SleeperWakes(k) => if k < |s.sleeping| { WakeCarriers(s, k, id); }
    case DelayExpires(k) => if k < |s.delayed| { DelayCarriers(s, k, id); }
  }

  /** A task that has ended never gains a carrier. */
  lemma EndedGainsNoCarrier(s: Sys, e: Stamped, id: nat)
    requires Inv(s) && id in s.store && IsTerminal(s.store[id])
    ensures Carriers(Step(s, e), id) <= Carriers(s, id)
  {
    match e.event
    case Post(taskType, payload) => PostCarriers(s, taskType, payload, e.now, id);
    case CallReturns(k, outcome) =>
      if k < |s.rpcs| && s.rpcs[k].taskId in s.store { CallCarriers(s, k, outcome, e.now, id); }
    case TimeoutExpires(k) => if k in s.live { TimerCarriers(s, k, e.now, id); }
    case ResultArrives(msg) => ResultCarriers(s, msg, e.now, id);
    case _ => CarryingGainsNone(s, e, id);
  }

  /** A failure meets a task that waits: a report of one, or a rejected call. */
  predicate MeetsWaiting(s: Sys, e: Event) {
    match e
    case ResultArrives(msg) =>
      msg.status != "COMPLETED" && msg.taskId in s.store && IsWaiting(s.store[msg.taskId].status)
    case CallReturns(k, outcome) =>
      && outcome == Rejected && k < |s.rpcs| && s.rpcs[k].taskId in s.store
      && IsWaiting(s.store[s.rpcs[k].taskId].status)
    case _ => false
  }

  lemma WaitingEndsByFailure(s: Sys, e: Stamped, id: nat)
    requires Inv(s) && id in s.store && IsWaiting(s.store[id].status)
    ensures id in Step(s, e).store
    ensures IsTerminal(Step(s, e).store[id]) ==> MeetsWaiting(s, e.event)
  {
    HowTasksEnd(s, e, id);
    assert InCustody(s, id);
    assert !Expires(s, e.event, id);
    if e.event.ResultArrives? && e.event.msg.taskId == id && e.event.msg.status == "COMPLETED" {
      RefusedStays(s, e.event.msg, e.now);
    }
  }

  /** The waiting task that a failure meets ends and keeps its carrier. */
  lemma FailureLeavesCarrier(s: Sys, e: Stamped) returns (id: nat)
    requires Inv(s) && MeetsWaiting(s, e.event)
    ensures id in Step(s, e).store && IsTerminal(Step(s, e).store[id]) && Carriers(Step(s, e), id) == 1
  {
    match e.event {
      case ResultArrives(msg) =>
        id := msg.taskId;
        StoredEnds(s, msg, e.now);
      case CallReturns(k, outcome) =>
        id := s.rpcs[k].taskId;
        RpcEffect(s, k, outcome, e.now);
    }
    LeftoverCarrier(s, e, id);
  }

  /** No task that has ended has a carrier. */
  ghost predicate NoLeftovers(s: Sys) {
    forall id :: id in s.store && IsTerminal(s.store[id]) ==> Carriers(s, id) == 0
  }

  lemma StepLeavesNothing(s: Sys, e: Stamped)
    requires Inv(s) && NoLeftovers(s) && !MeetsWaiting(s, e.event)
    ensures NoLeftovers(Step(s, e))
  {
    forall id | id in Step(s, e).store && IsTerminal(Step(s, e).store[id])
      ensures Carriers(Step(s, e), id) == 0
    {
      StepMovesTask(s, e, id);
      if id in s.store {
        if IsTerminal(s.store[id]) {
          EndedGainsNoCarrier(s, e, id);
        } else {
          LeftoverCarrier(s, e, id);
          if IsWaiting(s.store[id].status) {
            WaitingEndsByFailure(s, e, id);
          }
        }
      }
    }
  }

  /** No failure meets a waiting task during the run. */
  predicate NoneMet(s: Sys, es: seq<Stamped>)
    decreases |es|
  {
    es == [] || (!MeetsWaiting(s, es[0].event) && NoneMet(Step(s, es[0]), es[1..]))
  }

  ghost predicate NeverLeftOver(s: Sys, es: seq<Stamped>)
    decreases |es|
  {
    NoLeftovers(s) && (es == [] || NeverLeftOver(Step(s, es[0]), es[1..]))
  }

  lemma {:induction false} NeverLeftOverIffNoneMet(s: Sys, es: seq<Stamped>)
    requires Inv(s) && NoLeftovers(s)
    ensures NeverLeftOver(s, es) <==> NoneMet(s, es)
    decreases |es|
  {
    if es != [] {
      StepKeeps(s, es[0]);
      if MeetsWaiting(s, es[0].event) {
        var id := FailureLeavesCarrier(s, es[0]);
        assert !NoLeftovers(Step(s, es[0]));
      } else {
        StepLeavesNothing(s, es[0]);
        NeverLeftOverIffNoneMet(Step(s, es[0]), es[1..]);
      }
    }
  }

  /** The recursive form of the claim about all states of a run. */
  lemma {:induction false} AllStates(s: Sys, es: seq<Stamped>)
    ensures NeverLeftOver(s, es) <==> forall n: nat :: n <= |es| ==> NoLeftovers(Exec(s, es[..n]))
    decreases |es|
  {
    assert es[..0] == [];
    if es != [] {
      var s', rest := Step(s, es[0]), es[1..];
      AllStates(s', rest);
      forall n: nat | n < |es|
        ensures Exec(s, es[..n + 1]) == Exec(s', rest[..n])
      {
        assert es[..n + 1] == [es[0]] + rest[..n];
        ExecCons(s, es[0], rest[..n]);
      }
      if forall n: nat :: n <= |es| ==> NoLeftovers(Exec(s, es[..n])) {
        forall n: nat | n <= |rest|
          ensures NoLeftovers(Exec(s', rest[..n]))
        {
          assert NoLeftovers(Exec(s, es[..n + 1]));
        }
      }
      if NeverLeftOver(s, es) {
        forall n: nat | n <= |es|
          ensures NoLeftovers(Exec(s, es[..n]))
        {
          if n > 0 {
            assert NoLeftovers(Exec(s', rest[..n - 1]));
          }
        }
      }
    }
  }

  /** The tasks that have ended are without a carrier throughout a run if and only if no
      failure (a report of one, or a rejected call) meets a waiting task in it. */
  lemma EndedTasksAreLetGo(maxRetries: int, es: seq<Stamped>)
    ensures NoneMet(Init(maxRetries), es) <==> forall n: nat :: n <= |es| ==> NoLeftovers(Run(maxRetries, es[..n]))
  {
    InitOk(maxRetries);
    NeverLeftOverIffNoneMet(Init(maxRetries), es);
    AllStates(Init(maxRetries), es);
    assert forall n: nat :: n <= |es| ==> Run(maxRetries, es[..n]) == Exec(Init(maxRetries), es[..n]);
  }
}
