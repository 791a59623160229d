/** No task is stuck: from every reachable state the dispatcher's own rounds, wake-ups and
    timers, given a worker by its lookups, can send any unfinished task out again and end it. */
module DispatcherProgress {
  import opened Counting
  import opened Protocol
  import opened StateMachine
  import opened RoundRobin
  import opened DispatcherSpec
  import opened DispatcherCustody
  import opened DispatcherRecords
  import opened DispatcherRuns
  import opened DispatcherFlow

  /** Events that need no client and no answer of a worker, only lookups for the task itself
      that are answered with these workers. */
  predicate Own(s: Sys, e: Event, id: nat, workers: seq<WorkerInfo>) {
    || e.DequeueNext? || e.SleeperWakes? || e.DelayExpires? || e.TimeoutExpires?
    || (e.LookupAnswered? && e.slot < |s.executing| && s.executing[e.slot] == id && e.workers == workers)
  }

  predicate OwnRun(s: Sys, es: seq<Stamped>, id: nat, workers: seq<WorkerInfo>)
    decreases |es|
  {
    es == [] || (Own(s, es[0].event, id, workers) && OwnRun(Step(s, es[0]), es[1..], id, workers))
  }

  lemma {:induction false} OwnConcat(s: Sys, a: seq<Stamped>, b: seq<Stamped>, id: nat, workers: seq<WorkerInfo>)
    requires OwnRun(s, a, id, workers) && OwnRun(Exec(s, a), b, id, workers)
    ensures OwnRun(s, a + b, id, workers)
    decreases |a|
  {
    if a == [] {
      assert a + b == b;
    } else {
      assert (a + b)[1..] == a[1..] + b;
      OwnConcat(Step(s, a[0]), a[1..], b, id, workers);
    }
  }

  /** The task is unfinished in a state that keeps the invariants. */
  ghost predicate Unfinished(s: Sys, id: nat) {
    Inv(s) && id in s.store && !IsTerminal(s.store[id])
  }

  // ---------- One event ----------

  lemma RoundTakes(s: Sys, id: nat, i: nat, now: int)
    requires id in s.store && IsWaiting(s.store[id].status) && i < |s.queue| && s.queue[i] == id
    ensures var s' := Step(s, At(now, DequeueNext));
      && s'.store == s.store && s'.queue == s.queue[1..]
      && (i == 0 ==> s'.executing == s.executing + [id])
  {
  }

  lemma RoundMoves(s: Sys, id: nat, i: nat, now: int)
    requires Unfinished(s, id) && IsWaiting(s.store[id].status) && i < |s.queue| && s.queue[i] == id
    ensures var s' := Step(s, At(now, DequeueNext));
      && Inv(s') && s'.store == s.store && s'.maxRetries == s.maxRetries
      && (i > 0 ==> i - 1 < |s'.queue| && s'.queue[i - 1] == id)
      && (i == 0 ==> s'.executing == s.executing + [id])
  {
    RoundTakes(s, id, i, now);
    StepKeeps(s, At(now, DequeueNext));
  }

  lemma WakingMoves(s: Sys, k: nat, now: int)
    requires Inv(s) && k < |s.sleeping|
    ensures var s' := Step(s, At(now, SleeperWakes(k)));
      Inv(s') && s'.store == s.store && s'.maxRetries == s.maxRetries && s'.queue == s.queue + [s.sleeping[k]]
  {
    StepKeeps(s, At(now, SleeperWakes(k)));
  }

  lemma DelayMoves(s: Sys, k: nat, now: int)
    requires Inv(s) && k < |s.delayed|
    ensures var s' := Step(s, At(now, DelayExpires(k)));
      Inv(s') && s'.store == s.store && s'.maxRetries == s.maxRetries && s'.queue == s.queue + [s.delayed[k]]
  {
    StepKeeps(s, At(now, DelayExpires(k)));
  }

  lemma LookupMarks(s: Sys, id: nat, k: nat, workers: seq<WorkerInfo>, now: int)
    requires id in s.store && IsWaiting(s.store[id].status) && workers != []
    requires k < |s.executing| && s.executing[k] == id
    ensures var s' := Step(s, At(now, LookupAnswered(k, workers)));
      id in s'.store && s'.store[id].status == DISPATCHED && s'.store[id].retryCount == s.store[id].retryCount
  {
  }

  lemma LookupSends(s: Sys, id: nat, k: nat, workers: seq<WorkerInfo>, now: int)
    requires Unfinished(s, id) && IsWaiting(s.store[id].status) && workers != []
    requires k < |s.executing| && s.executing[k] == id
    ensures var s' := Step(s, At(now, LookupAnswered(k, workers)));
      && Inv(s') && id in s'.store && s'.maxRetries == s.maxRetries
      && s'.store[id].status == DISPATCHED && s'.store[id].retryCount == s.store[id].retryCount
  {
    LookupMarks(s, id, k, workers, now);
    StepKeeps(s, At(now, LookupAnswered(k, workers)));
  }

  lemma FiringTurns(s: Sys, id: nat, k: nat, now: int)
    requires id in s.store && IsRunning(s.store[id].status) && k in s.live && s.live[k] == id
    ensures var s' := Step(s, At(now, TimeoutExpires(k)));
      && id in s'.store && s'.store[id].retryCount == s.store[id].retryCount + 1
      && s'.store[id].status == if s.store[id].retryCount + 1 >= s.maxRetries then FAILED else RETRYING
  {
  }

  lemma TimerMoves(s: Sys, id: nat, now: int)
    requires Unfinished(s, id) && IsRunning(s.store[id].status)
    ensures id in s.timers
    ensures var s' := Step(s, At(now, TimeoutExpires(s.timers[id])));
      && Inv(s') && id in s'.store && s'.maxRetries == s.maxRetries
      && s'.store[id].retryCount == s.store[id].retryCount + 1
      && s'.store[id].status == if s.store[id].retryCount + 1 >= s.maxRetries then FAILED else RETRYING
  {
    assert InCustody(s, id);
    assert Armed(s, id) && s.live[s.timers[id]] == id;
    FiringTurns(s, id, s.timers[id], now);
    StepKeeps(s, At(now, TimeoutExpires(s.timers[id])));
  }

  // ---------- From where the task waits to a worker ----------

  /** The events bring the task to a worker, with as many retries left as before. */
  ghost predicate Sends(s: Sys, es: seq<Stamped>, id: nat, workers: seq<WorkerInfo>) {
    var s' := Exec(s, es);
    && OwnRun(s, es, id, workers) && Inv(s') && s'.maxRetries == s.maxRetries && id in s.store && id in s'.store
    && s'.store[id].status == DISPATCHED && s'.store[id].retryCount == s.store[id].retryCount
  }

  lemma SendsOneLater(s: Sys, e: Stamped, rest: seq<Stamped>, id: nat, workers: seq<WorkerInfo>)
    requires Own(s, e.event, id, workers) && Step(s, e).store == s.store && Step(s, e).maxRetries == s.maxRetries
    requires Sends(Step(s, e), rest, id, workers)
    ensures Sends(s, [e] + rest, id, workers)
  {
    assert ([e] + rest)[1..] == rest;
    ExecCons(s, e, rest);
  }

  lemma FromExecutor(s: Sys, id: nat, k: nat, workers: seq<WorkerInfo>, now: int) returns (es: seq<Stamped>)
    requires Unfinished(s, id) && IsWaiting(s.store[id].status) && k < |s.executing| && s.executing[k] == id
    requires workers != []
    ensures Sends(s, es, id, workers)
  {
    var e := At(now, LookupAnswered(k, workers));
    es := [e] + [];
    LookupSends(s, id, k, workers, now);
    ExecCons(s, e, []);
    assert es[1..] == [];
  }

  lemma {:induction false} FromQueue(s: Sys, id: nat, i: nat, workers: seq<WorkerInfo>, now: int)
    returns (es: seq<Stamped>)
    requires Unfinished(s, id) && IsWaiting(s.store[id].status) && i < |s.queue| && s.queue[i] == id
    requires workers != []
    ensures Sends(s, es, id, workers)
    decreases i
  {
    var e := At(now, DequeueNext);
    RoundMoves(s, id, i, now);
    var rest: seq<Stamped>;
    if i == 0 {
      rest := FromExecutor(Step(s, e), id, |s.executing|, workers, now);
    } else {
      rest := FromQueue(Step(s, e), id, i - 1, workers, now);
    }
    es := [e] + rest;
    SendsOneLater(s, e, rest, id, workers);
  }

  lemma {:induction false} FoundAt(s: seq<nat>, x: nat) returns (i: nat)
    requires Occurrences(s, x) > 0
    ensures i < |s| && s[i] == x
  {
    i := 0;
    if s[0] != x {
      var j := FoundAt(s[1..], x);
      i := j + 1;
    }
  }

  lemma FromWaiting(s: Sys, id: nat, workers: seq<WorkerInfo>, now: int) returns (es: seq<Stamped>)
    requires Unfinished(s, id) && IsWaiting(s.store[id].status)
    requires workers != []
    ensures Sends(s, es, id, workers)
  {
    assert InCustody(s, id);
    if Occurrences(s.queue, id) > 0 {
      var i := FoundAt(s.queue, id);
      es := FromQueue(s, id, i, workers, now);
    } else if Occurrences(s.executing, id) > 0 {
      var k := FoundAt(s.executing, id);
      es := FromExecutor(s, id, k, workers, now);
    } else {
      var e: Stamped;
      if Occurrences(s.sleeping, id) > 0 {
        var k := FoundAt(s.sleeping, id);
        WakingMoves(s, k, now);
        e := At(now, SleeperWakes(k));
      } else {
        var k := FoundAt(s.delayed, id);
        DelayMoves(s, k, now);
        e := At(now, DelayExpires(k));
      }
      var rest := FromQueue(Step(s, e), id, |s.queue|, workers, now);
      es := [e] + rest;
      SendsOneLater(s, e, rest, id, workers);
    }
  }

  // ---------- To the end ----------

  ghost predicate EndsAs(s: Sys, es: seq<Stamped>, id: nat, status: TaskState, result: string) {
    id in Exec(s, es).store && Exec(s, es).store[id].status == status && Exec(s, es).store[id].result == result
  }

  lemma EndsLater(s: Sys, a: seq<Stamped>, b: seq<Stamped>, id: nat, status: TaskState, result: string)
    requires EndsAs(Exec(s, a), b, id, status, result)
    ensures EndsAs(s, a + b, id, status, result)
  {
    ExecConcat(s, a, b);
  }

  function TimeoutsLeft(s: Sys, id: nat): nat
    requires id in s.store
  {
    if s.store[id].retryCount < s.maxRetries then s.maxRetries - s.store[id].retryCount else 0
  }

  /** A timeout that either ends a running task or leaves it with one retry less. */
  lemma OneTimeout(s: Sys, id: nat, now: int) returns (e: Stamped)
    requires Unfinished(s, id) && IsRunning(s.store[id].status)
    ensures e.event.TimeoutExpires? && id in Step(s, e).store
    ensures Step(s, e).store[id].status == FAILED ==> EndsAs(Step(s, e), [], id, FAILED, "")
    ensures Step(s, e).store[id].status != FAILED ==>
      && Unfinished(Step(s, e), id) && IsWaiting(Step(s, e).store[id].status)
      && TimeoutsLeft(Step(s, e), id) < TimeoutsLeft(s, id)
  {
    TimerMoves(s, id, now);
    e := At(now, TimeoutExpires(s.timers[id]));
    assert RecordOk(s.store[id], s.maxRetries);
    HowTasksEnd(s, e, id);
  }

  ghost predicate Fails(s: Sys, es: seq<Stamped>, id: nat, workers: seq<WorkerInfo>) {
    OwnRun(s, es, id, workers) && EndsAs(s, es, id, FAILED, "")
  }

  lemma FailsOnceSent(s: Sys, sent: seq<Stamped>, rest: seq<Stamped>, id: nat, workers: seq<WorkerInfo>)
    requires Sends(s, sent, id, workers) && Fails(Exec(s, sent), rest, id, workers)
    ensures Fails(s, sent + rest, id, workers)
  {
    OwnConcat(s, sent, rest, id, workers);
    EndsLater(s, sent, rest, id, FAILED, "");
  }

  lemma FailsOneLater(s: Sys, e: Stamped, rest: seq<Stamped>, id: nat, workers: seq<WorkerInfo>)
    requires Own(s, e.event, id, workers) && Fails(Step(s, e), rest, id, workers)
    ensures Fails(s, [e] + rest, id, workers)
  {
    assert ([e] + rest)[1..] == rest;
    ExecCons(s, e, rest);
  }

  /** One timeout after the other uses the retries up. */
  lemma {:induction false} CanFail(s: Sys, id: nat, workers: seq<WorkerInfo>, now: int) returns (es: seq<Stamped>)
    requires Unfinished(s, id)
    requires workers != []
    ensures Fails(s, es, id, workers)
    decreases TimeoutsLeft(s, id), 1
  {
    if IsWaiting(s.store[id].status) {
      var sent := FromWaiting(s, id, workers, now);
      var rest := RunningCanFail(Exec(s, sent), id, workers, now);
      FailsOnceSent(s, sent, rest, id, workers);
      es := sent + rest;
    } else {
      assert InCustody(s, id);
      es := RunningCanFail(s, id, workers, now);
    }
  }

  lemma {:induction false} RunningCanFail(s: Sys, id: nat, workers: seq<WorkerInfo>, now: int)
    returns (es: seq<Stamped>)
    requires Unfinished(s, id) && IsRunning(s.store[id].status)
    requires workers != []
    ensures Fails(s, es, id, workers)
    decreases TimeoutsLeft(s, id), 0
  {
    var e := OneTimeout(s, id, now);
    var rest := [];
    if Step(s, e).store[id].status != FAILED {
      rest := CanFail(Step(s, e), id, workers, now);
    }
    FailsOneLater(s, e, rest, id, workers);
    es := [e] + rest;
  }

  /** The result of the current attempt completes the task. */
  lemma ResultCompletes(s: Sys, id: nat, text: string, now: int)
    requires Unfinished(s, id) && IsRunning(s.store[id].status)
    ensures EndsAs(s, [At(now, ResultArrives(ResultMsg(id, "COMPLETED", text, "")))], id, COMPLETED, text)
  {
    var e := At(now, ResultArrives(ResultMsg(id, "COMPLETED", text, "")));
    ExecCons(s, e, []);
    assert [e] + [] == [e];
  }

  /** The dispatcher can bring an unfinished task to a worker, or it is there already. */
  lemma CanRun(s: Sys, id: nat, workers: seq<WorkerInfo>, now: int) returns (es: seq<Stamped>)
    requires Unfinished(s, id) && workers != []
    ensures OwnRun(s, es, id, workers) && Unfinished(Exec(s, es), id) && IsRunning(Exec(s, es).store[id].status)
  {
    assert InCustody(s, id);
    es := [];
    if IsWaiting(s.store[id].status) {
      es := FromWaiting(s, id, workers, now);
    }
  }

  /** In no reachable state is an unfinished task stuck, whatever happened before: if lookups
      for it name a worker, the dispatcher's own events can still end it as FAILED, and they
      can bring it to where one result completes it with that result's text. */
  lemma NoTaskIsStuck(maxRetries: int, before: seq<Stamped>, id: nat, text: string, workers: seq<WorkerInfo>, now: int)
    requires id in Run(maxRetries, before).store && !IsTerminal(Run(maxRetries, before).store[id])
    requires workers != []
    ensures exists es :: Fails(Run(maxRetries, before), es, id, workers)
    ensures exists es :: OwnRun(Run(maxRetries, before), es, id, workers) && EndsAs(Run(maxRetries, before),
        es + [At(now, ResultArrives(ResultMsg(id, "COMPLETED", text, "")))], id, COMPLETED, text)
  {
    var s := Run(maxRetries, before);
    RunKeeps(maxRetries, before);
    var failing := CanFail(s, id, workers, now);
    var sending := CanRun(s, id, workers, now);
    ResultCompletes(Exec(s, sending), id, text, now);
    EndsLater(s, sending, [At(now, ResultArrives(ResultMsg(id, "COMPLETED", text, "")))], id, COMPLETED, text);
  }
}
