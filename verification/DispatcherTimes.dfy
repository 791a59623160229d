/** Which events of a run the timestamps of a task stand for: the one that posted it, the
    last one that sent it to a worker and the one that ended it. */
module DispatcherTimes {
  import opened Protocol
  import opened StateMachine
  import opened DispatcherSpec
  import opened DispatcherCustody
  import opened DispatcherRecords
  import opened DispatcherRuns
  import opened DispatcherFlow

  // ---------- One step ----------

  /** What one step does to timestamps and worker: the one in which the task is sent sets the
      worker and the time of dispatch, the one in which it ends the time of completion, and
      no other sets any of them. */
  predicate StampedBy(t: TaskVal, u: TaskVal, now: int) {
    && u.timestampDispatched == (if u.attempts > t.attempts then now else t.timestampDispatched)
    && u.timestampCompleted == (if IsTerminal(u) && !IsTerminal(t) then now else t.timestampCompleted)
    && (u.attempts > t.attempts ==> u.attempts == t.attempts + 1 && u.status == DISPATCHED)
    && (u.attempts == t.attempts ==> u.assignedWorker == t.assignedWorker)
  }

  lemma TimeoutStamps(t: TaskVal, maxRetries: int, now: int)
    requires IsRunning(t.status)
    ensures StampedBy(t, AfterTimeout(t, maxRetries, now), now)
  {
  }

  lemma ResultStamps(t: TaskVal, msg: ResultMsg, now: int)
    requires !IsTerminal(t)
    ensures StampedBy(t, AfterResult(t, msg, now), now)
  {
  }

  lemma StepStamps(s: Sys, e: Stamped, id: nat)
    requires StoreOk(s) && id in s.store
    ensures id in Step(s, e).store && StampedBy(s.store[id], Step(s, e).store[id], e.now)
  {
    StepKeepsTask(s, e, id);
    StepMovesTask(s, e, id);
    var t, u := s.store[id], Step(s, e).store[id];
    if IsRunning(t.status) && u == AfterTimeout(t, s.maxRetries, e.now) {
      TimeoutStamps(t, s.maxRetries, e.now);
    } else if msg :| !IsTerminal(t) && u == AfterResult(t, msg, e.now) {
      ResultStamps(t, msg, e.now);
    }
  }

  // ---------- Events of a run ----------

  /** The state before event k. */
  function Upto(maxRetries: int, es: seq<Stamped>, k: nat): Sys
    requires k <= |es|
  {
    Run(maxRetries, es[..k])
  }

  predicate PostedAt(maxRetries: int, es: seq<Stamped>, k: nat, id: nat) {
    k < |es| && id !in Upto(maxRetries, es, k).store && id in Upto(maxRetries, es, k + 1).store
  }

  predicate SentAt(maxRetries: int, es: seq<Stamped>, k: nat, id: nat) {
    k < |es| && AttemptsOf(Upto(maxRetries, es, k), id) < AttemptsOf(Upto(maxRetries, es, k + 1), id)
  }

  predicate EndsAt(maxRetries: int, es: seq<Stamped>, k: nat, id: nat) {
    && k < |es|
    && var s, s' := Upto(maxRetries, es, k), Upto(maxRetries, es, k + 1);
       id in s.store && id in s'.store && !IsTerminal(s.store[id]) && IsTerminal(s'.store[id])
  }

  /** Event k is the last one that sent the task to a worker. */
  predicate LastSentAt(maxRetries: int, es: seq<Stamped>, k: nat, id: nat) {
    SentAt(maxRetries, es, k, id) && forall l :: k < l < |es| ==> !SentAt(maxRetries, es, l, id)
  }

  lemma LastStep(maxRetries: int, es: seq<Stamped>)
    requires es != []
    ensures var n := |es| - 1;
      && Run(maxRetries, es) == Step(Run(maxRetries, es[..n]), es[n])
      && Upto(maxRetries, es, n) == Run(maxRetries, es[..n]) && Upto(maxRetries, es, n + 1) == Run(maxRetries, es)
  {
    var n := |es| - 1;
    assert es == es[..n] + [es[n]] && es[..n + 1] == es;
    ExecConcat(Init(maxRetries), es[..n], [es[n]]);
    assert [es[n]][1..] == [];
  }

  lemma NextState(maxRetries: int, es: seq<Stamped>, k: nat)
    requires k < |es|
    ensures Upto(maxRetries, es, k + 1) == Step(Upto(maxRetries, es, k), es[k])
  {
    assert es[..k + 1][..k] == es[..k];
    LastStep(maxRetries, es[..k + 1]);
  }

  /** What happened at event k does not depend on what comes later. */
  lemma SameEvents(maxRetries: int, es: seq<Stamped>, k: nat, id: nat)
    requires k < |es| - 1
    ensures PostedAt(maxRetries, es[..|es| - 1], k, id) <==> PostedAt(maxRetries, es, k, id)
    ensures SentAt(maxRetries, es[..|es| - 1], k, id) <==> SentAt(maxRetries, es, k, id)
    ensures EndsAt(maxRetries, es[..|es| - 1], k, id) <==> EndsAt(maxRetries, es, k, id)
    ensures Upto(maxRetries, es[..|es| - 1], k + 1) == Upto(maxRetries, es, k + 1)
  {
    var init := es[..|es| - 1];
    assert init[..k] == es[..k] && init[..k + 1] == es[..k + 1] && init[k] == es[k];
  }

  // ---------- What the timestamps stand for ----------

  /** The event that posted the task gives it its time of creation. */
  lemma {:induction false} PostOf(maxRetries: int, es: seq<Stamped>, id: nat) returns (p: nat)
    requires id in Run(maxRetries, es).store
    ensures PostedAt(maxRetries, es, p, id) && es[p].event.Post?
    ensures var t := Run(maxRetries, es).store[id];
      t.timestampCreated == es[p].now && t.taskType == es[p].event.taskType && t.payload == es[p].event.payload
    decreases |es|
  {
    assert es != [];
    var n := |es| - 1;
    var s := Run(maxRetries, es[..n]);
    LastStep(maxRetries, es);
    RunKeeps(maxRetries, es[..n]);
    StepMovesTask(s, es[n], id);
    p := n;
    if id in s.store {
      TaskStepFrame(s.store[id], Run(maxRetries, es).store[id], es[n].now, s.maxRetries);
      p := PostOf(maxRetries, es[..n], id);
      SameEvents(maxRetries, es, p, id);
    }
  }

  lemma NewIsUntouched(maxRetries: int, es: seq<Stamped>, id: nat)
    requires es != [] && id !in Run(maxRetries, es[..|es| - 1]).store && id in Run(maxRetries, es).store
    ensures var t := Run(maxRetries, es).store[id];
      t.attempts == 0 && !IsTerminal(t) && t.timestampDispatched == 0 && t.timestampCompleted == 0
  {
    LastStep(maxRetries, es);
    RunKeeps(maxRetries, es[..|es| - 1]);
    StepMovesTask(Run(maxRetries, es[..|es| - 1]), es[|es| - 1], id);
  }

  /** The last event of a run either posted the task or stamped it in one step. */
  lemma LastChange(maxRetries: int, es: seq<Stamped>, id: nat)
    requires id in Run(maxRetries, es).store
    ensures es != []
    ensures var n := |es| - 1; var s, u := Run(maxRetries, es[..n]), Run(maxRetries, es).store[id];
      if id in s.store then
        && StampedBy(s.store[id], u, es[n].now)
        && s.store[id].attempts <= u.attempts && (IsTerminal(s.store[id]) ==> u == s.store[id])
      else u.attempts == 0 && !IsTerminal(u) && u.timestampDispatched == 0 && u.timestampCompleted == 0
  {
    assert es != [];
    var n := |es| - 1;
    var s := Run(maxRetries, es[..n]);
    LastStep(maxRetries, es);
    RunKeeps(maxRetries, es[..n]);
    if id in s.store {
      StepStamps(s, es[n], id);
      StepMovesTask(s, es[n], id);
      TaskStepFrame(s.store[id], Run(maxRetries, es).store[id], es[n].now, s.maxRetries);
    } else {
      NewIsUntouched(maxRetries, es, id);
    }
  }

  lemma StillLastSent(maxRetries: int, es: seq<Stamped>, j: nat, id: nat)
    requires es != [] && LastSentAt(maxRetries, es[..|es| - 1], j, id) && !SentAt(maxRetries, es, |es| - 1, id)
    ensures LastSentAt(maxRetries, es, j, id)
  {
    SameEvents(maxRetries, es, j, id);
    forall l | j < l < |es|
      ensures !SentAt(maxRetries, es, l, id)
    {
      if l < |es| - 1 {
        SameEvents(maxRetries, es, l, id);
      }
    }
  }

  /** Event k calls this worker for the task. */
  predicate CallsAt(maxRetries: int, es: seq<Stamped>, k: nat, id: nat, workerId: string) {
    && k < |es|
    && var before, after := Upto(maxRetries, es, k).rpcs, Upto(maxRetries, es, k + 1).rpcs;
       && |after| == |before| + 1 && after[..|before|] == before
       && after[|before|].taskId == id && after[|before|].worker.workerId == workerId
  }

  lemma SendingCalls(maxRetries: int, es: seq<Stamped>, k: nat, id: nat)
    requires SentAt(maxRetries, es, k, id)
    ensures id in Upto(maxRetries, es, k + 1).store
    ensures CallsAt(maxRetries, es, k, id, Upto(maxRetries, es, k + 1).store[id].assignedWorker)
  {
    RunKeeps(maxRetries, es[..k]);
    NextState(maxRetries, es, k);
    AttemptGoesToTheChosen(Upto(maxRetries, es, k), es[k], id);
  }

  lemma SameCalls(maxRetries: int, es: seq<Stamped>, k: nat, id: nat, workerId: string)
    requires k < |es| - 1
    ensures CallsAt(maxRetries, es[..|es| - 1], k, id, workerId) <==> CallsAt(maxRetries, es, k, id, workerId)
  {
    var init := es[..|es| - 1];
    assert init[..k] == es[..k] && init[..k + 1] == es[..k + 1];
  }

  /** The last event that sent a task gives it its time of dispatch and its worker, the one
      that was called. */
  lemma {:induction false} SendOf(maxRetries: int, es: seq<Stamped>, id: nat) returns (j: nat)
    requires id in Run(maxRetries, es).store && Run(maxRetries, es).store[id].attempts > 0
    ensures LastSentAt(maxRetries, es, j, id) && Run(maxRetries, es).store[id].timestampDispatched == es[j].now
    ensures CallsAt(maxRetries, es, j, id, Run(maxRetries, es).store[id].assignedWorker)
    decreases |es|
  {
    LastChange(maxRetries, es, id);
    LastStep(maxRetries, es);
    j := |es| - 1;
    if SentAt(maxRetries, es, j, id) {
      SendingCalls(maxRetries, es, j, id);
    } else {
      j := SendOf(maxRetries, es[..|es| - 1], id);
      StillLastSent(maxRetries, es, j, id);
      SameCalls(maxRetries, es, j, id, Run(maxRetries, es).store[id].assignedWorker);
    }
  }

  /** The event that ended a task gives it its time of completion and leaves it as it is
      from then on. */
  lemma {:induction false} EndOf(maxRetries: int, es: seq<Stamped>, id: nat) returns (k: nat)
    requires id in Run(maxRetries, es).store && IsTerminal(Run(maxRetries, es).store[id])
    ensures EndsAt(maxRetries, es, k, id)
    ensures Upto(maxRetries, es, k + 1).store[id] == Run(maxRetries, es).store[id]
    ensures Run(maxRetries, es).store[id].timestampCompleted == es[k].now
    decreases |es|
  {
    LastChange(maxRetries, es, id);
    LastStep(maxRetries, es);
    k := |es| - 1;
    if IsTerminal(Run(maxRetries, es[..k]).store[id]) {
      k := EndOf(maxRetries, es[..k], id);
      SameEvents(maxRetries, es, k, id);
    }
  }

  /** A task that was neither sent nor ended has neither time. */
  lemma {:induction false} NotYet(maxRetries: int, es: seq<Stamped>, id: nat)
    requires id in Run(maxRetries, es).store
    ensures var t := Run(maxRetries, es).store[id];
      && (t.attempts == 0 ==> t.timestampDispatched == 0)
      && (!IsTerminal(t) ==> t.timestampCompleted == 0)
    decreases |es|
  {
    LastChange(maxRetries, es, id);
    var n := |es| - 1;
    if id in Run(maxRetries, es[..n]).store {
      NotYet(maxRetries, es[..n], id);
    }
  }

  lemma BetweenStates(maxRetries: int, es: seq<Stamped>, a: nat, b: nat)
    requires a <= b <= |es|
    ensures Upto(maxRetries, es, b) == Exec(Upto(maxRetries, es, a), es[a..b])
  {
    assert es[..b] == es[..a] + es[a..b];
    ExecConcat(Init(maxRetries), es[..a], es[a..b]);
  }

  lemma StoredStays(maxRetries: int, es: seq<Stamped>, a: nat, b: nat, id: nat)
    requires a <= b <= |es| && id in Upto(maxRetries, es, a).store
    ensures id in Upto(maxRetries, es, b).store
    ensures IsTerminal(Upto(maxRetries, es, a).store[id]) ==>
      Upto(maxRetries, es, b).store[id] == Upto(maxRetries, es, a).store[id]
  {
    RunKeeps(maxRetries, es[..a]);
    BetweenStates(maxRetries, es, a, b);
    TasksPersist(Upto(maxRetries, es, a), es[a..b], id);
  }

  lemma EndedStays(maxRetries: int, es: seq<Stamped>, k: nat, j: nat, id: nat)
    requires EndsAt(maxRetries, es, k, id) && k < j <= |es|
    ensures id in Upto(maxRetries, es, j).store
    ensures Upto(maxRetries, es, j).store[id] == Upto(maxRetries, es, k + 1).store[id]
  {
    StoredStays(maxRetries, es, k + 1, j, id);
  }

  lemma NotSentAfterEnd(maxRetries: int, es: seq<Stamped>, k: nat, j: nat, id: nat)
    requires EndsAt(maxRetries, es, k, id) && k < j < |es|
    ensures !SentAt(maxRetries, es, j, id)
  {
    EndedStays(maxRetries, es, k, j, id);
    EndedStays(maxRetries, es, k, j + 1, id);
  }

  lemma NotSentByEnd(maxRetries: int, es: seq<Stamped>, k: nat, id: nat)
    requires EndsAt(maxRetries, es, k, id)
    ensures !SentAt(maxRetries, es, k, id)
  {
    RunKeeps(maxRetries, es[..k]);
    NextState(maxRetries, es, k);
    StepStamps(Upto(maxRetries, es, k), es[k], id);
  }

  lemma SentBeforeEnd(maxRetries: int, es: seq<Stamped>, j: nat, k: nat, id: nat)
    requires SentAt(maxRetries, es, j, id) && EndsAt(maxRetries, es, k, id)
    ensures j < k
  {
    NotSentByEnd(maxRetries, es, k, id);
    if k < j {
      NotSentAfterEnd(maxRetries, es, k, j, id);
    }
  }

  /** The duration of a completed task is the reading at the event that ended it minus the
      reading at the last event that sent it to a worker, which came before. */
  lemma DurationIsBetweenEvents(maxRetries: int, es: seq<Stamped>, id: nat) returns (p: nat, j: nat, k: nat)
    requires id in Run(maxRetries, es).store && Run(maxRetries, es).store[id].status == COMPLETED
    ensures PostedAt(maxRetries, es, p, id) && LastSentAt(maxRetries, es, j, id) && EndsAt(maxRetries, es, k, id)
    ensures p < j < k
    ensures var t := Run(maxRetries, es).store[id];
      && t.timestampCreated == es[p].now
      && t.timestampCompleted - t.timestampDispatched == es[k].now - es[j].now
  {
    AttemptsAreBounded(maxRetries, es, id);
    p := PostOf(maxRetries, es, id);
    j := SendOf(maxRetries, es, id);
    k := EndOf(maxRetries, es, id);
    SentBeforeEnd(maxRetries, es, j, k, id);
    PostedBeforeSent(maxRetries, es, p, j, id);
  }

  lemma PostedBeforeSent(maxRetries: int, es: seq<Stamped>, p: nat, j: nat, id: nat)
    requires PostedAt(maxRetries, es, p, id) && SentAt(maxRetries, es, j, id)
    ensures p < j
  {
    if j < p {
      StoredStays(maxRetries, es, j + 1, p, id);
    } else if j == p {
      assert es[..p + 1][..p] == es[..p];
      NewIsUntouched(maxRetries, es[..p + 1], id);
    }
  }
}
