/** Calls and timers that come too late at single transitions: when a refused call has
    changed the task, and when a timer outlives it. */
module FineLate {
  import opened Protocol
  import opened StateMachine
  import opened FineGrain

  // ---------- Refused calls ----------

  /** The call's last transition would be refused. */
  predicate Refused(s: Fine, id: nat) {
    id in s.threads && s.threads[id].Concluding? && !Allowed(s.status, Target(s.threads[id].report))
  }

  /** The event makes the task terminal: a thread's last transition that the table allows. */
  predicate Ends(s: Fine, e: Event) {
    && e.ThreadMoves? && e.id in s.threads
    && match s.threads[e.id]
       case Concluding(r) => Allowed(s.status, Target(r))
       case RejectFailing => Allowed(s.status, FAILED)
       case _ => false
  }

  /** The timeout callback takes the task on, or another thread ends it. */
  predicate Overtakes(s: Fine, e: Event) {
    (e.ChainMoves? && s.chain == Expiring) || Ends(s, e)
  }

  predicate Overtaken(s: Fine, es: seq<Event>, maxRetries: int)
    decreases |es|
  {
    es != [] && (Overtakes(s, es[0]) || Overtaken(Step(s, es[0], maxRetries), es[1..], maxRetries))
  }

  /** The status is PROCESSING now and after every event. */
  predicate StaysProcessing(s: Fine, es: seq<Event>, maxRetries: int)
    decreases |es|
  {
    s.status == PROCESSING && (es == [] || StaysProcessing(Step(s, es[0], maxRetries), es[1..], maxRetries))
  }

  lemma LeavesProcessing(s: Fine, e: Event, maxRetries: int)
    requires FineOk(s) && s.status == PROCESSING
    ensures Step(s, e, maxRetries).status != PROCESSING <==> Overtakes(s, e)
  {
  }

  lemma {:induction false} OvertakenLeaves(s: Fine, es: seq<Event>, maxRetries: int)
    requires FineOk(s) && s.status == PROCESSING
    ensures StaysProcessing(s, es, maxRetries) <==> !Overtaken(s, es, maxRetries)
    ensures StaysProcessing(s, es, maxRetries) ==> Exec(s, es, maxRetries).status == PROCESSING
    decreases |es|
  {
    if es != [] {
      LeavesProcessing(s, es[0], maxRetries);
      StepKeepsFine(s, es[0], maxRetries);
      if Step(s, es[0], maxRetries).status == PROCESSING {
        OvertakenLeaves(Step(s, es[0], maxRetries), es[1..], maxRetries);
      }
    }
  }

  lemma ThreadMovesAlone(s: Fine, id: nat)
    requires id in s.threads
    ensures var s' := ThreadStep(s, id); id in s'.threads && s'.threads == s.threads[id := s'.threads[id]]
  {
  }

  lemma OthersKeepThread(s: Fine, e: Event, id: nat, maxRetries: int)
    requires id in s.threads && e != ThreadMoves(id)
    ensures id in Step(s, e, maxRetries).threads && Step(s, e, maxRetries).threads[id] == s.threads[id]
  {
    if e.ThreadMoves? && e.id in s.threads {
      ThreadMovesAlone(s, e.id);
    }
  }

  lemma {:induction false} OthersKeepPoint(s: Fine, es: seq<Event>, id: nat, maxRetries: int)
    requires id in s.threads && forall k :: 0 <= k < |es| ==> es[k] != ThreadMoves(id)
    ensures id in Exec(s, es, maxRetries).threads && Exec(s, es, maxRetries).threads[id] == s.threads[id]
    decreases |es|
  {
    if es != [] {
      OthersKeepThread(s, es[0], id, maxRetries);
      OthersKeepPoint(Step(s, es[0], maxRetries), es[1..], id, maxRetries);
    }
  }

  /** When a refused call has changed the task. At s a call that found the task DISPATCHED is
      about to set PROCESSING; `between` is what others do before its last transition. If the
      first transition is refused, the call ends without having changed anything. If not, it
      has changed the status, and its last one is refused exactly if the task has by then
      ended or timed out or, for a COMPLETED report, waits for a retry or is DISPATCHED
      again. The status left PROCESSING in between exactly if the timeout callback took the
      task on or another thread ended it; if neither happened, the call is not refused. */
  lemma RefusedAfterAChange(s: Fine, id: nat, report: Report, between: seq<Event>, maxRetries: int)
    requires FineOk(s) && id in s.threads && s.threads[id] == Starting(report)
    requires forall k :: 0 <= k < |between| ==> between[k] != ThreadMoves(id)
    ensures var s1 := ThreadStep(s, id); var s2 := Exec(s1, between, maxRetries);
      && (s1.status != s.status <==> s.status == DISPATCHED)
      && (s.status != DISPATCHED ==> s1 == AtPoint(s, id, Done))
      && (s.status == DISPATCHED ==>
            && s1.status == PROCESSING && id in s2.threads && s2.threads[id] == Concluding(report)
            && (Refused(s2, id) <==>
                  || IsTerminalState(s2.status) || s2.status == TIMEOUT
                  || (report.completed && (IsWaiting(s2.status) || s2.status == DISPATCHED)))
            && (StaysProcessing(s1, between, maxRetries) <==> !Overtaken(s1, between, maxRetries))
            && (Refused(s2, id) ==> Overtaken(s1, between, maxRetries)))
  {
    if s.status == DISPATCHED {
      var s1 := ThreadStep(s, id);
      ThreadKeepsFine(s, id);
      OthersKeepPoint(s1, between, id, maxRetries);
      OvertakenLeaves(s1, between, maxRetries);
      ExecKeepsFine(s1, between, maxRetries);
    }
  }

  // ---------- Timers that outlive the task ----------

  function After(es: seq<Event>, k: nat, maxRetries: int): Fine
    requires k <= |es|
  {
    Exec(Start(), es[..k], maxRetries)
  }

  lemma {:induction false} ExecSnoc(s: Fine, es: seq<Event>, e: Event, maxRetries: int)
    ensures Exec(s, es + [e], maxRetries) == Step(Exec(s, es, maxRetries), e, maxRetries)
    decreases |es|
  {
    if es == [] {
      assert [] + [e] == [e] && [e][1..] == [];
    } else {
      assert (es + [e])[1..] == es[1..] + [e];
      ExecSnoc(Step(s, es[0], maxRetries), es[1..], e, maxRetries);
    }
  }

  lemma AfterLast(es: seq<Event>, maxRetries: int)
    requires es != []
    ensures var n := |es| - 1;
      Exec(Start(), es, maxRetries) == Step(After(es, n, maxRetries), es[n], maxRetries)
  {
    var n := |es| - 1;
    assert es == es[..n] + [es[n]];
    ExecSnoc(Start(), es[..n], es[n], maxRetries);
  }

  /** The dispatch starts the timer. */
  predicate StartsTimer(s: Fine, e: Event) {
    e.ChainMoves? && s.chain == Arming
  }

  /** A thread cancels whatever timer is running. */
  predicate Cancels(s: Fine, e: Event) {
    e.ThreadMoves? && e.id in s.threads && (s.threads[e.id].Cancelling? || s.threads[e.id] == RejectCancelling)
  }

  /** The timer was started by event j and neither fired nor was cancelled since. */
  predicate RunsSince(es: seq<Event>, j: nat, maxRetries: int) {
    && j < |es| && StartsTimer(After(es, j, maxRetries), es[j])
    && forall l :: j < l < |es| ==> !es[l].ChainMoves? && !Cancels(After(es, l, maxRetries), es[l])
  }

  lemma TimerStep(s: Fine, e: Event, maxRetries: int)
    ensures Step(s, e, maxRetries).chain == TimerRunning <==>
      StartsTimer(s, e) || (s.chain == TimerRunning && !e.ChainMoves? && !Cancels(s, e))
  {
  }

  lemma RunsOn(es: seq<Event>, j: nat, maxRetries: int)
    requires es != []
    requires j < |es| - 1
    ensures var n := |es| - 1;
      RunsSince(es, j, maxRetries) <==>
        RunsSince(es[..n], j, maxRetries) && !es[n].ChainMoves? && !Cancels(After(es, n, maxRetries), es[n])
  {
    var n := |es| - 1;
    assert forall l :: 0 <= l < n ==> es[..n][..l] == es[..l];
  }

  /** A timer runs exactly if some event started it and it has neither fired nor been
      cancelled since. */
  lemma {:induction false} TimerRunsSince(es: seq<Event>, maxRetries: int)
    ensures Exec(Start(), es, maxRetries).chain == TimerRunning <==> exists j: nat :: RunsSince(es, j, maxRetries)
    decreases |es|
  {
    if es != [] {
      var n := |es| - 1;
      var s := After(es, n, maxRetries);
      AfterLast(es, maxRetries);
      TimerStep(s, es[n], maxRetries);
      TimerRunsSince(es[..n], maxRetries);
      if StartsTimer(s, es[n]) {
        assert RunsSince(es, n, maxRetries);
      } else if s.chain == TimerRunning && !es[n].ChainMoves? && !Cancels(s, es[n]) {
        var j: nat :| RunsSince(es[..n], j, maxRetries);
        RunsOn(es, j, maxRetries);
      } else if j: nat :| RunsSince(es, j, maxRetries) {
        RunsOn(es, j, maxRetries);
      }
    }
  }

  /** The thread has passed its cancel. */
  predicate PastCancel(p: Point) {
    p.Comparing? || p.Starting? || p.Concluding? || p.Writing? || p == RejectFailing
  }

  predicate CancelledAt(es: seq<Event>, k: nat, id: nat, maxRetries: int) {
    k < |es| && es[k] == ThreadMoves(id) && Cancels(After(es, k, maxRetries), es[k])
  }

  lemma PointStep(s: Fine, e: Event, id: nat, maxRetries: int)
    requires id in Step(s, e, maxRetries).threads && PastCancel(Step(s, e, maxRetries).threads[id])
    ensures id in s.threads && (PastCancel(s.threads[id]) || (e == ThreadMoves(id) && Cancels(s, e)))
  {
    if id in s.threads && e != ThreadMoves(id) {
      OthersKeepThread(s, e, id, maxRetries);
    }
  }

  lemma {:induction false} CancelledBefore(es: seq<Event>, id: nat, maxRetries: int)
    requires var s := Exec(Start(), es, maxRetries); id in s.threads && PastCancel(s.threads[id])
    ensures exists k: nat :: CancelledAt(es, k, id, maxRetries)
    decreases |es|
  {
    if es != [] {
      var n := |es| - 1;
      var s := After(es, n, maxRetries);
      AfterLast(es, maxRetries);
      PointStep(s, es[n], id, maxRetries);
      if PastCancel(s.threads[id]) {
        CancelledBefore(es[..n], id, maxRetries);
        var k: nat :| CancelledAt(es[..n], k, id, maxRetries);
        assert es[..n][..k] == es[..k];
        assert CancelledAt(es, k, id, maxRetries);
      } else {
        assert CancelledAt(es, n, id, maxRetries);
      }
    }
  }

  /** The task has ended and its timer runs. */
  predicate TimerOutlives(s: Fine) {
    IsTerminalState(s.status) && s.chain == TimerRunning
  }

  /** The thread cancelled at event k, before the timer that now runs was started at j. */
  predicate CancelledTooEarly(es: seq<Event>, k: nat, j: nat, id: nat, maxRetries: int) {
    k < j && CancelledAt(es, k, id, maxRetries) && RunsSince(es, j, maxRetries)
  }

  lemma ThreadOutlives(s: Fine, id: nat)
    requires id in s.threads && !TimerOutlives(s)
    ensures TimerOutlives(ThreadStep(s, id)) <==> s.chain == TimerRunning && Ends(s, ThreadMoves(id))
  {
  }

  lemma OutlivesStep(s: Fine, e: Event, maxRetries: int)
    requires FineOk(s) && !TimerOutlives(s)
    ensures TimerOutlives(Step(s, e, maxRetries)) <==>
      (StartsTimer(s, e) && IsTerminalState(s.status)) || (s.chain == TimerRunning && Ends(s, e))
  {
    match e
    case ThreadMoves(id) => if id in s.threads { ThreadOutlives(s, id); }
    case ChainMoves(workerFound) => ChainPlace(s, workerFound, maxRetries);
    case _ =>
  }

  lemma EndedTooLate(es: seq<Event>, e: Event, maxRetries: int)
    ensures var s := Exec(Start(), es, maxRetries);
      Ends(s, e) ==>
        (s.chain == TimerRunning <==> exists k: nat, j: nat :: CancelledTooEarly(es, k, j, e.id, maxRetries))
  {
    var s := Exec(Start(), es, maxRetries);
    TimerRunsSince(es, maxRetries);
    if Ends(s, e) && s.chain == TimerRunning {
      CancelledBefore(es, e.id, maxRetries);
      var k: nat :| CancelledAt(es, k, e.id, maxRetries);
      var j: nat :| RunsSince(es, j, maxRetries);
      assert k != j && !(j < k);
      assert CancelledTooEarly(es, k, j, e.id, maxRetries);
    }
  }

  /** A task that has ended comes to have a running timer in exactly two ways: its dispatch
      starts the timer after the end, or the call that ends the task had cancelled before the
      timer was started that has neither fired nor been cancelled since. */
  lemma TimerOutlivesExactly(es: seq<Event>, e: Event, maxRetries: int)
    ensures var s := Exec(Start(), es, maxRetries);
      !TimerOutlives(s) ==>
        (TimerOutlives(Step(s, e, maxRetries)) <==>
          || (StartsTimer(s, e) && IsTerminalState(s.status))
          || (Ends(s, e) && exists k: nat, j: nat :: CancelledTooEarly(es, k, j, e.id, maxRetries)))
  {
    var s := Exec(Start(), es, maxRetries);
    Reachable(es, maxRetries);
    if !TimerOutlives(s) {
      OutlivesStep(s, e, maxRetries);
      EndedTooLate(es, e, maxRetries);
    }
  }

  /** Such a timer changes nothing when it fires: its callback sees the status and ends. */
  lemma OutlivingTimerIsHarmless(s: Fine, a: bool, b: bool, maxRetries: int)
    requires TimerOutlives(s)
    ensures ChainStep(ChainStep(s, a, maxRetries), b, maxRetries) == s.(chain := Gone)
  {
  }
}
