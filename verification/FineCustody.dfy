/** Who still moves the task at single transitions: it is held as long as it can still end,
    and one kind of step can lose it. */
module FineCustody {
  import opened Protocol
  import opened StateMachine
  import opened FineGrain
  import opened FineSafety

  // ---------- Who still moves the task ----------

  /** The thread will make the task terminal unless something else changes the status. */
  predicate WillDecide(status: TaskState, p: Point) {
    match p
    case Starting(_) => status == DISPATCHED
    case Concluding(r) => Allowed(status, Target(r))
    case Writing(_) => false
    case Done => false
    case _ => true
  }

  /** Something still moves the task: it is terminal, its chain goes on, or a thread will
      decide it. */
  ghost predicate Held(s: Fine) {
    || IsTerminalState(s.status)
    || s.chain != Gone
    || exists i :: i in s.threads && WillDecide(s.status, s.threads[i])
  }

  /** An accepting reply arrives when the timer is cancelled and every ReturnResult call
      under way has already found the task DISPATCHED. */
  predicate Race(s: Fine, e: Event) {
    && e == AcceptedReply && s.calls > 0
    && s.status == DISPATCHED && s.chain == Gone
    && forall i :: i in s.threads ==> s.threads[i].Starting? || s.threads[i].Done?
  }

  lemma ChainHolds(s: Fine, workerFound: bool, maxRetries: int)
    requires FineOk(s) && Held(s)
    ensures Held(ChainStep(s, workerFound, maxRetries))
  {
  }

  lemma ReplyHolds(s: Fine)
    requires FineOk(s) && Held(s) && s.calls > 0
    ensures Held(Set(s.(calls := s.calls - 1), PROCESSING, Reply)) <==> !Race(s, AcceptedReply)
  {
    var s' := Set(s.(calls := s.calls - 1), PROCESSING, Reply);
    if s.chain == Gone && !IsTerminalState(s.status) {
      if i :| i in s.threads && !s.threads[i].Starting? && WillDecide(s.status, s.threads[i]) {
        assert WillDecide(s'.status, s'.threads[i]);
      }
    }
  }

  /** A thread that moves either stays in charge, decides the task, or was not in charge. */
  lemma MoverHolds(s: Fine, id: nat)
    requires FineOk(s) && id in s.threads && s.chain == Gone && !IsTerminalState(s.status)
    ensures var s' := ThreadStep(s, id);
      && s'.chain == Gone && s'.threads == s.threads[id := s'.threads[id]]
      && (WillDecide(s.status, s.threads[id]) ==> IsTerminalState(s'.status) || WillDecide(s'.status, s'.threads[id]))
      && (!WillDecide(s.status, s.threads[id]) ==> s'.status == s.status)
  {
  }

  lemma CancellerHolds(s: Fine, id: nat)
    requires FineOk(s) && id in s.threads && s.chain != Gone
    ensures var s' := ThreadStep(s, id); s'.chain != Gone || WillDecide(s'.status, s'.threads[id])
  {
  }

  lemma ThreadHolds(s: Fine, id: nat)
    requires FineOk(s) && Held(s) && id in s.threads
    ensures Held(ThreadStep(s, id))
  {
    var s' := ThreadStep(s, id);
    ThreadPlace(s, id);
    if s.chain != Gone {
      CancellerHolds(s, id);
    } else if !IsTerminalState(s.status) {
      MoverHolds(s, id);
      var i :| i in s.threads && WillDecide(s.status, s.threads[i]);
      if i != id && !IsTerminalState(s'.status) {
        assert s'.threads[i] == s.threads[i];
      }
    }
  }

  /** A step loses the task exactly if it is such a race. */
  lemma LostExactlyByRace(s: Fine, e: Event, maxRetries: int)
    requires FineOk(s) && Held(s)
    ensures Held(Step(s, e, maxRetries)) <==> !Race(s, e)
  {
    match e
    case ChainMoves(workerFound) => ChainHolds(s, workerFound, maxRetries);
    case ThreadMoves(id) => if id in s.threads { ThreadHolds(s, id); }
    case AcceptedReply => if s.calls > 0 { ReplyHolds(s); }
    case _ => OtherHolds(s, e, maxRetries);
  }

  lemma OtherHolds(s: Fine, e: Event, maxRetries: int)
    requires Held(s) && (e.CallStarts? || e.ErrorReply? || e.RejectedReply? || e.ResultComes?)
    ensures Held(Step(s, e, maxRetries))
  {
    if s.chain == Gone && !IsTerminalState(s.status) {
      var i :| i in s.threads && WillDecide(s.status, s.threads[i]);
      assert Step(s, e, maxRetries).threads[i] == s.threads[i];
    }
  }

  predicate RaceFree(s: Fine, es: seq<Event>, maxRetries: int)
    decreases |es|
  {
    es == [] || (!Race(s, es[0]) && RaceFree(Step(s, es[0], maxRetries), es[1..], maxRetries))
  }

  lemma {:induction false} RaceFreeRunsHold(s: Fine, es: seq<Event>, maxRetries: int)
    requires FineOk(s) && Held(s) && RaceFree(s, es, maxRetries)
    ensures Held(Exec(s, es, maxRetries))
    decreases |es|
  {
    if es != [] {
      LostExactlyByRace(s, es[0], maxRetries);
      StepKeepsFine(s, es[0], maxRetries);
      RaceFreeRunsHold(Step(s, es[0], maxRetries), es[1..], maxRetries);
    }
  }

  /** No new result and no rejection arrives. */
  predicate NothingNew(es: seq<Event>) {
    forall i :: 0 <= i < |es| ==> !es[i].ResultComes? && !es[i].RejectedReply?
  }

  /** Lost: PROCESSING with nothing left that moves it. */
  ghost predicate Lost(s: Fine) {
    s.status == PROCESSING && !Held(s)
  }

  lemma LostStep(s: Fine, e: Event, maxRetries: int)
    requires Lost(s) && !e.ResultComes? && !e.RejectedReply?
    ensures Lost(Step(s, e, maxRetries))
  {
    if e.ThreadMoves? && e.id in s.threads {
      assert !WillDecide(s.status, s.threads[e.id]);
    }
  }

  /** A race loses the task for good: it stays PROCESSING, without a timer, until another
      result or a rejection happens to arrive. */
  lemma {:induction false} LostForGood(s: Fine, es: seq<Event>, maxRetries: int)
    requires Lost(s) && NothingNew(es)
    ensures Lost(Exec(s, es, maxRetries))
    decreases |es|
  {
    if es != [] {
      LostStep(s, es[0], maxRetries);
      LostForGood(Step(s, es[0], maxRetries), es[1..], maxRetries);
    }
  }

  // ---------- Held means that the task can still end ----------

  lemma StepKeepsCustody(s: Fine, e: Event, maxRetries: int)
    requires FineOk(s) && (Held(s) || Lost(s))
    ensures Held(Step(s, e, maxRetries)) || Lost(Step(s, e, maxRetries))
  {
    if Held(s) {
      LostExactlyByRace(s, e, maxRetries);
    } else if !e.ResultComes? && !e.RejectedReply? {
      LostStep(s, e, maxRetries);
    } else if e.id !in s.threads && Step(s, e, maxRetries) != s {
      assert WillDecide(Step(s, e, maxRetries).status, Step(s, e, maxRetries).threads[e.id]);
    }
  }

  lemma {:induction false} HeldOrLost(s: Fine, es: seq<Event>, maxRetries: int)
    requires FineOk(s) && (Held(s) || Lost(s))
    ensures Held(Exec(s, es, maxRetries)) || Lost(Exec(s, es, maxRetries))
    decreases |es|
  {
    if es != [] {
      StepKeepsCustody(s, es[0], maxRetries);
      StepKeepsFine(s, es[0], maxRetries);
      HeldOrLost(Step(s, es[0], maxRetries), es[1..], maxRetries);
    }
  }

  /** Without any new result or rejection the task can still end. */
  ghost predicate CanEnd(s: Fine, maxRetries: int) {
    exists es :: NothingNew(es) && IsTerminalState(Exec(s, es, maxRetries).status)
  }

  lemma EndsNow(s: Fine, maxRetries: int)
    requires IsTerminalState(s.status)
    ensures CanEnd(s, maxRetries)
  {
    assert NothingNew([]) && Exec(s, [], maxRetries) == s;
  }

  lemma EndsAfter(s: Fine, e: Event, maxRetries: int)
    requires !e.ResultComes? && !e.RejectedReply? && CanEnd(Step(s, e, maxRetries), maxRetries)
    ensures CanEnd(s, maxRetries)
  {
    var es :| NothingNew(es) && IsTerminalState(Exec(Step(s, e, maxRetries), es, maxRetries).status);
    var all := [e] + es;
    assert all[1..] == es;
    assert NothingNew(all) && Exec(s, all, maxRetries) == Exec(Step(s, e, maxRetries), es, maxRetries);
  }

  /** How far the chain is from giving up, within one attempt. */
  function Place(chain: Chain): nat {
    match chain
    case Delayed => 10
    case InQueue => 9
    case InExecutor => 8
    case Arming => 7
    case TimerRunning => 6
    case Fired => 5
    case Expiring => 4
    case TimedOut => 3
    case Counting => 2
    case GivingUp => 1
    case Gone => 0
  }

  function ChainRank(s: Fine, maxRetries: int): int {
    10 * (RetryCap(maxRetries) - s.retryCount) + Place(s.chain)
  }

  lemma ChainAdvances(s: Fine, maxRetries: int)
    requires FineOk(s) && Budgeted(s, maxRetries) && s.chain != Gone && !IsTerminalState(s.status)
    ensures var s' := ChainStep(s, true, maxRetries);
      IsTerminalState(s'.status) || (s'.chain != Gone && ChainRank(s', maxRetries) < ChainRank(s, maxRetries))
  {
  }

  /** A chain that goes on can end the task alone, if only by using up its retries. */
  lemma {:induction false} ChainEnds(s: Fine, maxRetries: int)
    requires FineOk(s) && Budgeted(s, maxRetries) && s.chain != Gone
    ensures CanEnd(s, maxRetries)
    decreases ChainRank(s, maxRetries)
  {
    if IsTerminalState(s.status) {
      EndsNow(s, maxRetries);
    } else {
      var go := ChainMoves(true);
      var s' := Step(s, go, maxRetries);
      ChainAdvances(s, maxRetries);
      if IsTerminalState(s'.status) {
        EndsNow(s', maxRetries);
      } else {
        StepKeepsFine(s, go, maxRetries);
        StepKeepsBudget(s, go, maxRetries);
        ChainEnds(s', maxRetries);
      }
      EndsAfter(s, go, maxRetries);
    }
  }

  function PointRank(p: Point): nat {
    match p
    case Checking(_) => 5
    case Cancelling(_) => 4
    case Comparing(_) => 3
    case Starting(_) => 2
    case Concluding(_) => 1
    case RejectCancelling => 2
    case RejectFailing => 1
    case Writing(_) => 0
    case Done => 0
  }

  lemma ThreadAdvances(s: Fine, id: nat)
    requires id in s.threads && s.threads[id] != Done
    ensures id in ThreadStep(s, id).threads
    ensures PointRank(ThreadStep(s, id).threads[id]) < PointRank(s.threads[id]) || s.threads[id].Writing?
  {
  }

  /** A thread that will decide can end the task alone. */
  lemma {:induction false} ThreadEnds(s: Fine, id: nat, maxRetries: int)
    requires FineOk(s) && s.chain == Gone && id in s.threads && WillDecide(s.status, s.threads[id])
    ensures CanEnd(s, maxRetries)
    decreases PointRank(s.threads[id])
  {
    if IsTerminalState(s.status) {
      EndsNow(s, maxRetries);
    } else {
      var s' := Step(s, ThreadMoves(id), maxRetries);
      MoverHolds(s, id);
      ThreadAdvances(s, id);
      StepKeepsFine(s, ThreadMoves(id), maxRetries);
      if IsTerminalState(s'.status) {
        EndsNow(s', maxRetries);
      } else {
        ThreadEnds(s', id, maxRetries);
      }
      EndsAfter(s, ThreadMoves(id), maxRetries);
    }
  }

  /** In every reachable state the task is held exactly if it can still end without any new
      result or rejection; so a step that loses it takes away every way to end. */
  lemma HeldMeansCanEnd(es: seq<Event>, maxRetries: int)
    ensures var s := Exec(Start(), es, maxRetries); Held(s) <==> CanEnd(s, maxRetries)
  {
    var s := Exec(Start(), es, maxRetries);
    ExecKeepsAll(Start(), es, maxRetries);
    HeldOrLost(Start(), es, maxRetries);
    if Held(s) {
      if IsTerminalState(s.status) {
        EndsNow(s, maxRetries);
      } else if s.chain != Gone {
        ChainEnds(s, maxRetries);
      } else {
        var i :| i in s.threads && WillDecide(s.status, s.threads[i]);
        ThreadEnds(s, i, maxRetries);
      }
    } else if CanEnd(s, maxRetries) {
      var more :| NothingNew(more) && IsTerminalState(Exec(s, more, maxRetries).status);
      LostForGood(s, more, maxRetries);
    }
  }
}
