/** One task, interleaved at single transition() calls and single reads. The chain is what
    carries the task (queue entry, executor slot, timeout timer and its callback, delayed
    retry), one thing after the other; next to it run any number of threads that return
    results or handle rejections, and replies of this and of earlier attempts arrive. */
module FineGrain {
  import opened Protocol
  import opened StateMachine
  import RoundRobin
  import Coarse = DispatcherSpec

  /** What a ReturnResult call reports. */
  datatype Report = Report(completed: bool, text: string)

  /** Where the chain stands. */
  datatype Chain =
    | InQueue
    | InExecutor
    | Arming        // DISPATCHED set, timer not yet started
    | TimerRunning
    | Fired         // the callback is about to read the status
    | Expiring      // about to set TIMEOUT
    | TimedOut      // about to set RETRYING
    | Counting      // about to count the retry
    | GivingUp      // about to set FAILED
    | Delayed
    | Gone

  /** Where a thread stands. */
  datatype Point =
    | Checking(report: Report)    // about to test for a terminal status
    | Cancelling(report: Report)  // about to cancel the timer
    | Comparing(report: Report)   // about to test for DISPATCHED
    | Starting(report: Report)    // about to set PROCESSING
    | Concluding(report: Report)  // about to set COMPLETED or FAILED
    | Writing(report: Report)     // about to write the result
    | RejectCancelling            // rejected call: about to cancel the timer
    | RejectFailing               // rejected call: about to set FAILED
    | Done

  datatype Actor = TheChain | Reply | Thread(id: nat)

  /** `sending` counts dispatch threads that have started their timer and are about to start
      their call, `calls` the outstanding ExecuteTask calls. `started` (how many were ever
      started), `changes` (how often the status changed), `winner` (who set the terminal
      status) and `writes` (how often the result was written) are history variables. */
  datatype Fine = Fine(
    status: TaskState,
    result: string,
    retryCount: nat,
    chain: Chain,
    sending: nat,
    calls: nat,
    started: nat,
    changes: nat,
    threads: map<nat, Point>,
    winner: Option<Actor>,
    writes: nat)

  datatype Event =
    | ChainMoves(workerFound: bool)
    | CallStarts
    | AcceptedReply
    | ErrorReply
    | RejectedReply(id: nat)
    | ResultComes(id: nat, report: Report)
    | ThreadMoves(id: nat)

  function Start(): Fine {
    Fine(QUEUED, "", 0, InQueue, 0, 0, 0, 0, map[], None, 0)
  }

  function Target(report: Report): TaskState {
    if report.completed then COMPLETED else FAILED
  }

  /** One transition() call. */
  function Set(s: Fine, to: TaskState, who: Actor): Fine {
    if Allowed(s.status, to) then
      s.(status := to, changes := s.changes + 1, winner := if IsTerminalState(to) then Some(who) else s.winner)
    else s
  }

  function AtPoint(s: Fine, id: nat, p: Point): Fine {
    s.(threads := s.threads[id := p])
  }

  function Cancel(s: Fine): Fine {
    if s.chain == TimerRunning then s.(chain := Gone) else s
  }

  function ChainStep(s: Fine, workerFound: bool, maxRetries: int): Fine {
    match s.chain
    case InQueue => s.(chain := if IsWaiting(s.status) then InExecutor else Gone)
    case InExecutor =>
      if !workerFound then s.(chain := InQueue)
      else Set(s, DISPATCHED, TheChain).(chain := if Allowed(s.status, DISPATCHED) then Arming else Gone)
    case Arming => s.(chain := TimerRunning, sending := s.sending + 1)
    case TimerRunning => s.(chain := Fired)
    case Fired => s.(chain := if IsTerminalState(s.status) then Gone else Expiring)
    case Expiring => Set(s, TIMEOUT, TheChain).(chain := if Allowed(s.status, TIMEOUT) then TimedOut else Gone)
    case TimedOut => Set(s, RETRYING, TheChain).(chain := Counting)
    case Counting =>
      s.(retryCount := s.retryCount + 1, chain := if s.retryCount + 1 >= maxRetries then GivingUp else Delayed)
    case GivingUp => Set(s, FAILED, TheChain).(chain := Gone)
    case Delayed => s.(chain := InQueue)
    case Gone => s
  }

  function ThreadStep(s: Fine, id: nat): Fine
    requires id in s.threads
  {
    match s.threads[id]
    case Checking(r) => AtPoint(s, id, if IsTerminalState(s.status) then Done else Cancelling(r))
    case Cancelling(r) => AtPoint(Cancel(s), id, Comparing(r))
    case Comparing(r) => AtPoint(s, id, if s.status == DISPATCHED then Starting(r) else Concluding(r))
    case Starting(r) =>
      AtPoint(Set(s, PROCESSING, Thread(id)), id, if Allowed(s.status, PROCESSING) then Concluding(r) else Done)
    case Concluding(r) =>
      AtPoint(Set(s, Target(r), Thread(id)), id, if Allowed(s.status, Target(r)) then Writing(r) else Done)
    case Writing(r) => AtPoint(s.(result := r.text, writes := s.writes + 1), id, Done)
    case RejectCancelling => AtPoint(Cancel(s), id, RejectFailing)
    case RejectFailing => AtPoint(Set(s, FAILED, Thread(id)), id, Done)
    case Done => s
  }

  function Step(s: Fine, e: Event, maxRetries: int): Fine {
    match e
    case ChainMoves(workerFound) => ChainStep(s, workerFound, maxRetries)
    case CallStarts =>
      if s.sending == 0 then s else s.(sending := s.sending - 1, calls := s.calls + 1, started := s.started + 1)
    case AcceptedReply => if s.calls == 0 then s else Set(s.(calls := s.calls - 1), PROCESSING, Reply)
    case ErrorReply => if s.calls == 0 then s else s.(calls := s.calls - 1)
    case RejectedReply(id) =>
      if s.calls == 0 || id in s.threads then s else AtPoint(s.(calls := s.calls - 1), id, RejectCancelling)
    case ResultComes(id, report) => if id in s.threads then s else AtPoint(s, id, Checking(report))
    case ThreadMoves(id) => if id in s.threads then ThreadStep(s, id) else s
  }

  function Exec(s: Fine, es: seq<Event>, maxRetries: int): Fine
    decreases |es|
  {
    if es == [] then s else Exec(Step(s, es[0], maxRetries), es[1..], maxRetries)
  }

  /** The answer of GetResult. */
  function View(s: Fine): (TaskState, string) {
    (s.status, s.result)
  }

  // ---------- Invariant ----------

  /** Which statuses the chain's place allows. */
  predicate PlaceOk(chain: Chain, status: TaskState) {
    match chain
    case InQueue => IsWaiting(status) || IsTerminalState(status)
    case InExecutor => IsWaiting(status) || IsTerminalState(status)
    case Delayed => status == RETRYING || IsTerminalState(status)
    case Counting => status == RETRYING || IsTerminalState(status)
    case GivingUp => status == RETRYING || IsTerminalState(status)
    case TimedOut => status == TIMEOUT
    case _ => IsRunning(status) || IsTerminalState(status)
  }

  ghost predicate WriterOk(s: Fine) {
    && (forall i :: i in s.threads && s.threads[i].Writing? ==>
          s.winner == Some(Thread(i)) && s.status == Target(s.threads[i].report) && s.writes == 0)
    && s.writes <= 1
    && (s.writes == 0 ==> s.result == "")
    && (s.writes == 1 ==> s.winner.Some? && s.winner.value.Thread?)
  }

  ghost predicate FineOk(s: Fine) {
    && PlaceOk(s.chain, s.status)
    && (s.winner.Some? <==> IsTerminalState(s.status))
    && WriterOk(s)
  }

  lemma ChainPlace(s: Fine, workerFound: bool, maxRetries: int)
    requires PlaceOk(s.chain, s.status) && (s.winner.Some? <==> IsTerminalState(s.status))
    ensures var s' := ChainStep(s, workerFound, maxRetries);
      && PlaceOk(s'.chain, s'.status) && (s'.winner.Some? <==> IsTerminalState(s'.status))
      && s'.threads == s.threads && s'.writes == s.writes && s'.result == s.result
      && (s.winner == None || (s'.winner == s.winner && s'.status == s.status))
  {
  }

  lemma ChainKeepsFine(s: Fine, workerFound: bool, maxRetries: int)
    requires FineOk(s)
    ensures FineOk(ChainStep(s, workerFound, maxRetries))
  {
    ChainPlace(s, workerFound, maxRetries);
    assert forall i :: i in s.threads && s.threads[i].Writing? ==> s.winner == Some(Thread(i));
  }

  predicate StatusOk(s: Fine) {
    PlaceOk(s.chain, s.status) && (s.winner.Some? <==> IsTerminalState(s.status))
  }

  lemma SetKeepsStatus(s: Fine, to: TaskState, who: Actor)
    requires StatusOk(s) && (to == PROCESSING || IsTerminalState(to))
    ensures var s' := Set(s, to, who);
      StatusOk(s') && (s.winner == None || (s'.winner == s.winner && s'.status == s.status))
  {
  }

  lemma CancelKeepsStatus(s: Fine)
    requires StatusOk(s)
    ensures StatusOk(Cancel(s))
  {
  }

  lemma ThreadStatus(s: Fine, id: nat)
    requires StatusOk(s) && id in s.threads
    ensures var s' := ThreadStep(s, id);
      StatusOk(s') && (s.winner == None || (s'.winner == s.winner && s'.status == s.status))
  {
    match s.threads[id]
    case Starting(r) => SetKeepsStatus(s, PROCESSING, Thread(id));
    case Concluding(r) => SetKeepsStatus(s, Target(r), Thread(id));
    case RejectFailing => SetKeepsStatus(s, FAILED, Thread(id));
    case Cancelling(r) => CancelKeepsStatus(s);
    case RejectCancelling => CancelKeepsStatus(s);
    case _ =>
  }

  lemma ThreadWrites(s: Fine, id: nat)
    requires id in s.threads && (s.winner.Some? <==> IsTerminalState(s.status))
    ensures var s' := ThreadStep(s, id);
      && id in s'.threads && s'.threads == s.threads[id := s'.threads[id]]
      && (s.threads[id].Writing? ==> s'.writes == s.writes + 1 && s'.threads[id] == Done && s'.winner == s.winner)
      && (!s.threads[id].Writing? ==> s'.writes == s.writes && s'.result == s.result)
      && (s'.threads[id].Writing? ==>
            s.winner == None && s'.winner == Some(Thread(id)) && s'.status == Target(s'.threads[id].report))
  {
  }

  lemma ThreadPlace(s: Fine, id: nat)
    requires PlaceOk(s.chain, s.status) && (s.winner.Some? <==> IsTerminalState(s.status)) && id in s.threads
    ensures var s' := ThreadStep(s, id);
      && PlaceOk(s'.chain, s'.status) && (s'.winner.Some? <==> IsTerminalState(s'.status))
      && id in s'.threads && s'.threads == s.threads[id := s'.threads[id]]
      && (s.winner == None || (s'.winner == s.winner && s'.status == s.status))
      && (s.threads[id].Writing? ==> s'.writes == s.writes + 1 && s'.threads[id] == Done && s'.winner == s.winner)
      && (!s.threads[id].Writing? ==> s'.writes == s.writes && s'.result == s.result)
      && (s'.threads[id].Writing? ==>
            s.winner == None && s'.winner == Some(Thread(id)) && s'.status == Target(s'.threads[id].report))
  {
    ThreadStatus(s, id);
    ThreadWrites(s, id);
  }

  /** Changing one thread keeps the rule if that thread writes only as the winner. */
  lemma ThreadKeepsWriter(s: Fine, s': Fine, id: nat)
    requires WriterOk(s) && id in s.threads && s'.threads.Keys == s.threads.Keys
    requires s'.threads == s.threads[id := s'.threads[id]]
    requires s.winner == None || (s'.winner == s.winner && s'.status == s.status)
    requires s.threads[id].Writing? ==> s'.writes == s.writes + 1 && s'.threads[id] == Done && s'.winner == s.winner
    requires !s.threads[id].Writing? ==> s'.writes == s.writes && s'.result == s.result
    requires s'.threads[id].Writing? ==>
      s.winner == None && s'.winner == Some(Thread(id)) && s'.status == Target(s'.threads[id].report)
    ensures WriterOk(s')
  {
  }

  lemma ThreadKeepsFine(s: Fine, id: nat)
    requires FineOk(s) && id in s.threads
    ensures FineOk(ThreadStep(s, id))
  {
    ThreadPlace(s, id);
    ThreadKeepsWriter(s, ThreadStep(s, id), id);
  }

  lemma StepKeepsFine(s: Fine, e: Event, maxRetries: int)
    requires FineOk(s)
    ensures FineOk(Step(s, e, maxRetries))
  {
    match e
    case ChainMoves(workerFound) => ChainKeepsFine(s, workerFound, maxRetries);
    case ThreadMoves(id) => if id in s.threads { ThreadKeepsFine(s, id); }
    case _ =>
  }

  lemma {:induction false} ExecKeepsFine(s: Fine, es: seq<Event>, maxRetries: int)
    requires FineOk(s)
    ensures FineOk(Exec(s, es, maxRetries))
    decreases |es|
  {
    if es != [] {
      StepKeepsFine(s, es[0], maxRetries);
      ExecKeepsFine(Step(s, es[0], maxRetries), es[1..], maxRetries);
    }
  }

  lemma Reachable(es: seq<Event>, maxRetries: int)
    ensures FineOk(Exec(Start(), es, maxRetries))
  {
    ExecKeepsFine(Start(), es, maxRetries);
  }

  // ---------- The handlers without interruption ----------

  /** n moves of one thread with nothing in between. */
  function Undisturbed(s: Fine, id: nat, n: nat): Fine
    decreases n
  {
    if n == 0 || id !in s.threads then s else Undisturbed(ThreadStep(s, id), id, n - 1)
  }

  lemma {:induction false} DoneStays(s: Fine, id: nat, n: nat)
    requires id in s.threads && s.threads[id] == Done
    ensures Undisturbed(s, id, n) == s
  {
    if n > 0 {
      DoneStays(s, id, n - 1);
    }
  }

  function ReportOf(msg: Coarse.ResultMsg): Report {
    Report(msg.status == "COMPLETED", if msg.status == "COMPLETED" then msg.result else msg.error)
  }

  /** Run without interruption, a ReturnResult call does what the handler of the dispatcher
      model does in one step. */
  lemma ResultUndisturbed(before: Fine, id: nat, t: TaskVal, msg: Coarse.ResultMsg, maxRetries: int, now: int)
    requires id !in before.threads && before.status == t.status && before.result == t.result
    ensures var s := Step(before, ResultComes(id, ReportOf(msg)), maxRetries);
      var s', t' := Undisturbed(s, id, 6), if IsTerminal(t) then t else Coarse.AfterResult(t, msg, now);
      && id in s'.threads && s'.threads[id] == Done && View(s') == (t'.status, t'.result)
      && s'.chain == if before.chain == TimerRunning && !IsTerminal(t) then Gone else before.chain
  {
    var s := Step(before, ResultComes(id, ReportOf(msg)), maxRetries);
    var s1 := ThreadStep(s, id);
    if IsTerminal(t) {
      DoneStays(s1, id, 5);
    } else {
      var s2 := ThreadStep(s1, id);
      var s3 := ThreadStep(s2, id);
      assert Undisturbed(s, id, 6) == Undisturbed(s1, id, 5) == Undisturbed(s2, id, 4) == Undisturbed(s3, id, 3);
      ConcludesUndisturbed(s3, id, t, msg, now);
    }
  }

  lemma ConcludesUndisturbed(s: Fine, id: nat, t: TaskVal, msg: Coarse.ResultMsg, now: int)
    requires id in s.threads && s.status == t.status && s.result == t.result && !IsTerminal(t)
    requires s.threads[id] == if s.status == DISPATCHED then Starting(ReportOf(msg)) else Concluding(ReportOf(msg))
    ensures var s', t' := Undisturbed(s, id, 3), Coarse.AfterResult(t, msg, now);
      id in s'.threads && s'.threads[id] == Done && View(s') == (t'.status, t'.result) && s'.chain == s.chain
  {
    var s1 := ThreadStep(s, id);
    var s2 := ThreadStep(s1, id);
    var s3 := ThreadStep(s2, id);
    assert Undisturbed(s, id, 3) == Undisturbed(s1, id, 2) == Undisturbed(s2, id, 1) == Undisturbed(s3, id, 0);
  }

  function ChainSteps(s: Fine, n: nat, maxRetries: int): Fine
    decreases n
  {
    if n == 0 then s else ChainSteps(ChainStep(s, true, maxRetries), n - 1, maxRetries)
  }

  /** The same of the timeout callback: reading the status, TIMEOUT, RETRYING, counting the
      retry and, when the retries are used up, FAILED; nothing if the task is terminal. */
  lemma TimeoutUndisturbed(s: Fine, t: TaskVal, maxRetries: int, now: int)
    requires s.chain == Fired && PlaceOk(s.chain, s.status) && s.status == t.status && s.retryCount == t.retryCount
    ensures var t' := if Allowed(t.status, TIMEOUT) then Coarse.AfterTimeout(t, maxRetries, now) else t;
      var s' := ChainSteps(s, if t'.status == RETRYING then 4 else 5, maxRetries);
      && s'.status == t'.status && s'.retryCount == t'.retryCount
      && s'.chain == if IsTerminal(t') then Gone else Delayed
  {
    var s1 := ChainStep(s, true, maxRetries);
    var s2 := ChainStep(s1, true, maxRetries);
    if IsTerminal(t) {
      GoneStays(s1, 4, maxRetries);
    } else {
      CountedUndisturbed(s2, maxRetries);
      assert ChainSteps(s, 4, maxRetries) == ChainSteps(s1, 3, maxRetries) == ChainSteps(s2, 2, maxRetries);
      assert ChainSteps(s, 5, maxRetries) == ChainSteps(s1, 4, maxRetries) == ChainSteps(s2, 3, maxRetries);
    }
  }

  lemma {:induction false} GoneStays(s: Fine, n: nat, maxRetries: int)
    requires s.chain == Gone
    ensures ChainSteps(s, n, maxRetries) == s
  {
    if n > 0 {
      GoneStays(s, n - 1, maxRetries);
    }
  }

  /** The callback from TIMEOUT on. */
  lemma CountedUndisturbed(s: Fine, maxRetries: int)
    requires s.chain == TimedOut && s.status == TIMEOUT
    ensures var s' := ChainSteps(s, if s.retryCount + 1 >= maxRetries then 3 else 2, maxRetries);
      && s'.retryCount == s.retryCount + 1
      && s'.status == (if s.retryCount + 1 >= maxRetries then FAILED else RETRYING)
      && s'.chain == if s.retryCount + 1 >= maxRetries then Gone else Delayed
  {
    var s1 := ChainStep(s, true, maxRetries);
    var s2 := ChainStep(s1, true, maxRetries);
    var s3 := ChainStep(s2, true, maxRetries);
    assert ChainSteps(s, 2, maxRetries) == ChainSteps(s1, 1, maxRetries) == ChainSteps(s2, 0, maxRetries);
    assert ChainSteps(s, 3, maxRetries) == ChainSteps(s1, 2, maxRetries) == ChainSteps(s2, 1, maxRetries)
        == ChainSteps(s3, 0, maxRetries);
  }

  /** The same of the handler of a rejected call. */
  lemma RejectionUndisturbed(before: Fine, id: nat, t: TaskVal, maxRetries: int, now: int)
    requires before.calls > 0 && id !in before.threads && before.status == t.status
    ensures var s' := Undisturbed(Step(before, RejectedReply(id), maxRetries), id, 2);
      && id in s'.threads && s'.threads[id] == Done && s'.calls == before.calls - 1
      && s'.status == Moved(t, FAILED, now).status && s'.result == before.result
      && s'.chain == if before.chain == TimerRunning then Gone else before.chain
  {
    var s := Step(before, RejectedReply(id), maxRetries);
    var s1 := ThreadStep(s, id);
    var s2 := ThreadStep(s1, id);
    assert Undisturbed(s, id, 2) == Undisturbed(s1, id, 1) == Undisturbed(s2, id, 0);
  }

  /** The other replies: an accepted call moves the task to PROCESSING if it is DISPATCHED, and
      one that meets an error leaves it alone; both end the call and nothing else. */
  lemma RepliesUndisturbed(s: Fine, t: TaskVal, maxRetries: int, now: int)
    requires s.calls > 0 && s.status == t.status
    ensures Step(s, ErrorReply, maxRetries) == s.(calls := s.calls - 1)
    ensures var s' := Step(s, AcceptedReply, maxRetries); var moved := s.status == DISPATCHED;
      && s'.status == Moved(t, PROCESSING, now).status
      && s' == s.(calls := s.calls - 1, status := if moved then PROCESSING else s.status,
                  changes := if moved then s.changes + 1 else s.changes)
  {
  }

  /** The same of an executor slot after its lookup: without a worker the task is queued
      again; with one its timer and its call are started, unless it has ended. */
  lemma DispatchUndisturbed(s: Fine, t: TaskVal, workerFound: bool, worker: RoundRobin.WorkerInfo,
        maxRetries: int, now: int)
    requires s.chain == InExecutor && PlaceOk(s.chain, s.status) && s.status == t.status
    ensures var s1 := ChainStep(s, workerFound, maxRetries);
      if !workerFound then s1 == s.(chain := InQueue)
      else if IsTerminal(t) then s1 == s.(chain := Gone)
      else
        Step(ChainStep(s1, true, maxRetries), CallStarts, maxRetries)
          == s.(status := Coarse.AfterDispatch(t, worker, now).status, changes := s.changes + 1,
                chain := TimerRunning, calls := s.calls + 1, started := s.started + 1)
  {
  }
}
