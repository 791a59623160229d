/** What holds at single transitions in every run: one terminal status and one writer, the
    bounds on attempts and changes, what can still follow the end, what a client sees. */
module FineSafety {
  import opened Protocol
  import opened StateMachine
  import opened FineGrain

  // ---------- One terminal status, one writer ----------

  lemma TerminalStep(s: Fine, e: Event, maxRetries: int)
    requires FineOk(s) && IsTerminalState(s.status)
    ensures Step(s, e, maxRetries).status == s.status && Step(s, e, maxRetries).winner == s.winner
  {
    match e
    case ChainMoves(workerFound) => ChainPlace(s, workerFound, maxRetries);
    case ThreadMoves(id) => if id in s.threads { ThreadPlace(s, id); }
    case _ =>
  }

  /** Terminal absorption: once COMPLETED or FAILED a status never changes, and the one
      actor that set it stays the only one. */
  lemma {:induction false} TerminalIsFinal(s: Fine, es: seq<Event>, maxRetries: int)
    requires FineOk(s) && IsTerminalState(s.status)
    ensures Exec(s, es, maxRetries).status == s.status && Exec(s, es, maxRetries).winner == s.winner
    decreases |es|
  {
    if es != [] {
      TerminalStep(s, es[0], maxRetries);
      StepKeepsFine(s, es[0], maxRetries);
      TerminalIsFinal(Step(s, es[0], maxRetries), es[1..], maxRetries);
    }
  }

  /** The result is written at most once in a run, only by the ReturnResult call whose
      transition set the terminal status, and with the text that call reported for that
      status. */
  lemma WrittenByTheWinner(es: seq<Event>, e: Event, maxRetries: int)
    ensures var s := Exec(Start(), es, maxRetries); var s' := Step(s, e, maxRetries);
      && s.writes <= 1
      && (s.result != s'.result || s.writes != s'.writes ==>
            && s.writes == 0 && s'.writes == 1
            && e.ThreadMoves? && s.winner == Some(Thread(e.id))
            && e.id in s.threads && s.threads[e.id].Writing?
            && s.status == Target(s.threads[e.id].report) && s'.result == s.threads[e.id].report.text)
  {
    Reachable(es, maxRetries);
    var s := Exec(Start(), es, maxRetries);
    match e
    case ChainMoves(workerFound) => ChainPlace(s, workerFound, maxRetries);
    case ThreadMoves(id) => if id in s.threads { ThreadPlace(s, id); }
    case _ =>
  }

  // ---------- Attempts and changes ----------

  /** The calls that dispatch threads have started or are about to start. */
  function Sent(s: Fine): nat {
    s.started + s.sending
  }

  /** How many calls were sent, by the place of the chain. */
  predicate Budgeted(s: Fine, maxRetries: int) {
    var cap := RetryCap(maxRetries);
    && s.calls <= s.started
    && match s.chain
       case InQueue => Sent(s) == s.retryCount < cap
       case InExecutor => Sent(s) == s.retryCount < cap
       case Delayed => Sent(s) == s.retryCount < cap
       case Arming => Sent(s) == s.retryCount < cap
       case GivingUp => Sent(s) == s.retryCount <= cap
       case Gone =>
         && s.retryCount <= Sent(s) <= s.retryCount + 1 && Sent(s) <= cap
         && (!IsTerminalState(s.status) ==> Sent(s) == s.retryCount + 1)
       case _ => Sent(s) == s.retryCount + 1 <= cap
  }

  lemma ChainKeepsBudget(s: Fine, workerFound: bool, maxRetries: int)
    requires PlaceOk(s.chain, s.status) && Budgeted(s, maxRetries)
    ensures Budgeted(ChainStep(s, workerFound, maxRetries), maxRetries)
  {
  }

  lemma ThreadKeepsBudget(s: Fine, id: nat, maxRetries: int)
    requires Budgeted(s, maxRetries) && id in s.threads
    ensures Budgeted(ThreadStep(s, id), maxRetries)
  {
  }

  lemma StepKeepsBudget(s: Fine, e: Event, maxRetries: int)
    requires FineOk(s) && Budgeted(s, maxRetries)
    ensures Budgeted(Step(s, e, maxRetries), maxRetries)
  {
    match e
    case ChainMoves(workerFound) => ChainKeepsBudget(s, workerFound, maxRetries);
    case ThreadMoves(id) => if id in s.threads { ThreadKeepsBudget(s, id, maxRetries); }
    case _ =>
  }

  /** The retries counted, and the one about to be counted. */
  function Retries(s: Fine): nat {
    s.retryCount + if s.chain == Counting then 1 else 0
  }

  /** The changes made and those still possible stay within the bound together. */
  predicate ChangesOk(s: Fine, maxRetries: int) {
    s.changes + ChangesLeft(s.status, Retries(s), maxRetries) <= 4 * RetryCap(maxRetries) + 1
  }

  /** A transition that does not move the chain is paid for. */
  lemma SetPays(s: Fine, to: TaskState, who: Actor, maxRetries: int)
    requires FineOk(s) && Budgeted(s, maxRetries) && ChangesOk(s, maxRetries)
    requires to == PROCESSING || IsTerminalState(to)
    ensures ChangesOk(Set(s, to, who), maxRetries)
  {
    if Allowed(s.status, to) {
      EveryChangeIsPaidFor(s.status, to, Retries(s), maxRetries);
    }
  }

  lemma ThreadPays(s: Fine, id: nat, maxRetries: int)
    requires FineOk(s) && Budgeted(s, maxRetries) && ChangesOk(s, maxRetries) && id in s.threads
    ensures ChangesOk(ThreadStep(s, id), maxRetries)
  {
    if SetsStatus(s.threads[id]) {
      match s.threads[id]
      case Starting(r) => SetPays(s, PROCESSING, Thread(id), maxRetries);
      case Concluding(r) => SetPays(s, Target(r), Thread(id), maxRetries);
      case RejectFailing => SetPays(s, FAILED, Thread(id), maxRetries);
    } else {
      RestSetsNothing(s, id);
    }
  }

  predicate SetsStatus(p: Point) {
    p.Starting? || p.Concluding? || p == RejectFailing
  }

  lemma RestSetsNothing(s: Fine, id: nat)
    requires id in s.threads && !SetsStatus(s.threads[id])
    ensures var s' := ThreadStep(s, id);
      s'.status == s.status && s'.changes == s.changes && Retries(s') == Retries(s)
  {
  }

  lemma ChainPays(s: Fine, workerFound: bool, maxRetries: int)
    requires FineOk(s) && Budgeted(s, maxRetries) && ChangesOk(s, maxRetries)
    ensures ChangesOk(ChainStep(s, workerFound, maxRetries), maxRetries)
  {
  }

  lemma StepPays(s: Fine, e: Event, maxRetries: int)
    requires FineOk(s) && Budgeted(s, maxRetries) && ChangesOk(s, maxRetries)
    ensures ChangesOk(Step(s, e, maxRetries), maxRetries)
  {
    match e
    case ChainMoves(workerFound) => ChainPays(s, workerFound, maxRetries);
    case AcceptedReply => if s.calls > 0 { SetPays(s.(calls := s.calls - 1), PROCESSING, Reply, maxRetries); }
    case ThreadMoves(id) => if id in s.threads { ThreadPays(s, id, maxRetries); }
    case _ =>
  }

  ghost predicate AllOk(s: Fine, maxRetries: int) {
    FineOk(s) && Budgeted(s, maxRetries) && ChangesOk(s, maxRetries)
  }

  lemma {:induction false} ExecKeepsAll(s: Fine, es: seq<Event>, maxRetries: int)
    requires AllOk(s, maxRetries)
    ensures AllOk(Exec(s, es, maxRetries), maxRetries)
    decreases |es|
  {
    if es != [] {
      StepKeepsFine(s, es[0], maxRetries);
      StepKeepsBudget(s, es[0], maxRetries);
      StepPays(s, es[0], maxRetries);
      ExecKeepsAll(Step(s, es[0], maxRetries), es[1..], maxRetries);
    }
  }

  /** Also at single transitions a task is sent at most max(1, MAX_RETRIES) times, its retry
      count stays within that bound, and its status changes at most four times as often plus
      once. */
  lemma FineAttemptsAreBounded(es: seq<Event>, maxRetries: int)
    ensures var s := Exec(Start(), es, maxRetries);
      && s.calls <= s.started <= Sent(s) <= RetryCap(maxRetries)
      && s.retryCount <= Sent(s) <= s.retryCount + 1
      && s.changes <= 4 * RetryCap(maxRetries) + 1
  {
    ExecKeepsAll(Start(), es, maxRetries);
  }

  /** In every reachable state a running task whose timer does not run is one whose dispatch
      is about to start the timer, whose callback is at work, or whose timer was cancelled;
      a waiting one is queued, in an executor slot, delayed, or its callback is at work. */
  lemma PlacesOfTheChain(es: seq<Event>, maxRetries: int)
    ensures var s := Exec(Start(), es, maxRetries);
      && (IsRunning(s.status) && s.chain != TimerRunning ==>
            s.chain == Arming || s.chain == Fired || s.chain == Expiring || s.chain == Gone)
      && (IsWaiting(s.status) ==>
            || s.chain == InQueue || s.chain == InExecutor || s.chain == Delayed
            || s.chain == Counting || s.chain == GivingUp)
      && (s.status == TIMEOUT <==> s.chain == TimedOut)
  {
    Reachable(es, maxRetries);
  }

  // ---------- After the end ----------

  function Pending(place: Chain, s: Fine): nat {
    if s.chain == place then 1 else 0
  }

  /** Between the states only what was pending is counted or called. */
  predicate OnlyPending(s: Fine, s': Fine) {
    && s'.retryCount + Pending(Counting, s') == s.retryCount + Pending(Counting, s)
    && Sent(s') + Pending(Arming, s') == Sent(s) + Pending(Arming, s)
    && s.started <= s'.started && s.retryCount <= s'.retryCount
  }

  lemma EndedThread(s: Fine, id: nat)
    requires IsTerminalState(s.status) && id in s.threads
    ensures OnlyPending(s, ThreadStep(s, id))
  {
    match s.threads[id]
    case Cancelling(r) =>
    case RejectCancelling =>
    case _ => assert ThreadStep(s, id).chain == s.chain;
  }

  lemma EndedChain(s: Fine, workerFound: bool, maxRetries: int)
    requires FineOk(s) && IsTerminalState(s.status)
    ensures OnlyPending(s, ChainStep(s, workerFound, maxRetries))
  {
  }

  lemma EndedStep(s: Fine, e: Event, maxRetries: int)
    requires FineOk(s) && IsTerminalState(s.status)
    ensures OnlyPending(s, Step(s, e, maxRetries))
  {
    match e
    case ChainMoves(workerFound) => EndedChain(s, workerFound, maxRetries);
    case ThreadMoves(id) => if id in s.threads { EndedThread(s, id); }
    case _ =>
  }

  /** What can still follow the end of a task: the retry that its callback was about to
      count, and the calls that dispatches were about to start. Nothing else is counted and
      nothing else is called. */
  lemma {:induction false} WhatFollowsTheEnd(s: Fine, es: seq<Event>, maxRetries: int)
    requires FineOk(s) && IsTerminalState(s.status)
    ensures var s' := Exec(s, es, maxRetries);
      && s'.retryCount + Pending(Counting, s') == s.retryCount + Pending(Counting, s)
      && Sent(s') + Pending(Arming, s') == Sent(s) + Pending(Arming, s)
      && s.retryCount <= s'.retryCount <= s.retryCount + Pending(Counting, s)
      && s.started <= s'.started <= s.started + s.sending + Pending(Arming, s)
    decreases |es|
  {
    if es != [] {
      EndedStep(s, es[0], maxRetries);
      TerminalStep(s, es[0], maxRetries);
      StepKeepsFine(s, es[0], maxRetries);
      WhatFollowsTheEnd(Step(s, es[0], maxRetries), es[1..], maxRetries);
    }
  }

  // ---------- What a client sees ----------

  /** A ReturnResult call has set the status and not yet written its text. */
  ghost predicate WritePending(s: Fine) {
    exists i :: i in s.threads && s.threads[i].Writing? && s.threads[i].report.text != s.result
  }

  lemma SettledStep(s: Fine, e: Event, maxRetries: int)
    requires FineOk(s) && IsTerminalState(s.status) && !WritePending(s)
    ensures View(Step(s, e, maxRetries)) == View(s) && !WritePending(Step(s, e, maxRetries))
  {
    TerminalStep(s, e, maxRetries);
    match e
    case ChainMoves(workerFound) => ChainPlace(s, workerFound, maxRetries);
    case ThreadMoves(id) => if id in s.threads { ThreadPlace(s, id); }
    case _ =>
  }

  lemma {:induction false} SettledStays(s: Fine, es: seq<Event>, maxRetries: int)
    requires FineOk(s) && IsTerminalState(s.status) && !WritePending(s)
    ensures View(Exec(s, es, maxRetries)) == View(s)
    decreases |es|
  {
    if es != [] {
      SettledStep(s, es[0], maxRetries);
      StepKeepsFine(s, es[0], maxRetries);
      SettledStays(Step(s, es[0], maxRetries), es[1..], maxRetries);
    }
  }

  /** Whatever happens next, the answer stays the same. */
  ghost predicate ViewIsFinal(s: Fine, maxRetries: int) {
    forall es :: View(Exec(s, es, maxRetries)) == View(s)
  }

  /** At this grain a client that sees a terminal status sees its final answer exactly if
      no ReturnResult call stands between its transition and its write. */
  lemma FinalUnlessWritePending(before: seq<Event>, maxRetries: int)
    requires IsTerminalState(Exec(Start(), before, maxRetries).status)
    ensures var s := Exec(Start(), before, maxRetries);
      ViewIsFinal(s, maxRetries) <==> !WritePending(s)
  {
    var s := Exec(Start(), before, maxRetries);
    Reachable(before, maxRetries);
    if WritePending(s) {
      var i :| i in s.threads && s.threads[i].Writing? && s.threads[i].report.text != s.result;
      var write := [ThreadMoves(i)];
      assert write[1..] == [];
      assert Exec(s, write, maxRetries) == Step(s, write[0], maxRetries);
      assert View(Exec(s, write, maxRetries)) != View(s);
    } else {
      forall es
        ensures View(Exec(s, es, maxRetries)) == View(s)
      {
        SettledStays(s, es, maxRetries);
      }
    }
  }

  // ---------- An answer read in two steps ----------

  /** The event writes a text that is not empty. */
  predicate WritesText(s: Fine, e: Event) {
    e.ThreadMoves? && e.id in s.threads && s.threads[e.id].Writing? && s.threads[e.id].report.text != ""
  }

  predicate TextWritten(s: Fine, es: seq<Event>, maxRetries: int)
    decreases |es|
  {
    es != [] && (WritesText(s, es[0]) || TextWritten(Step(s, es[0], maxRetries), es[1..], maxRetries))
  }

  lemma TextStep(s: Fine, e: Event, maxRetries: int)
    requires FineOk(s)
    ensures Step(s, e, maxRetries).result != "" <==> s.result != "" || WritesText(s, e)
    ensures s.result != "" ==> Step(s, e, maxRetries).result == s.result
  {
    match e
    case ChainMoves(workerFound) => ChainPlace(s, workerFound, maxRetries);
    case ThreadMoves(id) => if id in s.threads { ThreadPlace(s, id); }
    case _ =>
  }

  lemma {:induction false} TextIsWrittenOnce(s: Fine, es: seq<Event>, maxRetries: int)
    requires FineOk(s)
    ensures Exec(s, es, maxRetries).result != "" <==> s.result != "" || TextWritten(s, es, maxRetries)
    ensures s.result != "" ==> Exec(s, es, maxRetries).result == s.result
    decreases |es|
  {
    if es != [] {
      TextStep(s, es[0], maxRetries);
      StepKeepsFine(s, es[0], maxRetries);
      TextIsWrittenOnce(Step(s, es[0], maxRetries), es[1..], maxRetries);
    }
  }

  /** GetResult reads the status and then the result. An answer with a status that is not
      terminal has a text exactly if the text was written between the two reads; then the
      task has ended meanwhile, and asking again gives a terminal status with that text. */
  lemma AnswerReadInTwoSteps(before: seq<Event>, between: seq<Event>, maxRetries: int)
    ensures var s := Exec(Start(), before, maxRetries);
      var s' := Exec(s, between, maxRetries);
      && (!IsTerminalState(s.status) ==> (s'.result != "" <==> TextWritten(s, between, maxRetries)))
      && (s'.result != "" ==> IsTerminalState(s'.status) && ViewIsFinal(s', maxRetries))
  {
    var s := Exec(Start(), before, maxRetries);
    var s' := Exec(s, between, maxRetries);
    Reachable(before, maxRetries);
    TextIsWrittenOnce(s, between, maxRetries);
    ExecKeepsFine(s, between, maxRetries);
    if s'.result != "" {
      forall es
        ensures View(Exec(s', es, maxRetries)) == View(s')
      {
        SettledStays(s', es, maxRetries);
      }
    }
  }
}
