/** Runs at single transitions in which things happen that do not happen when the handlers
    are atomic: each run is given event by event. */
module FineRuns {
  import opened Protocol
  import opened StateMachine
  import opened FineGrain
  import opened FineSafety
  import opened FineCustody
  import opened FineLate

  lemma {:induction false} ExecConcat(s: Fine, a: seq<Event>, b: seq<Event>, maxRetries: int)
    ensures Exec(s, a + b, maxRetries) == Exec(Exec(s, a, maxRetries), b, maxRetries)
    decreases |a|
  {
    if a == [] {
      assert a + b == b;
    } else {
      assert (a + b)[1..] == a[1..] + b;
      ExecConcat(Step(s, a[0], maxRetries), a[1..], b, maxRetries);
    }
  }

  lemma ExecOne(s: Fine, a: Event, maxRetries: int)
    ensures Exec(s, [a], maxRetries) == Step(s, a, maxRetries)
  {
    assert [a][1..] == [];
    assert Exec(s, [a], maxRetries) == Exec(Step(s, a, maxRetries), [], maxRetries);
  }

  lemma ExecTwo(s: Fine, a: Event, b: Event, maxRetries: int)
    ensures Exec(s, [a, b], maxRetries) == Step(Step(s, a, maxRetries), b, maxRetries)
  {
    assert [a, b][1..] == [b];
    ExecOne(Step(s, a, maxRetries), b, maxRetries);
  }

  lemma ExecThree(s: Fine, a: Event, b: Event, c: Event, maxRetries: int)
    ensures Exec(s, [a, b, c], maxRetries) == Step(Step(Step(s, a, maxRetries), b, maxRetries), c, maxRetries)
  {
    assert [a, b, c][1..] == [b, c];
    ExecTwo(Step(s, a, maxRetries), b, c, maxRetries);
  }

  // ---------- Stretches of a run ----------

  const GO := ChainMoves(true)

  /** From the queue through the executor to a running timer and an open call. */
  function Attempt(): seq<Event> {
    [GO, GO, GO] + [CallStarts]
  }

  lemma DispatchRuns(s: Fine, maxRetries: int)
    requires IsWaiting(s.status) && s.chain == InQueue
    ensures Exec(s, [GO, GO, GO], maxRetries)
         == s.(status := DISPATCHED, chain := TimerRunning, sending := s.sending + 1, changes := s.changes + 1)
  {
    ExecThree(s, GO, GO, GO, maxRetries);
  }

  lemma AttemptRuns(s: Fine, maxRetries: int)
    requires IsWaiting(s.status) && s.chain == InQueue && s.sending == 0
    ensures Exec(s, Attempt(), maxRetries)
         == s.(status := DISPATCHED, chain := TimerRunning, changes := s.changes + 1,
               calls := s.calls + 1, started := s.started + 1)
  {
    var s1 := s.(status := DISPATCHED, chain := TimerRunning, sending := 1, changes := s.changes + 1);
    DispatchRuns(s, maxRetries);
    ExecOne(s1, CallStarts, maxRetries);
    ExecConcat(s, [GO, GO, GO], [CallStarts], maxRetries);
  }

  /** From there through the callback and the delay back to the queue. */
  function Timeout(): seq<Event> {
    [GO, GO, GO] + [GO, GO, GO]
  }

  lemma CallbackRuns(s: Fine, maxRetries: int)
    requires IsRunning(s.status) && s.chain == TimerRunning
    ensures Exec(s, [GO, GO, GO], maxRetries) == s.(status := TIMEOUT, chain := TimedOut, changes := s.changes + 1)
  {
    ExecThree(s, GO, GO, GO, maxRetries);
  }

  lemma RetryRuns(s: Fine, maxRetries: int)
    requires s.status == TIMEOUT && s.chain == TimedOut && s.retryCount + 1 < maxRetries
    ensures Exec(s, [GO, GO, GO], maxRetries)
         == s.(status := RETRYING, chain := InQueue, changes := s.changes + 1, retryCount := s.retryCount + 1)
  {
    ExecThree(s, GO, GO, GO, maxRetries);
  }

  lemma TimeoutRuns(s: Fine, maxRetries: int)
    requires IsRunning(s.status) && s.chain == TimerRunning && s.retryCount + 1 < maxRetries
    ensures Exec(s, Timeout(), maxRetries)
         == s.(status := RETRYING, chain := InQueue, changes := s.changes + 2, retryCount := s.retryCount + 1)
  {
    CallbackRuns(s, maxRetries);
    RetryRuns(s.(status := TIMEOUT, chain := TimedOut, changes := s.changes + 1), maxRetries);
    ExecConcat(s, [GO, GO, GO], [GO, GO, GO], maxRetries);
  }

  /** A result arrives: its handler finds the task not terminal and cancels the timer if it
      runs. */
  function Arrival(id: nat, report: Report): seq<Event> {
    [ResultComes(id, report), ThreadMoves(id), ThreadMoves(id)]
  }

  lemma ArrivalRuns(s: Fine, id: nat, report: Report, maxRetries: int)
    requires !IsTerminalState(s.status) && id !in s.threads
    ensures Exec(s, Arrival(id, report), maxRetries) == AtPoint(Cancel(s), id, Comparing(report))
  {
    ExecThree(s, ResultComes(id, report), ThreadMoves(id), ThreadMoves(id), maxRetries);
  }

  /** The handler goes on to set the final status. */
  function Conclusion(id: nat): seq<Event> {
    [ThreadMoves(id), ThreadMoves(id), ThreadMoves(id)]
  }

  lemma ConclusionRuns(s: Fine, id: nat, report: Report, maxRetries: int)
    requires s.status == DISPATCHED && id in s.threads && s.threads[id] == Comparing(report)
    ensures Exec(s, Conclusion(id), maxRetries)
         == AtPoint(s.(status := Target(report), changes := s.changes + 2, winner := Some(Thread(id))), id,
                    Writing(report))
  {
    ExecThree(s, ThreadMoves(id), ThreadMoves(id), ThreadMoves(id), maxRetries);
  }

  // ---------- An answer before its text, and a text without its status ----------

  /** One attempt whose result arrives, up to the write of its text. */
  function UntilTheWrite(report: Report): seq<Event> {
    Attempt() + (Arrival(0, report) + Conclusion(0))
  }

  lemma UntilTheWriteRuns(report: Report, maxRetries: int)
    ensures Exec(Start(), UntilTheWrite(report), maxRetries)
         == Start().(status := Target(report), chain := Gone, calls := 1, started := 1, changes := 3,
                     winner := Some(Thread(0)), threads := map[0 := Writing(report)])
  {
    var s1 := Start().(status := DISPATCHED, chain := TimerRunning, calls := 1, started := 1, changes := 1);
    var s2 := s1.(chain := Gone, threads := map[0 := Comparing(report)]);
    AttemptRuns(Start(), maxRetries);
    ArrivalRuns(s1, 0, report, maxRetries);
    ConclusionRuns(s2, 0, report, maxRetries);
    ExecConcat(s1, Arrival(0, report), Conclusion(0), maxRetries);
    ExecConcat(Start(), Attempt(), Arrival(0, report) + Conclusion(0), maxRetries);
  }

  /** Before the handler writes the text a client can see COMPLETED with an empty result. */
  lemma EarlyLook(text: string, maxRetries: int)
    requires text != ""
    ensures var s := Exec(Start(), UntilTheWrite(Report(true, text)), maxRetries);
      View(s) == (COMPLETED, "") && WritePending(s)
  {
    UntilTheWriteRuns(Report(true, text), maxRetries);
    var s := Exec(Start(), UntilTheWrite(Report(true, text)), maxRetries);
    assert s.threads[0] == Writing(Report(true, text));
  }

  /** A client that reads the status before the result arrives and the result after it was
      written gets DISPATCHED together with the text. */
  lemma TornAnswer(text: string, maxRetries: int)
    requires text != ""
    ensures var s := Exec(Start(), Attempt(), maxRetries);
      var between := Arrival(0, Report(true, text)) + Conclusion(0) + [ThreadMoves(0)];
      s.status == DISPATCHED && Exec(s, between, maxRetries).result == text
  {
    var report := Report(true, text);
    var s := Exec(Start(), Attempt(), maxRetries);
    AttemptRuns(Start(), maxRetries);
    UntilTheWriteRuns(report, maxRetries);
    ExecConcat(Start(), Attempt(), Arrival(0, report) + Conclusion(0), maxRetries);
    ExecOne(Exec(s, Arrival(0, report) + Conclusion(0), maxRetries), ThreadMoves(0), maxRetries);
    ExecConcat(s, Arrival(0, report) + Conclusion(0), [ThreadMoves(0)], maxRetries);
  }

  // ---------- A lost task ----------

  /** A COMPLETED result that comes while the task waits for a retry is refused. */
  function LateResult(id: nat, text: string): seq<Event> {
    Arrival(id, Report(true, text)) + [ThreadMoves(id), ThreadMoves(id)]
  }

  lemma LateResultRuns(s: Fine, id: nat, text: string, maxRetries: int)
    requires s.status == RETRYING && s.chain == InQueue && id !in s.threads
    ensures Exec(s, LateResult(id, text), maxRetries) == AtPoint(s, id, Done)
  {
    var report := Report(true, text);
    var s1 := AtPoint(s, id, Comparing(report));
    ArrivalRuns(s, id, report, maxRetries);
    ExecTwo(s1, ThreadMoves(id), ThreadMoves(id), maxRetries);
    ExecConcat(s, Arrival(id, report), [ThreadMoves(id), ThreadMoves(id)], maxRetries);
  }

  /** An attempt that times out. */
  function FirstAttempt(): seq<Event> {
    Attempt() + Timeout()
  }

  lemma FirstAttemptRuns(maxRetries: int)
    requires maxRetries >= 2
    ensures Exec(Start(), FirstAttempt(), maxRetries)
         == Start().(status := RETRYING, retryCount := 1, calls := 1, started := 1, changes := 3)
  {
    var s1 := Start().(status := DISPATCHED, chain := TimerRunning, calls := 1, started := 1, changes := 1);
    AttemptRuns(Start(), maxRetries);
    TimeoutRuns(s1, maxRetries);
    ExecConcat(Start(), Attempt(), Timeout(), maxRetries);
  }

  /** Its result comes too late and is refused, so that its worker goes on to accept the
      call, and the second attempt is sent. */
  function SecondAttempt(late: string): seq<Event> {
    LateResult(1, late) + Attempt()
  }

  lemma SecondAttemptRuns(s: Fine, late: string, maxRetries: int)
    requires s.status == RETRYING && s.chain == InQueue && s.sending == 0 && s.threads == map[]
    ensures Exec(s, SecondAttempt(late), maxRetries)
         == s.(status := DISPATCHED, chain := TimerRunning, changes := s.changes + 1, calls := s.calls + 1,
               started := s.started + 1, threads := map[1 := Done])
  {
    var s1 := s.(threads := map[1 := Done]);
    LateResultRuns(s, 1, late, maxRetries);
    assert s.threads[1 := Done] == map[1 := Done];
    AttemptRuns(s1, maxRetries);
    ExecConcat(s, LateResult(1, late), Attempt(), maxRetries);
  }

  function TwoAttempts(late: string): seq<Event> {
    FirstAttempt() + SecondAttempt(late)
  }

  lemma TwoAttemptsRun(late: string, maxRetries: int)
    requires maxRetries >= 2
    ensures Exec(Start(), TwoAttempts(late), maxRetries)
         == Start().(status := DISPATCHED, chain := TimerRunning, retryCount := 1, calls := 2, started := 2,
                     changes := 4, threads := map[1 := Done])
  {
    var s1 := Start().(status := RETRYING, retryCount := 1, calls := 1, started := 1, changes := 3);
    FirstAttemptRuns(maxRetries);
    SecondAttemptRuns(s1, late, maxRetries);
    ExecConcat(Start(), FirstAttempt(), SecondAttempt(late), maxRetries);
  }

  /** The result of the second attempt arrives, and between its test for DISPATCHED and its
      transition the answer of the first call does. */
  function RaceRun(late: string, report: Report): seq<Event> {
    TwoAttempts(late) + (Arrival(0, report) + [ThreadMoves(0), AcceptedReply, ThreadMoves(0)])
  }

  lemma RaceEnds(s: Fine, report: Report, maxRetries: int)
    requires s.status == DISPATCHED && s.chain == Gone && s.calls > 0
    requires s.threads == map[1 := Done, 0 := Comparing(report)]
    ensures Exec(s, [ThreadMoves(0), AcceptedReply, ThreadMoves(0)], maxRetries)
         == s.(status := PROCESSING, changes := s.changes + 1, calls := s.calls - 1,
               threads := map[1 := Done, 0 := Done])
  {
    ExecThree(s, ThreadMoves(0), AcceptedReply, ThreadMoves(0), maxRetries);
  }

  lemma RaceHappens(late: string, report: Report, maxRetries: int)
    requires maxRetries >= 2
    ensures var s := Exec(Start(), RaceRun(late, report), maxRetries);
      Lost(s) && s.result == "" && s.threads.Keys == {0, 1} && s.threads[0] == s.threads[1] == Done
  {
    var end := [ThreadMoves(0), AcceptedReply, ThreadMoves(0)];
    var s3 := Exec(Start(), TwoAttempts(late), maxRetries);
    TwoAttemptsRun(late, maxRetries);
    var s4 := AtPoint(s3.(chain := Gone), 0, Comparing(report));
    ArrivalRuns(s3, 0, report, maxRetries);
    RaceEnds(s4, report, maxRetries);
    ExecConcat(s3, Arrival(0, report), end, maxRetries);
    ExecConcat(Start(), TwoAttempts(late), Arrival(0, report) + end, maxRetries);
  }

  // ---------- A timer, a call and a retry after the end ----------

  /** The first call meets its deadline and its timer fires. */
  function TimedOutCall(): seq<Event> {
    Attempt() + ([ErrorReply] + Timeout())
  }

  lemma TimedOutCallRuns(maxRetries: int)
    requires maxRetries >= 2
    ensures Exec(Start(), TimedOutCall(), maxRetries)
         == Start().(status := RETRYING, retryCount := 1, started := 1, changes := 3)
  {
    var s1 := Start().(status := DISPATCHED, chain := TimerRunning, calls := 1, started := 1, changes := 1);
    var s2 := s1.(calls := 0);
    AttemptRuns(Start(), maxRetries);
    ExecOne(s1, ErrorReply, maxRetries);
    TimeoutRuns(s2, maxRetries);
    ExecConcat(s1, [ErrorReply], Timeout(), maxRetries);
    ExecConcat(Start(), Attempt(), [ErrorReply] + Timeout(), maxRetries);
  }

  /** The result arrives when the second attempt is DISPATCHED and its timer is about to be
      started. */
  function ResultBeforeTimer(report: Report): seq<Event> {
    [GO, GO] + (Arrival(0, report) + (Conclusion(0) + [ThreadMoves(0), GO]))
  }

  lemma ResultBeforeTimerRuns(s: Fine, report: Report, maxRetries: int)
    requires s.status == RETRYING && s.chain == InQueue && s.threads == map[] && s.sending == 0
    ensures var s' := Exec(s, ResultBeforeTimer(report), maxRetries);
      TimerOutlives(s') && View(s') == (Target(report), report.text) && s'.sending == 1
  {
    var s1 := s.(status := DISPATCHED, chain := Arming, changes := s.changes + 1);
    ExecTwo(s, GO, GO, maxRetries);
    LateTimerEnds(s1, report, maxRetries);
    ExecConcat(s, [GO, GO], Arrival(0, report) + (Conclusion(0) + [ThreadMoves(0), GO]), maxRetries);
  }

  lemma LateTimerEnds(s: Fine, report: Report, maxRetries: int)
    requires s.status == DISPATCHED && s.chain == Arming && 0 !in s.threads && s.sending == 0
    ensures var s' := Exec(s, Arrival(0, report) + (Conclusion(0) + [ThreadMoves(0), GO]), maxRetries);
      TimerOutlives(s') && View(s') == (Target(report), report.text) && s'.sending == 1
  {
    var s1 := AtPoint(s, 0, Comparing(report));
    ArrivalRuns(s, 0, report, maxRetries);
    ConclusionRuns(s1, 0, report, maxRetries);
    var s2 := Exec(s1, Conclusion(0), maxRetries);
    ExecTwo(s2, ThreadMoves(0), GO, maxRetries);
    ExecConcat(s1, Conclusion(0), [ThreadMoves(0), GO], maxRetries);
    ExecConcat(s, Arrival(0, report), Conclusion(0) + [ThreadMoves(0), GO], maxRetries);
  }

  function LateTimerRun(report: Report): seq<Event> {
    TimedOutCall() + ResultBeforeTimer(report)
  }

  /** A task that has ended can have a running timer, and a call that is about to start. */
  lemma LateTimerHappens(report: Report, maxRetries: int)
    requires maxRetries >= 2
    ensures var s := Exec(Start(), LateTimerRun(report), maxRetries);
      TimerOutlives(s) && View(s) == (Target(report), report.text) && s.sending == 1
  {
    TimedOutCallRuns(maxRetries);
    ResultBeforeTimerRuns(Exec(Start(), TimedOutCall(), maxRetries), report, maxRetries);
    ExecConcat(Start(), TimedOutCall(), ResultBeforeTimer(report), maxRetries);
  }

  /** A failure is reported while the callback is at work: the call finds TIMEOUT, the
      callback sets RETRYING, the call sets FAILED. */
  function FailedMeanwhile(report: Report): seq<Event> {
    Arrival(0, report) + [ThreadMoves(0), GO, ThreadMoves(0)]
  }

  function UntilTheCount(text: string): seq<Event> {
    Attempt() + ([GO, GO, GO] + FailedMeanwhile(Report(false, text)))
  }

  /** Then the callback counts the retry. */
  function LateCountRun(text: string): seq<Event> {
    UntilTheCount(text) + [GO]
  }

  /** A retry can be counted after the end. */
  lemma LateCountHappens(text: string, maxRetries: int)
    ensures var es := LateCountRun(text); var n := |es| - 1;
      var s, s' := Exec(Start(), es[..n], maxRetries), Exec(Start(), es, maxRetries);
      && s.status == FAILED && s.chain == Counting && s.retryCount == 0
      && s'.status == FAILED && s'.retryCount == 1
  {
    var init, es := UntilTheCount(text), LateCountRun(text);
    UntilTheCountRuns(text, maxRetries);
    assert es[..|es| - 1] == init;
    ExecOne(Exec(Start(), init, maxRetries), GO, maxRetries);
    ExecConcat(Start(), init, [GO], maxRetries);
  }

  lemma UntilTheCountRuns(text: string, maxRetries: int)
    ensures var s := Exec(Start(), UntilTheCount(text), maxRetries);
      s.status == FAILED && s.chain == Counting && s.retryCount == 0
  {
    var rest := FailedMeanwhile(Report(false, text));
    var s1 := Start().(status := DISPATCHED, chain := TimerRunning, calls := 1, started := 1, changes := 1);
    var s2 := s1.(status := TIMEOUT, chain := TimedOut, changes := 2);
    AttemptRuns(Start(), maxRetries);
    CallbackRuns(s1, maxRetries);
    FailedMeanwhileRuns(s2, Report(false, text), maxRetries);
    ExecConcat(s1, [GO, GO, GO], rest, maxRetries);
    ExecConcat(Start(), Attempt(), [GO, GO, GO] + rest, maxRetries);
  }

  lemma FailedMeanwhileRuns(s: Fine, report: Report, maxRetries: int)
    requires s.status == TIMEOUT && s.chain == TimedOut && s.threads == map[] && !report.completed
    ensures var s' := Exec(s, FailedMeanwhile(report), maxRetries);
      s'.status == FAILED && s'.chain == Counting && s'.retryCount == s.retryCount
  {
    var s1 := s.(threads := map[0 := Comparing(report)]);
    ArrivalRuns(s, 0, report, maxRetries);
    ExecThree(s1, ThreadMoves(0), GO, ThreadMoves(0), maxRetries);
    ExecConcat(s, Arrival(0, report), [ThreadMoves(0), GO, ThreadMoves(0)], maxRetries);
  }

  // ---------- Refused calls that have changed the status ----------

  /** A result arrives and its handler gets as far as setting PROCESSING, once while the
      callback is at work and once after it has cancelled the timer. */
  function StartDuringCallback(report: Report): seq<Event> {
    [GO] + (Arrival(0, report) + [ThreadMoves(0), ThreadMoves(0)])
  }

  lemma StartDuringCallbackRuns(s: Fine, report: Report, maxRetries: int)
    requires s.status == DISPATCHED && s.chain == TimerRunning && s.threads == map[]
    ensures Exec(s, StartDuringCallback(report), maxRetries)
         == s.(chain := Fired, status := PROCESSING, changes := s.changes + 1, threads := map[0 := Concluding(report)])
  {
    var s1 := s.(chain := Fired);
    var s2 := s1.(threads := map[0 := Comparing(report)]);
    ExecOne(s, GO, maxRetries);
    ArrivalRuns(s1, 0, report, maxRetries);
    ExecTwo(s2, ThreadMoves(0), ThreadMoves(0), maxRetries);
    ExecConcat(s1, Arrival(0, report), [ThreadMoves(0), ThreadMoves(0)], maxRetries);
    ExecConcat(s, [GO], Arrival(0, report) + [ThreadMoves(0), ThreadMoves(0)], maxRetries);
  }

  /** The timeout callback takes the task on before the call's last transition. */
  lemma RefusedByTheCallback(report: Report, maxRetries: int)
    ensures var s := Exec(Start(), Attempt() + StartDuringCallback(report), maxRetries);
      var s' := Exec(s, [GO, GO, ThreadMoves(0)], maxRetries);
      && s.status == PROCESSING && s.threads == map[0 := Concluding(report)]
      && s'.status == TIMEOUT && s'.winner == None && s'.threads == map[0 := Done]
  {
    var s1 := Start().(status := DISPATCHED, chain := TimerRunning, calls := 1, started := 1, changes := 1);
    AttemptRuns(Start(), maxRetries);
    StartDuringCallbackRuns(s1, report, maxRetries);
    ExecConcat(Start(), Attempt(), StartDuringCallback(report), maxRetries);
    ExecThree(Exec(s1, StartDuringCallback(report), maxRetries), GO, GO, ThreadMoves(0), maxRetries);
  }

  function StartAfterCancel(report: Report): seq<Event> {
    Arrival(0, report) + [ThreadMoves(0), ThreadMoves(0)]
  }

  lemma StartAfterCancelRuns(s: Fine, report: Report, maxRetries: int)
    requires s.status == DISPATCHED && s.chain == TimerRunning && s.threads == map[]
    ensures Exec(s, StartAfterCancel(report), maxRetries)
         == s.(chain := Gone, status := PROCESSING, changes := s.changes + 1, threads := map[0 := Concluding(report)])
  {
    var s1 := s.(chain := Gone, threads := map[0 := Comparing(report)]);
    ArrivalRuns(s, 0, report, maxRetries);
    ExecTwo(s1, ThreadMoves(0), ThreadMoves(0), maxRetries);
    ExecConcat(s, Arrival(0, report), [ThreadMoves(0), ThreadMoves(0)], maxRetries);
  }

  /** Another result arrives and ends the task before the call's last transition. */
  lemma RefusedByAnotherCall(report: Report, other: Report, maxRetries: int)
    ensures var s := Exec(Start(), Attempt() + StartAfterCancel(report), maxRetries);
      var s' := Exec(s, Arrival(1, other) + [ThreadMoves(1), ThreadMoves(1), ThreadMoves(0)], maxRetries);
      && s.status == PROCESSING && s.threads == map[0 := Concluding(report)]
      && s'.status == Target(other) && s'.winner == Some(Thread(1)) && s'.threads == map[0 := Done, 1 := Writing(other)]
  {
    var s1 := Start().(status := DISPATCHED, chain := TimerRunning, calls := 1, started := 1, changes := 1);
    AttemptRuns(Start(), maxRetries);
    StartAfterCancelRuns(s1, report, maxRetries);
    ExecConcat(Start(), Attempt(), StartAfterCancel(report), maxRetries);
    OvertakenRuns(Exec(s1, StartAfterCancel(report), maxRetries), report, other, maxRetries);
  }

  lemma OvertakenRuns(s: Fine, report: Report, other: Report, maxRetries: int)
    requires s.status == PROCESSING && s.chain == Gone && s.threads == map[0 := Concluding(report)]
    ensures var s' := Exec(s, Arrival(1, other) + [ThreadMoves(1), ThreadMoves(1), ThreadMoves(0)], maxRetries);
      s'.status == Target(other) && s'.winner == Some(Thread(1)) && s'.threads == map[0 := Done, 1 := Writing(other)]
  {
    var s1 := s.(threads := map[0 := Concluding(report), 1 := Comparing(other)]);
    ArrivalRuns(s, 1, other, maxRetries);
    assert s1 == AtPoint(s, 1, Comparing(other));
    ExecThree(s1, ThreadMoves(1), ThreadMoves(1), ThreadMoves(0), maxRetries);
    ExecConcat(s, Arrival(1, other), [ThreadMoves(1), ThreadMoves(1), ThreadMoves(0)], maxRetries);
  }
}
