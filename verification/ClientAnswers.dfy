/** What a client is told, from the events of the run: which requests are refused and why,
    and what GetResult answers before and after the end of a task. */
module ClientAnswers {
  import opened Protocol
  import opened StateMachine
  import opened DispatcherSpec
  import opened DispatcherRecords
  import opened DispatcherRuns
  import opened DispatcherFlow
  import opened DispatcherTimes
  import Monitoring

  /** The event ends the task with this status and text: it is a result for it, COMPLETED
      with the result it carries or FAILED with the error, or it is the rejection of a call
      about the task or the expiry of its timer, FAILED without a text. */
  predicate EndsWith(s: Sys, e: Event, id: nat, status: TaskState, text: string) {
    match e
    case ResultArrives(msg) =>
      && msg.taskId == id
      && if msg.status == "COMPLETED" then status == COMPLETED && text == msg.result
         else status == FAILED && text == msg.error
    case CallReturns(_, _) => RejectsCall(s, e, id) && status == FAILED && text == ""
    case TimeoutExpires(_) => Expires(s, e, id) && status == FAILED && text == ""
    case _ => false
  }

  lemma EndingStep(s: Sys, e: Stamped, id: nat)
    requires Inv(s) && id in s.store && !IsTerminal(s.store[id])
    requires id in Step(s, e).store && IsTerminal(Step(s, e).store[id])
    ensures EndsWith(s, e.event, id, Step(s, e).store[id].status, Step(s, e).store[id].result)
  {
    HowTasksEnd(s, e, id);
  }

  /** The ids in use after a run are those of the requests accepted in it. */
  lemma IdsInUse(maxRetries: int, es: seq<Stamped>, id: nat)
    ensures id in Run(maxRetries, es).store <==> 1 <= id <= Monitoring.Accepts(es)
  {
    RunKeeps(maxRetries, es);
    InitOk(maxRetries);
    Monitoring.AcceptedAreStored(Init(maxRetries), es);
  }

  /** GetResult after any run. Exactly the ids of accepted requests are found. A task that
      has not ended is answered with the last status of its history and no text; one that
      has with the status and text of the event that ended it. */
  lemma AnswerComesFromTheRun(maxRetries: int, es: seq<Stamped>, id: nat)
    ensures var answer := GetResult(Run(maxRetries, es), id);
      && (answer == NotFound <==> !(1 <= id <= Monitoring.Accepts(es)))
      && (answer.Found? ==>
            && id in Run(maxRetries, es).store
            && var path := Run(maxRetries, es).store[id].path;
               path != [] && var last := path[|path| - 1];
               && (!IsTerminalState(last) ==> answer == Found(last, ""))
               && (IsTerminalState(last) ==>
                     exists k: nat :: EndsAt(maxRetries, es, k, id)
                       && EndsWith(Upto(maxRetries, es, k), es[k].event, id, answer.status, answer.result)))
  {
    var s := Run(maxRetries, es);
    IdsInUse(maxRetries, es, id);
    RunKeeps(maxRetries, es);
    if id in s.store {
      assert RecordOk(s.store[id], maxRetries);
      if IsTerminal(s.store[id]) {
        var k := EndOf(maxRetries, es, id);
        RunKeeps(maxRetries, es[..k]);
        NextState(maxRetries, es, k);
        EndingStep(Upto(maxRetries, es, k), es[k], id);
      }
    }
  }

  lemma AfterEvent(maxRetries: int, before: seq<Stamped>, e: Stamped, later: seq<Stamped>)
    ensures Run(maxRetries, before + [e] + later) == Exec(Step(Run(maxRetries, before), e), later)
  {
    assert before + [e] + later == before + ([e] + later);
    ExecConcat(Init(maxRetries), before, [e] + later);
    ExecCons(Run(maxRetries, before), e, later);
  }

  /** A task that ends in this step is answered the same ever after. */
  lemma EndIsAnswered(maxRetries: int, before: seq<Stamped>, e: Stamped, later: seq<Stamped>, id: nat)
    requires var s := Run(maxRetries, before);
      id in s.store && !IsTerminal(s.store[id]) && id in Step(s, e).store && IsTerminal(Step(s, e).store[id])
    ensures var answer := GetResult(Run(maxRetries, before + [e] + later), id);
      answer.Found? && EndsWith(Run(maxRetries, before), e.event, id, answer.status, answer.result)
  {
    var s := Run(maxRetries, before);
    RunKeeps(maxRetries, before);
    StepKeeps(s, e);
    AfterEvent(maxRetries, before, e, later);
    TasksPersist(Step(s, e), later, id);
    EndingStep(s, e, id);
  }

  /** What ReturnResult acknowledges as stored is what GetResult answers from then on,
      whatever happens next: the result of a COMPLETED message, the error of any other. */
  lemma StoredResultIsAnswered(maxRetries: int, before: seq<Stamped>, msg: ResultMsg, now: int, later: seq<Stamped>)
    requires ReturnResult(Run(maxRetries, before), msg, now).1 == Stored
    ensures GetResult(Run(maxRetries, before + [At(now, ResultArrives(msg))] + later), msg.taskId)
         == if msg.status == "COMPLETED" then Found(COMPLETED, msg.result) else Found(FAILED, msg.error)
  {
    RunKeeps(maxRetries, before);
    AnswersAreTrue(Run(maxRetries, before), msg, now);
    EndIsAnswered(maxRetries, before, At(now, ResultArrives(msg)), later, msg.taskId);
  }
}
