/** The worker's side of an attempt: looking up and calling the handler, reporting the
    result and answering the dispatcher's call. */
module WorkerSide {
  import opened Protocol
  import opened DispatcherSpec

  /** What a handler does: it returns a value or raises. */
  datatype Attempt = Value(result: string) | Raised(error: string)

  type Handlers = map<string, string -> Attempt>

  datatype Request = Request(taskId: nat, taskType: string, payload: string)

  /** The answer to ExecuteTask; Crashed is an exception that leaves the method. */
  datatype Reply = Executed | Draining | Failed(error: string) | Crashed

  function Digits(n: nat): string {
    if n < 10 then [('0' as int + n) as char] else Digits(n / 10) + [('0' as int + n % 10) as char]
  }

  function ProcessTask(workerId: string, taskTypes: seq<string>, handlers: Handlers, q: Request): Attempt {
    if q.taskType !in taskTypes then
      Raised("Tasktyp '" + q.taskType + "' wird von Worker " + workerId + " nicht unterst\U{00FC}tzt")
    else if q.taskType !in handlers then
      Raised("Kein Handler f\U{00FC}r Tasktyp '" + q.taskType + "' implementiert")
    else
      match handlers[q.taskType](q.payload)
      case Value(result) => Value(result)
      case Raised(error) => Raised("Interner Fehler bei task_id=" + Digits(q.taskId) + ": " + error)
  }

  function ErrorText(workerId: string, q: Request, error: string): string {
    "task_id=" + Digits(q.taskId) + " worker_id=" + workerId + " error='" + error + "'"
  }

  /** The two messages an execution may send; the second after anything has raised. */
  function Success(q: Request, result: string): ResultMsg {
    ResultMsg(q.taskId, "COMPLETED", result, "")
  }

  function Failure(workerId: string, q: Request, error: string): ResultMsg {
    ResultMsg(q.taskId, "FAILED", "", ErrorText(workerId, q, error))
  }

  /** What one execution sends and answers. `first` and `second` say whether and with what
      text the network makes the sending of the success and of the failure message raise;
      a message whose sending raised may have arrived all the same. */
  function Execution(workerId: string, taskTypes: seq<string>, handlers: Handlers, draining: bool, q: Request,
                     first: Option<string>, second: Option<string>): (seq<ResultMsg>, Reply)
  {
    if draining then ([], Draining)
    else
      var attempt := ProcessTask(workerId, taskTypes, handlers, q);
      if attempt.Value? && first.None? then ([Success(q, attempt.result)], Executed)
      else
        var error := if attempt.Value? then first.value else attempt.error;
        var failure := Failure(workerId, q, error);
        ((if attempt.Value? then [Success(q, attempt.result)] else []) + [failure],
         if second.None? then Failed(failure.error) else Crashed)
  }

  /** What WorkerClient.dispatch_task makes of the answer. */
  function OutcomeOf(reply: Reply): Outcome {
    match reply
    case Executed => Accepted
    case Draining => Rejected
    case Failed(_) => Rejected
    case Crashed => GrpcError
  }

  /** The handler's own verdict on a request, whichever worker it reaches. */
  predicate Computes(handlers: Handlers, taskType: string, payload: string, result: string) {
    taskType in handlers && handlers[taskType](payload) == Value(result)
  }

  datatype Segment =
    | Arrives(q: Request)
    | Handles(ticket: nat, first: Option<string>)
    | Reports(ticket: nat, second: Option<string>)
    | Signal

  /** The requests that come in. */
  function Arrivals(segments: seq<Segment>): set<Request> {
    set i | 0 <= i < |segments| && segments[i].Arrives? :: segments[i].q
  }

  lemma ArrivalIn(segments: seq<Segment>, i: nat)
    requires i < |segments|
    ensures segments[i].Arrives? ==> segments[i].q in Arrivals(segments)
  {
  }

  ghost predicate HonestMessage(m: ResultMsg, arrived: set<Request>, taskTypes: seq<string>, handlers: Handlers) {
    exists q :: q in arrived && q.taskId == m.taskId
      && (m.status == "COMPLETED" ==> q.taskType in taskTypes && Computes(handlers, q.taskType, q.payload, m.result))
  }

  /** Where an execution stands: its handler is at work, or something has raised and the
      failure is about to be reported. */
  datatype Stage = Handling(q: Request) | Reporting(q: Request, error: string)

  class WorkerService {
    const workerId: string
    const taskTypes: seq<string>
    const handlers: Handlers
    var currentLoad: int
    var isDraining: bool
    /** The messages handed to the network. */
    var outbox: seq<ResultMsg>
    /** The executions under way, one per server thread. */
    var running: map<nat, Stage>
    var nextTicket: nat

    /** The load is the number of executions under way, whatever they overlap with. */
    ghost predicate Valid()
      reads this
    {
      currentLoad == |running| && forall k :: k in running ==> k < nextTicket
    }

    constructor (workerId: string, taskTypes: seq<string>, handlers: Handlers)
      ensures this.workerId == workerId && this.taskTypes == taskTypes && this.handlers == handlers
      ensures Valid() && currentLoad == 0 && !isDraining && outbox == [] && running == map[]
    {
      this.workerId := workerId;
      this.taskTypes := taskTypes;
      this.handlers := handlers;
      currentLoad := 0;
      isDraining := false;
      outbox := [];
      running := map[];
      nextTicket := 0;
    }

    method Drain()
      requires Valid()
      modifies this`isDraining
      ensures Valid() && isDraining
    {
      isDraining := true;
    }

    /** send_result_to_dispatcher; true unless the call raises. */
    method SendResult(msg: ResultMsg, failure: Option<string>) returns (sent: bool)
      modifies this`outbox
      ensures outbox == old(outbox) + [msg] && sent == failure.None?
    {
      outbox := outbox + [msg];
      sent := failure.None?;
    }

    /** A request comes in: refused while draining, else it counts as load. */
    method Begin(q: Request) returns (ticket: Option<nat>)
      requires Valid()
      modifies this`currentLoad, this`running, this`nextTicket
      ensures Valid()
      ensures isDraining ==> ticket == None && running == old(running) && currentLoad == old(currentLoad)
      ensures !isDraining ==>
        && ticket.Some? && ticket.value !in old(running)
        && running == old(running)[ticket.value := Handling(q)] && currentLoad == old(currentLoad) + 1
    {
      if isDraining {
        return None;
      }
      currentLoad := currentLoad + 1;
      running := running[nextTicket := Handling(q)];
      ticket := Some(nextTicket);
      nextTicket := nextTicket + 1;
    }

    /** An execution is over. */
    method End(ticket: nat)
      requires Valid() && ticket in running
      modifies this`currentLoad, this`running
      ensures Valid() && running == old(running) - {ticket} && currentLoad == old(currentLoad) - 1
    {
      assert |running - {ticket}| == |running| - 1 by {
        assert (running - {ticket}).Keys == running.Keys - {ticket};
      }
      running := running - {ticket};
      currentLoad := currentLoad - 1;
    }

    /** The handler is done and its result is sent; the answer is Executed if that worked. */
    method Handle(ticket: nat, first: Option<string>) returns (done: bool)
      requires Valid() && ticket in running && running[ticket].Handling?
      modifies this`currentLoad, this`running, this`outbox
      ensures Valid()
      ensures
        var q := old(running)[ticket].q;
        var attempt := ProcessTask(workerId, taskTypes, handlers, q);
        && done == (attempt.Value? && first.None?)
        && outbox == old(outbox) + (if attempt.Value? then [Success(q, attempt.result)] else [])
        && currentLoad == (if done then old(currentLoad) - 1 else old(currentLoad))
        && running == if done then old(running) - {ticket}
                      else old(running)[ticket := Reporting(q, if attempt.Value? then first.value else attempt.error)]
    {
      var q := running[ticket].q;
      var attempt := ProcessTask(workerId, taskTypes, handlers, q);
      if attempt.Raised? {
        running := running[ticket := Reporting(q, attempt.error)];
        return false;
      }
      done := SendResult(Success(q, attempt.result), first);
      if done {
        End(ticket);
      } else {
        running := running[ticket := Reporting(q, first.value)];
      }
    }

    /** The failure is reported; if that raises as well, the exception leaves the method. */
    method ReportFailure(ticket: nat, second: Option<string>) returns (reply: Reply)
      requires Valid() && ticket in running && running[ticket].Reporting?
      modifies this`currentLoad, this`running, this`outbox
      ensures Valid() && running == old(running) - {ticket} && currentLoad == old(currentLoad) - 1
      ensures
        var failure := Failure(workerId, old(running)[ticket].q, old(running)[ticket].error);
        outbox == old(outbox) + [failure] && reply == if second.None? then Failed(failure.error) else Crashed
    {
      var failure := Failure(workerId, running[ticket].q, running[ticket].error);
      var sent := SendResult(failure, second);
      End(ticket);
      reply := if sent then Failed(failure.error) else Crashed;
    }

    /** One call from beginning to end with no other in between. */
    method ExecuteTask(q: Request, first: Option<string>, second: Option<string>) returns (reply: Reply)
      requires Valid()
      modifies this`currentLoad, this`running, this`nextTicket, this`outbox
      ensures Valid() && currentLoad == old(currentLoad) && running == old(running)
      ensures
        var (sent, answer) := Execution(workerId, taskTypes, handlers, isDraining, q, first, second);
        outbox == old(outbox) + sent && reply == answer
      ensures forall v ::
        !isDraining && first == None && q.taskType in taskTypes && Computes(handlers, q.taskType, q.payload, v) ==>
          outbox == old(outbox) + [ResultMsg(q.taskId, "COMPLETED", v, "")] && reply == Executed
    {
      ExecutionByCases(workerId, taskTypes, handlers, isDraining, q, first, second);
      var ticket := Begin(q);
      if ticket.None? {
        return Draining;
      }
      var done := Handle(ticket.value, first);
      if done {
        reply := Executed;
      } else {
        reply := ReportFailure(ticket.value, second);
      }
    }

    /** Everything sent or under way belongs to a request that came in, and a COMPLETED
        message carries what the handler returns for it. */
    ghost predicate Honest(arrived: set<Request>)
      reads this
    {
      && (forall k :: k in running ==> running[k].q in arrived)
      && (forall m :: m in outbox ==> HonestMessage(m, arrived, taskTypes, handlers))
    }

    /** One segment of some server thread, or the shutdown signal; one that refers to no
        execution in the right stage does nothing. */
    method Perform(m: Segment, ghost arrived: set<Request>)
      requires Valid() && Honest(arrived) && (m.Arrives? ==> m.q in arrived)
      modifies this
      ensures Valid() && Honest(arrived)
    {
      match m
      case Arrives(q) => var _ := Begin(q);
      case Handles(ticket, first) =>
        if ticket in running && running[ticket].Handling? {
          var _ := Handle(ticket, first);
        }
      case Reports(ticket, second) =>
        if ticket in running && running[ticket].Reporting? {
          var _ := ReportFailure(ticket, second);
        }
      case Signal => Drain();
    }

    /** Any overlapping of executions, from the start: the load is always their number, and
        no overlapping makes a worker report COMPLETED for anything but a request it was
        sent, with anything but its handler's value. */
    method Serve(segments: seq<Segment>)
      requires Valid() && running == map[] && outbox == []
      modifies this
      ensures Valid()
      ensures forall m :: m in outbox ==> HonestMessage(m, Arrivals(segments), taskTypes, handlers)
    {
      ghost var arrived := Arrivals(segments);
      for i := 0 to |segments|
        invariant Valid() && Honest(arrived)
      {
        ArrivalIn(segments, i);
        Perform(segments[i], arrived);
      }
    }
  }

  /** The number a decimal text stands for. */
  function Numeral(s: string): int {
    if s == "" then 0 else 10 * Numeral(s[..|s| - 1]) + (s[|s| - 1] as int - '0' as int)
  }

  /** str(n): the digits stand for n and have no leading zero. */
  lemma {:induction false} DigitsAreDecimal(n: nat)
    ensures Numeral(Digits(n)) == n
    ensures Digits(n) != "" && (n > 0 ==> Digits(n)[0] != '0')
    ensures forall i :: 0 <= i < |Digits(n)| ==> '0' <= Digits(n)[i] <= '9'
  {
    if n >= 10 {
      DigitsAreDecimal(n / 10);
      assert Digits(n)[..|Digits(n)| - 1] == Digits(n / 10);
    } else {
      assert Digits(n)[..0] == "";
    }
  }

  /** The message that reports this cause as the failure of the request. */
  predicate ReportsCause(m: ResultMsg, workerId: string, q: Request, cause: string) {
    && m.taskId == q.taskId && m.status == "FAILED" && m.result == ""
    && m.error == "task_id=" + Digits(q.taskId) + " worker_id=" + workerId + " error='" + cause + "'"
  }

  /** What a worker that is not draining sends and answers, case by case. It reports the
      handler's value, and nothing else, for every type it lists whose handler returns and
      whose report is sent; a FAILED message, always the last one, goes out exactly if the
      type is not listed, has no handler, its handler raises or the first sending raised,
      and names that cause. A draining worker sends nothing. */
  lemma ExecutionByCases(workerId: string, taskTypes: seq<string>, handlers: Handlers, draining: bool, q: Request,
                         first: Option<string>, second: Option<string>)
    ensures var (sent, reply) := Execution(workerId, taskTypes, handlers, draining, q, first, second);
      var listed, handled := q.taskType in taskTypes, q.taskType in handlers;
      && (draining ==> sent == [] && reply == Draining)
      && (!draining ==>
            && (!listed ==>
                  |sent| == 1 && ReportsCause(sent[0], workerId, q,
                    "Tasktyp '" + q.taskType + "' wird von Worker " + workerId + " nicht unterst\U{00FC}tzt"))
            && (listed && !handled ==>
                  |sent| == 1 && ReportsCause(sent[0], workerId, q,
                    "Kein Handler f\U{00FC}r Tasktyp '" + q.taskType + "' implementiert"))
            && (listed && handled && handlers[q.taskType](q.payload).Raised? ==>
                  |sent| == 1 && ReportsCause(sent[0], workerId, q,
                    "Interner Fehler bei task_id=" + Digits(q.taskId) + ": " + handlers[q.taskType](q.payload).error))
            && (listed && handled && handlers[q.taskType](q.payload).Value? ==>
                  && sent != []
                  && sent[0] == ResultMsg(q.taskId, "COMPLETED", handlers[q.taskType](q.payload).result, "")
                  && (first == None ==> |sent| == 1)
                  && (first.Some? ==> |sent| == 2 && ReportsCause(sent[1], workerId, q, first.value)))
            && (reply == Executed <==>
                  listed && handled && handlers[q.taskType](q.payload).Value? && first == None)
            && (reply != Executed ==> reply == if second == None then Failed(sent[|sent| - 1].error) else Crashed))
  {
  }

  /** What the dispatcher makes of an execution: accepted exactly if the worker is not
      draining, lists the type, has a handler that returns and could send the report;
      rejected if it is draining or could at least send the failure; an error otherwise. */
  lemma OutcomeByCases(workerId: string, taskTypes: seq<string>, handlers: Handlers, draining: bool, q: Request,
                       first: Option<string>, second: Option<string>)
    ensures var outcome := OutcomeOf(Execution(workerId, taskTypes, handlers, draining, q, first, second).1);
      var done := !draining && q.taskType in taskTypes && first == None
        && exists v :: Computes(handlers, q.taskType, q.payload, v);
      && (outcome == Accepted <==> done)
      && (outcome == GrpcError <==> !draining && !done && second.Some?)
  {
    ExecutionByCases(workerId, taskTypes, handlers, draining, q, first, second);
    if q.taskType in handlers && handlers[q.taskType](q.payload).Value? {
      assert Computes(handlers, q.taskType, q.payload, handlers[q.taskType](q.payload).result);
    }
  }

  /** A worker reports COMPLETED only for the request it was sent and only with the value
      the handler returned; it is accepted only after such a report, and a worker that is
      draining or whose handler raises sends none. */
  lemma ReportsAreHonest(workerId: string, taskTypes: seq<string>, handlers: Handlers, draining: bool, q: Request,
                         first: Option<string>, second: Option<string>)
    ensures var (sent, reply) := Execution(workerId, taskTypes, handlers, draining, q, first, second);
      && (forall m :: m in sent ==> m.taskId == q.taskId && (m.status == "COMPLETED" || m.status == "FAILED"))
      && (forall m :: m in sent && m.status == "COMPLETED" ==>
            q.taskType in taskTypes && Computes(handlers, q.taskType, q.payload, m.result))
      && (OutcomeOf(reply) == Accepted <==> |sent| == 1 && sent[0].status == "COMPLETED")
      && (OutcomeOf(reply) == Rejected && !draining ==> exists m :: m in sent && m.status == "FAILED")
  {
    var (sent, reply) := Execution(workerId, taskTypes, handlers, draining, q, first, second);
    if !draining && reply != Executed {
      assert sent[|sent| - 1].status == "FAILED";
    }
  }
}
