/** In the composed system every unfinished task whose handler returns can still complete. */
module GridProgress {
  import opened Protocol
  import opened StateMachine
  import opened DispatcherSpec
  import opened DispatcherRecords
  import Runs = DispatcherRuns
  import opened DispatcherProgress
  import opened WorkerSide
  import opened Grid
  import opened GridCalls
  import Names = RegistrySpec

  /** The move that makes the dispatcher take one of its own steps. */
  function MoveFor(e: Stamped, answer: Answer): Timed {
    Timed(e.now, 0.0, if e.event.LookupAnswered? then LookupDelivered(e.event.slot, answer) else Dispatcher(e.event))
  }

  function MovesFor(es: seq<Stamped>, answer: Answer): seq<Timed> {
    if es == [] then [] else [MoveFor(es[0], answer)] + MovesFor(es[1..], answer)
  }

  lemma EvolveCons(c: Config, w: World, t: Timed, rest: seq<Timed>)
    ensures Evolve(c, w, [t] + rest) == Evolve(c, WorldStep(c, w, t), rest)
  {
    assert ([t] + rest)[1..] == rest;
  }

  lemma OneOwnMove(c: Config, w: World, e: Stamped, id: nat, answer: Answer)
    requires id in w.sys.store && w.sys.store[id].taskType == answer.taskType && answer in w.answers
    requires Own(w.sys, e.event, id, answer.workers)
    ensures var w' := WorldStep(c, w, MoveFor(e, answer));
      w'.sys == Step(w.sys, e) && w'.answers == w.answers
  {
  }

  /** The composed system can follow the dispatcher's own run. */
  lemma {:induction false} OwnRunIsPossible(c: Config, w: World, es: seq<Stamped>, id: nat, answer: Answer)
    requires WorldOk(c, w) && id in w.sys.store && w.sys.store[id].taskType == answer.taskType && answer in w.answers
    requires OwnRun(w.sys, es, id, answer.workers)
    ensures Evolve(c, w, MovesFor(es, answer)).sys == Exec(w.sys, es)
    decreases |es|
  {
    if es != [] {
      var t := MoveFor(es[0], answer);
      OneOwnMove(c, w, es[0], id, answer);
      TypesStay(w.sys, es[0], id);
      assert RequestFor(Step(w.sys, es[0]), id).taskType == answer.taskType;
      WorldStepKeeps(c, w, t);
      OwnRunIsPossible(c, WorldStep(c, w, t), es[1..], id, answer);
      EvolveCons(c, w, t, MovesFor(es[1..], answer));
    }
  }

  /** A worker for just this type registers. */
  function Helper(taskType: string): Names.Registration {
    Names.Registration("helper", [taskType], "host", 50051, "", 0)
  }

  /** It registers and a lookup is answered. */
  function Offer(taskType: string, now: int): seq<Timed> {
    [Timed(now, 0.0, NamingService(Names.Registers(Helper(taskType))))] + [Timed(now, 0.0, LookupServed(taskType))]
  }

  lemma OfferIsAnswered(c: Config, w: World, taskType: string, now: int) returns (answer: Answer)
    requires WorldOk(c, w)
    ensures var w' := Evolve(c, w, Offer(taskType, now));
      w'.sys == w.sys && answer in w'.answers && answer.taskType == taskType && answer.workers != []
  {
    var t, u := Offer(taskType, now)[0], Offer(taskType, now)[1];
    var w1 := WorldStep(c, w, t);
    var found := Names.Lookup(w1.names, taskType);
    answer := Answer(taskType, Infos(found));
    EvolveCons(c, w, t, [u]);
    EvolveCons(c, w1, u, []);
    assert [u] + [] == [u];
    assert |found| > 0 by {
      HelperIsFound(w.names, taskType);
    }
  }

  lemma HelperIsFound(r: Names.Reg, taskType: string)
    ensures Names.Lookup(Names.Register(r, Helper(taskType), 0.0).0, taskType) != []
  {
    var p := Helper(taskType);
    var r' := Names.Register(r, p, 0.0).0;
    Names.NextEntry(p, r.idcount, 0, 0.0);
    var e := Names.NewEntry(p, r.idcount, taskType, 0.0);
    assert Names.NewEntries(p, r.idcount, 1, 0.0)[0] == e;
    assert e in r'.workers;
    Names.FilterIn(Names.Serves(taskType), r'.workers);
  }

  /** The helper executes the request, and its report is delivered. */
  function Report(q: Request, value: string, now: int): seq<Timed> {
    [Timed(now, 0.0, Executes(q, Executor("helper", [q.taskType], false), None, None))]
    + [Timed(now, 0.0, ResultDelivered(ResultMsg(q.taskId, "COMPLETED", value, "")))]
  }

  lemma RunningWasSent(s: Sys, id: nat)
    requires Unfinished(s, id) && IsRunning(s.store[id].status)
    ensures Attempted(s, id)
  {
    assert RecordOk(s.store[id], s.maxRetries);
  }

  lemma DeliveryCompletes(c: Config, w: World, id: nat, value: string, t: Timed)
    requires Unfinished(w.sys, id) && IsRunning(w.sys.store[id].status)
    requires t.move == ResultDelivered(ResultMsg(id, "COMPLETED", value, "")) && t.move.msg in w.results
    ensures GetResult(WorldStep(c, w, t).sys, id) == Found(COMPLETED, value)
  {
    ResultCompletes(w.sys, id, value, t.now);
    Runs.ExecCons(w.sys, At(t.now, ResultArrives(t.move.msg)), []);
    assert [At(t.now, ResultArrives(t.move.msg))] + [] == [At(t.now, ResultArrives(t.move.msg))];
    StepOfSys(c, w, t);
  }

  lemma RunningTaskCompletes(c: Config, w: World, id: nat, value: string, now: int)
    requires WorldOk(c, w) && RequestsSent(w) && Unfinished(w.sys, id) && IsRunning(w.sys.store[id].status)
    requires Computes(c.handlers, w.sys.store[id].taskType, w.sys.store[id].payload, value)
    ensures GetResult(Evolve(c, w, Report(RequestFor(w.sys, id), value, now)).sys, id) == Found(COMPLETED, value)
  {
    var q := RequestFor(w.sys, id);
    var t, u := Report(q, value, now)[0], Report(q, value, now)[1];
    var w1 := WorldStep(c, w, t);
    RunningWasSent(w.sys, id);
    HandledRequestIsReported(c, w, t, value);
    DeliveryCompletes(c, w1, id, value, u);
    EvolveCons(c, w, t, [u]);
    EvolveCons(c, w1, u, []);
    assert [u] + [] == [u];
  }

  /** An unfinished task can be brought to a worker. */
  lemma CanBeSent(c: Config, w: World, id: nat, now: int) returns (more: seq<Timed>)
    requires WorldOk(c, w) && Unfinished(w.sys, id)
    ensures var s := Evolve(c, w, more).sys;
      && id in s.store && s.store[id].taskType == w.sys.store[id].taskType
      && s.store[id].payload == w.sys.store[id].payload
      && Unfinished(s, id) && IsRunning(s.store[id].status)
  {
    var offer := Offer(w.sys.store[id].taskType, now);
    var answer := OfferIsAnswered(c, w, w.sys.store[id].taskType, now);
    var w1 := Evolve(c, w, offer);
    EvolveKeeps(c, w, offer);
    var es := CanRun(w1.sys, id, answer.workers, now);
    OwnRunIsPossible(c, w1, es, id, answer);
    more := offer + MovesFor(es, answer);
    EvolveConcat(c, w, offer, MovesFor(es, answer));
    TaskStays(c, w, more, id);
  }

  /** Whatever happened before (results lost, calls failed, workers gone, retries used): as
      long as a task has not ended, and its handler returns a value for it, there is a way
      to go on after which GetResult answers COMPLETED with that value. */
  lemma EveryTaskCanComplete(c: Config, before: seq<Timed>, id: nat, value: string, now: int)
    requires var s := Reached(c, before).sys;
      && id in s.store && !IsTerminal(s.store[id])
      && Computes(c.handlers, s.store[id].taskType, s.store[id].payload, value)
    ensures exists more :: GetResult(Reached(c, before + more).sys, id) == Found(COMPLETED, value)
  {
    ReachedSends(c, before);
    var sent, report := UnfinishedTaskCompletes(c, Reached(c, before), id, value, now);
    CompletesAfterwards(c, before, sent, report, id, value);
  }

  lemma ReachedSends(c: Config, before: seq<Timed>)
    ensures WorldOk(c, Reached(c, before)) && RequestsSent(Reached(c, before))
  {
    ReachedIsOk(c, []);
    ReachedIsOk(c, before);
    EvolveKeepsRequests(c, Start(c), before);
  }

  lemma UnfinishedTaskCompletes(c: Config, w: World, id: nat, value: string, now: int)
    returns (sent: seq<Timed>, report: seq<Timed>)
    requires WorldOk(c, w) && RequestsSent(w) && id in w.sys.store && !IsTerminal(w.sys.store[id])
    requires Computes(c.handlers, w.sys.store[id].taskType, w.sys.store[id].payload, value)
    ensures GetResult(Evolve(c, Evolve(c, w, sent), report).sys, id) == Found(COMPLETED, value)
  {
    sent := CanBeSent(c, w, id, now);
    EvolveKeeps(c, w, sent);
    EvolveKeepsRequests(c, w, sent);
    var w1 := Evolve(c, w, sent);
    report := Report(RequestFor(w1.sys, id), value, now);
    RunningTaskCompletes(c, w1, id, value, now);
  }

  lemma CompletesAfterwards(c: Config, before: seq<Timed>, sent: seq<Timed>, report: seq<Timed>, id: nat,
        value: string)
    requires GetResult(Evolve(c, Evolve(c, Reached(c, before), sent), report).sys, id) == Found(COMPLETED, value)
    ensures exists more :: GetResult(Reached(c, before + more).sys, id) == Found(COMPLETED, value)
  {
    EvolveConcat(c, Reached(c, before), sent, report);
    EvolveConcat(c, Start(c), before, sent + report);
    assert GetResult(Reached(c, before + (sent + report)).sys, id) == Found(COMPLETED, value);
  }
}
