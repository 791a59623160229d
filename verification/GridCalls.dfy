/** Where calls go in the composed system, and that every request of a task that was sent is
    in transit and can be executed. */
module GridCalls {
  import opened Protocol
  import opened StateMachine
  import opened RoundRobin
  import opened DispatcherSpec
  import opened DispatcherCustody
  import opened DispatcherRecords
  import Flow = DispatcherFlow
  import Runs = DispatcherRuns
  import opened WorkerSide
  import opened Grid
  import Names = RegistrySpec
  import NameRuns = RegistryRuns

  // ---------- Calls go to registered workers ----------

  /** The move registers a worker with this id and address for the type. */
  predicate Registers(m: Move, taskType: string, workerId: string, address: string, port: int) {
    && m.NamingService? && m.event'.Registers?
    && var p := m.event'.p;
       && p.workerId == workerId && workerId != "" && p.address == address && p.port == port
       && taskType in if p.taskTypes == [] then ["unknown"] else p.taskTypes
  }

  /** Some move of the run does. */
  ghost predicate WasRegistered(ts: seq<Timed>, taskType: string, workerId: string, address: string, port: int) {
    exists t :: t in ts && Registers(t.move, taskType, workerId, address, port)
  }

  ghost predicate EntriesRegistered(r: Names.Reg, ts: seq<Timed>) {
    forall e :: e in r.workers ==> WasRegistered(ts, e.taskType, e.workerId, e.address, e.port)
  }

  ghost predicate InfosRegistered(infos: seq<WorkerInfo>, taskType: string, ts: seq<Timed>) {
    forall i :: i in infos ==> WasRegistered(ts, taskType, i.workerId, i.address, i.port)
  }

  ghost predicate CallRegistered(s: Sys, call: Rpc, ts: seq<Timed>) {
    && call.taskId in s.store
    && WasRegistered(ts, s.store[call.taskId].taskType, call.worker.workerId, call.worker.address, call.worker.port)
  }

  ghost predicate CallsOk(w: World, ts: seq<Timed>) {
    && EntriesRegistered(w.names, ts)
    && (forall a :: a in w.answers ==> InfosRegistered(a.workers, a.taskType, ts))
    && (forall call :: call in w.sys.rpcs ==> CallRegistered(w.sys, call, ts))
  }

  lemma NamesStayRegistered(r: Names.Reg, s: Names.Stamped, x: int, y: int, t: Timed, ts: seq<Timed>)
    requires NameRuns.NumbersOk(r) && EntriesRegistered(r, ts)
    requires t in ts && t.move == NamingService(s.event)
    ensures EntriesRegistered(Names.Step(r, s, x, y), ts)
  {
    NameRuns.StepEntries(r, s, x, y);
    forall e | e in Names.Step(r, s, x, y).workers
      ensures WasRegistered(ts, e.taskType, e.workerId, e.address, e.port)
    {
      if e in NameRuns.Added(r, s) {
        NameRuns.AddedIsMade(r, s, e);
        assert Registers(t.move, e.taskType, e.workerId, e.address, e.port);
      } else {
        var d :| d in r.workers && NameRuns.Next(r, s, x, y, d) == Some(e);
        NameRuns.NextKeepsOrigin(r, s, x, y, d, e);
      }
    }
  }

  lemma AnswerIsRegistered(r: Names.Reg, taskType: string, ts: seq<Timed>)
    requires EntriesRegistered(r, ts)
    ensures InfosRegistered(Infos(Names.Lookup(r, taskType)), taskType, ts)
  {
    var found := Names.Lookup(r, taskType);
    Names.FilterIn(Names.Serves(taskType), r.workers);
    forall i | i in Infos(found)
      ensures WasRegistered(ts, taskType, i.workerId, i.address, i.port)
    {
      var k :| 0 <= k < |found| && Infos(found)[k] == i;
      assert found[k] in found;
    }
  }

  lemma DispatchCallsAnswer(s: Sys, k: nat, workers: seq<WorkerInfo>, now: int, call: Rpc)
    requires k < |s.executing| && s.executing[k] in s.store && call in Dispatch(s, k, workers, now).rpcs
    ensures call in s.rpcs || (call.taskId == s.executing[k] && call.worker in workers)
  {
  }

  lemma OnlyLookupsCall(s: Sys, e: Stamped, call: Rpc)
    requires call in Step(s, e).rpcs && !e.event.LookupAnswered?
    ensures call in s.rpcs
  {
    match e.event
    case CallReturns(k, outcome) =>
      if k < |s.rpcs| && s.rpcs[k].taskId in s.store { CallRemoves(s, k, outcome, e.now); }
    case _ =>
  }

  lemma TypesStay(s: Sys, e: Stamped, id: nat)
    requires StoreOk(s) && id in s.store
    ensures id in Step(s, e).store && RequestFor(Step(s, e), id) == RequestFor(s, id)
    ensures s.store[id].attempts <= Step(s, e).store[id].attempts
  {
    StepKeepsTask(s, e, id);
    StepMovesTask(s, e, id);
    TaskStepFrame(s.store[id], Step(s, e).store[id], e.now, s.maxRetries);
    assert Step(s, e).store[id].taskType == s.store[id].taskType;
  }

  lemma EventKeepsCalls(c: Config, w: World, m: Move, now: int, ts: seq<Timed>, call: Rpc)
    requires WorldOk(c, w) && CallsOk(w, ts) && EventOf(w, m).Some?
    requires call in Step(w.sys, At(now, EventOf(w, m).value)).rpcs
    ensures CallRegistered(Step(w.sys, At(now, EventOf(w, m).value)), call, ts)
  {
    var e := At(now, EventOf(w, m).value);
    if call !in w.sys.rpcs {
      if e.event.LookupAnswered? {
        DispatchCallsAnswer(w.sys, e.event.slot, e.event.workers, now, call);
        assert m.LookupDelivered? && InfosRegistered(m.answer.workers, m.answer.taskType, ts);
      } else {
        OnlyLookupsCall(w.sys, e, call);
      }
    }
    TypesStay(w.sys, e, call.taskId);
  }

  lemma StepKeepsCallsOk(c: Config, w: World, t: Timed, ts: seq<Timed>)
    requires WorldOk(c, w) && CallsOk(w, ts) && t in ts
    ensures CallsOk(WorldStep(c, w, t), ts)
  {
    match t.move
    case NamingService(e) => NamesStayRegistered(w.names, Names.At(t.time, e), c.x, c.y, t, ts);
    case LookupServed(taskType) => AnswerIsRegistered(w.names, taskType, ts);
    case Executes(_, _, _, _) =>
    case _ =>
      if EventOf(w, t.move).Some? {
        forall call | call in WorldStep(c, w, t).sys.rpcs
          ensures CallRegistered(WorldStep(c, w, t).sys, call, ts)
        {
          EventKeepsCalls(c, w, t.move, t.now, ts, call);
        }
      }
  }

  lemma {:induction false} EvolveKeepsCallsOk(c: Config, w: World, ts: seq<Timed>, all: seq<Timed>)
    requires WorldOk(c, w) && CallsOk(w, all) && forall t :: t in ts ==> t in all
    ensures CallsOk(Evolve(c, w, ts), all)
    decreases |ts|
  {
    if ts != [] {
      assert ts[0] in ts;
      StepKeepsCallsOk(c, w, ts[0], all);
      WorldStepKeeps(c, w, ts[0]);
      EvolveKeepsCallsOk(c, WorldStep(c, w, ts[0]), ts[1..], all);
    }
  }

  /** Every outstanding ExecuteTask call goes to the id, address and port of a worker that
      was registered in the run for the type of the task. */
  lemma CallsGoToRegisteredWorkers(c: Config, ts: seq<Timed>, call: Rpc)
    requires call in Reached(c, ts).sys.rpcs
    ensures var s := Reached(c, ts).sys;
      && call.taskId in s.store
      && WasRegistered(ts, s.store[call.taskId].taskType, call.worker.workerId, call.worker.address, call.worker.port)
  {
    Runs.InitOk(c.maxRetries);
    EvolveKeepsCallsOk(c, Start(c), ts, ts);
    assert CallRegistered(Reached(c, ts).sys, call, ts);
  }

  // ---------- Requests are executed ----------

  /** A request for which a worker lists the type and has a handler that returns puts the
      handler's value on its way to the dispatcher, if the worker is not draining. */
  lemma HandledRequestIsReported(c: Config, w: World, t: Timed, value: string)
    requires t.move.Executes? && t.move.q in w.requests && !t.move.who.draining
    requires t.move.q.taskType in t.move.who.taskTypes
    requires Computes(c.handlers, t.move.q.taskType, t.move.q.payload, value)
    ensures var w' := WorldStep(c, w, t);
      w'.sys == w.sys && ResultMsg(t.move.q.taskId, "COMPLETED", value, "") in w'.results
  {
    var q, who := t.move.q, t.move.who;
    ExecutionByCases(who.workerId, who.taskTypes, c.handlers, who.draining, q, t.move.first, t.move.second);
    var sent := Execution(who.workerId, who.taskTypes, c.handlers, who.draining, q, t.move.first, t.move.second).0;
    assert sent[0] in sent;
  }

  /** The request of every task that was ever sent to a worker is in transit. */
  ghost predicate RequestsSent(w: World) {
    forall id :: Attempted(w.sys, id) ==> RequestFor(w.sys, id) in w.requests
  }

  lemma AdvanceSends(c: Config, w: World, now: int, e: Event, id: nat)
    requires WorldOk(c, w) && RequestsSent(w) && Attempted(Advance(w, now, e).sys, id)
    ensures RequestFor(Advance(w, now, e).sys, id) in Advance(w, now, e).requests
  {
    var step := At(now, e);
    if Attempted(w.sys, id) {
      TypesStay(w.sys, step, id);
    } else {
      Flow.AttemptGoesToTheChosen(w.sys, step, id);
      var s' := Step(w.sys, step);
      assert s'.rpcs[|s'.rpcs| - 1] in s'.rpcs;
    }
  }

  lemma StepKeepsRequests(c: Config, w: World, t: Timed)
    requires WorldOk(c, w) && RequestsSent(w)
    ensures RequestsSent(WorldStep(c, w, t))
  {
    if !t.move.NamingService? && !t.move.LookupServed? && !t.move.Executes? && EventOf(w, t.move).Some? {
      forall id | Attempted(WorldStep(c, w, t).sys, id)
        ensures RequestFor(WorldStep(c, w, t).sys, id) in WorldStep(c, w, t).requests
      {
        AdvanceSends(c, w, t.now, EventOf(w, t.move).value, id);
      }
    }
  }

  lemma {:induction false} EvolveKeepsRequests(c: Config, w: World, ts: seq<Timed>)
    requires WorldOk(c, w) && RequestsSent(w)
    ensures RequestsSent(Evolve(c, w, ts))
    decreases |ts|
  {
    if ts != [] {
      WorldStepKeeps(c, w, ts[0]);
      StepKeepsRequests(c, w, ts[0]);
      EvolveKeepsRequests(c, WorldStep(c, w, ts[0]), ts[1..]);
    }
  }
}
