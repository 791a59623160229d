/** The composed system: dispatcher, naming service and workers, joined by messages that may
    be delayed, reordered and delivered any number of times, and calls that may fail with
    any outcome. Every lookup answer ever given, every request ever sent to a worker and
    every result message ever handed to the network stays in transit. */
module Grid {
  import opened Protocol
  import opened StateMachine
  import opened RoundRobin
  import opened DispatcherSpec
  import opened DispatcherCustody
  import opened DispatcherRecords
  import Flow = DispatcherFlow
  import Runs = DispatcherRuns
  import Monitoring
  import opened WorkerSide
  import Names = RegistrySpec
  import NameRuns = RegistryRuns

  datatype Answer = Answer(taskType: string, workers: seq<WorkerInfo>)

  datatype World = World(
    sys: Sys,
    names: Names.Reg,
    answers: set<Answer>,
    requests: set<Request>,
    results: set<ResultMsg>)

  /** The handlers all workers share and the thresholds of the naming service. */
  datatype Config = Config(handlers: Handlers, maxRetries: int, x: int, y: int)

  /** The worker that executes a request, whatever its task types and state. */
  datatype Executor = Executor(workerId: string, taskTypes: seq<string>, draining: bool)

  datatype Move =
    | Dispatcher(event: Event)
    | NamingService(event': Names.Event)
    | LookupServed(taskType: string)
    | LookupDelivered(slot: nat, answer: Answer)
    | LookupFails(slot: nat)
    | Executes(q: Request, who: Executor, first: Option<string>, second: Option<string>)
    | ResultDelivered(msg: ResultMsg)

  /** A move with the readings of the dispatcher's clock and of the naming service's. */
  datatype Timed = Timed(now: int, time: real, move: Move)

  function Start(c: Config): World {
    World(DispatcherSpec.Init(c.maxRetries), Names.Init(), {}, {}, {})
  }

  /** NamensdienstClient.lookup_worker: what the dispatcher keeps of an answer. */
  function Infos(es: seq<Names.Entry>): seq<WorkerInfo> {
    seq(|es|, i requires 0 <= i < |es| => WorkerInfo(es[i].workerId, es[i].address, es[i].port, es[i].currentLoad))
  }

  function RequestFor(s: Sys, id: nat): Request
    requires id in s.store
  {
    Request(id, s.store[id].taskType, s.store[id].payload)
  }

  /** The dispatcher takes a step; every call that is outstanding has sent its request. */
  function Advance(w: World, now: int, e: Event): World {
    var s := Step(w.sys, At(now, e));
    w.(sys := s, requests := w.requests + set r | r in s.rpcs && r.taskId in s.store :: RequestFor(s, r.taskId))
  }

  predicate WantsAnswer(s: Sys, k: nat, taskType: string) {
    k < |s.executing| && s.executing[k] in s.store && s.store[s.executing[k]].taskType == taskType
  }

  function Sent(c: Config, m: Move): set<ResultMsg>
    requires m.Executes?
  {
    set x | x in Execution(m.who.workerId, m.who.taskTypes, c.handlers, m.who.draining, m.q, m.first, m.second).0
  }

  /** The event a move causes at the dispatcher, if any. */
  function EventOf(w: World, m: Move): Option<Event> {
    match m
    case Dispatcher(e) => if e.LookupAnswered? || e.ResultArrives? then None else Some(e)
    case LookupDelivered(k, answer) =>
      if answer in w.answers && WantsAnswer(w.sys, k, answer.taskType) then Some(LookupAnswered(k, answer.workers))
      else None
    case LookupFails(k) => Some(LookupAnswered(k, []))
    case ResultDelivered(msg) => if msg in w.results then Some(ResultArrives(msg)) else None
    case _ => None
  }

  function WorldStep(c: Config, w: World, t: Timed): World {
    match t.move
    case NamingService(e) => w.(names := Names.Step(w.names, Names.At(t.time, e), c.x, c.y))
    case LookupServed(taskType) =>
      w.(answers := w.answers + {Answer(taskType, Infos(Names.Lookup(w.names, taskType)))})
    case Executes(q, _, _, _) => if q in w.requests then w.(results := w.results + Sent(c, t.move)) else w
    case _ => if EventOf(w, t.move).Some? then Advance(w, t.now, EventOf(w, t.move).value) else w
  }

  function Evolve(c: Config, w: World, ts: seq<Timed>): World
    decreases |ts|
  {
    if ts == [] then w else Evolve(c, WorldStep(c, w, ts[0]), ts[1..])
  }

  // ---------- What single steps of the dispatcher bring about ----------

  predicate Attempted(s: Sys, id: nat) {
    id in s.store && s.store[id].attempts >= 1
  }

  /** Whatever is called out has been attempted. */
  ghost predicate CallsAttempted(s: Sys) {
    forall r :: r in s.rpcs ==> Attempted(s, r.taskId)
  }

  lemma DispatchCalls(s: Sys, k: nat, workers: seq<WorkerInfo>, now: int)
    requires k < |s.executing| && s.executing[k] in s.store
    ensures var s' := Dispatch(s, k, workers, now);
      forall r :: r in s'.rpcs ==> r in s.rpcs || Attempted(s', r.taskId)
  {
  }

  lemma CallRemoves(s: Sys, k: nat, outcome: Outcome, now: int)
    requires k < |s.rpcs| && s.rpcs[k].taskId in s.store
    ensures forall r :: r in RpcReturned(s, k, outcome, now).rpcs ==> r in s.rpcs
  {
    RpcEffect(s, k, outcome, now);
  }

  lemma NewCalls(s: Sys, e: Stamped)
    ensures forall r :: r in Step(s, e).rpcs ==> r in s.rpcs || Attempted(Step(s, e), r.taskId)
  {
    match e.event
    case LookupAnswered(k, workers) =>
      if k < |s.executing| && s.executing[k] in s.store { DispatchCalls(s, k, workers, e.now); }
    case CallReturns(k, outcome) =>
      if k < |s.rpcs| && s.rpcs[k].taskId in s.store { CallRemoves(s, k, outcome, e.now); }
    case _ =>
  }

  lemma StaysAttempted(s: Sys, e: Stamped, id: nat)
    requires StoreOk(s) && Attempted(s, id)
    ensures Attempted(Step(s, e), id)
  {
    StepKeepsTask(s, e, id);
    StepMovesTask(s, e, id);
    TaskStepFrame(s.store[id], Step(s, e).store[id], e.now, s.maxRetries);
  }

  lemma StepKeepsCalls(s: Sys, e: Stamped)
    requires StoreOk(s) && CallsAttempted(s)
    ensures CallsAttempted(Step(s, e))
  {
    NewCalls(s, e);
    forall r | r in Step(s, e).rpcs
      ensures Attempted(Step(s, e), r.taskId)
    {
      if r in s.rpcs {
        StaysAttempted(s, e, r.taskId);
      }
    }
  }

  // ---------- The invariant ----------

  predicate RequestOk(s: Sys, q: Request) {
    && Attempted(s, q.taskId)
    && s.store[q.taskId].taskType == q.taskType && s.store[q.taskId].payload == q.payload
  }

  predicate ResultOk(h: Handlers, s: Sys, m: ResultMsg) {
    && Attempted(s, m.taskId)
    && (m.status == "COMPLETED" ==> Computes(h, s.store[m.taskId].taskType, s.store[m.taskId].payload, m.result))
  }

  /** A completed task holds its handler's value; one never sent to a worker is QUEUED. */
  predicate TaskOk(h: Handlers, t: TaskVal) {
    && (t.status == COMPLETED ==> Computes(h, t.taskType, t.payload, t.result))
    && (t.attempts == 0 ==> t.status == QUEUED)
  }

  ghost predicate AnswerOk(a: Answer) {
    forall info :: info in a.workers ==> info.workerId != ""
  }

  ghost predicate NamesOk(r: Names.Reg) {
    NameRuns.NumbersOk(r) && forall e :: e in r.workers ==> e.workerId != ""
  }

  ghost predicate TrafficOk(h: Handlers, s: Sys, requests: set<Request>, results: set<ResultMsg>) {
    && (forall q :: q in requests ==> RequestOk(s, q))
    && (forall m :: m in results ==> ResultOk(h, s, m))
  }

  ghost predicate SysOk(h: Handlers, s: Sys) {
    && Runs.Inv(s) && CallsAttempted(s)
    && forall id :: id in s.store ==> TaskOk(h, s.store[id])
  }

  ghost predicate WorldOk(c: Config, w: World) {
    && SysOk(c.handlers, w.sys)
    && NamesOk(w.names)
    && (forall a :: a in w.answers ==> AnswerOk(a))
    && TrafficOk(c.handlers, w.sys, w.requests, w.results)
  }

  lemma TrafficStays(h: Handlers, s: Sys, e: Stamped, requests: set<Request>, results: set<ResultMsg>)
    requires StoreOk(s) && TrafficOk(h, s, requests, results)
    ensures TrafficOk(h, Step(s, e), requests, results)
  {
    forall id | id in s.store
      ensures id in Step(s, e).store && s.store[id].attempts <= Step(s, e).store[id].attempts
      ensures Step(s, e).store[id].taskType == s.store[id].taskType &&
        Step(s, e).store[id].payload == s.store[id].payload
    {
      StepKeepsTask(s, e, id);
      StepMovesTask(s, e, id);
      TaskStepFrame(s.store[id], Step(s, e).store[id], e.now, s.maxRetries);
    }
    forall q | q in requests
      ensures RequestOk(Step(s, e), q)
    {
      assert RequestOk(s, q);
    }
    forall m | m in results
      ensures ResultOk(h, Step(s, e), m)
    {
      assert ResultOk(h, s, m);
    }
  }

  /** What the environment can cause: results are honest. */
  predicate Plausible(h: Handlers, s: Sys, e: Event) {
    e.ResultArrives? ==> ResultOk(h, s, e.msg)
  }

  /** Only a dispatch changes a task that was never sent to a worker. */
  lemma UntriedStaysQueued(s: Sys, e: Stamped, id: nat)
    requires Runs.Inv(s) && CallsAttempted(s) && (e.event.ResultArrives? ==> Attempted(s, e.event.msg.taskId))
    requires id in s.store && s.store[id].attempts == 0 && s.store[id].status == QUEUED
    ensures id in Step(s, e).store
    ensures Step(s, e).store[id] == s.store[id] ||
      (e.event.LookupAnswered? && WantsAnswer(s, e.event.slot, s.store[id].taskType) && e.event.workers != []
       && Step(s, e).store[id].attempts == 1)
  {
    StepKeepsTask(s, e, id);
    assert InCustody(s, id);
    if Step(s, e).store[id] != s.store[id] {
      Runs.EventChangesItsTask(s, e, id);
      match e.event {
        case LookupAnswered(k, workers) => Runs.DispatchChangesOne(s, k, workers, e.now, id);
        case _ =>
      }
    }
  }

  lemma TaskStaysOk(h: Handlers, s: Sys, e: Stamped, id: nat)
    requires Runs.Inv(s) && CallsAttempted(s) && Plausible(h, s, e.event) && id in s.store && TaskOk(h, s.store[id])
    ensures id in Step(s, e).store && TaskOk(h, Step(s, e).store[id])
  {
    StepKeepsTask(s, e, id);
    StepMovesTask(s, e, id);
    var t, u := s.store[id], Step(s, e).store[id];
    TaskStepFrame(t, u, e.now, s.maxRetries);
    if u.status == COMPLETED && t.status != COMPLETED {
      Flow.HowTasksEnd(s, e, id);
    }
    if u.attempts == 0 {
      UntriedStaysQueued(s, e, id);
    }
  }

  lemma SysStaysOk(h: Handlers, s: Sys, e: Stamped)
    requires SysOk(h, s) && Plausible(h, s, e.event)
    ensures SysOk(h, Step(s, e))
  {
    Runs.StepKeeps(s, e);
    StepKeepsCalls(s, e);
    forall id | id in Step(s, e).store
      ensures TaskOk(h, Step(s, e).store[id])
    {
      if id in s.store {
        TaskStaysOk(h, s, e, id);
      } else {
        StepMovesTask(s, e, id);
      }
    }
  }

  lemma AdvanceKeeps(c: Config, w: World, now: int, e: Event)
    requires WorldOk(c, w) && Plausible(c.handlers, w.sys, e)
    ensures WorldOk(c, Advance(w, now, e))
  {
    var step := At(now, e);
    SysStaysOk(c.handlers, w.sys, step);
    TrafficStays(c.handlers, w.sys, step, w.requests, w.results);
  }

  lemma NamesStepKeeps(r: Names.Reg, s: Names.Stamped, x: int, y: int)
    requires NamesOk(r)
    ensures NamesOk(Names.Step(r, s, x, y))
  {
    NameRuns.StepKeepsNumbers(r, s, x, y);
    NameRuns.StepEntries(r, s, x, y);
  }

  lemma AnswerIsOk(r: Names.Reg, taskType: string)
    requires NamesOk(r)
    ensures AnswerOk(Answer(taskType, Infos(Names.Lookup(r, taskType))))
  {
    Names.FilterIn(Names.Serves(taskType), r.workers);
    var found := Names.Lookup(r, taskType);
    assert forall i :: 0 <= i < |found| ==> found[i] in found;
  }

  lemma ExecutionIsOk(c: Config, s: Sys, m: Move)
    requires m.Executes? && RequestOk(s, m.q)
    ensures forall x :: x in Sent(c, m) ==> ResultOk(c.handlers, s, x)
  {
    ReportsAreHonest(m.who.workerId, m.who.taskTypes, c.handlers, m.who.draining, m.q, m.first, m.second);
  }

  lemma NamesMoveKeeps(c: Config, w: World, names: Names.Reg)
    requires WorldOk(c, w) && NamesOk(names)
    ensures WorldOk(c, w.(names := names))
  {
  }

  lemma AnswerKeeps(c: Config, w: World, a: Answer)
    requires WorldOk(c, w) && AnswerOk(a)
    ensures WorldOk(c, w.(answers := w.answers + {a}))
  {
  }

  lemma ResultsKeep(c: Config, w: World, sent: set<ResultMsg>)
    requires WorldOk(c, w) && forall m :: m in sent ==> ResultOk(c.handlers, w.sys, m)
    ensures WorldOk(c, w.(results := w.results + sent))
  {
  }

  /** Moves that leave the dispatcher alone. */
  lemma OutsideKeeps(c: Config, w: World, t: Timed)
    requires WorldOk(c, w) && (t.move.NamingService? || t.move.LookupServed? || t.move.Executes?)
    ensures WorldOk(c, WorldStep(c, w, t))
  {
    match t.move
    case NamingService(e) =>
      NamesStepKeeps(w.names, Names.At(t.time, e), c.x, c.y);
      NamesMoveKeeps(c, w, Names.Step(w.names, Names.At(t.time, e), c.x, c.y));
    case LookupServed(taskType) =>
      AnswerIsOk(w.names, taskType);
      AnswerKeeps(c, w, Answer(taskType, Infos(Names.Lookup(w.names, taskType))));
    case Executes(q, who, first, second) =>
      if q in w.requests {
        ExecutionIsOk(c, w.sys, t.move);
        ResultsKeep(c, w, Sent(c, t.move));
      }
  }

  lemma EventsArePlausible(c: Config, w: World, m: Move)
    requires WorldOk(c, w) && EventOf(w, m).Some?
    ensures Plausible(c.handlers, w.sys, EventOf(w, m).value)
  {
  }

  lemma WorldStepKeeps(c: Config, w: World, t: Timed)
    requires WorldOk(c, w)
    ensures WorldOk(c, WorldStep(c, w, t))
  {
    if t.move.NamingService? || t.move.LookupServed? || t.move.Executes? {
      OutsideKeeps(c, w, t);
    } else if EventOf(w, t.move).Some? {
      EventsArePlausible(c, w, t.move);
      AdvanceKeeps(c, w, t.now, EventOf(w, t.move).value);
    }
  }

  lemma {:induction false} EvolveKeeps(c: Config, w: World, ts: seq<Timed>)
    requires WorldOk(c, w)
    ensures WorldOk(c, Evolve(c, w, ts))
    decreases |ts|
  {
    if ts != [] {
      WorldStepKeeps(c, w, ts[0]);
      EvolveKeeps(c, WorldStep(c, w, ts[0]), ts[1..]);
    }
  }

  function Reached(c: Config, ts: seq<Timed>): World {
    Evolve(c, Start(c), ts)
  }

  lemma ReachedIsOk(c: Config, ts: seq<Timed>)
    ensures WorldOk(c, Reached(c, ts))
  {
    Runs.InitOk(c.maxRetries);
    EvolveKeeps(c, Start(c), ts);
  }

  // ---------- The dispatcher's share of a run ----------

  /** The events the dispatcher goes through in a run of the whole system. */
  function Events(c: Config, w: World, ts: seq<Timed>): seq<Stamped>
    decreases |ts|
  {
    if ts == [] then []
    else
      (if EventOf(w, ts[0].move).Some? then [At(ts[0].now, EventOf(w, ts[0].move).value)] else [])
      + Events(c, WorldStep(c, w, ts[0]), ts[1..])
  }

  lemma StepOfSys(c: Config, w: World, t: Timed)
    ensures WorldStep(c, w, t).sys
         == if EventOf(w, t.move).Some? then Step(w.sys, At(t.now, EventOf(w, t.move).value)) else w.sys
  {
  }

  lemma NamedEvent(c: Config, w: World, t: Timed)
    requires WorldOk(c, w) && EventOf(w, t.move).Some?
    ensures Monitoring.NamesWorkers(At(t.now, EventOf(w, t.move).value))
  {
    if t.move.LookupDelivered? {
      assert AnswerOk(t.move.answer);
    }
  }

  lemma EventsAhead(c: Config, w: World, ts: seq<Timed>)
    requires ts != []
    ensures var w' := WorldStep(c, w, ts[0]);
      Exec(w.sys, Events(c, w, ts)) == Exec(w'.sys, Events(c, w', ts[1..]))
  {
    var rest := Events(c, WorldStep(c, w, ts[0]), ts[1..]);
    StepOfSys(c, w, ts[0]);
    if EventOf(w, ts[0].move).Some? {
      var e := At(ts[0].now, EventOf(w, ts[0].move).value);
      assert ([e] + rest)[0] == e && ([e] + rest)[1..] == rest;
    } else {
      assert [] + rest == rest;
    }
  }

  lemma {:induction false} EventsNameWorkers(c: Config, w: World, ts: seq<Timed>)
    requires WorldOk(c, w)
    ensures forall e :: e in Events(c, w, ts) ==> Monitoring.NamesWorkers(e)
    decreases |ts|
  {
    if ts != [] {
      WorldStepKeeps(c, w, ts[0]);
      EventsNameWorkers(c, WorldStep(c, w, ts[0]), ts[1..]);
      if EventOf(w, ts[0].move).Some? {
        NamedEvent(c, w, ts[0]);
      }
    }
  }

  lemma {:induction false} EvolveIsExec(c: Config, w: World, ts: seq<Timed>)
    ensures Evolve(c, w, ts).sys == Exec(w.sys, Events(c, w, ts))
    decreases |ts|
  {
    if ts != [] {
      EventsAhead(c, w, ts);
      EvolveIsExec(c, WorldStep(c, w, ts[0]), ts[1..]);
    }
  }

  /** Seen from the dispatcher every run of the whole system is one of its runs, and every
      lookup answer in it names its workers. */
  lemma WorldRunsAreRuns(c: Config, w: World, ts: seq<Timed>)
    requires WorldOk(c, w)
    ensures Evolve(c, w, ts).sys == Exec(w.sys, Events(c, w, ts))
    ensures forall e :: e in Events(c, w, ts) ==> Monitoring.NamesWorkers(e)
  {
    EvolveIsExec(c, w, ts);
    EventsNameWorkers(c, w, ts);
  }

  lemma {:induction false} EvolveConcat(c: Config, w: World, a: seq<Timed>, b: seq<Timed>)
    ensures Evolve(c, w, a + b) == Evolve(c, Evolve(c, w, a), b)
    decreases |a|
  {
    if a == [] {
      assert a + b == b;
    } else {
      assert (a + b)[1..] == a[1..] + b;
      EvolveConcat(c, WorldStep(c, w, a[0]), a[1..], b);
    }
  }

  // ---------- End-to-end correctness ----------

  function PostMove(now: int, time: real, taskType: string, payload: string): Timed {
    Timed(now, time, Dispatcher(Post(taskType, payload)))
  }

  lemma PostStep(c: Config, w: World, now: int, time: real, taskType: string, payload: string)
    requires Admission(taskType, payload, 0).Posted?
    ensures var id, s := |w.sys.store| + 1, WorldStep(c, w, PostMove(now, time, taskType, payload)).sys;
      && PostTask(w.sys, taskType, payload, now).1 == Posted(id)
      && id in s.store && s.store[id].taskType == taskType && s.store[id].payload == payload
  {
    StepOfSys(c, w, PostMove(now, time, taskType, payload));
  }

  lemma TaskStays(c: Config, w: World, ts: seq<Timed>, id: nat)
    requires WorldOk(c, w) && id in w.sys.store
    ensures var s, s' := w.sys, Evolve(c, w, ts).sys;
      id in s'.store && s'.store[id].taskType == s.store[id].taskType && s'.store[id].payload == s.store[id].payload
  {
    WorldRunsAreRuns(c, w, ts);
    Runs.TasksPersist(w.sys, Events(c, w, ts), id);
  }

  lemma AfterPost(c: Config, w: World, now: int, time: real, taskType: string, payload: string, after: seq<Timed>)
    requires WorldOk(c, w) && Admission(taskType, payload, 0).Posted?
    ensures var id, s := |w.sys.store| + 1, Evolve(c, w, [PostMove(now, time, taskType, payload)] + after).sys;
      && PostTask(w.sys, taskType, payload, now).1 == Posted(id)
      && id in s.store && s.store[id].taskType == taskType && s.store[id].payload == payload
  {
    var t := PostMove(now, time, taskType, payload);
    assert ([t] + after)[0] == t && ([t] + after)[1..] == after;
    WorldStepKeeps(c, w, t);
    PostStep(c, w, now, time, taskType, payload);
    TaskStays(c, WorldStep(c, w, t), after, |w.sys.store| + 1);
  }

  /** End-to-end correctness: whatever a client posts, at any point of any run, with results
      delayed, reordered, lost or repeated, calls failing and workers draining, GetResult
      finds the task under the id the client was given, reports COMPLETED only with the
      value the handler returns for the posted type and payload, and never reports
      COMPLETED for a task whose handler raises or does not exist. */
  lemma CompletedMeansComputed(c: Config, before: seq<Timed>, now: int, time: real, taskType: string,
        payload: string, after: seq<Timed>)
    requires Admission(taskType, payload, 0).Posted?
    ensures var reply := PostTask(Reached(c, before).sys, taskType, payload, now).1;
      && reply.Posted?
      && var run := before + ([PostMove(now, time, taskType, payload)] + after);
         var view := GetResult(Reached(c, run).sys, reply.taskId);
         && view.Found?
         && (view.status == COMPLETED ==> Computes(c.handlers, taskType, payload, view.result))
         && (taskType !in c.handlers || c.handlers[taskType](payload).Raised? ==> view.status != COMPLETED)
  {
    var w, rest := Reached(c, before), [PostMove(now, time, taskType, payload)] + after;
    ReachedIsOk(c, before);
    AfterPost(c, w, now, time, taskType, payload, after);
    EvolveConcat(c, Start(c), before, rest);
    EvolveKeeps(c, w, rest);
    assert TaskOk(c.handlers, Evolve(c, w, rest).sys.store[|w.sys.store| + 1]);
  }

  /** No task ends without having been sent to a worker: the table's way from QUEUED to
      FAILED is never taken, so a task that finds no worker waits without limit. */
  lemma NothingFailsUntried(c: Config, ts: seq<Timed>, id: nat)
    requires id in Reached(c, ts).sys.store && Reached(c, ts).sys.store[id].status != QUEUED
    ensures 1 <= Reached(c, ts).sys.store[id].attempts <= RetryCap(c.maxRetries)
  {
    ReachedIsOk(c, ts);
    Runs.InitOk(c.maxRetries);
    WorldRunsAreRuns(c, Start(c), ts);
    Runs.AttemptsAreBounded(c.maxRetries, Events(c, Start(c), ts), id);
    assert TaskOk(c.handlers, Reached(c, ts).sys.store[id]);
  }

  // ---------- Load map ----------

  function TasksOf(c: Config, ts: seq<Timed>): seq<TaskVal> {
    ReachedIsOk(c, ts);
    Monitoring.Tasks(Reached(c, ts).sys)
  }

  /** In every reachable state of the whole system the load map accounts for every running
      task: the registry admits only workers with an id. */
  lemma LoadMapOfTheSystem(c: Config, ts: seq<Timed>, workers: seq<string>)
    requires Monitoring.Distinct(workers)
    requires forall w :: w in workers <==> w != "" && Monitoring.LoadOf(TasksOf(c, ts), w) > 0
    ensures var tasks := TasksOf(c, ts);
      Monitoring.TotalLoad(tasks, workers)
        == Monitoring.CountIn(tasks, {DISPATCHED}) + Monitoring.CountIn(tasks, {PROCESSING})
  {
    Runs.InitOk(c.maxRetries);
    WorldRunsAreRuns(c, Start(c), ts);
    Monitoring.LoadMapAgrees(c.maxRetries, Events(c, Start(c), ts), workers);
  }

  // ---------- Unserved types ----------

  /** No registration in the run lists the type. */
  ghost predicate NeverOffered(ts: seq<Timed>, taskType: string) {
    forall i :: 0 <= i < |ts| ==> !Offers(ts[i].move, taskType)
  }

  predicate Offers(m: Move, taskType: string) {
    m.NamingService? && m.event'.Registers? && taskType in Names.ListedTypes(m.event'.p.taskTypes)
  }

  ghost predicate Waiting(s: Sys, taskType: string) {
    forall id :: id in s.store && s.store[id].taskType == taskType ==> s.store[id].attempts == 0
  }

  ghost predicate NobodyServes(w: World, taskType: string) {
    && NameRuns.Unserved(w.names, taskType)
    && (forall a :: a in w.answers && a.taskType == taskType ==> a.workers == [])
    && Waiting(w.sys, taskType)
  }

  /** The event can only concern a task of the type by answering its lookup with nobody. */
  ghost predicate Harmless(s: Sys, e: Event, taskType: string) {
    && (e.LookupAnswered? && WantsAnswer(s, e.slot, taskType) ==> e.workers == [])
    && (e.ResultArrives? ==> Attempted(s, e.msg.taskId))
  }

  lemma WaitingStays(h: Handlers, s: Sys, e: Stamped, taskType: string)
    requires SysOk(h, s) && Harmless(s, e.event, taskType) && Waiting(s, taskType)
    ensures Waiting(Step(s, e), taskType)
  {
    forall id | id in Step(s, e).store && Step(s, e).store[id].taskType == taskType
      ensures Step(s, e).store[id].attempts == 0
    {
      StepMovesTask(s, e, id);
      if id in s.store {
        TaskStepFrame(s.store[id], Step(s, e).store[id], e.now, s.maxRetries);
        assert TaskOk(h, s.store[id]);
        UntriedStaysQueued(s, e, id);
      }
    }
  }

  lemma OutsideStaysUnserved(c: Config, w: World, t: Timed, taskType: string)
    requires WorldOk(c, w) && NobodyServes(w, taskType) && !Offers(t.move, taskType)
    requires t.move.NamingService? || t.move.LookupServed? || t.move.Executes?
    ensures NobodyServes(WorldStep(c, w, t), taskType)
  {
    match t.move
    case NamingService(e) => NameRuns.StepKeepsUnserved(w.names, Names.At(t.time, e), c.x, c.y, taskType);
    case LookupServed(_) => NameRuns.UnservedLookup(w.names, taskType);
    case _ =>
  }

  lemma EventsAreHarmless(c: Config, w: World, m: Move, taskType: string)
    requires WorldOk(c, w) && NobodyServes(w, taskType) && EventOf(w, m).Some?
    ensures Harmless(w.sys, EventOf(w, m).value, taskType)
  {
    if m.ResultDelivered? {
      assert ResultOk(c.handlers, w.sys, m.msg);
    }
  }

  lemma StepStaysUnserved(c: Config, w: World, t: Timed, taskType: string)
    requires WorldOk(c, w) && NobodyServes(w, taskType) && !Offers(t.move, taskType)
    ensures NobodyServes(WorldStep(c, w, t), taskType)
  {
    if t.move.NamingService? || t.move.LookupServed? || t.move.Executes? {
      OutsideStaysUnserved(c, w, t, taskType);
    } else if EventOf(w, t.move).Some? {
      EventsAreHarmless(c, w, t.move, taskType);
      WaitingStays(c.handlers, w.sys, At(t.now, EventOf(w, t.move).value), taskType);
    }
  }

  lemma {:induction false} StaysUnserved(c: Config, w: World, ts: seq<Timed>, taskType: string)
    requires WorldOk(c, w) && NobodyServes(w, taskType) && NeverOffered(ts, taskType)
    ensures NobodyServes(Evolve(c, w, ts), taskType)
    decreases |ts|
  {
    if ts != [] {
      StepStaysUnserved(c, w, ts[0], taskType);
      WorldStepKeeps(c, w, ts[0]);
      StaysUnserved(c, WorldStep(c, w, ts[0]), ts[1..], taskType);
    }
  }

  /** Tasks of a type no worker ever registered wait harmlessly: in every reachable state
      such a task is QUEUED, was never attempted or retried, has exactly one carrier and no
      running timer. */
  lemma UnservedTypesWait(c: Config, ts: seq<Timed>, taskType: string, id: nat)
    requires NeverOffered(ts, taskType)
    requires id in Reached(c, ts).sys.store && Reached(c, ts).sys.store[id].taskType == taskType
    ensures var s := Reached(c, ts).sys;
      && s.store[id].status == QUEUED && s.store[id].attempts == 0 && s.store[id].retryCount == 0
      && Carriers(s, id) == 1 && Runs.LiveTimers(s, id) == {}
  {
    var s := Reached(c, ts).sys;
    ReachedIsOk(c, ts);
    Runs.InitOk(c.maxRetries);
    StaysUnserved(c, Start(c), ts, taskType);
    assert InCustody(s, id) && TaskOk(c.handlers, s.store[id]) && RecordOk(s.store[id], s.maxRetries);
    Runs.LiveTimersOf(s, id);
  }

  // ---------- Tasks do complete ----------

  const FIRST := Names.Registration("w", ["reverse"], "h", 1, "", 0)
  const ENTRY := Names.Entry(0, "reverse", "h", 1, "w", ["reverse"], 0.0, "ACTIVE", 0)
  const INFO := WorkerInfo("w", "h", 1, 0)
  const QUERY := Request(1, "reverse", "abc")

  lemma RegisterFirst(c: Config, w: World)
    requires w.names == Names.Init()
    ensures WorldStep(c, w, Timed(1, 0.0, NamingService(Names.Registers(FIRST)))) == w.(names := Names.Reg([ENTRY], 1))
  {
    assert Names.Filter(Names.IsAnother(FIRST), []) == [];
    Names.NextEntry(FIRST, 0, 0, 0.0);
    assert Names.NewEntries(FIRST, 0, 0, 0.0) == [];
    assert [] + Names.NewEntries(FIRST, 0, 1, 0.0) == [ENTRY];
    assert |Names.ListedTypes(FIRST.taskTypes)| == 1;
  }

  lemma AnswerFirst(c: Config, w: World)
    requires w.names.workers == [ENTRY]
    ensures WorldStep(c, w, Timed(1, 0.0, LookupServed("reverse")))
         == w.(answers := w.answers + {Answer("reverse", [INFO])})
  {
    assert [ENTRY][..0] == [];
    assert Names.Filter(Names.Serves("reverse"), [ENTRY]) == [] + [ENTRY] == [ENTRY];
    assert Infos([ENTRY]) == [INFO];
  }

  lemma DeliverFirst(c: Config, w: World, t: TaskVal)
    requires w.sys.store == map[1 := t] && t.status == QUEUED && t.taskType == "reverse" && t.payload == "abc"
    requires w.sys.executing == [1] && w.sys.nextTimer == 0 && w.sys.live == map[] && w.sys.rpcs == []
    requires Answer("reverse", [INFO]) in w.answers
    ensures var w' := WorldStep(c, w, Timed(2, 0.0, LookupDelivered(0, Answer("reverse", [INFO]))));
      && w'.sys.store == map[1 := AfterDispatch(t, INFO, 2)] && QUERY in w'.requests
  {
    Runs.DispatchFirst(w.sys, t, INFO, 2);
    var s := Step(w.sys, At(2, LookupAnswered(0, [INFO])));
    assert Rpc(1, INFO) in s.rpcs && RequestFor(s, 1) == QUERY;
  }

  lemma ExecuteFirst(c: Config, w: World, value: string)
    requires QUERY in w.requests && Computes(c.handlers, "reverse", "abc", value)
    ensures var w' := WorldStep(c, w, Timed(2, 0.0, Executes(QUERY, Executor("w", ["reverse"], false), None, None)));
      w'.sys == w.sys && Success(QUERY, value) in w'.results
  {
    var sent := Execution("w", ["reverse"], c.handlers, false, QUERY, None, None).0;
    assert sent == [Success(QUERY, value)];
    assert Success(QUERY, value) in sent;
  }

  lemma ResultFirst(c: Config, w: World, t: TaskVal, value: string)
    requires w.sys.store == map[1 := t] && t.status == DISPATCHED && Success(QUERY, value) in w.results
    ensures var s := WorldStep(c, w, Timed(3, 0.0, ResultDelivered(Success(QUERY, value)))).sys;
      1 in s.store && s.store[1].status == COMPLETED && s.store[1].result == value
  {
  }

  lemma Tail(c: Config, w: World, ts: seq<Timed>, i: nat)
    requires i < |ts|
    ensures Evolve(c, w, ts[i..]) == Evolve(c, WorldStep(c, w, ts[i]), ts[i + 1..])
  {
    assert ts[i..][1..] == ts[i + 1..];
  }

  lemma Unfold(c: Config, ts: seq<Timed>)
    requires |ts| == 7
    ensures Reached(c, ts) == WorldStep(c, WorldStep(c, WorldStep(c, WorldStep(c, WorldStep(c, WorldStep(c, WorldStep(c,
      Start(c), ts[0]), ts[1]), ts[2]), ts[3]), ts[4]), ts[5]), ts[6])
  {
    var w1 := WorldStep(c, Start(c), ts[0]);
    var w2 := WorldStep(c, w1, ts[1]);
    var w3 := WorldStep(c, w2, ts[2]);
    var w4 := WorldStep(c, w3, ts[3]);
    var w5 := WorldStep(c, w4, ts[4]);
    var w6 := WorldStep(c, w5, ts[5]);
    var w7 := WorldStep(c, w6, ts[6]);
    Tail(c, Start(c), ts, 0);
    Tail(c, w1, ts, 1);
    Tail(c, w2, ts, 2);
    Tail(c, w3, ts, 3);
    Tail(c, w4, ts, 4);
    Tail(c, w5, ts, 5);
    Tail(c, w6, ts, 6);
    assert ts[0..] == ts;
  }

  /** One task, one worker, no trouble. */
  function CompletingRun(value: string): seq<Timed> {
    [PostMove(1, 0.0, "reverse", "abc"),
     Timed(1, 0.0, Dispatcher(DequeueNext)),
     Timed(1, 0.0, NamingService(Names.Registers(FIRST))),
     Timed(1, 0.0, LookupServed("reverse")),
     Timed(2, 0.0, LookupDelivered(0, Answer("reverse", [INFO]))),
     Timed(2, 0.0, Executes(QUERY, Executor("w", ["reverse"], false), None, None)),
     Timed(3, 0.0, ResultDelivered(Success(QUERY, value)))]
  }

  lemma PostFirst(c: Config)
    ensures var w, s := WorldStep(c, Start(c), PostMove(1, 0.0, "reverse", "abc")), DispatcherSpec.Init(c.maxRetries);
      && w.sys == s.(store := map[1 := NewTask(1, "reverse", "abc", 1)], queue := [1])
      && w.names == Names.Init()
  {
    Runs.PostFirst(DispatcherSpec.Init(c.maxRetries), "reverse", "abc", 1);
  }

  lemma DequeueFirst(c: Config, w: World, t: TaskVal)
    requires w.sys.store == map[1 := t] && t.status == QUEUED && w.sys.queue == [1] && w.sys.executing == []
    ensures var w' := WorldStep(c, w, Timed(1, 0.0, Dispatcher(DequeueNext)));
      w'.sys == w.sys.(queue := [], executing := [1]) && w'.names == w.names
  {
  }

  /** The first four moves: a queued task is taken up and a lookup is answered. */
  lemma FirstHalf(c: Config, value: string)
    ensures var ts := CompletingRun(value);
      var w := WorldStep(c, WorldStep(c, WorldStep(c, WorldStep(c, Start(c), ts[0]), ts[1]), ts[2]), ts[3]);
      && w.sys.store == map[1 := NewTask(1, "reverse", "abc", 1)] && w.sys.executing == [1]
      && w.sys.nextTimer == 0 && w.sys.live == map[] && w.sys.rpcs == []
      && Answer("reverse", [INFO]) in w.answers
  {
    var ts := CompletingRun(value);
    var w1 := WorldStep(c, Start(c), ts[0]);
    PostFirst(c);
    var w2 := WorldStep(c, w1, ts[1]);
    DequeueFirst(c, w1, NewTask(1, "reverse", "abc", 1));
    var w3 := WorldStep(c, w2, ts[2]);
    RegisterFirst(c, w2);
    AnswerFirst(c, w3);
  }

  lemma SecondHalf(c: Config, w: World, t: TaskVal, value: string)
    requires w.sys.store == map[1 := t] && t.status == QUEUED && t.taskType == "reverse" && t.payload == "abc"
    requires w.sys.executing == [1] && w.sys.nextTimer == 0 && w.sys.live == map[] && w.sys.rpcs == []
    requires Answer("reverse", [INFO]) in w.answers && Computes(c.handlers, "reverse", "abc", value)
    ensures var ts := CompletingRun(value);
      GetResult(WorldStep(c, WorldStep(c, WorldStep(c, w, ts[4]), ts[5]), ts[6]).sys, 1) == Found(COMPLETED, value)
  {
    var ts := CompletingRun(value);
    var w5 := WorldStep(c, w, ts[4]);
    DeliverFirst(c, w, t);
    var w6 := WorldStep(c, w5, ts[5]);
    ExecuteFirst(c, w5, value);
    ResultFirst(c, w6, AfterDispatch(t, INFO, 2), value);
  }

  /** The composed system can complete a task. */
  lemma TasksComplete(c: Config, value: string)
    requires Computes(c.handlers, "reverse", "abc", value)
    ensures GetResult(Reached(c, CompletingRun(value)).sys, 1) == Found(COMPLETED, value)
  {
    var ts := CompletingRun(value);
    var w := WorldStep(c, WorldStep(c, WorldStep(c, WorldStep(c, Start(c), ts[0]), ts[1]), ts[2]), ts[3]);
    FirstHalf(c, value);
    SecondHalf(c, w, w.sys.store[1], value);
    Unfold(c, ts);
  }
}
