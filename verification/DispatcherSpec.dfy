/** The dispatcher as a state machine on values. One step is one handler segment between
    two blocking calls; Sys holds the task store, the queue, every thread that carries a
    task (executor slots, no-worker sleepers, delayed re-enqueue timers), the outstanding
    ExecuteTask calls and the timeout timers. */
module DispatcherSpec {
  import opened Counting
  import opened Protocol
  import opened StateMachine
  import opened RoundRobin

  datatype Rpc = Rpc(taskId: nat, worker: WorkerInfo)

  /** What WorkerClient.dispatch_task returns: True, False or None. */
  datatype Outcome = Accepted | Rejected | GrpcError

  /** `timers` is the _timers dictionary, which keeps entries of fired timers; `live` holds
      the timers that were started and neither fired nor were cancelled. */
  datatype Sys = Sys(
    store: map<nat, TaskVal>,
    queue: seq<nat>,
    executing: seq<nat>,
    sleeping: seq<nat>,
    delayed: seq<nat>,
    rpcs: seq<Rpc>,
    timers: map<nat, nat>,
    live: map<nat, nat>,
    nextTimer: nat,
    counters: map<string, nat>,
    maxRetries: int)

  function Init(maxRetries: int): Sys {
    Sys(map[], [], [], [], [], [], map[], map[], 0, map[], maxRetries)
  }

  // ---------- Timers ----------

  function StartTimer(s: Sys, id: nat): Sys {
    s.(timers := s.timers[id := s.nextTimer], live := s.live[s.nextTimer := id], nextTimer := s.nextTimer + 1)
  }

  function CancelTimeout(s: Sys, id: nat): Sys {
    if id !in s.timers then s
    else s.(timers := s.timers - {id}, live := s.live - {s.timers[id]})
  }

  // ---------- Client side ----------

  datatype PostReply = MissingType | TypeTooLong | PayloadTooLong | Posted(taskId: nat)

  /** Checked in this order; a request is accepted iff the type has 1 to 32 characters and
      the payload at most 1024. */
  function Admission(taskType: string, payload: string, id: nat): (reply: PostReply)
    ensures reply.Posted? <==> 1 <= |taskType| <= 32 && |payload| <= 1024
    ensures reply == MissingType <==> |taskType| == 0
    ensures reply == TypeTooLong <==> |taskType| > 32
    ensures reply == PayloadTooLong <==> 1 <= |taskType| <= 32 && |payload| > 1024
    ensures reply.Posted? ==> reply.taskId == id
  {
    if taskType == "" then MissingType
    else if |taskType| > MAX_TYPE_LEN then TypeTooLong
    else if |payload| > MAX_PAYLOAD_LEN then PayloadTooLong
    else Posted(id)
  }

  /** The next id is one more than the number of tasks ever stored. */
  function PostTask(s: Sys, taskType: string, payload: string, now: int): (Sys, PostReply) {
    var id := |s.store| + 1;
    var reply := Admission(taskType, payload, id);
    if reply.Posted? then
      (s.(store := s.store[id := NewTask(id, taskType, payload, now)], queue := s.queue + [id]), reply)
    else (s, reply)
  }

  datatype ResultView = NotFound | Found(status: TaskState, result: string)

  function GetResult(s: Sys, id: nat): ResultView {
    if id in s.store then Found(s.store[id].status, s.store[id].result) else NotFound
  }

  // ---------- Dispatch loop ----------

  /** One round of the run loop. */
  function Dequeue(s: Sys): Sys {
    if s.queue == [] then s
    else
      var id := s.queue[0];
      var rest := s.(queue := s.queue[1..]);
      if id in s.store && IsWaiting(s.store[id].status) then rest.(executing := s.executing + [id])
      else rest
  }

  /** A task sent to a worker. */
  function AfterDispatch(t: TaskVal, worker: WorkerInfo, now: int): TaskVal {
    Moved(t, DISPATCHED, now).(assignedWorker := worker.workerId, attempts := t.attempts + 1)
  }

  /** The executor slot k continues once the lookup has answered with `workers`. */
  function Dispatch(s: Sys, k: nat, workers: seq<WorkerInfo>, now: int): Sys
    requires k < |s.executing| && s.executing[k] in s.store
  {
    var id := s.executing[k];
    if workers == [] then
      s.(executing := RemoveAt(s.executing, k), sleeping := s.sleeping + [id])
    else
      var (i, counters) := Choice(s.counters, s.store[id].taskType, |workers|);
      if Allowed(s.store[id].status, DISPATCHED) then
        StartTimer(s.(executing := RemoveAt(s.executing, k),
                      counters := counters,
                      store := s.store[id := AfterDispatch(s.store[id], workers[i], now)],
                      rpcs := s.rpcs + [Rpc(id, workers[i])]), id)
      else
        s.(executing := RemoveAt(s.executing, k), counters := counters)
  }

  /** A thread that slept for lack of a worker queues its task again. */
  function Wake(s: Sys, k: nat): Sys
    requires k < |s.sleeping|
  {
    s.(sleeping := RemoveAt(s.sleeping, k), queue := s.queue + [s.sleeping[k]])
  }

  /** The ExecuteTask call k, of this or of an earlier attempt, returns. */
  function RpcReturned(s: Sys, k: nat, outcome: Outcome, now: int): Sys
    requires k < |s.rpcs| && s.rpcs[k].taskId in s.store
  {
    var id := s.rpcs[k].taskId;
    match outcome
    case Accepted => s.(rpcs := RemoveAt(s.rpcs, k), store := s.store[id := Moved(s.store[id], PROCESSING, now)])
    case Rejected =>
      CancelTimeout(s.(rpcs := RemoveAt(s.rpcs, k), store := s.store[id := Moved(s.store[id], FAILED, now)]), id)
    case GrpcError => s.(rpcs := RemoveAt(s.rpcs, k))
  }

  /** A task whose timeout takes effect: it times out, counts the retry and either waits
      for it or is failed. */
  function AfterTimeout(t: TaskVal, maxRetries: int, now: int): TaskVal {
    var retrying := Moved(Moved(t, TIMEOUT, now), RETRYING, now);
    var counted := retrying.(retryCount := t.retryCount + 1);
    if counted.retryCount >= maxRetries then Moved(counted, FAILED, now) else counted
  }

  /** The live timer k fires. */
  function TimerFires(s: Sys, k: nat, now: int): Sys
    requires k in s.live
  {
    var id := s.live[k];
    if id in s.store && Allowed(s.store[id].status, TIMEOUT) then
      var t := AfterTimeout(s.store[id], s.maxRetries, now);
      s.(live := s.live - {k},
         store := s.store[id := t],
         delayed := if t.retryCount >= s.maxRetries then s.delayed else s.delayed + [id])
    else
      s.(live := s.live - {k})
  }

  /** The delay before a retry is over. */
  function DelayOver(s: Sys, k: nat): Sys
    requires k < |s.delayed|
  {
    s.(delayed := RemoveAt(s.delayed, k), queue := s.queue + [s.delayed[k]])
  }

  // ---------- Results ----------

  datatype ResultMsg = ResultMsg(taskId: nat, status: string, result: string, error: string)

  datatype Ack = UnknownTask | AlreadyTerminal | RefusedTransition | Stored

  /** The status a result message asks for: anything but "COMPLETED" is a failure. */
  function TargetState(msg: ResultMsg): TaskState {
    if msg.status == "COMPLETED" then COMPLETED else FAILED
  }

  /** A result for a dispatched task first moves it to PROCESSING. */
  function Begun(t: TaskVal, now: int): TaskVal {
    if t.status == DISPATCHED then Moved(t, PROCESSING, now) else t
  }

  function AfterResult(t: TaskVal, msg: ResultMsg, now: int): TaskVal {
    if Allowed(Begun(t, now).status, TargetState(msg)) then
      Moved(Begun(t, now), TargetState(msg), now).(
        result := if msg.status == "COMPLETED" then msg.result else msg.error)
    else Begun(t, now)
  }

  function ReturnResult(s: Sys, msg: ResultMsg, now: int): (Sys, Ack) {
    var id := msg.taskId;
    if id !in s.store then (s, UnknownTask)
    else if IsTerminal(s.store[id]) then (s, AlreadyTerminal)
    else
      (CancelTimeout(s.(store := s.store[id := AfterResult(s.store[id], msg, now)]), id),
       if Allowed(Begun(s.store[id], now).status, TargetState(msg)) then Stored else RefusedTransition)
  }

  // ---------- Runs ----------

  datatype Event =
    | Post(taskType: string, payload: string)
    | DequeueNext
    | LookupAnswered(slot: nat, workers: seq<WorkerInfo>)
    | SleeperWakes(slot: nat)
    | CallReturns(slot: nat, outcome: Outcome)
    | TimeoutExpires(timer: nat)
    | DelayExpires(slot: nat)
    | ResultArrives(msg: ResultMsg)

  /** An event together with the clock reading it happens at. */
  datatype Stamped = At(now: int, event: Event)

  /** Every event is possible in every state; one that refers to a thread, call or timer
      that does not exist changes nothing. */
  function Step(s: Sys, e: Stamped): Sys {
    match e.event
    case Post(taskType, payload) => PostTask(s, taskType, payload, e.now).0
    case DequeueNext => Dequeue(s)
    case LookupAnswered(k, workers) =>
      if k < |s.executing| && s.executing[k] in s.store then Dispatch(s, k, workers, e.now) else s
    case SleeperWakes(k) => if k < |s.sleeping| then Wake(s, k) else s
    case CallReturns(k, outcome) =>
      if k < |s.rpcs| && s.rpcs[k].taskId in s.store then RpcReturned(s, k, outcome, e.now) else s
    case TimeoutExpires(k) => if k in s.live then TimerFires(s, k, e.now) else s
    case DelayExpires(k) => if k < |s.delayed| then DelayOver(s, k) else s
    case ResultArrives(msg) => ReturnResult(s, msg, e.now).0
  }

  function Exec(s: Sys, es: seq<Stamped>): Sys
    decreases |es|
  {
    if es == [] then s else Exec(Step(s, es[0]), es[1..])
  }

  lemma {:induction false} ExecConcat(s: Sys, a: seq<Stamped>, b: seq<Stamped>)
    ensures Exec(s, a + b) == Exec(Exec(s, a), b)
    decreases |a|
  {
    if a == [] {
      assert a + b == b;
    } else {
      assert (a + b)[1..] == a[1..] + b;
      ExecConcat(Step(s, a[0]), a[1..], b);
    }
  }
}
