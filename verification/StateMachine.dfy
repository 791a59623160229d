/** The task record and its state machine: the transition table, transition() as a
    function on task values, and the mutable Task object whose method is proved to
    compute that function in place. */
module StateMachine {
  import opened Protocol

  /** The table VALID_TRANSITIONS as a relation. */
  predicate Allowed(from: TaskState, to: TaskState) {
    match from
    case CREATED => to == QUEUED
    case QUEUED => to == DISPATCHED || to == FAILED
    case DISPATCHED => to == PROCESSING || to == TIMEOUT || to == FAILED
    case PROCESSING => to == COMPLETED || to == FAILED || to == TIMEOUT
    case TIMEOUT => to == RETRYING
    case RETRYING => to == DISPATCHED || to == FAILED
    case COMPLETED => false
    case FAILED => false
  }

  predicate IsTerminalState(status: TaskState) {
    status == COMPLETED || status == FAILED
  }

  /** The arrows of the state diagram. */
  const ARROWS := {
    (CREATED, QUEUED), (QUEUED, DISPATCHED), (QUEUED, FAILED), (DISPATCHED, PROCESSING), (DISPATCHED, TIMEOUT),
    (DISPATCHED, FAILED), (PROCESSING, COMPLETED), (PROCESSING, FAILED), (PROCESSING, TIMEOUT), (TIMEOUT, RETRYING),
    (RETRYING, DISPATCHED), (RETRYING, FAILED)}

  /** The table allows exactly the arrows; a status without an arrow from it is terminal, and
      from every other one an arrow leads on towards the end. */
  lemma TableIsTheDiagram(from: TaskState, to: TaskState)
    ensures Allowed(from, to) <==> (from, to) in ARROWS
    ensures IsTerminalState(from) <==> forall next :: !Allowed(from, next)
    ensures from == CREATED || exists before :: Allowed(before, from)
  {
    assert Allowed(CREATED, QUEUED) && Allowed(QUEUED, DISPATCHED) && Allowed(DISPATCHED, PROCESSING);
    assert Allowed(PROCESSING, COMPLETED) && Allowed(DISPATCHED, TIMEOUT) && Allowed(TIMEOUT, RETRYING);
    assert Allowed(RETRYING, FAILED);
  }

  predicate IsRunning(status: TaskState) {
    status == DISPATCHED || status == PROCESSING
  }

  predicate IsWaiting(status: TaskState) {
    status == QUEUED || status == RETRYING
  }

  /** The value of a task. `path` (every status it ever had, in order) and `attempts`
      (how often it was sent to a worker) are history variables: no step reads them. */
  datatype TaskVal = TaskVal(
    taskId: nat,
    taskType: string,
    payload: string,
    result: string,
    status: TaskState,
    timestampCreated: int,
    timestampDispatched: int,
    timestampCompleted: int,
    retryCount: nat,
    assignedWorker: string,
    path: seq<TaskState>,
    attempts: nat)

  function NewTask(taskId: nat, taskType: string, payload: string, now: int): TaskVal {
    TaskVal(taskId, taskType, payload, "", QUEUED, now, 0, 0, 0, "", [QUEUED], 0)
  }

  predicate IsTerminal(t: TaskVal) {
    IsTerminalState(t.status)
  }

  /** transition(): a change the table refuses raises InvalidTransitionError and leaves
      the task as it is. */
  function Moved(t: TaskVal, to: TaskState, now: int): TaskVal {
    if Allowed(t.status, to) then
      t.(status := to,
         path := t.path + [to],
         timestampDispatched := if to == DISPATCHED then now else t.timestampDispatched,
         timestampCompleted := if IsTerminalState(to) then now else t.timestampCompleted)
    else t
  }

  predicate LegalMove(p: seq<TaskState>, i: nat)
    requires 0 < i < |p|
  {
    Allowed(p[i - 1], p[i])
  }

  /** A path of the transition table that starts at QUEUED. */
  predicate LegalPath(p: seq<TaskState>) {
    && p != []
    && p[0] == QUEUED
    && forall i :: 0 < i < |p| ==> LegalMove(p, i)
  }

  /** How many times a dispatched task may time out before it is failed. */
  function RetryCap(maxRetries: int): nat {
    if maxRetries < 1 then 1 else maxRetries
  }

  /** An upper bound on the status changes that are still possible, from the retries
      that remain and the rank of the status. */
  function ChangesLeft(status: TaskState, retryCount: nat, maxRetries: int): int {
    var remaining := 4 * (RetryCap(maxRetries) - retryCount);
    match status
    case CREATED => remaining + 2
    case QUEUED => remaining + 1
    case RETRYING => remaining + 1
    case DISPATCHED => remaining
    case PROCESSING => remaining - 1
    case TIMEOUT => remaining - 2
    case COMPLETED => 0
    case FAILED => 0
  }

  class Task {
    const taskId: nat
    const taskType: string
    const payload: string
    const timestampCreated: int
    var result: string
    var status: TaskState
    var timestampDispatched: int
    var timestampCompleted: int
    var retryCount: nat
    var assignedWorker: string
    ghost var path: seq<TaskState>
    ghost var attempts: nat

    ghost function Val(): TaskVal
      reads this
    {
      TaskVal(taskId, taskType, payload, result, status, timestampCreated, timestampDispatched,
              timestampCompleted, retryCount, assignedWorker, path, attempts)
    }

    constructor (taskId: nat, taskType: string, payload: string, now: int)
      ensures Val() == NewTask(taskId, taskType, payload, now)
    {
      this.taskId := taskId;
      this.taskType := taskType;
      this.payload := payload;
      timestampCreated := now;
      result := "";
      status := QUEUED;
      timestampDispatched := 0;
      timestampCompleted := 0;
      retryCount := 0;
      assignedWorker := "";
      path := [QUEUED];
      attempts := 0;
    }

    method DoTransition(to: TaskState, now: int) returns (ok: bool)
      modifies this
      ensures ok <==> Allowed(old(status), to)
      ensures Val() == Moved(old(Val()), to, now)
    {
      if !Allowed(status, to) {
        return false;
      }
      status := to;
      path := path + [to];
      if to == DISPATCHED {
        timestampDispatched := now;
      } else if to == COMPLETED || to == FAILED {
        timestampCompleted := now;
      }
      ok := true;
    }
  }

  /** A transition extends a legal path by its own status. */
  lemma MovedExtendsPath(t: TaskVal, to: TaskState, now: int)
    requires LegalPath(t.path) && t.path[|t.path| - 1] == t.status && Allowed(t.status, to)
    ensures var u := Moved(t, to, now);
      LegalPath(u.path) && u.status == to == u.path[|u.path| - 1] && |u.path| == |t.path| + 1
  {
    var u := Moved(t, to, now);
    forall i | 0 < i < |u.path|
      ensures LegalMove(u.path, i)
    {
      if i < |t.path| {
        assert LegalMove(t.path, i);
      }
    }
  }

  /** Every change the table allows uses up at least one of the changes left; entering
      RETRYING is taken together with the retry it counts. */
  lemma EveryChangeIsPaidFor(from: TaskState, to: TaskState, retryCount: nat, maxRetries: int)
    requires Allowed(from, to)
    requires
      || retryCount < RetryCap(maxRetries)
      || (from == RETRYING && to == FAILED && retryCount == RetryCap(maxRetries))
    ensures ChangesLeft(to, if to == RETRYING then retryCount + 1 else retryCount, maxRetries)
         < ChangesLeft(from, retryCount, maxRetries)
  {
  }
}
