/** The naming service as a state machine on values: a list of entries, one per worker and
    task type, with registration, lookup, deregistration, heartbeat and the periodic sweep
    for an unhealthy threshold x and an offline multiple y. */
module RegistrySpec {

  datatype Entry = Entry(
    id: nat,
    taskType: string,
    address: string,
    port: int,
    workerId: string,
    taskTypes: seq<string>,
    lastHeartbeat: real,
    status: string,
    currentLoad: int)

  datatype Registration = Registration(
    workerId: string, taskTypes: seq<string>, address: string, port: int, status: string, currentLoad: int)

  datatype Beat = Beat(workerId: string, status: string, currentLoad: int)

  datatype Reg = Reg(workers: seq<Entry>, idcount: nat)

  function Init(): Reg {
    Reg([], 0)
  }

  function Filter<T>(p: T -> bool, s: seq<T>): seq<T> {
    if s == [] then []
    else Filter(p, s[..|s| - 1]) + if p(s[|s| - 1]) then [s[|s| - 1]] else []
  }

  /** `status or "ACTIVE"` */
  function OrActive(status: string): string {
    if status == "" then "ACTIVE" else status
  }

  /** `list(task_types) or ["unknown"]` */
  function ListedTypes(taskTypes: seq<string>): seq<string> {
    if taskTypes == [] then ["unknown"] else taskTypes
  }

  predicate SameWorker(e: Entry, p: Registration) {
    e.workerId == p.workerId && e.address == p.address && e.port == p.port
  }

  // The conditions of the list comprehensions.

  function IsAnother(p: Registration): Entry -> bool {
    (e: Entry) => !SameWorker(e, p)
  }

  function Serves(taskType: string): Entry -> bool {
    (e: Entry) => e.taskType == taskType && Usable(e.status)
  }

  function HasId(workerId: string): Entry -> bool {
    (e: Entry) => e.workerId == workerId
  }

  function HasOtherId(workerId: string): Entry -> bool {
    (e: Entry) => e.workerId != workerId
  }

  function NewEntry(p: Registration, id: nat, taskType: string, now: real): Entry {
    Entry(id, taskType, p.address, p.port, p.workerId, ListedTypes(p.taskTypes), now, OrActive(p.status), p.currentLoad)
  }

  /** One entry per listed type, numbered on from `first`. */
  function NewEntries(p: Registration, first: nat, n: nat, now: real): seq<Entry>
    requires n <= |ListedTypes(p.taskTypes)|
  {
    seq(n, (i: nat) requires i < n => NewEntry(p, first + i, ListedTypes(p.taskTypes)[i], now))
  }

  lemma NextEntry(p: Registration, first: nat, i: nat, now: real)
    requires i < |ListedTypes(p.taskTypes)|
    ensures NewEntries(p, first, i + 1, now)
         == NewEntries(p, first, i, now) + [NewEntry(p, first + i, ListedTypes(p.taskTypes)[i], now)]
  {
  }

  /** The reply is false for a missing worker id. */
  function Register(r: Reg, p: Registration, now: real): (Reg, bool) {
    if p.workerId == "" then (r, false)
    else
      var n := |ListedTypes(p.taskTypes)|;
      (Reg(Filter(IsAnother(p), r.workers) + NewEntries(p, r.idcount, n, now), r.idcount + n), true)
  }

  predicate Usable(status: string) {
    status != "UNHEALTHY" && status != "OFFLINE"
  }

  function Lookup(r: Reg, taskType: string): seq<Entry> {
    Filter(Serves(taskType), r.workers)
  }

  /** The reply is true iff something was removed. */
  function Deregister(r: Reg, workerId: string): (Reg, bool) {
    (r.(workers := Filter(HasOtherId(workerId), r.workers)),
     Filter(HasId(workerId), r.workers) != [])
  }

  /** The index of the first entry of the worker, or the length of the list. */
  function FirstOf(workers: seq<Entry>, workerId: string): (i: nat)
    ensures i <= |workers|
    ensures i < |workers| ==> workers[i].workerId == workerId
    ensures forall j :: 0 <= j < i ==> workers[j].workerId != workerId
  {
    if workers == [] || workers[0].workerId == workerId then 0 else 1 + FirstOf(workers[1..], workerId)
  }

  function Refreshed(e: Entry, b: Beat, now: real): Entry {
    e.(lastHeartbeat := now, currentLoad := b.currentLoad, status := OrActive(b.status))
  }

  /** A heartbeat refreshes the first entry with the id and no other. */
  function Heartbeat(r: Reg, b: Beat, now: real): (Reg, bool) {
    var i := FirstOf(r.workers, b.workerId);
    if b.workerId == "" || i == |r.workers| then (r, false)
    else (r.(workers := r.workers[i := Refreshed(r.workers[i], b, now)]), true)
  }

  /** Silent for less than `limit`, which is x * y. */
  predicate Stays(e: Entry, limit: int, now: real) {
    now - e.lastHeartbeat < limit as real
  }

  function Marked(e: Entry, x: int, now: real): Entry {
    if now - e.lastHeartbeat >= x as real then e.(status := "UNHEALTHY") else e
  }

  /** What a sweep promises: the entries silent for less than the limit remain, in their
      order, those silent for x or more of them marked UNHEALTHY, the others untouched. */
  function Swept(workers: seq<Entry>, x: int, limit: int, now: real): seq<Entry> {
    if workers == [] then []
    else
      var e := workers[|workers| - 1];
      Swept(workers[..|workers| - 1], x, limit, now) + if Stays(e, limit, now) then [Marked(e, x, now)] else []
  }

  function Sweep(r: Reg, x: int, y: int, now: real): Reg {
    r.(workers := Swept(r.workers, x, x * y, now))
  }

  // ---------- Runs ----------

  datatype Event =
    | Registers(p: Registration)
    | Beats(b: Beat)
    | Deregisters(workerId: string)
    | Sweeps

  datatype Stamped = At(now: real, event: Event)

  function Step(r: Reg, e: Stamped, x: int, y: int): Reg {
    match e.event
    case Registers(p) => Register(r, p, e.now).0
    case Beats(b) => Heartbeat(r, b, e.now).0
    case Deregisters(w) => Deregister(r, w).0
    case Sweeps => Sweep(r, x, y, e.now)
  }

  function Exec(r: Reg, es: seq<Stamped>, x: int, y: int): Reg
    decreases |es|
  {
    if es == [] then r else Exec(Step(r, es[0], x, y), es[1..], x, y)
  }

  predicate Monotone(t0: real, es: seq<Stamped>)
    decreases |es|
  {
    es == [] || (t0 <= es[0].now && Monotone(es[0].now, es[1..]))
  }

  // ---------- Rising numbers ----------

  /** The numbers rise along the list and stay below the bound. */
  predicate Rising<T>(number: T -> nat, ts: seq<T>, bound: nat) {
    ts == [] || (number(ts[|ts| - 1]) < bound && Rising(number, ts[..|ts| - 1], number(ts[|ts| - 1])))
  }

  lemma {:induction false} RisingBelow<T>(number: T -> nat, ts: seq<T>, bound: nat, bound': nat)
    requires Rising(number, ts, bound) && bound <= bound'
    ensures Rising(number, ts, bound')
  {
  }

  lemma {:induction false} RisingAt<T>(number: T -> nat, ts: seq<T>, bound: nat, i: nat, j: nat)
    requires Rising(number, ts, bound) && i <= j < |ts|
    ensures number(ts[j]) < bound && (i < j ==> number(ts[i]) < number(ts[j]))
    decreases |ts|
  {
    var n := |ts| - 1;
    if j < n {
      RisingAt(number, ts[..n], number(ts[n]), i, j);
    } else if i < n {
      RisingAt(number, ts[..n], number(ts[n]), i, i);
    }
  }

  // ---------- Filtering ----------

  lemma {:induction false} FilterIn<T>(p: T -> bool, s: seq<T>)
    ensures forall e :: e in Filter(p, s) <==> e in s && p(e)
  {
    if s != [] {
      FilterIn(p, s[..|s| - 1]);
      assert s == s[..|s| - 1] + [s[|s| - 1]];
    }
  }

  lemma {:induction false} SweptIn(workers: seq<Entry>, x: int, limit: int, now: real)
    ensures forall e :: e in Swept(workers, x, limit, now) <==>
      exists d :: d in workers && Stays(d, limit, now) && e == Marked(d, x, now)
  {
    if workers != [] {
      var n := |workers| - 1;
      SweptIn(workers[..n], x, limit, now);
      assert workers == workers[..n] + [workers[n]];
    }
  }
}
