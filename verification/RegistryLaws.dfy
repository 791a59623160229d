/** The requests to the naming service and its sweep, stated on the fields of the entries:
    what is in the list afterwards, in which order, and what is answered. */
module RegistryLaws {
  import opened Protocol
  import opened RegistrySpec
  import opened RegistryRuns

  /** The entry is at this worker id, address and port. */
  predicate AtAddress(e: Entry, workerId: string, address: string, port: int) {
    e.workerId == workerId && e.address == address && e.port == port
  }

  /** The entry that a registration at this time makes for its listed type i. */
  predicate Registered(e: Entry, p: Registration, types: seq<string>, first: nat, i: nat, now: real)
    requires i < |types|
  {
    && e.id == first + i && e.taskType == types[i] && e.taskTypes == types
    && AtAddress(e, p.workerId, p.address, p.port)
    && e.lastHeartbeat == now && e.currentLoad == p.currentLoad
    && e.status == if p.status == "" then "ACTIVE" else p.status
  }

  /** A registration is accepted iff it names a worker. Then the entries at its address are
      replaced by one per listed type, numbered on from idcount; else nothing changes. */
  lemma RegisterByCases(r: Reg, p: Registration, now: real)
    requires NumbersOk(r)
    ensures Register(r, p, now).1 <==> p.workerId != ""
    ensures p.workerId == "" ==> Register(r, p, now).0 == r
    ensures p.workerId != "" ==>
      var r', types := Register(r, p, now).0, if p.taskTypes == [] then ["unknown"] else p.taskTypes;
      && NumbersOk(r') && r'.idcount == r.idcount + |types|
      && forall e :: e in r'.workers <==>
           || (e in r.workers && !AtAddress(e, p.workerId, p.address, p.port))
           || exists i: nat :: i < |types| && Registered(e, p, types, r.idcount, i, now)
  {
    if p.workerId != "" {
      var r', types := Register(r, p, now).0, if p.taskTypes == [] then ["unknown"] else p.taskTypes;
      var added := NewEntries(p, r.idcount, |types|, now);
      StepKeepsNumbers(r, At(now, Registers(p)), 0, 0);
      FilterIn(IsAnother(p), r.workers);
      forall e | e in added
        ensures exists i: nat :: i < |types| && Registered(e, p, types, r.idcount, i, now)
      {
        var i: nat :| i < |added| && added[i] == e;
        assert Registered(e, p, types, r.idcount, i, now);
      }
      forall e, i: nat | i < |types| && Registered(e, p, types, r.idcount, i, now)
        ensures e in added
      {
        assert added[i] == e;
      }
    }
  }

  /** A lookup returns the entries of the type whose status is neither UNHEALTHY nor
      OFFLINE, DRAINING ones among them, in the order of their numbers. */
  lemma LookupByStatus(r: Reg, taskType: string)
    requires NumbersOk(r)
    ensures forall e :: e in Lookup(r, taskType) <==>
      e in r.workers && e.taskType == taskType && e.status != "UNHEALTHY" && e.status != "OFFLINE"
    ensures var found := Lookup(r, taskType); forall i, j :: 0 <= i < j < |found| ==> found[i].id < found[j].id
  {
    var found := Lookup(r, taskType);
    FilterIn(Serves(taskType), r.workers);
    FilterRising(Serves(taskType), r.workers, r.idcount);
    forall i, j | 0 <= i < j < |found|
      ensures found[i].id < found[j].id
    {
      RisingAt(NumberOf(), found, r.idcount, i, j);
    }
  }

  /** No entry of the worker has a lower number. */
  ghost predicate Lowest(r: Reg, d: Entry) {
    forall e :: e in r.workers && e.workerId == d.workerId ==> d.id <= e.id
  }

  /** What a heartbeat makes of an entry. */
  ghost predicate Beaten(r: Reg, b: Beat, now: real, d: Entry, e: Entry) {
    if b.workerId != "" && d.workerId == b.workerId && Lowest(r, d) then
      e == d.(lastHeartbeat := now, currentLoad := b.currentLoad,
              status := if b.status == "" then "ACTIVE" else b.status)
    else e == d
  }

  /** A heartbeat is confirmed iff it names a worker with an entry. It sets time, load and
      status of the worker's entry with the lowest number and changes nothing else. */
  lemma HeartbeatByCases(r: Reg, b: Beat, now: real)
    requires NumbersOk(r)
    ensures var (r', ok) := Heartbeat(r, b, now);
      && NumbersOk(r') && r'.idcount == r.idcount
      && (ok <==> b.workerId != "" && exists d :: d in r.workers && d.workerId == b.workerId)
      && forall e :: e in r'.workers <==> exists d :: d in r.workers && Beaten(r, b, now, d, e)
  {
    var s := At(now, Beats(b));
    StepKeepsNumbers(r, s, 0, 0);
    StepEntries(r, s, 0, 0);
    AnswersAboutAbsent(r, b.workerId, "", b, now);
    forall d | d in r.workers
      ensures forall e :: Next(r, s, 0, 0, d) == Some(e) <==> Beaten(r, b, now, d, e)
    {
      FirstIsLowest(r, d);
    }
  }

  /** The sweep keeps d, which has been silent for less than x * y, as e: marked UNHEALTHY if
      it was silent for x or more, else as it is. */
  predicate KeptAs(x: int, y: int, now: real, d: Entry, e: Entry) {
    && now - d.lastHeartbeat < (x * y) as real
    && e == if now - d.lastHeartbeat >= x as real then d.(status := "UNHEALTHY") else d
  }

  /** A sweep keeps exactly the entries silent for less than x * y, marks those of them that
      were silent for x or more, and leaves the others as they are. */
  lemma SweepBySilence(r: Reg, x: int, y: int, now: real)
    requires NumbersOk(r)
    ensures var r' := Sweep(r, x, y, now);
      && NumbersOk(r') && r'.idcount == r.idcount
      && forall e :: e in r'.workers <==> exists d :: d in r.workers && KeptAs(x, y, now, d, e)
  {
    StepKeepsNumbers(r, At(now, Sweeps), x, y);
    SweptIn(r.workers, x, x * y, now);
    assert forall d, e :: KeptAs(x, y, now, d, e) <==> Stays(d, x * y, now) && e == Marked(d, x, now);
  }

  /** So an entry is still in the list after a sweep iff it was silent for less than x * y. */
  lemma SweepByNumber(r: Reg, x: int, y: int, now: real, d: Entry)
    requires NumbersOk(r) && d in r.workers
    ensures (exists e :: e in Sweep(r, x, y, now).workers && e.id == d.id) <==> now - d.lastHeartbeat < (x * y) as real
  {
    SweepBySilence(r, x, y, now);
    NumbersIdentify(r.workers, r.idcount);
    var e := if now - d.lastHeartbeat >= x as real then d.(status := "UNHEALTHY") else d;
    if now - d.lastHeartbeat < (x * y) as real {
      assert KeptAs(x, y, now, d, e);
    }
  }

  // ---------- Silent workers ----------

  /** All entries of the worker have been silent for `limit` or longer. */
  ghost predicate SilentFor(r: Reg, workerId: string, limit: real, now: real) {
    forall e :: e in r.workers && e.workerId == workerId ==> now - e.lastHeartbeat >= limit
  }

  /** A sweep takes a worker out of the list exactly if all its entries have been silent for
      x * y or longer. From then on, until it registers again, no lookup returns it and its
      heartbeats and deregistrations are refused. */
  lemma SilentWorkerIsRemoved(r: Reg, es: seq<Stamped>, x: int, y: int, now: real, workerId: string,
        taskType: string, b: Beat, later: real)
    requires NumbersOk(r) && NeverRegisters(es, workerId) && b.workerId == workerId
    ensures Absent(Sweep(r, x, y, now), workerId) <==> SilentFor(r, workerId, (x * y) as real, now)
    ensures SilentFor(r, workerId, (x * y) as real, now) ==>
      var r' := Exec(Sweep(r, x, y, now), es, x, y);
      && (forall e :: e in Lookup(r', taskType) ==> e.workerId != workerId)
      && !Heartbeat(r', b, later).1 && !Deregister(r', workerId).1
  {
    var swept := Sweep(r, x, y, now);
    SilentIsAbsent(r, x, y, now, workerId);
    if SilentFor(r, workerId, (x * y) as real, now) {
      StepKeepsNumbers(r, At(now, Sweeps), x, y);
      AbsentStaysAbsent(swept, es, x, y, workerId);
      AnswersAboutAbsent(Exec(swept, es, x, y), workerId, taskType, b, later);
    }
  }

  lemma SilentIsAbsent(r: Reg, x: int, y: int, now: real, workerId: string)
    requires NumbersOk(r)
    ensures Absent(Sweep(r, x, y, now), workerId) <==> SilentFor(r, workerId, (x * y) as real, now)
  {
    SweepBySilence(r, x, y, now);
    if !SilentFor(r, workerId, (x * y) as real, now) {
      var d :| d in r.workers && d.workerId == workerId && now - d.lastHeartbeat < (x * y) as real;
      var e := if now - d.lastHeartbeat >= x as real then d.(status := "UNHEALTHY") else d;
      assert KeptAs(x, y, now, d, e) && e.workerId == workerId;
    }
  }

  /** The event is an accepted registration of the worker or a heartbeat that names it. */
  predicate NamesIt(s: Stamped, workerId: string) {
    || (Accepted(s) && s.event.p.workerId == workerId)
    || (s.event.Beats? && s.event.b.workerId == workerId)
  }

  /** Over runs: a sweep that comes x * y or more after everything that was heard of a worker
      leaves no entry of it. */
  lemma SilenceRemoves(es: seq<Stamped>, x: int, y: int, now: real, workerId: string)
    requires forall i :: 0 <= i < |es| && NamesIt(es[i], workerId) ==> now - es[i].now >= (x * y) as real
    ensures Absent(Run(es + [At(now, Sweeps)], x, y), workerId)
  {
    var r, all := Run(es, x, y), es + [At(now, Sweeps)];
    NumbersRise(Init(), es, x, y);
    forall e | e in r.workers && e.workerId == workerId
      ensures now - e.lastHeartbeat >= (x * y) as real
    {
      EveryEntryWasHeard(es, x, y, e);
      var i: nat :| Heard(es, i, e);
      assert NamesIt(es[i], workerId);
    }
    SilentIsAbsent(r, x, y, now, workerId);
    RunSnoc(all, x, y);
    assert all[..|all| - 1] == es;
  }
}
