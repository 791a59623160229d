/** The naming service on its mutable list of worker objects. Every method is proved to
    compute the step of RegistrySpec of the same name. */
module Registry {
  import opened RegistrySpec

  class Worker {
    const id: nat
    const taskType: string
    const address: string
    const port: int
    const workerId: string
    const taskTypes: seq<string>
    var lastHeartbeat: real
    var status: string
    var currentLoad: int

    function Val(): Entry
      reads this
    {
      Entry(id, taskType, address, port, workerId, taskTypes, lastHeartbeat, status, currentLoad)
    }

    constructor (taskType: string, address: string, port: int, id: nat, workerId: string, taskTypes: seq<string>,
          now: real)
      ensures Val() == Entry(id, taskType, address, port, workerId, taskTypes, now, "ACTIVE", 0)
    {
      this.taskType := taskType;
      this.address := address;
      this.port := port;
      this.id := id;
      this.workerId := workerId;
      this.taskTypes := taskTypes;
      lastHeartbeat := now;
      status := "ACTIVE";
      currentLoad := 0;
    }
  }

  ghost function Vals(ws: seq<Worker>): (es: seq<Entry>)
    reads ws
    ensures |es| == |ws| && forall i :: 0 <= i < |ws| ==> es[i] == ws[i].Val()
  {
    if ws == [] then [] else Vals(ws[..|ws| - 1]) + [ws[|ws| - 1].Val()]
  }

  function NumberOf(): Worker -> nat {
    (w: Worker) => w.id
  }

  /** The entry numbers rise along the list and stay below the bound. */
  predicate Increasing(ws: seq<Worker>, bound: nat) {
    Rising(NumberOf(), ws, bound)
  }

  lemma OthersDiffer(ws: seq<Worker>, bound: nat, i: nat)
    requires Increasing(ws, bound) && i < |ws|
    ensures ws[i].id < bound
    ensures forall j :: 0 <= j < |ws| && j != i ==> ws[j] != ws[i]
  {
    RisingAt(NumberOf(), ws, bound, i, i);
    forall j | 0 <= j < |ws| && j != i
      ensures ws[j] != ws[i]
    {
      RisingAt(NumberOf(), ws, bound, if i < j then i else j, if i < j then j else i);
    }
  }

  lemma Appended(ws: seq<Worker>, w: Worker)
    ensures Vals(ws + [w]) == Vals(ws) + [w.Val()]
    ensures forall bound :: Increasing(ws, w.id) && w.id < bound ==> Increasing(ws + [w], bound)
  {
    assert (ws + [w])[..|ws|] == ws;
  }

  /** The number of entry i, or the bound past the end. */
  function NumberAt(ws: seq<Worker>, bound: nat, i: nat): nat
    requires i <= |ws|
  {
    if i < |ws| then ws[i].id else bound
  }

  lemma NumbersRise(ws: seq<Worker>, bound: nat, i: nat)
    requires Increasing(ws, bound) && i < |ws|
    ensures NumberAt(ws, bound, i) < NumberAt(ws, bound, i + 1)
  {
    RisingAt(NumberOf(), ws, bound, i, if i + 1 < |ws| then i + 1 else i);
  }

  lemma FilteredNext(ws: seq<Worker>, i: nat, kept: seq<Worker>, p: Entry -> bool)
    requires i < |ws|
    ensures Vals(kept) == Filter(p, Vals(ws[..i])) ==>
      Vals(if p(ws[i].Val()) then kept + [ws[i]] else kept) == Filter(p, Vals(ws[..i + 1]))
  {
    var es := Vals(ws[..i + 1]);
    assert ws[..i + 1][..i] == ws[..i];
    assert es[..i] == Vals(ws[..i]) && es[i] == ws[i].Val();
    Appended(kept, ws[i]);
    assert Vals(kept) + [] == Vals(kept);
  }

  lemma RisingNext(ws: seq<Worker>, bound: nat, i: nat, kept: seq<Worker>)
    requires Increasing(ws, bound) && i < |ws| && Increasing(kept, NumberAt(ws, bound, i))
    ensures Increasing(kept, NumberAt(ws, bound, i + 1)) && Increasing(kept + [ws[i]], NumberAt(ws, bound, i + 1))
  {
    NumbersRise(ws, bound, i);
    RisingBelow(NumberOf(), kept, NumberAt(ws, bound, i), NumberAt(ws, bound, i + 1));
    Appended(kept, ws[i]);
  }

  /** `kept` is the comprehension over the first i entries. */
  ghost predicate KeptSoFar(ws: seq<Worker>, bound: nat, p: Entry -> bool, i: nat, kept: seq<Worker>)
    requires i <= |ws|
    reads ws, kept
  {
    && Vals(kept) == Filter(p, Vals(ws[..i]))
    && Increasing(kept, NumberAt(ws, bound, i))
    && forall w :: w in kept ==> w in ws
  }

  lemma KeepNext(ws: seq<Worker>, bound: nat, p: Entry -> bool, i: nat, kept: seq<Worker>)
    requires Increasing(ws, bound) && i < |ws| && KeptSoFar(ws, bound, p, i, kept)
    ensures KeptSoFar(ws, bound, p, i + 1, if p(ws[i].Val()) then kept + [ws[i]] else kept)
  {
    FilteredNext(ws, i, kept, p);
    RisingNext(ws, bound, i, kept);
  }

  lemma KeepAll(ws: seq<Worker>, bound: nat, p: Entry -> bool, kept: seq<Worker>)
    requires KeptSoFar(ws, bound, p, |ws|, kept)
    ensures Vals(kept) == Filter(p, Vals(ws)) && Increasing(kept, bound)
  {
    assert ws[..|ws|] == ws;
  }

  /** A list comprehension over the entries. */
  method Where(ws: seq<Worker>, p: Entry -> bool, ghost bound: nat) returns (kept: seq<Worker>)
    requires Increasing(ws, bound)
    ensures Vals(kept) == Filter(p, Vals(ws)) && Increasing(kept, bound)
    ensures forall w :: w in kept ==> w in ws
  {
    kept := [];
    for i := 0 to |ws|
      invariant KeptSoFar(ws, bound, p, i, kept)
    {
      KeepNext(ws, bound, p, i, kept);
      if p(ws[i].Val()) {
        kept := kept + [ws[i]];
      }
    }
    KeepAll(ws, bound, p, kept);
  }

  /** list.remove: drops the first occurrence. */
  function Without(ws: seq<Worker>, w: Worker): seq<Worker> {
    if ws == [] then [] else if ws[0] == w then ws[1..] else [ws[0]] + Without(ws[1..], w)
  }

  lemma {:induction false} WithoutMiddle(a: seq<Worker>, w: Worker, b: seq<Worker>)
    requires w !in a
    ensures Without(a + [w] + b, w) == a + b
  {
    if a == [] {
      assert a + [w] + b == [w] + b;
    } else {
      WithoutMiddle(a[1..], w, b);
      assert (a + [w] + b)[1..] == a[1..] + [w] + b;
      assert a + b == [a[0]] + (a[1..] + b);
    }
  }

  /** The references of the first n entries that a sweep keeps. */
  ghost function Kept(ws: seq<Worker>, before: seq<Entry>, n: nat, limit: int, now: real): (kept: seq<Worker>)
    requires n <= |ws| == |before|
    ensures forall w :: w in kept ==> w in ws[..n]
  {
    if n == 0 then []
    else Kept(ws, before, n - 1, limit, now) + if Stays(before[n - 1], limit, now) then [ws[n - 1]] else []
  }

  lemma {:induction false} KeptIncreasing(ws: seq<Worker>, before: seq<Entry>, limit: int, now: real, bound: nat)
    requires |ws| == |before| && Increasing(ws, bound)
    ensures Increasing(Kept(ws, before, |ws|, limit, now), bound)
    decreases |ws|
  {
    if ws != [] {
      var n := |ws| - 1;
      KeptIncreasing(ws[..n], before[..n], limit, now, ws[n].id);
      KeptPrefix(ws, before, n, n, limit, now);
      var k := Kept(ws, before, n, limit, now);
      if Stays(before[n], limit, now) {
        assert (k + [ws[n]])[..|k|] == k;
      } else {
        assert k + [] == k;
        RisingBelow(NumberOf(), k, ws[n].id, bound);
      }
    }
  }

  lemma {:induction false} KeptPrefix(ws: seq<Worker>, before: seq<Entry>, m: nat, n: nat, limit: int, now: real)
    requires n <= m <= |ws| == |before|
    ensures Kept(ws[..m], before[..m], n, limit, now) == Kept(ws, before, n, limit, now)
  {
    if n > 0 {
      KeptPrefix(ws, before, m, n - 1, limit, now);
    }
  }

  /** What a visit leaves of an entry, in the list or taken out of it. */
  function Visited(e: Entry, x: int, limit: int, now: real): Entry {
    if Stays(e, limit, now) then Marked(e, x, now) else e.(status := "OFFLINE")
  }

  /** The value of entry j when the first i were visited. */
  function After(before: seq<Entry>, i: nat, j: nat, x: int, limit: int, now: real): Entry
    requires j < |before|
  {
    if j < i then Visited(before[j], x, limit, now) else before[j]
  }

  lemma {:induction false} KeptVals(ws: seq<Worker>, before: seq<Entry>, n: nat, x: int, limit: int, now: real)
    requires n <= |ws| == |before|
    requires forall j :: 0 <= j < n ==> ws[j].Val() == Visited(before[j], x, limit, now)
    ensures Vals(Kept(ws, before, n, limit, now)) == Swept(before[..n], x, limit, now)
  {
    if n > 0 {
      KeptVals(ws, before, n - 1, x, limit, now);
      assert before[..n][..n - 1] == before[..n - 1];
      var k := Kept(ws, before, n - 1, limit, now);
      if Stays(before[n - 1], limit, now) {
        assert (k + [ws[n - 1]])[..|k|] == k;
      } else {
        assert k + [] == k;
      }
    }
  }

  /** The first i entries were visited, the others were not touched. */
  ghost predicate VisitedUpTo(ws: seq<Worker>, before: seq<Entry>, i: nat, x: int, limit: int, now: real)
    reads ws
  {
    |ws| == |before| && forall j :: 0 <= j < |ws| ==> ws[j].Val() == After(before, i, j, x, limit, now)
  }

  /** How far a sweep has come: `list` is what is kept of the visited entries and the rest. */
  ghost predicate SweptUpTo(list: seq<Worker>, ws: seq<Worker>, before: seq<Entry>, i: nat, x: int, limit: int,
        now: real)
    requires i <= |ws|
    reads ws
  {
    VisitedUpTo(ws, before, i, x, limit, now) && list == Kept(ws, before, i, limit, now) + ws[i..]
  }

  lemma SweepStarts(ws: seq<Worker>, x: int, limit: int, now: real)
    ensures SweptUpTo(ws, ws, Vals(ws), 0, x, limit, now)
  {
    assert [] + ws[0..] == ws;
  }

  lemma SweepEnds(list: seq<Worker>, ws: seq<Worker>, before: seq<Entry>, x: int, limit: int, now: real)
    requires SweptUpTo(list, ws, before, |ws|, x, limit, now)
    ensures list == Kept(ws, before, |ws|, limit, now) && VisitedUpTo(ws, before, |ws|, x, limit, now)
  {
  }

  /** Keeping or removing the next entry extends what is kept. */
  lemma KeptNext(ws: seq<Worker>, before: seq<Entry>, i: nat, limit: int, now: real, bound: nat)
    requires i < |ws| == |before| && Increasing(ws, bound)
    ensures var list := Kept(ws, before, i, limit, now) + ws[i..];
      (if Stays(before[i], limit, now) then list else Without(list, ws[i]))
        == Kept(ws, before, i + 1, limit, now) + ws[i + 1..]
  {
    var k, rest := Kept(ws, before, i, limit, now), ws[i + 1..];
    assert ws[i..] == [ws[i]] + rest;
    assert k + ws[i..] == k + [ws[i]] + rest;
    if !Stays(before[i], limit, now) {
      RemovedNext(ws, before, i, limit, now, bound);
      assert Kept(ws, before, i + 1, limit, now) == k + [] == k;
    }
  }

  lemma RemovedNext(ws: seq<Worker>, before: seq<Entry>, i: nat, limit: int, now: real, bound: nat)
    requires i < |ws| == |before| && Increasing(ws, bound)
    ensures var k := Kept(ws, before, i, limit, now); Without(k + [ws[i]] + ws[i + 1..], ws[i]) == k + ws[i + 1..]
  {
    OthersDiffer(ws, bound, i);
    assert ws[i] !in ws[..i];
    WithoutMiddle(Kept(ws, before, i, limit, now), ws[i], ws[i + 1..]);
  }

  class Namensdienst {
    var workers: seq<Worker>
    var idcount: nat

    ghost predicate Valid()
      reads this
    {
      Increasing(workers, idcount)
    }

    ghost function View(): Reg
      reads this, workers
    {
      Reg(Vals(workers), idcount)
    }

    constructor ()
      ensures Valid() && View() == Init()
    {
      workers := [];
      idcount := 0;
    }

    method NewWorker(p: Registration, taskType: string, now: real) returns (worker: Worker)
      ensures fresh(worker) && worker.Val() == NewEntry(p, idcount, taskType, now)
    {
      worker := new Worker(taskType, p.address, p.port, idcount, p.workerId, ListedTypes(p.taskTypes), now);
      worker.currentLoad := p.currentLoad;
      worker.status := OrActive(p.status);
    }

    method AddEntry(p: Registration, taskType: string, now: real)
      requires Valid()
      modifies this
      ensures Valid() && forall w :: w in workers ==> w in old(workers) || fresh(w)
      ensures View() == Reg(old(View()).workers + [NewEntry(p, old(idcount), taskType, now)], old(idcount) + 1)
    {
      var worker := NewWorker(p, taskType, now);
      Appended(workers, worker);
      workers := workers + [worker];
      idcount := idcount + 1;
    }

    /** The entry for listed type i is added to the ones before it. */
    method AddNext(p: Registration, ghost before: Reg, i: nat, now: real)
      requires Valid() && i < |ListedTypes(p.taskTypes)|
      requires View() == Reg(before.workers + NewEntries(p, before.idcount, i, now), before.idcount + i)
      modifies this
      ensures Valid() && forall w :: w in workers ==> w in old(workers) || fresh(w)
      ensures View() == Reg(before.workers + NewEntries(p, before.idcount, i + 1, now), before.idcount + i + 1)
    {
      NextEntry(p, before.idcount, i, now);
      AddEntry(p, ListedTypes(p.taskTypes)[i], now);
    }

    /** Adds one entry per listed type. */
    method AddEntries(p: Registration, now: real)
      requires Valid()
      modifies this
      ensures Valid() && forall w :: w in workers ==> w in old(workers) || fresh(w)
      ensures var n := |ListedTypes(p.taskTypes)|;
        View() == Reg(old(View()).workers + NewEntries(p, old(idcount), n, now), old(idcount) + n)
    {
      ghost var before := View();
      for i := 0 to |ListedTypes(p.taskTypes)|
        invariant Valid() && forall w :: w in workers ==> w in old(workers) || fresh(w)
        invariant View() == Reg(before.workers + NewEntries(p, before.idcount, i, now), before.idcount + i)
      {
        AddNext(p, before, i, now);
      }
    }

    /** Rebuilds the list with the entries that satisfy p. */
    method Keep(p: Entry -> bool)
      requires Valid()
      modifies this`workers
      ensures Valid() && forall w :: w in workers ==> w in old(workers)
      ensures View() == Reg(Filter(p, old(View()).workers), old(idcount))
    {
      var kept := Where(workers, p, idcount);
      workers := kept;
    }

    method RegisterWorker(p: Registration, now: real) returns (ok: bool)
      requires Valid()
      modifies this
      ensures Valid() && forall w :: w in workers ==> w in old(workers) || fresh(w)
      ensures View() == Register(old(View()), p, now).0 && ok == Register(old(View()), p, now).1
    {
      if p.workerId == "" {
        return false;
      }
      Keep(IsAnother(p));
      AddEntries(p, now);
      ok := true;
    }

    method LookupWorker(taskType: string) returns (found: seq<Worker>)
      requires Valid()
      ensures Vals(found) == Lookup(View(), taskType)
    {
      found := Where(workers, Serves(taskType), idcount);
    }

    method DeregisterWorker(workerId: string) returns (ok: bool)
      requires Valid()
      modifies this`workers
      ensures Valid() && forall w :: w in workers ==> w in old(workers)
      ensures View() == Deregister(old(View()), workerId).0 && ok == Deregister(old(View()), workerId).1
    {
      var removed := Where(workers, HasId(workerId), idcount);
      Keep(HasOtherId(workerId));
      ok := removed != [];
    }

    /** Refreshes the first entry with the id and returns. */
    method SendHeartbeat(b: Beat, now: real) returns (ok: bool)
      requires Valid()
      modifies workers
      ensures Valid()
      ensures View() == Heartbeat(old(View()), b, now).0 && ok == Heartbeat(old(View()), b, now).1
    {
      if b.workerId == "" {
        return false;
      }
      ghost var es := Vals(workers);
      for i := 0 to |workers|
        invariant forall j :: 0 <= j < i ==> es[j].workerId != b.workerId
        invariant Vals(workers) == es
      {
        var worker := workers[i];
        if worker.workerId == b.workerId {
          OthersDiffer(workers, idcount, i);
          worker.lastHeartbeat := now;
          worker.currentLoad := b.currentLoad;
          worker.status := OrActive(b.status);
          assert Vals(workers) == es[i := Refreshed(es[i], b, now)];
          return true;
        }
      }
      ok := false;
    }

    /** One entry in the sweep: marked after x, marked and removed after x * y. */
    method Visit(worker: Worker, x: int, limit: int, now: real)
      modifies this`workers, worker
      ensures workers == if Stays(old(worker.Val()), limit, now) then old(workers) else Without(old(workers), worker)
      ensures worker.Val() == Visited(old(worker.Val()), x, limit, now)
    {
      var elapsed := now - worker.lastHeartbeat;
      if elapsed >= x as real {
        worker.status := "UNHEALTHY";
      }
      if elapsed >= limit as real {
        worker.status := "OFFLINE";
        workers := Without(workers, worker);
      }
    }

    /** Entry i of the copy is visited. */
    method VisitAt(copy: seq<Worker>, ghost before: seq<Entry>, ghost bound: nat, i: nat, x: int, limit: int, now: real)
      requires Increasing(copy, bound) && i < |copy| == |before|
      requires SweptUpTo(workers, copy, before, i, x, limit, now)
      modifies this`workers, copy[i]
      ensures SweptUpTo(workers, copy, before, i + 1, x, limit, now)
    {
      KeptNext(copy, before, i, limit, now, bound);
      OthersDiffer(copy, bound, i);
      assert copy[i].Val() == before[i];
      Visit(copy[i], x, limit, now);
    }

    /** The walk over a copy of the list that marks and removes entries of the list itself. */
    method Walk(x: int, limit: int, now: real)
      requires Valid()
      modifies this`workers, workers
      ensures SweptUpTo(workers, old(workers), old(Vals(workers)), |old(workers)|, x, limit, now)
    {
      var copy := workers;
      ghost var before := Vals(copy);
      SweepStarts(copy, x, limit, now);
      for i := 0 to |copy|
        invariant SweptUpTo(workers, copy, before, i, x, limit, now)
      {
        VisitAt(copy, before, idcount, i, x, limit, now);
      }
    }

    /** The body of the sweep loop at time now. */
    method Sweep(x: int, y: int, now: real)
      requires Valid()
      modifies this`workers, workers
      ensures Valid() && forall w :: w in workers ==> w in old(workers)
      ensures View() == RegistrySpec.Sweep(old(View()), x, y, now)
    {
      var limit := x * y;
      ghost var copy, before := workers, Vals(workers);
      Walk(x, limit, now);
      SweepEnds(workers, copy, before, x, limit, now);
      KeptVals(copy, before, |copy|, x, limit, now);
      KeptIncreasing(copy, before, limit, now, idcount);
      assert before[..|copy|] == before;
    }

    ghost function Listed(): set<Worker>
      reads this
    {
      set w | w in workers
    }

    /** One request or sweep. */
    method Perform(e: Stamped, x: int, y: int)
      requires Valid()
      modifies this, Listed()
      ensures Valid() && forall w :: w in workers ==> w in old(workers) || fresh(w)
      ensures View() == Step(old(View()), e, x, y)
    {
      match e.event
      case Registers(p) => var _ := RegisterWorker(p, e.now);
      case Beats(b) => var _ := SendHeartbeat(b, e.now);
      case Deregisters(workerId) => var _ := DeregisterWorker(workerId);
      case Sweeps => Sweep(x, y, e.now);
    }

    /** Any sequence of requests and sweeps takes the list through the run of RegistrySpec. */
    method Serve(es: seq<Stamped>, x: int, y: int)
      requires Valid()
      modifies this, Listed()
      ensures Valid() && View() == Exec(old(View()), es, x, y)
    {
      for i := 0 to |es|
        invariant Valid() && forall w :: w in workers ==> w in old(workers) || fresh(w)
        invariant Exec(View(), es[i..], x, y) == Exec(old(View()), es, x, y)
      {
        assert es[i..][0] == es[i] && es[i..][1..] == es[i + 1..];
        Perform(es[i], x, y);
      }
    }
  }
}
