/** What holds in every run of the naming service: entry numbers and generations, the
    staleness bound of lookups, and which entries of a live worker are kept. */
module RegistryRuns {
  import opened Protocol
  import opened RegistrySpec

  function Run(es: seq<Stamped>, x: int, y: int): Reg {
    Exec(Init(), es, x, y)
  }

  lemma {:induction false} ExecConcat(r: Reg, a: seq<Stamped>, b: seq<Stamped>, x: int, y: int)
    ensures Exec(r, a + b, x, y) == Exec(Exec(r, a, x, y), b, x, y)
    decreases |a|
  {
    if a == [] {
      assert a + b == b;
    } else {
      assert (a + b)[1..] == a[1..] + b;
      ExecConcat(Step(r, a[0], x, y), a[1..], b, x, y);
    }
  }

  lemma RunSnoc(es: seq<Stamped>, x: int, y: int)
    requires es != []
    ensures Run(es, x, y) == Step(Run(es[..|es| - 1], x, y), es[|es| - 1], x, y)
  {
    var n := |es| - 1;
    assert es == es[..n] + [es[n]];
    assert [es[n]][1..] == [];
    ExecConcat(Init(), es[..n], [es[n]], x, y);
  }

  // ---------- Entry numbers ----------

  function NumberOf(): Entry -> nat {
    (e: Entry) => e.id
  }

  lemma NumbersIdentify(ws: seq<Entry>, bound: nat)
    requires Rising(NumberOf(), ws, bound)
    ensures forall e :: e in ws ==> e.id < bound
    ensures forall d, e :: d in ws && e in ws && d.id == e.id ==> d == e
  {
    forall e | e in ws
      ensures e.id < bound
    {
      var i :| 0 <= i < |ws| && ws[i] == e;
      RisingAt(NumberOf(), ws, bound, i, i);
    }
    forall d, e | d in ws && e in ws && d.id == e.id
      ensures d == e
    {
      var i :| 0 <= i < |ws| && ws[i] == d;
      var j :| 0 <= j < |ws| && ws[j] == e;
      if i < j {
        RisingAt(NumberOf(), ws, bound, i, j);
      } else {
        RisingAt(NumberOf(), ws, bound, j, i);
      }
    }
  }

  lemma {:induction false} FilterRising(p: Entry -> bool, ws: seq<Entry>, bound: nat)
    requires Rising(NumberOf(), ws, bound)
    ensures Rising(NumberOf(), Filter(p, ws), bound)
    decreases |ws|
  {
    if ws != [] {
      var n := |ws| - 1;
      FilterRising(p, ws[..n], ws[n].id);
      var f := Filter(p, ws[..n]);
      if p(ws[n]) {
        assert (f + [ws[n]])[..|f|] == f;
      } else {
        assert f + [] == f;
        RisingBelow(NumberOf(), f, ws[n].id, bound);
      }
    }
  }

  lemma {:induction false} SweptRising(ws: seq<Entry>, x: int, limit: int, now: real, bound: nat)
    requires Rising(NumberOf(), ws, bound)
    ensures Rising(NumberOf(), Swept(ws, x, limit, now), bound)
    decreases |ws|
  {
    if ws != [] {
      var n := |ws| - 1;
      SweptRising(ws[..n], x, limit, now, ws[n].id);
      var f := Swept(ws[..n], x, limit, now);
      if Stays(ws[n], limit, now) {
        assert (f + [Marked(ws[n], x, now)])[..|f|] == f;
      } else {
        assert f + [] == f;
        RisingBelow(NumberOf(), f, ws[n].id, bound);
      }
    }
  }

  lemma {:induction false} UpdateRising(ws: seq<Entry>, bound: nat, i: nat, e: Entry)
    requires Rising(NumberOf(), ws, bound) && i < |ws| && e.id == ws[i].id
    ensures Rising(NumberOf(), ws[i := e], bound)
    decreases |ws|
  {
    var n := |ws| - 1;
    if i < n {
      UpdateRising(ws[..n], ws[n].id, i, e);
      assert ws[i := e][..n] == ws[..n][i := e];
    } else {
      assert ws[i := e][..n] == ws[..n];
    }
  }

  lemma {:induction false} NewRising(ws: seq<Entry>, p: Registration, first: nat, n: nat, now: real)
    requires Rising(NumberOf(), ws, first) && n <= |ListedTypes(p.taskTypes)|
    ensures Rising(NumberOf(), ws + NewEntries(p, first, n, now), first + n)
  {
    if n == 0 {
      assert ws + NewEntries(p, first, n, now) == ws;
    } else {
      NewRising(ws, p, first, n - 1, now);
      NextEntry(p, first, n - 1, now);
      var before := ws + NewEntries(p, first, n - 1, now);
      var after := ws + NewEntries(p, first, n, now);
      assert after == before + [after[|after| - 1]];
      assert after[..|after| - 1] == before;
    }
  }

  predicate NumbersOk(r: Reg) {
    Rising(NumberOf(), r.workers, r.idcount)
  }

  lemma StepKeepsNumbers(r: Reg, e: Stamped, x: int, y: int)
    requires NumbersOk(r)
    ensures NumbersOk(Step(r, e, x, y))
  {
    match e.event
    case Registers(p) =>
      FilterRising(IsAnother(p), r.workers, r.idcount);
      NewRising(Filter(IsAnother(p), r.workers), p, r.idcount, |ListedTypes(p.taskTypes)|, e.now);
    case Beats(b) =>
      var i := FirstOf(r.workers, b.workerId);
      if i < |r.workers| { UpdateRising(r.workers, r.idcount, i, Refreshed(r.workers[i], b, e.now)); }
    case Deregisters(w) => FilterRising(HasOtherId(w), r.workers, r.idcount);
    case Sweeps => SweptRising(r.workers, x, x * y, e.now, r.idcount);
  }

  /** In every reachable state the entry numbers rise along the list, stay below idcount,
      and identify the entries. */
  lemma {:induction false} NumbersRise(r: Reg, es: seq<Stamped>, x: int, y: int)
    requires NumbersOk(r)
    ensures NumbersOk(Exec(r, es, x, y))
    decreases |es|
  {
    if es != [] {
      StepKeepsNumbers(r, es[0], x, y);
      NumbersRise(Step(r, es[0], x, y), es[1..], x, y);
    }
  }

  // ---------- What a step makes of one entry ----------

  predicate IsFirst(r: Reg, d: Entry) {
    var i := FirstOf(r.workers, d.workerId);
    i < |r.workers| && r.workers[i] == d
  }

  /** The entry a step makes of an entry of the list, or None if it takes it out. */
  function Next(r: Reg, s: Stamped, x: int, y: int, d: Entry): Option<Entry> {
    match s.event
    case Registers(p) => if p.workerId != "" && SameWorker(d, p) then None else Some(d)
    case Beats(b) =>
      if b.workerId != "" && d.workerId == b.workerId && IsFirst(r, d) then Some(Refreshed(d, b, s.now)) else Some(d)
    case Deregisters(w) => if d.workerId == w then None else Some(d)
    case Sweeps => if Stays(d, x * y, s.now) then Some(Marked(d, x, s.now)) else None
  }

  /** The entries a step adds. */
  function Added(r: Reg, s: Stamped): seq<Entry> {
    if s.event.Registers? && s.event.p.workerId != "" then
      NewEntries(s.event.p, r.idcount, |ListedTypes(s.event.p.taskTypes)|, s.now)
    else []
  }

  lemma BeatEntries(r: Reg, b: Beat, now: real, x: int, y: int)
    requires NumbersOk(r)
    ensures var s := At(now, Beats(b)); forall e :: e in Step(r, s, x, y).workers <==>
      exists d :: d in r.workers && Next(r, s, x, y, d) == Some(e)
  {
    var s, ws, i := At(now, Beats(b)), r.workers, FirstOf(r.workers, b.workerId);
    NumbersIdentify(ws, r.idcount);
    var ws' := Step(r, s, x, y).workers;
    assert |ws'| == |ws|;
    forall j | 0 <= j < |ws|
      ensures Next(r, s, x, y, ws[j]) == Some(ws'[j])
    {
      if i < |ws| && j != i {
        RisingAt(NumberOf(), ws, r.idcount, if i < j then i else j, if i < j then j else i);
      }
    }
    forall e | e in ws'
      ensures exists d :: d in ws && Next(r, s, x, y, d) == Some(e)
    {
      var j :| 0 <= j < |ws'| && ws'[j] == e;
      assert ws[j] in ws;
    }
    forall d, e | d in ws && Next(r, s, x, y, d) == Some(e)
      ensures e in ws'
    {
      var j :| 0 <= j < |ws| && ws[j] == d;
      assert ws'[j] == e;
    }
  }

  /** The entries after a step are the ones it makes of the entries before it and the ones
      it adds. */
  lemma StepEntries(r: Reg, s: Stamped, x: int, y: int)
    requires NumbersOk(r)
    ensures forall e :: e in Step(r, s, x, y).workers <==>
      e in Added(r, s) || exists d :: d in r.workers && Next(r, s, x, y, d) == Some(e)
  {
    match s.event
    case Registers(p) => FilterIn(IsAnother(p), r.workers);
    case Beats(b) => BeatEntries(r, b, s.now, x, y);
    case Deregisters(w) => FilterIn(HasOtherId(w), r.workers);
    case Sweeps => SweptIn(r.workers, x, x * y, s.now);
  }

  // ---------- Generations ----------

  predicate Accepted(s: Stamped) {
    s.event.Registers? && s.event.p.workerId != ""
  }

  /** Event k is the last accepted registration of the worker at the entry's address. */
  ghost predicate LastRegistration(es: seq<Stamped>, k: nat, e: Entry) {
    && k < |es| && Accepted(es[k]) && SameWorker(e, es[k].event.p)
    && forall j :: k < j < |es| && Accepted(es[j]) ==> !SameWorker(e, es[j].event.p)
  }

  /** The entry is the one a registration that starts at number `first` made for its type. */
  predicate MadeBy(e: Entry, p: Registration, first: nat) {
    && SameWorker(e, p) && e.taskTypes == ListedTypes(p.taskTypes)
    && first <= e.id < first + |ListedTypes(p.taskTypes)|
    && e.taskType == ListedTypes(p.taskTypes)[e.id - first]
  }

  /** Event k is the latest registration of the entry's worker and made the entry. */
  ghost predicate ComesFrom(es: seq<Stamped>, x: int, y: int, k: nat, e: Entry) {
    LastRegistration(es, k, e) && MadeBy(e, es[k].event.p, Run(es[..k], x, y).idcount)
  }

  lemma AddedIsMade(r: Reg, s: Stamped, e: Entry)
    requires e in Added(r, s)
    ensures Accepted(s) && MadeBy(e, s.event.p, r.idcount)
  {
  }

  predicate SameOrigin(d: Entry, e: Entry) {
    && e.id == d.id && e.taskType == d.taskType && e.taskTypes == d.taskTypes
    && e.workerId == d.workerId && e.address == d.address && e.port == d.port
  }

  lemma NextKeepsOrigin(r: Reg, s: Stamped, x: int, y: int, d: Entry, e: Entry)
    requires Next(r, s, x, y, d) == Some(e)
    ensures SameOrigin(d, e) && (Accepted(s) ==> !SameWorker(e, s.event.p))
  {
  }

  lemma StillLast(es: seq<Stamped>, k: nat, d: Entry, e: Entry)
    requires es != [] && LastRegistration(es[..|es| - 1], k, d) && SameOrigin(d, e)
    requires Accepted(es[|es| - 1]) ==> !SameWorker(e, es[|es| - 1].event.p)
    ensures LastRegistration(es, k, e) && es[..|es| - 1][..k] == es[..k]
  {
  }

  /** All entries of one worker id, address and port come from its latest registration. */
  lemma {:induction false} EntriesOfLatestRegistration(es: seq<Stamped>, x: int, y: int, e: Entry)
    requires e in Run(es, x, y).workers
    ensures exists k: nat :: ComesFrom(es, x, y, k, e)
    decreases |es|
  {
    if es != [] {
      var n := |es| - 1;
      var r := Run(es[..n], x, y);
      RunSnoc(es, x, y);
      NumbersRise(Init(), es[..n], x, y);
      StepEntries(r, es[n], x, y);
      if e in Added(r, es[n]) {
        AddedIsMade(r, es[n], e);
        assert ComesFrom(es, x, y, n, e);
      } else {
        var d :| d in r.workers && Next(r, es[n], x, y, d) == Some(e);
        EntriesOfLatestRegistration(es[..n], x, y, d);
        var k: nat :| ComesFrom(es[..n], x, y, k, d);
        NextKeepsOrigin(r, es[n], x, y, d, e);
        StillLast(es, k, d, e);
        assert ComesFrom(es, x, y, k, e);
      }
    }
  }

  function IsThat(p: Registration): Entry -> bool {
    (e: Entry) => SameWorker(e, p)
  }

  lemma {:induction false} FilterConcat<T>(p: T -> bool, a: seq<T>, b: seq<T>)
    ensures Filter(p, a + b) == Filter(p, a) + Filter(p, b)
    decreases |b|
  {
    if b == [] {
      assert a + b == a;
    } else {
      var n := |b| - 1;
      assert (a + b)[..|a + b| - 1] == a + b[..n];
      FilterConcat(p, a, b[..n]);
    }
  }

  lemma {:induction false} FilterAll<T>(p: T -> bool, s: seq<T>)
    requires forall i :: 0 <= i < |s| ==> p(s[i])
    ensures Filter(p, s) == s
  {
    if s != [] {
      FilterAll(p, s[..|s| - 1]);
    }
  }

  lemma {:induction false} FilterNone<T>(p: T -> bool, s: seq<T>)
    requires forall i :: 0 <= i < |s| ==> !p(s[i])
    ensures Filter(p, s) == []
  {
    if s != [] {
      FilterNone(p, s[..|s| - 1]);
    }
  }

  lemma FilterHalves<T>(p: T -> bool, q: T -> bool, a: seq<T>, b: seq<T>)
    requires forall i :: 0 <= i < |a| ==> p(a[i]) && !q(a[i])
    requires forall i :: 0 <= i < |b| ==> q(b[i]) && !p(b[i])
    ensures Filter(p, a + b) == a && Filter(q, a + b) == b
  {
    FilterAll(p, a);
    FilterNone(p, b);
    FilterConcat(p, a, b);
    FilterNone(q, a);
    FilterAll(q, b);
    FilterConcat(q, a, b);
    assert [] + b == b && a + [] == a;
  }

  /** A registration leaves, of the worker at that address, exactly one entry per listed
      type, and of all others what there was before, in the same order. */
  lemma RegisterReplaces(r: Reg, p: Registration, now: real)
    requires p.workerId != ""
    ensures var r' := Register(r, p, now).0;
      && Filter(IsThat(p), r'.workers) == NewEntries(p, r.idcount, |ListedTypes(p.taskTypes)|, now)
      && Filter(IsAnother(p), r'.workers) == Filter(IsAnother(p), r.workers)
      && r'.idcount == r.idcount + |ListedTypes(p.taskTypes)|
  {
    var others := Filter(IsAnother(p), r.workers);
    var added := NewEntries(p, r.idcount, |ListedTypes(p.taskTypes)|, now);
    FilterIn(IsAnother(p), r.workers);
    assert forall i :: 0 <= i < |others| ==> others[i] in others;
    FilterHalves(IsAnother(p), IsThat(p), others, added);
  }

  ghost predicate Absent(r: Reg, workerId: string) {
    forall e :: e in r.workers ==> e.workerId != workerId
  }

  ghost predicate NeverRegisters(es: seq<Stamped>, workerId: string) {
    forall i :: 0 <= i < |es| && Accepted(es[i]) ==> es[i].event.p.workerId != workerId
  }

  lemma {:induction false} AbsentStaysAbsent(r: Reg, es: seq<Stamped>, x: int, y: int, workerId: string)
    requires NumbersOk(r) && Absent(r, workerId) && NeverRegisters(es, workerId)
    ensures Absent(Exec(r, es, x, y), workerId)
    decreases |es|
  {
    if es != [] {
      StepKeepsNumbers(r, es[0], x, y);
      StepEntries(r, es[0], x, y);
      AbsentStaysAbsent(Step(r, es[0], x, y), es[1..], x, y, workerId);
    }
  }

  /** A heartbeat is confirmed iff it names a worker that has an entry, a deregistration iff
      there was an entry to remove, and no lookup returns a worker without one. */
  lemma AnswersAboutAbsent(r: Reg, workerId: string, taskType: string, b: Beat, now: real)
    requires b.workerId == workerId
    ensures Deregister(r, workerId).1 <==> !Absent(r, workerId)
    ensures Heartbeat(r, b, now).1 <==> workerId != "" && !Absent(r, workerId)
    ensures Absent(r, workerId) ==> forall e :: e in Lookup(r, taskType) ==> e.workerId != workerId
  {
    FilterIn(HasId(workerId), r.workers);
    FilterIn(Serves(taskType), r.workers);
    if Absent(r, workerId) {
      FilterNone(HasId(workerId), r.workers);
    } else {
      var e :| e in r.workers && e.workerId == workerId;
      assert e in Filter(HasId(workerId), r.workers);
    }
  }

  /** Deregistration succeeds iff the worker had an entry and touches no other worker; from
      then on, until it registers again, no lookup returns the worker and its heartbeats
      and deregistrations are refused. */
  lemma DeregisteredWorkerIsGone(r: Reg, es: seq<Stamped>, x: int, y: int, workerId: string, taskType: string,
        b: Beat, now: real)
    requires NumbersOk(r) && NeverRegisters(es, workerId) && b.workerId == workerId
    ensures Deregister(r, workerId).1 <==> !Absent(r, workerId)
    ensures forall e :: e in Deregister(r, workerId).0.workers <==> e in r.workers && e.workerId != workerId
    ensures var r' := Exec(Deregister(r, workerId).0, es, x, y);
      && (forall e :: e in Lookup(r', taskType) ==> e.workerId != workerId)
      && !Heartbeat(r', b, now).1 && !Deregister(r', workerId).1
  {
    FilterIn(HasOtherId(workerId), r.workers);
    AnswersAboutAbsent(r, workerId, taskType, b, now);
    var d := Deregister(r, workerId).0;
    FilterRising(HasOtherId(workerId), r.workers, r.idcount);
    AbsentStaysAbsent(d, es, x, y, workerId);
    AnswersAboutAbsent(Exec(d, es, x, y), workerId, taskType, b, now);
  }

  // ---------- Staleness of lookups ----------

  /** Every entry a lookup may return was heard of after `bound`. */
  ghost predicate HeardAfter(r: Reg, bound: real) {
    forall e :: e in r.workers && Usable(e.status) ==> e.lastHeartbeat > bound
  }

  /** The time of the last sweep. */
  function LastSweep(last: Option<real>, es: seq<Stamped>): Option<real>
    decreases |es|
  {
    if es == [] then last else LastSweep(if es[0].event.Sweeps? then Some(es[0].now) else last, es[1..])
  }

  ghost predicate NotStale(r: Reg, last: Option<real>, x: int) {
    last.Some? ==> HeardAfter(r, last.value - x as real)
  }

  lemma StepNotStale(r: Reg, s: Stamped, x: int, y: int, last: Option<real>)
    requires NumbersOk(r) && x > 0 && NotStale(r, last, x) && (last.Some? ==> last.value <= s.now)
    ensures NotStale(Step(r, s, x, y), if s.event.Sweeps? then Some(s.now) else last, x)
  {
    StepEntries(r, s, x, y);
  }

  lemma {:induction false} ExecNotStale(r: Reg, es: seq<Stamped>, x: int, y: int, last: Option<real>, t0: real)
    requires NumbersOk(r) && x > 0 && NotStale(r, last, x) && (last.Some? ==> last.value <= t0) && Monotone(t0, es)
    ensures NotStale(Exec(r, es, x, y), LastSweep(last, es), x)
    decreases |es|
  {
    if es != [] {
      var s := es[0];
      StepNotStale(r, s, x, y, last);
      StepKeepsNumbers(r, s, x, y);
      ExecNotStale(Step(r, s, x, y), es[1..], x, y, if s.event.Sweeps? then Some(s.now) else last, s.now);
    }
  }

  /** Event i is where the entry was last heard of: a registration of its worker, or a
      heartbeat that names it. */
  predicate Heard(es: seq<Stamped>, i: nat, e: Entry) {
    && i < |es| && es[i].now == e.lastHeartbeat
    && (|| (Accepted(es[i]) && SameWorker(e, es[i].event.p))
        || (es[i].event.Beats? && es[i].event.b.workerId == e.workerId))
  }

  lemma AddedIsHeard(r: Reg, s: Stamped, e: Entry)
    requires e in Added(r, s)
    ensures Accepted(s) && SameWorker(e, s.event.p) && s.now == e.lastHeartbeat
  {
  }

  lemma NextIsHeard(r: Reg, s: Stamped, x: int, y: int, d: Entry, e: Entry)
    requires Next(r, s, x, y, d) == Some(e)
    ensures e.lastHeartbeat == d.lastHeartbeat ||
      (s.event.Beats? && s.event.b.workerId == e.workerId && s.now == e.lastHeartbeat)
  {
  }

  /** The time kept in an entry is that of an event of the run. */
  lemma {:induction false} EveryEntryWasHeard(es: seq<Stamped>, x: int, y: int, e: Entry)
    requires e in Run(es, x, y).workers
    ensures exists i: nat :: Heard(es, i, e)
    decreases |es|
  {
    if es != [] {
      var n := |es| - 1;
      var r := Run(es[..n], x, y);
      RunSnoc(es, x, y);
      NumbersRise(Init(), es[..n], x, y);
      StepEntries(r, es[n], x, y);
      if e in Added(r, es[n]) {
        AddedIsHeard(r, es[n], e);
        assert Heard(es, n, e);
      } else {
        var d :| d in r.workers && Next(r, es[n], x, y, d) == Some(e);
        EveryEntryWasHeard(es[..n], x, y, d);
        var i: nat :| Heard(es[..n], i, d);
        NextIsHeard(r, es[n], x, y, d, e);
        NextKeepsOrigin(r, es[n], x, y, d, e);
        assert Heard(es, i, e) || Heard(es, n, e);
      }
    }
  }

  ghost predicate HeardSince(es: seq<Stamped>, e: Entry, bound: real) {
    exists i: nat :: Heard(es, i, e) && es[i].now > bound
  }

  /** There was a registration of the entry's worker or a heartbeat naming it less than x
      before the last sweep, or after it, and the entry's time says so. */
  ghost predicate IsFresh(es: seq<Stamped>, x: int, e: Entry) {
    var last := LastSweep(None, es);
    last.Some? ==> e.lastHeartbeat > last.value - x as real && HeardSince(es, e, last.value - x as real)
  }

  /** So it is with whatever a lookup returns after a run. */
  ghost predicate LookupsAreFresh(es: seq<Stamped>, x: int, y: int) {
    forall taskType, e :: e in Lookup(Run(es, x, y), taskType) ==> IsFresh(es, x, e)
  }

  lemma LookupsAreNotStale(es: seq<Stamped>, x: int, y: int, t0: real)
    requires Monotone(t0, es) && x > 0
    ensures LookupsAreFresh(es, x, y)
  {
    ExecNotStale(Init(), es, x, y, None, t0);
    forall taskType, e | e in Lookup(Run(es, x, y), taskType)
      ensures IsFresh(es, x, e)
    {
      FilterIn(Serves(taskType), Run(es, x, y).workers);
      EveryEntryWasHeard(es, x, y, e);
      var i: nat :| Heard(es, i, e);
    }
  }

  function SweptThenRegistered(t: real): seq<Stamped> {
    [At(t, Sweeps), At(t, Registers(Registration("w", ["reverse"], "h", 1, "", 0)))]
  }

  lemma FreshRegistration(t: real, x: int, y: int)
    ensures var es := SweptThenRegistered(t);
      && Monotone(t, es) && LastSweep(None, es) == Some(t)
      && var e := NewEntry(es[1].event.p, 0, "reverse", t); e in Lookup(Run(es, x, y), "reverse")
  {
    var es := SweptThenRegistered(t);
    var p := es[1].event.p;
    assert es[1..] == [es[1]] && es[1..][1..] == [];
    assert LastSweep(Some(t), es[1..]) == LastSweep(Some(t), []) == Some(t);
    assert Monotone(t, es[1..]);
    assert Step(Init(), es[0], x, y) == Init();
    var r := Register(Init(), p, t).0;
    assert ListedTypes(p.taskTypes) == ["reverse"];
    assert Filter(IsAnother(p), []) == [];
    assert Run(es, x, y) == Exec(Init(), es[1..], x, y) == Exec(r, [], x, y) == r;
    var e := NewEntry(p, 0, "reverse", t);
    NextEntry(p, 0, 0, t);
    assert NewEntries(p, 0, 0, t) == [];
    assert r.workers == [] + NewEntries(p, 0, 1, t) == [e];
    FilterIn(Serves("reverse"), r.workers);
  }

  /** The staleness bound holds of every run with a clock that never runs backwards, from
      whatever time on, exactly for a positive threshold. */
  lemma StalenessBound(x: int, y: int, t0: real)
    ensures (forall es :: Monotone(t0, es) ==> LookupsAreFresh(es, x, y)) <==> x > 0
  {
    if x > 0 {
      forall es | Monotone(t0, es)
        ensures LookupsAreFresh(es, x, y)
      {
        LookupsAreNotStale(es, x, y, t0);
      }
    } else {
      FreshRegistration(t0, x, y);
      var es := SweptThenRegistered(t0);
      var e := NewEntry(es[1].event.p, 0, "reverse", t0);
      assert e in Lookup(Run(es, x, y), "reverse") && !IsFresh(es, x, e);
      assert !LookupsAreFresh(es, x, y);
    }
  }

  // ---------- Types nobody serves ----------

  ghost predicate Unserved(r: Reg, taskType: string) {
    forall e :: e in r.workers ==> e.taskType != taskType
  }

  lemma StepKeepsUnserved(r: Reg, s: Stamped, x: int, y: int, taskType: string)
    requires NumbersOk(r) && Unserved(r, taskType)
    requires Accepted(s) ==> taskType !in ListedTypes(s.event.p.taskTypes)
    ensures Unserved(Step(r, s, x, y), taskType)
  {
    StepEntries(r, s, x, y);
  }

  lemma UnservedLookup(r: Reg, taskType: string)
    requires Unserved(r, taskType)
    ensures Lookup(r, taskType) == []
  {
    FilterNone(Serves(taskType), r.workers);
  }

  // ---------- Live workers ----------

  /** At this event the worker has been silent for less than x, reports itself as active,
      and neither registers nor deregisters. */
  ghost predicate Alive(w: string, last: real, s: Stamped, x: int) {
    && last <= s.now < last + x as real
    && (s.event.Registers? ==> s.event.p.workerId != w)
    && (s.event.Deregisters? ==> s.event.workerId != w)
    && (s.event.Beats? && s.event.b.workerId == w ==> OrActive(s.event.b.status) == "ACTIVE")
  }

  function BeatOf(w: string, last: real, s: Stamped): real {
    if s.event.Beats? && s.event.b.workerId == w then s.now else last
  }

  /** The time of the worker's last heartbeat. */
  function LastBeat(w: string, last: real, es: seq<Stamped>): real
    decreases |es|
  {
    if es == [] then last else LastBeat(w, BeatOf(w, last, es[0]), es[1..])
  }

  /** Throughout the events the worker is never silent for x or longer. */
  ghost predicate KeepsAlive(w: string, last: real, es: seq<Stamped>, x: int)
    decreases |es|
  {
    es == [] || (Alive(w, last, es[0], x) && KeepsAlive(w, BeatOf(w, last, es[0]), es[1..], x))
  }

  predicate IsActive(e: Entry, w: string, f: nat, taskType: string, last: real) {
    e.id == f && e.workerId == w && e.taskType == taskType && e.status == "ACTIVE" && e.lastHeartbeat == last
  }

  /** Number f is the first entry of the worker, active and last heard of at `last`. */
  ghost predicate ActiveFirst(r: Reg, w: string, f: nat, taskType: string, last: real) {
    && (exists e :: e in r.workers && IsActive(e, w, f, taskType, last))
    && (forall e :: e in r.workers && e.workerId == w ==> f <= e.id)
  }

  /** The first entry in the list is the one with the lowest number. */
  lemma FirstIsLowest(r: Reg, d: Entry)
    requires NumbersOk(r) && d in r.workers
    ensures IsFirst(r, d) <==> forall e :: e in r.workers && e.workerId == d.workerId ==> d.id <= e.id
  {
    var ws, i := r.workers, FirstOf(r.workers, d.workerId);
    var j :| 0 <= j < |ws| && ws[j] == d;
    assert i <= j;
    if i == j {
      forall e | e in ws && e.workerId == d.workerId
        ensures d.id <= e.id
      {
        var k :| 0 <= k < |ws| && ws[k] == e;
        RisingAt(NumberOf(), ws, r.idcount, i, k);
      }
    } else {
      RisingAt(NumberOf(), ws, r.idcount, i, j);
      assert ws[i] in ws;
    }
  }

  lemma NextOfFirst(r: Reg, s: Stamped, x: int, y: int, d: Entry, last: real)
    requires NumbersOk(r) && d in r.workers && d.status == "ACTIVE" && d.lastHeartbeat == last && d.workerId != ""
    requires IsFirst(r, d) && y >= 1 && Alive(d.workerId, last, s, x)
    ensures Next(r, s, x, y, d)
         == Some(if s.event.Beats? && s.event.b.workerId == d.workerId then Refreshed(d, s.event.b, s.now) else d)
  {
    Multiple(x, y);
  }

  lemma StepKeepsFirst(r: Reg, s: Stamped, x: int, y: int, w: string, f: nat, taskType: string, last: real)
    requires NumbersOk(r) && ActiveFirst(r, w, f, taskType, last) && y >= 1 && w != "" && Alive(w, last, s, x)
    ensures ActiveFirst(Step(r, s, x, y), w, f, taskType, BeatOf(w, last, s))
  {
    var d :| d in r.workers && IsActive(d, w, f, taskType, last);
    FirstIsLowest(r, d);
    NextOfFirst(r, s, x, y, d, last);
    StepEntries(r, s, x, y);
    var e := Next(r, s, x, y, d).value;
    assert e in Step(r, s, x, y).workers && IsActive(e, w, f, taskType, BeatOf(w, last, s));
    assert forall e :: e in Added(r, s) ==> e.workerId != w;
  }

  lemma Multiple(x: int, y: int)
    requires y >= 1
    ensures x >= 0 ==> x * y >= x
  {
    if x >= 0 {
      assert x * y == x + x * (y - 1);
      assert x * (y - 1) >= 0;
    }
  }

  lemma {:induction false} FirstEntryIsKept(r: Reg, es: seq<Stamped>, x: int, y: int, w: string, f: nat,
        taskType: string, last: real)
    requires NumbersOk(r) && ActiveFirst(r, w, f, taskType, last) && y >= 1 && w != "" && KeepsAlive(w, last, es, x)
    ensures ActiveFirst(Exec(r, es, x, y), w, f, taskType, LastBeat(w, last, es))
    decreases |es|
  {
    if es != [] {
      StepKeepsFirst(r, es[0], x, y, w, f, taskType, last);
      StepKeepsNumbers(r, es[0], x, y);
      FirstEntryIsKept(Step(r, es[0], x, y), es[1..], x, y, w, f, taskType, BeatOf(w, last, es[0]));
    }
  }

  /** The lookup returns the entry with this number. */
  ghost predicate Returned(r: Reg, taskType: string, id: nat) {
    exists e :: e in Lookup(r, taskType) && e.id == id
  }

  /** A sweep marks an entry that was last heard of at `last`. */
  predicate SweptLate(last: real, es: seq<Stamped>, x: int)
    decreases |es|
  {
    es != [] && ((es[0].event.Sweeps? && es[0].now - last >= x as real) || SweptLate(last, es[1..], x))
  }

  /** The entry is no longer usable and stays so. */
  ghost predicate Lost(r: Reg, w: string, id: nat) {
    id < r.idcount && forall e :: e in r.workers && e.id == id ==> e.workerId == w && !Usable(e.status)
  }

  lemma NextOfOther(r: Reg, s: Stamped, x: int, y: int, d: Entry)
    requires d in r.workers && d.workerId != "" && !IsFirst(r, d)
    requires s.event.Registers? ==> s.event.p.workerId != d.workerId
    requires s.event.Deregisters? ==> s.event.workerId != d.workerId
    requires s.event.Sweeps? && s.now - d.lastHeartbeat < x as real ==> Stays(d, x * y, s.now)
    ensures Next(r, s, x, y, d) == (
      if s.event.Sweeps? && s.now - d.lastHeartbeat >= x as real then
        if Stays(d, x * y, s.now) then Some(d.(status := "UNHEALTHY")) else None
      else Some(d))
  {
  }

  /** The entry d of the worker is not its first one. */
  ghost predicate Behind(r: Reg, w: string, f: nat, id: nat) {
    (exists e :: e in r.workers && e.workerId == w && e.id == f) && f < id
  }

  lemma StepOfOther(r: Reg, s: Stamped, x: int, y: int, w: string, f: nat, d: Entry, last: real)
    requires NumbersOk(r) && Behind(r, w, f, d.id) && d in r.workers && d.workerId == w && d.status == "ACTIVE"
    requires y >= 1 && w != "" && Alive(w, last, s, x)
    ensures var r' := Step(r, s, x, y);
      if s.event.Sweeps? && s.now - d.lastHeartbeat >= x as real then Lost(r', w, d.id) else d in r'.workers
  {
    FirstIsLowest(r, d);
    Multiple(x, y);
    NextOfOther(r, s, x, y, d);
    StepEntries(r, s, x, y);
    NumbersIdentify(r.workers, r.idcount);
  }

  lemma StepOfLost(r: Reg, s: Stamped, x: int, y: int, w: string, f: nat, id: nat, last: real)
    requires NumbersOk(r) && Behind(r, w, f, id) && Lost(r, w, id)
    requires w != "" && Alive(w, last, s, x)
    ensures Lost(Step(r, s, x, y), w, id)
  {
    StepEntries(r, s, x, y);
    forall e | e in Step(r, s, x, y).workers && e.id == id
      ensures e.workerId == w && !Usable(e.status)
    {
      assert e !in Added(r, s);
      var d :| d in r.workers && Next(r, s, x, y, d) == Some(e);
      FirstIsLowest(r, d);
    }
  }

  lemma FirstIsBehind(r: Reg, w: string, f: nat, taskType: string, last: real, id: nat)
    requires ActiveFirst(r, w, f, taskType, last) && f < id
    ensures Behind(r, w, f, id)
  {
    var e :| e in r.workers && IsActive(e, w, f, taskType, last);
  }

  lemma {:induction false} LostStaysLost(r: Reg, es: seq<Stamped>, x: int, y: int, w: string, f: nat,
        taskType: string, last: real, id: nat)
    requires NumbersOk(r) && ActiveFirst(r, w, f, taskType, last) && f < id && Lost(r, w, id)
    requires y >= 1 && w != "" && KeepsAlive(w, last, es, x)
    ensures Lost(Exec(r, es, x, y), w, id)
    decreases |es|
  {
    if es != [] {
      FirstIsBehind(r, w, f, taskType, last, id);
      StepOfLost(r, es[0], x, y, w, f, id, last);
      StepKeepsFirst(r, es[0], x, y, w, f, taskType, last);
      StepKeepsNumbers(r, es[0], x, y);
      LostStaysLost(Step(r, es[0], x, y), es[1..], x, y, w, f, taskType, BeatOf(w, last, es[0]), id);
    }
  }

  /** Heartbeats do not reach the entries behind the first: such an entry stays as it is
      until a sweep finds it too old, and is lost from then on. */
  lemma {:induction false} EntryBehindGoesStale(r: Reg, es: seq<Stamped>, x: int, y: int, w: string, f: nat,
        taskType: string, last: real, d: Entry)
    requires NumbersOk(r) && ActiveFirst(r, w, f, taskType, last)
    requires d in r.workers && d.workerId == w && d.status == "ACTIVE" && f < d.id
    requires y >= 1 && w != "" && KeepsAlive(w, last, es, x)
    ensures if SweptLate(d.lastHeartbeat, es, x) then Lost(Exec(r, es, x, y), w, d.id)
      else d in Exec(r, es, x, y).workers
    decreases |es|
  {
    if es != [] {
      var r', last' := Step(r, es[0], x, y), BeatOf(w, last, es[0]);
      FirstIsBehind(r, w, f, taskType, last, d.id);
      StepOfOther(r, es[0], x, y, w, f, d, last);
      StepKeepsFirst(r, es[0], x, y, w, f, taskType, last);
      StepKeepsNumbers(r, es[0], x, y);
      if es[0].event.Sweeps? && es[0].now - d.lastHeartbeat >= x as real {
        LostStaysLost(r', es[1..], x, y, w, f, taskType, last', d.id);
      } else {
        EntryBehindGoesStale(r', es[1..], x, y, w, f, taskType, last', d);
      }
    }
  }

  /** The entries of a worker that heartbeats in time: its first entry (its only one, if it
      serves one type) is returned by every lookup of its type until the worker registers
      anew or deregisters; any other is returned exactly until a sweep comes x or more
      after the entry was last heard of, however often the worker sends heartbeats. */
  lemma LiveWorkerIsKept(r: Reg, es: seq<Stamped>, x: int, y: int, w: string, f: nat, taskType: string, last: real,
        d: Entry)
    requires NumbersOk(r) && ActiveFirst(r, w, f, taskType, last)
    requires d in r.workers && d.workerId == w && d.status == "ACTIVE"
    requires y >= 1 && w != "" && KeepsAlive(w, last, es, x)
    ensures Returned(Exec(r, es, x, y), d.taskType, d.id) <==> d.id == f || !SweptLate(d.lastHeartbeat, es, x)
  {
    var r' := Exec(r, es, x, y);
    FilterIn(Serves(d.taskType), r'.workers);
    NumbersIdentify(r.workers, r.idcount);
    if d.id == f {
      FirstEntryIsKept(r, es, x, y, w, f, taskType, last);
      var e :| e in r'.workers && IsActive(e, w, f, taskType, LastBeat(w, last, es));
      assert e in Lookup(r', d.taskType);
    } else {
      EntryBehindGoesStale(r, es, x, y, w, f, taskType, last, d);
      if !SweptLate(d.lastHeartbeat, es, x) {
        assert d in Lookup(r', d.taskType);
      }
    }
  }
}
