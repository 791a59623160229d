/** Round-robin choice of a worker, one counter per task type. */
module RoundRobin {
  import opened Counting
  import opened Protocol

  datatype WorkerInfo = WorkerInfo(workerId: string, address: string, port: int, currentLoad: int)

  /** A defaultdict(int): a missing key counts as zero. */
  function CounterOf(counters: map<string, nat>, taskType: string): nat {
    if taskType in counters then counters[taskType] else 0
  }

  /** The index chosen next and the counters afterwards. */
  function Choice(counters: map<string, nat>, taskType: string, n: nat): (r: (nat, map<string, nat>))
    requires n > 0
    ensures r.0 < n
  {
    (CounterOf(counters, taskType) % n, counters[taskType := CounterOf(counters, taskType) + 1])
  }

  class RoundRobinSelector {
    var counters: map<string, nat>

    constructor ()
      ensures counters == map[]
    {
      counters := map[];
    }

    method Select(taskType: string, workers: seq<WorkerInfo>) returns (chosen: Option<WorkerInfo>)
      modifies this
      ensures workers == [] ==> chosen == None && counters == old(counters)
      ensures workers != [] ==>
        var (i, after) := Choice(old(counters), taskType, |workers|);
        chosen == Some(workers[i]) && counters == after
    {
      if workers == [] {
        return None;
      }
      if taskType !in counters {
        counters := counters[taskType := 0];
      }
      var idx := counters[taskType] % |workers|;
      counters := counters[taskType := counters[taskType] + 1];
      chosen := Some(workers[idx]);
    }
  }

  // ---------- Fairness over any sequence of calls ----------

  datatype Call = Call(taskType: string, workers: seq<WorkerInfo>)

  /** The counters after a sequence of calls, whatever types and lists they name. */
  function CountersAfter(counters: map<string, nat>, calls: seq<Call>): map<string, nat>
    decreases |calls|
  {
    if calls == [] then counters
    else if calls[0].workers == [] then CountersAfter(counters, calls[1..])
    else CountersAfter(Choice(counters, calls[0].taskType, |calls[0].workers|).1, calls[1..])
  }

  /** The indices chosen for one type by a sequence of calls. */
  function Picks(counters: map<string, nat>, calls: seq<Call>, taskType: string): seq<nat>
    decreases |calls|
  {
    if calls == [] then []
    else if calls[0].workers == [] then Picks(counters, calls[1..], taskType)
    else
      var (i, after) := Choice(counters, calls[0].taskType, |calls[0].workers|);
      (if calls[0].taskType == taskType then [i] else []) + Picks(after, calls[1..], taskType)
  }

  ghost predicate ListsOf(calls: seq<Call>, taskType: string, n: nat) {
    forall c :: c in calls && c.taskType == taskType && c.workers != [] ==> |c.workers| == n
  }

  /** The indices a counter that starts at c yields in k selections among n. */
  function Rotation(c: nat, k: nat, n: nat): seq<nat>
    requires n > 0
  {
    seq(k, (j: nat) => (c + j) % n)
  }

  lemma RotationCons(c: nat, m: nat, n: nat)
    requires n > 0
    ensures [c % n] + Rotation(c + 1, m, n) == Rotation(c, m + 1, n)
  {
  }

  /** Other types and empty lists do not disturb a type: its choices are one rotation
      from wherever its counter stood. */
  lemma {:induction false} PicksAreARotation(counters: map<string, nat>, calls: seq<Call>, taskType: string, n: nat)
    requires n > 0 && ListsOf(calls, taskType, n)
    ensures var p := Picks(counters, calls, taskType);
      && p == Rotation(CounterOf(counters, taskType), |p|, n)
      && CounterOf(CountersAfter(counters, calls), taskType) == CounterOf(counters, taskType) + |p|
    decreases |calls|
  {
    if calls != [] {
      var call, rest := calls[0], calls[1..];
      assert call in calls;
      assert ListsOf(rest, taskType, n);
      if call.workers == [] {
        PicksAreARotation(counters, rest, taskType, n);
      } else {
        var after := Choice(counters, call.taskType, |call.workers|).1;
        var q := Picks(after, rest, taskType);
        PicksAreARotation(after, rest, taskType, n);
        if call.taskType == taskType {
          RotationCons(CounterOf(counters, taskType), |q|, n);
        } else {
          assert CounterOf(after, taskType) == CounterOf(counters, taskType);
          assert Picks(counters, calls, taskType) == [] + q == q;
        }
      }
    }
  }

  /** From the start a type's selections run through the indices 0, 1, 2, ... in turn. */
  lemma FirstPicksFirst(calls: seq<Call>, taskType: string, n: nat, j: nat)
    requires n > 0 && ListsOf(calls, taskType, n) && j < |Picks(map[], calls, taskType)|
    ensures Picks(map[], calls, taskType)[j] == j % n
  {
    PicksAreARotation(map[], calls, taskType, n);
  }

  lemma RotationSplit(c: nat, k: nat, m: nat, n: nat)
    requires n > 0
    ensures Rotation(c, k + m, n) == Rotation(c, k, n) + Rotation(c + k, m, n)
  {
  }

  lemma MulAtLeast(a: nat, n: nat)
    requires a > 0
    ensures a * n >= n
  {
    assert a * n == (a - 1) * n + n;
  }

  lemma DivModUnique(x: nat, q: nat, r: nat, n: nat)
    requires r < n && x == q * n + r
    ensures x / n == q && x % n == r
  {
    var q', r' := x / n, x % n;
    assert x == q' * n + r';
    if q' < q {
      MulAtLeast(q - q', n);
    } else if q < q' {
      MulAtLeast(q' - q, n);
    }
  }

  lemma OneRoundFurther(c: nat, n: nat)
    requires n > 0
    ensures (c + n) / n == c / n + 1 && (c + n) % n == c % n
  {
    assert c + n == (c / n + 1) * n + c % n;
    DivModUnique(c + n, c / n + 1, c % n, n);
  }

  lemma DistinctResidues(c: nat, d: nat, n: nat)
    requires 0 < d < n
    ensures c % n != (c + d) % n
  {
    var q, r := c / n, c % n;
    if r + d < n {
      DivModUnique(c + d, q, r + d, n);
    } else {
      assert (q + 1) * n == q * n + n;
      DivModUnique(c + d, q + 1, r + d - n, n);
    }
  }

  lemma DistanceTo(c: nat, n: nat, i: nat) returns (d: nat)
    requires i < n
    ensures d < n && (c + d) % n == i
  {
    var q, r := c / n, c % n;
    if r <= i {
      d := i - r;
      DivModUnique(c + d, q, i, n);
    } else {
      d := n - r + i;
      assert (q + 1) * n == q * n + n;
      DivModUnique(c + d, q + 1, i, n);
    }
  }

  /** Up to n consecutive values meet a residue i at most once, and do so exactly when
      the distance d from c up to the next such value is within reach. */
  lemma {:induction false} ShortRotation(c: nat, k: nat, n: nat, i: nat, d: nat)
    requires i < n && k <= n && d < n && (c + d) % n == i
    ensures Occurrences(Rotation(c, k, n), i) == if d < k then 1 else 0
    decreases k
  {
    if k > 0 {
      var s := Rotation(c, k, n);
      assert s[1..] == Rotation(c + 1, k - 1, n);
      assert s[0] == c % n;
      if d == 0 {
        OneRoundFurther(c, n);
        assert c + 1 + (n - 1) == c + n;
        ShortRotation(c + 1, k - 1, n, i, n - 1);
      } else {
        DistinctResidues(c, d, n);
        assert c + 1 + (d - 1) == c + d;
        ShortRotation(c + 1, k - 1, n, i, d - 1);
      }
    }
  }

  function Floor(k: nat, n: nat): nat
    requires n > 0
  {
    k / n
  }

  function Ceiling(k: nat, n: nat): nat
    requires n > 0
  {
    (k + n - 1) / n
  }

  lemma QuotientBelow(k: nat, n: nat)
    requires 0 < k < n
    ensures Floor(k, n) == 0 && Ceiling(k, n) == 1
  {
    DivModUnique(k, 0, k, n);
    DivModUnique(k + n - 1, 1, k - 1, n);
  }

  /** k selections choose each of the n indices floor(k/n) or ceil(k/n) times. */
  lemma {:induction false} RotationIsFair(c: nat, k: nat, n: nat, i: nat)
    requires i < n
    ensures Floor(k, n) <= Occurrences(Rotation(c, k, n), i) <= Ceiling(k, n)
    ensures k == n ==> Occurrences(Rotation(c, k, n), i) == 1
    decreases k
  {
    if k == 0 {
      DivModUnique(0, 0, 0, n);
    } else if k < n {
      var d := DistanceTo(c, n, i);
      ShortRotation(c, k, n, i, d);
      QuotientBelow(k, n);
    } else {
      var d := DistanceTo(c, n, i);
      ShortRotation(c, n, n, i, d);
      RotationSplit(c, n, k - n, n);
      OccurrencesConcat(Rotation(c, n, n), Rotation(c + n, k - n, n), i);
      assert n + (k - n) == k;
      RotationIsFair(c + n, k - n, n, i);
      OneRoundFurther(k - n, n);
      OneRoundFurther(k - n + n - 1, n);
      assert (k - n) + n - 1 + n == k + n - 1;
    }
  }

  ghost predicate ChosenOnceWithin(p: seq<nat>, from: nat, n: nat, i: nat) {
    from + n <= |p| ==> Occurrences(p[from..from + n], i) == 1
  }

  /** Fairness of the selector over any run: whatever other types and empty lists are
      asked for in between, every one of the n indices of a type's lists is chosen
      floor(k/n) or ceil(k/n) times in the type's k selections, and any n consecutive
      selections choose each index exactly once. An index is a worker as long as the
      lists stay the same. */
  lemma SelectionIsFair(counters: map<string, nat>, calls: seq<Call>, taskType: string, n: nat, i: nat)
    requires i < n && ListsOf(calls, taskType, n)
    ensures var p := Picks(counters, calls, taskType);
      && Floor(|p|, n) <= Occurrences(p, i) <= Ceiling(|p|, n)
      && forall from: nat :: ChosenOnceWithin(p, from, n, i)
  {
    var p := Picks(counters, calls, taskType);
    var c := CounterOf(counters, taskType);
    PicksAreARotation(counters, calls, taskType, n);
    RotationIsFair(c, |p|, n, i);
    forall from: nat | from + n <= |p|
      ensures ChosenOnceWithin(p, from, n, i)
    {
      WindowIsARotation(c, |p|, n, from);
      RotationIsFair(c + from, n, n, i);
    }
  }

  lemma WindowIsARotation(c: nat, k: nat, n: nat, from: nat)
    requires n > 0 && from + n <= k
    ensures Rotation(c, k, n)[from..from + n] == Rotation(c + from, n, n)
  {
    RotationSplit(c, from, k - from, n);
    RotationSplit(c + from, n, k - from - n, n);
    assert from + (k - from) == k && n + (k - from - n) == k - from;
  }
}
