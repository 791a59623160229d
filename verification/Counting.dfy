/** How often a number occurs in a sequence. */
module Counting {

  function Occurrences(s: seq<nat>, x: nat): nat {
    if s == [] then 0 else (if s[0] == x then 1 else 0) + Occurrences(s[1..], x)
  }

  lemma {:induction false} OccurrencesConcat(a: seq<nat>, b: seq<nat>, x: nat)
    ensures Occurrences(a + b, x) == Occurrences(a, x) + Occurrences(b, x)
  {
    if a == [] {
      assert a + b == b;
    } else {
      assert (a + b)[1..] == a[1..] + b;
      OccurrencesConcat(a[1..], b, x);
    }
  }

  function RemoveAt<T>(s: seq<T>, k: nat): seq<T>
    requires k < |s|
  {
    s[..k] + s[k + 1..]
  }

  lemma OccurrencesAfterAppend(s: seq<nat>, y: nat)
    ensures forall x: nat :: Occurrences(s + [y], x) == Occurrences(s, x) + if x == y then 1 else 0
  {
    forall x: nat
      ensures Occurrences(s + [y], x) == Occurrences(s, x) + if x == y then 1 else 0
    {
      OccurrencesConcat(s, [y], x);
    }
  }

  lemma OccurrencesAfterRemoval(s: seq<nat>, k: nat)
    requires k < |s|
    ensures forall x: nat :: Occurrences(RemoveAt(s, k), x) + (if x == s[k] then 1 else 0) == Occurrences(s, x)
  {
    forall x: nat
      ensures Occurrences(RemoveAt(s, k), x) + (if x == s[k] then 1 else 0) == Occurrences(s, x)
    {
      assert s == s[..k] + ([s[k]] + s[k + 1..]);
      OccurrencesConcat(s[..k], [s[k]] + s[k + 1..], x);
      OccurrencesConcat([s[k]], s[k + 1..], x);
      OccurrencesConcat(s[..k], s[k + 1..], x);
    }
  }

  lemma RemovedElements<T>(s: seq<T>, k: nat)
    requires k < |s|
    ensures forall x :: x in RemoveAt(s, k) ==> x in s
  {
  }
}
