/** Sequence helpers for the `Vector`/`ArrayList` operations the manager uses:
    `remove(Object)` drops the FIRST equal element only. */
module Seqs {

  // Every list in the manager holds object references, modelled as naturals.

  /** No element occurs twice. */
  predicate NoDups(xs: seq<nat>) {
    forall i, j :: 0 <= i < j < |xs| ==> xs[i] != xs[j]
  }

  /** The position of the first occurrence of `x`. */
  function FirstIndex(xs: seq<nat>, x: nat): (i: nat)
    requires x in xs
    ensures i < |xs| && xs[i] == x && x !in xs[..i]
  {
    if xs[0] == x then 0
    else
      var i := FirstIndex(xs[1..], x);
      assert xs[..i + 1] == [xs[0]] + xs[1..][..i];
      i + 1
  }

  /** `List.remove(Object)`: drop the first occurrence of `x`, if any. */
  function RemoveFirst(xs: seq<nat>, x: nat): (r: seq<nat>)
    ensures multiset(r) == multiset(xs) - multiset{x}
    ensures x !in xs ==> r == xs
    ensures x in xs ==> |r| == |xs| - 1
  {
    if xs == [] then []
    else if xs[0] == x then
      assert xs == [xs[0]] + xs[1..];
      xs[1..]
    else
      assert xs == [xs[0]] + xs[1..];
      [xs[0]] + RemoveFirst(xs[1..], x)
  }

  /** `remove(Object)` drops exactly the FIRST occurrence of `x`: the
      elements before and after it keep their order. */
  lemma {:induction false} RemoveFirstAt(xs: seq<nat>, x: nat)
    requires x in xs
    ensures RemoveFirst(xs, x) == xs[..FirstIndex(xs, x)] + xs[FirstIndex(xs, x) + 1..]
  {
    if xs[0] == x {
      assert FirstIndex(xs, x) == 0;
      assert RemoveFirst(xs, x) == xs[1..];
    } else {
      var t := xs[1..];
      RemoveFirstAt(t, x);
      var i := FirstIndex(t, x);
      assert FirstIndex(xs, x) == i + 1;
      assert RemoveFirst(xs, x) == [xs[0]] + RemoveFirst(t, x);
      assert xs[..i + 1] == [xs[0]] + t[..i];
      assert xs[i + 2..] == t[i + 1..];
    }
  }

  /** Removing `x` touches no other element. */
  lemma RemoveFirstKeepsOthers(xs: seq<nat>, x: nat)
    ensures forall y :: y != x ==> (y in RemoveFirst(xs, x) <==> y in xs)
    ensures forall y :: y in RemoveFirst(xs, x) ==> y in xs
  {
    forall y | y != x
      ensures y in RemoveFirst(xs, x) <==> y in xs
    {
      assert multiset(RemoveFirst(xs, x))[y] == multiset(xs)[y];
    }
    forall y | y in RemoveFirst(xs, x)
      ensures y in xs
    {
      assert multiset(RemoveFirst(xs, x))[y] <= multiset(xs)[y];
    }
  }

  /** Reference definition: `xs` with every `x` filtered out, order kept. */
  function Without(xs: seq<nat>, x: nat): (r: seq<nat>)
    ensures forall y :: y in r <==> y in xs && y != x
  {
    if xs == [] then []
    else (if xs[0] == x then [] else [xs[0]]) + Without(xs[1..], x)
  }

  /** On a duplicate-free sequence, removing the first occurrence is the same
      as filtering the element out: the other elements keep their order. */
  lemma {:induction false} RemoveFirstIsWithout(xs: seq<nat>, x: nat)
    requires NoDups(xs)
    ensures RemoveFirst(xs, x) == Without(xs, x)
    ensures x !in RemoveFirst(xs, x)
  {
    if xs != [] {
      assert NoDups(xs[1..]);
      RemoveFirstIsWithout(xs[1..], x);
      if xs[0] == x {
        assert x !in xs[1..];
        WithoutAbsent(xs[1..], x);
      }
    }
  }

  /** Filtering out an absent element changes nothing. */
  lemma {:induction false} WithoutAbsent(xs: seq<nat>, x: nat)
    requires x !in xs
    ensures Without(xs, x) == xs
  {
    if xs != [] {
      WithoutAbsent(xs[1..], x);
      assert xs == [xs[0]] + xs[1..];
    }
  }

  /** Removing an element keeps a sequence duplicate-free. */
  lemma RemoveFirstNoDups(xs: seq<nat>, x: nat)
    requires NoDups(xs)
    ensures NoDups(RemoveFirst(xs, x))
    ensures x !in RemoveFirst(xs, x)
    ensures forall y :: y in RemoveFirst(xs, x) <==> y in xs && y != x
  {
    RemoveFirstIsWithout(xs, x);
    WithoutNoDups(xs, x);
  }

  lemma {:induction false} WithoutNoDups(xs: seq<nat>, x: nat)
    requires NoDups(xs)
    ensures NoDups(Without(xs, x))
  {
    if xs != [] {
      assert NoDups(xs[1..]);
      WithoutNoDups(xs[1..], x);
      var t := Without(xs[1..], x);
      assert xs[0] !in t;
    }
  }

  /** Appending a fresh element keeps a sequence duplicate-free. */
  lemma AppendNoDups(xs: seq<nat>, y: nat)
    requires NoDups(xs) && y !in xs
    ensures NoDups(xs + [y])
  {
  }

  /** Dropping the head keeps a sequence duplicate-free, and the head is gone. */
  lemma TailNoDups(xs: seq<nat>)
    requires NoDups(xs) && xs != []
    ensures NoDups(xs[1..]) && xs[0] !in xs[1..]
  {
  }
}
