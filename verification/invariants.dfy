/** The consistency the manager keeps between statuses, lists and wait
    queues, and how `freeResource` preserves it. */
module Invariants {
  import opened Wrappers
  import opened Seqs
  import opened Kernel
  import opened Resources

  /** No resource ever has a negative number of free units. */
  predicate RemainsNonNegative(s: State) {
    forall q :: q in s.rcbs ==> s.rcbs[q].remain >= 0
  }

  /** `RL`, `BL` and every wait list hold each process at most once. */
  predicate ListsDistinct(s: State) {
    && NoDups(s.rl) && NoDups(s.bl)
    && forall q :: q in s.rcbs ==> NoDups(s.rcbs[q].waitList)
  }

  /** A process in a wait list is blocked, on that very resource. */
  predicate WaitersBlocked(s: State) {
    forall q, p :: q in s.rcbs && p in s.rcbs[q].waitList ==>
      HasStatus(s, p, Blocked) && s.pcbs[p].blockedOn == Some(q)
  }

  /** A process in `RL` is not blocked. */
  predicate ReadyNotBlocked(s: State) {
    forall p :: p in s.rl ==> p in s.pcbs && s.pcbs[p].status != Blocked
  }

  /** A process in `BL` is blocked on a resource other than `IO`
      (`requestIO` does not use `BL`). */
  predicate BlockedListed(s: State) {
    forall p :: p in s.bl ==> HasStatus(s, p, Blocked) && s.pcbs[p].blockedOn != Some(IO)
  }

  /** `PCBMap` maps each name to a process carrying that name. */
  predicate NamesMatch(s: State) {
    forall k :: k in s.pcbMap ==> s.pcbMap[k] in s.pcbs && s.pcbs[s.pcbMap[k]].name == k
  }

  /** Every held unit belongs to an existing resource. */
  predicate HeldExist(s: State) {
    forall p, q :: p in s.pcbs && q in s.pcbs[p].held ==> q in s.rcbs
  }

  /** Everything above. */
  predicate Consistent(s: State) {
    && RemainsNonNegative(s)
    && ListsDistinct(s)
    && WaitersBlocked(s)
    && ReadyNotBlocked(s)
    && BlockedListed(s)
    && NamesMatch(s)
    && HeldExist(s)
  }

  /** `freeResource` keeps the state consistent: the head waiter moves from
      the wait list and `BL` to `RL` together with its status change. */
  lemma FreeResourceConsistent(s: State, q: ResRef)
    requires Consistent(s)
    ensures Consistent(FreeResource(s, q))
  {
    if q in s.rcbs && s.rcbs[q].waitList != [] {
      HandOverDistinct(s, q);
      HandOverWaiters(s, q);
      HandOverHeld(s, q);
      HandOverStatuses(s, q);
    } else if q in s.rcbs {
      ReturnUnitConsistent(s, q);
    }
  }

  lemma ReturnUnitConsistent(s: State, q: ResRef)
    requires Consistent(s) && q in s.rcbs && s.rcbs[q].waitList == []
    ensures Consistent(FreeResource(s, q))
  {
    var r := FreeResource(s, q);
    assert r.pcbs == s.pcbs && r.rl == s.rl && r.bl == s.bl;
    assert forall x :: x in r.rcbs ==> r.rcbs[x].waitList == s.rcbs[x].waitList;
    assert RemainsNonNegative(r);
    assert ListsDistinct(r);
    assert WaitersBlocked(r) by {
      forall x, p | x in r.rcbs && p in r.rcbs[x].waitList
        ensures HasStatus(r, p, Blocked) && r.pcbs[p].blockedOn == Some(x)
      {
        assert x in s.rcbs && p in s.rcbs[x].waitList;
        assert HasStatus(s, p, Blocked) && s.pcbs[p].blockedOn == Some(x);
      }
    }
    assert HeldExist(r);
  }

  lemma HandOverDistinct(s: State, q: ResRef)
    requires ListsDistinct(s) && WaitersBlocked(s) && ReadyNotBlocked(s)
    requires q in s.rcbs && s.rcbs[q].waitList != []
    ensures ListsDistinct(FreeResource(s, q))
  {
    HandOverReadies(s, q);
    HandOverDequeues(s, q);
  }

  /** The woken waiter was not in `RL`, so appending it keeps `RL`
      duplicate-free; `BL` only loses it. */
  lemma HandOverReadies(s: State, q: ResRef)
    requires NoDups(s.rl) && NoDups(s.bl) && WaitersBlocked(s) && ReadyNotBlocked(s)
    requires q in s.rcbs && s.rcbs[q].waitList != []
    ensures NoDups(FreeResource(s, q).rl) && NoDups(FreeResource(s, q).bl)
  {
    var w := s.rcbs[q].waitList[0];
    assert HasStatus(s, w, Blocked);
    AppendNoDups(s.rl, w);
    RemoveFirstNoDups(s.bl, w);
  }

  /** Popping the head keeps a wait list duplicate-free. */
  lemma HandOverDequeues(s: State, q: ResRef)
    requires forall x :: x in s.rcbs ==> NoDups(s.rcbs[x].waitList)
    requires q in s.rcbs && s.rcbs[q].waitList != []
    ensures var r := FreeResource(s, q);
      forall x :: x in r.rcbs ==> NoDups(r.rcbs[x].waitList)
  {
    var r := FreeResource(s, q);
    TailNoDups(s.rcbs[q].waitList);
    forall x | x in r.rcbs
      ensures NoDups(r.rcbs[x].waitList)
    {
      if x != q { assert r.rcbs[x] == s.rcbs[x]; }
    }
  }

  lemma HandOverWaiters(s: State, q: ResRef)
    requires ListsDistinct(s) && WaitersBlocked(s)
    requires q in s.rcbs && s.rcbs[q].waitList != []
    ensures WaitersBlocked(FreeResource(s, q))
  {
    var r := FreeResource(s, q);
    PopKeepsWaiters(s, r, q);
  }

  /** Popping the head of one wait list, and changing no PCB but the head's,
      keeps every remaining waiter blocked on its resource. */
  lemma PopKeepsWaiters(s: State, r: State, q: ResRef)
    requires ListsDistinct(s) && WaitersBlocked(s)
    requires q in s.rcbs && s.rcbs[q].waitList != []
    requires forall x :: x in r.rcbs <==> x in s.rcbs
    requires forall x :: x in s.rcbs && x != q ==> r.rcbs[x] == s.rcbs[x]
    requires r.rcbs[q].waitList == s.rcbs[q].waitList[1..]
    requires forall p :: p in s.pcbs && p != s.rcbs[q].waitList[0] ==> p in r.pcbs && r.pcbs[p] == s.pcbs[p]
    ensures WaitersBlocked(r)
  {
    var w := s.rcbs[q].waitList[0];
    TailNoDups(s.rcbs[q].waitList);
    forall x, p | x in r.rcbs && p in r.rcbs[x].waitList
      ensures HasStatus(r, p, Blocked) && r.pcbs[p].blockedOn == Some(x)
    {
      assert p in s.rcbs[x].waitList;
      assert HasStatus(s, p, Blocked) && s.pcbs[p].blockedOn == Some(x);
      if x == q {
        assert p in s.rcbs[q].waitList[1..];
      } else {
        assert w in s.rcbs[q].waitList;
        assert HasStatus(s, w, Blocked) && s.pcbs[w].blockedOn == Some(q);
      }
      assert p != w;
    }
  }

  lemma HandOverHeld(s: State, q: ResRef)
    requires HeldExist(s) && NamesMatch(s) && RemainsNonNegative(s)
    requires q in s.rcbs && s.rcbs[q].waitList != []
    ensures HeldExist(FreeResource(s, q)) && NamesMatch(FreeResource(s, q))
    ensures RemainsNonNegative(FreeResource(s, q))
  {
    var r := FreeResource(s, q);
    var w := s.rcbs[q].waitList[0];
    forall p, x | p in r.pcbs && x in r.pcbs[p].held
      ensures x in r.rcbs
    {
      if p != w { assert x in s.pcbs[p].held; }
    }
  }

  lemma HandOverStatuses(s: State, q: ResRef)
    requires ListsDistinct(s) && WaitersBlocked(s) && ReadyNotBlocked(s) && BlockedListed(s)
    requires q in s.rcbs && s.rcbs[q].waitList != []
    ensures ReadyNotBlocked(FreeResource(s, q)) && BlockedListed(FreeResource(s, q))
  {
    var r := FreeResource(s, q);
    var w := s.rcbs[q].waitList[0];
    RemoveFirstNoDups(s.bl, w);
    assert r.rl == s.rl + [w];
    forall p | p in r.bl
      ensures HasStatus(r, p, Blocked) && r.pcbs[p].blockedOn != Some(IO)
    {
      assert p in s.bl && p != w;
    }
  }

  /** `freeResource` touches no process other than the head waiter. A
      process that is not waiting on `q` keeps its PCB, its place in `RL`
      and `BL`, and stays out of every wait list it was out of. */
  lemma FreeResourceSpares(s: State, q: ResRef, n: ProcRef)
    requires Consistent(s) && n in s.pcbs
    requires q in s.rcbs ==> n !in s.rcbs[q].waitList
    ensures var r := FreeResource(s, q);
      && r.pcbs[n] == s.pcbs[n]
      && (n in r.rl <==> n in s.rl)
      && (n in r.bl <==> n in s.bl)
      && (forall x :: x in s.rcbs && n !in s.rcbs[x].waitList ==> n !in r.rcbs[x].waitList)
  {
    var r := FreeResource(s, q);
    if q in s.rcbs && s.rcbs[q].waitList != [] {
      var w := s.rcbs[q].waitList[0];
      assert w != n;
      RemoveFirstNoDups(s.bl, w);
      forall x | x in s.rcbs && n !in s.rcbs[x].waitList
        ensures n !in r.rcbs[x].waitList
      {
        if x == q { assert r.rcbs[x].waitList == s.rcbs[q].waitList[1..]; }
      }
    }
  }
}
