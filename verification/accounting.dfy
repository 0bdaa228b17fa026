/** Unit accounting: for every resource, the free units plus the units held
    by processes. `freeResource` adds one unit; `release` by a holder,
    `request`, `create` and `destroy` keep the total
    (src/project1/Manager.java:152-219, 257-303). */
module Accounting {
  import opened Wrappers
  import opened Seqs
  import opened Kernel
  import opened Scheduler
  import opened Resources
  import opened Processes
  import opened Invariants
  import opened Teardown

  /** How many units of `q` process `p` holds (a held list may repeat a
      resource). */
  function Holds(pcbs: map<ProcRef, Pcb>, p: ProcRef, q: ResRef): nat {
    if p in pcbs then multiset(pcbs[p].held)[q] else 0
  }

  /** Units of `q` held by the processes below reference `k`. */
  function HeldBelow(pcbs: map<ProcRef, Pcb>, q: ResRef, k: nat): nat {
    if k == 0 then 0 else HeldBelow(pcbs, q, k - 1) + Holds(pcbs, k - 1, q)
  }

  /** All units of `q` in the system: free ones and held ones. */
  function Units(s: State, q: ResRef): int
    requires q in s.rcbs
  {
    s.rcbs[q].remain + HeldBelow(s.pcbs, q, s.nextProc)
  }

  /** Replacing one PCB changes the held total by the difference of the
      two held counts. */
  lemma {:induction false} HeldBelowUpdate(pcbs: map<ProcRef, Pcb>, p: ProcRef, c: Pcb, q: ResRef, k: nat)
    requires p < k
    ensures HeldBelow(pcbs[p := c], q, k) + Holds(pcbs, p, q) == HeldBelow(pcbs, q, k) + multiset(c.held)[q]
  {
    if k - 1 == p {
      HeldBelowSame(pcbs[p := c], pcbs, q, k - 1);
    } else {
      HeldBelowUpdate(pcbs, p, c, q, k - 1);
    }
  }

  /** Process tables that agree on every held count below `k` agree on the
      total. */
  lemma {:induction false} HeldBelowSame(a: map<ProcRef, Pcb>, b: map<ProcRef, Pcb>, q: ResRef, k: nat)
    requires forall p: ProcRef :: p < k ==> Holds(a, p, q) == Holds(b, p, q)
    ensures HeldBelow(a, q, k) == HeldBelow(b, q, k)
  {
    if k > 0 {
      HeldBelowSame(a, b, q, k - 1);
    }
  }

  /** `freeResource(q)` puts exactly one more unit of `q` into the system:
      into `remain` or into the head waiter's held list. */
  lemma FreeResourceUnits(s: State, q: ResRef)
    requires Allocated(s) && WaitersBlocked(s) && q in s.rcbs
    ensures var r := FreeResource(s, q);
      forall x :: x in s.rcbs ==> x in r.rcbs && Units(r, x) == Units(s, x) + (if x == q then 1 else 0)
  {
    var r := FreeResource(s, q);
    if s.rcbs[q].waitList != [] {
      var w := s.rcbs[q].waitList[0];
      assert HasStatus(s, w, Blocked);
      assert r.pcbs == s.pcbs[w := r.pcbs[w]];
      assert r.pcbs[w].held == s.pcbs[w].held + [q];
      forall x | x in s.rcbs
        ensures Units(r, x) == Units(s, x) + (if x == q then 1 else 0)
      {
        HeldBelowUpdate(s.pcbs, w, r.pcbs[w], x, s.nextProc);
      }
    }
  }

  /** `freeResource` keeps every object below the next unused reference. */
  lemma FreeResourceAllocated(s: State, q: ResRef)
    requires Allocated(s)
    ensures Allocated(FreeResource(s, q))
  {
  }

  /** Freeing a list of units adds, for each resource, as many units as the
      list names it. */
  lemma {:induction false} FreeAllUnits(s: State, qs: seq<ResRef>)
    requires Allocated(s) && Consistent(s)
    requires forall q :: q in qs ==> q in s.rcbs
    ensures var r := FreeAll(s, qs);
      forall x :: x in s.rcbs ==> x in r.rcbs && Units(r, x) == Units(s, x) + multiset(qs)[x]
    decreases |qs|
  {
    if qs != [] {
      var s1 := FreeResource(s, qs[0]);
      FreeResourceUnits(s, qs[0]);
      FreeResourceAllocated(s, qs[0]);
      FreeResourceConsistent(s, qs[0]);
      FreeAllUnits(s1, qs[1..]);
      AddUp(s, s1, FreeAll(s, qs), qs);
    }
  }

  /** Chaining one freed unit with the rest of the list. */
  lemma AddUp(s: State, s1: State, r: State, qs: seq<ResRef>)
    requires qs != []
    requires forall x :: x in s.rcbs ==> x in s1.rcbs && Units(s1, x) == Units(s, x) + (if x == qs[0] then 1 else 0)
    requires forall x :: x in s1.rcbs ==> x in r.rcbs && Units(r, x) == Units(s1, x) + multiset(qs[1..])[x]
    ensures forall x :: x in s.rcbs ==> x in r.rcbs && Units(r, x) == Units(s, x) + multiset(qs)[x]
  {
    assert qs == [qs[0]] + qs[1..];
    assert multiset(qs) == multiset{qs[0]} + multiset(qs[1..]);
  }

  /** Freeing units `n` does not wait for leaves `n`'s PCB alone. */
  lemma {:induction false} FreeAllSpares(s: State, qs: seq<ResRef>, n: ProcRef)
    requires Consistent(s) && n in s.pcbs
    requires forall q :: q in qs && q in s.rcbs ==> n !in s.rcbs[q].waitList
    ensures n in FreeAll(s, qs).pcbs && FreeAll(s, qs).pcbs[n] == s.pcbs[n]
    decreases |qs|
  {
    if qs != [] {
      var s1 := FreeResource(s, qs[0]);
      FreeResourceSpares(s, qs[0], n);
      FreeResourceConsistent(s, qs[0]);
      FreeAllSpares(s1, qs[1..], n);
    }
  }

  /** A woken waiter is no longer blocked, and everyone else keeps their PCB:
      nobody starts waiting on a resource they hold. */
  lemma FreeResourceKeepsNoSelfWait(s: State, q: ResRef, nodes: set<ProcRef>)
    requires NoSelfWait(s, nodes)
    ensures NoSelfWait(FreeResource(s, q), nodes)
  {
  }

  lemma {:induction false} FreeAllKeepsNoSelfWait(s: State, qs: seq<ResRef>, nodes: set<ProcRef>)
    requires NoSelfWait(s, nodes)
    ensures NoSelfWait(FreeAll(s, qs), nodes)
    decreases |qs|
  {
    if qs != [] {
      FreeResourceKeepsNoSelfWait(s, qs[0], nodes);
      FreeAllKeepsNoSelfWait(FreeResource(s, qs[0]), qs[1..], nodes);
    }
  }

  lemma KillNodeKeepsNoSelfWait(s: State, n: ProcRef, nodes: set<ProcRef>)
    requires n in s.pcbs && NoSelfWait(s, nodes)
    ensures NoSelfWait(KillNode(s, n), nodes)
  {
    var s1 := FreeAll(s, s.pcbs[n].held);
    FreeAllKeepsNoSelfWait(s, s.pcbs[n].held, nodes);
    if n in s1.pcbs { DetachPcbs(s1, n); }
  }

  lemma {:induction false} KillTreeKeepsNoSelfWait(s: State, n: ProcRef, nodes: set<ProcRef>)
    requires NoSelfWait(s, nodes)
    ensures NoSelfWait(KillTree(s, n), nodes)
    decreases s.nextProc - n, 1
  {
    if n in s.pcbs {
      var s1 := KillChildren(s, n, s.pcbs[n].children);
      KillChildrenKeepsNoSelfWait(s, n, s.pcbs[n].children, nodes);
      if n in s1.pcbs { KillNodeKeepsNoSelfWait(s1, n, nodes); }
    }
  }

  lemma {:induction false} KillChildrenKeepsNoSelfWait(s: State, n: ProcRef, kids: seq<ProcRef>, nodes: set<ProcRef>)
    requires NoSelfWait(s, nodes)
    ensures NoSelfWait(KillChildren(s, n, kids), nodes)
    decreases s.nextProc - n, 0, |kids|
  {
    if kids != [] {
      if n < kids[0] < s.nextProc {
        KillTreeKeepsNoSelfWait(s, kids[0], nodes);
        KillChildrenKeepsNoSelfWait(KillTree(s, kids[0]), n, kids[1..], nodes);
      } else {
        KillChildrenKeepsNoSelfWait(s, n, kids[1..], nodes);
      }
    }
  }

  /** Tearing down one node keeps every resource's total: the node's units
      are freed and then its held list is cleared. Needs the node not to
      wait on a resource it holds, or it would be handed its own unit. */
  lemma KillNodeUnits(s: State, n: ProcRef)
    requires Allocated(s) && Consistent(s) && n in s.pcbs && NoSelfWait(s, {n})
    ensures var r := KillNode(s, n);
      forall x :: x in s.rcbs ==> x in r.rcbs && Units(r, x) == Units(s, x)
  {
    var h := s.pcbs[n].held;
    assert forall q :: q in h && q in s.rcbs ==> n !in s.rcbs[q].waitList;
    FreeAllUnits(s, h);
    FreeAllSpares(s, h, n);
    var s1 := FreeAll(s, h);
    FreeAllIdentities(s, h);
    DetachUnits(s1, n);
  }

  /** Detaching drops the node's held units and touches no `remain`. */
  lemma DetachUnits(s: State, n: ProcRef)
    requires Allocated(s) && n in s.pcbs
    ensures var r := Detach(s, n);
      forall x :: x in s.rcbs ==> x in r.rcbs && Units(r, x) == Units(s, x) - multiset(s.pcbs[n].held)[x]
  {
    var r := Detach(s, n);
    DetachPcbs(s, n);
    DetachLists(s, n);
    assert r.pcbs == s.pcbs[n := r.pcbs[n]];
    forall x | x in s.rcbs
      ensures x in r.rcbs && Units(r, x) == Units(s, x) - multiset(s.pcbs[n].held)[x]
    {
      HeldBelowUpdate(s.pcbs, n, r.pcbs[n], x, s.nextProc);
    }
  }

  /** `killTree(n)` keeps every resource's total, provided no process of the
      subtree waits on a resource it holds. */
  lemma {:induction false} KillTreeUnits(s: State, n: ProcRef)
    requires Allocated(s) && Consistent(s)
    requires NoSelfWait(s, Subtree(Tree(s), s.nextProc, n))
    ensures var r := KillTree(s, n);
      forall x :: x in s.rcbs ==> x in r.rcbs && Units(r, x) == Units(s, x)
    decreases s.nextProc - n, 1
  {
    if n in s.pcbs {
      var kids := s.pcbs[n].children;
      var s1 := KillChildren(s, n, kids);
      KillChildrenUnits(s, n, kids);
      KillChildrenIdentities(s, n, kids);
      KillChildrenKills(s, n, kids);
      KillChildrenKeepsNoSelfWait(s, n, kids, Subtree(Tree(s), s.nextProc, n));
      KillNodeUnits(s1, n);
    }
  }

  lemma {:induction false} KillChildrenUnits(s: State, n: ProcRef, kids: seq<ProcRef>)
    requires Allocated(s) && Consistent(s)
    requires NoSelfWait(s, SubtreeOfKids(Tree(s), s.nextProc, n, kids))
    ensures var r := KillChildren(s, n, kids);
      forall x :: x in s.rcbs ==> x in r.rcbs && Units(r, x) == Units(s, x)
    decreases s.nextProc - n, 0, |kids|
  {
    if kids != [] {
      if n < kids[0] < s.nextProc {
        var s1 := KillTree(s, kids[0]);
        var rest := SubtreeOfKids(Tree(s), s.nextProc, n, kids[1..]);
        KillTreeUnits(s, kids[0]);
        KillTreeIdentities(s, kids[0]);
        KillTreeKills(s, kids[0]);
        KillTreeKeepsNoSelfWait(s, kids[0], rest);
        SameTree(s, s1);
        KillChildrenUnits(s1, n, kids[1..]);
      } else {
        KillChildrenUnits(s, n, kids[1..]);
      }
    }
  }

  /** The scheduler moves no unit. */
  lemma ScheduleUnits(t: State)
    requires Schedulable(t)
    ensures var r := Schedule(t);
      forall x :: x in t.rcbs ==> x in r.rcbs && Units(r, x) == Units(t, x)
  {
    var r := Schedule(t);
    forall x | x in t.rcbs
      ensures Units(r, x) == Units(t, x)
    {
      HeldBelowSame(r.pcbs, t.pcbs, x, t.nextProc);
    }
  }

  /** `destroy(name)` keeps every resource's total: each unit the subtree
      held is back in `remain` or with a woken waiter. */
  lemma DestroyConservesUnits(s: State, name: string)
    requires Wired(s) && Consistent(s) && name in s.pcbMap
    requires NoSelfWait(s, Subtree(Tree(s), s.nextProc, s.pcbMap[name]))
    requires ThenSchedulable(DestroyStep(s, name))
    ensures Destroy(s, name).Ok?
    ensures var r := Destroy(s, name).value;
      forall x :: x in s.rcbs ==> x in r.rcbs && Units(r, x) == Units(s, x)
  {
    var t := KillTree(s, s.pcbMap[name]);
    KillTreeUnits(s, s.pcbMap[name]);
    ScheduleUnits(t);
  }

  /** The release step as a holder sees it: the freed unit comes back in,
      one held occurrence goes out. */
  lemma ReleaseStepUnits(s: State, name: string)
    requires Wired(s) && WaitersBlocked(s) && name in s.rcbMap
    ensures var q := s.rcbMap[name];
      var f := FreeResource(s, q);
      var u := ReleaseStep(s, name).value;
      forall x :: x in s.rcbs ==>
        && x in u.rcbs
        && Units(u, x) + Holds(f.pcbs, s.current, x)
           == Units(s, x) + (if x == q then 1 else 0) + multiset(RemoveFirst(f.pcbs[s.current].held, q))[x]
  {
    var q := s.rcbMap[name];
    var f := FreeResource(s, q);
    var u := ReleaseStep(s, name).value;
    FreeResourceUnits(s, q);
    assert u.pcbs == f.pcbs[s.current := u.pcbs[s.current]];
    forall x | x in s.rcbs
      ensures x in u.rcbs && Units(u, x) + Holds(f.pcbs, s.current, x)
        == Units(s, x) + (if x == q then 1 else 0) + multiset(RemoveFirst(f.pcbs[s.current].held, q))[x]
    {
      HeldBelowUpdate(f.pcbs, s.current, u.pcbs[s.current], x, s.nextProc);
    }
  }

  /** The release step by a holder: the freed unit comes back in exactly
      as the releaser's occurrence goes out. */
  lemma ReleaseStepConserves(s: State, name: string)
    requires Wired(s) && WaitersBlocked(s) && name in s.rcbMap
    requires s.rcbMap[name] in s.pcbs[s.current].held
    ensures var u := ReleaseStep(s, name).value;
      forall x :: x in s.rcbs ==> x in u.rcbs && Units(u, x) == Units(s, x)
  {
    var q := s.rcbMap[name];
    var f := FreeResource(s, q);
    var h := f.pcbs[s.current].held;
    var u := ReleaseStep(s, name).value;
    assert q in h;
    ReleaseStepUnits(s, name);
    forall x | x in s.rcbs
      ensures x in u.rcbs && Units(u, x) == Units(s, x)
    {
      assert multiset(RemoveFirst(h, q))[x] == multiset(h)[x] - (if x == q then 1 else 0);
      assert Holds(f.pcbs, s.current, x) == multiset(h)[x];
    }
  }

  /** `release` by a process that holds the resource keeps every
      resource's total. */
  lemma ReleaseConservesUnits(s: State, name: string)
    requires Wired(s) && WaitersBlocked(s) && name in s.rcbMap
    requires s.rcbMap[name] in s.pcbs[s.current].held
    requires ThenSchedulable(ReleaseStep(s, name))
    ensures Release(s, name).Ok?
    ensures var r := Release(s, name).value;
      forall x :: x in s.rcbs ==> x in r.rcbs && Units(r, x) == Units(s, x)
  {
    ReleaseStepConserves(s, name);
    ScheduleUnits(ReleaseStep(s, name).value);
  }

  /** `release` by a process that does not hold the resource (and is not
      waiting on it) still frees a unit: the total of that resource grows
      by one. The source does not check the releaser. */
  lemma ReleaseByNonHolderAddsUnit(s: State, name: string)
    requires Wired(s) && WaitersBlocked(s) && name in s.rcbMap
    requires s.rcbMap[name] !in s.pcbs[s.current].held
    requires s.current !in s.rcbs[s.rcbMap[name]].waitList
    requires ThenSchedulable(ReleaseStep(s, name))
    ensures Release(s, name).Ok?
    ensures var q := s.rcbMap[name];
      var r := Release(s, name).value;
      q in r.rcbs && Units(r, q) == Units(s, q) + 1
  {
    var q := s.rcbMap[name];
    var f := FreeResource(s, q);
    var h := f.pcbs[s.current].held;
    var u := ReleaseStep(s, name).value;
    assert h == s.pcbs[s.current].held;
    ReleaseStepUnits(s, name);
    assert RemoveFirst(h, q) == h;
    assert Units(u, q) == Units(s, q) + 1;
    ScheduleUnits(u);
  }

  /** `request` either moves a unit from `remain` to the requester or moves
      nothing: every resource's total is kept. */
  lemma RequestConservesUnits(s: State, name: string)
    requires Wired(s) && name in s.rcbMap
    requires ThenSchedulable(RequestStep(s, name))
    ensures Request(s, name).Ok?
    ensures var r := Request(s, name).value;
      forall x :: x in s.rcbs ==> x in r.rcbs && Units(r, x) == Units(s, x)
  {
    var q := s.rcbMap[name];
    var u := RequestStep(s, name).value;
    assert u.pcbs == s.pcbs[s.current := u.pcbs[s.current]];
    forall x | x in s.rcbs
      ensures x in u.rcbs && Units(u, x) == Units(s, x)
    {
      HeldBelowUpdate(s.pcbs, s.current, u.pcbs[s.current], x, s.nextProc);
    }
    ScheduleUnits(u);
  }

  /** A new process holds nothing, so `create` keeps every resource's
      total. */
  lemma CreateConservesUnits(s: State, name: string, priority: int)
    requires Wired(s)
    ensures var r := Create(s, name, priority);
      r.Ok? ==> forall x :: x in s.rcbs ==> x in r.value.rcbs && Units(r.value, x) == Units(s, x)
  {
    CreateStepSchedulable(s, name, priority);
    var step := CreateStep(s, name, priority);
    if step.Ok? {
      var u := step.value;
      var n := s.nextProc;
      forall x | x in s.rcbs
        ensures x in u.rcbs && Units(u, x) == Units(s, x)
      {
        assert Holds(u.pcbs, n, x) == 0;
        HeldBelowSame(u.pcbs, s.pcbs, x, n);
      }
      ScheduleUnits(u);
    }
  }
}
