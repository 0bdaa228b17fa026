/** What `destroy` does to a subtree (src/project1/Manager.java:175-219):
    every process in it ends up marked with priority -1, out of `RL`, `BL`,
    every wait list and `PCBMap`, holding nothing, while the state stays
    consistent. */
module Teardown {
  import opened Wrappers
  import opened Seqs
  import opened Kernel
  import opened Scheduler
  import opened Resources
  import opened Processes
  import opened Invariants

  /** Tearing down never allocates, renames or re-parents anything. */
  ghost predicate SameIdentities(s: State, r: State) {
    && r.nextProc == s.nextProc && r.nextRes == s.nextRes && r.current == s.current
    && r.numPid == s.numPid && r.numRid == s.numRid && r.rcbMap == s.rcbMap
    && (forall x :: x in r.rcbs <==> x in s.rcbs)
    && (forall p :: p in r.pcbs <==> p in s.pcbs)
    && (forall p :: p in s.pcbs ==>
          && r.pcbs[p].name == s.pcbs[p].name && r.pcbs[p].pid == s.pcbs[p].pid
          && r.pcbs[p].parent == s.pcbs[p].parent && r.pcbs[p].children == s.pcbs[p].children)
  }

  lemma {:induction false} FreeAllIdentities(s: State, qs: seq<ResRef>)
    ensures SameIdentities(s, FreeAll(s, qs)) && FreeAll(s, qs).pcbMap == s.pcbMap
    decreases |qs|
  {
    if qs != [] {
      FreeAllIdentities(FreeResource(s, qs[0]), qs[1..]);
    }
  }

  lemma KillNodeIdentities(s: State, n: ProcRef)
    requires n in s.pcbs
    ensures SameIdentities(s, KillNode(s, n))
  {
    FreeAllIdentities(s, s.pcbs[n].held);
  }

  lemma {:induction false} KillTreeIdentities(s: State, n: ProcRef)
    ensures SameIdentities(s, KillTree(s, n))
    decreases s.nextProc - n, 1
  {
    if n in s.pcbs {
      var s1 := KillChildren(s, n, s.pcbs[n].children);
      KillChildrenIdentities(s, n, s.pcbs[n].children);
      if n in s1.pcbs { KillNodeIdentities(s1, n); }
    }
  }

  lemma {:induction false} KillChildrenIdentities(s: State, n: ProcRef, kids: seq<ProcRef>)
    ensures SameIdentities(s, KillChildren(s, n, kids))
    decreases s.nextProc - n, 0, |kids|
  {
    if kids != [] {
      if n < kids[0] < s.nextProc {
        KillTreeIdentities(s, kids[0]);
        KillChildrenIdentities(KillTree(s, kids[0]), n, kids[1..]);
      } else {
        KillChildrenIdentities(s, n, kids[1..]);
      }
    }
  }

  /** The creation tree is what the identities fix. */
  lemma SameTree(s: State, r: State)
    requires SameIdentities(s, r)
    ensures Tree(r) == Tree(s)
  {
  }

  /** `m` is in no list: not in `RL`, not in `BL`, in no wait list. */
  predicate Unlisted(s: State, m: ProcRef) {
    && m !in s.rl && m !in s.bl
    && forall x :: x in s.rcbs ==> m !in s.rcbs[x].waitList
  }

  /** `m` is torn down: priority -1, nothing held, unlisted and unnamed. */
  predicate Dead(s: State, m: ProcRef) {
    && m in s.pcbs
    && s.pcbs[m].priority == -1 && s.pcbs[m].held == []
    && Unlisted(s, m)
    && forall k :: k in s.pcbMap ==> s.pcbMap[k] != m
  }

  /** A torn-down process stays torn down: `freeResource` only wakes
      processes that are waiting. */
  lemma FreeResourceKeepsDead(s: State, q: ResRef, m: ProcRef)
    requires Dead(s, m)
    ensures Dead(FreeResource(s, q), m)
  {
    var r := FreeResource(s, q);
    if q in s.rcbs && s.rcbs[q].waitList != [] {
      assert s.rcbs[q].waitList[0] != m;
      RemoveFirstKeepsOthers(s.bl, s.rcbs[q].waitList[0]);
      forall x | x in r.rcbs
        ensures m !in r.rcbs[x].waitList
      {
        if x == q { assert r.rcbs[x].waitList == s.rcbs[q].waitList[1..]; }
      }
    }
  }

  lemma {:induction false} FreeAllKeepsDead(s: State, qs: seq<ResRef>, m: ProcRef)
    requires Dead(s, m)
    ensures Dead(FreeAll(s, qs), m)
    decreases |qs|
  {
    if qs != [] {
      FreeResourceKeepsDead(s, qs[0], m);
      FreeAllKeepsDead(FreeResource(s, qs[0]), qs[1..], m);
    }
  }

  lemma DetachKeepsDead(s: State, n: ProcRef, m: ProcRef)
    requires n in s.pcbs && Dead(s, m)
    ensures Dead(Detach(s, n), m)
  {
    DetachPcbs(s, n);
    DetachLists(s, n);
    DetachNames(s, n);
    RemoveFirstKeepsOthers(s.rl, n);
    RemoveFirstKeepsOthers(s.bl, n);
    var r := Detach(s, n);
    forall x | x in r.rcbs
      ensures m !in r.rcbs[x].waitList
    {
      RemoveFirstKeepsOthers(s.rcbs[x].waitList, n);
    }
  }

  lemma KillNodeKeepsDead(s: State, n: ProcRef, m: ProcRef)
    requires n in s.pcbs && Dead(s, m)
    ensures Dead(KillNode(s, n), m)
  {
    var s1 := FreeAll(s, s.pcbs[n].held);
    FreeAllKeepsDead(s, s.pcbs[n].held, m);
    if n in s1.pcbs { DetachKeepsDead(s1, n, m); }
  }

  lemma {:induction false} KillTreeKeepsDead(s: State, n: ProcRef, m: ProcRef)
    requires Dead(s, m)
    ensures Dead(KillTree(s, n), m)
    decreases s.nextProc - n, 1
  {
    if n in s.pcbs {
      var s1 := KillChildren(s, n, s.pcbs[n].children);
      KillChildrenKeepsDead(s, n, s.pcbs[n].children, m);
      if n in s1.pcbs { KillNodeKeepsDead(s1, n, m); }
    }
  }

  lemma {:induction false} KillChildrenKeepsDead(s: State, n: ProcRef, kids: seq<ProcRef>, m: ProcRef)
    requires Dead(s, m)
    ensures Dead(KillChildren(s, n, kids), m)
    decreases s.nextProc - n, 0, |kids|
  {
    if kids != [] {
      if n < kids[0] < s.nextProc {
        KillTreeKeepsDead(s, kids[0], m);
        KillChildrenKeepsDead(KillTree(s, kids[0]), n, kids[1..], m);
      } else {
        KillChildrenKeepsDead(s, n, kids[1..], m);
      }
    }
  }

  lemma {:induction false} FreeAllConsistent(s: State, qs: seq<ResRef>)
    requires Consistent(s)
    ensures Consistent(FreeAll(s, qs))
    decreases |qs|
  {
    if qs != [] {
      FreeResourceConsistent(s, qs[0]);
      FreeAllConsistent(FreeResource(s, qs[0]), qs[1..]);
    }
  }

  /** After detaching, `n` is in no wait list: a waiting process is waiting on
      the resource its `blockedOn` names, and only once. */
  lemma DetachLeavesWaitLists(s: State, n: ProcRef)
    requires ListsDistinct(s) && WaitersBlocked(s) && n in s.pcbs
    ensures var r := Detach(s, n);
      && (forall x :: x in r.rcbs ==> n !in r.rcbs[x].waitList && NoDups(r.rcbs[x].waitList))
      && (forall x, p :: x in r.rcbs && p in r.rcbs[x].waitList ==> p in s.rcbs[x].waitList)
  {
    DetachLists(s, n);
    var r := Detach(s, n);
    forall x | x in r.rcbs
      ensures n !in r.rcbs[x].waitList && NoDups(r.rcbs[x].waitList)
      ensures forall p :: p in r.rcbs[x].waitList ==> p in s.rcbs[x].waitList
    {
      var wl := s.rcbs[x].waitList;
      RemoveFirstNoDups(wl, n);
      if n in wl {
        assert s.pcbs[n].blockedOn == Some(x) && s.pcbs[n].status == Blocked;
        assert r.rcbs[x].waitList == RemoveFirst(wl, n);
      }
    }
  }

  /** `RL` and `BL` lose `n` and keep their other members and distinctness. */
  lemma DetachLeavesLists(s: State, n: ProcRef)
    requires ListsDistinct(s) && n in s.pcbs
    ensures var r := Detach(s, n);
      && NoDups(r.rl) && NoDups(r.bl) && n !in r.rl && n !in r.bl
      && (forall p :: p in r.rl ==> p in s.rl && p != n)
      && (forall p :: p in r.bl ==> p in s.bl && p != n)
  {
    DetachLists(s, n);
    RemoveFirstNoDups(s.rl, n);
    RemoveFirstNoDups(s.bl, n);
  }

  /** No name maps to `n` once it is detached, and the others keep pointing
      at processes carrying their name. */
  lemma DetachLeavesNames(s: State, n: ProcRef)
    requires NamesMatch(s) && n in s.pcbs
    ensures var r := Detach(s, n);
      && NamesMatch(r) && forall k :: k in r.pcbMap ==> r.pcbMap[k] != n
  {
    DetachPcbs(s, n);
    DetachNames(s, n);
  }

  /** Detaching a process from a consistent state keeps it consistent and
      leaves the process torn down. */
  lemma DetachKills(s: State, n: ProcRef)
    requires Consistent(s) && n in s.pcbs
    ensures Consistent(Detach(s, n)) && Dead(Detach(s, n), n)
  {
    var r := Detach(s, n);
    DetachPcbs(s, n);
    DetachLists(s, n);
    DetachLeavesWaitLists(s, n);
    DetachLeavesLists(s, n);
    DetachLeavesNames(s, n);
    assert ListsDistinct(r);
    assert RemainsNonNegative(r) by {
      forall x | x in r.rcbs ensures r.rcbs[x].remain >= 0 {
        assert r.rcbs[x].remain == s.rcbs[x].remain;
      }
    }
    assert WaitersBlocked(r) by {
      forall x, p | x in r.rcbs && p in r.rcbs[x].waitList
        ensures HasStatus(r, p, Blocked) && r.pcbs[p].blockedOn == Some(x)
      {
        assert p in s.rcbs[x].waitList && p != n;
      }
    }
    assert ReadyNotBlocked(r) && BlockedListed(r);
    assert HeldExist(r) by {
      forall p, q | p in r.pcbs && q in r.pcbs[p].held ensures q in r.rcbs {
        assert p != n && q in s.pcbs[p].held;
      }
    }
  }

  /** `killTree` on one node: the node's units are freed, then it is
      detached. */
  lemma KillNodeKills(s: State, n: ProcRef)
    requires Consistent(s) && n in s.pcbs
    ensures Consistent(KillNode(s, n)) && Dead(KillNode(s, n), n)
  {
    var s1 := FreeAll(s, s.pcbs[n].held);
    FreeAllConsistent(s, s.pcbs[n].held);
    FreeAllIdentities(s, s.pcbs[n].held);
    DetachKills(s1, n);
  }

  /** `killTree(n)` tears down every process of `n`'s subtree (as the
      creation tree stood before) and keeps the state consistent. When
      children come after their parents, as they do in every state the
      commands reach, that subtree holds every descendant of `n`. */
  lemma {:induction false} KillTreeKills(s: State, n: ProcRef)
    requires Consistent(s)
    ensures Consistent(KillTree(s, n))
    ensures forall m :: m in Subtree(Tree(s), s.nextProc, n) && m in s.pcbs ==> Dead(KillTree(s, n), m)
    ensures Allocated(s) && ChildrenLater(s) && n in s.pcbs ==>
      forall path :: ChildPath(s, path) && path[0] == n ==> Dead(KillTree(s, n), path[|path| - 1])
    decreases s.nextProc - n, 1
  {
    if n in s.pcbs {
      KillTreeKillsSubtree(s, n);
      if Allocated(s) && ChildrenLater(s) {
        forall path | ChildPath(s, path) && path[0] == n
          ensures Dead(KillTree(s, n), path[|path| - 1])
        {
          SubtreeHoldsDescendants(s, path);
          if |path| > 1 {
            assert path[|path| - 1] in s.pcbs[path[|path| - 2]].children;
          }
        }
      }
    }
  }

  lemma {:induction false} KillTreeKillsSubtree(s: State, n: ProcRef)
    requires Consistent(s) && n in s.pcbs
    ensures Consistent(KillTree(s, n))
    ensures forall m :: m in Subtree(Tree(s), s.nextProc, n) && m in s.pcbs ==> Dead(KillTree(s, n), m)
    decreases s.nextProc - n, 0
  {
    var kids := s.pcbs[n].children;
    var s1 := KillChildren(s, n, kids);
    KillChildrenKills(s, n, kids);
    KillChildrenIdentities(s, n, kids);
    KillNodeKills(s1, n);
    forall m | m in Subtree(Tree(s), s.nextProc, n) && m in s.pcbs
      ensures Dead(KillTree(s, n), m)
    {
      if m != n {
        assert m in SubtreeOfKids(Tree(s), s.nextProc, n, kids);
        KillNodeKeepsDead(s1, n, m);
      }
    }
  }

  lemma {:induction false} KillChildrenKills(s: State, n: ProcRef, kids: seq<ProcRef>)
    requires Consistent(s)
    ensures Consistent(KillChildren(s, n, kids))
    ensures forall m :: m in SubtreeOfKids(Tree(s), s.nextProc, n, kids) && m in s.pcbs ==>
      Dead(KillChildren(s, n, kids), m)
    decreases s.nextProc - n, 0, |kids|
  {
    if kids != [] {
      var r := KillChildren(s, n, kids);
      if n < kids[0] < s.nextProc {
        var s1 := KillTree(s, kids[0]);
        KillTreeKills(s, kids[0]);
        KillTreeIdentities(s, kids[0]);
        SameTree(s, s1);
        KillChildrenKills(s1, n, kids[1..]);
        forall m | m in SubtreeOfKids(Tree(s), s.nextProc, n, kids) && m in s.pcbs
          ensures Dead(r, m)
        {
          if m in Subtree(Tree(s), s.nextProc, kids[0]) {
            KillChildrenKeepsDead(s1, n, kids[1..], m);
          }
        }
      } else {
        KillChildrenKills(s, n, kids[1..]);
      }
    }
  }

  /** The scheduler only swaps `Ready` and `Running`, so it keeps the state
      consistent and torn-down processes torn down. */
  lemma ScheduleConsistent(t: State)
    requires Schedulable(t) && Consistent(t)
    ensures Consistent(Schedule(t))
  {
    var r := Schedule(t);
    assert WaitersBlocked(r) by {
      forall x, p | x in r.rcbs && p in r.rcbs[x].waitList
        ensures HasStatus(r, p, Blocked) && r.pcbs[p].blockedOn == Some(x)
      {
        assert HasStatus(t, p, Blocked);
      }
    }
    assert HeldExist(r) by {
      forall p, q | p in r.pcbs && q in r.pcbs[p].held ensures q in r.rcbs {
        assert q in t.pcbs[p].held;
      }
    }
  }

  lemma ScheduleKeepsDead(t: State, m: ProcRef)
    requires Schedulable(t) && Dead(t, m)
    ensures Dead(Schedule(t), m)
  {
  }

  /** `destroy(name)` of a known name succeeds, tears down the whole subtree
      rooted at the named process and leaves the state consistent. */
  lemma DestroyTearsDownSubtree(s: State, name: string)
    requires Wired(s) && Consistent(s) && name in s.pcbMap
    requires NoSelfWait(s, Subtree(Tree(s), s.nextProc, s.pcbMap[name]))
    requires ThenSchedulable(DestroyStep(s, name))
    ensures Destroy(s, name).Ok?
    ensures Consistent(Destroy(s, name).value)
    ensures forall m :: m in Subtree(Tree(s), s.nextProc, s.pcbMap[name]) && m in s.pcbs ==>
      Dead(Destroy(s, name).value, m)
    ensures ChildrenLater(s) ==>
      forall path :: ChildPath(s, path) && path[0] == s.pcbMap[name] ==> Dead(Destroy(s, name).value, path[|path| - 1])
  {
    var n := s.pcbMap[name];
    var t := KillTree(s, n);
    KillTreeKills(s, n);
    ScheduleConsistent(t);
    forall m | m in Subtree(Tree(s), s.nextProc, n) && m in s.pcbs
      ensures Dead(Destroy(s, name).value, m)
    {
      ScheduleKeepsDead(t, m);
    }
    if ChildrenLater(s) {
      forall path | ChildPath(s, path) && path[0] == n
        ensures Dead(Destroy(s, name).value, path[|path| - 1])
      {
        ScheduleKeepsDead(t, path[|path| - 1]);
      }
    }
  }
}
