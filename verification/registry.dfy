/** Facts about names, PIDs, the creation tree and the queues that every
    command keeps, beside `Consistent`:
    - a blocked process that is not torn down waits in the wait list of the
      resource its `statusList` names (src/project1/Manager.java:273-281,
      428-431);
    - a named process that is not blocked is in `RL`;
    - every child exists and was allocated after its parent
      (src/project1/Manager.java:140-143);
    - named processes carry distinct PIDs, none above `numPID`
      (src/project1/Manager.java:90-92). */
module Registry {
  import opened Wrappers
  import opened Seqs
  import opened Kernel
  import opened Scheduler
  import opened Resources
  import opened Processes
  import opened IoDevice
  import opened Setup
  import opened Invariants
  import opened Teardown

  /** `p` waits in the wait list of the resource its `blockedOn` names. */
  predicate Queued(s: State, p: ProcRef)
    requires p in s.pcbs
  {
    && s.pcbs[p].blockedOn.Some? && s.pcbs[p].blockedOn.value in s.rcbs
    && p in s.rcbs[s.pcbs[p].blockedOn.value].waitList
  }

  /** A blocked process that is not torn down (priority -1) is queued. */
  predicate BlockedQueued(s: State) {
    forall p :: p in s.pcbs && s.pcbs[p].status == Blocked && s.pcbs[p].priority != -1 ==> Queued(s, p)
  }

  /** A named process that is not blocked is in `RL`. */
  predicate NamedReady(s: State) {
    forall k :: k in s.pcbMap && s.pcbMap[k] in s.pcbs && s.pcbs[s.pcbMap[k]].status != Blocked ==>
      s.pcbMap[k] in s.rl
  }

  /** A named process blocked on anything but `IO` is in `BL`: `request`
      puts every process it blocks there, and `requestIO` none. */
  predicate ListedWhenBlocked(s: State) {
    forall k ::
      (k in s.pcbMap && s.pcbMap[k] in s.pcbs && s.pcbs[s.pcbMap[k]].status == Blocked &&
       s.pcbs[s.pcbMap[k]].blockedOn != Some(IO)) ==> s.pcbMap[k] in s.bl
  }

  /** Named processes carry distinct PIDs, none above the counter. */
  predicate PidsUnique(s: State) {
    && (forall k :: k in s.pcbMap && s.pcbMap[k] in s.pcbs ==> s.pcbs[s.pcbMap[k]].pid <= s.numPid)
    && (forall j, k :: j in s.pcbMap && k in s.pcbMap && j != k && s.pcbMap[j] in s.pcbs && s.pcbMap[k] in s.pcbs ==>
          s.pcbs[s.pcbMap[j]].pid != s.pcbs[s.pcbMap[k]].pid)
  }

  /** Everything above. */
  predicate Registered(s: State) {
    BlockedQueued(s) && NamedReady(s) && ListedWhenBlocked(s) && ChildrenLater(s) && PidsUnique(s)
  }

  /** Names only disappear, and no PID, children list or counter changes. */
  lemma NamesAndTreeKept(s: State, r: State)
    requires ChildrenLater(s) && PidsUnique(s)
    requires forall p :: p in r.pcbs <==> p in s.pcbs
    requires forall p :: p in s.pcbs ==> r.pcbs[p].pid == s.pcbs[p].pid && r.pcbs[p].children == s.pcbs[p].children
    requires forall k :: k in r.pcbMap ==> k in s.pcbMap && r.pcbMap[k] == s.pcbMap[k]
    requires r.numPid == s.numPid
    ensures ChildrenLater(r) && PidsUnique(r)
  {
    assert ChildrenLater(r) by {
      forall p, c | p in r.pcbs && c in r.pcbs[p].children
        ensures p < c && c in r.pcbs
      {
        assert c in s.pcbs[p].children;
      }
    }
    assert forall k :: k in r.pcbMap && r.pcbMap[k] in r.pcbs ==> r.pcbs[r.pcbMap[k]].pid == s.pcbs[s.pcbMap[k]].pid;
  }

  /** The scheduler only swaps `Ready` and `Running`. */
  lemma ScheduleRegistered(t: State)
    requires Schedulable(t) && Registered(t)
    ensures Registered(Schedule(t))
  {
    var r := Schedule(t);
    NamesAndTreeKept(t, r);
    assert BlockedQueued(r) by {
      forall p | p in r.pcbs && r.pcbs[p].status == Blocked && r.pcbs[p].priority != -1
        ensures Queued(r, p)
      {
        assert t.pcbs[p].status == Blocked;
      }
    }
    assert NamedReady(r) by {
      forall k | k in r.pcbMap && r.pcbMap[k] in r.pcbs && r.pcbs[r.pcbMap[k]].status != Blocked
        ensures r.pcbMap[k] in r.rl
      {
        assert t.pcbs[t.pcbMap[k]].status != Blocked;
      }
    }
    assert ListedWhenBlocked(r) by {
      forall k | k in r.pcbMap && r.pcbMap[k] in r.pcbs && r.pcbs[r.pcbMap[k]].status == Blocked
        && r.pcbs[r.pcbMap[k]].blockedOn != Some(IO)
        ensures r.pcbMap[k] in r.bl
      {
        assert t.pcbs[t.pcbMap[k]].status == Blocked;
      }
    }
  }

  /** `freeResource` readies the head waiter and appends it to `RL`; every
      other waiter stays queued. */
  lemma FreeResourceRegistered(s: State, q: ResRef)
    requires NamesMatch(s) && Registered(s)
    ensures NamesMatch(FreeResource(s, q)) && Registered(FreeResource(s, q))
  {
    NamesAndTreeKept(s, FreeResource(s, q));
    if q in s.rcbs && s.rcbs[q].waitList != [] {
      HandOverQueued(s, q);
      HandOverNamedReady(s, q);
      HandOverListed(s, q);
    }
  }

  lemma HandOverQueued(s: State, q: ResRef)
    requires BlockedQueued(s) && q in s.rcbs && s.rcbs[q].waitList != []
    ensures BlockedQueued(FreeResource(s, q))
  {
    var r := FreeResource(s, q);
    var wl := s.rcbs[q].waitList;
    var w := wl[0];
    assert wl == [w] + wl[1..];
    forall p | p in r.pcbs && r.pcbs[p].status == Blocked && r.pcbs[p].priority != -1
      ensures Queued(r, p)
    {
      assert p != w && r.pcbs[p] == s.pcbs[p];
      assert Queued(s, p);
    }
  }

  lemma HandOverNamedReady(s: State, q: ResRef)
    requires NamedReady(s) && q in s.rcbs && s.rcbs[q].waitList != []
    ensures NamedReady(FreeResource(s, q))
  {
    var r := FreeResource(s, q);
    var w := s.rcbs[q].waitList[0];
    forall k | k in r.pcbMap && r.pcbMap[k] in r.pcbs && r.pcbs[r.pcbMap[k]].status != Blocked
      ensures r.pcbMap[k] in r.rl
    {
      if r.pcbMap[k] != w { assert s.pcbs[s.pcbMap[k]].status != Blocked; }
    }
  }

  lemma HandOverListed(s: State, q: ResRef)
    requires ListedWhenBlocked(s) && q in s.rcbs && s.rcbs[q].waitList != []
    ensures ListedWhenBlocked(FreeResource(s, q))
  {
    var r := FreeResource(s, q);
    var w := s.rcbs[q].waitList[0];
    RemoveFirstKeepsOthers(s.bl, w);
    forall k | k in r.pcbMap && r.pcbMap[k] in r.pcbs && r.pcbs[r.pcbMap[k]].status == Blocked
      && r.pcbs[r.pcbMap[k]].blockedOn != Some(IO)
      ensures r.pcbMap[k] in r.bl
    {
      assert r.pcbMap[k] != w && s.pcbMap[k] in s.bl;
    }
  }

  /** Detaching a process unqueues only that process and drops only its
      name. */
  lemma DetachRegistered(s: State, n: ProcRef)
    requires n in s.pcbs && NamesMatch(s) && Registered(s)
    ensures NamesMatch(Detach(s, n)) && Registered(Detach(s, n))
  {
    var r := Detach(s, n);
    DetachPcbs(s, n);
    DetachLists(s, n);
    DetachNames(s, n);
    DetachLeavesNames(s, n);
    NamesAndTreeKept(s, r);
    RemoveFirstKeepsOthers(s.rl, n);
    RemoveFirstKeepsOthers(s.bl, n);
    assert BlockedQueued(r) by {
      forall p | p in r.pcbs && r.pcbs[p].status == Blocked && r.pcbs[p].priority != -1
        ensures Queued(r, p)
      {
        assert p != n && r.pcbs[p] == s.pcbs[p];
        var x := s.pcbs[p].blockedOn.value;
        RemoveFirstKeepsOthers(s.rcbs[x].waitList, n);
      }
    }
    assert NamedReady(r) by {
      forall k | k in r.pcbMap && r.pcbMap[k] in r.pcbs && r.pcbs[r.pcbMap[k]].status != Blocked
        ensures r.pcbMap[k] in r.rl
      {
        assert r.pcbMap[k] != n;
      }
    }
    assert ListedWhenBlocked(r) by {
      forall k | k in r.pcbMap && r.pcbMap[k] in r.pcbs && r.pcbs[r.pcbMap[k]].status == Blocked
        && r.pcbs[r.pcbMap[k]].blockedOn != Some(IO)
        ensures r.pcbMap[k] in r.bl
      {
        assert r.pcbMap[k] != n;
      }
    }
  }

  lemma {:induction false} FreeAllRegistered(s: State, qs: seq<ResRef>)
    requires NamesMatch(s) && Registered(s)
    ensures NamesMatch(FreeAll(s, qs)) && Registered(FreeAll(s, qs))
    decreases |qs|
  {
    if qs != [] {
      FreeResourceRegistered(s, qs[0]);
      FreeAllRegistered(FreeResource(s, qs[0]), qs[1..]);
    }
  }

  lemma KillNodeRegistered(s: State, n: ProcRef)
    requires n in s.pcbs && NamesMatch(s) && Registered(s)
    ensures NamesMatch(KillNode(s, n)) && Registered(KillNode(s, n))
  {
    var s1 := FreeAll(s, s.pcbs[n].held);
    FreeAllRegistered(s, s.pcbs[n].held);
    if n in s1.pcbs { DetachRegistered(s1, n); }
  }

  /** `killTree` keeps every fact of the registry. */
  lemma {:induction false} KillTreeRegistered(s: State, n: ProcRef)
    requires NamesMatch(s) && Registered(s)
    ensures NamesMatch(KillTree(s, n)) && Registered(KillTree(s, n))
    decreases s.nextProc - n, 1
  {
    if n in s.pcbs {
      var s1 := KillChildren(s, n, s.pcbs[n].children);
      KillChildrenRegistered(s, n, s.pcbs[n].children);
      if n in s1.pcbs { KillNodeRegistered(s1, n); }
    }
  }

  lemma {:induction false} KillChildrenRegistered(s: State, n: ProcRef, kids: seq<ProcRef>)
    requires NamesMatch(s) && Registered(s)
    ensures NamesMatch(KillChildren(s, n, kids)) && Registered(KillChildren(s, n, kids))
    decreases s.nextProc - n, 0, |kids|
  {
    if kids != [] {
      if n < kids[0] < s.nextProc {
        KillTreeRegistered(s, kids[0]);
        KillChildrenRegistered(KillTree(s, kids[0]), n, kids[1..]);
      } else {
        KillChildrenRegistered(s, n, kids[1..]);
      }
    }
  }

  /** `create` appends the newest reference as a child of the current
      process, and its PID is above every other named process's PID: the
      pre-increment of `numPID` hands out each PID once. */
  lemma CreateStepRegistered(s: State, name: string, priority: int)
    requires Wired(s) && NamesMatch(s) && Registered(s) && 0 < priority <= 2
    ensures var t := CreateStep(s, name, priority).value;
      && Registered(t)
      && forall k :: k in t.pcbMap && k != name ==> t.pcbs[t.pcbMap[k]].pid < t.pcbs[t.pcbMap[name]].pid
  {
    CreateStepTree(s, name, priority);
    CreateStepPids(s, name, priority);
    CreateStepQueues(s, name, priority);
  }

  lemma CreateStepTree(s: State, name: string, priority: int)
    requires Wired(s) && ChildrenLater(s) && 0 < priority <= 2
    ensures ChildrenLater(CreateStep(s, name, priority).value)
  {
    var t := CreateStep(s, name, priority).value;
    var n := s.nextProc;
    CreateStepShape(s, name, priority);
    assert n !in s.pcbs && s.current < n;
    forall p, c | p in t.pcbs && c in t.pcbs[p].children
      ensures p < c && c in t.pcbs
    {
      if p == s.current && c !in s.pcbs[p].children {
        assert c == n;
      } else if p != n {
        assert c in s.pcbs[p].children;
      }
    }
  }

  lemma CreateStepPids(s: State, name: string, priority: int)
    requires Wired(s) && NamesMatch(s) && PidsUnique(s) && 0 < priority <= 2
    ensures var t := CreateStep(s, name, priority).value;
      && PidsUnique(t)
      && forall k :: k in t.pcbMap && k != name ==> t.pcbs[t.pcbMap[k]].pid < t.pcbs[t.pcbMap[name]].pid
  {
    var t := CreateStep(s, name, priority).value;
    var n := s.nextProc;
    CreateStepShape(s, name, priority);
    assert n !in s.pcbs;
    assert forall k :: k in t.pcbMap && k != name ==> t.pcbMap[k] == s.pcbMap[k] && s.pcbMap[k] in s.pcbs;
  }

  lemma CreateStepQueues(s: State, name: string, priority: int)
    requires Wired(s) && BlockedQueued(s) && NamedReady(s) && ListedWhenBlocked(s) && 0 < priority <= 2
    ensures var t := CreateStep(s, name, priority).value;
      BlockedQueued(t) && NamedReady(t) && ListedWhenBlocked(t)
  {
    var t := CreateStep(s, name, priority).value;
    var n := s.nextProc;
    CreateStepShape(s, name, priority);
    assert n !in s.pcbs;
    assert BlockedQueued(t) by {
      forall p | p in t.pcbs && t.pcbs[p].status == Blocked && t.pcbs[p].priority != -1
        ensures Queued(t, p)
      {
        assert p in s.pcbs && s.pcbs[p].status == Blocked;
      }
    }
    assert NamedReady(t) by {
      forall k | k in t.pcbMap && t.pcbMap[k] in t.pcbs && t.pcbs[t.pcbMap[k]].status != Blocked
        ensures t.pcbMap[k] in t.rl
      {
        if k != name && t.pcbMap[k] != n { assert s.pcbs[s.pcbMap[k]].status != Blocked; }
      }
    }
    assert ListedWhenBlocked(t) by {
      forall k | k in t.pcbMap && t.pcbMap[k] in t.pcbs && t.pcbs[t.pcbMap[k]].status == Blocked
        && t.pcbs[t.pcbMap[k]].blockedOn != Some(IO)
        ensures t.pcbMap[k] in t.bl
      {
        assert k != name && t.pcbMap[k] != n && s.pcbs[s.pcbMap[k]].status == Blocked;
      }
    }
  }

  /** `timeOut` readies the current process and keeps it in `RL`. */
  lemma TimeOutStepRegistered(s: State)
    requires Wired(s) && Registered(s)
    ensures Registered(TimeOutStep(s))
  {
    var t := TimeOutStep(s);
    var cur := s.current;
    NamesAndTreeKept(s, t);
    RemoveFirstKeepsOthers(s.rl, cur);
    assert BlockedQueued(t) by {
      forall p | p in t.pcbs && t.pcbs[p].status == Blocked && t.pcbs[p].priority != -1
        ensures Queued(t, p)
      {
        assert p != cur;
      }
    }
    assert NamedReady(t) by {
      forall k | k in t.pcbMap && t.pcbMap[k] in t.pcbs && t.pcbs[t.pcbMap[k]].status != Blocked
        ensures t.pcbMap[k] in t.rl
      {
        if t.pcbMap[k] != cur { assert s.pcbMap[k] in s.rl; }
      }
    }
    assert ListedWhenBlocked(t) by {
      forall k | k in t.pcbMap && t.pcbMap[k] in t.pcbs && t.pcbs[t.pcbMap[k]].status == Blocked
        && t.pcbs[t.pcbMap[k]].blockedOn != Some(IO)
        ensures t.pcbMap[k] in t.bl
      {
        assert t.pcbMap[k] != cur;
      }
    }
  }

  /** Blocking `cur` on `q` by appending it to `q`'s wait list (what both
      `request` and `requestIO` do) queues it there and unqueues nobody;
      `request` also appends it to `BL`, `requestIO` blocks it on `IO`. */
  lemma BlockRegistered(s: State, t: State, q: ResRef)
    requires Wired(s) && Registered(s) && q in s.rcbs
    requires forall p :: p in t.pcbs <==> p in s.pcbs
    requires t.pcbs == s.pcbs[s.current := s.pcbs[s.current].(status := Blocked, blockedOn := Some(q))]
    requires t.rcbs == s.rcbs[q := s.rcbs[q].(waitList := s.rcbs[q].waitList + [s.current])]
    requires t.rl == RemoveFirst(s.rl, s.current) && t.pcbMap == s.pcbMap && t.numPid == s.numPid
    requires t.bl == s.bl + [s.current] || (q == IO && t.bl == s.bl)
    ensures Registered(t)
  {
    var cur := s.current;
    NamesAndTreeKept(s, t);
    RemoveFirstKeepsOthers(s.rl, cur);
    assert BlockedQueued(t) by {
      forall p | p in t.pcbs && t.pcbs[p].status == Blocked && t.pcbs[p].priority != -1
        ensures Queued(t, p)
      {
        if p != cur {
          assert Queued(s, p);
        }
      }
    }
    assert NamedReady(t) by {
      forall k | k in t.pcbMap && t.pcbMap[k] in t.pcbs && t.pcbs[t.pcbMap[k]].status != Blocked
        ensures t.pcbMap[k] in t.rl
      {
        assert t.pcbMap[k] != cur && s.pcbMap[k] in s.rl;
      }
    }
    assert ListedWhenBlocked(t) by {
      forall k | k in t.pcbMap && t.pcbMap[k] in t.pcbs && t.pcbs[t.pcbMap[k]].status == Blocked
        && t.pcbs[t.pcbMap[k]].blockedOn != Some(IO)
        ensures t.pcbMap[k] in t.bl
      {
        if t.pcbMap[k] != cur { assert s.pcbMap[k] in s.bl; }
      }
    }
  }

  lemma RequestIoStepRegistered(s: State)
    requires Wired(s) && Registered(s)
    ensures Registered(RequestIoStep(s))
  {
    BlockRegistered(s, RequestIoStep(s), IO);
  }

  /** `IOcompletion` readies the head of `IO`'s wait list and appends it to
      `RL`; the other waiters stay queued. */
  lemma IoCompletionStepRegistered(s: State)
    requires Wired(s) && Registered(s) && s.rcbs[IO].waitList != []
    ensures Registered(IoCompletionStep(s).value)
  {
    var t := IoCompletionStep(s).value;
    var wl := s.rcbs[IO].waitList;
    var w := wl[0];
    assert wl == [w] + wl[1..];
    NamesAndTreeKept(s, t);
    assert BlockedQueued(t) by {
      forall p | p in t.pcbs && t.pcbs[p].status == Blocked && t.pcbs[p].priority != -1
        ensures Queued(t, p)
      {
        assert p != w && t.pcbs[p] == s.pcbs[p];
      }
    }
    assert NamedReady(t) by {
      forall k | k in t.pcbMap && t.pcbMap[k] in t.pcbs && t.pcbs[t.pcbMap[k]].status != Blocked
        ensures t.pcbMap[k] in t.rl
      {
        if t.pcbMap[k] != w { assert s.pcbMap[k] in s.rl; }
      }
    }
    assert ListedWhenBlocked(t) by {
      forall k | k in t.pcbMap && t.pcbMap[k] in t.pcbs && t.pcbs[t.pcbMap[k]].status == Blocked
        && t.pcbs[t.pcbMap[k]].blockedOn != Some(IO)
        ensures t.pcbMap[k] in t.bl
      {
        assert t.pcbMap[k] != w && s.pcbMap[k] in s.bl;
      }
    }
  }

  /** `request` either only adds to the held list or blocks the requester. */
  lemma RequestStepRegistered(s: State, name: string)
    requires Wired(s) && Registered(s) && name in s.rcbMap
    ensures Registered(RequestStep(s, name).value)
  {
    var q := s.rcbMap[name];
    var t := RequestStep(s, name).value;
    if s.rcbs[q].remain >= UnitTaking {
      HeldOnlyRegistered(s, t);
    } else {
      BlockRegistered(s, t, q);
    }
  }

  /** `release` frees a unit, then only shortens the releaser's held list. */
  lemma ReleaseStepRegistered(s: State, name: string)
    requires Wired(s) && NamesMatch(s) && Registered(s) && name in s.rcbMap
    ensures Registered(ReleaseStep(s, name).value)
  {
    var q := s.rcbMap[name];
    FreeResourceRegistered(s, q);
    HeldOnlyRegistered(FreeResource(s, q), ReleaseStep(s, name).value);
  }

  /** A change of held lists and unit counts alone keeps the registry. */
  lemma HeldOnlyRegistered(s: State, t: State)
    requires Registered(s)
    requires forall p :: p in t.pcbs <==> p in s.pcbs
    requires forall p :: p in s.pcbs ==> t.pcbs[p] == s.pcbs[p].(held := t.pcbs[p].held)
    requires forall x :: x in t.rcbs <==> x in s.rcbs
    requires forall x :: x in s.rcbs ==> t.rcbs[x].waitList == s.rcbs[x].waitList
    requires t.rl == s.rl && t.bl == s.bl && t.pcbMap == s.pcbMap && t.numPid == s.numPid
    ensures Registered(t)
  {
    NamesAndTreeKept(s, t);
    assert BlockedQueued(t) by {
      forall p | p in t.pcbs && t.pcbs[p].status == Blocked && t.pcbs[p].priority != -1
        ensures Queued(t, p)
      {
        assert Queued(s, p);
      }
    }
    assert NamedReady(t) by {
      forall k | k in t.pcbMap && t.pcbMap[k] in t.pcbs && t.pcbs[t.pcbMap[k]].status != Blocked
        ensures t.pcbMap[k] in t.rl
      {
        assert s.pcbs[s.pcbMap[k]].status != Blocked;
      }
    }
    assert ListedWhenBlocked(t) by {
      forall k | k in t.pcbMap && t.pcbMap[k] in t.pcbs && t.pcbs[t.pcbMap[k]].status == Blocked
        && t.pcbs[t.pcbMap[k]].blockedOn != Some(IO)
        ensures t.pcbMap[k] in t.bl
      {
        assert s.pcbs[s.pcbMap[k]].status == Blocked;
      }
    }
  }

  /** `init` names only the fresh root, which is in `RL` with PID 0 and no
      children; older processes and their wait lists are untouched. */
  lemma InitRegistered(s: State)
    requires Allocated(s) && IO in s.rcbs && BlockedQueued(s) && ChildrenLater(s)
    ensures Registered(Init(s))
  {
    var r := Init(s);
    InitResetsProcesses(s);
    InitResetsResources(s);
    assert ChildrenLater(r) by {
      forall p, c | p in r.pcbs && c in r.pcbs[p].children
        ensures p < c && c in r.pcbs
      {
        if p != r.current { assert p in s.pcbs; }
      }
    }
    assert BlockedQueued(r) by {
      forall p | p in r.pcbs && r.pcbs[p].status == Blocked && r.pcbs[p].priority != -1
        ensures Queued(r, p)
      {
        assert p in s.pcbs && Queued(s, p);
      }
    }
  }
}
