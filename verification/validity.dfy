/** The invariant every command keeps: the state is wired and consistent,
    `IO` is never reachable by name, and the current process is running and
    is the only running entry of `RL`. */
module Validity {
  import opened Wrappers
  import opened Seqs
  import opened Kernel
  import opened Scheduler
  import opened Resources
  import opened Processes
  import opened IoDevice
  import opened Setup
  import opened Invariants
  import opened Teardown
  import opened Registry

  /** `request` and `release` never reach `IO`: it is not in `RCBMap`. */
  predicate IoUnnamed(s: State) {
    forall k :: k in s.rcbMap ==> s.rcbMap[k] != IO
  }

  /** No `RL` entry other than the current process is running. Processes
      orphaned by `init` may still carry the running status, but they are
      in no list. */
  predicate RunningIsCurrent(s: State) {
    forall p :: p in s.rl && HasStatus(s, p, Running) ==> p == s.current
  }

  /** What holds between commands. */
  predicate Valid(s: State) {
    && Wired(s) && Consistent(s) && IoUnnamed(s) && RunningIsCurrent(s) && Registered(s)
    && s.current in s.rl && HasStatus(s, s.current, Running)
  }

  /** What a command's state change must keep for the scheduler to restore
      `Valid`. */
  predicate Kept(t: State) {
    Wired(t) && Consistent(t) && IoUnnamed(t) && RunningIsCurrent(t) && Registered(t)
  }

  /** The scheduler re-establishes the running-process part of the
      invariant after any step that kept the rest. */
  lemma ScheduleValid(t: State)
    requires Schedulable(t) && Kept(t)
    ensures Valid(Schedule(t))
  {
    ScheduleConsistent(t);
    ScheduleRegistered(t);
  }

  /** `init` keeps every older wait list and the PCBs in it, and the new
      resources have none. */
  lemma InitWaitLists(s: State)
    requires Allocated(s) && IO in s.rcbs && ListsDistinct(s) && WaitersBlocked(s)
    ensures ListsDistinct(Init(s)) && WaitersBlocked(Init(s))
  {
    var r := Init(s);
    InitResetsProcesses(s);
    InitResetsResources(s);
    forall q | q in r.rcbs
      ensures q in s.rcbs ==> r.rcbs[q] == s.rcbs[q]
      ensures q !in s.rcbs ==> r.rcbs[q].waitList == []
    {
    }
    assert WaitersBlocked(r) by {
      forall q, p | q in r.rcbs && p in r.rcbs[q].waitList
        ensures HasStatus(r, p, Blocked) && r.pcbs[p].blockedOn == Some(q)
      {
        assert q in s.rcbs && p in s.rcbs[q].waitList;
        assert r.pcbs[p] == s.pcbs[p];
      }
    }
  }

  /** The new resources have one unit each, and every held resource still
      exists. */
  lemma InitUnits(s: State)
    requires Allocated(s) && IO in s.rcbs && RemainsNonNegative(s) && HeldExist(s)
    ensures RemainsNonNegative(Init(s)) && HeldExist(Init(s))
  {
    var r := Init(s);
    InitResetsResources(s);
    assert RemainsNonNegative(r) by {
      forall q | q in r.rcbs ensures r.rcbs[q].remain >= 0 {
        if q !in s.rcbs { assert r.rcbs[q].remain == 1; }
      }
    }
    assert HeldExist(r) by {
      forall p, q | p in r.pcbs && q in r.pcbs[p].held ensures q in r.rcbs {
        assert p in s.pcbs;
      }
    }
  }

  /** `init` starts a valid state from any consistent one whose blocked
      processes are queued and whose children come after their parents. */
  lemma InitValid(s: State)
    requires Allocated(s) && IO in s.rcbs && Consistent(s) && BlockedQueued(s) && ChildrenLater(s)
    ensures Valid(Init(s))
  {
    InitWired(s);
    InitRegistered(s);
    InitWaitLists(s);
    InitUnits(s);
  }

  /** The state the program starts in is valid. */
  lemma StartValid()
    ensures Valid(Start())
  {
    InitValid(Loaded());
  }

  /** A running process waits nowhere and is not in `BL`. */
  lemma RunningUnlisted(s: State, p: ProcRef)
    requires WaitersBlocked(s) && BlockedListed(s) && HasStatus(s, p, Running)
    ensures p !in s.bl && forall x :: x in s.rcbs ==> p !in s.rcbs[x].waitList
  {
  }

  lemma TimeOutStepKept(s: State)
    requires Valid(s)
    ensures Kept(TimeOutStep(s))
  {
    TimeOutStepRegistered(s);
    TimeOutStepConsistent(s);
  }

  lemma TimeOutStepConsistent(s: State)
    requires Valid(s)
    ensures var t := TimeOutStep(s);
      Wired(t) && Consistent(t) && IoUnnamed(t) && RunningIsCurrent(t)
  {
    var t := TimeOutStep(s);
    RunningUnlisted(s, s.current);
    RemoveFirstNoDups(s.rl, s.current);
    AppendNoDups(RemoveFirst(s.rl, s.current), s.current);
    assert WaitersBlocked(t) by {
      forall x, p | x in t.rcbs && p in t.rcbs[x].waitList
        ensures HasStatus(t, p, Blocked) && t.pcbs[p].blockedOn == Some(x)
      {
        assert p != s.current;
      }
    }
  }

  /** `timeOut()` keeps the invariant. */
  lemma TimeOutValid(s: State)
    requires Valid(s) && Schedulable(TimeOutStep(s))
    ensures Valid(TimeOut(s))
  {
    TimeOutStepKept(s);
    ScheduleValid(TimeOutStep(s));
  }

  lemma RequestIoStepKept(s: State)
    requires Valid(s)
    ensures Kept(RequestIoStep(s))
  {
    RequestIoStepRegistered(s);
    RequestIoStepConsistent(s);
  }

  lemma RequestIoStepConsistent(s: State)
    requires Valid(s)
    ensures var t := RequestIoStep(s);
      Wired(t) && Consistent(t) && IoUnnamed(t) && RunningIsCurrent(t)
  {
    var t := RequestIoStep(s);
    var cur := s.current;
    RunningUnlisted(s, cur);
    RemoveFirstNoDups(s.rl, cur);
    AppendNoDups(s.rcbs[IO].waitList, cur);
    assert ListsDistinct(t);
    assert WaitersBlocked(t) by {
      forall x, p | x in t.rcbs && p in t.rcbs[x].waitList
        ensures HasStatus(t, p, Blocked) && t.pcbs[p].blockedOn == Some(x)
      {
        if p != cur {
          assert p in s.rcbs[x].waitList;
        }
      }
    }
  }

  /** `requestIO()` keeps the invariant. */
  lemma RequestIoValid(s: State)
    requires Valid(s) && Schedulable(RequestIoStep(s))
    ensures Valid(RequestIo(s))
  {
    RequestIoStepKept(s);
    ScheduleValid(RequestIoStep(s));
  }

  lemma IoCompletionStepKept(s: State)
    requires Valid(s) && s.rcbs[IO].waitList != []
    ensures Kept(IoCompletionStep(s).value)
  {
    IoCompletionStepRegistered(s);
    IoCompletionStepConsistent(s);
  }

  lemma IoCompletionStepConsistent(s: State)
    requires Valid(s) && s.rcbs[IO].waitList != []
    ensures var t := IoCompletionStep(s).value;
      Wired(t) && Consistent(t) && IoUnnamed(t) && RunningIsCurrent(t)
  {
    var t := IoCompletionStep(s).value;
    var wl := s.rcbs[IO].waitList;
    var p := wl[0];
    assert HasStatus(s, p, Blocked) && s.pcbs[p].blockedOn == Some(IO);
    assert p !in s.rl && p !in s.bl;
    TailNoDups(wl);
    AppendNoDups(s.rl, p);
    assert ListsDistinct(t);
    assert WaitersBlocked(t) by {
      forall x, m | x in t.rcbs && m in t.rcbs[x].waitList
        ensures HasStatus(t, m, Blocked) && t.pcbs[m].blockedOn == Some(x)
      {
        assert m in s.rcbs[x].waitList && m != p;
      }
    }
  }

  /** `IOcompletion()` keeps the invariant. */
  lemma IoCompletionValid(s: State)
    requires Valid(s) && ThenSchedulable(IoCompletionStep(s))
    ensures IoCompletion(s).Ok? ==> Valid(IoCompletion(s).value)
  {
    if s.rcbs[IO].waitList != [] {
      IoCompletionStepKept(s);
      ScheduleValid(IoCompletionStep(s).value);
    }
  }

  lemma CreateStepKeepsLists(s: State, name: string, priority: int)
    requires Valid(s) && 0 < priority <= 2
    ensures var t := CreateStep(s, name, priority).value;
      ListsDistinct(t) && WaitersBlocked(t) && ReadyNotBlocked(t) && BlockedListed(t) && RunningIsCurrent(t)
  {
    var t := CreateStep(s, name, priority).value;
    var n := s.nextProc;
    CreateStepShape(s, name, priority);
    assert n !in s.pcbs && n !in s.rl;
    AppendNoDups(s.rl, n);
    assert WaitersBlocked(t) by {
      forall x, p | x in t.rcbs && p in t.rcbs[x].waitList
        ensures HasStatus(t, p, Blocked) && t.pcbs[p].blockedOn == Some(x)
      {
        assert HasStatus(s, p, Blocked);
      }
    }
  }

  lemma CreateStepKeepsNames(s: State, name: string, priority: int)
    requires Valid(s) && 0 < priority <= 2
    ensures var t := CreateStep(s, name, priority).value;
      Wired(t) && RemainsNonNegative(t) && NamesMatch(t) && HeldExist(t) && IoUnnamed(t)
  {
    var t := CreateStep(s, name, priority).value;
    CreateStepShape(s, name, priority);
    assert NamesMatch(t) by {
      forall k | k in t.pcbMap
        ensures t.pcbMap[k] in t.pcbs && t.pcbs[t.pcbMap[k]].name == k
      {
        if k != name { assert s.pcbMap[k] in s.pcbs; }
      }
    }
    assert HeldExist(t) by {
      forall p, q | p in t.pcbs && q in t.pcbs[p].held ensures q in t.rcbs {
        assert p in s.pcbs;
      }
    }
  }

  /** `create(name, priority)` keeps the invariant. */
  lemma CreateValid(s: State, name: string, priority: int)
    requires Valid(s)
    ensures Create(s, name, priority).Ok? ==> Valid(Create(s, name, priority).value)
  {
    CreateStepSchedulable(s, name, priority);
    if 0 < priority <= 2 {
      CreateStepKeepsLists(s, name, priority);
      CreateStepKeepsNames(s, name, priority);
      CreateStepRegistered(s, name, priority);
      ScheduleValid(CreateStep(s, name, priority).value);
    }
  }

  /** Taking a free unit: `remain` stays non-negative and the requester
      holds one more existing resource. */
  lemma RequestGrantKeepsUnits(s: State, name: string)
    requires Valid(s) && name in s.rcbMap && s.rcbs[s.rcbMap[name]].remain >= UnitTaking
    ensures var t := RequestStep(s, name).value;
      Wired(t) && RemainsNonNegative(t) && HeldExist(t) && NamesMatch(t) && IoUnnamed(t)
  {
    var t := RequestStep(s, name).value;
    assert HeldExist(t) by {
      forall p, q | p in t.pcbs && q in t.pcbs[p].held ensures q in t.rcbs {
        if p != s.current { assert q in s.pcbs[p].held; }
      }
    }
  }

  /** Taking a free unit changes no status and no list. */
  lemma RequestGrantKeepsLists(s: State, name: string)
    requires Valid(s) && name in s.rcbMap && s.rcbs[s.rcbMap[name]].remain >= UnitTaking
    ensures var t := RequestStep(s, name).value;
      ListsDistinct(t) && WaitersBlocked(t) && ReadyNotBlocked(t) && BlockedListed(t) && RunningIsCurrent(t)
  {
    var t := RequestStep(s, name).value;
    assert forall x :: x in s.rcbs ==> t.rcbs[x].waitList == s.rcbs[x].waitList;
    assert forall p :: p in s.pcbs ==> t.pcbs[p] == s.pcbs[p].(held := t.pcbs[p].held);
    assert WaitersBlocked(t) by {
      forall x, p | x in t.rcbs && p in t.rcbs[x].waitList
        ensures HasStatus(t, p, Blocked) && t.pcbs[p].blockedOn == Some(x)
      {
        assert HasStatus(s, p, Blocked);
      }
    }
  }

  /** Blocking: no unit and no held list changes. */
  lemma RequestBlockKeepsUnits(s: State, name: string)
    requires Valid(s) && name in s.rcbMap && s.rcbs[s.rcbMap[name]].remain < UnitTaking
    ensures var t := RequestStep(s, name).value;
      Wired(t) && RemainsNonNegative(t) && HeldExist(t) && NamesMatch(t) && IoUnnamed(t)
  {
    var t := RequestStep(s, name).value;
    assert HeldExist(t) by {
      forall p, q | p in t.pcbs && q in t.pcbs[p].held ensures q in t.rcbs {
        assert q in s.pcbs[p].held;
      }
    }
  }

  /** Blocking on a resource that is not `IO`: the requester moves from
      `RL` to the tail of the wait list and to `BL`. */
  lemma RequestBlockKeepsLists(s: State, name: string)
    requires Valid(s) && name in s.rcbMap && s.rcbs[s.rcbMap[name]].remain < UnitTaking
    ensures var t := RequestStep(s, name).value;
      ListsDistinct(t) && WaitersBlocked(t) && ReadyNotBlocked(t) && BlockedListed(t) && RunningIsCurrent(t)
  {
    var t := RequestStep(s, name).value;
    var q := s.rcbMap[name];
    var cur := s.current;
    RunningUnlisted(s, cur);
    RemoveFirstNoDups(s.rl, cur);
    AppendNoDups(s.rcbs[q].waitList, cur);
    AppendNoDups(s.bl, cur);
    assert ListsDistinct(t);
    assert WaitersBlocked(t) by {
      forall x, p | x in t.rcbs && p in t.rcbs[x].waitList
        ensures HasStatus(t, p, Blocked) && t.pcbs[p].blockedOn == Some(x)
      {
        if p != cur {
          assert p in s.rcbs[x].waitList;
        }
      }
    }
  }

  /** `request(name)` keeps the invariant. */
  lemma RequestValid(s: State, name: string)
    requires Valid(s) && ThenSchedulable(RequestStep(s, name))
    ensures Request(s, name).Ok? ==> Valid(Request(s, name).value)
  {
    if name in s.rcbMap {
      if s.rcbs[s.rcbMap[name]].remain >= UnitTaking {
        RequestGrantKeepsUnits(s, name);
        RequestGrantKeepsLists(s, name);
      } else {
        RequestBlockKeepsUnits(s, name);
        RequestBlockKeepsLists(s, name);
      }
      RequestStepRegistered(s, name);
      ScheduleValid(RequestStep(s, name).value);
    }
  }

  /** `freeResource` only ever readies a process, so no new running entry
      appears in `RL`. */
  lemma FreeResourceKeepsRunning(s: State, q: ResRef)
    requires RunningIsCurrent(s)
    ensures RunningIsCurrent(FreeResource(s, q))
  {
  }

  /** Dropping a held occurrence changes no status and no list. */
  lemma DropHeldKeepsLists(f: State, c: ProcRef, q: ResRef)
    requires c in f.pcbs
    requires ListsDistinct(f) && WaitersBlocked(f) && ReadyNotBlocked(f) && BlockedListed(f) && RunningIsCurrent(f)
    ensures var t := f.(pcbs := f.pcbs[c := f.pcbs[c].(held := RemoveFirst(f.pcbs[c].held, q))]);
      ListsDistinct(t) && WaitersBlocked(t) && ReadyNotBlocked(t) && BlockedListed(t) && RunningIsCurrent(t)
  {
    var t := f.(pcbs := f.pcbs[c := f.pcbs[c].(held := RemoveFirst(f.pcbs[c].held, q))]);
    assert WaitersBlocked(t) by {
      forall x, p | x in t.rcbs && p in t.rcbs[x].waitList
        ensures HasStatus(t, p, Blocked) && t.pcbs[p].blockedOn == Some(x)
      {
        assert HasStatus(f, p, Blocked);
      }
    }
  }

  lemma ReleaseStepKeepsLists(s: State, name: string)
    requires Valid(s) && name in s.rcbMap
    ensures var t := ReleaseStep(s, name).value;
      ListsDistinct(t) && WaitersBlocked(t) && ReadyNotBlocked(t) && BlockedListed(t) && RunningIsCurrent(t)
  {
    var q := s.rcbMap[name];
    FreeResourceConsistent(s, q);
    FreeResourceKeepsRunning(s, q);
    DropHeldKeepsLists(FreeResource(s, q), s.current, q);
  }

  lemma ReleaseStepKeepsUnits(s: State, name: string)
    requires Valid(s) && name in s.rcbMap
    ensures var t := ReleaseStep(s, name).value;
      Wired(t) && RemainsNonNegative(t) && HeldExist(t) && NamesMatch(t) && IoUnnamed(t)
  {
    var q := s.rcbMap[name];
    var f := FreeResource(s, q);
    var t := ReleaseStep(s, name).value;
    FreeResourceConsistent(s, q);
    RemoveFirstKeepsOthers(f.pcbs[s.current].held, q);
    assert HeldExist(t) by {
      forall p, x | p in t.pcbs && x in t.pcbs[p].held ensures x in t.rcbs {
        assert x in f.pcbs[p].held;
      }
    }
  }

  /** `release(name)` keeps the invariant. */
  lemma ReleaseValid(s: State, name: string)
    requires Valid(s) && ThenSchedulable(ReleaseStep(s, name))
    ensures Release(s, name).Ok? ==> Valid(Release(s, name).value)
  {
    if name in s.rcbMap {
      ReleaseStepKeepsLists(s, name);
      ReleaseStepKeepsUnits(s, name);
      ReleaseStepRegistered(s, name);
      ScheduleValid(ReleaseStep(s, name).value);
    }
  }

  lemma {:induction false} FreeAllKeepsRunning(s: State, qs: seq<ResRef>)
    requires RunningIsCurrent(s)
    ensures RunningIsCurrent(FreeAll(s, qs))
    decreases |qs|
  {
    if qs != [] {
      FreeResourceKeepsRunning(s, qs[0]);
      FreeAllKeepsRunning(FreeResource(s, qs[0]), qs[1..]);
    }
  }

  /** Detaching only shortens `RL` and changes no status. */
  lemma DetachKeepsRunning(s: State, n: ProcRef)
    requires n in s.pcbs && RunningIsCurrent(s)
    ensures RunningIsCurrent(Detach(s, n))
  {
    DetachPcbs(s, n);
    DetachLists(s, n);
    RemoveFirstKeepsOthers(s.rl, n);
  }

  lemma KillNodeKeepsRunning(s: State, n: ProcRef)
    requires n in s.pcbs && RunningIsCurrent(s)
    ensures RunningIsCurrent(KillNode(s, n))
  {
    var s1 := FreeAll(s, s.pcbs[n].held);
    FreeAllKeepsRunning(s, s.pcbs[n].held);
    if n in s1.pcbs { DetachKeepsRunning(s1, n); }
  }

  lemma {:induction false} KillTreeKeepsRunning(s: State, n: ProcRef)
    requires RunningIsCurrent(s)
    ensures RunningIsCurrent(KillTree(s, n))
    decreases s.nextProc - n, 1
  {
    if n in s.pcbs {
      var s1 := KillChildren(s, n, s.pcbs[n].children);
      KillChildrenKeepsRunning(s, n, s.pcbs[n].children);
      if n in s1.pcbs { KillNodeKeepsRunning(s1, n); }
    }
  }

  lemma {:induction false} KillChildrenKeepsRunning(s: State, n: ProcRef, kids: seq<ProcRef>)
    requires RunningIsCurrent(s)
    ensures RunningIsCurrent(KillChildren(s, n, kids))
    decreases s.nextProc - n, 0, |kids|
  {
    if kids != [] {
      if n < kids[0] < s.nextProc {
        KillTreeKeepsRunning(s, kids[0]);
        KillChildrenKeepsRunning(KillTree(s, kids[0]), n, kids[1..]);
      } else {
        KillChildrenKeepsRunning(s, n, kids[1..]);
      }
    }
  }

  /** `destroy(name)` keeps the invariant, even when the current process is
      in the destroyed subtree. */
  lemma DestroyValid(s: State, name: string)
    requires Valid(s)
    requires name in s.pcbMap ==> NoSelfWait(s, Subtree(Tree(s), s.nextProc, s.pcbMap[name]))
    requires ThenSchedulable(DestroyStep(s, name))
    ensures Destroy(s, name).Ok? ==> Valid(Destroy(s, name).value)
  {
    if name in s.pcbMap {
      var n := s.pcbMap[name];
      KillTreeKept(s, n);
      ScheduleValid(KillTree(s, n));
    }
  }

  /** `killTree` keeps everything the scheduler needs. */
  lemma KillTreeKept(s: State, n: ProcRef)
    requires Valid(s)
    ensures Kept(KillTree(s, n))
  {
    KillTreeKills(s, n);
    KillTreeIdentities(s, n);
    KillTreeKeepsRunning(s, n);
    KillTreeRegistered(s, n);
    IdentitiesKeepWired(s, KillTree(s, n));
  }

  /** Wiring only depends on what tearing down never changes. */
  lemma IdentitiesKeepWired(s: State, r: State)
    requires Wired(s) && IoUnnamed(s) && SameIdentities(s, r)
    ensures Wired(r) && IoUnnamed(r)
  {
  }
}
