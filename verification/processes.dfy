/** The process tree: `create`, `killTree`, `destroy` and `timeOut`
    (src/project1/Manager.java:128-219, 309-316). */
module Processes {
  import opened Wrappers
  import opened Seqs
  import opened Kernel
  import opened Scheduler
  import opened Resources

  /** The state change of `create(name, priority)`, before rescheduling:
      a priority outside 1..2 is refused before anything changes; otherwise
      a new PCB becomes a child of the current process, joins the tail of
      `RL` and is registered under its name. */
  function CreateStep(s: State, name: string, priority: int): (r: Result<State, Error>)
    requires Wired(s)
  {
    if priority <= 0 then Err(InvalidPriority)
    else if priority > 2 then Err(InvalidPriority)
    else
      var (n, s1) := NewPcb(s, name, priority);
      var parent := s1.pcbs[s.current];
      Ok(s1.(pcbs := s1.pcbs[n := s1.pcbs[n].(parent := Some(s.current))]
                            [s.current := parent.(children := parent.children + [n])],
             rl := s1.rl + [n],
             pcbMap := s1.pcbMap[name := n]))
  }

  /** The state change of `create`: one fresh ready PCB, appended to `RL`
      and named in `PCBMap`; the parent gains a child. */
  lemma CreateStepShape(s: State, name: string, priority: int)
    requires Wired(s) && 0 < priority <= 2
    ensures var t := CreateStep(s, name, priority).value;
      var n := s.nextProc;
      && (forall p :: p in t.pcbs <==> p in s.pcbs || p == n)
      && (forall p :: p in s.pcbs ==> t.pcbs[p] == s.pcbs[p].(children := t.pcbs[p].children))
      && (forall p :: p in s.pcbs && p != s.current ==> t.pcbs[p] == s.pcbs[p])
      && t.pcbs[s.current].children == s.pcbs[s.current].children + [n]
      && t.pcbs[n] == Pcb(name, s.numPid + 1, [], Some(s.current), [], priority, Ready, None)
      && t.rl == s.rl + [n] && t.bl == s.bl && t.rcbs == s.rcbs && t.pcbMap == s.pcbMap[name := n]
      && t.current == s.current && t.nextProc == n + 1 && t.nextRes == s.nextRes && t.rcbMap == s.rcbMap
  {
  }

  /** A successful creation always leaves someone to run: the new process
      itself is ready with a priority of at least 1. */
  lemma CreateStepSchedulable(s: State, name: string, priority: int)
    requires Wired(s)
    ensures ThenSchedulable(CreateStep(s, name, priority))
  {
    if CreateStep(s, name, priority).Ok? {
      var t := CreateStep(s, name, priority).value;
      var n := s.nextProc;
      assert t.rl[|t.rl| - 1] == n;
      assert n != s.current by { assert s.current in s.pcbs; }
      assert Candidate(Demote(t), t.rl[|t.rl| - 1]);
    }
  }

  /** `create(name, priority)`: refused exactly when the priority is not 1
      or 2. On success the new process gets the next PID and reference,
      the current process as parent, no children and no resources; it is
      appended to its parent's children and to the tail of `RL`, and
      registered under its name. */
  function Create(s: State, name: string, priority: int): (r: Result<State, Error>)
    requires Wired(s)
    ensures r.Err? <==> priority <= 0 || priority > 2
    ensures r.Err? ==> r.error == InvalidPriority
    ensures r.Ok? ==>
      var n := s.nextProc;
      var t := r.value;
      && n !in s.pcbs.Keys + {s.current}
      && (forall p :: p in s.pcbs ==> p in t.pcbs)
      && n in t.pcbs && t.pcbs[n].name == name && t.pcbs[n].priority == priority
      && t.pcbs[n].pid == s.numPid + 1 && t.numPid == s.numPid + 1
      && t.pcbs[n].parent == Some(s.current)
      && t.pcbs[n].children == [] && t.pcbs[n].held == []
      && t.pcbs[n].status != Blocked
      && t.pcbs[s.current].children == s.pcbs[s.current].children + [n]
      && t.rl == s.rl + [n] && t.bl == s.bl && t.rcbs == s.rcbs
      && t.pcbMap == s.pcbMap[name := n]
  {
    CreateStepSchedulable(s, name, priority);
    var step := CreateStep(s, name, priority);
    if step.Err? then Err(step.error) else Ok(Schedule(step.value))
  }

  /** The state change of `timeOut()`, before rescheduling: the current
      process moves to the tail of `RL` as ready. */
  function TimeOutStep(s: State): State
    requires Wired(s)
  {
    s.(rl := RemoveFirst(s.rl, s.current) + [s.current],
       pcbs := s.pcbs[s.current := s.pcbs[s.current].(status := Ready)])
  }

  /** `timeOut()`: the current process goes to the tail of `RL` as ready,
      then the scheduler runs. */
  function TimeOut(s: State): (r: State)
    requires Wired(s)
    requires Schedulable(TimeOutStep(s))
    ensures r.rl == RemoveFirst(s.rl, s.current) + [s.current]
    ensures r.bl == s.bl && r.rcbs == s.rcbs
    ensures forall p :: p in r.pcbs <==> p in s.pcbs
    ensures r.pcbs[s.current].status != Blocked
  {
    Schedule(TimeOutStep(s))
  }

  /** When the current process occurs once in `RL`, `timeOut` moves it to
      the tail and keeps the relative order of every other entry. */
  lemma TimeOutRequeues(s: State)
    requires Wired(s) && Schedulable(TimeOutStep(s))
    requires NoDups(s.rl)
    ensures TimeOut(s).rl == Without(s.rl, s.current) + [s.current]
    ensures forall p :: p in TimeOut(s).rl <==> p in s.rl || p == s.current
  {
    RemoveFirstIsWithout(s.rl, s.current);
  }

  /** The `for (RCB rcb : parentPCB.resource)` loop of `killTree`: free
      every listed unit in order. */
  function FreeAll(s: State, qs: seq<ResRef>): (r: State)
    ensures SameFrame(r, s)
    decreases |qs|
  {
    if qs == [] then s else FreeAll(FreeResource(s, qs[0]), qs[1..])
  }

  /** The body of `killTree` after the children are gone: free the node's
      units, then detach it. */
  function KillNode(s: State, n: ProcRef): (r: State)
    requires n in s.pcbs
    ensures r.nextProc == s.nextProc
  {
    var s1 := FreeAll(s, s.pcbs[n].held);
    if n in s1.pcbs then Detach(s1, n) else s1
  }

  /** `n` is blocked and its `statusList` names an existing resource: the
      case in which `killTree` unlinks it from that resource's wait list. */
  predicate WaitingOn(s: State, n: ProcRef)
    requires n in s.pcbs
  {
    s.pcbs[n].status == Blocked && s.pcbs[n].blockedOn.Some? && s.pcbs[n].blockedOn.value in s.rcbs
  }

  /** Clear the node's held list, unlink it from the wait list it is
      blocked on, mark it with priority -1 and drop it from `RL`, `BL` and
      `PCBMap`. */
  function Detach(s: State, n: ProcRef): (r: State)
    requires n in s.pcbs
    ensures SameFrame(r, s.(pcbMap := r.pcbMap))
  {
    var p := s.pcbs[n];
    var rcbs :=
      if WaitingOn(s, n) then
        var b := p.blockedOn.value;
        s.rcbs[b := s.rcbs[b].(waitList := RemoveFirst(s.rcbs[b].waitList, n))]
      else s.rcbs;
    s.(pcbs := s.pcbs[n := p.(held := [], priority := -1)],
       rcbs := rcbs,
       rl := RemoveFirst(s.rl, n),
       bl := RemoveFirst(s.bl, n),
       pcbMap := s.pcbMap - {p.name})
  }

  /** Detaching `n` changes no PCB but `n`'s, and of that only `held`
      (emptied) and the priority (set to -1). */
  lemma DetachPcbs(s: State, n: ProcRef)
    requires n in s.pcbs
    ensures var r := Detach(s, n);
      && (forall p :: p in r.pcbs <==> p in s.pcbs)
      && (forall p :: p in s.pcbs && p != n ==> r.pcbs[p] == s.pcbs[p])
      && r.pcbs[n] == s.pcbs[n].(held := [], priority := -1)
  {
  }

  /** Detaching `n` takes `n` out of `RL`, `BL` and out of the wait list of the
      resource it is blocked on; every other RCB field is untouched. */
  lemma DetachLists(s: State, n: ProcRef)
    requires n in s.pcbs
    ensures var r := Detach(s, n);
      && r.rl == RemoveFirst(s.rl, n) && r.bl == RemoveFirst(s.bl, n)
      && (forall x :: x in r.rcbs <==> x in s.rcbs)
      && (forall x :: x in s.rcbs ==>
            && r.rcbs[x] == s.rcbs[x].(waitList := r.rcbs[x].waitList)
            && (r.rcbs[x].waitList == s.rcbs[x].waitList
                || r.rcbs[x].waitList == RemoveFirst(s.rcbs[x].waitList, n)))
      && (forall x :: x in s.rcbs && Some(x) != s.pcbs[n].blockedOn ==> r.rcbs[x] == s.rcbs[x])
  {
    var r := Detach(s, n);
    var p := s.pcbs[n];
    if WaitingOn(s, n) {
      var b := p.blockedOn.value;
      UnwaitOne(s.rcbs, r.rcbs, b, n);
    } else {
      assert r.rcbs == s.rcbs;
    }
  }

  /** The wait list `n` is blocked on loses `n`; when `n` is not waiting,
      no RCB changes at all. */
  lemma DetachUnlinks(s: State, n: ProcRef)
    requires n in s.pcbs
    ensures var r := Detach(s, n);
      && (WaitingOn(s, n) ==>
            var b := s.pcbs[n].blockedOn.value;
            r.rcbs[b].waitList == RemoveFirst(s.rcbs[b].waitList, n))
      && (!WaitingOn(s, n) ==> r.rcbs == s.rcbs)
  {
  }

  /** One wait list loses `n`; every other RCB is the same. */
  lemma UnwaitOne(a: map<ResRef, Rcb>, c: map<ResRef, Rcb>, b: ResRef, n: ProcRef)
    requires b in a && c == a[b := a[b].(waitList := RemoveFirst(a[b].waitList, n))]
    ensures forall x :: x in c <==> x in a
    ensures forall x :: x in a ==>
      && c[x] == a[x].(waitList := c[x].waitList)
      && (c[x].waitList == a[x].waitList || c[x].waitList == RemoveFirst(a[x].waitList, n))
    ensures forall x :: x in a && x != b ==> c[x] == a[x]
  {
  }

  /** Detaching `n` drops exactly `n`'s name from `PCBMap`. */
  lemma DetachNames(s: State, n: ProcRef)
    requires n in s.pcbs
    ensures var r := Detach(s, n);
      && (forall k :: k in r.pcbMap <==> k in s.pcbMap && k != s.pcbs[n].name)
      && (forall k :: k in r.pcbMap ==> r.pcbMap[k] == s.pcbMap[k])
  {
  }

  /** `killTree(n)`: post-order teardown, children first. A child is always
      allocated after its parent, so the recursion climbs towards
      `nextProc`. */
  function KillTree(s: State, n: ProcRef): (r: State)
    ensures r.nextProc == s.nextProc
    decreases s.nextProc - n, 1
  {
    if n !in s.pcbs then s
    else KillNodeAfterKids(KillChildren(s, n, s.pcbs[n].children), n)
  }

  function KillNodeAfterKids(s: State, n: ProcRef): (r: State)
    ensures r.nextProc == s.nextProc
  {
    if n in s.pcbs then KillNode(s, n) else s
  }

  /** The `for (PCB childrenPCB : parentPCB.children)` loop of `killTree`. */
  function KillChildren(s: State, n: ProcRef, kids: seq<ProcRef>): (r: State)
    ensures r.nextProc == s.nextProc
    decreases s.nextProc - n, 0, |kids|
  {
    if kids == [] then s
    else if n < kids[0] < s.nextProc then KillChildren(KillTree(s, kids[0]), n, kids[1..])
    else KillChildren(s, n, kids[1..])
  }

  /** The state change of `destroy(name)`, before rescheduling. */
  function DestroyStep(s: State, name: string): Result<State, Error> {
    if name !in s.pcbMap then Err(NotFound) else Ok(KillTree(s, s.pcbMap[name]))
  }

  /** No process of `nodes` waits on a resource it holds. This rules out
      the one way `killTree` can fail: when it frees a unit of the dying
      process's own resource while that process heads the resource's wait
      list, `freeResource` appends to the held list being iterated, and the
      iterator throws a ConcurrentModificationException, which `execute`
      catches with the subtree half torn down. It also rules out self-waits
      where the process is not at the head, which the source tears down
      without an exception. */
  predicate NoSelfWait(s: State, nodes: set<ProcRef>) {
    forall p :: p in nodes && p in s.pcbs && s.pcbs[p].status == Blocked && s.pcbs[p].blockedOn.Some?
      ==> s.pcbs[p].blockedOn.value !in s.pcbs[p].held
  }

  /** `destroy(name)`: an unknown name is refused with nothing changed;
      otherwise the named process's subtree is torn down by `killTree` and
      the scheduler runs. */
  function Destroy(s: State, name: string): (r: Result<State, Error>)
    requires Wired(s)
    requires name in s.pcbMap ==> NoSelfWait(s, Subtree(Tree(s), s.nextProc, s.pcbMap[name]))
    requires ThenSchedulable(DestroyStep(s, name))
    ensures r.Err? <==> name !in s.pcbMap
    ensures r.Err? ==> r.error == NotFound
  {
    var step := DestroyStep(s, name);
    if step.Err? then Err(step.error) else Ok(Schedule(step.value))
  }
}
