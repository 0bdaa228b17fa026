/** The manager's state: the PCB and RCB objects, the ready list `RL`, the
    block list `BL`, the name maps and the identifier counters
    (src/project1/Manager.java:9-96).

    Java object identity is modelled by references that are never reused:
    `ProcRef` and `ResRef` index the `pcbs` and `rcbs` heaps. They are not the
    source's `PID`/`RID` fields, which are counters that `init` resets; PCBs
    of an earlier run stay reachable through the static `IO` resource's wait
    list after `init`, so the counters cannot serve as identities. */
module Kernel {
  import opened Wrappers

  type ProcRef = nat
  type ResRef = nat

  /** `statusType`: 0 is blocked, 1 is ready, 2 is running. */
  datatype Status = Blocked | Ready | Running

  /** Class `PCB`. `held` is the `resource` vector (one entry per unit held),
      `blockedOn` the `statusList` field. */
  datatype Pcb = Pcb(
    name: string,
    pid: int,
    held: seq<ResRef>,
    parent: Option<ProcRef>,
    children: seq<ProcRef>,
    priority: int,
    status: Status,
    blockedOn: Option<ResRef>)

  /** Class `RCB`: `remain` free units and the FIFO `waitList`. */
  datatype Rcb = Rcb(name: string, rid: int, remain: int, waitList: seq<ProcRef>)

  /** The static fields of `Manager`, plus the two heaps. `nextProc` and
      `nextRes` are the next unused references. */
  datatype State = State(
    pcbs: map<ProcRef, Pcb>,
    nextProc: nat,
    rcbs: map<ResRef, Rcb>,
    nextRes: nat,
    numPid: int,
    numRid: int,
    current: ProcRef,
    rl: seq<ProcRef>,
    bl: seq<ProcRef>,
    pcbMap: map<string, ProcRef>,
    rcbMap: map<string, ResRef>)

  /** Why a command is refused; the source throws `Exception("error")` for
      each, before changing anything. */
  datatype Error = NotFound | InvalidPriority | NoWaiters

  /** The static `IO` resource, the first object allocated. */
  const IO: ResRef := 0

  /** Every request and release moves exactly this many units. */
  const UnitTaking: int := 1

  /** `getNewPID`: pre-increment of `numPID`. */
  function GetNewPid(s: State): (int, State)
  {
    (s.numPid + 1, s.(numPid := s.numPid + 1))
  }

  /** `getNewRID`: pre-increment of `numRID`. */
  function GetNewRid(s: State): (int, State)
  {
    (s.numRid + 1, s.(numRid := s.numRid + 1))
  }

  /** `new PCB(name, priority)`: a fresh object, ready, with no parent,
      children or resources, and the next PID. */
  function NewPcb(s: State, name: string, priority: int): (r: (ProcRef, State))
    ensures r.0 == s.nextProc && r.1.nextProc == s.nextProc + 1
    ensures r.1.pcbs == s.pcbs[r.0 := Pcb(name, s.numPid + 1, [], None, [], priority, Ready, None)]
    ensures r.1 == s.(pcbs := r.1.pcbs, nextProc := r.1.nextProc, numPid := s.numPid + 1)
    ensures Allocated(s) ==> r.0 !in s.pcbs && Allocated(r.1)
  {
    var (pid, s1) := GetNewPid(s);
    var p := s1.nextProc;
    (p, s1.(pcbs := s1.pcbs[p := Pcb(name, pid, [], None, [], priority, Ready, None)], nextProc := p + 1))
  }

  /** `new RCB(name, maxNum)`: a fresh object with `maxNum` units, an empty
      wait list and the next RID. */
  function NewRcb(s: State, name: string, maxNum: int): (r: (ResRef, State))
    ensures r.0 == s.nextRes && r.1.nextRes == s.nextRes + 1
    ensures r.1.rcbs == s.rcbs[r.0 := Rcb(name, s.numRid + 1, maxNum, [])]
    ensures r.1 == s.(rcbs := r.1.rcbs, nextRes := r.1.nextRes, numRid := s.numRid + 1)
    ensures Allocated(s) ==> r.0 !in s.rcbs && Allocated(r.1)
  {
    var (rid, s1) := GetNewRid(s);
    var q := s1.nextRes;
    (q, s1.(rcbs := s1.rcbs[q := Rcb(name, rid, maxNum, [])], nextRes := q + 1))
  }

  /** The state right after class loading, before `main` calls `init`: the
      static initialisers have run, so `IO` exists (taking RID 1) and the
      counters are `numPID = -1`, `numRID = 1`. `currentProcess` is still
      `null`; `current` holds a placeholder that `init` overwrites unread. */
  function Loaded(): State {
    State(map[], 0, map[IO := Rcb("IO", 1, 0, [])], 1, -1, 1, 0, [], [], map[], map[])
  }

  /** `p` is a PCB whose status is `st`. */
  predicate HasStatus(s: State, p: ProcRef, st: Status) {
    p in s.pcbs && s.pcbs[p].status == st
  }

  /** Every object lies below the next unused reference, so `new` is
      always fresh. */
  predicate Allocated(s: State) {
    && (forall p :: p in s.pcbs ==> p < s.nextProc)
    && (forall q :: q in s.rcbs ==> q < s.nextRes)
  }

  /** The references every command dereferences resolve: `currentProcess`
      is not `null` (true from the first `init` on), the static `IO`
      resource exists and `RCBMap` only maps to existing RCBs. */
  predicate Wired(s: State) {
    && Allocated(s)
    && s.current in s.pcbs
    && IO in s.rcbs
    && (forall k :: k in s.rcbMap ==> s.rcbMap[k] in s.rcbs)
  }

  /** `a` and `b` agree on everything but the PCBs, RCBs, `RL` and `BL`. */
  predicate SameFrame(a: State, b: State) {
    && a.current == b.current
    && a.nextProc == b.nextProc && a.nextRes == b.nextRes
    && a.numPid == b.numPid && a.numRid == b.numRid
    && a.pcbMap == b.pcbMap && a.rcbMap == b.rcbMap
  }

  /** Replace the PCB at `p` (no change when `p` is dangling). */
  function SetPcb(s: State, p: ProcRef, pcb: Pcb): State {
    if p in s.pcbs then s.(pcbs := s.pcbs[p := pcb]) else s
  }

  /** Replace the RCB at `q` (no change when `q` is dangling). */
  function SetRcb(s: State, q: ResRef, rcb: Rcb): State {
    if q in s.rcbs then s.(rcbs := s.rcbs[q := rcb]) else s
  }

  /** The children lists: the creation tree, which only `create` changes. */
  function Tree(s: State): (t: map<ProcRef, seq<ProcRef>>)
    ensures t.Keys == s.pcbs.Keys
  {
    map p | p in s.pcbs :: s.pcbs[p].children
  }

  /** The processes `killTree(n)` visits: `n` and, recursively, its children.
      A child is always allocated after its parent, so the recursion goes up
      towards `bound`. */
  function Subtree(tree: map<ProcRef, seq<ProcRef>>, bound: nat, n: ProcRef): set<ProcRef>
    decreases bound - n, 1
  {
    {n} + (if n in tree then SubtreeOfKids(tree, bound, n, tree[n]) else {})
  }

  function SubtreeOfKids(tree: map<ProcRef, seq<ProcRef>>, bound: nat, n: ProcRef, kids: seq<ProcRef>): set<ProcRef>
    decreases bound - n, 0, |kids|
  {
    if kids == [] then {}
    else if n < kids[0] < bound then Subtree(tree, bound, kids[0]) + SubtreeOfKids(tree, bound, n, kids[1..])
    else SubtreeOfKids(tree, bound, n, kids[1..])
  }

  /** Every child exists and was allocated after its parent: `create`
      appends the newest reference to the current process's children, and
      nothing else touches a children list. */
  predicate ChildrenLater(s: State) {
    forall p :: p in s.pcbs ==> forall c :: c in s.pcbs[p].children ==> p < c && c in s.pcbs
  }

  /** A walk down the creation tree: every entry is a child of the one
      before it. */
  predicate ChildPath(s: State, path: seq<ProcRef>) {
    && |path| > 0
    && forall i :: 0 <= i < |path| - 1 ==> path[i] in s.pcbs && path[i + 1] in s.pcbs[path[i]].children
  }

  /** When children come after their parents, the guard in `SubtreeOfKids`
      never drops a child: every process reachable from `path[0]` by a walk
      down the creation tree is in `path[0]`'s subtree. */
  lemma {:induction false} SubtreeHoldsDescendants(s: State, path: seq<ProcRef>)
    requires Allocated(s) && ChildrenLater(s) && ChildPath(s, path)
    ensures path[|path| - 1] in Subtree(Tree(s), s.nextProc, path[0])
    decreases |path|
  {
    if |path| > 1 {
      var n, c := path[0], path[1];
      assert ChildPath(s, path[1..]) by {
        forall i | 0 <= i < |path[1..]| - 1
          ensures path[1..][i] in s.pcbs && path[1..][i + 1] in s.pcbs[path[1..][i]].children
        {
          assert path[1..][i] == path[i + 1] && path[1..][i + 1] == path[i + 2];
        }
      }
      SubtreeHoldsDescendants(s, path[1..]);
      assert path[1..][|path[1..]| - 1] == path[|path| - 1];
      assert n < c < s.nextProc;
      KidsCover(Tree(s), s.nextProc, n, Tree(s)[n], c);
    }
  }

  /** A listed child within the bound contributes its whole subtree. */
  lemma {:induction false} KidsCover(tree: map<ProcRef, seq<ProcRef>>, bound: nat, n: ProcRef, kids: seq<ProcRef>, c: ProcRef)
    requires c in kids && n < c < bound
    ensures Subtree(tree, bound, c) <= SubtreeOfKids(tree, bound, n, kids)
    decreases |kids|
  {
    if kids[0] != c {
      KidsCover(tree, bound, n, kids[1..], c);
    }
  }
}
