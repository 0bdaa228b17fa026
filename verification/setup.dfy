/** `init()` (src/project1/Manager.java:224-251) and the start-up sequence
    of `main` (src/project1/Manager.java:488-491). */
module Setup {
  import opened Wrappers
  import opened Kernel

  /** The four user resources `init` creates. */
  const ResourceNames: seq<string> := ["R1", "R2", "R3", "R4"]

  /** `init()`: reset both counters, replace `RCBMap` by four fresh
      resources `R1`..`R4` of one unit each, and replace `PCBMap`, `RL` and
      `BL` by the fresh root process "Init" (priority 0, running, no
      parent). The scheduler does not run. The static `IO` resource and its
      wait list are left as they were, as are the old objects. */
  function Init(s: State): (r: State)
  {
    var b := s.nextRes;
    var root := s.nextProc;
    s.(rcbs := s.rcbs[b := Rcb("R1", 1, 1, [])][b + 1 := Rcb("R2", 2, 1, [])]
                     [b + 2 := Rcb("R3", 3, 1, [])][b + 3 := Rcb("R4", 4, 1, [])],
       nextRes := b + 4,
       numRid := 4,
       rcbMap := map["R1" := b, "R2" := b + 1, "R3" := b + 2, "R4" := b + 3],
       pcbs := s.pcbs[root := Pcb("Init", 0, [], None, [], 0, Running, None)],
       nextProc := root + 1,
       numPid := 0,
       current := root,
       pcbMap := map["Init" := root],
       rl := [root],
       bl := [])
  }

  /** `init` builds its objects with the constructors: with the counters
      reset to `numPID = -1` and `numRID = 0`, four `new RCB` and one
      `new PCB`, the root then marked running, give exactly the objects,
      counters and maps of `Init`. */
  lemma InitByConstructors(s: State)
    ensures var (r1, s1) := NewRcb(s.(numPid := -1, numRid := 0), "R1", 1);
      var (r2, s2) := NewRcb(s1, "R2", 1);
      var (r3, s3) := NewRcb(s2, "R3", 1);
      var (r4, s4) := NewRcb(s3, "R4", 1);
      var (root, s5) := NewPcb(s4, "Init", 0);
      var i := Init(s);
      && i.rcbs == s5.rcbs && i.nextRes == s5.nextRes && i.numRid == s5.numRid
      && i.rcbMap == map["R1" := r1, "R2" := r2, "R3" := r3, "R4" := r4]
      && i.pcbs == s5.pcbs[root := s5.pcbs[root].(status := Running)]
      && i.nextProc == s5.nextProc && i.numPid == s5.numPid
      && i.current == root && i.pcbMap == map["Init" := root] && i.rl == [root] && i.bl == []
  {
    UserResourcesByConstructors(s);
  }

  /** The four `new RCB` calls of `init`, from `numRID = 0`. */
  lemma UserResourcesByConstructors(s: State)
    ensures var b := s.nextRes;
      var (r1, s1) := NewRcb(s.(numPid := -1, numRid := 0), "R1", 1);
      var (r2, s2) := NewRcb(s1, "R2", 1);
      var (r3, s3) := NewRcb(s2, "R3", 1);
      var (r4, s4) := NewRcb(s3, "R4", 1);
      && [r1, r2, r3, r4] == [b, b + 1, b + 2, b + 3]
      && s4 == s.(numPid := -1, numRid := 4, nextRes := b + 4,
                  rcbs := s.rcbs[b := Rcb("R1", 1, 1, [])][b + 1 := Rcb("R2", 2, 1, [])]
                                [b + 2 := Rcb("R3", 3, 1, [])][b + 3 := Rcb("R4", 4, 1, [])])
  {
    var b := s.nextRes;
    var (r1, s1) := NewRcb(s.(numPid := -1, numRid := 0), "R1", 1);
    var (r2, s2) := NewRcb(s1, "R2", 1);
    var (r3, s3) := NewRcb(s2, "R3", 1);
    assert s1 == s.(numPid := -1, numRid := 1, nextRes := b + 1, rcbs := s.rcbs[b := Rcb("R1", 1, 1, [])]);
    assert s2 == s1.(numRid := 2, nextRes := b + 2, rcbs := s1.rcbs[b + 1 := Rcb("R2", 2, 1, [])]);
    assert s3 == s2.(numRid := 3, nextRes := b + 3, rcbs := s2.rcbs[b + 2 := Rcb("R3", 3, 1, [])]);
  }

  /** The root `init` creates: "Init" has PID 0, priority 0, status running,
      no parent, children or resources, and is alone in `RL` and `PCBMap`;
      `BL` is empty; older processes are untouched. */
  lemma InitResetsProcesses(s: State)
    requires Allocated(s)
    ensures var r := Init(s);
      && r.current == s.nextProc && r.current !in s.pcbs
      && r.pcbs[r.current] == Pcb("Init", 0, [], None, [], 0, Running, None)
      && r.rl == [r.current] && r.bl == [] && r.pcbMap == map["Init" := r.current]
      && r.numPid == 0
      && (forall p :: p in s.pcbs ==> p in r.pcbs && r.pcbs[p] == s.pcbs[p])
  {
  }

  /** The resources after `init`: `R1`..`R4` are new RCBs with RIDs 1..4,
      one unit each and no waiters, and are all `RCBMap` holds; the static
      `IO` resource and every older RCB are untouched. */
  lemma InitResetsResources(s: State)
    requires Allocated(s) && IO in s.rcbs
    ensures var r := Init(s);
      && r.numRid == 4
      && r.rcbMap.Keys == {"R1", "R2", "R3", "R4"}
      && (forall i :: 0 <= i < 4 ==>
            var q := r.rcbMap[ResourceNames[i]];
            q == s.nextRes + i && q !in s.rcbs && r.rcbs[q] == Rcb(ResourceNames[i], i + 1, 1, []))
      && r.rcbs[IO] == s.rcbs[IO]
      && (forall q :: q in s.rcbs ==> q in r.rcbs && r.rcbs[q] == s.rcbs[q])
  {
    var r := Init(s);
    forall i | 0 <= i < 4
      ensures var q := r.rcbMap[ResourceNames[i]];
              q == s.nextRes + i && q !in s.rcbs && r.rcbs[q] == Rcb(ResourceNames[i], i + 1, 1, [])
    {
      assert ResourceNames[i] in r.rcbMap;
    }
  }

  /** `init` leaves every reference resolving. */
  lemma InitWired(s: State)
    requires Allocated(s) && IO in s.rcbs
    ensures Wired(Init(s))
  {
  }

  /** The state `main` reaches before reading its first command: class
      loading followed by `init()`. */
  function Start(): (r: State)
    ensures Wired(r)
    ensures r.pcbs.Keys == {r.current} && r.rcbs[IO] == Rcb("IO", 1, 0, [])
  {
    InitWired(Loaded());
    Init(Loaded())
  }

  /** What a user can observe without naming objects: the running process,
      the ready list, the blocked list and the user resources, by name. */
  datatype View = View(running: string, runningPriority: int, ready: seq<string>,
                       blocked: seq<string>, units: map<string, int>, waiting: map<string, int>)

  function Observe(s: State): View
    requires Wired(s)
    requires forall i :: 0 <= i < |s.rl| ==> s.rl[i] in s.pcbs
    requires forall i :: 0 <= i < |s.bl| ==> s.bl[i] in s.pcbs
  {
    View(s.pcbs[s.current].name, s.pcbs[s.current].priority,
         seq(|s.rl|, i requires 0 <= i < |s.rl| => s.pcbs[s.rl[i]].name),
         seq(|s.bl|, i requires 0 <= i < |s.bl| => s.pcbs[s.bl[i]].name),
         map k | k in s.rcbMap :: s.rcbs[s.rcbMap[k]].remain,
         map k | k in s.rcbMap :: |s.rcbs[s.rcbMap[k]].waitList|)
  }

  /** `init` always reproduces the same observable state: "Init" running at
      priority 0, alone in `RL`, nothing blocked, and `R1`..`R4` each with
      one free unit and no waiters. */
  lemma InitViewIsFixed(s: State)
    requires Allocated(s) && IO in s.rcbs
    ensures var r := Init(s);
      && Wired(r)
      && var v := Observe(r);
      && v.running == "Init" && v.runningPriority == 0
      && v.ready == ["Init"] && v.blocked == []
      && (forall k :: k in v.units <==> k in ResourceNames)
      && (forall k :: k in v.waiting <==> k in ResourceNames)
      && (forall k :: k in v.units ==> v.units[k] == 1 && v.waiting[k] == 0)
  {
    InitWired(s);
    var r := Init(s);
    var b := s.nextRes;
    assert r.rcbs[b].remain == 1 && r.rcbs[b + 1].remain == 1 && r.rcbs[b + 2].remain == 1 && r.rcbs[b + 3].remain == 1;
    assert r.rcbs[b].waitList == [] && r.rcbs[b + 1].waitList == [] && r.rcbs[b + 2].waitList == [] && r.rcbs[b + 3].waitList == [];
    var v := Observe(r);
    assert v.ready == ["Init"];
  }
}
