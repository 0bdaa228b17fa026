/** `scheduler()` (src/project1/Manager.java:102-122): demote a running
    current process to ready, then run the first ready entry of `RL` with
    the greatest priority. */
module Scheduler {
  import opened Wrappers
  import opened Kernel

  /** First step of the scheduler: a running current process becomes ready. */
  function Demote(t: State): (d: State)
    ensures d.rl == t.rl && d.bl == t.bl && d.rcbs == t.rcbs && d.current == t.current
    ensures forall p :: p in d.pcbs <==> p in t.pcbs
    ensures forall p :: p in t.pcbs && p != t.current ==> d.pcbs[p] == t.pcbs[p]
    ensures HasStatus(t, t.current, Running) ==> HasStatus(d, t.current, Ready)
    ensures !HasStatus(t, t.current, Running) ==> d == t
  {
    if HasStatus(t, t.current, Running) then
      SetPcb(t, t.current, t.pcbs[t.current].(status := Ready))
    else t
  }

  /** What the scan accepts: a ready PCB whose priority beats the initial
      maximum of -1 (destroyed processes carry priority -1). */
  predicate Candidate(d: State, p: ProcRef) {
    p in d.pcbs && d.pcbs[p].status == Ready && d.pcbs[p].priority > -1
  }

  function Prio(d: State, p: ProcRef): int {
    if p in d.pcbs then d.pcbs[p].priority else -1
  }

  /** Independent statement of the choice: entry `i` of `xs` is a candidate
      with priority above `floor`, no candidate has a higher priority, and
      every earlier candidate has a strictly lower one. */
  predicate FirstMaxAbove(d: State, xs: seq<ProcRef>, floor: int, i: int) {
    && 0 <= i < |xs|
    && Candidate(d, xs[i]) && Prio(d, xs[i]) > floor
    && (forall j :: 0 <= j < |xs| && Candidate(d, xs[j]) ==> Prio(d, xs[j]) <= Prio(d, xs[i]))
    && (forall j :: 0 <= j < i && Candidate(d, xs[j]) ==> Prio(d, xs[j]) < Prio(d, xs[i]))
  }

  /** The `for (PCB pcb : RL)` loop, from `maxPriority` and `nextPCB`. */
  function Scan(d: State, xs: seq<ProcRef>, maxPriority: int, next: Option<ProcRef>): (r: Option<ProcRef>)
    decreases |xs|
  {
    if xs == [] then next
    else if Candidate(d, xs[0]) && Prio(d, xs[0]) > maxPriority then
      Scan(d, xs[1..], Prio(d, xs[0]), Some(xs[0]))
    else Scan(d, xs[1..], maxPriority, next)
  }

  /** A choice made in the tail of `xs` stands for `xs` when the head is not
      a candidate of higher priority than the tail's floor `m`. */
  lemma FirstMaxInTail(d: State, xs: seq<ProcRef>, floor: int, m: int, i: int)
    requires xs != [] && floor <= m
    requires Candidate(d, xs[0]) ==> Prio(d, xs[0]) <= m
    requires FirstMaxAbove(d, xs[1..], m, i)
    ensures FirstMaxAbove(d, xs, floor, i + 1)
  {
    var tl := xs[1..];
    assert xs[i + 1] == tl[i];
    forall j | 0 <= j < |xs| && Candidate(d, xs[j])
      ensures Prio(d, xs[j]) <= Prio(d, tl[i])
    {
      if j > 0 { assert xs[j] == tl[j - 1]; }
    }
    forall j | 0 <= j < i + 1 && Candidate(d, xs[j])
      ensures Prio(d, xs[j]) < Prio(d, tl[i])
    {
      if j > 0 { assert xs[j] == tl[j - 1]; }
    }
  }

  /** The head is the choice when it beats the floor and nothing after it
      has a higher priority. */
  lemma FirstMaxAtHead(d: State, xs: seq<ProcRef>, floor: int)
    requires xs != [] && Candidate(d, xs[0]) && Prio(d, xs[0]) > floor
    requires forall j :: 0 <= j < |xs| - 1 && Candidate(d, xs[1..][j]) ==> Prio(d, xs[1..][j]) <= Prio(d, xs[0])
    ensures FirstMaxAbove(d, xs, floor, 0)
  {
    forall j | 0 <= j < |xs| && Candidate(d, xs[j])
      ensures Prio(d, xs[j]) <= Prio(d, xs[0])
    {
      if j > 0 { assert xs[j] == xs[1..][j - 1]; }
    }
  }

  /** The scan keeps its start value when no candidate beats `maxPriority`. */
  lemma {:induction false} ScanKeepsStart(d: State, xs: seq<ProcRef>, maxPriority: int, next: Option<ProcRef>)
    requires forall j :: 0 <= j < |xs| && Candidate(d, xs[j]) ==> Prio(d, xs[j]) <= maxPriority
    ensures Scan(d, xs, maxPriority, next) == next
    decreases |xs|
  {
    if xs != [] {
      var tl := xs[1..];
      forall j | 0 <= j < |tl| && Candidate(d, tl[j])
        ensures Prio(d, tl[j]) <= maxPriority
      {
        assert tl[j] == xs[j + 1];
      }
      ScanKeepsStart(d, tl, maxPriority, next);
    }
  }

  /** When some candidate beats `maxPriority`, the scan returns the first
      candidate of greatest priority. */
  lemma {:induction false} ScanFindsFirstMax(d: State, xs: seq<ProcRef>, maxPriority: int, next: Option<ProcRef>)
    requires exists j :: 0 <= j < |xs| && Candidate(d, xs[j]) && Prio(d, xs[j]) > maxPriority
    ensures exists i :: FirstMaxAbove(d, xs, maxPriority, i) && Scan(d, xs, maxPriority, next) == Some(xs[i])
    decreases |xs|
  {
    var tl := xs[1..];
    if Candidate(d, xs[0]) && Prio(d, xs[0]) > maxPriority {
      var m := Prio(d, xs[0]);
      if exists j :: 0 <= j < |tl| && Candidate(d, tl[j]) && Prio(d, tl[j]) > m {
        ScanFindsFirstMax(d, tl, m, Some(xs[0]));
        var i :| FirstMaxAbove(d, tl, m, i) && Scan(d, tl, m, Some(xs[0])) == Some(tl[i]);
        FirstMaxInTail(d, xs, maxPriority, m, i);
      } else {
        ScanKeepsStart(d, tl, m, Some(xs[0]));
        FirstMaxAtHead(d, xs, maxPriority);
      }
    } else {
      var j :| 0 <= j < |xs| && Candidate(d, xs[j]) && Prio(d, xs[j]) > maxPriority;
      assert j > 0 && tl[j - 1] == xs[j];
      ScanFindsFirstMax(d, tl, maxPriority, next);
      var i :| FirstMaxAbove(d, tl, maxPriority, i) && Scan(d, tl, maxPriority, next) == Some(tl[i]);
      FirstMaxInTail(d, xs, maxPriority, maxPriority, i);
    }
  }

  /** The scheduler finds someone to run: after demotion, `RL` holds a ready
      process. Without one the source dereferences `null`. */
  predicate Schedulable(t: State) {
    exists i :: 0 <= i < |t.rl| && Candidate(Demote(t), t.rl[i])
  }

  /** The scan comes back empty, and the source would dereference `null`,
      exactly when the state is not schedulable. */
  lemma SchedulerNullExactly(t: State)
    ensures Scan(Demote(t), t.rl, -1, None) == None <==> !Schedulable(t)
  {
    var d := Demote(t);
    if Schedulable(t) {
      ScanFindsFirstMax(d, t.rl, -1, None);
    } else {
      ScanKeepsStart(d, t.rl, -1, None);
    }
  }

  /** The scheduler's choice on `t`. */
  function Choose(t: State): (p: ProcRef)
    requires Schedulable(t)
    ensures exists i :: FirstMaxAbove(Demote(t), t.rl, -1, i) && t.rl[i] == p
  {
    var d := Demote(t);
    ScanFindsFirstMax(d, t.rl, -1, None);
    Scan(d, t.rl, -1, None).value
  }

  /** A command's state change followed by `scheduler()`, for a command
      whose state change leaves someone to run. */
  predicate ThenSchedulable(step: Result<State, Error>) {
    step.Ok? ==> Schedulable(step.value)
  }

  /** `scheduler()`. Only the old and the new current process change: the
      old one is demoted if it was running, the chosen one runs. The lists
      and resources are untouched. When no other `RL` entry was running,
      the chosen process is the only running entry of `RL` afterwards. */
  function Schedule(t: State): (r: State)
    requires Schedulable(t)
    ensures exists i :: FirstMaxAbove(Demote(t), t.rl, -1, i) && t.rl[i] == r.current
    ensures HasStatus(r, r.current, Running)
    ensures HasStatus(t, t.current, Running) && t.current != r.current ==> HasStatus(r, t.current, Ready)
    ensures forall p :: p in r.pcbs <==> p in t.pcbs
    ensures forall p :: p in t.pcbs ==> r.pcbs[p] == t.pcbs[p].(status := r.pcbs[p].status)
    ensures forall p :: p in t.pcbs ==> (r.pcbs[p].status == Blocked <==> t.pcbs[p].status == Blocked)
    ensures forall p :: HasStatus(t, p, Ready) && p != r.current ==> HasStatus(r, p, Ready)
    ensures forall p :: p in t.pcbs && p != t.current && p != r.current ==> r.pcbs[p] == t.pcbs[p]
    ensures r.pcbs[r.current] == t.pcbs[r.current].(status := Running)
    ensures r == t.(pcbs := r.pcbs, current := r.current)
    ensures (forall p :: p in t.rl && p != t.current ==> !HasStatus(t, p, Running))
            ==> forall p :: p in r.rl && HasStatus(r, p, Running) ==> p == r.current
  {
    var d := Demote(t);
    var p := Choose(t);
    d.(current := p, pcbs := d.pcbs[p := d.pcbs[p].(status := Running)])
  }
}
