/** Resource allocation: `freeResource`, `request` and `release`
    (src/project1/Manager.java:152-168, 257-303). */
module Resources {
  import opened Wrappers
  import opened Seqs
  import opened Kernel
  import opened Scheduler

  /** `freeResource(pcb, rcb)`: one unit of `q` goes back. With an empty wait
      list it is added to `remain`; otherwise it passes straight to the head
      waiter, which gets `q` appended to its held list, is appended to `RL`
      as ready and is removed from `BL`. The source leaves the waiter's
      `statusList` as it was. The `pcb` argument is unused in the source and
      is omitted here. */
  function FreeResource(s: State, q: ResRef): (r: State)
    ensures SameFrame(r, s)
    ensures forall p :: p in r.pcbs <==> p in s.pcbs
    ensures forall x :: x in r.rcbs <==> x in s.rcbs
    ensures forall x :: x in s.rcbs && x != q ==> r.rcbs[x] == s.rcbs[x]
    ensures q in s.rcbs && s.rcbs[q].waitList == [] ==>
      && r.rcbs[q] == s.rcbs[q].(remain := s.rcbs[q].remain + UnitTaking)
      && r.pcbs == s.pcbs && r.rl == s.rl && r.bl == s.bl
    ensures q in s.rcbs && s.rcbs[q].waitList != [] ==>
      var w := s.rcbs[q].waitList[0];
      && r.rcbs[q] == s.rcbs[q].(waitList := s.rcbs[q].waitList[1..])
      && r.rl == s.rl + [w]
      && r.bl == RemoveFirst(s.bl, w)
      && (forall p :: p in s.pcbs && p != w ==> r.pcbs[p] == s.pcbs[p])
      && (w in s.pcbs ==> r.pcbs[w] == s.pcbs[w].(held := s.pcbs[w].held + [q], status := Ready))
    ensures q !in s.rcbs ==> r == s
  {
    if q !in s.rcbs then s
    else
      var rcb := s.rcbs[q];
      if rcb.waitList == [] then
        s.(rcbs := s.rcbs[q := rcb.(remain := rcb.remain + UnitTaking)])
      else
        // remain += unitTaking, then -= unitTaking once the unit is handed on
        var w := rcb.waitList[0];
        var pcbs := if w in s.pcbs then s.pcbs[w := s.pcbs[w].(held := s.pcbs[w].held + [q], status := Ready)] else s.pcbs;
        s.(rcbs := s.rcbs[q := rcb.(waitList := rcb.waitList[1..])], pcbs := pcbs,
           rl := s.rl + [w], bl := RemoveFirst(s.bl, w))
  }

  /** The state change of `request(name)`, before rescheduling. */
  function RequestStep(s: State, name: string): Result<State, Error>
    requires Wired(s)
  {
    if name !in s.rcbMap then Err(NotFound)
    else
      var q := s.rcbMap[name];
      var rcb := s.rcbs[q];
      var cur := s.pcbs[s.current];
      if UnitTaking <= rcb.remain then
        Ok(s.(rcbs := s.rcbs[q := rcb.(remain := rcb.remain - UnitTaking)],
              pcbs := s.pcbs[s.current := cur.(held := cur.held + [q])]))
      else
        Ok(s.(rl := RemoveFirst(s.rl, s.current),
              rcbs := s.rcbs[q := rcb.(waitList := rcb.waitList + [s.current])],
              pcbs := s.pcbs[s.current := cur.(status := Blocked, blockedOn := Some(q))],
              bl := s.bl + [s.current]))
  }

  /** `request(name)`: an unknown resource is refused with nothing changed;
      otherwise the requester takes a unit or blocks, and the scheduler runs. */
  function Request(s: State, name: string): (r: Result<State, Error>)
    requires Wired(s)
    requires ThenSchedulable(RequestStep(s, name))
    ensures r.Err? <==> name !in s.rcbMap
    ensures r.Err? ==> r.error == NotFound
  {
    var step := RequestStep(s, name);
    if step.Err? then Err(step.error) else Ok(Schedule(step.value))
  }

  /** With a unit free, `request` takes exactly one: `remain` drops by one,
      the resource is appended to the requester's held list, and no list
      changes. */
  lemma RequestGrants(s: State, name: string)
    requires Wired(s) && ThenSchedulable(RequestStep(s, name))
    requires name in s.rcbMap && s.rcbs[s.rcbMap[name]].remain >= 1
    ensures var q := s.rcbMap[name];
      var t := Request(s, name).value;
      && t.rcbs == s.rcbs[q := s.rcbs[q].(remain := s.rcbs[q].remain - 1)]
      && t.pcbs[s.current].held == s.pcbs[s.current].held + [q]
      && t.rl == s.rl && t.bl == s.bl
  {
  }

  /** With no unit free, `request` leaves `remain` alone and blocks the
      requester: it leaves `RL`, is appended to the wait list and to `BL`,
      and records the resource it waits on. */
  lemma RequestBlocks(s: State, name: string)
    requires Wired(s) && ThenSchedulable(RequestStep(s, name))
    requires name in s.rcbMap && s.rcbs[s.rcbMap[name]].remain < 1
    ensures var q := s.rcbMap[name];
      var t := Request(s, name).value;
      && t.rcbs == s.rcbs[q := s.rcbs[q].(waitList := s.rcbs[q].waitList + [s.current])]
      && t.pcbs[s.current] == s.pcbs[s.current].(status := Blocked, blockedOn := Some(q))
      && t.rl == RemoveFirst(s.rl, s.current)
      && t.bl == s.bl + [s.current]
      && t.current != s.current
  {
  }

  /** `request` never drives a unit count below zero. */
  lemma RequestKeepsRemainNonNegative(s: State, name: string)
    requires Wired(s) && ThenSchedulable(RequestStep(s, name))
    requires forall x :: x in s.rcbs ==> s.rcbs[x].remain >= 0
    ensures Request(s, name).Ok? ==>
      forall x :: x in Request(s, name).value.rcbs ==> Request(s, name).value.rcbs[x].remain >= 0
  {
  }

  /** The state change of `release(name)`, before rescheduling. */
  function ReleaseStep(s: State, name: string): Result<State, Error>
    requires Wired(s)
  {
    if name !in s.rcbMap then Err(NotFound)
    else
      var q := s.rcbMap[name];
      var s1 := FreeResource(s, q);
      var cur := s1.pcbs[s.current];
      Ok(s1.(pcbs := s1.pcbs[s.current := cur.(held := RemoveFirst(cur.held, q))]))
  }

  /** `release(name)`: an unknown resource is refused with nothing changed;
      otherwise the unit is freed as by `freeResource`, one occurrence of the
      resource leaves the releaser's held list, and the scheduler runs. */
  function Release(s: State, name: string): (r: Result<State, Error>)
    requires Wired(s)
    requires ThenSchedulable(ReleaseStep(s, name))
    ensures r.Err? <==> name !in s.rcbMap
    ensures r.Err? ==> r.error == NotFound
  {
    var step := ReleaseStep(s, name);
    if step.Err? then Err(step.error) else Ok(Schedule(step.value))
  }

  /** Releasing with nobody waiting puts the unit back: `remain` rises by
      one and one occurrence of the resource leaves the releaser. */
  lemma ReleaseReturnsUnit(s: State, name: string)
    requires Wired(s) && ThenSchedulable(ReleaseStep(s, name))
    requires name in s.rcbMap && s.rcbs[s.rcbMap[name]].waitList == []
    ensures var q := s.rcbMap[name];
      var t := Release(s, name).value;
      && t.rcbs == s.rcbs[q := s.rcbs[q].(remain := s.rcbs[q].remain + 1)]
      && t.pcbs[s.current].held == RemoveFirst(s.pcbs[s.current].held, q)
      && t.rl == s.rl && t.bl == s.bl
  {
    var q := s.rcbMap[name];
    var f := FreeResource(s, q);
    assert f.pcbs == s.pcbs && f.rl == s.rl && f.bl == s.bl;
    var u := ReleaseStep(s, name).value;
    assert u.rl == s.rl && u.bl == s.bl && u.rcbs == f.rcbs;
  }

  /** Releasing with waiters hands the unit to the head of the wait list
      (FIFO): `remain` stays, the waiter leaves the wait list and `BL`, holds
      the resource and is appended to `RL` as ready. */
  lemma ReleaseHandsOver(s: State, name: string)
    requires Wired(s) && ThenSchedulable(ReleaseStep(s, name))
    requires name in s.rcbMap && s.rcbs[s.rcbMap[name]].waitList != []
    requires s.rcbs[s.rcbMap[name]].waitList[0] in s.pcbs
    requires s.rcbs[s.rcbMap[name]].waitList[0] != s.current
    ensures var q := s.rcbMap[name];
      var w := s.rcbs[q].waitList[0];
      var t := Release(s, name).value;
      && t.rcbs == s.rcbs[q := s.rcbs[q].(waitList := s.rcbs[q].waitList[1..])]
      && t.rl == s.rl + [w]
      && t.bl == RemoveFirst(s.bl, w)
      && t.pcbs[w].held == s.pcbs[w].held + [q]
      && t.pcbs[w].status != Blocked
      && t.pcbs[s.current].held == RemoveFirst(s.pcbs[s.current].held, q)
  {
    var q := s.rcbMap[name];
    var w := s.rcbs[q].waitList[0];
    var f := FreeResource(s, q);
    assert f.pcbs[w].held == s.pcbs[w].held + [q] && f.pcbs[w].status == Ready;
    assert f.pcbs[s.current] == s.pcbs[s.current];
    var u := ReleaseStep(s, name).value;
    assert u.pcbs[w] == f.pcbs[w];
    assert u.rl == f.rl && u.bl == f.bl && u.rcbs == f.rcbs;
  }
}
