/** The I/O device: `requestIO` and `IOcompletion`
    (src/project1/Manager.java:409-434). `IO` is an RCB with no units that
    is reached only through these two commands. */
module IoDevice {
  import opened Wrappers
  import opened Seqs
  import opened Kernel
  import opened Scheduler

  /** The state change of `requestIO()`, before rescheduling. */
  function RequestIoStep(s: State): State
    requires Wired(s)
  {
    var io := s.rcbs[IO];
    s.(pcbs := s.pcbs[s.current := s.pcbs[s.current].(status := Blocked, blockedOn := Some(IO))],
       rl := RemoveFirst(s.rl, s.current),
       rcbs := s.rcbs[IO := io.(waitList := io.waitList + [s.current])])
  }

  /** `requestIO()` always blocks the current process on `IO`: it leaves
      `RL` and joins the tail of `IO`'s wait list. Unlike `request`, it does
      not look at or change `IO.remain` and does not add the process to
      `BL`. */
  function RequestIo(s: State): (r: State)
    requires Wired(s)
    requires Schedulable(RequestIoStep(s))
    ensures r.rcbs == s.rcbs[IO := s.rcbs[IO].(waitList := s.rcbs[IO].waitList + [s.current])]
    ensures r.rl == RemoveFirst(s.rl, s.current) && r.bl == s.bl
    ensures forall p :: p in r.pcbs <==> p in s.pcbs
    ensures r.pcbs[s.current] == s.pcbs[s.current].(status := Blocked, blockedOn := Some(IO))
    ensures r.current != s.current
  {
    Schedule(RequestIoStep(s))
  }

  /** The state change of `IOcompletion()`, before rescheduling. */
  function IoCompletionStep(s: State): Result<State, Error>
    requires Wired(s)
  {
    var io := s.rcbs[IO];
    if |io.waitList| == 0 then Err(NoWaiters)
    else
      var p := io.waitList[0];
      var pcbs := if p in s.pcbs then s.pcbs[p := s.pcbs[p].(status := Ready, blockedOn := None)] else s.pcbs;
      Ok(s.(rcbs := s.rcbs[IO := io.(waitList := io.waitList[1..])],
            pcbs := pcbs,
            rl := s.rl + [p]))
  }

  /** `IOcompletion()`: refused exactly when nobody waits for I/O. */
  function IoCompletion(s: State): (r: Result<State, Error>)
    requires Wired(s)
    requires ThenSchedulable(IoCompletionStep(s))
    ensures r.Err? <==> s.rcbs[IO].waitList == []
    ensures r.Err? ==> r.error == NoWaiters
  {
    var step := IoCompletionStep(s);
    if step.Err? then Err(step.error) else Ok(Schedule(step.value))
  }

  /** `IOcompletion()` wakes the head of `IO`'s wait list (FIFO): it leaves
      the wait list, forgets what it was blocked on, and is appended to
      `RL`; `IO.remain`, `BL` and every other resource are untouched. */
  lemma IoCompletionWakesHead(s: State)
    requires Wired(s) && ThenSchedulable(IoCompletionStep(s))
    requires s.rcbs[IO].waitList != [] && s.rcbs[IO].waitList[0] in s.pcbs
    ensures var p := s.rcbs[IO].waitList[0];
      var t := IoCompletion(s).value;
      && t.rcbs == s.rcbs[IO := s.rcbs[IO].(waitList := s.rcbs[IO].waitList[1..])]
      && t.rl == s.rl + [p] && t.bl == s.bl
      && t.pcbs[p].status != Blocked && t.pcbs[p].blockedOn == None
      && t.pcbs[p].held == s.pcbs[p].held && t.pcbs[p].priority == s.pcbs[p].priority
  {
  }
}
