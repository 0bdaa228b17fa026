/** The commands of the shell (src/project1/Manager.java:328-403), already
    parsed, and the invariant they keep. Printing and the exception
    messages are not modelled: a refused command is an `Err` and leaves the
    state as it was. */
module Commands {
  import opened Wrappers
  import opened Kernel
  import opened Scheduler
  import opened Resources
  import opened Processes
  import opened IoDevice
  import opened Setup
  import opened Validity

  datatype Command =
    | Cr(name: string, priority: int)
    | De(name: string)
    | Req(name: string)
    | Rel(name: string)
    | To
    | Rio
    | Ioc
    | InitAll

  /** The command is inside the model: the scheduler finds a ready process
      (otherwise it dereferences `null`, and the `catch` of `execute` does so
      again while printing, which ends the program), and a destroyed subtree
      holds no process waiting on a resource it holds (see `NoSelfWait`). */
  predicate Enabled(s: State, c: Command)
    requires Wired(s)
  {
    match c
    case Cr(_, _) => true
    case De(name) =>
      && (name in s.pcbMap ==> NoSelfWait(s, Subtree(Tree(s), s.nextProc, s.pcbMap[name])))
      && ThenSchedulable(DestroyStep(s, name))
    case Req(name) => ThenSchedulable(RequestStep(s, name))
    case Rel(name) => ThenSchedulable(ReleaseStep(s, name))
    case To => Schedulable(TimeOutStep(s))
    case Rio => Schedulable(RequestIoStep(s))
    case Ioc => ThenSchedulable(IoCompletionStep(s))
    case InitAll => true
  }

  /** One command of `execute`. The refusals are exactly: a priority outside
      1..2, an unknown process or resource name, and an I/O completion with
      nobody waiting for I/O. */
  function Execute(s: State, c: Command): (r: Result<State, Error>)
    requires Wired(s) && Enabled(s, c)
    ensures r.Err? <==>
      || (c.Cr? && (c.priority <= 0 || c.priority > 2))
      || (c.De? && c.name !in s.pcbMap)
      || ((c.Req? || c.Rel?) && c.name !in s.rcbMap)
      || (c.Ioc? && s.rcbs[IO].waitList == [])
    ensures r.Err? ==> r.error == (if c.Cr? then InvalidPriority else if c.Ioc? then NoWaiters else NotFound)
  {
    match c
    case Cr(name, priority) => Create(s, name, priority)
    case De(name) => Destroy(s, name)
    case Req(name) => Request(s, name)
    case Rel(name) => Release(s, name)
    case To => Ok(TimeOut(s))
    case Rio => Ok(RequestIo(s))
    case Ioc => IoCompletion(s)
    case InitAll => Ok(Init(s))
  }

  /** Every enabled command keeps the invariant. */
  lemma ExecuteValid(s: State, c: Command)
    requires Valid(s) && Enabled(s, c)
    ensures Execute(s, c).Ok? ==> Valid(Execute(s, c).value)
  {
    match c
    case Cr(name, priority) => CreateValid(s, name, priority);
    case De(name) => DestroyValid(s, name);
    case Req(name) => RequestValid(s, name);
    case Rel(name) => ReleaseValid(s, name);
    case To => TimeOutValid(s);
    case Rio => RequestIoValid(s);
    case Ioc => IoCompletionValid(s);
    case InitAll => InitValid(s);
  }

  /** Run commands from `s`, stopping at the first one that is not
      `Enabled`. Refused commands change nothing, as in the source's
      `catch`. */
  function Run(s: State, cs: seq<Command>): (r: State)
    requires Valid(s)
    ensures Valid(r)
    decreases |cs|
  {
    if cs == [] || !Enabled(s, cs[0]) then s
    else
      ExecuteValid(s, cs[0]);
      var step := Execute(s, cs[0]);
      Run(if step.Ok? then step.value else s, cs[1..])
  }
}
