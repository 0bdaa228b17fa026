# Process and resource manager, modelled in Dafny

This project models the process/resource manager in `src/project1/Manager.java` (CS2106 project 1).
The manager is a command shell that keeps three things:

- a creation tree of processes (PCBs), each with a priority of 0, 1 or 2 and a status of blocked, ready or running;
- four single-unit resources `R1`..`R4` plus a static `IO` device, each an RCB with a unit count and a FIFO wait list;
- a ready list `RL`, a block list `BL`, name maps for processes and resources, and the current process.

Every command is a state transition followed by the priority scheduler.

## How the model is built

The Java program mutates shared objects. The model is a pure state record, `Kernel.State`.
Object identity is modelled by never-reused references (`ProcRef`, `ResRef`) into two maps. These references are separate from the program's PID/RID counters:

- `init` resets the counters but not the heap. In particular, the static `IO` RCB and the PCBs in its wait list survive `init`.
- `IO` and `R1` both carry RID 1.

Each command is written in the same way:

- a `...Step` function performs the command's state change. Where the source can refuse the command (`create`, `destroy`, `request`, `release`, `IOcompletion`), it returns a `Result` that is `Err` exactly for the refusals the source throws; `TimeOutStep` and `RequestIoStep` cannot be refused and return a plain `State`;
- `Scheduler.Schedule` then runs on the result.

The modules follow the source:

- `Kernel`: `PCB`, `RCB`, `getNewPID`, `getNewRID`, and the state after class loading (`Loaded`).
- `Scheduler`: `scheduler`.
- `Resources`: `freeResource`, `request`, `release`.
- `Processes`: `create`, `timeOut`, `killTree`, `destroy`.
- `IoDevice`: `requestIO`, `IOcompletion`.
- `Setup`: `init` and the start-up state.
- `Commands`: the `execute` dispatch.

The properties live in five further modules:

- `Invariants`: the consistency of statuses, lists and wait queues.
- `Teardown`: what `destroy` does to a subtree.
- `Accounting`: units are conserved.
- `Registry`: the converse links (a blocked process is queued; a named unblocked process is in `RL`; a named process blocked on anything but `IO` is in `BL`), children created after their parent, and distinct PIDs for named processes.
- `Validity`: an invariant (`Valid`: the `Invariants` and `Registry` conditions, plus the running process being the current one) that every command keeps, starting from the initial state.

### Behaviour of the code the model keeps

- **Woken waiters keep their blocking reference.** When `freeResource` wakes a waiter, it does not clear the waiter's `statusList` (Manager.java:152-168). Only `IOcompletion` clears it.
- **`init` does not clear everything.** It clears the name maps and lists but not `IO`, its wait list, or the objects created earlier. Processes from before an `init` keep their status, so a process that was running stays "running" while being in no list. This is why `Validity.RunningIsCurrent` speaks about `RL` only.
- **`requestIO` does not use `BL`.** It does not add the process to `BL`.
- **Duplicate names overwrite.** A duplicate process name silently overwrites the `PCBMap` entry.
- **Destroying "Init" is allowed.** `destroy` accepts the root "Init". The scheduler then needs another ready process. This is covered by the schedulability precondition below.
- **`release` does not check the releaser.** It does not check that the releaser holds the resource, so releasing a resource one does not hold creates a unit (`Accounting.ReleaseByNonHolderAddsUnit`).

### Preconditions instead of crashes

- **Scheduler `null` dereference.** When no ready process remains, `scheduler` dereferences `null` (Manager.java:120-121). Every command therefore requires its state change to leave a candidate: `Scheduler.Schedulable` / `ThenSchedulable`. `Scheduler.SchedulerNullExactly` shows this is exactly the case where the scan finds nobody.
- **Scheduler `null` dereference, continued.** The `NullPointerException` is caught by `execute` (Manager.java:399-402), but the `catch` calls `printResult`, which reads `currentProcess.name` again outside any `try` (Manager.java:321-323), so the program ends there.
- **`killTree` iterator failure.** `killTree` frees a process's held resources while iterating over its held list (Manager.java:182-184). If the dying process is at the head of the wait list of one of its own held resources when that unit is freed, `freeResource` hands the unit back to it and appends to the list being iterated (Manager.java:159-161); the iterator's next step throws a `ConcurrentModificationException`. `execute` catches it (Manager.java:399-402) and the program goes on with the subtree half torn down. The model does not follow that path: `Processes.Destroy` requires `NoSelfWait` for the subtree, which excludes every process waiting on a resource it holds, including self-waits where the process is not at the head and the source tears down without an exception.

## Model

| member | source | states |
|---|---|---|
| Kernel.NewPcb | src/project1/Manager.java:24-33 | `new PCB` is an object not in the heap before, with the next PID, no parent, children or resources, status ready; nothing else changes |
| Kernel.NewRcb | src/project1/Manager.java:48-53 | `new RCB` is an object not in the heap before, with the next RID, `maxNum` units and an empty wait list |
| Kernel.SubtreeHoldsDescendants | src/project1/Manager.java:175-180 | when every child is created after its parent, the subtree `killTree` walks from a node contains the end of every child path from it |
| Seqs.RemoveFirst | src/project1/Manager.java:311 | `remove(Object)` removes one occurrence of the element, and only if present |
| Seqs.RemoveFirstAt | src/project1/Manager.java:311 | `remove(Object)` removes exactly the first occurrence and keeps everything before and after it in order |
| Seqs.RemoveFirstIsWithout | src/project1/Manager.java:196-197 | on a list without duplicates, removing the first occurrence removes the element entirely and keeps the others in order |
| Scheduler.Demote | src/project1/Manager.java:106-109 | a running current process becomes ready; nothing else changes |
| Scheduler.ScanFindsFirstMax | src/project1/Manager.java:111-117 | when a ready entry beats the start priority, the loop returns the first entry of greatest priority |
| Scheduler.ScanKeepsStart | src/project1/Manager.java:111-117 | when no ready entry beats the start priority, the loop keeps its start value |
| Scheduler.SchedulerNullExactly | src/project1/Manager.java:103-121 | the loop ends with `null` exactly when no ready process with priority above -1 is in `RL` after demotion |
| Scheduler.Choose | src/project1/Manager.java:111-117 | the choice is the first `RL` entry of maximal priority among ready ones |
| Scheduler.Schedule | src/project1/Manager.java:102-122 | the chosen process runs; the old one is demoted; only statuses change; blocked stays blocked; lists untouched; the new current is the only running entry of `RL` |
| Resources.FreeResource | src/project1/Manager.java:152-168 | no waiters: one more free unit; otherwise the head waiter leaves the wait list (FIFO) and `BL`, gets the resource, becomes ready and is appended to `RL` |
| Resources.Request | src/project1/Manager.java:257-282 | refused exactly when the resource name is unknown |
| Resources.RequestGrants | src/project1/Manager.java:269-272 | with a free unit, `remain` drops by one and the requester holds the resource |
| Resources.RequestBlocks | src/project1/Manager.java:273-281 | without one, the requester leaves `RL`, joins the wait list tail and `BL`, is blocked on the resource, and someone else runs |
| Resources.RequestKeepsRemainNonNegative | src/project1/Manager.java:269-272 | `request` never makes a unit count negative |
| Resources.Release | src/project1/Manager.java:288-303 | refused exactly when the resource name is unknown |
| Resources.ReleaseReturnsUnit | src/project1/Manager.java:155-157 | with no waiters, `remain` grows by one and one held occurrence leaves the releaser |
| Resources.ReleaseHandsOver | src/project1/Manager.java:157-167 | with waiters, the unit goes to the head waiter, which becomes ready at the tail of `RL` and leaves `BL` |
| Processes.Create | src/project1/Manager.java:128-147 | refused exactly for priorities outside 1..2; otherwise a fresh child of the current process, with the next PID, ready at the tail of `RL` and named in `PCBMap` |
| Processes.TimeOut | src/project1/Manager.java:309-316 | the current process moves to the tail of `RL` and is not blocked; lists and resources are otherwise untouched |
| Processes.TimeOutRequeues | src/project1/Manager.java:311-313 | the other `RL` entries keep their relative order |
| Processes.FreeAll | src/project1/Manager.java:182-184 | freeing a held list changes no counter, name map or current process |
| Processes.Detach | src/project1/Manager.java:185-198 | detaching changes no counter, resource name map or current process |
| Processes.DetachPcbs | src/project1/Manager.java:185-195 | only the node's PCB changes: held list cleared, priority -1 |
| Processes.DetachLists | src/project1/Manager.java:188-197 | the node leaves `RL` and `BL`; every wait list is unchanged or loses the node's first occurrence; no other RCB field changes |
| Processes.DetachUnlinks | src/project1/Manager.java:189-194 | a node blocked on a resource is removed from that resource's wait list at its first occurrence; a node not waiting leaves every RCB unchanged |
| Processes.DetachNames | src/project1/Manager.java:198 | exactly the node's name leaves `PCBMap` |
| Processes.KillTree | src/project1/Manager.java:175-199 | tearing down allocates nothing |
| Processes.Destroy | src/project1/Manager.java:205-219 | refused exactly when the name is unknown |
| Invariants.FreeResourceConsistent | src/project1/Manager.java:152-168 | `freeResource` keeps statuses, lists, wait lists, names and held resources consistent |
| Invariants.FreeResourceSpares | src/project1/Manager.java:157-167 | a process not waiting on the resource keeps its PCB and list memberships |
| Teardown.KillTreeIdentities | src/project1/Manager.java:175-199 | `killTree` never renames, re-parents, allocates or moves the current process |
| Teardown.KillTreeKeepsDead | src/project1/Manager.java:175-199 | a process already torn down stays torn down |
| Teardown.FreeAllConsistent | src/project1/Manager.java:182-184 | freeing a held list keeps the state consistent |
| Teardown.DetachKills | src/project1/Manager.java:185-198 | detaching a node of a consistent state tears it down and keeps the state consistent |
| Teardown.KillTreeKills | src/project1/Manager.java:175-199 | every node of the subtree ends with priority -1, no resources, out of `RL`, `BL`, every wait list and `PCBMap`; when children are created after their parents, so does every descendant reached by a child path; the state stays consistent |
| Teardown.ScheduleConsistent | src/project1/Manager.java:102-122 | the scheduler keeps the state consistent |
| Teardown.DestroyTearsDownSubtree | src/project1/Manager.java:205-219 | `destroy` of a known name succeeds and tears down the whole subtree; when children are created after their parents, every descendant of the named process is torn down |
| Accounting.FreeResourceUnits | src/project1/Manager.java:152-168 | `freeResource` adds exactly one unit of that resource to the system, free or held |
| Accounting.FreeAllUnits | src/project1/Manager.java:182-184 | freeing a held list adds as many units of each resource as the list names |
| Accounting.KillNodeUnits | src/project1/Manager.java:181-198 | tearing down one node keeps every resource's total |
| Accounting.KillTreeUnits | src/project1/Manager.java:175-199 | tearing down a subtree keeps every resource's total |
| Accounting.DestroyConservesUnits | src/project1/Manager.java:205-219 | `destroy` keeps every resource's total |
| Accounting.ScheduleUnits | src/project1/Manager.java:102-122 | the scheduler moves no unit |
| Accounting.ReleaseConservesUnits | src/project1/Manager.java:288-303 | `release` by a holder keeps every resource's total |
| Accounting.ReleaseByNonHolderAddsUnit | src/project1/Manager.java:299-300 | `release` by a process not holding the resource adds one unit to the system |
| Accounting.RequestConservesUnits | src/project1/Manager.java:257-282 | `request` keeps every resource's total |
| Accounting.CreateConservesUnits | src/project1/Manager.java:128-147 | `create` keeps every resource's total |
| IoDevice.RequestIo | src/project1/Manager.java:426-434 | the current process blocks on `IO`, leaves `RL`, joins `IO`'s wait list tail, and is not put in `BL` |
| IoDevice.IoCompletion | src/project1/Manager.java:409-421 | refused exactly when nobody waits for I/O |
| IoDevice.IoCompletionWakesHead | src/project1/Manager.java:412-418 | the head waiter leaves the wait list, forgets `IO`, and is appended to `RL` as ready |
| Setup.InitResetsProcesses | src/project1/Manager.java:224-248 | the root "Init" has PID 0, priority 0, is running, alone in `RL` and `PCBMap`; `BL` is empty; older PCBs are untouched |
| Setup.InitResetsResources | src/project1/Manager.java:226-233 | `R1`..`R4` are fresh RCBs with RIDs 1..4 and one unit each; `IO` and older RCBs are untouched |
| Setup.InitByConstructors | src/project1/Manager.java:224-245 | `init`'s objects are what four `new RCB` and one `new PCB` produce from the reset counters, with the root then marked running |
| Setup.InitWired | src/project1/Manager.java:224-251 | after `init` every reference a command follows resolves |
| Setup.Start | src/project1/Manager.java:88 | at start-up `IO` has RID 1, no units and no waiters, and "Init" is the only process |
| Setup.InitViewIsFixed | src/project1/Manager.java:224-251 | whatever came before, `init` produces the same view of the processes and of `R1`..`R4` (the `IO` wait list, which survives `init`, is not part of that view) |
| Registry.ScheduleRegistered | src/project1/Manager.java:102-122 | the scheduler keeps blocked processes queued, named unblocked processes in `RL`, named processes blocked on a user resource in `BL`, children after parents and named processes' PIDs distinct |
| Registry.FreeResourceRegistered | src/project1/Manager.java:152-168 | `freeResource` keeps those converse links, the tree order and the distinct PIDs of named processes |
| Registry.KillTreeRegistered | src/project1/Manager.java:175-199 | `killTree` keeps them too |
| Registry.CreateStepRegistered | src/project1/Manager.java:128-147 | `create` keeps them, and the new process's PID is above every other named process's PID |
| Registry.TimeOutStepRegistered | src/project1/Manager.java:309-316 | `timeOut` keeps them |
| Registry.RequestStepRegistered | src/project1/Manager.java:257-282 | `request` keeps them |
| Registry.ReleaseStepRegistered | src/project1/Manager.java:288-303 | `release` keeps them |
| Registry.RequestIoStepRegistered | src/project1/Manager.java:426-434 | `requestIO` keeps them |
| Registry.IoCompletionStepRegistered | src/project1/Manager.java:409-421 | `IOcompletion` keeps them |
| Registry.InitRegistered | src/project1/Manager.java:224-251 | `init` establishes them, given that blocked processes were queued and children came after parents before |
| Validity.ScheduleValid | src/project1/Manager.java:102-122 | the scheduler restores the running-process part of the invariant |
| Validity.InitValid | src/project1/Manager.java:224-251 | `init` yields a valid state from any consistent one whose blocked processes are queued and whose children come after their parents |
| Validity.StartValid | src/project1/Manager.java:491 | the state at start-up is valid |
| Validity.CreateValid | src/project1/Manager.java:128-147 | `create` keeps the invariant |
| Validity.DestroyValid | src/project1/Manager.java:205-219 | `destroy` keeps the invariant, also when the current process is destroyed |
| Validity.RequestValid | src/project1/Manager.java:257-282 | `request` keeps the invariant |
| Validity.ReleaseValid | src/project1/Manager.java:288-303 | `release` keeps the invariant |
| Validity.TimeOutValid | src/project1/Manager.java:309-316 | `timeOut` keeps the invariant |
| Validity.RequestIoValid | src/project1/Manager.java:426-434 | `requestIO` keeps the invariant |
| Validity.IoCompletionValid | src/project1/Manager.java:409-421 | `IOcompletion` keeps the invariant |
| Commands.Execute | src/project1/Manager.java:328-403 | the refusals of `execute` are exactly: priority outside 1..2, unknown process or resource name, I/O completion without waiters |
| Commands.ExecuteValid | src/project1/Manager.java:328-403 | every enabled command keeps the invariant |
| Commands.Run | src/project1/Manager.java:491-497 | a run of commands from a valid state stays valid |

## Left out

- Console input and output are not modelled: the `main` loop's `Scanner`, `printResult`, every `System.out` call, and the exception messages (Manager.java:321-323, 328-403, 488-497). `Commands.Run` takes a sequence of already parsed commands. `quit` just ends the sequence.
- Command parsing is not modelled: `splitParameters`, `getFirstWord`, `getCommandType` and `Integer.parseInt` (Manager.java:130-135, 441-486). The commands take parsed names and priorities. The "missing argument" and number-format errors do not arise.
- The `null` dereference in `scheduler` and the program's end in the `catch` that follows it are not modelled. They are excluded by the schedulability precondition; see above.
- The ConcurrentModificationException in `killTree`, and the half torn-down state `execute` continues with after catching it, are not modelled. `Processes.Destroy` requires `NoSelfWait`, and `Commands.Run` stops at a `destroy` that is not `Enabled`, where the source would go on; see above.
- Processes.Destroy: `NoSelfWait` excludes every self-wait in the subtree, while the source throws only when the dying process heads the wait list as its own unit is freed; the other self-waits, which the source tears down normally, are left unmodelled.
- Duplicate process names are not rejected. They follow the source's plain map overwrite. No property depends on names being unique.
- Processes.KillTree: its own contract only says that no object is allocated. Its effect is stated by `Teardown.KillTreeKills` and `Accounting.KillTreeUnits`.
- Processes.FreeAll: its own contract only states the frame. Its effect is stated by `Accounting.FreeAllUnits` and `Teardown.FreeAllConsistent`.
- Processes.Detach: its own contract only states the frame. Its effect is stated by `Processes.DetachPcbs`, `Processes.DetachLists`, `Processes.DetachUnlinks` and `Processes.DetachNames`.
- Accounting.KillTreeUnits: conservation is stated only for subtrees without self-waits. A self-waiting process that is not at the head of the wait list is torn down by the source without an exception; the units in that case are not covered.
- The 32-bit `int` counters (`numPID`, `numRID`, `remain`) are modelled as unbounded integers. The source never comes near overflow: each command changes a counter by one.
