# A verified model of the kernel, its heap, its boot path and its console

This project models the parts of the repository that decide whether the system works at all, and proves what
they are for.

- **The process kernel.** Interrupt gates make every handler atomic, so the kernel is a transition system: a step
  is one clock tick, one UART event or one system call of the current process. `KernelSpec` gives the steps on
  plain values, with every `_kpanic` and every store past a serial buffer as a terminal outcome. `Queues`,
  `SerialLine` and `Kernel` are the code as it runs: doubly linked queues threaded through one fixed pool of nodes,
  buffers with pointers and counts, and a machine whose handlers update all of it in place; each handler is proved
  to take the step that `KernelSpec` gives for it, and `Machine.HandleAll` carries this over to whole runs.
  `Answers` spells out every event by its code, field by field: answers in EAX, priorities, the state in which
  the dispatch starts. The other kernel modules prove what runs keep: where every PCB and stack is (`Placement`,
  `Safety`), distinct PIDs and no lost wake-up (`Families`), the one exception to that (`Stranding`), parents
  (`Orphans`), dispatch order (`Scheduling`) and why it stops (`DispatchStops`, `Idling`), strict priority
  (`Priorities`), bounded waiting (`Fairness`), exact sleep (`Sleeping`), the serial line (`Serial`,
  `Overruns`), what `wait` returns (`Reaping`), and what happens when the PID counter and the clock wrap around
  (`PidWrap`, `SharedPids`, `ClockWrap`). `Scenarios` follows runs from boot; `Stranding`, `Orphaned`,
  `Strangers`, `Fairness`, `Overruns`, `PidWrap`, `SharedPids` and `ClockWrap` use it to show that what is
  excluded elsewhere does happen.
- **The heap.** `HeapSpec` and `HeapRuns` treat the address-ordered first-fit free list as a list of blocks, show
  that full coalescing makes it a function of the set of free words, and prove the laws of whole runs. `HeapWords`
  and `KernelHeap` do the same on an array of words in which `length` and `next` are stored.
- **The boot path.** `ImageSpec` and `ImageBuilder` are the disk image builder, `LoaderSpec` and `BootLoader` the
  boot loader; `BuildLoad` proves that loading undoes building.
- **Paging set-up, number conversion, the keyboard ring.** `Paging`, `Conversions`, `KeyRing`.

Modelling choices that matter:

- The words of a process's memory that the kernel touches (saved EAX, the first trap argument, the `info_t` it
  points at) are fields of its PCB; a system call carries its code, its arguments and the PID it put in `info_t`.
  The interrupted process's argument word is a parameter of the clock step, since a killed process reports it.
- Integers are unbounded in Dafny; 32-bit and 16-bit wrap-around, truncation, sign and byte-sized counters are
  written out where the code depends on them. PIDs and the clock wrap; theorems that need PIDs in use to be distinct,
  or the clock not to wrap, say so. Status words are kept as they were passed, unsigned.
- A word of the frame bitmap is 32 flags; the heap's memory is an array of words, addresses are word indices.
- A store past the end of a serial buffer stops the model, and the theorems say exactly when that happens.

Where code and comments disagree the code is followed, and the consequence is proved:

- `wait` for any child tests `i > N_PCBS`, which the loop never reaches (kernel/syscall.c:524):
  `Reaping.AnyTarget`, `Reaping.ReapsStranger`, `Reaping.AnyNeverRefuses`.
- `readc` sets `status`, not `state`, to BLOCKED (kernel/syscall.c:332), which later shows up as an exit status:
  `Reaping.LateWaiterSeesNoStatus`.
- A zombie's exit status is never saved (kernel/system.c:234-237): `Reaping.ExitStatus`.
- `_schedule` overwrites a KILLED mark (kernel/scheduler.c:73): `Scheduling.KillSelfYields`; a killed sleeper wakes
  READY (`Safety.WakesOne`).
- Init starts with state FREE (kernel/system.c:333-364): `Orphans.InitExitPanics`, `Orphans.BlockedInitPanics`.
- The image builder's size check uses signed halves (utils/BuildImage.c:138-140): `ImageSpec.ComputedIsReal`.
- The loader freezes with "Too big" once the last sector of the disk is read, needed or not
  (boot/bootstrap.S:188-194): `BuildLoad.BuildThenLoad`.
- The builder accepts programs that go over the loader's stack or the interrupt vectors (utils/BuildImage.c:152-164):
  `BuildLoad.StackOverwritten`, `BuildLoad.VectorsOverwritten`.
- `_kalloc(0)` can hand out a block that is too small to be freed (kernel/kalloc.c:120-157): `HeapSpec.GivenRoom`,
  `HeapRuns.ZeroBytes`.
- Paging set-up clears a quarter of the frame bitmap (mm/paging.c:48-49): `Paging.IdentityExactly`.
- The paging constants ask for more frames than there are (mm/paging.c:23, include/mm.h): `Paging.TooFewFrames`.

Main results to read first: `Safety.ExactlyOnePlace`, `Safety.RunFromBoot`, `Families.NoWakeupIsLost`,
`PidWrap.RunDistinct`, `SharedPids.WakeupLost`, `Stranding.StepStrands`, `Orphans.NoOrphanPanic`,
`Scheduling.DispatchPicks` with `Scheduling.PickMeans`, `Scheduling.DispatchEmpties`,
`DispatchStops.DispatchOrphans`, `Priorities.LessUrgentWaits`, `Idling.IdleFromBoot`, `Fairness.UrgentRunsSoon`,
`Sleeping.SleepsUntil`, `Serial.NothingLost`, `Overruns.OutputOverruns`, `Reaping.LateWaiterSeesNoStatus`,
`HeapRuns.HeapSafety`, `HeapRuns.OrderDoesNotMatter`, `BuildLoad.BuildThenLoad`, `BuildLoad.LoadedByteForByte`,
`Paging.Pager.PagingInit`, `Conversions.DecRoundTrip`.

`dafny verify dfyconfig.toml` checks everything.

## Model

| member | source | states |
|---|---|---|
| `QueueSpec.InsertIsStable` | kernel/queue.c:418-424 | Ordered insertion keeps a queue sorted, and its place is the only one after every equal key and before every larger one (stability), as an if-and-only-if over all places |
| `QueueSpec.DueIsHead` | kernel/queue.c:497-501 | In a sorted queue the `<=` removal rule can only ever pick the head, and picks it exactly when it is due |
| `QueueSpec.QueueRoutines` | kernel/process.c:123-127 | Queue by queue, where an entry goes in (sleepers by wake-up time, readers, waiting and zombies by PID, behind equal keys; elsewhere at the end) and which one a removal by key takes (the first due sleeper; the first with that very PID; elsewhere the head) |
| `Queues.Pool.Alloc` | kernel/queue.c:57-77 | Takes the head of the node free list, or fails exactly when the list is empty |
| `Queues.Pool.Free` | kernel/queue.c:87-100 | Pushes a node that is not on the free list |
| `Queues.FreeNodes` | kernel/queue.c:112-124 | All N_QNODES nodes of the table end up on the free list, each once |
| `Queues.ResetQueues` | kernel/queue.c:166-182 | Every queue starts empty with the comparison and removal routines its module gives it |
| `Queues.Queue.Append` | kernel/queue.c:323-362 | Links a node from the pool after the tail; the doubly linked structure still spells the sequence, which gains one entry at its end; fails, changing nothing, exactly when the pool is empty |
| `Queues.Queue.Insert` | kernel/queue.c:372-451 | The same for insertion at the stable place in key order, or at the end of an unordered queue |
| `Queues.Queue.LinkBefore` | kernel/queue.c:436-448 | The four pointer updates in front of a node, first or inner, splice the sequence there and nowhere else |
| `Queues.Queue.Remove` | kernel/queue.c:193-229 | Unlinks the head and returns its node to the pool; E_EMPTY exactly for the empty queue |
| `Queues.Queue.RemoveByKey` | kernel/queue.c:241-311 | Unlinks the first entry its rule accepts (the head for a NULL rule); E_EMPTY, E_NOT_FOUND and the untouched queue otherwise |
| `Queues.Queue.Unlink` | kernel/queue.c:269-281 | Unlinking at any index: head, tail, inner or only node |
| `Queues.Bank.Append` | kernel/queue.c:323-362 | Over all ten queues and the pool: this queue changes as stated, every other queue reads as before, nodes in use plus free nodes stay N_QNODES, and it fails exactly when all nodes are in use |
| `Queues.Bank.Insert` | kernel/queue.c:372-451 | The same for insertion |
| `Queues.Bank.Remove` | kernel/queue.c:193-229 | The same for removal of the head |
| `Queues.Bank.RemoveByKey` | kernel/queue.c:241-311 | The same for removal by key |
| `Queues.Bank.Settled` | kernel/queue.c:57-100 | An operation on one queue that conserves its nodes and the pool's leaves the whole bank consistent and the other queues unchanged |
| `Kernel.Machine.constructor` | kernel/system.c:275-295 | The static data: nothing on any list |
| `Kernel.Machine.Init` | kernel/system.c:288-364 | `_init` reaches exactly the boot state: all PCBs and stacks freed in order, the first of each given to init, init current with its state field never written |
| `Kernel.Machine.FillList` | kernel/process.c:116-139 | Freeing slots 0, 1, ... gives the free list in that order |
| `Kernel.Machine.FindPcb` | kernel/process.c:96-108 | The table search finds the first slot in use under a PID, or none |
| `Kernel.Machine.Schedule` | kernel/scheduler.c:58-79 | In-place code takes the step that Answers.SchedulePlaces spells out, panics included |
| `Kernel.Machine.Release` | kernel/stack.c:70-78 | `_stack_free` followed by `_pcb_free`, in place |
| `Kernel.Machine.Zombify` | kernel/system.c:145-242 | Exit half of the exit/wait rendezvous, in place, every panic included |
| `Kernel.Machine.Deliver` | kernel/system.c:188-224 | Waking the waiting parent with PID and status |
| `Kernel.Machine.Dispatch` | kernel/scheduler.c:87-126 | The dispatch loop, with its termination: every round that does not return leaves fewer KILLED PCBs although it may refill ready[0] |
| `Kernel.Machine.WakeAll` | kernel/clock.c:72-79 | The wake-up loop |
| `Kernel.Machine.Clock` | kernel/clock.c:51-111 | The clock interrupt |
| `Kernel.Machine.Receive` | kernel/sio.c:127-166 | The receive event |
| `Kernel.Machine.Transmit` | kernel/sio.c:174-192 | The transmit event |
| `Kernel.Machine.Sleep` | kernel/syscall.c:139-167 | sleep |
| `Kernel.Machine.Fork` | kernel/syscall.c:175-264 | fork, both allocation failures included: the step that Answers.ForkAnswers spells out |
| `Kernel.Machine.Exec` | kernel/syscall.c:270-304 | exec: the step that Answers.ExecAnswers spells out |
| `Kernel.Machine.ReadC` | kernel/syscall.c:312-346 | readc; a blocked reader keeps its state, its status field is what changes |
| `Kernel.Machine.WriteC` | kernel/syscall.c:354-365 | writec |
| `Kernel.Machine.Kill` | kernel/syscall.c:406-438 | kill |
| `Kernel.Machine.FindChild` | kernel/syscall.c:493-510 | The search loop of wait for any child, with the cursor it really leaves |
| `Kernel.Machine.Wait` | kernel/syscall.c:446-598 | wait, with the test that never fires as written |
| `Kernel.Machine.Reap` | kernel/syscall.c:548-575 | Reaping a zombie |
| `Kernel.Machine.Reparent` | kernel/syscall.c:612-617 | The reparenting loop over the PCB table |
| `Kernel.Machine.Exit` | kernel/syscall.c:604-630 | exit |
| `Kernel.Machine.Syscall` | kernel/syscall.c:648-685 | The trap handler: all sixteen calls, and the forced exit for any other code |
| `Kernel.Machine.HandleAll` | kernel/syscall.c:648-685 | Any sequence of interrupts and traps run on the machine ends as the transition system's run does, so that every theorem about runs holds of it |
| `SerialLine.Line.ReadC` | kernel/sio.c:392-417 | Pointers and counts of the input buffer implement a queue that is reset when it empties |
| `SerialLine.Line.Store` | kernel/sio.c:156-162 | A received character is kept, ignored when the count is full, or would be stored past the array |
| `SerialLine.Line.WriteByte` | kernel/sio.c:471-502 | Send at once when idle, otherwise buffer; false exactly when the store would be past the array |
| `SerialLine.Line.Transmit` | kernel/sio.c:174-192 | The oldest waiting byte goes out, or the buffer is reset and sending stops |
| `Answers.SchedulePlaces` | kernel/scheduler.c:58-79 | Priority 0, 1, 2 or 3 puts the process, now READY, at the end of the ready queue of that number, any larger one at the end of queue 3, and nothing else changes |
| `Answers.PlainAnswers` | kernel/syscall.c:67-107 | By code: getpid, getppid, getprio and gettime answer in EAX with the caller's PID, its parent's, its priority and the time, reads and writes with E_UNIMPLEMENTED; nothing else changes |
| `Answers.SetAnswers` | kernel/syscall.c:115-133 | setprio and settime answer with the old value; the new priority is the argument's low byte, the new time the argument |
| `Answers.WriteAnswers` | kernel/syscall.c:354-365 | writec answers 0 and touches nothing but the output line |
| `Answers.KillAnswers` | kernel/syscall.c:406-438 | kill answers E_NOT_FOUND when nobody has the PID; of another process it changes the state to KILLED and nothing else, and leaves the caller's EAX alone |
| `Answers.KillSelfAnswers` | kernel/syscall.c:426-436 | kill of oneself is a yield at one's own priority |
| `Answers.ForkAnswers` | kernel/syscall.c:175-264 | fork answers -1 and changes nothing without a free PCB; otherwise field by field: the child is in the first free PCB with the first free stack, the old value of the PID counter for its PID, the caller's PID for its parent's, the caller's priority and words, EAX 0, status 0, READY, last on the queue of its priority; the caller's EAX is the child's PID; nothing else changes |
| `Answers.ExecAnswers` | kernel/syscall.c:270-304 | exec sets the priority asked for (its low byte) and the words of a fresh stack, keeps PID, parent, stack and status, and schedules the caller at the new priority before it dispatches |
| `Answers.SleepAnswers` | kernel/syscall.c:139-167 | sleep notes the time, makes the caller SLEEPING and enters it by its wake-up time, behind equal ones, before it dispatches |
| `Answers.ReadAnswers` | kernel/syscall.c:312-346 | readc answers with the oldest character, which leaves the buffer; without one the caller waits under its PID with 5 in its status field and its state as it was |
| `Answers.WaitAnswers` | kernel/syscall.c:446-598 | wait, case by case: E_BAD_PARAM in EAX for a null pointer; E_NOT_FOUND in the status word when nobody has the PID; PID and status field of a zombie found, with the process under that PID on the zombie queue giving its stack and PCB back to the ends of their free lists; and otherwise the caller WAITING under its PID, then a dispatch |
| `Answers.ExitAnswers` | kernel/syscall.c:604-630 | exit, and any code outside the table: children handed to init, no-parent stop, delivery to a parent that waits (told PID and argument, woken at the highest priority, the caller's stack and PCB freed) or a zombie in the zombie queue, then a dispatch |
| `Answers.DispatchRound` | kernel/scheduler.c:87-126 | One round of the dispatch loop: all queues empty stops the kernel; the READY head of the first queue that is not empty runs, nothing else about it changed; a KILLED one ends as in exit and there is another round |
| `Answers.TickAnswers` | kernel/clock.c:51-111 | The state in which the dispatch of a tick starts: time one later, the sleepers that are due READY in ready[0] in order, and the interrupted process READY at the end of the queue of its own priority |
| `Answers.ReceiveAnswers` | kernel/sio.c:127-166 | A character, CR as LF, goes into the EAX of the first reader, READY at the end of the queue of its own priority; or into the buffer; or is ignored when that is full by its count; or would overrun it, exactly by the offset |
| `Answers.SendAnswers` | kernel/sio.c:174-192 | The transmit event sends the oldest byte or ends the transmission, and touches nothing else |
| `Answers.BootIs` | kernel/system.c:333-364 | The first state, field by field: init with PID 1 and the highest priority on the first PCB and stack, its own parent, its state never written |
| `Answers.LeastPidReads` | kernel/process.c:125 | In every reachable state with readers waiting, the next character goes to the one with the least PID |
| `Priorities.DispatchKeeps` | kernel/scheduler.c:87-126 | A dispatch leaves a READY process on its queue with its PCB untouched, or gives it the CPU |
| `Priorities.DispatchRespects` | kernel/scheduler.c:95-105 | Of two READY processes on different queues a dispatch does not pick the less urgent, whomever it passes over |
| `Priorities.MoreUrgentFirst` | kernel/scheduler.c:58-126 | Of two processes scheduled at priorities a < b < 4 the next dispatch does not pick the second |
| `Priorities.ExecEnds` | kernel/syscall.c:270-304 | After exec the caller has the new priority and fresh words, all else as before, and runs or waits on the queue of its new priority |
| `Priorities.KillSelfEnds` | kernel/syscall.c:426-436 | After killing itself a process is as before, and runs or waits on the queue of its own priority |
| `Priorities.TickEnds` | kernel/clock.c:81-105 | After a tick the interrupted process is as before but for its argument word, and runs or waits on the queue of its own priority |
| `Priorities.StepKeeps` | kernel/scheduler.c:58-126 | Over any step that does not kill it a READY process stays on its queue or gets the CPU |
| `Priorities.StepRespects` | kernel/scheduler.c:58-126 | and a READY process less urgent than it does not get the CPU in that step |
| `Priorities.LessUrgentWaits` | kernel/scheduler.c:87-105 | Strict priority over whole runs: of two ready processes on queues i < j, neither killed meanwhile, the second gets to run only if the first does |
| `Placement.NeverFull` | kernel/queue.c:57-77 | With every PCB and stack accounted for, queue nodes in use stay within N_PCBS + N_STACKS, so E_NO_QNODES is unreachable |
| `Placement.TakeOff` | kernel/queue.c:241-311 | Taking a process off a queue moves it, once, into the handler's hands |
| `Placement.Put` | kernel/queue.c:372-451 | Putting it on a queue in a state that fits the queue moves it back |
| `Placement.Releases` | kernel/system.c:206-218 | Freeing a process never fails and keeps PCBs and stacks accounted for |
| `Placement.Allocates` | kernel/syscall.c:187-199 | A free PCB implies a free stack; taking both keeps the accounts |
| `Placement.Rewrite` | kernel/syscall.c:426-430 | Rewriting PCBs in place, marking one KILLED included, moves nothing |
| `Safety.Zombifies` | kernel/system.c:145-242 | `_zombify` always ends with every process queued, or panics, for exactly one reason: the parent search fails |
| `Safety.Dispatches` | kernel/scheduler.c:87-126 | A dispatch never meets a state other than READY or KILLED; it ends in a running process, with all queues empty, or at an orphan |
| `Safety.WakesOne` | kernel/clock.c:72-79 | One round makes one sleeper READY, whatever its state was, killed included |
| `Safety.Wakes` | kernel/clock.c:72-79 | The wake-up loop never fails and leaves the interrupted process alone |
| `Safety.ForkSafe` | kernel/syscall.c:187-199 | fork keeps the invariant, and its rollback branch is unreachable: whenever a PCB is free a stack is |
| `Safety.StepSafe` | kernel/syscall.c:139-630 | Every event from every invariant state keeps the invariant; of fourteen ways to stop only four are left (no parent, nothing to dispatch, either serial buffer overrun) |
| `Safety.RunSafe` | kernel/system.c:145-242 | The same over every run |
| `Safety.BootSafe` | kernel/system.c:333-364 | The boot state satisfies the invariant |
| `Safety.RunFromBoot` | kernel/system.c:260-387 | So no other panic can fire in any run from boot, kills included |
| `Safety.ExactlyOnePlace` | kernel/process.c:66-86 | In every reachable state each PCB is exactly once the current process or on one of the queues, each stack exactly once free or owned by one PCB in use, and queue nodes never run out |
| `Families.WaiterIsParent` | kernel/system.c:188-197 | What is taken off `_waiting` under a waiting parent's PID is that parent |
| `Families.ZombieIsTarget` | kernel/syscall.c:555-560 | What is taken off `_zombie` under a zombie's PID is that zombie |
| `Families.DeliverMoves` | kernel/system.c:188-224 | Whatever the PIDs, shared ones included: the parent is told PID and status, the process that `_waiting` holds under the parent's PID is made READY behind ready[0], and the exiting one is freed |
| `Families.FoundUnderItsPid` | kernel/syscall.c:548-592 | In every state reached by a run that starts no process under a PID in use, however often the PID counter has come round, a WAITING process is on `_waiting` and a ZOMBIE on `_zombie`, keyed by a PID that finds it and no other |
| `Families.DeliverTable` | kernel/system.c:199-224 | With distinct PIDs: exactly which PCBs, queue and values a delivery changes |
| `Families.ForkTable` | kernel/syscall.c:201-262 | Exactly which PCBs a fork changes (Answers.ForkAnswers says to what, field by field) |
| `Families.ReapMoves` | kernel/syscall.c:548-575 | Whatever the PIDs: the caller is told the PID and status field of the zombie found, and freed is the process that `_zombie` holds under that PID |
| `Families.ReapTable` | kernel/syscall.c:548-575 | With distinct PIDs reaping frees exactly that zombie |
| `Families.ZombifyTable` | kernel/system.c:173-239 | The PCB table after `_zombify`, in both cases |
| `Families.NewWaiterKin` | kernel/syscall.c:475-590 | Blocking in wait loses no wake-up |
| `Families.NewZombieKin` | kernel/system.c:160-239 | Becoming a zombie loses no wake-up |
| `Families.StepKin` | kernel/syscall.c:446-630 | Distinct PIDs and no lost wake-up are kept by every step that does not start a process under a PID in use: with init left out of account by all, and with nobody left out by all but an exit of a process other than init |
| `Families.NoWakeupIsLost` | kernel/syscall.c:468-596 | In every state reached by a run that starts no process under a PID in use, whatever its length and however often the PID counter has come round, no process but init waits for a child of its own that is already a zombie, and PIDs in use are distinct |
| `PidWrap.ForkDistinct` | kernel/syscall.c:201-203 | PIDs in use are distinct after a fork if and only if no process in use has the value of the PID counter |
| `PidWrap.StepDistinct` | kernel/syscall.c:139-630 | The same for whole steps: PIDs in use stay distinct if and only if the step does not start a process under a PID in use |
| `PidWrap.RunDistinct` | kernel/syscall.c:139-630 | And for runs, which is what the theorems on waiting ask for: no step starts a process under a PID in use if and only if PIDs in use are distinct in every state of the run |
| `PidWrap.FewNeverClash` | kernel/syscall.c:201-203 | A caller's check: no run from boot that starts fewer than 2^32 processes does so |
| `PidWrap.WrapsOntoInit` | kernel/syscall.c:201-203 | The bound is sharp: a run from boot that starts 2^32 processes, all but two of them gone, the last of which has init's PID while init is in use |
| `SharedPids.BlockingLoses` | kernel/syscall.c:468-590 | Whatever the PIDs: blocking in wait loses a wake-up if and only if the process asks for a child by its PID and has a zombie child under that PID, so that the search has found another process |
| `SharedPids.EndingLoses` | kernel/system.c:160-239 | Whatever the PIDs: becoming a zombie loses one if and only if a process under its parent's PID is waiting for it |
| `SharedPids.WakeupLost` | kernel/syscall.c:468-590 | A run from boot in which one is lost: once the counter has come round to 0 process 0 starts a child, which gets init's PID, ends, and is not found by process 0, which blocks waiting for it |
| `Stranding.ExitStrandsInit` | kernel/syscall.c:612-624 | Init is the exception to that. Within an exit, reparenting and `_zombify` leave somebody waiting for a zombie child if and only if they hand init a zombie that init waits for and do not themselves end that wait |
| `Stranding.DispatchStrands` | kernel/scheduler.c:95-123 | A dispatch ends with a waiter stranded if and only if it starts with one and none of the KILLED processes that it passes over is a child that init waits for |
| `Stranding.StepStrands` | kernel/syscall.c:446-630 | Over whole steps, forks that reuse a PID included: from a state with distinct PIDs in which nobody is stranded, an event strands somebody if and only if it is an exit by a process other than init that hands init such a zombie, does not end init's wait, and whose closing dispatch does not either; kill, wait, fork, ticks, device events and init's own exit never do |
| `Stranding.InitStranded` | kernel/syscall.c:612-624 | A run from boot of nine events after which init waits for any child while process 4, its child, is a zombie |
| `Frames.PerformFrame` | kernel/syscall.c:139-630 | What each system call leaves alone: clock, serial buffers, sleepers, readers |
| `Frames.StepNextPid` | kernel/syscall.c:201-203 | The PID counter moves on a fork that gets a PCB and a stack, by one with wrap-around, and on no other step |
| `Frames.FewStarted` | kernel/syscall.c:187-203 | The processes that a run starts are no more than the forks among its events |
| `Orphans.ParentFound` | kernel/system.c:160-166 | A process whose parent is live finds it |
| `Orphans.ExitCalm` | kernel/syscall.c:604-630 | Whatever the PIDs: an exit by a process other than init finds its parent and leaves no orphan |
| `Orphans.DispatchCalm` | kernel/scheduler.c:87-126 | A dispatch passes over any number of KILLED processes without missing a parent and leaves no orphan, if every process has a parent that is neither a zombie nor KILLED |
| `Orphans.KillCalm` | kernel/syscall.c:406-438 | The kill of a process without children, or of oneself, leaves no orphan either |
| `Orphans.StepCalm` | kernel/syscall.c:139-630 | Every gentle step, whatever the PIDs, keeps every process parented |
| `Orphans.NoOrphanPanic` | kernel/system.c:160-166 | In every run from boot, whatever its length and its PIDs, in which init neither exits nor is killed, nobody kills a process that has children, and init does not block in readc before its first preemption, the no-parent panic is unreachable |
| `Orphans.InitExitPanics` | kernel/system.c:333-364 | Why init must not exit: at once, it is not found as its own parent |
| `Orphans.BlockedInitPanics` | kernel/syscall.c:328-337 | Why init must not block in readc at first: fork, readc, exit stops the kernel |
| `Orphaned.KilledParentPanics` | kernel/system.c:160-166 | Why a process with children must not be killed: in a run from boot of seven events one is, it is delivered to the waiting init, and its child's exit stops the kernel |
| `Scheduling.PickMeans` | kernel/scheduler.c:95-123 | Which process is due, by indices into the ready list as it is before the dispatch: with r the least index of a READY process and j the least of a KILLED one whose waiting parent wants it, the r-th if r is in the most urgent queue or before j, else the parent of the j-th, which goes behind the most urgent queue; and how many KILLED ones are passed over |
| `Scheduling.DispatchPicks` | kernel/scheduler.c:87-126 | With distinct PIDs, a dispatch that finds a process dispatches exactly that one, parents woken inside the loop included, after taking exactly that many KILLED ones off the queues |
| `Scheduling.DispatchEmpties` | kernel/scheduler.c:95-105 | Whatever the PIDs: a dispatch stops with all queues empty if and only if every process on them is KILLED, finds its parent, and is not wanted by it |
| `DispatchStops.DispatchOrphans` | kernel/scheduler.c:95-123 | A dispatch stops for want of a parent if and only if among the KILLED processes in front of the one it would pick, or among all if it would pick none, is one whose parent is not in use, or whose parent is itself a KILLED one further ahead and the first there that its own waiting parent wants; told from the queues before the dispatch |
| `Scheduling.DispatchFinds` | kernel/scheduler.c:95-105 | While a process is READY a dispatch does not run out of processes, whatever it passes over, and that process then runs or is READY still |
| `Scheduling.ClockFinds` | kernel/clock.c:81-105 | A clock tick never finds all queues empty |
| `Idling.StepLively` | kernel/scheduler.c:95-105 | A process that runs or is READY, does not block or end itself with this step and is not killed by it, still runs or is READY afterwards, and the step does not stop for want of a process to dispatch |
| `Idling.IdleFromBoot` | kernel/scheduler.c:95-105 | Over all runs from boot, whatever their length and PIDs: from when one process does that for good, the stop with all queues empty is unreachable |
| `Idling.NobodyIdles` | kernel/scheduler.c:95-105 | Without such a process it is reached: init alone asking for a character |
| `Scheduling.KillSelfYields` | kernel/syscall.c:428-436 | Killing oneself is exactly a yield: scheduling overwrites the mark |
| `Fairness.StepAdvances` | kernel/scheduler.c:58-126 | A process in the most urgent queue that is not killed by this step: a clock tick takes at least one entry from in front of it or gives it the CPU, whomever the dispatch passes over, and no other step puts one there |
| `Fairness.UrgentRunsSoon` | kernel/clock.c:81-105 | Bounded waiting: in any run, kills of other processes included, a READY process at index k of the most urgent queue (a woken sleeper, say) becomes current before k + 1 clock ticks have passed, unless it is itself killed before that |
| `Fairness.KilledNeverRuns` | kernel/syscall.c:406-438 | Why: in a run from boot the next process in that queue is killed, and then never runs, for any number of ticks |
| `Sleeping.WakesTheDue` | kernel/clock.c:72-79 | A tick wakes exactly the sleepers that are due, in wake-up order with ties in arrival order, READY at the back of ready[0], and the wake-up loop changes nothing else |
| `Sleeping.NobodyOversleeps` | kernel/clock.c:58-79 | After any tick of any run every remaining sleeper's time lies ahead |
| `Sleeping.SleeperStep` | kernel/queue.c:497-501 | A sleeper leaves the queue on a tick that brings the clock to its time or past it, and on no other step, settime included |
| `Sleeping.SleepsUntil` | kernel/syscall.c:145-158 | Over any run, settime and wrap-around of the clock included: a sleeper is on the queue under its 32-bit wake-up time until a tick brings the clock there, and is taken off by that tick, and only by such a one |
| `Sleeping.SleepsExactly` | kernel/syscall.c:145-158 | Counted in ticks: a process that sleeps n ticks at time t is on the queue until tick t + n and off it on that tick, whatever happens in between but settime and wrap-around |
| `ClockWrap.SleepWraps` | kernel/syscall.c:145-158 | A sleep that would end past the last value of the clock is ended by the next tick, however long it was to be, if and only if that tick does not wrap the clock itself (or the sleep was for one tick) |
| `ClockWrap.HundredTicksInOne` | kernel/syscall.c:145-158 | A run from boot in which a sleep of a hundred ticks lasts one |
| `Serial.StepLine` | kernel/sio.c:127-192 | One step: buffered plus accepted is delivered plus buffered, for both directions |
| `Serial.NothingLost` | kernel/sio.c:392-417 | Any run: delivered then buffered input is the accepted input with CR as LF; wire then buffered output is the text written with LF as CR LF; a reader waits only on an empty buffer |
| `Serial.WriteLine` | kernel/sio.c:471-502 | writec keeps the line in order, and runs past its array exactly when the transmitter is busy and its bytes no longer fit behind the offset `_outlast` |
| `Serial.OutLastCounts` | kernel/sio.c:174-192 | That offset counts the bytes queued since the transmitter was last idle |
| `Serial.ReceiveOverrun` | kernel/sio.c:149-162 | The receive interrupt stores past its array exactly when BUF_SIZE characters went in since the buffer was last empty and one has been read |
| `Serial.LastCounts` | kernel/sio.c:392-417 | The offset that decides this counts the characters stored since the buffer was last empty |
| `Overruns.InputOverruns` | kernel/sio.c:149-162 | Over runs from boot: a character overruns the input buffer if and only if nobody waits for it, the buffer is not full, and the history of the run puts BUF_SIZE characters into it since it was last empty |
| `Overruns.OutputOverruns` | kernel/sio.c:471-502 | Over runs from boot: a writec overruns the output buffer if and only if the transmitter is busy and the bytes queued since it was last idle, with its own, exceed BUF_SIZE |
| `Overruns.TooMuchWritten` | kernel/sio.c:471-502 | A run that overruns the output buffer: BUF_SIZE + 2 characters before a transmit interrupt |
| `Overruns.TooMuchReceived` | kernel/sio.c:149-162 | A run that overruns the input buffer: BUF_SIZE characters, one read, one character |
| `Reaping.AnyTarget` | kernel/syscall.c:493-537 | Waiting for any child looks at a zombie child if there is one, otherwise at the last table slot |
| `Reaping.ReapsStranger` | kernel/syscall.c:468-537 | Exactly when wait picks a zombie that is no child of the caller |
| `Strangers.StrangerReaped` | kernel/syscall.c:493-575 | A run from boot that gets there: init fills the table, the last process exits, and process 2, which has no child, is given that zombie of init's by a wait for any child |
| `Reaping.AnyNeverRefuses` | kernel/syscall.c:524-590 | wait(0) never answers that there is no child, whatever the dispatch inside it does: afterwards its caller is blocked with its info_t untouched, or its info_t names a process that was a zombie or killed |
| `Reaping.ExitStatus` | kernel/system.c:199-203 | The argument of exit reaches a parent that already waits; otherwise the status field stays as it was |
| `Reaping.LateWaiterSeesNoStatus` | kernel/syscall.c:550-553 | In every run, whatever its PIDs, a parent that waits later is told BLOCKED if the zombie ever blocked in readc since it was started and 0 otherwise, whatever was passed to exit |
| `HeapSpec.RequestEnough` | kernel/kalloc.c:96-98 | Rounding up gives enough room, and less than a word too much, exactly when the sum does not wrap around; when it does the request comes to nothing |
| `HeapSpec.Canonical` | kernel/kalloc.c:200-249 | A separate free list is determined by the set of words it covers |
| `HeapSpec.GivenOk` | kernel/kalloc.c:103-170 | NULL exactly when no free block has the rounded length; otherwise a block with at least that many words cut from the lowest-addressed one that fits, taking exactly those words; a block more than two words too long is cut, and otherwise goes whole |
| `HeapSpec.ReleaseOk` | kernel/kalloc.c:200-249 | A release that needs no word outside the block keeps the list address-ordered with no two adjacent blocks, and adds exactly the block's words |
| `HeapSpec.LinkOutside` | kernel/kalloc.c:208-233 | Otherwise, and only then, the release links the block in through a word that the block does not have |
| `HeapSpec.GivenRoom` | kernel/kalloc.c:120-164 | The block handed out has room for a link if and only if the request comes to a word at least, or the first free block is too small to be split |
| `HeapSpec.GivenRoomy` | kernel/kalloc.c:208-214 | What was just allocated can always be released: without room for a link it is merged back |
| `HeapSpec.FreeUndoesAlloc` | kernel/kalloc.c:180-250 | Freeing what was just allocated restores the free list, in the split and in the whole-block case, for every size |
| `HeapRuns.AllocThenFree` | kernel/kalloc.c:89-250 | The same as a pair of steps: the heap, live blocks included, is as before |
| `HeapRuns.StepTiles` | kernel/kalloc.c:89-250 | Every legal operation keeps free and live blocks, headers included, tiling the initial regions |
| `HeapRuns.RunTiles` | kernel/kalloc.c:89-250 | The same over runs |
| `HeapRuns.RunSized` | kernel/kalloc.c:89-250 | In a run whose requests all come to a word at least, every live block has room for its link, so that every free of a live block is legal |
| `HeapRuns.HeapSafety` | kernel/kalloc.c:89-250 | Any such run from the initial free list: no word lost or shared, and once all is freed the initial free list is back |
| `HeapRuns.HistoryForgotten` | kernel/kalloc.c:200-249 | The free list depends only on which blocks are live |
| `HeapRuns.OrderDoesNotMatter` | kernel/kalloc.c:180-250 | Freeing the same blocks, of any sizes, in any two orders that are legal gives the same heap |
| `HeapRuns.EveryOrderLegal` | kernel/kalloc.c:180-250 | Among live blocks of at least a word every order is legal that frees none of them twice |
| `HeapRuns.ZeroBytes` | kernel/kalloc.c:120-157 | Why sizes of 0 are left out: of two such blocks the first cannot be freed before the second |
| `HeapWords.CutSpells` | kernel/kalloc.c:122-157 | The two words written by a split spell out the new free list and the new block's header |
| `HeapWords.DropSpells` | kernel/kalloc.c:158-164 | The one word written by taking a whole block does |
| `HeapWords.LinkedSpells` | kernel/kalloc.c:208-233 | The words written by linking, or merging with the block before, do |
| `HeapWords.MergedSpells` | kernel/kalloc.c:238-249 | The words written by merging with the block after do |
| `HeapWords.ReleaseSpells` | kernel/kalloc.c:192-249 | The two stages of `_kfree` make up the release |
| `KernelHeap.Allocator.constructor` | kernel/kalloc.c:328-339 | The chunks found at start-up are linked into a valid heap |
| `KernelHeap.Allocator.Kalloc` | kernel/kalloc.c:85-171 | The code over memory words takes the allocation step and returns the word after the header, or NULL |
| `KernelHeap.Allocator.Search` | kernel/kalloc.c:103-108 | First fit, with the cell that points at the block |
| `KernelHeap.Allocator.Kfree` | kernel/kalloc.c:180-250 | For every live block: the code over memory words takes the release step unless that needs a word outside the block, and then leaves exactly the stated words; NULL changes nothing |
| `HeapWords.StrayHarms` | kernel/kalloc.c:208-249 | What that does: the word after the block is overwritten, a live block that starts there keeps its length if and only if it equals the address of the next free block, and beyond that word only a link of the free list and the block's own length change |
| `ImageSpec.ComputedIsReal` | utils/BuildImage.c:131-151 | The builder checks the address the processor will use exactly when neither half has its top bit set (or the number is not negative) |
| `ImageSpec.AcceptedFits` | utils/BuildImage.c:152-164 | An accepted program whose address was computed right ends below the limit |
| `ImageSpec.CheckMissesHighSegments` | utils/BuildImage.c:138-164 | Otherwise not: a program at F000:0000 is accepted |
| `ImageSpec.Accepted` | utils/BuildImage.c:152-167 | The builder refuses none exactly when every program passes its checks and the table has room for all |
| `ImageSpec.RefusalReasons` | utils/BuildImage.c:131-167 | Which refusal a program meets, each if and only if: a flat address above 9ffff hex; an end above it, from signed halves; fewer than three words of the table left; in that order |
| `ImageSpec.FirstRefused` | utils/BuildImage.c:104-179 | The build is refused for the first program that is, with three words of the table used by each before it |
| `ImageSpec.BuildRefuses` | utils/BuildImage.c:298-311 | Once no program is refused the build is, if and only if the bootstrap is shorter than the table or has anything but zeros where the table goes |
| `ImageSpec.ImageIs` | utils/BuildImage.c:298-327 | Byte for byte what an accepted build puts on the disk: bootstrap and programs padded with zeros to whole sectors, the table over zeros at the end of the bootstrap, the drive number at 508, and no other byte changed |
| `ImageSpec.EntryIs` | utils/BuildImage.c:176-178 | Program k's entry, from the end of the table: its sectors, segment and offset, a flat address split at 16 bytes |
| `ImageSpec.TableAt` | utils/BuildImage.c:176-178 | Entry k read from the end of the backwards-filled table is program k's |
| `ImageBuilder.Builder.CopyFile` | utils/BuildImage.c:77-102 | Block-wise copying appends the file padded to whole sectors and counts them |
| `ImageBuilder.Builder.ProcessFile` | utils/BuildImage.c:104-179 | Copies, checks, and enters the program below the earlier ones; each refusal in its order |
| `ImageBuilder.Builder.WriteTable` | utils/BuildImage.c:298-327 | The table goes over zeros at the end of the bootstrap, and the drive word at 508 |
| `ImageBuilder.Builder.BuildImage` | utils/BuildImage.c:270-327 | The whole build, or the first refusal: what ImageSpec.ImageIs, ImageSpec.FirstRefused and ImageSpec.BuildRefuses spell out |
| `LoaderSpec.NextIsSuccessor` | boot/bootstrap.S:177-194 | Stepping sector, head and track visits consecutive disk sectors, and freezes right after the last |
| `LoaderSpec.LbaInjective` | boot/bootstrap.S:177-194 | A sector number belongs to one position only |
| `LoaderSpec.ReadToPatch` | boot/bootstrap.S:151-153 | A buffer that ends within its segment is a plain range of memory |
| `LoaderSpec.StraightExactly` | boot/bootstrap.S:166-175 | Stepping es:bx reaches consecutive addresses, byte for byte, exactly when the offset is a multiple of 512 or the program ends within the segment |
| `LoaderSpec.ReadToCells` | boot/bootstrap.S:147-175 | A sector read goes byte for byte to its buffer, wrapping around within the segment, and nowhere else |
| `LoaderSpec.ReadProgExactly` | boot/bootstrap.S:140-208 | readprog for every count, 0 and negative ones being taken for 1: how many sectors it reads and whether it finishes, freezes at the end of the disk, or fails at a sector that is not there |
| `LoaderSpec.WalkRound` | boot/bootstrap.S:118-132 | One entry of the table: where its three words are, when the walk ends, and where the next entry is |
| `BootLoader.Loader.ReadSector` | boot/bootstrap.S:147-153 | One BIOS read from the current position to es:bx |
| `BootLoader.Loader.Advance` | boot/bootstrap.S:177-198 | The byte-sized counters take the specified step, the wrap at 256 heads included |
| `BootLoader.Loader.ReadProg` | boot/bootstrap.S:140-208 | The register loop reads the specified sectors to the specified places |
| `BootLoader.Loader.LoadPrograms` | boot/bootstrap.S:118-132 | The table walk down to the first zero count, with its termination |
| `BootLoader.Loader.Start` | boot/bootstrap.S:95-132 | Second bootstrap sector, size word for the kernel, then the walk |
| `BuildLoad.ReadProgPlaces` | boot/bootstrap.S:140-203 | n sectors of the disk arrive, unchanged and in order, at n * 512 consecutive addresses clear of the loader, its stack and the interrupt vectors (or at the second bootstrap sector) |
| `BuildLoad.WalkPlaces` | boot/bootstrap.S:118-132 | The walk recovers every entry and places every program up to the first empty one |
| `BuildLoad.TableBooted` | utils/BuildImage.c:298-321 | The table the builder wrote is the one the loader finds in memory |
| `BuildLoad.ImageHolds` | utils/BuildImage.c:77-102 | The programs follow the bootstrap on the disk in order |
| `BuildLoad.StackOverwritten` | boot/bootstrap.S:51-55 | Why the stack must be kept clear: 22 sectors at 0900:0000 pass every check of the builder, and cover the word that holds the return address of readprog |
| `BuildLoad.VectorsOverwritten` | boot/bootstrap.S:147-153 | Why the vectors must be: one sector at 0000:0000 passes every check and covers the vector of the disk service |
| `BuildLoad.BuildThenLoad` | utils/BuildImage.c:270-327 | Build then load: the loader finishes exactly when the disk is larger than what it reads (else it freezes), and memory, wherever the loader and the BIOS do not work themselves, is then as with every program up to the first empty one put at its address |
| `BuildLoad.LoadedByteForByte` | boot/bootstrap.S:118-203 | What loading is for: if the programs up to the first empty one overlap nowhere, they are all in memory byte for byte after the load, and of the bytes outside them, the size word and what the loader and the BIOS use, none has changed |
| `BuildLoad.SizeNoted` | boot/bootstrap.S:109-116 | and the kernel finds the first program's number of sectors at 2D0A hex, unless a program is loaded over it |
| `BuildLoad.OneByteLoaded` | utils/BuildImage.c:270-327 | The conditions of that theorem can be met: a program of one byte under a blank bootstrap, on a disk of 2880 sectors, is in memory after the load |
| `BuildLoad.AllReached` | boot/bootstrap.S:118-121 | Every program is loaded exactly when none is empty: a zero count ends the table |
| `BuildLoad.EachInPlace` | boot/bootstrap.S:123-132 | Programs that do not overlap are all there byte for byte, and no other byte has changed |
| `Paging.FullWord` | mm/framefunc.c:26-28 | The search skips exactly the words with no clear bit |
| `Paging.Frames.FindFrame` | mm/framefunc.c:23-37 | The nested search returns the head of the ascending list of free frames, none exactly when that is empty |
| `Paging.Frames.Clear` | mm/paging.c:48-49 | `_memclr` told to clear n bytes frees the first 8n frames and no other |
| `Paging.Frames.SetFrame` | mm/framefunc.c:39-42 | Exactly that frame becomes taken; taking the lowest free one takes the head off the ascending list of free frames |
| `Paging.TableMade` | mm/paging.c:102-107 | Making a table maps its 1024 pages, all clear, and changes no other page |
| `Paging.PageSet` | mm/framefunc.c:57-62 | Changing a page changes no other page |
| `Paging.Pager.Bump` | mm/mm.c:44-57 | Addresses only grow; an aligned request starts on a later page |
| `Paging.Pager.GetPage` | mm/paging.c:93-110 | Directory and tables behave as one flat map; a table is made on demand in the page just allocated, whose address plus 7 the processor is told, and tables already made keep theirs |
| `Paging.Pager.TablesApart` | mm/paging.c:103-106 | What the processor is told of any two tables: each its own page-aligned address at or above MEM_START, below what is still unallocated, plus 7; and they share no page |
| `Paging.Pager.Falloc` | mm/framefunc.c:50-65 | An entry without a frame gets the lowest free one, whatever the bitmap holds |
| `Paging.Pager.MapLow` | mm/paging.c:62-67 | The loop whose bound moves while it makes tables terminates and gives page k the k-th free frame, up to the bound it ends with |
| `Paging.Pager.MapRegion` | mm/paging.c:69-72 | The third loop leaves pages that have a frame alone and gives the others the next ones in order |
| `Paging.Pager.PagingInit` | mm/paging.c:45-72 | From a bitmap with any contents, of which set-up clears as many bytes as it has words: set-up succeeds exactly when there is a free frame for every page up to the end of the region, and then exactly those pages have the lowest free frames, in order, and exactly those frames have become taken; mapped pages are present, not writable, and for user code; and every table lies behind bitmap and directory |
| `Paging.IdentityExactly` | mm/paging.c:48-67 | Those are the frames of the pages' own numbers, the identity mapping meant, if and only if no stale bit is set among them in the part of the bitmap that was not cleared |
| `Paging.TooFewFrames` | mm/paging.c:23-46 | The constants shown do not leave enough frames, stale bits or not |
| `Conversions.CvtDec0` | lib/c_io.c:286-299 | The recursion writes the specified digits at the given place and nothing elsewhere, for every value |
| `Conversions.Dec0Exactly` | lib/c_io.c:286-299 | They are the decimal numeral of the magnitude if and only if the value is not negative or is the most negative one; other values below -9 give the digits of the most negative one, and those above it one character below '0' |
| `Conversions.CvtDec` | lib/c_io.c:301-312 | Sign, digits and NUL in at most twelve characters |
| `Conversions.DecRoundTrip` | lib/c_io.c:286-312 | For every 32-bit value the text parses back to it, has no superfluous zero, and fits with its NUL in twelve characters |
| `Conversions.CvtHex` | lib/c_io.c:316-336 | The shifting loop writes the shortest hexadecimal text |
| `Conversions.HexRoundTrip` | lib/c_io.c:316-336 | That text parses back to the word, without superfluous zeros, in at most eight digits |
| `KeyRing.Ring.Store` | lib/c_io.c:613-621 | Appends to the ring unless 199 characters wait |
| `KeyRing.Ring.Peek` | lib/c_io.c:648 | The first half of taking a character: it reads the oldest |
| `KeyRing.Ring.Advance` | lib/c_io.c:649 | The second half: the pointer moves past it |
| `KeyRing.Ring.Play` | lib/c_io.c:613-654 | Buffer and pointers follow the event model in every interleaving of keys with the reader's two halves |
| `KeyRing.Ring.InputQueue` | lib/c_io.c:676-683 | The size, in both pointer orders |
| `KeyRing.Fifo` | lib/c_io.c:577-654 | In every interleaving, keys between the two halves included, characters taken and then those waiting are the ones kept, in order, and no key overwrites the character the reader has read |
| `KeyRing.ReadHolds` | lib/c_io.c:636-648 | The reader waits only while nothing is there: otherwise it reads the oldest character |
| `KeyRing.TakesOldest` | lib/c_io.c:633-654 | c_getchar makes progress: with a character waiting it takes the oldest, whatever keys come between its two halves, and leaves the others with the keys kept behind them |
| `KeyRing.RefusedInBetween` | lib/c_io.c:648-649 | What the gap costs: with 199 waiting, a key that comes between the two halves is refused |
| `KeyRing.NoneLost` | lib/c_io.c:613-621 | Exactly the refused keys are missing |

## Left out

- Families.NoWakeupIsLost: for runs that start no process under a PID in use, as all do that start fewer than 2^32 (PidWrap.FewNeverClash); after such a start two processes share a PID (PidWrap.StepDistinct) and a wake-up can be lost (SharedPids.WakeupLost); Families.FoundUnderItsPid likewise.
- Sleeping.SleepsExactly: counts ticks, and so excludes settime, which moves the clock under a sleeper, and wake-up times past the end of the clock, for which see ClockWrap.SleepWraps; Sleeping.SleepsUntil excludes neither.
- Orphans.NoOrphanPanic: excludes the kill of a process that has children, since they keep its PID and once it has been reaped their exit finds no parent (Orphaned.KilledParentPanics); DispatchStops.DispatchOrphans and Safety.Zombifies say when the panic does fire.
- Fairness.UrgentRunsSoon: not for a process that is itself killed before its turn (Fairness.KilledNeverRuns); and about the most urgent queue only, since the others are served only while it is empty.
- KernelHeap.Allocator.Kfree: after releasing a block of no words that does not merge into the free block before it only the words are stated, no longer a valid heap; by HeapRuns.RunSized no such block exists in a run without requests for nothing.
- BuildLoad.BuildThenLoad: the loader's variables, its stack and the BIOS data are kept outside the modelled memory, so programs must stay clear of the addresses below 500 hex and of those from the bootstrap to the top of its stack, and nothing is said of the bytes there; what the bootstrap writes after the load (the memory map, the GDT) is not modelled.
- Paging.Pager.GetPage: a table is an object of its own rather than bytes at its address; so the frame bitmap's own reservation, too small by a factor of four, is modelled only in what it clears.
- Stack contents, saved registers other than EAX, context pointers and their adjustment in fork; `_setup_stack`.
- Kernel panics for null arguments and null `_current`: the model's references are never null.
- UART and PIC registers, line status, modem status and FIFO time-out events, interrupt enabling: hardware set-up.
- `_sio_reads`, `_sio_writes`, `_sio_dump` and the queue dumps: reached by no system call, or output only.
- `_kalloc_align` with an alignment above 1 and the memory probing of `_kalloc_init`; the chunks found there are a parameter of the heap's constructor.
- The chunk manager in mm/mm.c, `ffree` and `clear_bit`: their natural invariants do not hold of the code.
- Page directory switch, page fault handler, installation of interrupt vectors.
- Option and address parsing, file access errors and messages of the image builder; files and the disk are byte sequences, and a load address is given already split into its numbers.
- BIOS read retries, drive reset, the switch to protected mode, A20 and GDT set-up of the bootstrap; reads succeed while the disk lasts.
- Scan-code translation and control-key masks; the reading with interrupts disabled and the echo of `c_getchar`.
- `cvtoct`, printf padding, screen output, the shell, user programs, drivers, SMP start-up and the filesystem headers.
