# Yalnix, verified

A Dafny model of the Yalnix kernel: its scheduler and all that suspends on it, its physical
memory and address spaces, and the linked data structures beneath them, with proofs of what
they keep over every run.

## How it is put together

**Scheduler.** `KernelState` holds the kernel's globals as one value and gives every process a
continuation: where its kernel call is parked. `KernelSteps` has one function per C function and
per stretch of code between two context switches, and `Run` for sequences of such stretches from
the end of boot, with any interleaving of traps, clock, terminal interrupts and resumed calls.
`Location`, `Footprint`, `Agreement`, `Objects`, `Mutex`, `LockWakeups`, `WaitOrder`, `Pipes`,
`TtyWrites`, `TtyReads`, `Sleepers`, `Fairness`, `Families`, `Kinship` and `ReturnCodes` prove
properties of all runs. Acquisitions and
releases, written bytes, reads, forks and exits are told by the calls of a run, their return codes
(`Calls`) and what the terminals deliver, not by what the kernel notes. `HarmfulExit` and
`StaleEntries` are runs that go wrong. `Kernel` is the code in its own form, a class whose methods
update queues, maps and process control blocks in place; each method is proved equal to its step
function, and the class keeps as an invariant that its history is a run, so the results on runs hold
of it.

**Memory.** `FrameLists` is the frame array. `PageTables` has the arithmetic of entries and
addresses. `Memory` is the class with page tables, MMU registers, TLB and frame contents.
`Ownership` gives every frame that is not free one owner; `Mmu` says what the TLB and the tables
have to agree on; `Layout` and `Breaks` describe address spaces, `Lifetimes`, `Forking` and
`Booting` the making, copying and deleting of processes. The constants of hardware.h, which is
not part of this model, are symbolic: the proofs hold for every page size and region size.

**Arguments.** `ArgStack` and `ArgBuilder`: the argument stack of LoadProgram, byte by byte; `Loading`:
the pages that it gets.

**Structures.** `Queues`, `SetChains`, `HashMaps`, `ByteBuffers`: linked nodes and arrays, proved
against sequences and maps. `TickMaps` joins the hash map's iteration to the scheduler's clock step.

## Where the code does not do what it means to

- exitProcess wakes the parent whatever it is blocked on (Scheduler.c:265). The model does what
  the code does. `Agreement.StepAgrees` shows that this breaks the agreement between the blocked
  map and the wait queues exactly when `Harmful` holds, that is, when the parent is blocked in a
  lock or condition queue or behind the head of a pipe queue. What follows from it: in the run of
  `HarmfulExit.LostWakeup` a lock is free, a process is blocked waiting for it and nobody is about to
  retry; in `StaleEntries.ReaderOvertakes` a pipe reader overtakes the one before it; in
  `StaleEntries.SignalIsUsedUp` a signal wakes nobody although it takes an entry off the queue; in
  `StaleEntries.WaitIsCutShort` Wait returns ERROR to a process with a live child. Which steps do
  this is exact: `LockWakeups.StepAlert` and `LockWakeups.AlertUnlessLost` for wake-ups on locks,
  `WaitOrder.StepMoves` and `WaitOrder.OrderedUnlessStale` for the order in which locks and condition
  variables wake, `Pipes.StepOrder` and `Pipes.OrderedUnlessOutOfTurn` for the order of pipe readers,
  `Families.StepFeeds` and `Families.FedUnlessInVain` for Wait. Runs without harmful exits (`Calm`)
  have none of them. Location, mutual exclusion, byte conservation, the
  terminal results, Delay, bounded waiting and exit/wait conservation hold without that condition.
- `numChildren` is never decremented: `Kinship.WaitGivesUp` shows that Wait fails at once only for a
  process that has never forked, and blocks when every child has been collected.
- getFrame reads an entry past the end of the array before it tests the bound (FrameList.c:37-41);
  the model tests first.
- KernelStart maps the whole pages below the kernel's break (Kernel.c:79), and initFrameList marks as
  used every frame that begins below it (FrameList.c:18). `PhysicalMemory.EnableVm` shows that a break
  inside a page costs the kernel that page, which is not mapped, and its frame.
- initPCB, out of frames, gives back all of stackPfns, unfilled entries included (Scheduler.c:73-75).
  The model takes their contents as an argument; `Lifetimes.JunkHarmless` says exactly when this
  does no harm, `Lifetimes.JunkInUse` what any frame in use among them does.
- KernelFork, out of frames in its loop, forgets the child (GeneralKernelCalls.c:153).
  `PhysicalMemory.Memory.KernelFork` says for how many free frames this happens, and that every frame
  that was free is lost then.
- KernelBrk does not look at the stack (GeneralKernelCalls.c:294-296), and on ERROR (line 387) keeps
  the pages mapped so far. The contracts say which; `Breaks.BreakLeaks` says exactly when a moved
  break loses frames, `Breaks.BreakMeans` what holds when it stays below the stack.
- SetKernelBrk looks out for the kernel stack only (Kernel.c:194). The page of the terminals' buffers
  and the spare page are below it, and the break may grow over both.
  `PhysicalMemory.Memory.SetKernelBrk` says that the memory invariants survive exactly when it stays
  below the buffers. `Breaks.KernelBreakLeaks` says that no frame is lost exactly when it does so and
  meets no mapped page on its way; a break that fails half way leaves such pages behind
  (`Breaks.BreakKeepsGap`). `Breaks.BreakIntoSpare` and `Forking.ForkOverHeap` say what happens to a heap
  page in the spare page.
- A blank line is ready until it has been read once, so `isLineReady` is then not the same as
  "bytes are left"; `TtyReads.ReadsArePrefixes` says what it is.

## Model

| member | source | states |
|---|---|---|
| `Location.ExactlyOnePlace` | KernelDataStructures/Scheduler/Scheduler.c:171-435 | in every state of every run a live process is in exactly one of: running, readyQ (once), blockedMap, sleepingMap, one transmit queue, one read queue, one currTransmitters slot; a dead one is in none |
| `Location.IdleNeverLeaves` | KernelDataStructures/Scheduler/Scheduler.h:1-3 | idle is always running or ready, and no suspend or exit ever finds readyQ empty or a key already in a map |
| `Location.CallsResume` | KernelDataStructures/Scheduler/Scheduler.c:441-480 | whatever a context switch picks is in user mode or has a parked call that can go on |
| `Location.StepInv` | KernelDataStructures/Scheduler/Scheduler.c:171-435 | every stretch of kernel code keeps the location invariant, with no guard on exit |
| `Location.RunInv` | KernelDataStructures/Scheduler/Scheduler.c:149-169 | the location invariant holds in all reachable states |
| `Footprint.StepTouches` | KernelDataStructures/Scheduler/Scheduler.c:171-435 | each kind of step changes only its own objects, its own kind of events, and moves no other process between calls |
| `Mutex.MutualExclusion` | KernelCalls/LockKernelCalls.c:27-63 | between two calls that get a lock (an Acquire or CvarWait that returns SUCCESS) in any run, the process that got it first has given it back by a call of its own (a Release that returns SUCCESS, or going to sleep in CvarWait), barging and spurious wake-ups notwithstanding |
| `Mutex.OnlyHolder` | KernelCalls/LockKernelCalls.c:27-63 | a call that gets a lock finds that nobody holds it, and a Release that succeeds is by the holder, the holder being told by the calls and their return codes |
| `Mutex.ReleasedBetween` | KernelCalls/LockKernelCalls.c:46-63 | the same on a log of events alone: two acquisitions with a well-formed history have a release by the first holder between them |
| `Agreement.StepAgrees` | KernelDataStructures/Scheduler/Scheduler.c:283-320 | a step keeps blockedMap and the lock, condition and pipe queues in agreement if and only if it is not an exit that wakes its parent out of such a queue |
| `Agreement.RunAgrees` | KernelDataStructures/Scheduler/Scheduler.c:248-281 | the agreement holds in every state of a run whose exits are all harmless |
| `Agreement.BlockedAndQueued` | KernelDataStructures/Scheduler/Scheduler.c:283-320 | a blocked process is in Wait or exactly once in the one queue its reason names; every lock or cvar queue entry is blocked, so a pop wakes it |
| `HarmfulExit.LostWakeup` | KernelDataStructures/Scheduler/Scheduler.c:265 | a concrete run in which a harmful exit leads to a state where the lock is free, a process is blocked waiting for it and no woken waiter is about to retry |
| `HarmfulExit.DoExit` | KernelDataStructures/Scheduler/Scheduler.c:248-281 | the exit step of that run is harmful and leaves the woken parent in the lock queue |
| `LockWakeups.StepAlert` | KernelCalls/LockKernelCalls.c:46-63 | a step loses a wake-up on a lock if and only if it is a Release, or a CvarWait, by the owner that leaves a queue behind, pops a process not blocked on the lock any more, and nobody else is about to retry |
| `LockWakeups.AlertUnlessLost` | KernelCalls/LockKernelCalls.c:27-63 | over any run every free lock with a queue has somebody about to retry, all the way, if and only if no such step was taken |
| `LockWakeups.CalmLosesNone` | KernelDataStructures/Scheduler/Scheduler.c:248-281 | runs without harmful exits have no such step |
| `LockWakeups.NoLostWakeup` | KernelCalls/LockKernelCalls.c:27-63 | as long as no step has lost a wake-up, a free lock with a non-empty queue has a waiter already popped that is ready or running and will retry |
| `Calls.RunParks` | KernelDataStructures/Scheduler/Scheduler.c:441-480 | in every state of every run a parked process is parked in the call that it made last, with that call's arguments |
| `Objects.StepNames` | KernelDataStructures/SyncObjects/Lock.c:16-38 | an init call makes one new object of its kind, with the next id, and no other step changes what the ids name |
| `Objects.NamesAreMade` | KernelDataStructures/SyncObjects/Lock.c:16-38 | in every state of every run an id names a lock exactly if it counts the init calls (of locks, condition variables and pipes together) before a LockInit of the run, and so for condition variables and pipes: no id is shared or reused |
| `ReturnCodes.ForkAnswers` | KernelCalls/GeneralKernelCalls.c:128-195 | over any run: a Fork makes a process exactly if memory suffices; if not it returns ERROR; if so there is one new process, its pid counts the Forks before it and was never in use, the caller gets that pid and goes to the tail of readyQ, the new one runs and gets SUCCESS |
| `ReturnCodes.PidsCount` | KernelDataStructures/Scheduler/Scheduler.c:37-44 | every Fork uses up one pid, failed ones included, and nothing else does |
| `ReturnCodes.ExitAnswers` | KernelCalls/GeneralKernelCalls.c:235-243 | the machine halts exactly when init exits, and a process ends exactly when it exits |
| `ReturnCodes.ExitWakesParent` | KernelDataStructures/Scheduler/Scheduler.c:248-281 | an exit readies the parent if it is blocked, on whatever, and nobody else, and the first in line runs |
| `ReturnCodes.DelayAnswers` | KernelCalls/GeneralKernelCalls.c:399-412 | Delay gives ERROR for a negative count, returns at once for 0, and sleeps and then gives SUCCESS for a positive one |
| `ReturnCodes.AcquireAnswers` | KernelCalls/LockKernelCalls.c:15-39 | an Acquire, or a CvarWait that was woken, returns exactly if nobody holds the lock by the calls of the run; then it gives SUCCESS, or ERROR if the lock was never made |
| `ReturnCodes.ReleaseAnswers` | KernelCalls/LockKernelCalls.c:41-64 | a Release returns at once, with SUCCESS exactly if the caller holds the lock by the calls of the run |
| `ReturnCodes.CvarAnswers` | KernelCalls/CVarKernelCalls.c:14-70 | a call on a condition variable that was never made gives ERROR at once; else Signal and Broadcast give SUCCESS at once and CvarWait goes to sleep |
| `ReturnCodes.PipeWriteAnswers` | KernelCalls/PipeKernelCalls.c:88-126 | a PipeWrite returns at once and is all or nothing: its length, its bytes being at the end of the pipe, exactly if the pipe was made and has room for all; else 0 for no bytes or ERROR, and the pipe is as it was |
| `ReturnCodes.PipeReadAnswers` | KernelCalls/PipeKernelCalls.c:14-85 | exactly when a PipeRead returns, with which code, and which bytes it takes off the front of the pipe; a woken reader that finds its queue empty gets ERROR |
| `ReturnCodes.TtyWriteAnswers` | KernelCalls/TtyKernelCalls.c:11-69 | a TtyWrite that returns gives its length, its bytes being the last that the terminal was given; ERROR for a negative length, 0 for none |
| `ReturnCodes.TtyReadAnswers` | KernelCalls/TtyKernelCalls.c:71-95 | a TtyRead returns exactly if it asked for nothing or the last line delivered has not been read to its end (a blank line: not at all) |
| `ReturnCodes.InitAnswers` | KernelDataStructures/SyncObjects/Lock.c:16-34 | the init calls return SUCCESS at once |
| `WaitOrder.StepMoves` | KernelDataStructures/Scheduler/Scheduler.c:299-435 | a step moves the line of a lock, a condition variable, the writers or the readers of a terminal as it should (who suspends there joins at the tail, whom the serving call readies leaves from the head) if and only if it does not take somebody off it who is not blocked |
| `WaitOrder.OrderedUnlessStale` | KernelDataStructures/Scheduler/Scheduler.c:299-435 | over any run a line is woken in arrival order all the way if and only if no such step was taken |
| `WaitOrder.FirstComeFirstServed` | KernelCalls/CVarKernelCalls.c:14-70 | without harmful exits: those whose calls went to sleep on a lock or a condition variable, in order, are those woken out of it, in order, followed by its queue |
| `WaitOrder.TerminalsInOrder` | KernelDataStructures/Scheduler/Scheduler.c:332-435 | the same for the writers and the readers of every terminal, in every run |
| `WaitOrder.CallsWakeDue` | KernelCalls/LockKernelCalls.c:41-64 | a Release (or CvarWait) by the holder and a Signal take the first off the line, a Broadcast all; those of them that are blocked, and nobody else, stop being so and join readyQ in order |
| `Pipes.ByteConservation` | KernelCalls/PipeKernelCalls.c:57-114 | over any run the bytes that the successful writes to a pipe were called with, in order, are those read from it followed by those in the buffer, within PIPE_MAX_BYTES |
| `Pipes.ReadsAreFull` | KernelCalls/PipeKernelCalls.c:57-84 | a read that succeeds returns the length it was called with and takes that many bytes |
| `Pipes.StepOrder` | KernelCalls/PipeKernelCalls.c:39-66 | a step breaks the order of service if and only if it resumes a reader that is not the head of its queue and finds enough bytes |
| `Pipes.OrderedUnlessOutOfTurn` | KernelCalls/PipeKernelCalls.c:42-66 | over any run the readers are served in arrival order all the way if and only if no such step was taken |
| `Pipes.FirstComeFirstServed` | KernelCalls/PipeKernelCalls.c:39-122 | without harmful exits: who got bytes, followed by the queue, is who asked for them, in order; all behind the head are blocked; a blocked head asks for more than there is |
| `StaleEntries.ReaderOvertakes` | KernelCalls/PipeKernelCalls.c:42-49 | a concrete run in which a reader woken by an exit behind the head of the queue gets its bytes before the head |
| `StaleEntries.SignalIsUsedUp` | KernelCalls/CVarKernelCalls.c:38-53 | a concrete run in which a signal is used up by the stale entry of a process that does not wait, so that the order of waking is lost |
| `StaleEntries.WaitIsCutShort` | KernelCalls/GeneralKernelCalls.c:263-273 | a concrete run in which a stale condition queue entry makes Wait return ERROR to a process with a live child |
| `TtyWrites.NeverInterleaved` | KernelCalls/TtyKernelCalls.c:38-67 | a terminal's output is the bytes of the calls that have returned, call after call, plus a prefix of the bytes of the call in progress, in batches of 1 to TERMINAL_MAX_LINE, whose caller stays the current transmitter |
| `TtyWrites.NoLostWriter` | KernelDataStructures/Scheduler/Scheduler.c:332-370 | a free terminal with waiting writers has one that is ready or running, about to retry |
| `TtyWrites.BatchesAreFull` | KernelCalls/TtyKernelCalls.c:47-62 | over any run the hardware is given TERMINAL_MAX_LINE bytes at a time, except for the last of a call, which is the rest of its bytes |
| `TtyWrites.TransmitGoesOn` | KernelDataStructures/Scheduler/Scheduler.c:372-399 | a process suspended in the middle of a write has a transmit trap to come, and this trap runs it at once and puts the interrupted process at the tail of readyQ |
| `TtyWrites.SomebodySends` | KernelDataStructures/Scheduler/Scheduler.c:372-399 | a terminal at work has such a process |
| `TtyReads.ReadsArePrefixes` | KernelDataStructures/TtyBuffer/TtyBuffer.c:55-118 | with n the sum of the return codes of the reads since the terminal delivered its last line: they have taken the first n bytes of it, the buffer holds the others, and isLineReady drops exactly at its end (a blank line: with the first read) |
| `TtyReads.ReadTakesNext` | KernelDataStructures/TtyBuffer/TtyBuffer.c:77-118 | a read that returns takes and reports the next bytes of the line: as many as it asked for, or all that are left |
| `TtyReads.NoLostReader` | KernelDataStructures/Scheduler/Scheduler.c:401-435 | a ready line with queued readers has a woken reader that is ready or running |
| `Sleepers.TickMeans` | KernelDataStructures/Scheduler/Scheduler.c:604-632 | one tick decrements every sleeper exactly once; those due join readyQ in traversal order, although the callback removes them from the map |
| `Sleepers.WakesOnTime` | KernelDataStructures/Scheduler/Scheduler.c:171-199 | a sleeper with n ticks to go has n - k after k clock traps and is back on readyQ at exactly the n-th |
| `Sleepers.DelaySleeps` | KernelCalls/GeneralKernelCalls.c:399-412 | Delay(n) with n > 0 puts the caller to sleep with n ticks to go |
| `Sleepers.StaysPositive` | KernelDataStructures/Scheduler/Scheduler.c:171-191 | every process left in sleepingMap has a positive count |
| `Fairness.BoundedWaiting` | KernelDataStructures/Scheduler/Scheduler.c:201-225 | the process at index k of readyQ runs by the time k + 1 clock traps have been taken, whatever happens between |
| `Fairness.ClockRotates` | TrapHandlers/TrapHandlers.c:96-104 | a clock trap runs the first in line; behind those who were ready come the sleepers whose time is up, in traversal order, and last the interrupted process |
| `Kinship.ExitWaitConservation` | KernelCalls/GeneralKernelCalls.c:245-284 | for every live process: what its Waits returned followed by zombieQ is the exits of the children it forked, all of them and in order; blocked in Wait it has no zombie; the live processes that point to it are its live children |
| `Kinship.WaitReturnsAChild` | KernelCalls/GeneralKernelCalls.c:263-283 | as long as nobody has been woken in vain, a Wait that blocked returns the pid of the next exited child, never ERROR |
| `Kinship.WaitGivesUp` | KernelCalls/GeneralKernelCalls.c:257-267 | Wait fails at once if and only if the caller has never forked; after that it blocks whenever nothing is uncollected, also with no child left |
| `Families.StepFeeds` | KernelDataStructures/Scheduler/Scheduler.c:265 | a step wakes a process in Wait with nothing to collect if and only if it pops, from a lock, condition or pipe queue, a process that is blocked in Wait by then |
| `Families.FedUnlessInVain` | KernelDataStructures/Scheduler/Scheduler.c:299-320 | over any run whoever is awake in Wait has something to collect, all the way, if and only if no such step was taken |
| `Families.CalmWakes` | KernelDataStructures/Scheduler/Scheduler.c:248-281 | runs without harmful exits have no such step |
| `KernelCode.Kernel.constructor` | Kernel.c:147-180 | the scheduler at the end of KernelStart: init runs, idle is ready |
| `KernelCode.Kernel.Handle` | TrapHandlers/TrapHandlers.c:11-160 | one uninterrupted stretch of kernel code is one step of the specification, and the whole history stays a run of it |
| `KernelCode.Kernel.SwitchToReady` | KernelDataStructures/Scheduler/Scheduler.c:286-295 | dequeue from readyQ and switch to what came |
| `KernelCode.Kernel.BlockProcess` | KernelDataStructures/Scheduler/Scheduler.c:283-296 | the caller enters blockedMap and the next ready process runs |
| `KernelCode.Kernel.UnblockProcess` | KernelDataStructures/Scheduler/Scheduler.c:299-320 | a blocked pid moves to the tail of readyQ, any other is left alone |
| `KernelCode.Kernel.SleepProcess` | KernelDataStructures/Scheduler/Scheduler.c:171-191 | the caller enters sleepingMap with its tick count |
| `KernelCode.Kernel.TickDownSleeper` | KernelDataStructures/Scheduler/Scheduler.c:604-632 | one sleeper counts down or moves to readyQ |
| `KernelCode.Kernel.TickDownSleepers` | KernelDataStructures/Scheduler/Scheduler.c:193-199 | the iteration over sleepingMap is the fold of the callback in traversal order |
| `KernelCode.Kernel.KickProcess` | KernelDataStructures/Scheduler/Scheduler.c:201-225 | round robin; nothing happens when readyQ is empty |
| `KernelCode.Kernel.ForkProcess` | KernelDataStructures/Scheduler/Scheduler.c:233-245 | the parent goes to the tail of readyQ and the child runs |
| `KernelCode.Kernel.ExitProcess` | KernelDataStructures/Scheduler/Scheduler.c:248-281 | zombie to the parent, wake-up of the parent whatever it waits for, children orphaned, process deleted, next one runs |
| `KernelCode.Kernel.RemoveParent` | KernelDataStructures/Scheduler/Scheduler.c:634-636 | exactly the listed children lose their parent pointer |
| `KernelCode.Kernel.KernelFork` | KernelCalls/GeneralKernelCalls.c:128-195 | the child knows its parent and the parent its child; both return codes; ERROR when memory is short |
| `KernelCode.Kernel.KernelExit` | KernelCalls/GeneralKernelCalls.c:235-243 | init's exit halts the machine, any other is exitProcess |
| `KernelCode.Kernel.KernelWait` | KernelCalls/GeneralKernelCalls.c:245-284 | ERROR without children, suspension without zombies, else the oldest zombie |
| `KernelCode.Kernel.FinishWait` | KernelCalls/GeneralKernelCalls.c:268-283 | after the wake-up: the oldest zombie, or ERROR when there is none |
| `KernelCode.Kernel.KernelDelay` | KernelCalls/GeneralKernelCalls.c:399-412 | ERROR, an immediate return or sleep by the sign of the argument |
| `KernelCode.Kernel.KernelAcquire` | KernelCalls/LockKernelCalls.c:15-39 | ERROR for an unknown lock, else the acquire loop |
| `KernelCode.Kernel.RetryAcquire` | KernelCalls/LockKernelCalls.c:27-38 | the loop from its test: queue and block while owned, else own |
| `KernelCode.Kernel.KernelRelease` | KernelCalls/LockKernelCalls.c:41-64 | only the owner releases; the first waiter is popped and woken |
| `KernelCode.Kernel.KernelCvarWait` | KernelCalls/CVarKernelCalls.c:14-36 | queue, release the lock if it is the caller's, block |
| `KernelCode.Kernel.KernelCvarSignal` | KernelCalls/CVarKernelCalls.c:38-53 | the first waiter, if any, is popped and woken |
| `KernelCode.Kernel.KernelCvarBroadcast` | KernelCalls/CVarKernelCalls.c:55-70 | the dequeue loop pops and wakes all, in order |
| `KernelCode.Kernel.KernelPipeRead` | KernelCalls/PipeKernelCalls.c:14-85 | argument checks, then queueing, then blocking unless at the head |
| `KernelCode.Kernel.RetryPipeRead` | KernelCalls/PipeKernelCalls.c:54-84 | the loop from its test: block, or take the bytes, leave the queue and wake the next reader if bytes remain |
| `KernelCode.Kernel.KernelPipeWrite` | KernelCalls/PipeKernelCalls.c:88-126 | all or nothing within PIPE_MAX_BYTES, then the head reader is woken |
| `KernelCode.Kernel.BlockTransmitter` | KernelDataStructures/Scheduler/Scheduler.c:332-346 | the caller joins the terminal's transmit queue |
| `KernelCode.Kernel.UnblockTransmitterOf` | KernelDataStructures/Scheduler/Scheduler.c:348-370 | the terminal is free and the first waiting writer is ready |
| `KernelCode.Kernel.BlockReader` | KernelDataStructures/Scheduler/Scheduler.c:401-415 | the caller joins the terminal's read queue |
| `KernelCode.Kernel.UnblockReaderOf` | KernelDataStructures/Scheduler/Scheduler.c:417-435 | the first waiting reader, if any, is ready |
| `KernelCode.Kernel.KernelTtyWrite` | KernelCalls/TtyKernelCalls.c:11-69 | argument checks, then the wait for the terminal |
| `KernelCode.Kernel.RetryTtyWrite` | KernelCalls/TtyKernelCalls.c:38-44 | the loop from its test: queue, or send the first batch |
| `KernelCode.Kernel.TransmitBatch` | KernelDataStructures/Scheduler/Scheduler.c:372-385 | the next batch goes out and the caller is parked as current transmitter |
| `KernelCode.Kernel.ContinueTtyWrite` | KernelCalls/TtyKernelCalls.c:49-67 | the batch loop from its test: another batch, or free the terminal and return the length |
| `KernelCode.Kernel.KernelTtyRead` | KernelCalls/TtyKernelCalls.c:71-95 | argument checks, then readBuffer |
| `KernelCode.Kernel.ReadBuffer` | KernelDataStructures/TtyBuffer/TtyBuffer.c:77-118 | the loop from its test: wait, or take part of the line and wake a reader, or take all of it |
| `KernelCode.Kernel.HandleTtyReceive` | KernelDataStructures/TtyBuffer/TtyBuffer.c:55-75 | a line replaces the buffer and wakes a reader; end of file empties it |
| `KernelCode.Kernel.HandleTtyTransmit` | KernelDataStructures/Scheduler/Scheduler.c:387-399 | the interrupted process is readied and the current transmitter runs |
| `KernelCode.Kernel.HandleTrapClock` | TrapHandlers/TrapHandlers.c:96-104 | tick down, then kick |
| `KernelCode.Kernel.HandleTrapKernel` | TrapHandlers/TrapHandlers.c:11-94 | each call's effect, and its return code in the caller's register |
| `KernelCode.Kernel.ResumeCall` | KernelDataStructures/Scheduler/Scheduler.c:441-480 | a process switched in goes on where its call was parked |
| `Hardware.PagesBelowMeans` | KernelCalls/GeneralKernelCalls.c:326-365 | the rounding used by the break code is ceil(addr / PAGESIZE): the least page boundary at or above an address |
| `FrameLists.FrameList.constructor` | KernelDataStructures/FrameList/FrameList.c:6-27 | one entry per frame, in order, free unless in use at boot |
| `FrameLists.FrameList.GetFrame` | KernelDataStructures/FrameList/FrameList.c:29-48 | the lowest free frame, or ERROR exactly when none is free (the bound tested first) |
| `FrameLists.FrameList.FreeFrame` | KernelDataStructures/FrameList/FrameList.c:50-60 | that frame becomes free; a number that is no frame changes nothing |
| `FrameLists.FrameList.CountIsSize` | KernelDataStructures/FrameList/FrameList.c:29-48 | the count that the memory results speak of is the number of free frames |
| `PageTables.FreshTable` | KernelDataStructures/PageTable/PageTable.c:8-24 | all entries invalid |
| `PageTables.VirtualAddrInverts` | KernelDataStructures/PageTable/PageTable.c:33-55 | the address of an entry in use gives back its page in either region; an entry of any other table gives ERROR |
| `PageTables.RegionOfPage` | KernelDataStructures/PageTable/PageTable.c:91-102 | the region test is a test on page numbers |
| `Ownership.OneOwner` | KernelDataStructures/FrameList/FrameList.c:29-60 | no two slots (region 0 page, region 1 page, kernel-stack page) hold the same frame, and a held frame is not free |
| `Ownership.FramesConserved` | KernelDataStructures/Scheduler/Scheduler.c:566-598 | free + held + leaked frames is the number of frames, and exactly the free and leaked ones are in no slot |
| `Lifetimes.Isolated` | KernelCalls/GeneralKernelCalls.c:128-195 | two processes have no frame in common |
| `Lifetimes.OthersDoNotSee` | KernelCalls/GeneralKernelCalls.c:140-167 | what one process stores in its pages changes no byte another can read |
| `Lifetimes.JunkHarmless` | KernelDataStructures/Scheduler/Scheduler.c:70-78 | giving back unfilled stackPfns entries keeps the accounts right if and only if none of them names a frame in use |
| `Lifetimes.JunkInUse` | KernelDataStructures/Scheduler/Scheduler.c:73-75 | in every state, giving back the number of any frame in use makes that frame in use and free at once |
| `Lifetimes.BuryAccounted` | KernelDataStructures/Scheduler/Scheduler.c:566-598 | deleting a process frees exactly its frames |
| `Lifetimes.AbandonAccounted` | KernelCalls/GeneralKernelCalls.c:153 | a child forgotten by an early return leaks exactly its frames |
| `Mmu.FlushedTranslating` | KernelDataStructures/PageTable/PageTable.c:63-69 | changing an entry in use and flushing its page keeps the TLB coherent |
| `Mmu.UnloadedTranslating` | KernelDataStructures/PageTable/PageTable.c:75-79 | an entry of a table that is not loaded may change without a flush |
| `Mmu.LoadedTranslating` | KernelDataStructures/Scheduler/Scheduler.c:473-476 | loading another table and flushing region 1 keeps the TLB coherent |
| `Breaks.BreakMeans` | KernelCalls/GeneralKernelCalls.c:291-397 | if the new break is below the stack: exactly the pages below ceil(brk / PAGESIZE) and the stack are mapped, one frame per page crossed, none lost |
| `Breaks.BreakLeaks` | KernelCalls/GeneralKernelCalls.c:294-296 | a growing break loses frames if and only if it meets a page already mapped before it gets there or the frames run out |
| `Breaks.BreakIntoStack` | KernelCalls/GeneralKernelCalls.c:294-296 | a break that reaches the stack loses the frame of the stack's lowest page |
| `Breaks.KernelBreakLeaks` | Kernel.c:189-200 | the kernel's break loses frames if and only if it reaches the page of the terminals' buffers or meets a page that is mapped already |
| `Breaks.BreakKeepsGap` | Kernel.c:241-297 | when nothing is mapped above a break, nothing is afterwards if and only if the move succeeds or no frame was free: a break that fails half way leaves mapped pages above itself |
| `Breaks.BreakKeepsIntervals` | KernelCalls/GeneralKernelCalls.c:291-397 | heap and stack stay two intervals if and only if the break has moved to somewhere below the stack, or has failed without mapping a page between them |
| `Breaks.ProgramIntervals` | LoadProgram.c:190-281 | a loaded program has heap and stack as two intervals |
| `Forking.ForkIntervals` | KernelCalls/GeneralKernelCalls.c:151-170 | a child has the intervals of its parent |
| `Breaks.KernelBreakKeeps` | Kernel.c:189-200 | the kernel's heap ends below the buffers and they keep their frame if and only if the break stays below them |
| `Breaks.BreakIntoSpare` | Kernel.c:109-111 | a kernel break up to the kernel stack has a heap page in the spare page, with a frame that no owner gives back |
| `Forking.ForkOverHeap` | KernelCalls/GeneralKernelCalls.c:156-167 | a fork after that takes the heap page away: it shows the child's page, and its own frame is in no entry any more |
| `Breaks.StackGrowth` | TrapHandlers/TrapHandlers.c:111-145 | stack growth keeps heap and stack two intervals with an unmapped page under the stack |
| `Forking.CopiedByFork` | KernelCalls/GeneralKernelCalls.c:128-195 | copying the pages and then the kernel stack makes a full copy of the parent in frames that were free |
| `Forking.ForkedBy` | KernelCalls/GeneralKernelCalls.c:151-170 | one round of the copying loop, with its two page table entries and one frame |
| `PhysicalMemory.EnableVm` | Kernel.c:60-104 | the frame list, region 0 one to one, virtual memory on: the memory invariants hold from here; the kernel's heap is mapped up to its break, and no frame lost, if and only if the break is at the start of a page |
| `PhysicalMemory.Memory.InitBuffers` | KernelDataStructures/TtyBuffer/TtyBuffer.c:19-32 | the page below the spare page gets a frame, or ERROR exactly when none is free |
| `PhysicalMemory.StartMemory` | Kernel.c:60-118 | after virtual memory and the buffers: all memory invariants hold if and only if the kernel's break is at the start of a page, else the frame of its page is lost; nothing is mapped between it and the buffers |
| `PhysicalMemory.Memory.MakeIdle` | Kernel.c:137-141 | initProcess and LoadIdle for idle keep the invariants |
| `PhysicalMemory.Memory.LoadIdle` | LoadProgram.c:331-356 | idle gets one stack page at the top of region 1 and nothing else |
| `PhysicalMemory.Memory.SetPageTableEntryNoFlush` | KernelDataStructures/PageTable/PageTable.c:75-79 | for a table not in use the TLB stays coherent without a flush |
| `PhysicalMemory.Memory.SetPageTableEntry` | KernelDataStructures/PageTable/PageTable.c:63-69 | the entry is set, its page flushed and only it, the TLB coherent |
| `PhysicalMemory.Memory.InvalidatePageTableEntry` | KernelDataStructures/PageTable/PageTable.c:82-89 | the entry is invalid but keeps its frame number; flushed |
| `PhysicalMemory.Memory.Translate` | KernelDataStructures/PageTable/PageTable.c:57-62 | the MMU through the TLB always gives the entry of the tables in use |
| `PhysicalMemory.Memory.MapPage` | KernelCalls/GeneralKernelCalls.c:387-388 | one page gets one free frame; a frame it had before is lost; ERROR only without free frames |
| `PhysicalMemory.Memory.UnmapPage` | KernelCalls/GeneralKernelCalls.c:338-339 | one page gives its frame back |
| `PhysicalMemory.Memory.MapPages` | KernelCalls/GeneralKernelCalls.c:386-392 | pages mapped one by one, upwards, until frames run out |
| `PhysicalMemory.Memory.UnmapPages` | KernelCalls/GeneralKernelCalls.c:337-343 | pages freed one by one |
| `PhysicalMemory.Memory.LowerBreak` | KernelCalls/GeneralKernelCalls.c:317-344 | pages between the two ceilings freed one by one |
| `PhysicalMemory.Memory.RaiseBreak` | KernelCalls/GeneralKernelCalls.c:369-393 | pages between the two ceilings mapped one by one, as far as the free frames go |
| `PhysicalMemory.Memory.MoveBreak` | KernelCalls/GeneralKernelCalls.c:302-393 | all branches of the break code: pages between the old and the new ceiling, each once; on ERROR the mapped prefix |
| `PhysicalMemory.Memory.KernelBrk` | KernelCalls/GeneralKernelCalls.c:291-397 | region check, break moved, memory below every break stays mapped, all memory invariants kept on success and on ERROR |
| `PhysicalMemory.Memory.SetKernelBrk` | Kernel.c:183-298 | the region 0 twin for every address that the code accepts; all memory invariants hold afterwards if and only if the break got no further than the terminals' buffers |
| `PhysicalMemory.Memory.HandleTrapMemory` | TrapHandlers/TrapHandlers.c:111-145 | killed if and only if the address is within a page of the break or fewer frames are free than pages missing; else every page from the address up is mapped, old ones untouched |
| `PhysicalMemory.Memory.FillStack` | TrapHandlers/TrapHandlers.c:125-145 | its loop: from the top of region 1 down to the page, as far as the free frames go |
| `PhysicalMemory.Memory.ClearRegion1` | LoadProgram.c:183-189 | every mapped page of region 1 freed |
| `PhysicalMemory.Memory.ProtectText` | LoadProgram.c:277-281 | text pages readable and executable, frames unchanged |
| `PhysicalMemory.Memory.LoadProgram` | LoadProgram.c:120-281 | ERROR exactly by the size check and then nothing changed; SUCCESS if and only if the free frames and those of the old program suffice, with the text, data and stack layout and the break above the data; no frame lost |
| `PhysicalMemory.Memory.KernelExec` | KernelCalls/GeneralKernelCalls.c:197-233 | LoadProgram, then the starter kernel stack, or the end of the process on KILL (of init: the machine halts); exactly when which; tables, control blocks and bytes of the other processes untouched |
| `PhysicalMemory.Memory.SwitchBetween` | KernelDataStructures/Scheduler/Scheduler.c:441-480 | kernel-stack entries are the next process's stackPfns, its table is loaded, the TLB coherent; a new process gets the starter stack |
| `PhysicalMemory.Memory.Dispatch` | KernelDataStructures/Scheduler/Scheduler.c:283-296 | the switch that ends a suspension keeps all memory invariants, every address space and every other process's bytes |
| `PhysicalMemory.Memory.RestoreStarterStack` | KernelDataStructures/Scheduler/Scheduler.c:468 | the starter stack is written to the process's own frames and nowhere else |
| `PhysicalMemory.Memory.TakeStackFrames` | KernelDataStructures/Scheduler/Scheduler.c:70-78 | KERNEL_STACK_MAXSIZE / PAGESIZE different free frames, or ERROR with every entry given back |
| `PhysicalMemory.Memory.InitPcb` | KernelDataStructures/Scheduler/Scheduler.c:37-82 | a new process with empty region 1 and its own kernel stack |
| `PhysicalMemory.Memory.KernelExit` | KernelDataStructures/Scheduler/Scheduler.c:566-598 | every frame of the process is free again, other address spaces untouched, the next process in place |
| `PhysicalMemory.Memory.ForkPage` | KernelCalls/GeneralKernelCalls.c:151-167 | the page is copied through the spare page to a frame that was free, with the parent's protection |
| `PhysicalMemory.Memory.CopyRegion1` | KernelCalls/GeneralKernelCalls.c:151-171 | the loop over region 1, SUCCESS if and only if there is a free frame for every mapped page, else up to where frames ran out |
| `PhysicalMemory.Memory.ForkTo` | KernelDataStructures/Scheduler/Scheduler.c:487-530 | the child runs on a copy of the parent's kernel stack, in its own frames; TLB coherent, spare page unmapped |
| `PhysicalMemory.Memory.KernelFork` | KernelCalls/GeneralKernelCalls.c:128-195 | SUCCESS if and only if the free frames suffice for kernel stack and mapped pages, and then a copy of the parent and no other byte changed; ERROR: which frames leaked, and the invariants kept, for initPCB if and only if its junk is harmless |
| `PhysicalMemory.Memory.UserStore` | KernelCalls/GeneralKernelCalls.c:140-146 | a store by the running program leaves all other processes' memory as it was |
| `ArgStack.LayoutFits` | LoadProgram.c:92-103 | the table ends below the strings and everything lies inside the stack_npg pages |
| `ArgStack.LayoutIsTight` | LoadProgram.c:92-113 | the table is at the highest double word below the strings that leaves room for it and POST_ARGV_NULL_SPACE words; stack_npg is the least number of pages that hold INITIAL_STACK_FRAME_SIZE bytes below it |
| `ArgStack.AcceptedFits` | LoadProgram.c:120-123 | an accepted argument list gets its stack inside region 1 with a page between it and the heap |
| `ArgStack.ArgsRoundTrip` | LoadProgram.c:306-316 | decoding argc, argv and the strings from the image gives back the arguments |
| `Loading.ArgumentsMapped` | LoadProgram.c:92-123 | every address of the argument stack is in a page that the loaded program can read and write |
| `Loading.LoadWithArguments` | LoadProgram.c:92-281 | LoadProgram with the stack pages that the arguments need: exactly when it succeeds, and then the argument stack is mapped from INITIAL_STACK_FRAME_SIZE bytes below the table on, and heap and stack are apart |
| `ArgBuilder.SaveArgs` | LoadProgram.c:147-159 | the saved buffer is the arguments one after the other, each with its NUL |
| `ArgBuilder.StoreArg` | LoadProgram.c:308-313 | one pointer and one string written, the earlier ones intact |
| `ArgBuilder.BuildStack` | LoadProgram.c:302-316 | the finished stack image decodes to the arguments |
| `Queues.Queue.constructor` | GeneralDataStructures/Queue/Queue.c:17-24 | an empty queue |
| `Queues.Queue.Enqueue` | GeneralDataStructures/Queue/Queue.c:39-62 | the item is appended |
| `Queues.Queue.Dequeue` | GeneralDataStructures/Queue/Queue.c:64-76 | the first item is taken off, NULL when there is none |
| `Queues.Queue.Peek` | GeneralDataStructures/Queue/Queue.c:92-95 | the first item without taking it |
| `Queues.Queue.Drain` | GeneralDataStructures/Queue/Queue.c:26-37 | all items in order |
| `ByteBuffers.ByteBuffer.Append` | KernelCalls/PipeKernelCalls.c:105-114 | bytes are appended, all or none |
| `ByteBuffers.ByteBuffer.TakeFront` | KernelCalls/PipeKernelCalls.c:66-74 | the first bytes are taken and the rest moved down in place |
| `ByteBuffers.ByteBuffer.Fill` | KernelDataStructures/TtyBuffer/TtyBuffer.c:56-68 | a new line replaces the old contents |
| `SetChains.SetChain.Insert` | GeneralDataStructures/HashMap/set.c:39-73 | a new key goes to the head; ERROR exactly for a key that is there |
| `SetChains.SetChain.Find` | GeneralDataStructures/HashMap/set.c:77-95 | the item of the key, or NULL |
| `SetChains.SetChain.Remove` | GeneralDataStructures/HashMap/set.c:118-153 | that node and no other leaves the chain |
| `SetChains.SetChain.Visit` | GeneralDataStructures/HashMap/set.c:99-114 | one call of the callback, which may remove the current node |
| `SetChains.SetChain.Iterate` | GeneralDataStructures/HashMap/set.c:99-114 | every node visited exactly once although the callback removes nodes on the way; the removed keys in the order of the chain |
| `SetChains.WithoutIsMap` | GeneralDataStructures/HashMap/set.c:118-153 | removal in the chain is removal in the map |
| `SetChains.VisitedIsMap` | GeneralDataStructures/HashMap/set.c:99-114 | iteration in the chain is pointwise change of the map |
| `HashMaps.HashMap.constructor` | GeneralDataStructures/HashMap/HashMap.c:23-41 | all buckets empty |
| `HashMaps.HashMap.Insert` | GeneralDataStructures/HashMap/HashMap.c:45-55 | the map gains the key, or ERROR if it has it |
| `HashMaps.HashMap.Find` | GeneralDataStructures/HashMap/HashMap.c:59-66 | the item of the key |
| `HashMaps.HashMap.Remove` | GeneralDataStructures/HashMap/HashMap.c:83-90 | the map loses the key |
| `HashMaps.HashMap.Iterate` | GeneralDataStructures/HashMap/HashMap.c:70-79 | every bucket visited once; the removed keys in bucket order |
| `HashMaps.GetIsMap` | GeneralDataStructures/HashMap/HashMap.c:59-66 | looking in one bucket finds what all buckets together hold |
| `HashMaps.IterationMeans` | GeneralDataStructures/HashMap/HashMap.c:70-79 | each key's item is given to the callback exactly once |
| `TickMaps.TickRefines` | KernelDataStructures/Scheduler/Scheduler.c:193-199 | tickDownSleepers on the real hash map is the clock step of the scheduler: its traversal lists every sleeper once, and the sleepers it removes are those that join readyQ, in that order |

## Left out

- File reading and the executable format in LoadProgram (open, LoadInfo, lseek, read, bzero of the
  uninitialised data): the sizes of a well-formed program, text from page 0 and data right above
  it, are arguments; the contents of its pages are not modelled.
- KernelContextSwitch, saved registers, Halt and TracePrintf: only the change of process, tables,
  kernel stack and TLB is kept. A halted machine makes no further steps.
- KernelStart: the scheduler starts at its end; the memory model starts where virtual memory is
  enabled and takes the contents of memory and the addresses of the page tables as arguments. The
  terminals' buffers are taken to need one page.
- SetKernelBrk before virtual memory is enabled, when it only sets a variable.
- The scheduler machine and the memory machine are separate, and so are the loader's pages and the bytes
  of the argument stack that go into them: Exec, Brk and memory traps are steps of
  the second only, and whether Fork finds memory is an argument of the first.
- KernelReclaim and deleteLock, deleteCvar, deletePipe: they take an object out of its map before
  they look for users, so no wait-queue property survives them.
- isValidBuffer and isValidString: user pointers and terminal numbers are taken to be valid, and calls
  get their bytes as arguments.
- KernelCode.Kernel.KernelWait: the region and protection checks of the status pointer are not
  modelled; the exit status is in what the call takes from zombieQ.
- KernelCode.Kernel.KernelTtyWrite: the checks of the buffer's address and protection are not modelled.
- KernelCode.Kernel.KernelTtyRead: the checks of the buffer's address and protection are not modelled.
- KernelCode.Kernel.HandleTrapKernel: Exec, Brk and GetPid, which touch nothing that the scheduler
  does, and Reclaim are not among its calls.
- Failure of malloc; negative hash keys; wrap-around of 32-bit counters and addresses.
- Mutex.MutualExclusion: a PCB pointer is modelled as a pid, and pids are never reused. In C a lock may
  still be owned by a PCB that has been freed, and a new process whose PCB gets the same address then
  owns it (LockKernelCalls.c:46-51); such an inheritance of a dead owner's lock is not expressible.
- KernelCode.Kernel.KernelFork: for the same reason the use of a PCB after it has been freed is not
  modelled: KernelFork reads childPCB->pid when the parent runs again (GeneralKernelCalls.c:186-190),
  by which time the child may have been deleted.
- KernelCode.Kernel.RemoveParent: it writes to the PCBs of children that were deleted before
  (Scheduler.c:269, 634-636); in the model those children are no processes any more.
- The order in which a hash map is traversed is an argument of the clock step (any order of its keys);
  `TickMaps.TickRefines` gives the order of the real map.
- Page tables are sequences in a map and a `struct pte *` is a table and an index: writing through a
  stale pointer to a freed table is not expressible. The scheduler's queues, maps and buffers are
  sequences and maps in `KernelCode`; the linked and in-place versions are verified on their own.
- idle's break, which the C code never sets, is the bottom of region 1.
- Memory contents are whole pages; the argument stack alone is modelled in bytes.
- KernelGetPid, the disk, illegal-instruction and math handlers, where the init functions of locks,
  condition variables and pipes store the new id, and the user programs under test/.
- The `Stuck` mode stands for the ERROR returns of the scheduler's own primitives;
  `Location.IdleNeverLeaves` shows that it is never reached.
