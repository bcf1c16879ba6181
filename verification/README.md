# TinyOS-3, modelled in Dafny

A model of the TinyOS-3 kernel's protocols, and proofs about every run of them.
Each core is a state machine whose steps are the sections of code that a lock
makes atomic; any number of threads, cores and processes interleave in any way.
Beside each state machine stands a class whose methods do what the C functions
do, field by field and loop by loop, and are proved to compute its steps.

`dafny verify dfyconfig.toml` checks the whole project.

The layers, from the bottom:

- `Rings`, `Lists`, `ListLoops`: the intrusive circular lists of `util.h`, on a
  heap of nodes. Everything comes from one splice.
- `SchedModel`, `SchedInvariant`, `SchedSwitch`, `SchedBoost`, `SchedRuns`,
  `SchedExample`, `Scheduler`: the multicore scheduler. One step is one section of
  `sched_spinlock`; between the sections of `yield` and `gain` a core is on its
  way from one thread to another.
- `CondVarModel`, `CondVarInvariant`, `CondVarRuns`, `WaitRings`: condition
  variables, in steps as small as one flag of a waiter record, where signals
  race with timeouts. They are proved to refine a monitor with one queue per
  condition, which the layers above use.
- `KernelLockModel`, `KernelLockRuns`, `KernelLock`: the kernel semaphore built
  as a monitor, and the waits that give it up. Everything above runs with it
  held between two waits.
- `PipeModel`, `PipeRuns`, `Pipe`; `StreamModel`, `StreamRuns`, `StreamCalls`,
  `Streams`; `PipeStreams`: pipes, reference-counted streams, and the two
  together, where what the pipe takes for granted about its ends is derived
  from the counts.
- `ProcModel`, `ProcInvariant`, `ProcRuns`, `ProcExample`, `Processes`: the
  process forest. `ThreadModel`, `ThreadRuns`, `Threads`: join, detach and exit.
  `ProcThreads`: the two together, where the counter of threads decides when a
  process ends.
- `SymposiumModel`, `SymposiumRuns`, `Symposium` and `Barrier`: two client
  monitors, with theorems about their whole runs.
- `Sequences`: what they share about sequences.

A run is a sequence of states and actions from the initial state. History that
the code does not store (bytes accepted so far, how often an FCB was closed, who
has arrived at a barrier) is part of the modelled state and decides nothing.

Assumptions, which the code makes of its environment: a `Tid_t` is not used
again; the byte counts of reads and writes are below 2^31; barrier callers agree
on n and the epoch does not wrap around. The clock is an arbitrary number given
to a step, and a context switch is a change of the current thread.

Where code and documentation disagree, the model follows the code:

- `rlist_pop_back` (`util.h:449-456`) is documented to remove the tail. Spliced
  with the sentinel's predecessor, it takes the whole list off the sentinel; it
  removes the tail alone just when the list has one element.
- The invariant in `kernel_sched.h:57-62` needs two qualifications: idle threads
  are never queued, and a thread just selected is READY, CLEAN and off its queue
  until its core reaches `gain`. With these it is an if-and-only-if, and
  `SchedExample` reaches a thread of either kind.
- In `yield`, SCHED_QUANTUM at priority 0 falls through and raises the
  priority; it lowers it just when it was above 0. SCHED_IO at the top falls
  into the SCHED_MUTEX case; it raises the priority just when it was below the
  top.
- `FCB_reserve` is documented to leave the state unchanged on failure. When the
  FCBs run out, the free list comes back reversed; as a set it is unchanged. So
  it keeps its order just when the fids ran out first or at most one FCB was
  left, which covers every call for one FCB or two, and the kernel makes no
  other; a call for three can reorder it in a state that a run reaches.
- `WaitChild` is documented to answer with a child of the caller
  (`tinyos.h:258-279`). `wait_for_specific_child` makes sure of that before its
  first wait only (`kernel_proc.c:280`). Along a run every answer is right, and
  the process table too, just when no thread resumes a wait for a pid that would
  not pass that test any more, and pid 1 does not end with children left, which
  the code asserts. Two threads that ask for the same child can get there, and
  then the PCB is freed twice. Threads that all ask for any child, or for
  different ones, cannot.
- A timeout that, added to the clock on 64 bits, comes out as NO_TIMEOUT leaves
  a thread on the timeout list marked as not being there. The invariant holds
  along a run just when no sleep does that.

## Model

| member | source | states |
|---|---|---|
| `Rings.SpliceKeepsWellFormed` | TinyOS_3/TinyOS_3/util.h:147-149 | splicing any two nodes of any heap of rings keeps prev and next mutually inverse |
| `Rings.SpliceIsItsOwnInverse` | TinyOS_3/TinyOS_3/util.h:160-161 | a splice is reversed by repeating it, whatever the two nodes are |
| `Rings.SpliceJoins` | TinyOS_3/TinyOS_3/util.h:171-174 | two nodes of different rings: [a, x...] [b, y...] becomes the one ring [a, y..., b, x...] |
| `Rings.SpliceSplits` | TinyOS_3/TinyOS_3/util.h:171-174 | two nodes of one ring: [a, x..., b, y...] becomes the rings [a, y...] and [b, x...] |
| `Rings.SpliceSplitsOrJoins` | TinyOS_3/TinyOS_3/util.h:154-157 | any two different nodes fall under exactly one of the two equations: every heap with inverse pointers is made of rings |
| `Rings.SpliceFrames` | TinyOS_3/TinyOS_3/util.h:393-398 | a ring that neither node is on is untouched, in its prev pointers too |
| `Rings.EveryNodeIsOnARing` | TinyOS_3/TinyOS_3/util.h:141-152 | inverse pointers alone put every node of a finite heap on a ring |
| `Rings.RingRotates` | TinyOS_3/TinyOS_3/util.h:150-152 | a ring may be written from any of its nodes |
| `Rings.Node.constructor` | TinyOS_3/TinyOS_3/util.h:346-350 | a new node is a singleton ring |
| `Lists.Splice` | TinyOS_3/TinyOS_3/util.h:393-398 | the four pointer writes, in place, are the splice, and the second node is returned; the mutual inverse survives |
| `Lists.PushFront` | TinyOS_3/TinyOS_3/util.h:417-426 | pushing a ring to the front inserts its nodes, the pushed one last, before the list, and touches no other ring |
| `Lists.PushBack` | TinyOS_3/TinyOS_3/util.h:428-437 | pushing a ring to the back inserts its nodes after the list, the pushed one last, and touches no other ring |
| `Lists.PushFrontNode` | TinyOS_3/TinyOS_3/util.h:426 | the in-place operation has that effect on the heap |
| `Lists.PushBackNode` | TinyOS_3/TinyOS_3/util.h:437 | the in-place operation has that effect on the heap |
| `Lists.RemoveAt` | TinyOS_3/TinyOS_3/util.h:400-408 | removing the i-th node leaves the list without it, the node a singleton, and every other ring as it was |
| `Lists.RemoveNode` | TinyOS_3/TinyOS_3/util.h:408 | the in-place operation has that effect, and returns the node |
| `Lists.PopFront` | TinyOS_3/TinyOS_3/util.h:439-448 | popping takes exactly the head; from an empty list nothing changes |
| `Lists.PopFrontNode` | TinyOS_3/TinyOS_3/util.h:448 | the in-place operation returns the head as a singleton, or the sentinel of an empty list |
| `Lists.PopBackTakesOnlyTheTailIff` | TinyOS_3/TinyOS_3/util.h:450-456 | the documentation promises that only the tail is removed: the code does that just when the list has one element |
| `Lists.PopBackNode` | TinyOS_3/TinyOS_3/util.h:456 | what the code does: it returns the last node, with all the other nodes still on its ring, and leaves the list empty; other rings stay |
| `Lists.Append` | TinyOS_3/TinyOS_3/util.h:497-509 | [dest, X...] [src, Y...] becomes [dest, X..., Y...] [src] |
| `Lists.Prepend` | TinyOS_3/TinyOS_3/util.h:511-523 | [dest, X...] [src, Y...] becomes [dest, Y..., X...] [src] |
| `Lists.AppendList` | TinyOS_3/TinyOS_3/util.h:505-509 | the in-place append concatenates and leaves the source empty |
| `Lists.PrependList` | TinyOS_3/TinyOS_3/util.h:519-523 | the in-place prepend concatenates the other way round and leaves the source empty |
| `Lists.IsEmpty` | TinyOS_3/TinyOS_3/util.h:415 | the test is true just of the empty list |
| `ListLoops.Len` | TinyOS_3/TinyOS_3/util.h:464-473 | the loop counts the nodes of the list |
| `ListLoops.Equal` | TinyOS_3/TinyOS_3/util.h:475-495 | true just when the two key sequences are equal, lengths included |
| `ListLoops.Find` | TinyOS_3/TinyOS_3/util.h:540-560 | the first node with the key, or the given node just when no key matches |
| `ListLoops.FlippedRing` | TinyOS_3/TinyOS_3/util.h:525-529 | exchanging prev and next all round a ring reverses its list and nothing else |
| `ListLoops.ReverseList` | TinyOS_3/TinyOS_3/util.h:530-538 | the loop, which walks the ring backwards while it flips it, reverses the list in place |
| `ListLoops.Select` | TinyOS_3/TinyOS_3/util.h:562-579 | a stable partition: the nodes that satisfy the predicate go, in order, to the end of the other list; the rest stay in order; no ring but the two lists is touched; the loop ends |
| `SchedRuns.RunsKeepInvIff` | TinyOS_3/TinyOS_3/kernel_sched.c:287-565 | along a run of spawns, boots, wakeups, sleeps, yields and gains, interleaved in any way on any number of cores, the invariant of queues, timeouts, threads and cores holds all the time if and only if no sleep registers NO_TIMEOUT for a wakeup time |
| `SchedRuns.NextKeepsInvIff` | TinyOS_3/TinyOS_3/kernel_sched.c:287-565 | one section of any kind keeps the invariant if and only if it is not such a sleep |
| `SchedRuns.RunsKeepInv` | TinyOS_3/TinyOS_3/kernel_sched.c:287-565 | so it holds in every state reached without such a sleep; the claims about reachable states below are about these |
| `SchedRuns.QueuedIffReadyAndClean` | TinyOS_3/TinyOS_3/kernel_sched.h:57-62 | a NORMAL thread is in a queue if and only if it is READY, CTX_CLEAN and not just picked by a core; then in one only, once, at its priority |
| `SchedRuns.IdleThreadsAreNeverQueued` | TinyOS_3/TinyOS_3/kernel_sched.c:540-546 | an idle thread is in no queue, although it may be READY and CLEAN |
| `SchedRuns.NoThreadOnTwoCores` | TinyOS_3/TinyOS_3/kernel_sched.c:494-507 | no thread is current on two cores, nor current on one while another has still to switch away from it |
| `SchedRuns.NoReadyThreadIsLost` | TinyOS_3/TinyOS_3/kernel_sched.c:299-305 | a READY thread is queued or in the hands of a core: a thread woken while DIRTY is not forgotten |
| `SchedRuns.YieldSwitchesToCleanContext` | TinyOS_3/TinyOS_3/kernel_sched.c:494-507 | yield swaps only to a READY thread with a CLEAN context, or does not swap |
| `SchedRuns.TimeoutListIsExact` | TinyOS_3/TinyOS_3/kernel_sched.c:250-266 | TIMEOUT_LIST is sorted, holds exactly the STOPPED threads with a wakeup time, each once, and shares no node with a queue |
| `SchedRuns.YieldWakesExactlyTheExpired` | TinyOS_3/TinyOS_3/kernel_sched.c:313-324 | the scan that stops at the first later time wakes all and only the threads whose time has come |
| `SchedRuns.ExpiryOf` | TinyOS_3/TinyOS_3/kernel_sched.c:313-324 | what the scan does to the entry of any one thread |
| `SchedInvariant.RegisterKeepsTimeoutsIff` | TinyOS_3/TinyOS_3/kernel_sched.c:250-266 | registering keeps TIMEOUT_LIST right if and only if clock plus timeout, on 64 bits, does not come out as NO_TIMEOUT |
| `SchedInvariant.InsertIndex` | TinyOS_3/TinyOS_3/kernel_sched.c:257-264 | a thread is registered after all that are due no later than it, and before the others |
| `SchedInvariant.MakeReadyKeepsInv` | TinyOS_3/TinyOS_3/kernel_sched.c:287-305 | making a sleeper ready keeps the invariant |
| `SchedInvariant.MakeReadyQueuesIffClean` | TinyOS_3/TinyOS_3/kernel_sched.c:287-305 | a sleeper leaves the timeout list, becomes READY, and is queued, as the last at its priority, if and only if it is CLEAN; nobody else is touched |
| `SchedInvariant.WakeupKeepsInv` | TinyOS_3/TinyOS_3/kernel_sched.c:361-383 | wakeup keeps the invariant, also of a thread whose context is still DIRTY |
| `SchedInvariant.SleepKeepsInvIff` | TinyOS_3/TinyOS_3/kernel_sched.c:388-418 | the section of sleep_releasing keeps the invariant if and only if the thread exits, or clock plus timeout does not come out as NO_TIMEOUT |
| `SchedSwitch.SelectKeepsInv` | TinyOS_3/TinyOS_3/kernel_sched.c:332-356 | a selection keeps the invariant |
| `SchedSwitch.SelectTakesOnlyOne` | TinyOS_3/TinyOS_3/kernel_sched.c:332-356 | only the selected thread leaves its queue, every other entry stays, and the thread is on no other core |
| `SchedSwitch.GainKeepsInv` | TinyOS_3/TinyOS_3/kernel_sched.c:527-557 | gain keeps the invariant |
| `SchedSwitch.GainDisposesOfThePrevious` | TinyOS_3/TinyOS_3/kernel_sched.c:538-555 | the previous thread becomes CLEAN; it is released just when it is EXITED, queued last at its priority when READY and not idle, and left where it is otherwise |
| `SchedSwitch.GainRunsTheCurrent` | TinyOS_3/TinyOS_3/kernel_sched.c:531-536 | the current thread becomes RUNNING and DIRTY, and nobody but these two is touched |
| `SchedSwitch.GainDefined` | TinyOS_3/TinyOS_3/kernel_sched.c:542-554 | the previous thread is never INIT or RUNNING, so the assertion in gain holds |
| `SchedRuns.StoppedUntilWoken` | TinyOS_3/TinyOS_3/kernel_sched.c:361-383 | a sleeper without a timeout stays STOPPED through every step but its own wakeup |
| `SchedRuns.SleepTakesEffect` | TinyOS_3/TinyOS_3/kernel_sched.c:388-410 | the section of sleep_releasing gives the current thread its new state, due at clock plus timeout on 64 bits if it has a timeout, and changes no other entry |
| `SchedRuns.SleeperStep` | TinyOS_3/TinyOS_3/kernel_sched.c:313-383 | a sleeper becomes READY by its own wakeup or by a yield that finds its time come, and by nothing else |
| `SchedRuns.SleepLastsItsTimeout` | TinyOS_3/TinyOS_3/kernel_sched.c:250-324 | over whole runs: a sleep begun at `now` lasts until somebody wakes the thread or the first yield at which the clock has come to now + timeout; without a timeout, until somebody wakes it |
| `SchedRuns.WakeupTakesEffect` | TinyOS_3/TinyOS_3/kernel_sched.c:361-383 | wakeup makes a STOPPED or INIT thread READY, does nothing to another, and can always be called |
| `SchedRuns.CoresCanAct` | TinyOS_3/TinyOS_3/kernel_sched.c:388-557 | every core can always take its next step |
| `SchedRuns.ReleasedOnlyByGain` | TinyOS_3/TinyOS_3/kernel_sched.c:547-549 | a TCB is released by the gain that finds it EXITED after switching away from it, and by no other step |
| `SchedRuns.ExitedStaysUntilReleased` | TinyOS_3/TinyOS_3/kernel_sched.c:494-507 | an EXITED thread never runs again: its core is bound to switch to another thread |
| `SchedRuns.QuantumLowersIffPositive` | TinyOS_3/TinyOS_3/kernel_sched.c:437-463 | SCHED_QUANTUM lowers the priority if and only if it was above 0; at 0 the switch falls through and raises it |
| `SchedRuns.IoRaisesIffBelowTop` | TinyOS_3/TinyOS_3/kernel_sched.c:447-459 | SCHED_IO raises the priority if and only if it was below the top; it lowers it if and only if it was at the top and the cause before was SCHED_MUTEX |
| `SchedRuns.PriorityMovesIff` | TinyOS_3/TinyOS_3/kernel_sched.c:437-463 | for every cause: the priority moves by one level at most, with the exact condition for up and for down |
| `SchedRuns.YieldWrites` | TinyOS_3/TinyOS_3/kernel_sched.c:434-489 | yield writes the priority and the causes of the thread that yields, raises with a boost those queued below the top, and no other priority or cause |
| `SchedRuns.BoostLiftsOneLevel` | TinyOS_3/TinyOS_3/kernel_sched.c:466-480 | every queued thread goes up one level, the top excepted, and no other thread moves |
| `SchedRuns.BoostTurnsQueuesRound` | TinyOS_3/TinyOS_3/kernel_sched.c:466-480 | the boost turns each queue round as it moves it up; at the top those that come stand before those that were there |
| `SchedRuns.BoostKeepsEverybody` | TinyOS_3/TinyOS_3/kernel_sched.c:466-480 | the boost loses and duplicates no thread: as a multiset, the queues together hold what they held |
| `SchedBoost.BoostOne` | TinyOS_3/TinyOS_3/kernel_sched.c:470-476 | one turn of the inner loop takes one head one level up, with the priority in step |
| `SchedBoost.BoostLevelDone` | TinyOS_3/TinyOS_3/kernel_sched.c:470-476 | the nested loops, level by level, end in the state in which each level holds the one below reversed, the top followed by what it had |
| `SchedExample.PickedThreadIsOffItsQueue` | TinyOS_3/TinyOS_3/kernel_sched.h:57-62 | a run of four sections to a NORMAL thread that is READY, CLEAN and in no queue |
| `SchedExample.IdleThreadIsNotQueued` | TinyOS_3/TinyOS_3/kernel_sched.h:57-62 | and of five to an idle thread that is READY and CLEAN, not just picked, and in no queue |
| `SchedExample.SleepCanBreakTheTimeoutList` | TinyOS_3/TinyOS_3/kernel_sched.c:250-266 | a reached state and a sleep of one tick that breaks the invariant |
| `SchedRuns.SelectionIsHeadOfHighest` | TinyOS_3/TinyOS_3/kernel_sched.c:332-356 | the head of the highest non-empty queue is taken, whatever the priority of the current thread |
| `SchedRuns.EmptyQueuesSelect` | TinyOS_3/TinyOS_3/kernel_sched.c:350-351 | with every queue empty a READY current thread goes on, and otherwise the idle thread runs |
| `Scheduler.Kernel.MakeReady` | TinyOS_3/TinyOS_3/kernel_sched.c:287-305 | the code on the TCB fields and lists computes the specified new state |
| `Scheduler.Kernel.Wakeup` | TinyOS_3/TinyOS_3/kernel_sched.c:361-383 | returns 1 just of a STOPPED or INIT thread, and computes the specified new state |
| `Scheduler.Kernel.WakeupExpiredTimeouts` | TinyOS_3/TinyOS_3/kernel_sched.c:313-324 | the loop computes the specified expiry, and ends |
| `Scheduler.Kernel.RegisterTimeout` | TinyOS_3/TinyOS_3/kernel_sched.c:250-266 | the search loop inserts at the sorted place |
| `Scheduler.Kernel.QueueSelect` | TinyOS_3/TinyOS_3/kernel_sched.c:332-356 | the search loop finds the highest non-empty queue and pops its head |
| `Scheduler.Kernel.BoostAll` | TinyOS_3/TinyOS_3/kernel_sched.c:470-476 | the nested loops compute the specified boost in place |
| `Scheduler.TCB.AdjustPriority` | TinyOS_3/TinyOS_3/kernel_sched.c:437-463 | the switch, fall-throughs included, computes the specified priority |
| `Scheduler.Kernel.Yield` | TinyOS_3/TinyOS_3/kernel_sched.c:434-501 | the section of yield, in its order, computes the specified new state, the counter of yields included |
| `Scheduler.Kernel.SleepReleasing` | TinyOS_3/TinyOS_3/kernel_sched.c:396-410 | the section of sleep_releasing computes the specified new state |
| `Scheduler.Kernel.SpawnThread` | TinyOS_3/TinyOS_3/kernel_sched.c:156-183 | a new thread is INIT, CLEAN, at the top priority and without a timeout; no other TCB changes |
| `Scheduler.Kernel.RunScheduler` | TinyOS_3/TinyOS_3/kernel_sched.c:596-617 | a core that enters runs its idle thread, and no other core or TCB changes |
| `Scheduler.Kernel.Gain` | TinyOS_3/TinyOS_3/kernel_sched.c:529-557 | the section of gain computes the specified new state |
| `CondVarRuns.RunsKeepInv` | TinyOS_3/TinyOS_3/kernel_cc.c:121-204 | every interleaving of waiters, signallers and timeouts, between any two points where they can meet, keeps the invariant of rings, records and locks |
| `CondVarRuns.UntimedWaiterIsStopped` | TinyOS_3/TinyOS_3/kernel_cc.c:128-139 | with waitset_lock free, every waiter of the ring is in its sleep, and one without a timeout is STOPPED |
| `CondVarRuns.SignalTakesFirstStopped` | TinyOS_3/TinyOS_3/kernel_cc.c:161-172 | a signal signals the first waiter still STOPPED; those before it, none of them STOPPED, are dropped unsignalled; those after it stay |
| `CondVarRuns.SignalFindsNobody` | TinyOS_3/TinyOS_3/kernel_cc.c:161-172 | a signal that wakes nobody found nobody STOPPED |
| `CondVarRuns.BroadcastEmptiesRing` | TinyOS_3/TinyOS_3/kernel_cc.c:197-202 | a broadcast ends with the ring empty and every waiter of it signalled, or timed out before |
| `CondVarRuns.WaitReturnsOneIffWoken` | TinyOS_3/TinyOS_3/kernel_cc.c:141-153 | cv_wait returns 1 if and only if the wakeup of a signaller succeeded |
| `CondVarRuns.WokenByWakeup` | TinyOS_3/TinyOS_3/kernel_cc.c:167-170 | that history is set by a successful wakeup of a STOPPED waiter and by nothing else |
| `CondVarRuns.MutexMoves` | TinyOS_3/TinyOS_3/kernel_cc.c:121-152 | a mutex is taken only when free and given up only by its owner, by the steps that say so and no others |
| `CondVarRuns.WaitReturnsWithMutex` | TinyOS_3/TinyOS_3/kernel_cc.c:150 | cv_wait returns with its mutex, which nobody had |
| `CondVarRuns.OwnerKeepsMutex` | TinyOS_3/TinyOS_3/kernel_cc.c:121-152 | over whole runs: a mutex stays its owner's until the owner unlocks it or waits with it |
| `CondVarRuns.WaitFromStartToEnd` | TinyOS_3/TinyOS_3/kernel_cc.c:121-152 | a whole call of cv_wait: it returns with the mutex it was called with; it returns 1 if and only if a signaller woke it, and 0 if and only if its timeout expired; without a timeout it returns 1 |
| `CondVarRuns.SignalBegins` | TinyOS_3/TinyOS_3/kernel_cc.c:182-202 | a signal or broadcast locks the ring as it finds it; after a wakeup a broadcast goes on and a signal has done; the end unlocks the ring |
| `CondVarRuns.SignallerKeepsItsCall` | TinyOS_3/TinyOS_3/kernel_cc.c:161-202 | a signal stays a signal and a broadcast a broadcast, on the same condition, until it ends |
| `CondVarRuns.RecordOutlivesSignaller` | TinyOS_3/TinyOS_3/kernel_cc.c:161-172 | while a signaller refers to a waiter record, the waiter cannot leave cv_wait |
| `CondVarRuns.DeadRecordIsNotWritten` | TinyOS_3/TinyOS_3/kernel_cc.c:161-172 | the record of a thread that is not waiting is written by nobody |
| `CondVarRuns.ConditionsAreMonitorQueues` | TinyOS_3/TinyOS_3/kernel_cc.c:121-204 | refinement: a thread joins the queue of a condition in the very step that drops its mutex, and leaves it as first by a wakeup or by its timeout; no other step changes it |
| `CondVarRuns.SignalsServeTheQueue` | TinyOS_3/TinyOS_3/kernel_cc.c:161-202 | a signal that finds nobody leaves the queue empty; one that wakes takes the first |
| `CondVarRuns.QueuedWaiterIsBlocked` | TinyOS_3/TinyOS_3/kernel_cc.c:138-150 | a waiter goes on only when it is out of the queue |
| `CondVarRuns.ThreadsCanAct` | TinyOS_3/TinyOS_3/kernel_cc.c:121-202 | a thread inside a call is held up only by its sleep, a locked ring or a mutex that is not free; whoever has locked a ring can go on |
| `CondVarRuns.CallersCanBegin` | TinyOS_3/TinyOS_3/kernel_cc.c:121-202 | a thread outside all calls can begin any, given the mutex and an unlocked ring |
| `WaitRings.CondVar.Push` | TinyOS_3/TinyOS_3/kernel_cc.c:128-135 | on the heap: the record goes to the back of the ring, which has no sentinel; no other ring is touched |
| `WaitRings.CondVar.RemoveFromRing` | TinyOS_3/TinyOS_3/kernel_cc.c:83-91 | on the heap: the ring loses that record alone, the order is kept, waitset stays its first or becomes NULL, and no other ring is touched |
| `WaitRings.CondVar.Tidy` | TinyOS_3/TinyOS_3/kernel_cc.c:141-153 | a record that a signaller took out is not taken out again; no other ring is touched |
| `WaitRings.CondVar.CvSignal` | TinyOS_3/TinyOS_3/kernel_cc.c:161-172 | on the heap: exactly the records up to the first STOPPED one leave the ring, marked removed, and that one alone is signalled; no other ring is touched |
| `WaitRings.CondVar.Broadcast` | TinyOS_3/TinyOS_3/kernel_cc.c:197-202 | on the heap: the ring is emptied, every STOPPED waiter is woken and signalled, nobody else is, and no other ring is touched |
| `KernelLockRuns.RunsKeepInv` | TinyOS_3/TinyOS_3/kernel_cc.c:234-287 | every interleaving of lock, unlock, wait, signal, timeout and sleep keeps the invariant of the kernel monitor |
| `KernelLockRuns.KernelLockIsExclusive` | TinyOS_3/TinyOS_3/kernel_cc.c:234-269 | kernel_sem plus the number of holders is always 1, so no two threads hold the kernel lock |
| `KernelLockRuns.FreeLockIsAwaited` | TinyOS_3/TinyOS_3/kernel_cc.c:234-250 | with kernel_mutex free and kernel_sem 1, threads asleep on kernel_sem_cv have one already signalled that has still to test it |
| `KernelLockRuns.KernelLockNeverStalls` | TinyOS_3/TinyOS_3/kernel_cc.c:234-287 | while a thread sleeps on the kernel lock, some other can step towards handing it over |
| `KernelLockRuns.NobodyHoldsBesideAReleaser` | TinyOS_3/TinyOS_3/kernel_cc.c:252-260 | nobody holds the kernel lock while a thread that gave it up is on its way to sleep; signallers find no waitset_lock taken |
| `KernelLockRuns.WaiterSleepsBeforeAnyoneHolds` | TinyOS_3/TinyOS_3/kernel_cc.c:252-260 | no lost wakeup: a thread that gives up the lock to wait is asleep on its channel before anybody holds the lock again |
| `KernelLockRuns.ChannelSignals` | TinyOS_3/TinyOS_3/kernel_cc.c:271-279 | a broadcast wakes everybody on the channel, a signal the one that waited longest, and no other thread moves |
| `KernelLockRuns.QueuesAreInOrder` | TinyOS_3/TinyOS_3/kernel_cc.c:234-269 | on kernel_sem_cv and on every channel a thread joins at the back, and those that stay keep their order |
| `KernelLockRuns.FirstComeFirstServed` | TinyOS_3/TinyOS_3/kernel_cc.c:252-279 | over whole runs: while a thread waits on a channel, whoever comes after it stays behind it, and no signal wakes the latecomer first |
| `KernelLockRuns.LockIsServedInOrder` | TinyOS_3/TinyOS_3/kernel_cc.c:234-250 | the same for those who wait for the kernel lock |
| `KernelLockRuns.ReleaseLeadsToItsGoal` | TinyOS_3/TinyOS_3/kernel_cc.c:244-287 | a thread that gives up the lock raises kernel_sem and gets outside, until it takes the lock again, or asleep for good, as it was meant to |
| `KernelLockRuns.WaitLeadsToItsChannel` | TinyOS_3/TinyOS_3/kernel_cc.c:252-260 | or onto its channel, until a signal wakes it, or its timeout if it has one |
| `KernelLockRuns.OthersStandBy` | TinyOS_3/TinyOS_3/kernel_cc.c:234-287 | a step moves no other thread than the one it wakes from kernel_sem_cv, the first, and those a signal wakes |
| `KernelLockRuns.ThreadsCanAct` | TinyOS_3/TinyOS_3/kernel_cc.c:234-287 | a thread is held up only by kernel_mutex or by its own sleep; whoever has kernel_mutex can go on |
| `KernelLockRuns.WaitReturnsOneIffSignalled` | TinyOS_3/TinyOS_3/kernel_cc.c:252-269 | over whole runs: kernel_wait returns 1 just when a signal woke the thread, however long it then queued for the lock |
| `KernelLock.KernelMonitor.TestSem` | TinyOS_3/TinyOS_3/kernel_cc.c:237-241 | one test of the loop takes the semaphore as its only holder, or joins the queue |
| `KernelLock.KernelMonitor.Unlock` | TinyOS_3/TinyOS_3/kernel_cc.c:244-250 | leaves the lock free, and awaited if anybody sleeps on it |
| `KernelLock.KernelMonitor.BeginWait` | TinyOS_3/TinyOS_3/kernel_cc.c:252-260 | leaves the lock free and the thread on the channel |
| `KernelLock.KernelMonitor.Sleep` | TinyOS_3/TinyOS_3/kernel_cc.c:281-287 | the same, for the end of a thread |
| `KernelLock.KernelMonitor.KernelBroadcast` | TinyOS_3/TinyOS_3/kernel_cc.c:276-279 | wakes everybody on the channel and leaves it empty, with the lock still held |
| `PipeRuns.RunsKeepInv` | TinyOS_3/TinyOS_3/kernel_pipe.c:72-209 | every interleaving of reads, writes and closes keeps the invariant of the pipe |
| `PipeRuns.BytesAreConserved` | TinyOS_3/TinyOS_3/kernel_pipe.c:72-156 | the bytes accepted are those delivered followed by those in the ring, which never exceed the capacity |
| `PipeRuns.HistoryGrows` | TinyOS_3/TinyOS_3/kernel_pipe.c:72-156 | nothing accepted is taken back and nothing delivered is delivered again |
| `PipeRuns.ReadAnswers` | TinyOS_3/TinyOS_3/kernel_pipe.c:115-156 | pipe_read answers n, or fewer only when no writer is left and the ring is drained, and has taken as many bytes; it never answers -1 |
| `PipeRuns.WriteAnswers` | TinyOS_3/TinyOS_3/kernel_pipe.c:72-113 | pipe_write answers that all bytes were accepted, or -1, and -1 just when no reader is left |
| `PipeRuns.SleepersAreBlocked` | TinyOS_3/TinyOS_3/kernel_pipe.c:85-147 | a reader sleeps only on an empty pipe with the writer open, a writer only on a full one with the reader open, never both |
| `PipeRuns.ReadyCallsAreAwake` | TinyOS_3/TinyOS_3/kernel_pipe.c:85-147 | a read with bytes or an end of stream to report, or a write with space or nobody to write to, is awake |
| `PipeRuns.FreedPipeIsUnused` | TinyOS_3/TinyOS_3/kernel_pipe.c:158-209 | when both ends are closed, which frees the pipe, no call is inside it |
| `PipeRuns.LoneReadGetsTheNextBytes` | TinyOS_3/TinyOS_3/kernel_pipe.c:115-156 | a read that waits, with no other read beside it, has got the next bytes of the stream in order, at every step |
| `PipeRuns.LoneReadAnswersTheNextBytes` | TinyOS_3/TinyOS_3/kernel_pipe.c:115-156 | when it answers, whether or not it waited, the buffer holds the very next bytes of the stream, as many as the answer says |
| `PipeRuns.LoneWriteIsContiguous` | TinyOS_3/TinyOS_3/kernel_pipe.c:72-113 | a write with no other write beside it puts its bytes in contiguously, across its waits |
| `PipeRuns.CallsAreOwn` | TinyOS_3/TinyOS_3/kernel_pipe.c:72-156 | a call goes on by its own thread's steps only |
| `PipeRuns.AfterWriterCloses` | TinyOS_3/TinyOS_3/kernel_pipe.c:158-183 | after the writer closes nothing is accepted, no reader sleeps, and the readers get exactly what was left |
| `PipeRuns.ClosingOneEnd` | TinyOS_3/TinyOS_3/kernel_pipe.c:158-209 | closing an end closes that end and moves no byte; it can be done while nobody is inside a call for the end, and a call begun while the end is open |
| `Pipe.PutSlice` | TinyOS_3/TinyOS_3/kernel_pipe.c:103-104 | a byte stored in a ring that is not full follows the unread ones and overwrites none of them, round the end too |
| `Pipe.TakeSlice` | TinyOS_3/TinyOS_3/kernel_pipe.c:145-146 | the byte at r_position is the oldest unread one |
| `Pipe.WriteByByte` | TinyOS_3/TinyOS_3/kernel_pipe.c:85-108 | byte by byte is the same as the whole step at once |
| `Pipe.ReadByByte` | TinyOS_3/TinyOS_3/kernel_pipe.c:127-150 | byte by byte is the same as the whole step at once |
| `Pipe.PipeCB.WriteOn` | TinyOS_3/TinyOS_3/kernel_pipe.c:85-112 | the loop on the array, up to its next wait, does what the step does, the broadcasts included |
| `Pipe.PipeCB.ReadOn` | TinyOS_3/TinyOS_3/kernel_pipe.c:127-155 | the loop on the array, up to its next wait, does what the step does and fills the buffer |
| `Pipe.PipeCB.CloseWriter` | TinyOS_3/TinyOS_3/kernel_pipe.c:158-183 | closes one end, wakes the readers, and frees the pipe just when the other end is closed |
| `Pipe.PipeCB.CloseReader` | TinyOS_3/TinyOS_3/kernel_pipe.c:185-209 | closes one end, wakes the writers, and frees the pipe just when the other end is closed |
| `StreamRuns.RunsKeepInv` | TinyOS_3/TinyOS_3/kernel_streams.c:27-238 | every sequence of reserve, read, write, close, dup2, exec and exit keeps the invariant of references |
| `StreamRuns.RefcountsAreExact` | TinyOS_3/TinyOS_3/kernel_streams.c:44-62 | the refcount of an FCB in use is the number of FIDT slots of all processes that name it plus the reads and writes in flight; a free one has no name |
| `StreamRuns.ClosedOncePerReservation` | TinyOS_3/TinyOS_3/kernel_streams.c:50-62 | each reservation of an FCB is still in use, or was closed once, or was given back once |
| `StreamRuns.CloseFindsNoOperation` | TinyOS_3/TinyOS_3/kernel_streams.c:145-153 | no step of anybody closes or hands out again an FCB that a read or write is using |
| `StreamRuns.UsedStreamStaysOpen` | TinyOS_3/TinyOS_3/kernel_streams.c:178-187 | over whole runs: the stream of a read or write is the same open stream from its start to its end |
| `StreamCalls.ReserveSucceedsIff` | TinyOS_3/TinyOS_3/kernel_streams.c:65-97 | FCB_reserve succeeds just when there are enough NULL slots and enough free FCBs, and then the lowest slots name the first free FCBs |
| `StreamCalls.FailedReserveUndoesItself` | TinyOS_3/TinyOS_3/kernel_streams.c:65-97 | a failed FCB_reserve leaves every file table, every refcount in use and the set of free FCBs as they were |
| `StreamCalls.FailedReserveKeepsOrderIff` | TinyOS_3/TinyOS_3/kernel_streams.c:65-97 | it leaves the order of the free list as it was if and only if the fids ran out or no more than one FCB was left |
| `StreamCalls.FailedReserveKeepsStateIff` | TinyOS_3/TinyOS_3/kernel_streams.c:65-97 | and the whole state if and only if, moreover, the FCB left had no stale count; failing for want of FCBs clears the counts of those left |
| `StreamCalls.FailedPairKeepsOrder` | TinyOS_3/TinyOS_3/kernel_streams.c:65-97 | so a failed request for one FCB or two, as the kernel makes them, never reorders the free list |
| `StreamCalls.FailedReserveCanReorder` | TinyOS_3/TinyOS_3/kernel_streams.c:65-97 | a run of 4096 requests to a state with two FCBs left, in which a request for three fails and reorders them |
| `StreamCalls.UnreserveUndoesReserve` | TinyOS_3/TinyOS_3/kernel_streams.c:251-270 | a device that does not open leaves every table and every refcount in use as it was; the FCB tried goes from the front of the free list to the back |
| `StreamCalls.LastNameCloses` | TinyOS_3/TinyOS_3/kernel_streams.c:50-62 | a stream is closed by the call that takes its last name and by no other |
| `StreamCalls.CloseEmptiesTheSlot` | TinyOS_3/TinyOS_3/kernel_streams.c:196-208 | Close empties the slot it is called for and no other; the stream is closed just when that was its last name; an illegal fid changes nothing |
| `StreamCalls.UseHoldsTheStream` | TinyOS_3/TinyOS_3/kernel_streams.c:131-153 | a read or write takes a reference to the FCB its fid names, if legal and open, and drops that one when it ends |
| `StreamCalls.OpenFidsAreLegal` | TinyOS_3/TinyOS_3/kernel_streams.c:65-97 | every fid that is open is one that the calls accept |
| `StreamCalls.Dup2Shares` | TinyOS_3/TinyOS_3/kernel_streams.c:212-238 | after a Dup2 both fids name the old stream, the stream that lost its last name is closed, nothing else changes; an illegal call changes nothing |
| `StreamCalls.ExecInherits` | TinyOS_3/TinyOS_3/kernel_proc.c:174-179 | a new process has exactly the streams of its parent, and no other table changes |
| `StreamCalls.ExitCloses` | TinyOS_3/TinyOS_3/kernel_threads.c:198-204 | an exiting process loses its slots and nothing else; the streams only it named are closed, once each, and no others |
| `StreamCalls.ExitClosesAll` | TinyOS_3/TinyOS_3/kernel_threads.c:198-204 | the same for the whole table |
| `StreamCalls.FreedTableIsFoundEmpty` | TinyOS_3/TinyOS_3/kernel_threads.c:198-204 | the table of a process that has exited stays empty until somebody fills it, so Exec finds it empty |
| `Streams.FileTables.Reserve` | TinyOS_3/TinyOS_3/kernel_streams.c:65-97 | the three loops and the roll-back compute the specified result, fids and FCBs |
| `Streams.FileTables.FindFids` | TinyOS_3/TinyOS_3/kernel_streams.c:71-77 | the nested search finds the lowest NULL slots |
| `Streams.FileTables.Rollback` | TinyOS_3/TinyOS_3/kernel_streams.c:84-87 | the roll-back returns the FCBs in reverse order |
| `Streams.FileTables.Close` | TinyOS_3/TinyOS_3/kernel_streams.c:196-208 | sys_Close has the specified effect; only an illegal fid is an error |
| `Streams.FileTables.Dup2` | TinyOS_3/TinyOS_3/kernel_streams.c:218-238 | sys_Dup2 has the specified effect, with its error cases |
| `Streams.FileTables.BeginUse` | TinyOS_3/TinyOS_3/kernel_streams.c:131-147 | sys_Read and sys_Write take a reference before the stream code runs |
| `Streams.FileTables.EndUse` | TinyOS_3/TinyOS_3/kernel_streams.c:152-153 | and drop it after |
| `Streams.FileTables.InheritAll` | TinyOS_3/TinyOS_3/kernel_proc.c:174-179 | the loop of Exec has the specified effect |
| `Streams.FileTables.CloseAllSlots` | TinyOS_3/TinyOS_3/kernel_threads.c:198-204 | the clean-up loop has the specified effect |
| `PipeStreams.CallIsSafe` | TinyOS_3/TinyOS_3/kernel_streams.c:139-153 | a read or write through a live stream finds its end of the pipe open |
| `PipeStreams.ClosingIsSafe` | TinyOS_3/TinyOS_3/kernel_streams.c:50-62 | when a step takes the last name of an end, no call is inside the pipe code for that end |
| `PipeStreams.StepKeepsCoupled` | TinyOS_3/TinyOS_3/kernel_streams.c:131-238 | pipe and streams stay in step: an end is open just while its reservation lives, and the calls inside it are the uses of its FCB |
| `PipeStreams.CallsMoveTheirBytes` | TinyOS_3/TinyOS_3/kernel_streams.c:131-187 | a write through a stream puts in the first bytes of its buffer, all of them if it answers their number; a read hands over as many bytes as it answers, fewer than asked for only at the end of the stream |
| `PipeStreams.CallersCanAct` | TinyOS_3/TinyOS_3/kernel_streams.c:131-187 | a call through an open fid can be made by any thread in no other, and goes on when it is awake |
| `PipeStreams.PipesAreSafeUnderStreams` | TinyOS_3/TinyOS_3/kernel_pipe.c:23-69 | from sys_Pipe on, whatever all processes do with their streams: ends stay open while used, sleepers are blocked, a reader and a writer never sleep together, bytes are conserved |
| `ProcRuns.RunsKeepInvIff` | TinyOS_3/TinyOS_3/kernel_proc.c:84-357 | along a run of Exec, exit and WaitChild calls, with any number of threads inside WaitChild, the invariant of the process forest holds all the time if and only if pid 1 never ends with children left and no thread resumes a wait for a pid that is FREE by now or a living child of another process |
| `ProcRuns.RunsAnswerRightIff` | TinyOS_3/TinyOS_3/tinyos.h:258-279 | it holds and every WaitChild answers as documented if and only if pid 1 never ends with children left and no thread resumes a wait for a pid that is no longer a child of its process |
| `ProcRuns.RunsKeepInv` | TinyOS_3/TinyOS_3/kernel_proc.c:84-357 | so the invariant holds in every state reached by steps that are harmless in the first sense; the claims about reached states below are about these |
| `ProcRuns.ProcessesFormATree` | TinyOS_3/TinyOS_3/kernel_proc.c:151-180 | a process with pid >= 2 has a living parent, is in its children list once and in no other, in its exited list just when it is a zombie, and descends from pid 1 |
| `ProcRuns.ReachesInit` | TinyOS_3/TinyOS_3/kernel_threads.c:168-177 | parent links lead to pid 1 from every process, through every reparenting |
| `ProcRuns.ExecMakesAChild` | TinyOS_3/TinyOS_3/kernel_proc.c:151-180 | Exec makes one living process, the first child of the caller, and moves nobody else; only with no PCB left it changes nothing |
| `ProcRuns.LastReleasedIsNextUsed` | TinyOS_3/TinyOS_3/kernel_proc.c:84-107 | the PCB that was released last is the next to be used |
| `ProcRuns.FreeListIsTheRest` | TinyOS_3/TinyOS_3/kernel_proc.c:84-107 | the free list holds the FREE PCBs once each, and process_count counts the others |
| `ProcRuns.ZombiesAreReapedOnce` | TinyOS_3/TinyOS_3/kernel_proc.c:257-266 | a PCB is released once for each time it was acquired; pids 0 and 1 never are |
| `ProcRuns.ReapsAChildIff` | TinyOS_3/TinyOS_3/kernel_proc.c:257-324 | a step releases nothing but a zombie child of the process inside WaitChild if and only if it does not resume a wait for a pid that is neither alive nor a child of it |
| `ProcRuns.WaitAnswersIff` | TinyOS_3/TinyOS_3/kernel_proc.c:269-338 | a step of WaitChild, its first or a later one, does as documented if and only if it does not resume a wait for a pid that would fail the legality checks by now: it sleeps just while what it waits for is alive; it answers with a zombie child, the one asked for, and its exit value, and frees it; NOPROC just for an illegal pid or no children |
| `ProcRuns.WaitAnswersTheExitValue` | TinyOS_3/TinyOS_3/kernel_proc.c:341-346 | the value a WaitChild answers for a process is what the last Exit of it stored |
| `ProcRuns.AnyChildIsTheFirst` | TinyOS_3/TinyOS_3/kernel_proc.c:318-321 | a wait for any child collects the first of the exited list, and leaves the order of the others |
| `ProcRuns.WaitersStandBy` | TinyOS_3/TinyOS_3/kernel_threads.c:178-182 | another thread's wait stays what it is, and is woken just by the end of a child of its process or by zombies that pid 1 adopts |
| `ProcRuns.CallersCanAct` | TinyOS_3/TinyOS_3/kernel_proc.c:151-357 | a thread of a living process can make any call, and a waiter goes on when it is awake |
| `ProcRuns.SleepingParentsHaveNothingToCollect` | TinyOS_3/TinyOS_3/kernel_proc.c:286-316 | no exit is missed: a parent asleep in WaitChild has no zombie that it waits for |
| `ProcRuns.OrphansAreAdopted` | TinyOS_3/TinyOS_3/kernel_threads.c:165-190 | the children of an exiting process become those of pid 1, the exited ones on its exited list; the process is its parent's zombie, and the parent wakes |
| `ProcRuns.ListsAfterExit` | TinyOS_3/TinyOS_3/kernel_threads.c:165-182 | the lists of the others after an exit, in their order |
| `ProcRuns.InitExitsLast` | TinyOS_3/TinyOS_3/kernel_proc.c:341-357 | when pid 1 has exited no other process is left but the idle one |
| `ProcRuns.ZombieWaitsToBeReaped` | TinyOS_3/TinyOS_3/kernel_proc.c:257-266 | a zombie keeps its place and its exit value until it is reaped |
| `ProcRuns.WaitersApartAreRight` | TinyOS_3/TinyOS_3/kernel_proc.c:286-316 | every WaitChild of a run answers right as long as the threads of a process that wait together all ask for any child, or for different ones; one at a time is a case of it |
| `ProcRuns.AnyWaitersAreRight` | TinyOS_3/TinyOS_3/kernel_proc.c:304-316 | and so they do in a run in which everybody asks for any child, however many wait together |
| `ProcExample.SecondWaiterReapsAgain` | TinyOS_3/TinyOS_3/kernel_proc.c:286-290 | a run of seven steps to a state with nothing wrong, in which a second waiter for the same child resumes, answers it again and frees a PCB acquired once for the second time |
| `ProcInvariant.NextKeepsInvIff` | TinyOS_3/TinyOS_3/kernel_proc.c:84-357 | one step of any kind keeps the invariant if and only if it is harmless |
| `ProcInvariant.WaitForKeepsIff` | TinyOS_3/TinyOS_3/kernel_proc.c:286-290 | a turn of the loop for one child keeps the invariant if and only if the pid is a zombie or a child of the caller |
| `ProcInvariant.WaitAnyKeeps` | TinyOS_3/TinyOS_3/kernel_proc.c:304-321 | a turn of the loop for any child always keeps it: the lists are tested again after each wait |
| `ProcInvariant.ReapKeeps` | TinyOS_3/TinyOS_3/kernel_proc.c:257-266 | any zombie can be reaped, by whomsoever: its nodes leave the lists they are on |
| `ProcInvariant.RootDiesIff` | TinyOS_3/TinyOS_3/kernel_threads.c:184-185 | pid 1 can end if and only if it has no children left, as the code asserts |
| `ProcInvariant.LegalIsChild` | TinyOS_3/TinyOS_3/kernel_proc.c:272-284 | the legality checks let the caller's children through and nobody else |
| `ProcInvariant.RootIsAlive` | TinyOS_3/TinyOS_3/kernel_threads.c:168-171 | while any process with pid >= 2 is in use, pid 1 is alive and has a child, so reparenting finds it |
| `Processes.ProcessTable.Acquire` | TinyOS_3/TinyOS_3/kernel_proc.c:84-96 | takes the first PCB of the list that runs through the parent pointers |
| `Processes.ProcessTable.Release` | TinyOS_3/TinyOS_3/kernel_proc.c:101-107 | puts the PCB back at its head |
| `Processes.ProcessTable.Exec` | TinyOS_3/TinyOS_3/kernel_proc.c:151-180 | has the specified effect on the forest, and answers the new pid or NOPROC |
| `Processes.ProcessTable.WaitChild` | TinyOS_3/TinyOS_3/kernel_proc.c:327-338 | with its two ways of waiting, computes the specified state and answer, up to the first wait |
| `Processes.ProcessTable.ResumeWait` | TinyOS_3/TinyOS_3/kernel_proc.c:286-321 | so has what follows a wait; it leaves the table valid if and only if the step is harmless |
| `Processes.ProcessTable.ReparentChildren` | TinyOS_3/TinyOS_3/kernel_threads.c:168-175 | the pop-and-push loop reverses the children in front of those of pid 1 |
| `Processes.ProcessTable.Exit` | TinyOS_3/TinyOS_3/kernel_threads.c:165-213 | the end of a process has the specified effect |
| `ThreadRuns.RunsKeepInv` | TinyOS_3/TinyOS_3/kernel_threads.c:12-156 | every interleaving of create, join, detach and exit keeps the invariant of the PTCBs |
| `ThreadRuns.CountsAreExact` | TinyOS_3/TinyOS_3/kernel_threads.c:70-84 | refcount is the number of joiners inside; threadCounter the unexited PTCBs of PTCB_List |
| `ThreadRuns.JoinersAreWoken` | TinyOS_3/TinyOS_3/kernel_threads.c:73-80 | no joiner sleeps once its target has exited or been detached |
| `ThreadRuns.VerdictIsFinal` | TinyOS_3/TinyOS_3/kernel_threads.c:86-98 | the first of exit and detach decides, for good |
| `ThreadRuns.JoinersAgree` | TinyOS_3/TinyOS_3/kernel_threads.c:59-105 | any two joins of a thread that get as far as its counter answer alike: both 0 with the same value, or both -1 |
| `ThreadRuns.JoinAnswers` | TinyOS_3/TinyOS_3/kernel_threads.c:86-98 | -1 just after a detach, 0 with the exit value just after an exit without one |
| `ThreadRuns.JoinAnswersTheExitValue` | TinyOS_3/TinyOS_3/kernel_threads.c:73-98 | over whole runs: a join that waited answers 0 with the value passed to ThreadExit, unless the thread was detached before it exited |
| `ThreadRuns.JoinVerdictIff` | TinyOS_3/TinyOS_3/kernel_threads.c:73-98 | it answers -1 if and only if the thread has been detached, and sleeps if and only if it has neither been detached nor exited |
| `ThreadRuns.MarksAreEarned` | TinyOS_3/TinyOS_3/kernel_threads.c:110-141 | over whole runs: a PTCB is marked exited by exactly the exit of its thread, and detached by exactly the detaches of it |
| `ThreadRuns.FlagsStep` | TinyOS_3/TinyOS_3/kernel_threads.c:12-156 | what one step makes of the owner, the marks and the value of a PTCB |
| `ThreadRuns.CanJoinIff` | TinyOS_3/TinyOS_3/kernel_threads.c:59-70 | a join waits for a thread of the same process, other than the caller, that is neither detached nor freed; for any other it answers -1 and changes nothing |
| `ThreadRuns.CanDetachIff` | TinyOS_3/TinyOS_3/kernel_threads.c:110-120 | a detach succeeds just for an unexited thread of the same process |
| `ThreadRuns.JoinersStandBy` | TinyOS_3/TinyOS_3/kernel_threads.c:73-153 | another thread's join stays what it is, and is woken just by the exit or a detach of its target |
| `ThreadRuns.ThreadsCanAct` | TinyOS_3/TinyOS_3/kernel_threads.c:59-156 | a running thread can make any call, and a joiner goes on when it is awake |
| `ThreadRuns.LastJoinerFrees` | TinyOS_3/TinyOS_3/kernel_threads.c:100-104 | a PTCB is freed by a join that answers 0 when it is the last inside, and by nothing else |
| `ThreadRuns.FreedOnceAndUnused` | TinyOS_3/TinyOS_3/kernel_threads.c:100-104 | at most once, after an exit without a detach, with no joiner inside then or later |
| `Threads.Kernel.CreateThread` | TinyOS_3/TinyOS_3/kernel_threads.c:12-45 | has the specified effect on list, counter and PTCB |
| `Threads.Kernel.ThreadJoin` | TinyOS_3/TinyOS_3/kernel_threads.c:59-80 | the checks and the first pass through the loop have the specified effect and answer |
| `Threads.Kernel.ResumeJoin` | TinyOS_3/TinyOS_3/kernel_threads.c:73-105 | so has what follows a wait |
| `Threads.Kernel.ThreadDetach` | TinyOS_3/TinyOS_3/kernel_threads.c:110-128 | has the specified effect; answers 0 just for an unexited thread of the process |
| `Threads.Kernel.ThreadExit` | TinyOS_3/TinyOS_3/kernel_threads.c:134-156 | has the specified effect; the process ends just when no thread of it is left unexited |
| `ProcThreads.RunsStayCoupledIff` | TinyOS_3/TinyOS_3/kernel_threads.c:134-213 | forest and threads together: all along a run the two invariants hold and threads, waits and processes are in step, if and only if every call is harmless to the forest |
| `ProcThreads.NextKeepsCoupledIff` | TinyOS_3/TinyOS_3/kernel_threads.c:12-213 | one call of any kind keeps them so if and only if it is harmless |
| `ProcThreads.AliveWhileItHasThreads` | TinyOS_3/TinyOS_3/kernel_threads.c:146-165 | a process is alive just as long as one of its threads has not exited, unless it was started without a task; threadCounter says how many; the threads inside its WaitChild are among them |
| `ProcThreads.EndsWithItsLastThread` | TinyOS_3/TinyOS_3/kernel_threads.c:159-210 | a process becomes a ZOMBIE in exactly the step in which its last thread exits, and then nobody is inside its WaitChild or a ThreadJoin of it |
| `ProcThreads.ExitValueReachesTheParent` | TinyOS_3/TinyOS_3/kernel_proc.c:341-357 | over whole runs: what a thread passed to the last Exit of its process is what WaitChild answers for it |
| `ProcThreads.ThreadsCanAct` | TinyOS_3/TinyOS_3/kernel_threads.c:12-213 | a thread that has not exited is inside a wait or can make any call |
| `ProcThreads.CounterTellsLast` | TinyOS_3/TinyOS_3/kernel_threads.c:146-159 | threadCounter comes down to 0 just when the thread that exits is the last |
| `ProcThreads.LastThreadCanEnd` | TinyOS_3/TinyOS_3/kernel_threads.c:159-182 | what the forest takes for granted of an ending process holds then |
| `SymposiumRuns.NeighboursNeverEatTogether` | TinyOS_3/TinyOS_3/symposium.c:76-124 | with mx free: no two neighbours eat (two philosophers or more), the hungry have an eating neighbour, and one sleeps on its condition just when it is hungry |
| `SymposiumRuns.NextKeepsInv` | TinyOS_3/TinyOS_3/symposium.c:89-130 | every section keeps that, for one philosopher and for any number |
| `SymposiumRuns.SomeoneCanMove` | TinyOS_3/TinyOS_3/symposium.c:102-124 | no deadlock: as long as one has not left, one can go on |
| `SymposiumRuns.StepsLowerTheTotal` | TinyOS_3/TinyOS_3/symposium.c:102-124 | every step of anybody lowers one measure of the whole table |
| `SymposiumRuns.SymposiumEnds` | TinyOS_3/TinyOS_3/symposium.c:102-130 | no run has more than N(4 bites + 2) steps; one that cannot go on has everybody gone after exactly `bites` meals |
| `SymposiumRuns.MealsAreCounted` | TinyOS_3/TinyOS_3/symposium.c:102-124 | at any time nobody has had more than `bites` meals, and who has left has had exactly as many |
| `SymposiumModel.Left` | TinyOS_3/TinyOS_3/symposium.c:50 | the neighbour on one side, round the table |
| `SymposiumModel.Right` | TinyOS_3/TinyOS_3/symposium.c:51 | the neighbour on the other side, without a negative remainder |
| `Symposium.SymposiumTable.TryToEat` | TinyOS_3/TinyOS_3/symposium.c:76-86 | the code on the state array computes the specified new state |
| `Symposium.SymposiumTable.GetHungry` | TinyOS_3/TinyOS_3/symposium.c:105-112 | from thinking to eating, or to sleep |
| `Symposium.SymposiumTable.Finish` | TinyOS_3/TinyOS_3/symposium.c:118-123 | puts the forks down and offers them on both sides |
| `Barrier.RunsKeepInv` | TinyOS_3/TinyOS_3/tinyoslib.c:172-191 | every interleaving of callers with the same n keeps the invariant of the barrier |
| `Barrier.NobodyLeavesEarly` | TinyOS_3/TinyOS_3/tinyoslib.c:172-191 | a caller leaves epoch e only when exactly n different callers have arrived in e, itself among them |
| `Barrier.NobodySleepsOnThePast` | TinyOS_3/TinyOS_3/tinyoslib.c:172-191 | count stays below n, so its assertion holds; nobody sleeps on a past epoch |
| `Barrier.LastArrivalOpens` | TinyOS_3/TinyOS_3/tinyoslib.c:179-184 | the arrival that makes the sleepers n opens the barrier and wakes them all; no other step does |
| `Barrier.PassedCallersLeave` | TinyOS_3/TinyOS_3/tinyoslib.c:186-190 | a caller whose epoch has passed can go on, and leaves |
| `Barrier.CallersStandBy` | TinyOS_3/TinyOS_3/tinyoslib.c:172-191 | the other callers stay inside with their epoch, and sleep on just as long as it has not passed |
| `Barrier.PartiesAreFinal` | TinyOS_3/TinyOS_3/tinyoslib.c:172-191 | nobody arrives in an epoch that has passed |
| `Barrier.BarrierMonitor.Sync` | TinyOS_3/TinyOS_3/tinyoslib.c:172-191 | the code, up to its first wait, computes the specified new state |

## Left out

- Time slices (`its`, `rts`), the alarm and the restart of halted cores: nothing in the scheduler's decisions depends on them.
- How often the boost fires: `numofYields` is counted outside the spinlock, so a step may or may not boost; the loop itself is modelled.
- Spin counts and memory orders of `Mutex_Lock`: a lock is free or held.
- Thread stacks, TCB memory and `thread_start`: a thread is created and released as a whole.
- Sockets, devices, the console, `OpenInfo` and its raw copies: streams are modelled as far as the FCB, and pipes as those of `sys_Pipe`.
- Arguments of processes and threads (`argl`, `args`): they are copied, and decide nothing.
- `PTCB_List` of a recycled PCB keeps the PTCBs of the process that had it before; thread claims are about PTCBs, not about the threads of one process after another.
- The wrap-around of refcounts, counters and the barrier's epoch: they are unbounded integers.
- A read of the write end of a pipe, or a write of its read end, which answers -1 at once: it takes a reference and drops it, and touches no pipe.
- Fairness and time bounds: nothing in the code decides them.
- The shell, the examples and the tests: user programs.
- The argument vectors of `util.h`: simple beside the lists.
- Scheduler.Kernel.Yield: the queues are sequences here; that the linked lists implement sequences is proved in Lists and ListLoops, without putting the nodes inside the TCBs.
- Threads.Kernel.ThreadJoin: the search of PTCB_List is membership in a sequence; the loop is ListLoops.Find.
- KernelLock.KernelMonitor.BeginWait: the wait itself is the change of state at its two ends; the sleep in between is other threads' steps.
