# A verified model of the SertOS kernel core

SertOS is a preemptive priority kernel: a scheduler with one FIFO ready queue per priority and a
bitmap over them, a delay list driven by the system tick, and, built on those, semaphores, mutexes
with priority inheritance, message queues, stream buffers, software timers and run-time accounting.
One set of task control blocks is threaded through all of these lists at once, and almost every call
updates several of them in place. This project models that core and proves what ties it together.

How it is laid out:

- `KernelTypes`, `Lists`, `Bits`: the fields of a task control block, the scheduler state as one
  value, and the list and power-of-two facts everything else uses.
- `KernelSpec` says what each scheduler primitive and each kernel call does to that value.
  `Scheduler` is the imperative kernel: a `Tcb` class whose fields are updated in place, an array of
  ready queues, a bitmap, a delay list and wait lists; every method is proved to move the state
  exactly as `KernelSpec` says. `TickWalk` carries the loop that unlinks while it walks.
  `WaitNodes` is the pointer-level ring (root, next, prev, count) under the wait lists.
- `Placement`, `TaskOps`: the invariant that places every task in exactly the lists its fields name,
  and which calls keep it. `KernelRuns`: arbitrary runs of kernel calls, and the preemption
  guarantee. `Clock`, `TimedWaits`, `WaitOrder`, `RoundRobin`, `PeriodicDelay`, `DelayOrder`,
  `TaskLife`, `TaskEffects`: what holds over whole runs about the tick count, deadlines, wake-up
  order, fair rotation, periodic tasks, the order in which sleepers wake, the life of a task and
  what task-management calls bring about.
- `Semaphore`, `Mutex`, `MessageQueue` (over `RingBuffer`), `StreamBuffer`, `Timers`, `Stats`: the
  objects as classes whose methods call the scheduler object.
- `Semaphore`, `QueueFifo`, `QueueRuns`, `StreamRuns` and `MutexRuns` prove what holds over every
  run of an object's calls mixed with ticks and the other kernel calls. `KernelAccounting` runs the
  accounts of `StatsRuns` beside the kernel. `MutexProtocol` and
  `PriorityInheritance` are the mutex without the kernel: owner, depth, waiters, priorities and
  callers, under any scheduling. `Mutex` and `MutexFrame` show what each kernel call and each tick
  is to that machine, and `MutexRuns` that the kernel follows it. The runs of `TimerRuns` are of
  timer calls only, which do not touch the scheduler's state.
- `QueueSizing`, `TimeMath`: creation-size and tick arithmetic in the machine's widths.
- `Witnesses`: concrete runs from initialisation into the states where the code falls short.

A step of a run is one API call up to and including the context switch it makes, as in the host
variant of the port (src/sertos_scheduler.c:384-389). A call that blocks is one step, and what its
task does when it runs again is another. Semaphores, mutexes, queues and stream buffers all check in
one critical section and block in another. Interrupts and other tasks can come between, so for each
of them the runs may also make the block a step of its own, some time after its check:

- Token conservation (`Semaphore.TokensConserved`), mutual exclusion and nesting depth
  (`MutexProtocol`), and the order of items and bytes (`QueueFifo.FifoStep`, `StreamRuns.BytesStep`)
  hold for that finer interleaving too.
- Four properties need the coarse step, and for each the steps that break it are named exactly: no
  waiter beside a free token (`Semaphore.NoIdleTokenStep`), no lost queue wake-up
  (`QueueRuns.NoLostWakeupStep`), a stream side blocks only while it has to and never both do
  (`StreamRuns.BlockingStep`, `StreamRuns.BothBlockIff`), and the owner dominates every waiter
  (`PriorityInheritance.CoversStep`). Over runs they are claimed for runs without those steps, which
  every run of whole calls is, up to a finite caller that gives up a queue wake-up it got.
- `MutexRuns` takes a lock call as one step.

What the code does not do, although its documentation or a reader might expect it:

- A call that waited with a finite timeout reports a timeout even when it was signalled, because
  expiry and wake-up leave the same two fields behind. inc/sertos_scheduler.h:311 promises OK when
  signalled. The status tells an event from an expiry if and only if the wait is unbounded:
  `TimedWaits.StatusTellsEventIff`, `Witnesses.SignalledTimeoutHappens`.
- A receiver that waits with a finite timeout therefore gives up even when it was woken for an item,
  and the wake-up is lost to the receiver behind it; senders dually. `QueueRuns.NoLostWakeupStep`
  says exactly when that harms, `Witnesses.LostWakeupHappens` shows a case.
- An item that an interrupt stores between a receiver's check and its block wakes nobody, and the
  receiver waits beside it: `QueueRuns.ItemBetweenCheckAndBlock`, `Witnesses.MissedItemHappens`. A
  slot freed between a sender's check and its block, dually. A stream consumer that is overtaken
  between its two sections by a producer that fills the buffer leaves both sides blocked:
  `StreamRuns.BothBlockIff`, `Witnesses.BothSidesBlockHappens`.
- A finite lock call that is handed the mutex is told that it timed out. Its task owns the mutex
  with depth 1 and holds nothing, so unless it unlocks what it was told it does not have, nobody
  else gets the mutex again: `MutexProtocol.ReturnKeepsDepthIff`, `MutexRuns.GrantedTimeoutAbandons`,
  `MutexRuns.AbandonedStaysOwned`, `Witnesses.AbandonedMutexHappens`.
- A lock call that times out, or is refused without waiting, leaves the owner with the priority it
  lent until the last unlock: `PriorityInheritance.LoanIsHighestAsker`.
- A contended lock call made with the scheduler locked does not wait. It is told OK and takes the
  mutex from a task that still holds it: `Mutex.ContendedCallReturnsAtOnceIff`,
  `MutexProtocol.ExclusiveStep`, `MutexProtocol.SeizureBreaksExclusion`, `Witnesses.SeizureHappens`.
- Unlocking a mutex whose owner was boosted and runs leaves the owner in the ready queue of its
  boosted priority, so the highest ready task may not preempt: `Mutex.UnlockKeepsPlacementIff`,
  `Mutex.BoostedUnlockDoesNotPreempt`, `Witnesses.BoostedUnlockHappens`.
- Suspend and delete unlink READY tasks only, resume re-queues whatever it is given, and a priority
  change does not move the RUNNING task: `TaskOps.RetireKeepsIff`, `TaskOps.ResumeKeepsIff`,
  `TaskOps.SetPriorityKeepsIff`, `Witnesses.MisusesHappen`. Nor does a priority change move a
  waiter in its list: `WaitOrder.PriorityChangeKeepsOrderIff`.
- A task that suspends or deletes itself stays queued, and goes on running unless slicing is on and
  another task has its priority: `TaskEffects.SelfRetireHandsOverIff`, `Witnesses.MisusesHappen`.
- Dynamic queue creation gets the requested slots exactly up to the largest representable power of
  two; beyond it the rounding loop does not end, or the size has wrapped and is too small:
  `QueueSizing.LoopEndsIff`, `QueueSizing.CreateProvidesIff`.
- A non-zero millisecond delay can convert to zero ticks: `TimeMath.MsToTicksZeroIff`.
- A run-time share loses meaning once 10000 times the part passes 64 bits:
  `Stats.PercentExactIff`.

## Model

| member | source | states |
|---|---|---|
| Placement.SelectNextIsOldestHighest | src/sertos_scheduler.c:273-288 | Bitmap selection and a linear scan agree: it returns t if and only if t is the head of its queue and no task is queued at a higher priority. |
| Placement.SelectNextFindsRunnable | src/sertos_scheduler.c:273-288 | While any task is runnable, Idle in particular, selection is never empty. |
| Placement.SwitchContextKeeps | src/sertos_scheduler.c:348-393 | A context switch keeps every task in exactly the lists its fields name, and the bitmap equal to the set of non-empty queues. |
| Placement.BlockKeeps | src/sertos_scheduler.c:654-690 | Blocking the running task moves it from its ready queue to the wait list and, if timed, the delay list, and keeps the placement invariant. |
| Placement.UnblockKeeps | src/sertos_scheduler.c:627-652 | An event wake-up takes the head waiter out of both lists into its ready queue and keeps the placement invariant. |
| Placement.TickEffectKeeps | src/sertos_scheduler.c:125-158 | Expiry of any number of delayed tasks in one tick keeps the placement invariant. |
| TaskOps.RetireKeepsIff | src/sertos_task.c:225-287 | Suspend and delete keep the placement invariant if and only if the task is READY, or is deleted while suspended. |
| TaskOps.ResumeKeepsIff | src/sertos_task.c:289-310 | Resume keeps the placement invariant if and only if the task is SUSPENDED. |
| TaskOps.SetPriorityKeepsIff | src/sertos_task.c:341-376 | A priority change keeps the placement invariant if and only if the task is not RUNNING or its priority stays the same. |
| TaskLife.IsValidTransition | src/sertos_task.c:190-223 | The loop over the transition table answers exactly the life cycle that suspend, resume and delete consult. |
| TaskLife.LifeOrder | src/sertos_task.c:190-203 | In any sequence of states the table allows, nothing follows termination, and a suspended task is made ready before it runs or blocks. |
| TaskLife.StepFollowsTable | src/sertos_task.c:190-223 | Along kernel runs every state change of a task is one step of the table, or a step to READY and on to RUNNING within one call, and only the calls that are meant to cause it do. |
| TaskLife.TerminatedForGood | src/sertos_task.c:225-287 | Over every run that does not reuse its handle a deleted task stays terminated, and a task ends suspended or terminated only if it was so before or a suspend or delete call for it is in the run. |
| TaskEffects.RetireTakesEffect | src/sertos_task.c:190-287 | Suspend leaves a ready, running or blocked task suspended, and delete any task not yet deleted terminated; of any other they change nothing. |
| TaskEffects.ResumeTakesEffect | src/sertos_task.c:289-310 | Resume makes a suspended, blocked or running task runnable; of a ready or deleted one it changes nothing. |
| TaskEffects.ResumedComesLast | src/sertos_task.c:289-310 | A resumed task is queued behind its equals, and no other queue changes. |
| TaskEffects.SelfRetireHandsOverIff | src/sertos_task.c:225-287 | A task that suspends or deletes itself stays in its ready queue; it goes off the processor if and only if slicing is on and another task has its priority. |
| TaskEffects.SuspendedUntilResumed | src/sertos_task.c:225-310 | Over every run without a resume or delete call for it, a suspended task stays suspended, in no ready queue, and never has the processor. |
| TaskEffects.BaseIsLastGiven | src/sertos_task.c:341-376 | Over every run a task's base priority is the one its creation or a priority call gave it last, whatever it was lent; lent nothing, it runs at that. |
| KernelRuns.StepGood | src/sertos_scheduler.c:244-271 | Every kernel call and every tick keeps the placement invariant, Idle ready, and current equal to what selection would pick unless a switch is pending under the scheduler lock. |
| KernelRuns.PreemptionGuarantee | src/sertos_scheduler.c:348-412 | After every run from initialisation, calls that wake whole lists included, with the scheduler running and unlocked, current is the only RUNNING task and the oldest-queued of the highest ready priority. |
| KernelRuns.WakeAllGood | src/sertos_sem.c:75-102 | Waking every waiter of a list and rescheduling, as a semaphore delete and a stream reset do, keeps the placement invariant and the preemption guarantee. |
| KernelRuns.WakeAllFrees | src/sertos_sem.c:75-102 | Afterwards every task that waited is runnable and correctly placed. |
| KernelRuns.IsrFlagExact | src/sertos_sem.c:172-182 | The flag an interrupt-level signal stores is true if and only if the wake-up leaves the running task no longer the one selection would pick. |
| KernelRuns.WakePreemptsIff | src/sertos_scheduler.c:395-412 | A wake-up takes the processor, or under the scheduler lock asks for a switch, if and only if the woken task outranks the running one. |
| KernelRuns.UnlockGood | src/sertos_scheduler.c:477-495 | Releasing the scheduler lock restores the preemption guarantee, making the switch that was put off. |
| KernelRuns.LockRoundTrip | src/sertos_scheduler.c:468-495 | n locks nest n deep, and n unlocks then leave the kernel exactly as it was. |
| TickWalk.WalkIsSimultaneous | src/sertos_scheduler.c:125-158 | Visiting the delayed tasks one by one, unlinking during the walk, equals counting all down at once: exactly those reaching zero leave the delay list and their wait list, the rest keep their order, and they join their ready queues in delay-list order. |
| TickWalk.WalkCursor | src/sertos_scheduler.c:134-145 | The successor saved before a node is unlinked is the next task of the list as it was when the tick began. |
| TimedWaits.BlockedFrame | src/sertos_scheduler.c:654-690 | No call other than its own wake-up or a tick changes what keeps a blocked task blocked. |
| TimedWaits.TimedWaitCounts | src/sertos_scheduler.c:125-158 | After n ticks fewer than its delay d, a task nobody wakes is still blocked with d - n ticks to go, whatever else ran. |
| TimedWaits.ExactTimedWake | src/sertos_scheduler.c:522-544 | A task delayed or timed-blocked for d ticks becomes runnable at exactly the d-th following tick unless an event wakes it first. |
| TimedWaits.TimedBlockEnds | src/sertos_scheduler.c:654-690 | A call that blocks for at most d ticks and is never woken keeps its task blocked until the d-th tick; after it the task is runnable, in no list, and told that it timed out. |
| TimedWaits.UnboundedBlockStays | src/sertos_scheduler.c:654-690 | A call that blocks without bound stays blocked on its list through every run in which it is not woken, however many ticks pass. |
| TimedWaits.DeadlineBound | src/sertos_scheduler.c:125-158 | However a run with at least d ticks goes, a task timed for d ticks is freed within the first d of them. |
| TimedWaits.FreedByEventOrExpiry | src/sertos_scheduler.c:627-652 | A blocked task is freed only by a wake-up aimed at it or by the last tick of its timeout. |
| TimedWaits.StatusAfterWait | src/sertos_scheduler.c:680-690 | However a wait ended, the status is OK for an unbounded wait and a timeout for a finite one. |
| TimedWaits.StatusTellsEventIff | src/sertos_scheduler.c:680-690 | For any waiter of any list, "OK exactly if an event ended the wait" holds of every call or tick that may end its wait if and only if the wait is unbounded. |
| TimedWaits.LockedBlockReportsOk | src/sertos_scheduler.c:372-375 | Under the scheduler lock a timed block returns OK at once, with its task still current and still a member of the wait list. |
| WaitOrder.OrderedStep | src/sertos_scheduler.c:592-652 | Every wait list stays sorted by priority descending, then by arrival, through insertion, expiry, unblocking and every other call that assigns no waiter's priority. |
| WaitOrder.PriorityChangeKeepsOrderIff | src/sertos_task.c:341-376 | A changed priority leaves a waiter's list in order if and only if the waiter still fits between its two neighbours where it stands. |
| WaitOrder.WakePicksLongestWaitingHighest | src/sertos_scheduler.c:627-652 | In every reachable state the task a wake-up picks outranks every other waiter or has waited longer at equal priority. |
| WaitNodes.LinkedList.InsertByPriority | src/sertos_scheduler.c:592-615 | The hand-written splice keeps the circular doubly linked shape and the count, and is stable insertion before the first node of lower priority. |
| WaitNodes.LinkedList.WaitListRemove | src/sertos_scheduler.c:617-625 | Removal unlinks the node once, keeps the ring, clears its links, and does nothing to a node that is not linked. |
| RoundRobin.TurnStep | src/sertos_scheduler.c:163-176 | No wake-up, creation or block lets a task overtake one queued at the running priority, and each tick brings it one place forward. |
| RoundRobin.RoundRobinBound | src/sertos_scheduler.c:434-455 | A task with i tasks ahead of it becomes current within at most i ticks, whatever equal- or lower-priority wake-ups occur. |
| RoundRobin.RotationExact | src/sertos_scheduler.c:163-176 | With nothing else happening, after m ticks current is element m mod n of the queue. |
| RoundRobin.YieldRotates | src/sertos_scheduler.c:457-466 | A yield, or a delay of zero ticks, rotates the caller's queue, changes no other list, and hands the processor to the task next in line. |
| RoundRobin.YieldsExact | src/sertos_scheduler.c:457-466 | After m such calls with nothing else happening current is element m mod n of the queue. |
| RoundRobin.YieldWithoutSlicing | src/sertos_scheduler.c:163-176 | With slicing off a yield changes nothing. |
| RoundRobin.LockedYieldRotatesAtUnlock | src/sertos_scheduler.c:457-495 | Lock, yield and unlock together are the yield. |
| RoundRobin.QuietTickWithoutSlicing | src/sertos_scheduler.c:163-176 | With slicing off a tick that ends no delay leaves every queue and the processor alone. |
| PeriodicDelay.WakesOnTime | src/sertos_scheduler.c:556-580 | Whatever else runs, a delay_until call made in time sleeps until, and is readied at, exactly the tick last wake + period. |
| PeriodicDelay.DelayIsNeverWoken | src/sertos_scheduler.c:522-580 | No signal, deletion or reset ends the sleep of a task that is delayed without waiting on a list: over any run shorter than the delay it is never woken. |
| PeriodicDelay.InTimeIsMet | src/sertos_scheduler.c:556-580 | Every call that comes in time can be followed by a period that goes as described: a sleep made of ticks alone is one. |
| PeriodicDelay.DriftFree | src/sertos_scheduler.c:556-580 | After any n periods, met or late, in which each call used the wake time the one before handed back, a call that comes in time sleeps until, and is readied at, exactly seed + (n + 1) * period modulo 2^32. |
| PeriodicDelay.PhaseKept | src/sertos_scheduler.c:569-570 | However late the calls come, the wake time handed back after n of them is seed + n * period modulo 2^32. |
| PeriodicDelay.LateCallDoesNotSleep | src/sertos_scheduler.c:572-577 | A late call delays nobody and leaves its caller runnable. |
| PeriodicDelay.LateCallRotates | src/sertos_scheduler.c:572-577 | With slicing on it hands over to the task queued behind its caller. |
| PeriodicDelay.DelayExact | src/sertos_scheduler.c:522-544 | Whatever else runs, a delay of n ticks lasts until the n-th tick and not beyond. |
| DelayOrder.OrderStep | src/sertos_scheduler.c:534-540 | Every call and every tick keeps the delayed tasks in the order in which they went to sleep. |
| DelayOrder.FirstAsleepFirstReady | src/sertos_scheduler.c:125-158 | Of two tasks of one priority whose delays the same tick ends, whatever ran meanwhile, the one that went to sleep first is queued first. |
| Clock.ClockCountsTicks | src/sertos_scheduler.c:434-442 | Over any run the tick count is the number of ticks modulo 2^32, and a running scheduler keeps running. |
| Clock.ClockSinceInit | src/sertos_scheduler.c:178-237 | From initialisation on the tick count is the number of ticks modulo 2^32, and slicing stays as configured. |
| Clock.CallsLeaveClock | src/sertos_scheduler.c:434-442 | No call but the tick moves the clock, and only the start changes whether the scheduler runs. |
| TimeMath.MsToTicksIsLeastIff | inc/sertos_scheduler.h:135-137 | The conversion gives the least number of ticks that lasts ms milliseconds if and only if ms * rate <= 1000 * (2^32 - 1). |
| TimeMath.MsToTicksZeroIff | inc/sertos_scheduler.h:127-137 | A non-zero duration converts to zero ticks if and only if its product lies within 1000 below a multiple of 1000 * 2^32. |
| TimeMath.TicksToMsIsWholeIff | inc/sertos_scheduler.h:139-145 | The conversion back gives the whole milliseconds the ticks last if and only if ticks * 1000 < 2^32 * rate. |
| TimeMath.RoundTripBounds | inc/sertos_scheduler.h:135-145 | Without cast overflow, to ticks and back never shortens, lengthens by less than one tick, and is exact from 1000 Hz on. |
| TimeMath.FastRateFits | inc/sertos_scheduler.h:139-145 | From 1000 Hz on the conversion back never overflows its cast. |
| SchedulerObject.Scheduler.constructor | src/sertos_scheduler.c:178-237 | Initialisation yields the state with only Idle, ready at priority 0. |
| SchedulerObject.Scheduler.AddReady | src/sertos_scheduler.c:244-255 | Appends to the queue of the task's priority, sets the bit, marks READY; nothing else changes. |
| SchedulerObject.Scheduler.RemoveReady | src/sertos_scheduler.c:257-271 | Unlinks from the queue and clears the bit exactly when the queue becomes empty. |
| SchedulerObject.Scheduler.SelectNextTask | src/sertos_scheduler.c:273-288 | Returns the head of the highest queue whose bit is set. |
| SchedulerObject.Scheduler.PerformSwitch | src/sertos_scheduler.c:348-365 | Demotes a RUNNING current to READY and dispatches the selected task. |
| SchedulerObject.Scheduler.SwitchContext | src/sertos_scheduler.c:367-393 | Records a pending switch under the lock, otherwise switches if another task is selected. |
| SchedulerObject.Scheduler.Reschedule | src/sertos_scheduler.c:395-412 | Switches only to a task of strictly higher priority than current. |
| SchedulerObject.Scheduler.ProcessDelayedTasks | src/sertos_scheduler.c:125-158 | The unlinking walk over the delay list has the effect of the simultaneous transformation, and reports whether anything expired. |
| SchedulerObject.Scheduler.ProcessTimeSlicing | src/sertos_scheduler.c:163-176 | Moves current behind its equals if there are any. |
| SchedulerObject.Scheduler.Tick | src/sertos_scheduler.c:434-455 | Advances the clock, expires, rotates, and switches if something expired or slicing is on. |
| SchedulerObject.Scheduler.Delay | src/sertos_scheduler.c:522-544 | Zero ticks yields; otherwise current leaves its queue for the delay list and the processor. |
| SchedulerObject.Scheduler.DelayUntil | src/sertos_scheduler.c:556-580 | Sleeps for the rest of the period, or yields if late, advances the wake time by one period either way, and reports a caller that cannot sleep. |
| SchedulerObject.Scheduler.Lock | src/sertos_scheduler.c:468-475 | Increments the 32-bit nesting count. |
| SchedulerObject.Scheduler.Unlock | src/sertos_scheduler.c:477-495 | The outermost release makes the pending switch; an unmatched one does nothing. |
| SchedulerObject.Scheduler.InsertWaitListPriority | src/sertos_scheduler.c:592-615 | The walk finds the first waiter of lower priority and links there. |
| SchedulerObject.Scheduler.WaitListUnblockHighest | src/sertos_scheduler.c:627-652 | Wakes and returns the head, taking it off the delay list if it was timed; an empty list wakes nobody. |
| SchedulerObject.Scheduler.WaitListBlock | src/sertos_scheduler.c:654-690 | Queues current by priority, starts its timeout unless it waits forever, and switches away. |
| SchedulerObject.Scheduler.WaitStatus | src/sertos_scheduler.c:684-690 | The status a resumed wait evaluates from its timeout and its two fields. |
| SchedulerObject.Scheduler.Create | src/sertos_task.c:101-137 | Registers a READY task and lets it preempt; a priority out of range is refused. |
| SchedulerObject.Scheduler.Retire | src/sertos_task.c:225-287 | Suspend and delete check the life cycle, unlink only a READY task, and yield if the task was current. |
| SchedulerObject.Scheduler.Resume | src/sertos_task.c:289-310 | Re-queues the task it is given and lets it preempt. |
| SchedulerObject.Scheduler.SetPriority | src/sertos_task.c:341-376 | Re-queues a READY task at the new priority, relabels any other, and lets it preempt. |
| Semaphore.SemaphoreObject.Take | src/sertos_sem.c:104-126 | Takes a token, refuses without waiting, blocks, or reports that the caller cannot be blocked before the scheduler runs. |
| Semaphore.SemaphoreObject.Give | src/sertos_sem.c:128-155 | Hands the token to the highest waiter, or stores it, or refuses at the maximum. |
| Semaphore.SemaphoreObject.GiveFromIsr | src/sertos_sem.c:157-192 | As give, without rescheduling, reporting whether the woken task outranks current. |
| Semaphore.SemaphoreObject.Delete | src/sertos_sem.c:75-102 | Wakes every waiter, highest first, then reschedules. |
| Semaphore.TakeTells | src/sertos_sem.c:104-126 | A take succeeds at once if and only if a token is stored, and takes one; it parks if and only if there is none and it may wait; a refusal changes nothing and says why. |
| Semaphore.GiveTells | src/sertos_sem.c:128-155 | A give is refused if and only if nobody waits and the semaphore is full, and then changes nothing; otherwise one token is handed over, if anybody waits, or stored. |
| Semaphore.TakeSucceedsIff | src/sertos_sem.c:104-192 | Under any interleaving a take succeeds at once if and only if more tokens were given or present at the start than were taken and handed over. |
| Semaphore.TokensConserved | src/sertos_sem.c:104-192 | Under any interleaving of checks and blocks: initial + successful gives == count + takes + hand-offs, and count never exceeds its maximum. |
| Semaphore.NoIdleTokenStep | src/sertos_sem.c:104-126 | No task waits while a token is free, after every step if and only if the step is not a block whose check saw no token but whose token has arrived since. |
| Semaphore.NoIdleTokenOverRuns | src/sertos_sem.c:104-192 | In every run of whole calls no task ever waits while a token is free. |
| Semaphore.GiveRefusedIffFull | src/sertos_sem.c:128-155 | In every state that runs of whole calls reach, a give is refused if and only if the semaphore is at its maximum. |
| Semaphore.GiveBetweenCheckAndBlock | src/sertos_sem.c:124-125 | A give that falls between a separated check and block strands the blocking task beside a free token. |
| MutexProtocol.ExclusiveStep | src/sertos_mutex.c:129-226 | A critical section keeps owner, nesting depth and wait list in agreement with what each caller was told if and only if it is not a contended waiting lock call made with the scheduler locked. |
| MutexProtocol.SeizureBreaksExclusion | src/sertos_mutex.c:170-178 | Such a call leaves two tasks both told that they hold the mutex, and the depth at 1. |
| MutexProtocol.MutualExclusion | src/sertos_mutex.c:129-226 | Over every interleaving without such a call two tasks never both hold the mutex; the holder is the owner and the depth counts its locks; owner is null if and only if the depth is 0. |
| MutexProtocol.ResumptionWritesNothing | src/sertos_mutex.c:172-180 | The assignment after an unbounded wait changes neither owner nor depth. |
| MutexProtocol.ReturnKeepsDepthIff | src/sertos_mutex.c:172-180 | A return from a wait keeps the depth equal to the owner's unreleased locks if and only if it is not a finite wait that was handed the mutex and told it timed out. |
| MutexProtocol.AbandonedStaysOwned | src/sertos_mutex.c:129-226 | An owner that is in no lock call stays the owner, at the same depth, through every run without a step of its own. |
| MutexProtocol.DepthOverRuns | src/sertos_mutex.c:129-226 | When callers wait without bound or not at all, and never contend under the scheduler lock, the depth is in every reachable state exactly the owner's locks less its unlocks, once its own lock call has returned. |
| PriorityInheritance.InheritsStep | src/sertos_mutex.c:19-55 | Whole lock, unlock, expiry and return steps keep the owner's priority at least every waiter's and every other task at its base. |
| PriorityInheritance.InheritanceOverRuns | src/sertos_mutex.c:19-55 | Over every run of the protocol, hand-offs and time-outs included, the owner dominates every waiter and every non-owner runs at its base priority. |
| PriorityInheritance.ReleaseInherits | src/sertos_mutex.c:183-226 | A full unlock returns the releaser to its base priority, and the task it hands over to dominates the remaining waiters. |
| PriorityInheritance.LoanIsHighestAsker | src/sertos_mutex.c:19-55 | Under any interleaving of sections without seizures the owner runs at exactly the highest of its base priority and those of the tasks that asked for the mutex and did not get it at once since it got it, and everyone else at its base priority. |
| PriorityInheritance.CoversStep | src/sertos_mutex.c:129-226 | With checks and blocks separated, dominance over the waiters and over the tasks about to block survives a section if and only if it is not a last unlock past a task that stands between its check and its block and outranks the new owner, or finds none. |
| PriorityInheritance.DominanceOverFineRuns | src/sertos_mutex.c:129-226 | Over every interleaving of sections without such an unlock the owner dominates every waiter. |
| PriorityInheritance.SeparationLosesDominanceIff | src/sertos_mutex.c:161-172 | After a last unlock every task between its check and its block can block and leave the owner dominant if and only if there is a first waiter and its base priority is at least that of each of them, or there is no such task. |
| PriorityInheritance.SeparatedCheckLosesInheritance | src/sertos_mutex.c:170-172 | An unlock between another task's check and its block leaves that task waiting above the new owner. |
| Mutex.MutexObject.Lock | src/sertos_mutex.c:129-172 | Claims a free mutex, nests for its owner, refuses without waiting, or boosts the owner and blocks; before the scheduler runs it reports so. |
| Mutex.MutexObject.FinishLock | src/sertos_mutex.c:172-180 | What a resumed lock call writes and returns. |
| Mutex.MutexObject.Unlock | src/sertos_mutex.c:183-226 | Only the owner releases, anyone else is refused; the last release restores its priority and hands over to the highest waiter. |
| Mutex.LockTells | src/sertos_mutex.c:129-172 | A lock call succeeds at once if and only if the mutex is free or its own, and waits if and only if it is contended, may wait and the scheduler runs; anything else is refused, says why and leaves the mutex alone. |
| Mutex.UnlockTells | src/sertos_mutex.c:183-226 | An unlock is accepted if and only if the owner makes it; refused it changes nothing, nested it only lowers the depth, and the last one hands over to the first waiter, if any, and frees that one alone. |
| Mutex.LockProjects | src/sertos_mutex.c:129-172 | The lock call on the whole kernel is, on owner, depth, priorities and waiters, the protocol's step. |
| Mutex.UnlockProjects | src/sertos_mutex.c:183-226 | The unlock call on the whole kernel is the protocol's release step. |
| Mutex.ContendedCallReturnsAtOnceIff | src/sertos_mutex.c:161-172 | A contended lock call that may wait leaves its caller on the processor if and only if the scheduler is locked. |
| Mutex.LockedLockSeizes | src/sertos_mutex.c:172-178 | There it returns OK, writes itself as owner with depth 1, and stays linked among the waiters. |
| Mutex.LockedLockProjects | src/sertos_mutex.c:161-178 | On the protocol's fields that call is a check, a block and a claim, whoever held the mutex. |
| MutexFrame.OthersProject | src/sertos_scheduler.c:654-690 | A kernel call on other lists that writes no priority leaves owner, depth, priorities and waiters of the mutex as they were. |
| MutexFrame.TickProjects | src/sertos_scheduler.c:125-158 | A tick takes exactly the expiring waiters out of the mutex's list, in place, and changes nothing else of it. |
| MutexFrame.ReturnProjects | src/sertos_mutex.c:172-180 | What a resumed lock call does on the whole kernel is the protocol's return. |
| MutexRuns.LinkedStep | src/sertos_mutex.c:129-226 | Every lock, unlock, return, tick and other call takes the kernel to a state of the protocol that keeps exclusion and inheritance, and leaves the lists right for the next call if and only if it was not the last unlock of a boosted owner. |
| MutexRuns.GrantedTimeoutAbandons | src/sertos_mutex.c:172-180 | A finite lock call that was handed the mutex returns a timeout and leaves its task the owner, with depth 1, in no call and holding nothing. |
| MutexRuns.AbandonedStaysOwned | src/sertos_mutex.c:129-226 | On the kernel, a task that owns the mutex outside of any lock call keeps it through every run without a mutex call of its own. |
| MutexRuns.MutexOnTheKernel | src/sertos_mutex.c:129-226 | Over every run of mutex calls, ticks and other calls up to the first such unlock, on the kernel's own fields: no waiter outranks the owner, every other task runs at its base priority, and whoever was told it holds the mutex is the owner, so no two tasks do. |
| Mutex.UnlockKeepsPlacementIff | src/sertos_mutex.c:41-55 | A last unlock by the running owner keeps the placement invariant if and only if it was not boosted. |
| Mutex.BoostedUnlockDoesNotPreempt | src/sertos_mutex.c:41-55 | After a boosted owner's unlock, selection still returns that owner, from the queue of its boosted priority. |
| RingBufferObject.RingBuffer.Write | src/sertos_queue.c:188 | Appends as much of the data as fits beside the one byte kept free, through masked indices that wrap. |
| RingBufferObject.RingBuffer.Peek | src/sertos_queue.c:34-42 | Copies the oldest bytes, also across the end of the buffer, without removing them. |
| RingBufferObject.RingBuffer.FreeBytes | src/sertos_queue.c:20-25 | Capacity less the bytes stored. |
| QueueSizing.NextPowerOfTwo | src/sertos_queue.c:50-57 | The doubling loop ends with the least power of two, at least 2, that reaches the value. |
| QueueSizing.LoopEndsIff | src/sertos_queue.c:50-57 | The loop ends if and only if the value is at most the largest representable power of two. |
| QueueSizing.CreateProvidesIff | src/sertos_queue.c:88-128 | A dynamic create provides the requested slots if and only if item_size * max_items + 1 is at most the largest representable power of two. |
| MessageQueue.QueueObject.Send | src/sertos_queue.c:163-197 | One pass of the loop: a wait that ended with a timeout returns it, a full queue refuses or blocks, otherwise the item is stored whole behind the others and one receiver is woken. |
| MessageQueue.QueueObject.Receive | src/sertos_queue.c:199-233 | One pass of the loop: a wait that ended with a timeout returns it, an empty queue refuses or blocks, otherwise the oldest item is returned whole and one sender is woken. |
| MessageQueue.QueueObject.Peek | src/sertos_queue.c:235-262 | One pass of the loop: a wait that ended with a timeout returns it, an empty queue refuses or blocks with the receivers, otherwise the oldest item is copied, the queue is unchanged and nobody is woken. |
| MessageQueue.QueueObject.SendFromIsr | src/sertos_queue.c:264-300 | Stores or reports a full queue, and reports whether the woken receiver outranks current. |
| MessageQueue.QueueObject.ReceiveFromIsr | src/sertos_queue.c:302-338 | Takes or reports an empty queue, and reports whether the woken sender outranks current. |
| MessageQueue.QueueObject.GetCount | src/sertos_queue.c:340-346 | The number of whole items stored. |
| MessageQueue.QueueObject.GetSpacesAvailable | src/sertos_queue.c:348-354 | The number of items that still fit. |
| MessageQueue.QueueObject.Reset | src/sertos_queue.c:356-369 | Drops every item and wakes nobody. |
| MessageQueue.StoreRepresents | src/sertos_queue.c:163-197 | Storing an item's bytes in a ring that holds whole items leaves a ring that holds those items followed by it. |
| MessageQueue.FetchRepresents | src/sertos_queue.c:199-262 | The first item_size bytes of the ring are the oldest item, and the rest are the others. |
| MessageQueue.CountPlusSpaces | src/sertos_queue.c:340-354 | Stored bytes are a multiple of the item size, and count + spaces equals the capacity in items in every state. |
| MessageQueue.ResumedCalls | src/sertos_queue.c:174-262 | Whatever the queue holds, a send, receive or peek that runs again after a finite wait returns a timeout and changes nothing; after an unbounded one it makes a pass like its first. |
| MessageQueue.OutcomesTell | src/sertos_queue.c:163-338 | A call is told OK if and only if its item went in or came out, and then frees one waiter of the other side and nobody else; it waits, on its own side, if and only if it must and may; a refusal changes nothing and says why. |
| QueueFifo.FifoStep | src/sertos_queue.c:163-338 | Every send, receive, peek, reset and interrupt form, on every timeout, keeps the ring equal to the items written and not yet read, end to end. |
| QueueFifo.TakenFifo | src/sertos_queue.c:199-262 | The bytes a read or a peek returns are the oldest item written and not yet read, also when it wraps the buffer; there are too few bytes exactly when every item has been read. |
| QueueFifo.StepsArePasses | src/sertos_queue.c:163-338 | On a ring of whole items each byte-level step is the pass over items: the same kernel, the same items left, the same item returned. |
| QueueFifo.TimedOutIsPass | src/sertos_queue.c:181-184 | On the ring too, the pass after a finite wait, of a send, a receive or a peek, returns a timeout and writes, reads and wakes nothing. |
| QueueFifo.FifoOverRuns | src/sertos_queue.c:163-369 | Over every run, with any users and timeouts and blocks separated from their checks, the items read since the last reset are a prefix of those written, stored bytes are a whole number of items, and count + spaces is the capacity. |
| QueueRuns.NoLostWakeupStep | src/sertos_queue.c:163-338 | Every whole pass, interrupt form, tick and other call keeps the two counts below. A finite caller that gives up keeps them if and only if nobody else waits on its side or more tasks are woken than there is work; a block separated from its check if and only if the other woken tasks suffice for the work there is. |
| QueueRuns.GiveUpIsTimeout | src/sertos_queue.c:215-223 | A resumed caller is told a timeout if its wait was finite and OK if not, so exactly the finite callers give up. |
| QueueRuns.GiveUpIs | src/sertos_queue.c:181-184 | The pass of a caller whose finite wait is over takes nothing, stores nothing and wakes nobody. |
| QueueRuns.NoLostWakeupOverRuns | src/sertos_queue.c:163-338 | Over every run, of whole calls and of separated checks and blocks, bounded and unbounded, in which no step misses work in that sense, receivers wait only while stored items are at most the receivers woken and not yet resumed, senders dually, so both lists are never non-empty with no woken task pending. |
| QueueRuns.UnboundedLosesNothing | src/sertos_queue.c:163-338 | When calls are whole and wait without bound or not at all, every run is such a run. |
| QueueRuns.ItemBetweenCheckAndBlock | src/sertos_queue.c:210-217 | From every state in which a receiver found the queue empty and nobody else is waiting or woken, an interrupt send wakes nobody, and the receiver's block leaves it waiting beside the item. |
| QueueRuns.SlotBetweenCheckAndBlock | src/sertos_queue.c:174-181 | Dually for a sender that found the queue full and an interrupt receive. |
| StreamBuffer.StreamObject.Send | src/sertos_stream_buffer.c:235-273 | One pass: a wait that ended with a timeout sends nothing, a full buffer refuses or blocks, otherwise what fits is stored and the receiver is woken once the trigger level is reached. |
| StreamBuffer.StreamObject.Receive | src/sertos_stream_buffer.c:275-315 | One pass: below the trigger level it blocks unless it may not or has timed out, otherwise it takes what there is and wakes a sender. |
| StreamBuffer.StreamObject.SendFromIsr | src/sertos_stream_buffer.c:317-343 | Stores what fits and wakes a receiver only if something was stored and the trigger level is reached. |
| StreamBuffer.StreamObject.ReceiveFromIsr | src/sertos_stream_buffer.c:345-370 | Takes what there is whatever the trigger level and wakes a sender if there was anything. |
| StreamBuffer.StreamObject.SetTriggerLevel | src/sertos_stream_buffer.c:372-397 | Level 0 means 1, levels beyond the capacity are refused, and a receiver whose level is now reached is woken. |
| StreamBuffer.StreamObject.Reset | src/sertos_stream_buffer.c:399-421 | Drops every byte, wakes every sender, then reschedules. |
| StreamBuffer.SendTells | src/sertos_stream_buffer.c:235-273 | A send waits, with the senders, if and only if the buffer is full and it may; otherwise it stores a prefix of its data, all of it or up to a full buffer, and frees one waiting receiver exactly if the trigger level is reached. |
| StreamBuffer.ReceiveTells | src/sertos_stream_buffer.c:275-315 | A receive waits, with the receivers, if and only if there is less than the trigger level and it may; otherwise it takes the oldest bytes, its maximum or all there are, and frees one waiting sender if that is any. |
| StreamBuffer.ResumedCalls | src/sertos_stream_buffer.c:235-315 | After a finite wait a send sends nothing and a receive takes what there is; neither waits again. |
| StreamBuffer.TriggerGoverns | src/sertos_stream_buffer.c:372-397 | A level the buffer can hold decides from then on whether a receive waits, and frees one waiting receiver if it is reached already; a level it cannot hold is refused and changes nothing. |
| StreamRuns.BytesStep | src/sertos_stream_buffer.c:235-421 | Bytes accepted are bytes received followed by bytes stored, in order, through every event, separated blocks included. |
| StreamRuns.BlockingStep | src/sertos_stream_buffer.c:235-421 | A blocked consumer means fewer bytes than the trigger level and a blocked producer a full buffer, after every event if and only if the event is not a block separated from its check that need no longer block. |
| StreamRuns.BothBlockIff | src/sertos_stream_buffer.c:254-303 | A block separated from its check leaves both sides blocked if and only if the other side is blocked already. |
| StreamRuns.StreamOverRuns | src/sertos_stream_buffer.c:235-421 | Over every run with one producer and one consumer in which no side blocks that need not, as in runs of whole calls, received bytes are a prefix of accepted ones, the rest is stored, and the two sides are never both blocked. |
| StreamRuns.AcceptedOnlyGrows | src/sertos_stream_buffer.c:235-397 | Without a reset neither log is ever shortened. |
| Timers.TimerService.StartTimer | src/sertos_timer.c:107-126 | Unlinks an active timer, gives it its whole period, and links it at the tail. |
| Timers.TimerService.StopTimer | src/sertos_timer.c:128-149 | Unlinks an active timer; an inactive one is left alone. |
| Timers.TimerService.ChangeTimerPeriod | src/sertos_timer.c:156-167 | Refuses a zero period, otherwise sets it and restarts the timer. |
| Timers.TimerService.DeleteTimer | src/sertos_timer.c:84-105 | Unlinks an active timer and forgets it. |
| Timers.TimerService.Tick | src/sertos_timer.c:177-216 | The walk that unlinks fired one-shot timers has the effect of advancing every linked timer at once, calling back in list order. |
| Timers.AdvanceStep | src/sertos_timer.c:193-214 | Visiting the next timer extends the simultaneous transformation by exactly that timer. |
| TimerRuns.ActiveIffLinkedOnce | src/sertos_timer.c:107-216 | In every reachable state a timer is active if and only if it is linked, and it is linked once. |
| TimerRuns.FiresOnItsOwn | src/sertos_timer.c:177-216 | Over any run without a call on it, a timer's state and callbacks are those of a lone timer, whatever happens to the others during the walk. |
| TimerRuns.StartedTimerFires | src/sertos_timer.c:107-216 | n ticks after its start a periodic timer has fired n / P times with P - n mod P ticks to go; a one-shot has fired once if and only if n >= P and is then unlinked. |
| TimerRuns.StoppedTimerRests | src/sertos_timer.c:128-149 | A stopped timer is unlinked and makes no callback until it is started again, whatever the others do. |
| TimerRuns.DeletedTimerIsGone | src/sertos_timer.c:84-105 | A deleted timer is gone from the list and the service, and makes no callback again. |
| TimerRuns.CreatedTimerRests | src/sertos_timer.c:28-58 | A new timer is unlinked and makes no callback until it is started. |
| TimerRuns.ChangedPeriodRestarts | src/sertos_timer.c:156-167 | A changed period counts from the change: the time already spent is lost. |
| TimerRuns.CallbacksInListOrder | src/sertos_timer.c:193-214 | Timers that fire in the same tick call back in the order they are linked. |
| TimerRuns.StartedLaterFiresLater | src/sertos_timer.c:107-126 | Of two timers that fire in the same tick, the one started while the other was running calls back second, whatever happened in between. |
| Stats.Statistics.RecordSwitch | src/sertos_stats.c:123-145 | Charges the outgoing task the wrapped counter difference and starts the incoming one; counts the switch if they differ. |
| Stats.Statistics.Reset | src/sertos_stats.c:147-154 | Zeroes every registered task's counters and restarts it at this sample. |
| Stats.Statistics.TotalRunTime | src/sertos_stats.c:80-86 | The 64-bit sum over every registered task, and their number. |
| Stats.Statistics.GetTasks | src/sertos_stats.c:184-204 | Fills at most capacity records in registry order, each with its share of the total over all tasks; the rest of the array is untouched. |
| Stats.Statistics.CpuLoad | src/sertos_stats.c:235-244 | The load and Idle's share make 10000 while the total fits 64 bits; without accounting it is 0. |
| Stats.PercentInRange | src/sertos_stats.c:50-57 | A share never exceeds 10000, even when the product wraps. |
| Stats.PercentExactIff | src/sertos_stats.c:50-57 | The computed share is the true one rounded down if and only if 10000 times the part fits 64 bits. |
| Stats.SharesSumUp | src/sertos_stats.c:184-204 | The shares of a full snapshot of n tasks sum to more than 10000 - n and at most 10000, barring overflow. |
| StatsRuns.WrappedDifference | src/sertos_stats.c:133-136 | The 32-bit difference of two samples is the true one if and only if they are less than 2^32 apart. |
| StatsRuns.AccountingOverRuns | src/sertos_stats.c:123-154 | Over every run each total is the true time its task ran modulo 2^64, the totals sum to the time from the later of first switch and last reset to the last switch, each switch count is how often its task was switched to from another since the last reset, and total_switches how often any was, modulo 2^32. |
| StatsRuns.SnapshotSharesAddUp | src/sertos_stats.c:184-204 | In every reachable state within 64-bit range a full snapshot's shares lose less than a hundredth of a percent per task. |
| StatsRuns.SnapshotTells | src/sertos_stats.c:184-204 | In every reachable state a record gives its task's true run time and switch count and, while the product fits, its true share of the time covered, rounded down. |
| StatsRuns.RegistryInCreationOrder | src/sertos_scheduler.c:315-330 | Over every run snapshots list the tasks in the order of their creation, which nothing else changes. |
| KernelAccounting.StepIsOneSwitch | src/sertos_scheduler.c:348-365 | Every kernel call and tick performs at most one switch, and one, from the task that was current, exactly if it changes the current task; only a creation adds a task. |
| KernelAccounting.TotalsAreOccupancy | src/sertos_stats.c:123-145 | Over every run of the kernel each task's total is, modulo 2^64, the time it was the kernel's current task in completed turns. |
| KernelAccounting.SwitchCountsAreChanges | src/sertos_stats.c:123-145 | Over every run of the kernel each task's switch count is the number of calls that made it the current task instead of another, and the global count the number that changed the current task, modulo 2^32. |
| Witnesses.BoostedUnlockHappens | src/sertos_mutex.c:183-226 | A run from initialisation, of a creation, a start, a lock, a higher creation and its contended lock, reaches a state whose unlock leaves the outranked releaser running beside the runnable new owner. |
| Witnesses.SeizureHappens | src/sertos_mutex.c:170-178 | After a run from initialisation in which the first task holds the mutex, the second, having locked the scheduler, is told OK by its lock call at once. |
| Witnesses.SignalledTimeoutHappens | src/sertos_scheduler.c:680-690 | After a run from initialisation a task that waits for at most five ticks and is signalled before the first is told it timed out. |
| Witnesses.LostWakeupHappens | src/sertos_queue.c:199-233 | In a run from initialisation two tasks receive, the first with a finite timeout, and one item arrives; the first, woken for it, leaves without it, and the second goes on waiting beside the item with nobody woken. |
| Witnesses.MissedItemHappens | src/sertos_queue.c:210-217 | After a run from initialisation a receiver finds the queue empty, an interrupt stores an item, and the receiver blocks beside it with nobody woken. |
| Witnesses.BothSidesBlockHappens | src/sertos_stream_buffer.c:254-303 | After a run from initialisation the consumer is overtaken between check and block by a producer that fills the stream and blocks; then both are blocked. |
| Witnesses.AbandonedMutexHappens | src/sertos_mutex.c:172-226 | A run from initialisation in which the second task's finite lock call is handed the mutex ends with it the owner at depth 1, in no call and holding nothing. |
| Witnesses.MisusesHappen | src/sertos_task.c:225-376 | With one task running after initialisation, suspending, deleting, resuming or re-prioritising it breaks the placement invariant, and the suspended task is still the current one. |

## Left out

- The port layer: register-level context switches, tick hardware, host threads. Critical sections are the step boundaries of the model, and the run-time counter is an input.
- Stack set-up and painting, the CRC over a control block, magic words, names, NULL checks and the registry's visitor callbacks; handles are identifiers, and a handle that is not in the map stands for one that fails its checks.
- Allocation and the dynamic/static flag, except for the size arithmetic of queue creation.
- The `linked_list`, `bitmap`, `ring_buffer`, `atomic` and `memory_pool` modules are not part of this model beyond what their use shows: circular lists with a root and a count, find-last-set as the highest member of a set, a ring indexed by `& mask` with one byte kept free. Memory ordering inside the ring is not modelled.
- Outside `WaitNodes`, an intrusive list is a sequence of identifiers held by the object; only `WaitNodes` works on next and prev pointers.
- Blocking loops: each pass of a send or receive loop is one call of the modelled method, and the task makes the next pass when it runs again; the runs quantify over every order of passes.
- The message queue object's methods take the queue's items as a ghost argument and return the new ones; nothing else is assumed about it than that it matches the ring.
- KernelRuns.StepGood: nested scheduler locks stay below 2^32, a task blocks only with the scheduler unlocked, and Idle never blocks; the source checks none of this. `TimedWaits.LockedBlockReportsOk` shows what a block under the lock does.
- KernelRuns.PreemptionGuarantee: runs suspend and delete READY tasks (and delete suspended ones), resume suspended ones, and change priorities of tasks that are not RUNNING. The three iff lemmas in `TaskOps` say that these are exactly the uses that keep the lists right; what follows from other uses is not modelled.
- Stopping the scheduler, a tick initialisation that fails, the tick and idle hooks, and `sertos_scheduler_set_current_tcb`.
- MutexProtocol.MutualExclusion: no contended waiting lock call is made with the scheduler locked (`MutexProtocol.ExclusiveStep` says that this is exactly what breaks it). One mutex; several nested mutexes share one priority field but each saves its own, so inheritance is claimed for one. Nesting stays below 2^32.
- MutexRuns.MutexOnTheKernel: a lock call is one step, and one that would wait is made with the scheduler unlocked. What the kernel does after the last unlock of a boosted owner is not modelled, since its lists are then wrong (`Mutex.UnlockKeepsPlacementIff`); a run may end with such an unlock. No set_priority call and no other mutex's boost during a run, and a creation uses a fresh handle.
- Deleting a mutex, queue or stream buffer, and using any object after its deletion. Deleting a semaphore is modelled up to the wake-up of its waiters.
- QueueRuns.NoLostWakeupOverRuns: no finite caller gives up a wake-up that was needed and no separated block misses work (`QueueRuns.NoLostWakeupStep` says that these are exactly what breaks it), and there is no blocking peek (peekers share the receivers' list) and no reset (it wakes no sender). A task is not deleted in the middle of a call.
- StreamRuns.StreamOverRuns: one producer and one consumer, as the interface documents, and no separated block that need no longer block (`StreamRuns.BlockingStep` says that this is exactly what breaks it).
- TimerRuns.FiresOnItsOwn: the runs contain timer calls and ticks, and no other kernel call.
- Timer and hook callbacks that call back into the kernel, and creating a timer in storage whose timer is still active.
- KernelAccounting.TotalsAreOccupancy: no task is deleted, no handle is used twice, and the accounts are not reset during the run; `KernelAccounting.SwitchCountsAreChanges` likewise.
- StatsRuns.AccountingOverRuns: accounting is on throughout, tasks are not deleted, and samples come less than 2^32 counter units apart while a task runs.
- Stats.Statistics.GetTasks: the record's name, priority, state and stack mark are copies of fields and are not part of the record modelled.
- The system snapshot and the single-task snapshot (src/sertos_stats.c:156-182, 206-233) only copy values that the modelled members compute.
