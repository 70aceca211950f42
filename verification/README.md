# The kernel, proved

A Dafny model of the FreeRTOS V10.5.1 kernel sources that the AT client runs on, with proofs of what
the kernel promises over all runs.  `dafny verify dfyconfig.toml` checks everything.

The model follows the program: code that updates structures in place is a class whose methods mirror
the C functions loop by loop, proved equal to functions on plain values; the theorems are about those
functions and about state machines built from them.

- **Lists** (`IntrusiveList`): the circular doubly linked list with real pointers refines a sequence
  of turns, which is the ready list of the scheduler model.  `Wheel` and `Ticks` hold the scheme that
  the scheduler and the timers share: two lists keyed by 32-bit times that stand for one list of
  unbounded times.
- **Queues**: `QueueSections` says what each critical section does, `QueueProtocol` interleaves the
  sections of any number of tasks with interrupts, `QueueCalls` says what the calls come to over whole
  runs, `QueueReset` resets a queue in use, and `Queue` is the object with its byte ring.  The main result is that no wake-up is lost, exactly as long as there are at
  most 127 tasks: the lock counters are `int8_t`, their cap is the number of tasks, and the assertion that
  guards the overflow is compiled out.
- **Scheduler**: `SchedulerSpec` is the kernel in unbounded time with the obvious tick, `SchedulerRuns`
  proves its invariants and wake-up theorems, `SchedulerLaws` says what each call does to the task it is
  about and to nobody else, who runs, and in which order tasks are served, and `Scheduler` is the code with two delayed lists, wrap,
  cached unblock time, pended ticks and cached top priority, proved to do the same.
- **Time-outs** (`Timeouts`): xTaskCheckForTimeOut and xTaskDelayUntil, with the exact conditions under
  which the wrapped arithmetic is right.
- **Mutexes**: `MutexSections`, `MutexProtocol` (takes, waits, gives and time-outs interleaved: accounts,
  base priorities, lists, over all runs), `MutexBound` (the inheritance bound, under two hypotheses),
  `MutexLimits` (without hypotheses: exactly which takes, starts of waiting and lowerings keep the bound,
  and so exactly which runs do), `MutexBreaks` (a run for each of the three kinds of step that is the
  first to break it) and `Mutexes` (the code).
- **Stream and message buffers**: `Framing`, `StreamBuffer` (the code), `StreamProtocol`, where one
  writer and one reader interleave at every index load, byte copied and index store, and `StreamSends`,
  which ties what they publish and hand out to the calls in the run.
- **Software timers**: `TimerSpec`, `TimerRuns`, `TimerLaws` (command by command) and `Timers`.  The present configuration compiles
  timers.c out; the file is modelled as it stands.
- **Event groups**: `EventBits` (words and packed item values), `EventSpec`, `EventRuns`,
  `EventLaws` (bit by bit and task by task) and `EventGroups`.

Configuration as in `USER/FreeRTOSConfig.h`: preemption, 32-bit ticks, mutexes, any number of priority
levels, assertions empty, generic C task selection, no queue sets.  A critical section, and a stretch
with the scheduler suspended as far as other tasks are concerned, is one atomic step; interrupts may
come between any two sections.  The model's clock is the epoch (number of tick wraps) times 2^32 plus
`xTickCount`.

Reading the code against its own comments:

- The comment above the lock counters says that capping them at the number of tasks loses nothing.
  That holds up to 127 tasks; `NeverStrandsIff127` is the exact statement and `StrandingRuns` the run.
- `xQueueGenericReset` on a live queue wakes one sender although several slots become free.
  `ResetStrandsIff` says exactly when that strands another, `AResetStrands` gives a run.
- Overwriting a queue of length one whose items are empty raises its count above its length when it is
  full; `Queue.Queue.TryPost` says so exactly.  A sender then goes round its loop without ever waiting
  (`OverfullSenderSpins`).
- A holder can fall below a task that waits for it in three ways, and in no other (`StepKeepsBoundIff`,
  `BoundThroughoutIff`).  A giver may take the mutex again before the task that it woke
  (`StealBreaksTheBound`).  Inheritance goes one holder far (`ChainBreaksTheBound`).  After a time-out the
  holder is lowered to the priority at the head of the list, which the comment in the code calls the
  highest that waits; a task that has inherited where it stands may be further back
  (`StaleHeadBreaksTheBound`).
- A block for no time, which the timer daemon asks for right after a wrap, lasts one tick
  (`ZeroBlockWakesNextIff`).  At the last tick before a wrap it would be on the present list when the
  lists change places, against the assertion there, and last two wraps (`ZeroBlockTwoWrapsLate`).
- A timer daemon that does not read the tick count for a whole wrap loses the wraps (`SeenIff`).
- A timer with period zero would make prvReloadTimer loop for ever: with a zero period
  `ExpiredAlreadyIff` makes every answer "process now".

## Model

| member | source | states |
|---|---|---|
| `IntrusiveList.List.constructor` | FreeRTOS/list.c:50-83 | an initialised list is its end marker linked to itself, with the index on it |
| `IntrusiveList.List.InsertEnd` | FreeRTOS/list.c:98-125 | links, counts, containers and index stay consistent; the new item is served after every item waiting its turn, nothing else moves, and the ready list that it stands for gains its owner at that turn |
| `IntrusiveList.List.Insert` | FreeRTOS/list.c:128-197 | on a list in ascending order the walk ends, also for the value `portMAX_DELAY`, and the result is the stable sorted insertion (behind items of equal value) |
| `IntrusiveList.List.Remove` | FreeRTOS/list.c:199-225 | the item leaves the ring, an index on it falls back, the turns of all the others keep their order, and the ready list loses its owner |
| `IntrusiveList.List.Advance` | FreeRTOS/tasks.c:136-151 | the index moves to the next item, skipping the end marker; the item served takes the last turn, which is the turn that the scheduler model gives |
| `IntrusiveList.List.Serve` | FreeRTOS/tasks.c:136-151 | as many calls as there are items, over the real pointers, serve every item exactly once, in the order of the turns, and leave that order as it was |
| `IntrusiveList.EqualShares` | FreeRTOS/tasks.c:136-151 | any number of calls up to that serves just the first turns and puts them behind the others |
| `Wheel.InsertUnique` | FreeRTOS/list.c:128-197 | stable sorted insertion is the only way to put an entry before the first later one and stay sorted |
| `Wheel.InsertMerged` | FreeRTOS/tasks.c:5297-5369 | putting a wrapped time on the list of its epoch is sorted insertion of the unbounded time into the one list that the two lists stand for |
| `Wheel.MergeDue` | FreeRTOS/tasks.c:2783-2834 | at a tick only entries of the current list fall due, and they are exactly those due in unbounded time |
| `Wheel.MergeSwapped` | FreeRTOS/tasks.c:201-213 | exchanging the lists, with the current one empty, leaves the merged list as it was |
| `Wheel.DueIsPrefix` | FreeRTOS/tasks.c:2783-2834 | taking a sorted list from the front until an entry is not due takes exactly the due ones |
| `Ticks.MinusAgrees` | FreeRTOS/tasks.c:3306-3368 | a wrapped difference is the true distance if and only if the times are less than a wrap apart |
| `QueueProtocol.NoLostWakeUp` | FreeRTOS/queue.c:251-293 | every run of up to 127 tasks: while tasks wait to receive, messages are covered by woken receivers that have not retried plus the wake-ups owed by the lock counter (or the counter has reached the task count); dually for senders and free slots; at quiescence nobody waits for what is there |
| `QueueProtocol.NeverStrandsIff127` | FreeRTOS/queue.c:270-293 | over all runs no task is ever stranded if and only if there are at most 127 tasks |
| `QueueProtocol.StrandingRuns` | FreeRTOS/queue.c:270-283 | from 128 tasks on: a concrete run in which the transmit counter wraps to -128 and the unlock wakes nobody |
| `QueueProtocol.StormRuns` | FreeRTOS/queue.c:1099-1196 | a locked queue that interrupts fill and empty in turn reaches any lock counts up to 127 |
| `QueueProtocol.WakesTheMostUrgent` | FreeRTOS/tasks.c:3169-3215 | in every run the head of an event list has the highest priority among those that wait |
| `QueueProtocol.OverfullSenderSpins` | FreeRTOS/queue.c:856-1030 | beside a queue that holds more than its length a sender neither posts nor waits: after the eight sections of its loop everything is as it was |
| `QueueCalls.MessagesConserved` | FreeRTOS/queue.c:835-1044 | in every run the messages in the queue are those posted less those received, an overwrite of a full queue counting as neither |
| `QueueCalls.CallEndsIff` | FreeRTOS/queue.c:856-960 | at the top of its loop a call is over if and only if it succeeds or has no block time left; success wakes the first task that waits for what it leaves behind, and nobody else |
| `QueueCalls.ExpiredCallGivesUp` | FreeRTOS/queue.c:1033-1043 | whatever interrupts do in between, a call that finds its time over is done after unlocking and resuming: a send has ended, a receive or peek looks once more |
| `QueueCalls.UnlockWakes` | FreeRTOS/queue.c:2279-2395 | an unlock wakes as many tasks as its counter owes, from the front of the list, and no more |
| `QueueCalls.ExpireRemoves` | FreeRTOS/tasks.c:2783-2834 | a task whose block time runs out leaves the event lists, and nobody else does |
| `QueueReset.ResetCover` | FreeRTOS/queue.c:296-345 | resetting a live queue keeps the receivers covered, and the senders if and only if at most one waits or no more slots are free than senders are woken |
| `QueueReset.ResetStrandsIff` | FreeRTOS/queue.c:318-336 | some continuation of a reset strands a sender, asleep beside free slots with nobody left to wake it, if and only if at least two wait and more slots become free than senders are woken |
| `QueueReset.AResetStrands` | FreeRTOS/queue.c:318-336 | a run from the start of the kernel that does: a full queue of two, two senders, a reset, and the one woken posts |
| `QueueReset.BothComeToWait` | FreeRTOS/queue.c:856-1030 | the run up to the reset, through every section of the send loop |
| `QueueProtocol.RunsKeepInv` | FreeRTOS/queue.c:835-1044 | the invariant that joins lock counters, event lists, woken tasks and program points holds in every run |
| `QueueProtocol.KeepsTrying` | FreeRTOS/queue.c:856-960 | the first section of send, receive and peek keeps the invariant on every branch |
| `QueueProtocol.KeepsPlacing` | FreeRTOS/queue.c:986-1011 | going on the event list after the re-check keeps the invariant |
| `QueueProtocol.KeepsIsrPost` | FreeRTOS/queue.c:1099-1196 | a post from an interrupt, on a locked or unlocked queue, keeps the invariant |
| `QueueProtocol.KeepsIsrTake` | FreeRTOS/queue.c:1914-1959 | a receive from an interrupt keeps the invariant |
| `QueueProtocol.KeepsUnlockTx` | FreeRTOS/queue.c:2279-2365 | paying back the transmit counter keeps the invariant, with interrupts before the second section |
| `QueueProtocol.KeepsUnlockRx` | FreeRTOS/queue.c:2367-2395 | paying back the receive counter keeps the invariant |
| `Queue.Queue.constructor` | FreeRTOS/queue.c:494-540 | a new queue is empty and unlocked, with the write position at the first slot and the read position at the last |
| `Queue.Queue.CopyBack` | FreeRTOS/queue.c:2201-2213 | the item goes in the slot `(read + 1 + count) mod length`; the contents grow by it at the back |
| `Queue.Queue.CopyFront` | FreeRTOS/queue.c:2214-2246 | the item goes in the slot read last; the contents grow by it at the front, or it replaces the only message |
| `Queue.Queue.CopyOut` | FreeRTOS/queue.c:2258-2276 | what is copied out is the oldest message |
| `Queue.Queue.TryPost` | FreeRTOS/queue.c:856-960 | posts if there is room or it overwrites; contents become the abstract deposit; the head of the waiting receivers is woken; the count stays within the length unless a full queue of empty items is overwritten |
| `Queue.Queue.PostFromIsr` | FreeRTOS/queue.c:1099-1196 | the same from an interrupt, except that a locked queue counts the event, capped |
| `Queue.Queue.TryTake` | FreeRTOS/queue.c:1403-1440 | takes exactly the oldest message if there is one and wakes the head of the waiting senders |
| `Queue.Queue.TakeFromIsr` | FreeRTOS/queue.c:1914-1959 | the same from an interrupt, deferring the wake-up on a locked queue |
| `Queue.Queue.TryPeek` | FreeRTOS/queue.c:1758-1795 | answers the oldest message, leaves contents and count alone and wakes a receiver |
| `Queue.Queue.LockQueue` | FreeRTOS/queue.c:251-264 | unlocked counters become zero, locked ones stay |
| `Queue.Queue.UnlockTx` | FreeRTOS/queue.c:2279-2365 | wakes one receiver for every deferred event, in list order, while there are any |
| `Queue.Queue.UnlockRx` | FreeRTOS/queue.c:2367-2395 | wakes one sender for every deferred event, in list order, while there are any |
| `Queue.Queue.Reset` | FreeRTOS/queue.c:296-345 | the queue is empty and unlocked and one sender is woken |
| `Queue.BackAppends` | FreeRTOS/queue.c:2201-2213 | writing the write slot appends to the messages of the ring, at every wrap position |
| `Queue.FrontPrepends` | FreeRTOS/queue.c:2214-2246 | writing the slot read last prepends to them |
| `Queue.TakeDrops` | FreeRTOS/queue.c:2258-2276 | moving the read slot on removes the oldest message |
| `Scheduler.Scheduler.constructor` | FreeRTOS/tasks.c:2036-2038 | the kernel as the scheduler starts it, with the idle task alone |
| `Scheduler.Scheduler.ResetNextUnblockTime` | FreeRTOS/tasks.c:3999-4017 | the cache is the head of the delayed list, so no wake time on it is earlier |
| `Scheduler.Scheduler.SwitchDelayedLists` | FreeRTOS/tasks.c:201-213 | the two lists change places, empty or not, the overflow count goes up and the cache is sound again |
| `Scheduler.Scheduler.UnblockDue` | FreeRTOS/tasks.c:2783-2834 | the loop readies exactly the due entries, in order, takes them off their event lists and leaves a sound cache |
| `Scheduler.Scheduler.ProcessTick` | FreeRTOS/tasks.c:2720-2878 | the gated tick with two lists and a cache does exactly what looking at every sleeper does, across the wrap |
| `Scheduler.Scheduler.IncrementTick` | FreeRTOS/tasks.c:2720-2890 | while the scheduler is suspended a tick is only counted; otherwise it is processed; the switch request is exact |
| `Scheduler.Scheduler.AddCurrentToDelayedList` | FreeRTOS/tasks.c:5297-5369 | the task is put to sleep until `now + ticks` in unbounded time, or, for ever, on the list of suspended tasks and on no delayed list; for no time at all at the last tick before a wrap, until two wraps later; the cache stays sound |
| `Scheduler.Scheduler.PlaceOnEventList` | FreeRTOS/tasks.c:3083-3105 | the current task goes on an event list and to sleep, or, with `portMAX_DELAY`, on no list that a tick looks at |
| `Scheduler.Scheduler.PlaceOnEventListRestricted` | FreeRTOS/tasks.c:3136-3163 | the timer daemon goes on its event list and to sleep, for ever or for a time, which may be none |
| `Scheduler.Scheduler.RemoveFromEventList` | FreeRTOS/tasks.c:3169-3230 | the task is readied, or held pending while the scheduler is suspended |
| `Scheduler.Scheduler.RemoveFromUnorderedEventList` | FreeRTOS/tasks.c:3237-3283 | with the scheduler suspended, a task that an event group releases leaves its event list and is readied at once |
| `Scheduler.Scheduler.SuspendAll` | FreeRTOS/tasks.c:2090-2108 | the depth goes up and nothing else changes |
| `Scheduler.Scheduler.DrainPending` | FreeRTOS/tasks.c:2201-2225 | every pending task is readied, once, in order, and a yield is requested if and only if one of them has at least the running priority |
| `Scheduler.Scheduler.UnwindTicks` | FreeRTOS/tasks.c:2227-2262 | the pended ticks are processed, none is lost, and a yield is requested if and only if one of them requests a switch |
| `Scheduler.Scheduler.ResumeAll` | FreeRTOS/tasks.c:2174-2283 | the outermost resume readies the pending tasks and then takes the pended ticks as if unsuspended; it answers true if and only if a yield was pending, a pending task has at least the running priority, or one of the pended ticks requests a switch |
| `Scheduler.Scheduler.SuspendTask` | FreeRTOS/tasks.c:1673-1750 | the task leaves its state list and its event list and is parked; the caller must yield if it suspends itself |
| `Scheduler.Scheduler.ResumeTask` | FreeRTOS/tasks.c:1825-1873 | only a task that is suspended, and not waiting or pending, is readied |
| `Scheduler.Scheduler.ResumeFromIsr` | FreeRTOS/tasks.c:1879-1950 | the same from an interrupt, pending while the scheduler is suspended |
| `Scheduler.Scheduler.AddNewTask` | FreeRTOS/tasks.c:1026-1108 | the new task goes on the ready list of its priority and the cached top priority covers it |
| `Scheduler.Scheduler.DeleteTask` | FreeRTOS/tasks.c:1112-1210 | another task is gone from every list; the running one waits to be cleaned up and must yield |
| `Scheduler.Scheduler.CleanUp` | FreeRTOS/tasks.c:3689-3713 | every terminated task is removed and uncounted |
| `Scheduler.Scheduler.SelectHighestPriorityTask` | FreeRTOS/tasks.c:136-151 | with a ready task the downward search ends without underflow at the highest non-empty list, whose first in turn becomes the running task |
| `Scheduler.Scheduler.SwitchContext` | FreeRTOS/tasks.c:3009-3080 | the first in turn on the highest list that holds a task runs next; while the scheduler is suspended the switch is left pending and nothing else changes |
| `Scheduler.WakeTime` | FreeRTOS/tasks.c:5325-5350 | a wake time that wraps is in the next epoch; one that does not is in this one, or, for no time at all at the last tick, in the epoch after the next |
| `Scheduler.InsertMergedAt` | FreeRTOS/tasks.c:5325-5367 | choosing the list by whether the wake time wraps inserts the unbounded wake time into the one list that the two stand for, at every tick and for every block time |
| `Scheduler.LastTickMerge` | FreeRTOS/tasks.c:2720-2850 | once a tick has been processed nothing is left on the present list at the last tick before a wrap, so both readings of the two lists agree |
| `Scheduler.TopUnique` | FreeRTOS/tasks.c:136-151 | the list where the downward search stops is the highest non-empty one |
| `SchedulerRuns.StartedInv` | FreeRTOS/tasks.c:1954-2062 | the kernel starts in the invariant |
| `SchedulerRuns.RunsKeepInv` | FreeRTOS/tasks.c:2720-2890 | every run of ticks, delays, waits, wakes, releases by event groups, suspends, resumes, creations, deletions and switches keeps it |
| `SchedulerRuns.ListsPartitionTasks` | FreeRTOS/tasks.c:1026-1183 | every task's state item is on exactly one list, once; a task on ready list `p` has priority `p`; the list lengths sum to the number of tasks; nothing is pending while the scheduler runs |
| `SchedulerRuns.TicksConserved` | FreeRTOS/tasks.c:2880-2882 | processed ticks plus pended ticks are the tick interrupts taken, at every point of every run |
| `SchedulerRuns.SuspensionIsTransparent` | FreeRTOS/tasks.c:2174-2283 | whatever interrupts do while the scheduler is suspended, ticks, event wake-ups and resumes in any order, the outermost resume ends in the same state as those moves and then those ticks without suspension |
| `SchedulerRuns.WokenAndOverdueOnce` | FreeRTOS/tasks.c:2196-2262 | a task woken by an event, or released by an event group, while the scheduler was suspended, overdue or not, is afterwards on its ready list and on no other list, once |
| `SchedulerRuns.AsleepUntilWake` | FreeRTOS/tasks.c:2754-2834 | a sleeper that nobody aims at sleeps on through any run until its wake time |
| `SchedulerRuns.SleeperWakes` | FreeRTOS/tasks.c:2754-2834 | any sleeper that nobody aims at is readied by the step that processes its wake tick, and not before, in every run |
| `SchedulerRuns.ExactWake` | FreeRTOS/tasks.c:5297-5369 | a task blocked for `n` ticks, by a delay or by a timed wait that no event ends, is readied by the step that processes the `n`-th tick, and not before, for any start and any number of wraps |
| `SchedulerRuns.ZeroBlockWakesNextIff` | FreeRTOS/tasks.c:5297-5369 | a task blocked for no time is readied by the next tick if and only if that tick does not wrap |
| `SchedulerRuns.ZeroBlockTwoWrapsLate` | FreeRTOS/tasks.c:201-213 | if it does, the task sleeps through every run that does not aim at it until two full wraps have been processed, and is readied by the step that processes the last of them |
| `SchedulerRuns.TopIsHighest` | FreeRTOS/tasks.c:124-151 | no list above the top priority holds a task, and its own does if any does |
| `SchedulerLaws.SwitchRunsTheMostUrgent` | FreeRTOS/tasks.c:3009-3080 | the task that a switch picks is ready and no ready task is more urgent; while the scheduler is suspended a switch changes nothing |
| `SchedulerLaws.SwitchServes` | FreeRTOS/tasks.c:136-151 | it is the one whose turn it is on the highest list that holds a task, it comes last afterwards, and nothing else changes |
| `SchedulerLaws.RoundRobin` | FreeRTOS/tasks.c:136-151 | as many switches in a row as the highest list has tasks run each of them once, in their order, and leave that order as it was |
| `SchedulerLaws.OnlySwitchesSwitch` | FreeRTOS/tasks.c:3009-3080 | no other call or interrupt changes the running task, and only suspending and resuming the scheduler changes the depth |
| `SchedulerLaws.OthersStay` | FreeRTOS/tasks.c:1026-3283 | every call and every interrupt leaves every task where it was that it is not about: state list, wake time, event list, pending, priority |
| `SchedulerLaws.DelaySleeps` | FreeRTOS/tasks.c:1301-1340 | a delay of `n` ticks puts the running task to sleep until `now + n`, on no event list |
| `SchedulerLaws.WaitSleeps` | FreeRTOS/tasks.c:3083-3163 | a wait puts it on an event list and to sleep until its wake time, or, for ever, on no delayed list |
| `SchedulerLaws.WaitsForEver` | FreeRTOS/tasks.c:5325-5333 | a task that waits for ever is not readied by any number of ticks and wraps, nor by anything else not aimed at it, in any run |
| `SchedulerLaws.WakeReadies` | FreeRTOS/tasks.c:3169-3230 | an event takes the task off its event list and readies it, or leaves that to the resume |
| `SchedulerLaws.SuspendParks` | FreeRTOS/tasks.c:1673-1706 | a suspended task is on the list of suspended tasks and on no other |
| `SchedulerLaws.ResumeReadies` | FreeRTOS/tasks.c:1779-1950 | a resume readies a task that is suspended, not waiting and not pending, and changes nothing for any other; from an interrupt, with the scheduler suspended, it holds the task pending |
| `SchedulerLaws.DeleteRemoves` | FreeRTOS/tasks.c:1112-1210 | of a deleted task nothing is left, except that one that deletes itself waits to be cleaned up |
| `SchedulerLaws.CleanUpRemoves` | FreeRTOS/tasks.c:3689-3713 | cleaning up removes just the first of the tasks that wait for it |
| `SchedulerLaws.CreateReadies` | FreeRTOS/tasks.c:1026-1108 | a new task is ready at its priority |
| `SchedulerLaws.TickReadies` | FreeRTOS/tasks.c:2783-2834 | a tick readies every task whose time has come and takes it off its event list |
| `SchedulerLaws.ReadiedIsServedLast` | FreeRTOS/tasks.c:221-225 | a readied task is served after everybody of its priority who was ready before, except the one served last |
| `SchedulerLaws.TickServesInOrder` | FreeRTOS/tasks.c:2783-2834 | the tasks that a tick readies are served in the order of their wake times, after those |
| `SchedulerLaws.ResumeServesInOrder` | FreeRTOS/tasks.c:2201-2262 | after the outermost resume the pending tasks are served in the order in which they became pending, and then those that were due meanwhile in the order of their wake times |
| `Timeouts.TimeOut.Check` | FreeRTOS/tasks.c:3306-3368 | the answer is the verdict on the stored entry time, and the entry time and wait are renewed as the code renews them |
| `Timeouts.TimeOut.CheckAt` | FreeRTOS/tasks.c:3306-3368 | in unbounded time, for checks less than a wrap apart: timed out exactly when the wait has passed and is not for ever, otherwise the wait left is exact and the entry time moves on |
| `Timeouts.JudgedRightIff` | FreeRTOS/tasks.c:3330-3360 | for any two times the verdict is right if and only if less than a wrap has gone by, or a visible comparison happens to show it; the wait left is exact |
| `Timeouts.JudgedWrongTwoWrapsLate` | FreeRTOS/tasks.c:3330-3360 | a concrete wait, two wraps late, that is reported as not over |
| `Timeouts.WaitsTelescope` | FreeRTOS/tasks.c:3298-3368 | over any sequence of checks less than a wrap apart the timeout is first reported by the first check at which the total reaches the wait, and before that the rest is exact |
| `Timeouts.WaitsForEver` | FreeRTOS/tasks.c:3332-3338 | any sequence of checks of a wait with `portMAX_DELAY`, at any times, reports nothing and leaves it as it is |
| `Timeouts.DelayUntil` | FreeRTOS/tasks.c:1214-1280 | in unbounded time: the next target is the last one plus the increment, the decision is right if and only if the call is less than a wrap late or late by no less than the increment in whole-wrap remainder, and a delay that is due lasts exactly until the target |
| `Timeouts.EveryCallKeepsTheRate` | FreeRTOS/tasks.c:1214-1280 | over any number of calls and wraps the `k`-th call blocks exactly when `start + k * increment` is still to come, until just that time |
| `Timeouts.DelaysRightIff` | FreeRTOS/tasks.c:1235-1262 | it delays exactly when its target is still to come if and only if it is less than a wrap late, or late by no less than the increment in whole-wrap remainder |
| `Timeouts.DelaysWrongAWrapLate` | FreeRTOS/tasks.c:1235-1262 | a concrete call, a wrap and five ticks late, that blocks for five ticks all the same |
| `Timeouts.DelaysForTheRest` | FreeRTOS/tasks.c:1264-1272 | a delay that is due is for exactly the ticks that are left |
| `Timeouts.RateIsFixed` | FreeRTOS/tasks.c:1233-1262 | the `n`-th target is `n` increments after the start over any number of wraps |
| `Mutexes.MutexKernel.constructor` | FreeRTOS/tasks.c:1954-2062 | one idle task, no mutex: a state that the theorems start from |
| `Mutexes.MutexKernel.CreateMutex` | FreeRTOS/queue.c:542-583 | a new mutex is free, with a count of one and no holder |
| `Mutexes.MutexKernel.ChangePriority` | FreeRTOS/tasks.c:4080-4113 | the event value follows the priority unless it is in use, a ready task moves to the ready list of its new priority, and the cached top priority covers it |
| `Mutexes.MutexKernel.PriorityInherit` | FreeRTOS/tasks.c:4067-4150 | the holder is raised to the current task's priority if it was below; the answer says whether it may owe its priority to it |
| `Mutexes.MutexKernel.PriorityDisinherit` | FreeRTOS/tasks.c:4157-4229 | the held count drops, and with the last mutex the priority falls back to the base |
| `Mutexes.MutexKernel.PriorityDisinheritAfterTimeout` | FreeRTOS/tasks.c:4237-4336 | a holder of one mutex drops to the greater of its base and what the others waiting need |
| `Mutexes.MutexKernel.GetDisinheritPriorityAfterTimeout` | FreeRTOS/queue.c:2150-2170 | the priority filed at the head of the waiting list, or the idle priority |
| `Mutexes.MutexKernel.TryTake` | FreeRTOS/queue.c:1549-1605 | takes the mutex if and only if it is free, recording the holder and its held count |
| `Mutexes.MutexKernel.InsertInEventList` | FreeRTOS/list.c:128-197 | the walk ends where stable insertion by event value puts the item |
| `Mutexes.MutexKernel.WaitForMutex` | FreeRTOS/queue.c:1639-1690 | waits if and only if the mutex is held, after the holder inherited |
| `Mutexes.MutexKernel.GiveMutex` | FreeRTOS/queue.c:865-945 | gives if and only if the mutex is held, whoever calls: its holder disinherits, it has no holder, the head of the list is awake |
| `Mutexes.MutexKernel.LowerAfterTimeout` | FreeRTOS/queue.c:1700-1720 | the holder, if there still is one, is lowered to what those still waiting need |
| `MutexProtocol.UnusedSound` | FreeRTOS/queue.c:542-583 | tasks at base priority holding nothing, and free mutexes, satisfy the invariant |
| `MutexProtocol.RunsKeepSound` | FreeRTOS/queue.c:1521-1727 | every run of takes, waits, gives, time-outs, sleeps and event-group waits keeps accounts, levels, event values, ready lists and waiting lists together, whoever runs and whatever a waiting task holds |
| `MutexProtocol.AccountsAlways` | FreeRTOS/tasks.c:4067-4336 | in every run held counts are exact, a task holding nothing runs at its base priority and none below it, a task on ready list `p` has priority `p`, and a waiting task is on one list, once, filed under its priority and not ready |
| `MutexProtocol.EventWaitMarks` | FreeRTOS/tasks.c:3108-3133 | a wait for an event group marks the event list item as in use and blocks the task; running again it files the item under its priority, which it may have inherited meanwhile |
| `MutexProtocol.WaitingPriorityIs` | FreeRTOS/queue.c:2150-2170 | the value filed at the head of the list is read back as the priority of the task there |
| `MutexBound.UnusedRanked` | FreeRTOS/queue.c:542-583 | unused mutexes satisfy the ranking invariant |
| `MutexBound.RunsKeepRanked` | FreeRTOS/queue.c:1521-1727 | every run under the two hypotheses keeps the bound, the order of the lists, and an heir for every free mutex with waiting tasks |
| `MutexBound.InheritanceBound` | FreeRTOS/tasks.c:4067-4336 | in every such run a holder has at least the priority of every task waiting for its mutex |
| `MutexBound.GiveWakesTheMostUrgent` | FreeRTOS/tasks.c:3169-3215 | in every such run a give readies a waiting task at least as urgent as all that go on waiting |
| `MutexBound.TakerOutranks` | FreeRTOS/queue.c:1549-1605 | a highest-priority ready taker of a free mutex outranks all that still wait for it, because a woken task that has not retried does |
| `MutexBound.LowerTarget` | FreeRTOS/queue.c:2150-2170 | the priority computed after a time-out is enough for every task waiting for any mutex of the holder |
| `MutexLimits.TakeKeepsBoundIff` | FreeRTOS/queue.c:1549-1605 | taking a free mutex keeps the bound if and only if the taker outranks those waiting for it |
| `MutexLimits.PriorityKeepsBoundIff` | FreeRTOS/tasks.c:4080-4113 | any change of priority keeps the bound if and only if the task still outranks those who wait for it and those it waits for still outrank it |
| `MutexLimits.WaitKeepsBoundIff` | FreeRTOS/tasks.c:4067-4113 | starting to wait, also for a mutex of one's own, keeps the bound if and only if no inheritance is needed or whoever the holder itself waits for is urgent enough |
| `MutexLimits.LowerKeepsBoundIff` | FreeRTOS/tasks.c:4237-4336 | lowering a holder after a time-out keeps the bound if and only if it holds several mutexes, or nobody else who waits is above both its base priority and the priority filed at the head of the list |
| `MutexLimits.StepKeepsBoundIff` | FreeRTOS/queue.c:1521-1727 | a step of any kind keeps the bound if and only if it meets its condition; only takes, starts of waiting and lowerings have one |
| `MutexLimits.BoundThroughoutIff` | FreeRTOS/queue.c:1521-1727 | from unused mutexes, with no hypothesis on the tasks, the bound holds at every moment of a run if and only if every take, start of waiting and lowering in it meets its condition |
| `MutexLimits.DisciplineKeeps` | FreeRTOS/queue.c:1521-1727 | a run under the two hypotheses meets all of these conditions |
| `MutexBreaks.StealBreaksTheBound` | FreeRTOS/queue.c:1549-1605 | a run from unused mutexes, under the second hypothesis alone, whose last step, a take, is the first to break the bound: the giver takes the mutex again before the more urgent task that it woke |
| `MutexBreaks.ChainBreaksTheBound` | FreeRTOS/tasks.c:4067-4113 | a run from unused mutexes, under the first hypothesis alone, whose last step, a start of waiting, is the first to break the bound: a chain of two mutexes, because inheritance goes one holder far |
| `MutexBreaks.StaleHeadBreaksTheBound` | FreeRTOS/queue.c:1700-1720 | a run from unused mutexes, under the first hypothesis alone, whose last step, a lowering after a time-out, is the first to break the bound: the list was not sorted again when a task on it inherited |
| `StreamBuffer.StreamBuffer.BytesInBuffer` | FreeRTOS/stream_buffer.c:1338-1356 | the number of bytes published, at every wrap position |
| `StreamBuffer.StreamBuffer.SpacesAvailable` | FreeRTOS/stream_buffer.c:597-627 | one less than the length, less the bytes published |
| `StreamBuffer.StreamBuffer.WriteBytes` | FreeRTOS/stream_buffer.c:1248-1291 | copies the bytes round the end into free slots, touches no other byte and publishes nothing |
| `StreamBuffer.StreamBuffer.ReadBytes` | FreeRTOS/stream_buffer.c:1294-1335 | answers the published bytes from a position on, round the end |
| `StreamBuffer.StreamBuffer.WriteMessage` | FreeRTOS/stream_buffer.c:824-871 | a message is stored as a whole frame or not at all; a stream write takes what fits |
| `StreamBuffer.StreamBuffer.Send` | FreeRTOS/stream_buffer.c:642-770 | the published bytes grow by exactly the frame or the accepted prefix, or nothing changes |
| `StreamBuffer.StreamBuffer.ReadMessage` | FreeRTOS/stream_buffer.c:1075-1124 | a message is read whole, or left alone if the caller's buffer is too short; nothing is truncated |
| `StreamBuffer.StreamBuffer.Receive` | FreeRTOS/stream_buffer.c:874-975 | answers exactly the oldest message, or the oldest bytes, and unpublishes just those |
| `StreamBuffer.StreamBuffer.NextMessageLength` | FreeRTOS/stream_buffer.c:978-1015 | the length of the oldest message, changing nothing |
| `Framing.LengthRoundTrip` | FreeRTOS/stream_buffer.c:824-871 | a length survives its four-byte form |
| `Framing.ParseFirst` | FreeRTOS/stream_buffer.c:1075-1124 | a frame at the front parses as its message followed by what the rest parses as |
| `Framing.ParseLast` | FreeRTOS/stream_buffer.c:824-871 | appending a frame to bytes that parse appends exactly its message |
| `Framing.SpanSplits` | FreeRTOS/stream_buffer.c:1248-1335 | a wrapped region is the concatenation of its two chunks at any wrap position |
| `StreamProtocol.ReceivesWhatWasSent` | FreeRTOS/stream_buffer.c:597-627 | in every interleaving the bytes received are a prefix of those accepted, the difference is what is published, and published message bytes parse into whole messages delivered once and in order |
| `StreamSends.PublishesWhatWasSent` | FreeRTOS/stream_buffer.c:824-871 | in every interleaving a publish appends what the last send in the run was asked to send: the four bytes of the length and all of the message, or, to a stream, the front of the data up to the space measured |
| `StreamSends.GivesUpIff` | FreeRTOS/stream_buffer.c:824-871 | nothing is written if and only if the whole message, or a single byte of a stream, did not fit the space measured |
| `StreamSends.ReceivesOnlyWhatWasSent` | FreeRTOS/stream_buffer.c:642-975 | in every run the messages received are the first of those sent, whole and unchanged, less those that found no space; the bytes received from a stream are the first of pieces from the front of what was sent |
| `StreamSends.HandsOutWhatFits` | FreeRTOS/stream_buffer.c:1075-1124 | in every interleaving a read hands out the oldest message, whole, within the limit of the last receive in the run, or as many of the oldest bytes as fit of those measured |
| `StreamSends.BeginsToReadIff` | FreeRTOS/stream_buffer.c:952-956 | a read begins if and only if bytes were seen and there is room for one |
| `StreamSends.LeavesAloneIff` | FreeRTOS/stream_buffer.c:1085-1105 | a message is left where it is if and only if it is longer than the limit |
| `StreamProtocol.NoByteIsShared` | FreeRTOS/stream_buffer.c:1248-1335 | the writer only touches slots outside the published region, the reader only slots inside it |
| `StreamProtocol.RefinesFifo` | FreeRTOS/stream_buffer.c:1248-1356 | the buffer is an atomic queue of `length - 1` bytes that changes only at the stores of head and tail |
| `StreamProtocol.RunsKeepInv` | FreeRTOS/stream_buffer.c:597-627 | stale index loads, chunk copies and index stores keep the invariant in every interleaving |
| `Timers.ExpiredAlreadyIff` | FreeRTOS/timers.c:716-757 | for any command age the wrapped answer compares the period with the age reduced to one wrap, so it is right if and only if the command is less than a wrap old or the reduced age covers the period too |
| `Timers.TimerService.InsertTimerInActiveList` | FreeRTOS/timers.c:716-757 | "process now" if and only if command time plus period has passed in unbounded time; otherwise the timer is inserted, sorted, into the list of its expiry's epoch; never into the current one at the last tick of an epoch |
| `Timers.TimerService.ReloadTimer` | FreeRTOS/timers.c:522-537 | ends, calls back once for every expiry gone by and arms the least expiry still to come |
| `Timers.TimerService.ProcessExpiredTimer` | FreeRTOS/timers.c:541-565 | the first timer is called back, after its backlog, and rearmed or made inactive |
| `Timers.TimerService.SwitchTimerLists` | FreeRTOS/timers.c:908-930 | ends, processes everything that expired in the old epoch, exchanges the lists and loses no timer |
| `Timers.TimerService.constructor` | FreeRTOS/timers.c:933-981 | a service without timers, at tick zero |
| `Timers.TimerService.CreateTimer` | FreeRTOS/timers.c:355-381 | the new timer has its period, reload mode and kind of memory, and is not armed |
| `Timers.SeenIff` | FreeRTOS/timers.c:693-713 | the time that the daemon reads is right if and only if less than a wrap has gone by since it last read it; otherwise the whole wraps are lost |
| `Timers.TimerService.SampleTimeNow` | FreeRTOS/timers.c:693-713 | for a reading at any time: switches the lists if and only if the tick has wrapped, and goes on from the time read |
| `Timers.TimerService.ProcessTimerOrBlock` | FreeRTOS/timers.c:604-690 | processes the first timer if it is due; otherwise blocks with nothing due, for exactly the time to the first expiry of the epoch, never past any armed timer, and for ever only if none is armed |
| `Timers.TimerService.ProcessMessage` | FreeRTOS/timers.c:760-905 | start, reset, stop, change-period and delete commands do what they mean in unbounded time; a deleted timer is gone if its memory was allocated and inactive if it was static |
| `Timers.TimerService.ProcessReceivedCommands` | FreeRTOS/timers.c:760-905 | the loop over the queue carries out the run of the commands and calls the pended functions, in order |
| `TimerRuns.BacklogEnds` | FreeRTOS/timers.c:522-537 | the backlog ends with the least expiry after the supplied time |
| `TimerRuns.NoTimersReady` | FreeRTOS/timers.c:933-981 | a service without timers satisfies the invariant, so every run that creates them does |
| `TimerRuns.RunsKeepReady` | FreeRTOS/timers.c:568-600 | every run of wake-ups, commands, pended functions and creations keeps every armed timer on its schedule and armed exactly while active |
| `TimerRuns.CallbackCount` | FreeRTOS/timers.c:522-565 | once the daemon has caught up, an armed timer started at `C` with period `P` has been called exactly `(N - C) / P` times, through late commands, backlogs and wraps; a one-shot timer not at all |
| `TimerLaws.StartCounts` | FreeRTOS/timers.c:821-850 | a timer started by a command counts from the time of the command, however late it is processed: armed for command time plus period, or called for what has gone by |
| `TimerLaws.OneShotOnce` | FreeRTOS/timers.c:541-565 | in every run, once the daemon has caught up, a one-shot timer that no further command names has been called exactly once if its period has gone by since its start, and not at all before |
| `TimerLaws.HaltStops` | FreeRTOS/timers.c:852-856 | a stopped timer is neither active nor armed, and is not called |
| `TimerLaws.NewPeriodStarts` | FreeRTOS/timers.c:858-871 | a changed period counts from the time of processing, and starts the timer |
| `TimerLaws.DeleteForgets` | FreeRTOS/timers.c:873-895 | a deleted timer is neither active nor armed, and forgotten unless its memory is static |
| `TimerLaws.CreateSets` | FreeRTOS/timers.c:355-381 | a new timer has its settings and is neither active nor armed |
| `TimerLaws.CommandsLeaveOthers` | FreeRTOS/timers.c:760-905 | a command leaves every other timer alone that the end of the epoch does not find due |
| `TimerLaws.FunctionsCalledInOrder` | FreeRTOS/timers.c:767-790 | every pended function is called once, in the order of the commands |
| `TimerRuns.EveryWakeSettlesOne` | FreeRTOS/timers.c:604-660 | each wake-up takes exactly the first overdue timer off what is due |
| `TimerRuns.CatchesUp` | FreeRTOS/timers.c:568-600 | wake-ups at one time leave no timer overdue if and only if there are as many as there were overdue timers; then every armed timer has been called once for each whole period gone by |
| `TimerRuns.WrapSettlesTheEpoch` | FreeRTOS/timers.c:908-930 | after a wrap no timer of the old epoch is left |
| `EventGroups.EventGroup.SetBits` | FreeRTOS/event_groups.c:533-626 | the walk with removals is one pass that judges everybody by the same bits and clears afterwards |
| `EventGroups.EventGroup.WaitBits` | FreeRTOS/event_groups.c:317-400 | returns the bits if the condition holds, and clears on request; otherwise blocks with the request packed in the item value |
| `EventGroups.EventGroup.Sync` | FreeRTOS/event_groups.c:194-256 | sets the bits, then completes the rendezvous or blocks in it |
| `EventGroups.EventGroup.ClearBits` | FreeRTOS/event_groups.c:473-495 | answers the bits before, without those cleared after |
| `EventGroups.EventGroup.Resume` | FreeRTOS/event_groups.c:258-310 | a released task returns the bits it was released with; a timed-out one the current bits, cleared if they now satisfy it |
| `EventBits.WantedReadsBack` | FreeRTOS/event_groups.c:56-66 | mask and control bits of a request are read back from the item value exactly |
| `EventRuns.OnePassReleasesExactly` | FreeRTOS/event_groups.c:557-617 | a pass releases exactly the tasks satisfied by old and new bits together, all with that same value; the others keep waiting |
| `EventRuns.OnePassClearsExactly` | FreeRTOS/event_groups.c:557-617 | after a pass a bit is set if and only if it was set before or now and no released task that waited for it wanted it cleared |
| `EventLaws.HoldsMeans` | FreeRTOS/event_groups.c:693-731 | a wait for all bits is satisfied when each is set, a wait for any when one is |
| `EventLaws.ClearsExactly` | FreeRTOS/event_groups.c:473-495 | clearing takes away the given bits and no others, and changes nothing else |
| `EventLaws.WaitAnswers` | FreeRTOS/event_groups.c:317-400 | a satisfied wait answers the bits before and clears just those it waited for, if asked to; otherwise it answers them unchanged or blocks with exactly its request |
| `EventLaws.SyncAnswers` | FreeRTOS/event_groups.c:194-256 | a complete rendezvous answers old and new bits and clears just those of the rendezvous; otherwise the call answers what is left or blocks with exactly its request |
| `EventLaws.RendezvousLeaves` | FreeRTOS/event_groups.c:213-235 | after a complete rendezvous a bit is left if and only if it was set before or now, is not one of the rendezvous, and no released task wanted it cleared |
| `EventLaws.ResumeAnswers` | FreeRTOS/event_groups.c:258-310 | a released task answers what it was released with; a timed-out one the present bits, clearing just those it waited for if they now satisfy it and it was to clear them |
| `EventLaws.AnswerSatisfies` | FreeRTOS/event_groups.c:408-460 | in every run a released task returns each bit it asked for, or one of them if any would do |
| `EventLaws.PassLeavesOthers` | FreeRTOS/event_groups.c:557-617 | a pass leaves the list and the item values of tasks alone whose conditions do not hold |
| `EventRuns.RunsKeepInv` | FreeRTOS/event_groups.c:194-626 | every run of sets, clears, waits, rendezvous, time-outs and returns keeps the invariant |
| `EventRuns.NobodyWaitsInVain` | FreeRTOS/event_groups.c:533-626 | in every run no blocked task's condition holds of the current bits |
| `EventRuns.ReleasedWithWhatItAskedFor` | FreeRTOS/tasks.c:3237-3283 | in every run a released task returns bits that satisfy its request, whatever was cleared since |
| `EventRuns.RendezvousIff` | FreeRTOS/event_groups.c:213-250 | an arrival completes the rendezvous if and only if the bits cover the mask: then it and every participant still blocked get the whole mask and the bits are cleared; otherwise all stay blocked and it joins them |
| `EventRuns.ReleasedStaysReleased` | FreeRTOS/tasks.c:3237-3283 | nothing before a released participant runs again changes what it will return |
| `EventRuns.RendezvousOfAll` | FreeRTOS/event_groups.c:194-310 | tasks arriving in any order: until the bits are complete all block and no bit is lost; the last one releases everybody with the whole mask |

## Left out

- Hardware and port code, the AT client, the device drivers, the small rings under `DRIVE`, and coroutines.
- Queue sets, tickless idle, task notifications, xTaskAbortDelay, recursive mutexes, task deletion while holding a mutex, run-time statistics, tracing, MPU wrappers and the static or dynamic allocation variants.
- vTaskPrioritySet: it changes only the base priority while a task inherits, so it is outside the inheritance bound; event lists are not re-sorted when priorities change.
- Weak memory: loads and stores are sequentially consistent; `size_t` is 32 bits wide and a buffer's length at most half of that range.
- QueueProtocol.NoLostWakeUp: assumes that no woken task is suspended or deleted before it retries; a queue is not reset while in use (`QueueReset` treats that).
- QueueProtocol.NeverStrandsIff127: takes overwriting to replace the one message, as it does for items that are not empty; for empty items `Queue.Queue.Overflows` says when the count passes the length, no contract of `Queue.Queue` applies after that, and `OverfullSenderSpins` says what a sender then does.
- QueueProtocol.RunsKeepInv: the yield requests inside the sections are not modelled; the steps of different tasks interleave freely, which covers every schedule.
- MutexBound.InheritanceBound: assumes that a mutex is taken by a highest-priority ready task and that a task that starts to wait for a mutex holds none (`MutexBreaks` shows that both are needed, `MutexLimits.BoundThroughoutIff` does without); it bounds the holder's priority from below only, since a task that held several mutexes keeps an inherited priority until it has given all of them.
- MutexProtocol.AccountsAlways: only the holder gives a mutex in the runs, as the API asks; `Mutexes.MutexKernel.GiveMutex` is modelled for any caller. Waiting tasks are taken off by the tick in `Scheduler`, here by the `Timeout` step.
- Mutexes.MutexKernel.WaitForMutex: the block time and the delayed lists are those of `Scheduler`; here the waiting task only leaves its ready list.
- IntrusiveList.List: the pointer to the owner is a number, and the integrity check words are not modelled. The macros of list.h are not part of this model; the one that moves the index is taken as "next item, skipping the end marker".
- Scheduler.Scheduler: the list that a state item is on is found by looking at all of them instead of by its container pointer; the event lists of all objects are one set of task numbers, their order being modelled in the queue, mutex and event-group modules.
- Scheduler.Scheduler.DeleteTask: memory, thread-local storage and the deletion of the control block are not modelled.
- SchedulerRuns.SuspensionIsTransparent: is about what interrupts do; a task that an event group releases is readied before those that interrupts have left pending, so its place on the ready list can differ.
- StreamBuffer.StreamBuffer.Send: blocking, the trigger level and the notification of the other side are not modelled, nor is a reset of a buffer in use.
- Timers.TimerService.ProcessReceivedCommands: assumes that the daemon reads the tick count at least once per wrap and that no command names a timer whose memory is freed; changes of the reload mode while a timer runs are not modelled, a callback or a pended function is an entry in a log, and its arguments are part of its number.
- Timers.TimerService.ProcessTimerOrBlock: assumes that less than a wrap goes by between two readings of the tick count (`Timers.SeenIff` says what is lost otherwise).
- EventGroups.EventGroup.SetBits: what the call returns is read after the scheduler has been resumed, by a separate `ReadBits`; deleting a group and the calls deferred from interrupts are not modelled.
