/** The scheduler as it is written: 32-bit ticks, two delayed lists that change places when the
    tick wraps, a cached unblock time and a cached top priority.  Every method is proved to do what
    `SchedulerSpec` says in unbounded time. */
module Scheduler {
  import opened Ticks
  import opened Wheel
  import opened SchedulerSpec

  class Scheduler {
    var tickCount: Tick
    var overflows: Tick
    var delayed: seq<Entry>
    var overflowDelayed: seq<Entry>
    var nextUnblockTime: Tick
    var ready: seq<Turns>
    var topReadyPriority: nat
    var parked: seq<nat>
    var terminated: seq<nat>
    var pending: seq<nat>
    var eventLists: set<nat>
    var priority: map<nat, nat>
    var current: nat
    var suspendDepth: nat
    var pendedTicks: nat
    var yieldPending: bool
    ghost var epoch: nat

    /** No entry of the present list is overdue, the cached unblock time is not later than any of them,
        and no list above the cached top priority holds a task. */
    ghost predicate Valid()
      reads this
    {
      && overflows == Low(epoch)
      && ListsValid()
      && (forall e :: e in delayed ==> nextUnblockTime <= e.time)
      && TopValid()
    }

    ghost predicate ListsValid()
      reads this
    {
      && Sorted(delayed) && Wrapped(delayed) && Sorted(overflowDelayed) && Wrapped(overflowDelayed)
      && forall e :: e in delayed ==> tickCount <= e.time
    }

    ghost predicate TopValid()
      reads this
    {
      && topReadyPriority < |ready|
      && forall p :: topReadyPriority < p < |ready| ==> Empty(ready[p])
    }

    /** The sleepers in unbounded time.  What is on the present list at the last tick before a wrap is
        there for no time at all, and goes on as an entry of the epoch after the next. */
    ghost function Sleepers(): seq<Entry>
      reads this
    {
      MergeAt(delayed, overflowDelayed, epoch, tickCount)
    }

    ghost function View(): Kernel
      reads this
    {
      Kernel(At(epoch, tickCount), Sleepers(), ready, parked, terminated, pending,
             eventLists, priority, current, suspendDepth, pendedTicks)
    }

    constructor (levels: nat, idle: nat)
      requires levels > 0
      ensures Valid() && View() == Started(levels, idle)
    {
      tickCount, overflows, epoch := 0, 0, 0;
      delayed, overflowDelayed, nextUnblockTime := [], [], MAX_DELAY;
      ready, topReadyPriority := [Turns([], [idle])] + NoTurns(levels - 1), 0;
      parked, terminated, pending, eventLists := [], [], [], {};
      priority, current := map[idle := 0], idle;
      suspendDepth, pendedTicks, yieldPending := 0, 0, false;
    }

    /** prvResetNextTaskUnblockTime */
    method ResetNextUnblockTime()
      requires Sorted(delayed) && Wrapped(delayed)
      modifies `nextUnblockTime
      ensures forall e :: e in delayed ==> nextUnblockTime <= e.time
      ensures nextUnblockTime == if delayed == [] then MAX_DELAY else delayed[0].time
    {
      if delayed == [] {
        nextUnblockTime := MAX_DELAY;
      } else {
        assert delayed[0] in delayed;
        nextUnblockTime := delayed[0].time;
      }
    }

    /** prvAddTaskToReadyList */
    method AddToReadyList(t: nat)
      requires TopValid()
      modifies `ready, `topReadyPriority
      ensures TopValid() && ready == Enlist(old(ready), priority, t)
    {
      if t in priority && priority[t] < |ready| {
        if priority[t] > topReadyPriority {
          topReadyPriority := priority[t];
        }
        ready := ready[priority[t] := AddTurn(ready[priority[t]], t)];
      }
    }

    /** taskSWITCH_DELAYED_LISTS, at a tick count of zero.  The list that becomes the overflow list is
        asserted to be empty; it is not after a wait for no time at the tick before. */
    method SwitchDelayedLists()
      requires Sorted(overflowDelayed) && Wrapped(overflowDelayed)
      modifies `delayed, `overflowDelayed, `overflows, `epoch, `nextUnblockTime
      ensures delayed == old(overflowDelayed) && overflowDelayed == old(delayed)
      ensures epoch == old(epoch) + 1 && overflows == Plus(old(overflows), 1)
      ensures forall e :: e in delayed ==> nextUnblockTime <= e.time
    {
      var swapped := delayed;
      delayed := overflowDelayed;
      overflowDelayed := swapped;
      overflows := Plus(overflows, 1);
      epoch := epoch + 1;
      ResetNextUnblockTime();
    }

    /** The loop of xTaskIncrementTick: takes the delayed list from the front until an entry is
        not due. */
    method UnblockDue() returns (switchRequired: bool)
      requires TopValid() && Sorted(delayed) && Wrapped(delayed)
      modifies `delayed, `nextUnblockTime, `ready, `topReadyPriority, `eventLists
      ensures TopValid() && delayed == Later(old(delayed), tickCount)
      ensures forall e :: e in delayed ==> nextUnblockTime <= e.time
      ensures ready == EnlistAll(old(ready), priority, Due(old(delayed), tickCount))
      ensures eventLists == old(eventLists) - Ids(Due(old(delayed), tickCount))
      ensures switchRequired == Preempts(Due(old(delayed), tickCount), priority, current)
    {
      hide Enlist, Outranks, Due, Later, EnlistAll, Preempts, Ids, AddTurn;
      switchRequired := false;
      ghost var all := delayed;
      while true
        invariant TopValid() && Sorted(delayed) && Wrapped(delayed)
        invariant Later(delayed, tickCount) == Later(all, tickCount)
        invariant EnlistAll(ready, priority, Due(delayed, tickCount))
               == EnlistAll(old(ready), priority, Due(all, tickCount))
        invariant eventLists - Ids(Due(delayed, tickCount)) == old(eventLists) - Ids(Due(all, tickCount))
        invariant switchRequired || Preempts(Due(delayed, tickCount), priority, current)
              <==> Preempts(Due(all, tickCount), priority, current)
        decreases |delayed|
      {
        if delayed == [] {
          nextUnblockTime := MAX_DELAY;
          NoneDue(delayed, tickCount);
          NothingDue(ready, priority, current);
          break;
        }
        var head := delayed[0];
        if tickCount < head.time {
          nextUnblockTime := head.time;
          NoneDue(delayed, tickCount);
          NothingDue(ready, priority, current);
          break;
        }
        DueHead(delayed, tickCount, ready, priority, current);
        delayed := delayed[1..];
        eventLists := eventLists - {head.id};
        AddToReadyList(head.id);
        if Outranks(head.id, priority, current) {
          switchRequired := true;
        }
      }
    }

    /** The first part of xTaskIncrementTick: the count goes up, and at the wrap the lists change
        places.  In unbounded time that is one tick and no change to the sleepers. */
    method CountTick()
      requires Valid()
      modifies `tickCount, `delayed, `overflowDelayed, `overflows, `epoch, `nextUnblockTime
      ensures overflows == Low(epoch) && At(epoch, tickCount) == old(At(epoch, tickCount)) + 1
      ensures Sorted(delayed) && Wrapped(delayed) && Sorted(overflowDelayed) && Wrapped(overflowDelayed)
      ensures forall e :: e in delayed ==> nextUnblockTime <= e.time
      ensures Merge(delayed, overflowDelayed, epoch) == old(Sleepers())
    {
      tickCount := Plus(tickCount, 1);
      if tickCount == 0 {
        SwitchDelayedLists();
      }
    }

    /** xTaskIncrementTick with the scheduler running.  Looking only when the cached unblock time
        has come, and only at the front of one list, readies exactly the tasks that a look at every
        sleeper would. */
    method ProcessTick() returns (switchRequired: bool)
      requires Valid()
      modifies this
      ensures Valid() && View() == Advance(old(View()))
      ensures suspendDepth == old(suspendDepth) && yieldPending == old(yieldPending)
      ensures switchRequired == Preempts(Due(old(View().sleepers), View().now), priority, current)
    {
      hide At, Enlist, EnlistAll, Due, Later, Merge;
      switchRequired := false;
      CountTick();
      ghost var all := delayed;
      MergeDue(all, overflowDelayed, epoch, tickCount);
      LiftEnlist(ready, priority, Due(all, tickCount), epoch);
      LiftIds(Due(all, tickCount), epoch);
      LiftPreempts(Due(all, tickCount), priority, current, epoch);
      DueMembers(all, tickCount);
      if tickCount >= nextUnblockTime {
        switchRequired := UnblockDue();
      } else {
        NoneDue(delayed, tickCount);
        NothingDue(ready, priority, current);
      }
      LastTickMerge(delayed, overflowDelayed, epoch, tickCount);
    }

    /** xTaskIncrementTick */
    method IncrementTick() returns (switchRequired: bool)
      requires Valid()
      modifies this
      ensures Valid() && View() == TickInterrupt(old(View()))
      ensures suspendDepth == old(suspendDepth) && yieldPending == old(yieldPending)
      ensures switchRequired <==> suspendDepth == 0 && (TickRequests(old(View())) || yieldPending)
    {
      hide Advance, MergeAt, At, Sorted, Wrapped, Empty, Shares, Preempts, Due;
      switchRequired := false;
      AdvanceKeeps(View());
      if suspendDepth == 0 {
        switchRequired := ProcessTick();
        if Shares(ready, priority, current) {
          switchRequired := true;
        }
        if yieldPending {
          switchRequired := true;
        }
      } else {
        pendedTicks := pendedTicks + 1;
      }
    }

    /** uxListRemove of a task's state list item, whichever list it is on. */
    method RemoveStateItem(t: nat)
      requires Valid()
      modifies `delayed, `overflowDelayed, `ready, `parked, `terminated
      ensures Valid() && View() == Detach(old(View()), t)
    {
      hide MergeAt, At, Without, Sorted, Low;
      MergeAtWithout(delayed, overflowDelayed, epoch, tickCount, t);
      WithoutMembers(delayed, t);
      WithoutMembers(overflowDelayed, t);
      delayed := Without(delayed, t);
      overflowDelayed := Without(overflowDelayed, t);
      ready := Strip(ready, t);
      parked := Drop(parked, t);
      terminated := Drop(terminated, t);
    }

    /** prvAddCurrentTaskToDelayedList: the wake time wraps, and a wrapped one goes on the overflow
        list. */
    method AddCurrentToDelayedList(ticks: Tick, mayBlockForEver: bool)
      requires Valid()
      modifies this
      ensures Valid() && View() == Block(old(View()), ticks, mayBlockForEver)
      ensures yieldPending == old(yieldPending)
      ensures ticks == MAX_DELAY && mayBlockForEver ==>
        current in parked && forall e :: e in Sleepers() ==> e.id != current
    {
      hide At, Merge, Detach;
      var now := tickCount;
      DetachedGone(View(), current);
      RemoveStateItem(current);
      if ticks == MAX_DELAY && mayBlockForEver {
        parked := parked + [current];
      } else {
        Sleep(ticks);
      }
    }

    method Sleep(ticks: Tick)
      requires Valid()
      modifies `delayed, `overflowDelayed, `nextUnblockTime
      ensures Valid()
      ensures Sleepers() == Insert(old(Sleepers()), Entry(current, WakeAt(At(epoch, tickCount), ticks)))
    {
      hide Merge, Insert, At, Plus, Low, Epoch;
      var wake := Plus(tickCount, ticks);
      var e := Entry(current, wake);
      InsertMergedAt(delayed, overflowDelayed, epoch, tickCount, current, ticks);
      if wake < tickCount {
        InsertSorted(overflowDelayed, e);
        InsertMembers(overflowDelayed, e);
        overflowDelayed := Insert(overflowDelayed, e);
      } else {
        InsertSorted(delayed, e);
        InsertMembers(delayed, e);
        delayed := Insert(delayed, e);
        if wake < nextUnblockTime {
          nextUnblockTime := wake;
        }
      }
    }

    /** vTaskPlaceOnEventList */
    method PlaceOnEventList(ticks: Tick)
      requires Valid()
      modifies this
      ensures Valid() && View() == BlockOnEvent(old(View()), ticks) && yieldPending == old(yieldPending)
      ensures ticks == MAX_DELAY ==> current in parked && forall e :: e in Sleepers() ==> e.id != current
    {
      hide Merge, Block;
      eventLists := eventLists + {current};
      AddCurrentToDelayedList(ticks, true);
    }

    /** vTaskPlaceOnEventListRestricted */
    method PlaceOnEventListRestricted(ticks: Tick, indefinitely: bool)
      requires Valid()
      modifies this
      ensures Valid() && View() == BlockRestricted(old(View()), ticks, indefinitely)
      ensures yieldPending == old(yieldPending)
      ensures indefinitely ==> current in parked && forall e :: e in Sleepers() ==> e.id != current
    {
      hide Merge, Block;
      eventLists := eventLists + {current};
      var wait := ticks;
      if indefinitely {
        wait := MAX_DELAY;
      }
      AddCurrentToDelayedList(wait, indefinitely);
    }

    method MoveToReadyList(t: nat)
      requires Valid()
      modifies `delayed, `overflowDelayed, `ready, `parked, `terminated, `topReadyPriority
      ensures Valid() && View() == MakeReady(old(View()), t)
    {
      hide Merge, Detach, Enlist;
      RemoveStateItem(t);
      AddToReadyList(t);
    }

    /** xTaskRemoveFromEventList, for the task at the head of an event list. */
    method RemoveFromEventList(t: nat) returns (higher: bool)
      requires Valid() && t in eventLists
      modifies this
      ensures Valid() && View() == EventWake(old(View()), t)
      ensures higher == Outranks(t, priority, current) && yieldPending == (old(yieldPending) || higher)
    {
      hide MergeAt, At, MakeReady, Empty, Outranks;
      eventLists := eventLists - {t};
      if suspendDepth == 0 {
        MoveToReadyList(t);
      } else {
        pending := pending + [t];
      }
      higher := Outranks(t, priority, current);
      if higher {
        yieldPending := true;
      }
    }

    /** vTaskRemoveFromUnorderedEventList */
    method RemoveFromUnorderedEventList(t: nat)
      requires Valid() && t in eventLists && suspendDepth > 0
      modifies this
      ensures Valid() && View() == EventRelease(old(View()), t)
      ensures yieldPending == (old(yieldPending) || Outranks(t, priority, current))
    {
      hide MergeAt, At, MakeReady, Empty, Outranks;
      eventLists := eventLists - {t};
      MoveToReadyList(t);
      if Outranks(t, priority, current) {
        yieldPending := true;
      }
    }

    /** vTaskSuspendAll */
    method SuspendAll()
      requires Valid()
      modifies `suspendDepth
      ensures Valid() && View() == old(View()).(depth := old(suspendDepth) + 1)
    {
      suspendDepth := suspendDepth + 1;
    }

    /** One round of the first loop of xTaskResumeAll. */
    method MovePending()
      requires Valid() && pending != []
      modifies `delayed, `overflowDelayed, `ready, `parked, `terminated, `topReadyPriority, `pending, `yieldPending
      ensures Valid()
      ensures View() == MakeReady(old(View()).(pending := old(pending)[1..]), old(pending)[0])
      ensures pending == old(pending)[1..]
      ensures yieldPending <==> old(yieldPending) || AtLeast(old(pending)[0], priority, current)
    {
      hide MergeAt, At, MakeReady, Sorted, Wrapped, Empty;
      var t := pending[0];
      pending := pending[1..];
      MoveToReadyList(t);
      if !Outranks(current, priority, t) {
        yieldPending := true;
      }
    }

    /** The first loop of xTaskResumeAll. */
    method DrainPending() returns (moved: bool)
      requires Valid()
      modifies `delayed, `overflowDelayed, `ready, `parked, `terminated, `topReadyPriority, `pending, `yieldPending
      ensures Valid() && View() == Settle(old(View()))
      ensures moved == (old(pending) != [])
      ensures yieldPending <==> old(yieldPending) || SomeAtLeast(old(pending), priority, current)
    {
      hide MergeAt, At, MakeReady, Sorted, Wrapped, Empty, SomeAtLeast, AtLeast;
      NoneAtLeast(priority, current);
      moved := false;
      while pending != []
        invariant Valid() && Settle(View()) == Settle(old(View()))
        invariant moved || pending == old(pending)
        invariant moved ==> old(pending) != []
        invariant yieldPending || SomeAtLeast(pending, priority, current)
              <==> old(yieldPending) || SomeAtLeast(old(pending), priority, current)
        decreases |pending|
      {
        FirstAtLeast(pending, priority, current);
        MovePending();
        moved := true;
      }
    }

    /** The second loop of xTaskResumeAll. */
    method UnwindTicks()
      requires Valid() && suspendDepth == 0
      modifies this
      ensures suspendDepth == 0
      ensures Valid() && View() == AdvanceBy(old(View()), old(pendedTicks)).(pended := 0)
      ensures yieldPending <==> old(yieldPending) || SomeTickRequests(old(View()), old(pendedTicks))
    {
      hide Merge, Advance, TickRequests, SomeTickRequests;
      var counts := pendedTicks;
      NoTickRequests(View());
      if counts > 0 {
        while counts > 0
          invariant Valid() && suspendDepth == 0
          invariant AdvanceBy(View(), counts) == AdvanceBy(old(View()), old(pendedTicks))
          invariant yieldPending || SomeTickRequests(View(), counts)
                <==> old(yieldPending) || SomeTickRequests(old(View()), old(pendedTicks))
        {
          FirstTickRequests(View(), counts);
          var switchRequired := IncrementTick();
          if switchRequired {
            yieldPending := true;
          }
          counts := counts - 1;
        }
        NoTickRequests(View());
        pendedTicks := 0;
      }
    }

    /** xTaskResumeAll */
    method ResumeAll() returns (alreadyYielded: bool)
      requires Valid() && suspendDepth > 0
      modifies this
      ensures Valid() && View() == SchedulerSpec.ResumeAll(old(View()))
      ensures alreadyYielded <==>
        && suspendDepth == 0
        && (|| old(yieldPending)
            || SomeAtLeast(old(pending), priority, current)
            || SomeTickRequests(Settle(old(View()).(depth := 0)), old(pendedTicks)))
      ensures yieldPending == if suspendDepth == 0 then alreadyYielded else old(yieldPending)
    {
      hide Merge, Settle, AdvanceBy, SomeAtLeast, SomeTickRequests;
      alreadyYielded := false;
      suspendDepth := suspendDepth - 1;
      if suspendDepth == 0 {
        var moved := DrainPending();
        SettleKeeps(old(View()).(depth := 0));
        AdvanceByKeeps(View(), pendedTicks);
        if moved {
          ResetNextUnblockTime();
        }
        UnwindTicks();
        alreadyYielded := yieldPending;
      }
    }

    /** vTaskSuspend */
    method SuspendTask(t: nat) returns (mustYield: bool)
      requires Valid()
      modifies this
      ensures Valid() && View() == SchedulerSpec.SuspendTask(old(View()), t)
      ensures mustYield == (t == current) && yieldPending == old(yieldPending)
    {
      hide MergeAt, At, Without, Drop, Empty;
      RemoveStateItem(t);
      eventLists := eventLists - {t};
      pending := Drop(pending, t);
      parked := parked + [t];
      ResetNextUnblockTime();
      mustYield := t == current;
    }

    /** vTaskResume */
    method ResumeTask(t: nat) returns (mustYield: bool)
      requires Valid()
      modifies this
      ensures Valid() && View() == SchedulerSpec.ResumeTask(old(View()), t)
      ensures mustYield == (t != current && IsSuspended(old(View()), t) && AtLeast(t, priority, current))
      ensures yieldPending == old(yieldPending)
    {
      hide Merge, MakeReady;
      mustYield := false;
      if t != current && t in parked && t !in pending && t !in eventLists {
        MoveToReadyList(t);
        mustYield := !Outranks(current, priority, t);
      }
    }

    /** xTaskResumeFromISR */
    method ResumeFromIsr(t: nat) returns (mustYield: bool)
      requires Valid()
      modifies this
      ensures Valid() && View() == SchedulerSpec.ResumeFromIsr(old(View()), t)
      ensures mustYield == (IsSuspended(old(View()), t) && suspendDepth == 0 && AtLeast(t, priority, current))
      ensures yieldPending == (old(yieldPending) || mustYield)
    {
      hide Merge, MakeReady;
      mustYield := false;
      if t in parked && t !in pending && t !in eventLists {
        if suspendDepth == 0 {
          if !Outranks(current, priority, t) {
            mustYield := true;
            yieldPending := true;
          }
          MoveToReadyList(t);
        } else {
          pending := pending + [t];
        }
      }
    }

    /** prvAddNewTaskToReadyList, with the scheduler running */
    method AddNewTask(t: nat, p: nat) returns (mustYield: bool)
      requires Valid() && t !in priority && p < |ready|
      modifies this
      ensures Valid() && View() == CreateTask(old(View()), t, p)
      ensures mustYield == Outranks(t, priority, current) && yieldPending == old(yieldPending)
    {
      priority := priority[t := p];
      AddToReadyList(t);
      mustYield := Outranks(t, priority, current);
    }

    /** vTaskDelete */
    method DeleteTask(t: nat) returns (mustYield: bool)
      requires Valid()
      modifies this
      ensures Valid() && View() == SchedulerSpec.DeleteTask(old(View()), t)
      ensures mustYield == (t == current) && yieldPending == old(yieldPending)
    {
      hide MergeAt, At, Without, Drop, Strip, Empty;
      RemoveStateItem(t);
      eventLists := eventLists - {t};
      pending := Drop(pending, t);
      if t == current {
        terminated := terminated + [t];
      } else {
        priority := priority - {t};
        ResetNextUnblockTime();
      }
      mustYield := t == current;
    }

    /** prvCheckTasksWaitingTermination */
    method CleanUp()
      requires Valid()
      modifies `terminated, `priority
      ensures Valid() && terminated == [] && View() == ReapAll(old(View()))
    {
      hide Merge;
      while terminated != []
        invariant Valid() && ReapAll(View()) == ReapAll(old(View()))
        decreases |terminated|
      {
        priority := priority - {terminated[0]};
        terminated := terminated[1..];
      }
    }

    /** taskSELECT_HIGHEST_PRIORITY_TASK: the search goes down from the cached top priority, and with
        some task ready it cannot run off the bottom. */
    method SelectHighestPriorityTask()
      requires Valid() && suspendDepth == 0 && exists p :: 0 <= p < |ready| && !Empty(ready[p])
      modifies `current, `ready, `topReadyPriority
      ensures Valid() && View() == Switch(old(View()))
      ensures topReadyPriority == Top(old(ready)) && !Empty(old(ready)[topReadyPriority])
      ensures forall p :: topReadyPriority < p < |ready| ==> Empty(ready[p])
      ensures current == (old(ready)[topReadyPriority].ahead + old(ready)[topReadyPriority].passed)[0]
    {
      hide MergeAt, At, Sorted, Wrapped, Low;
      var top := topReadyPriority;
      while Empty(ready[top])
        invariant 0 <= top < |ready| && forall p :: top < p < |ready| ==> Empty(ready[p])
        decreases top
      {
        top := top - 1;
      }
      TopUnique(ready, top);
      var (t, l) := NextTurn(ready[top]);
      current, ready := t, ready[top := l];
      topReadyPriority := top;
    }

    /** vTaskSwitchContext */
    method SwitchContext()
      requires Valid()
      requires suspendDepth == 0 ==> exists p :: 0 <= p < |ready| && !Empty(ready[p])
      modifies `yieldPending, `current, `ready, `topReadyPriority
      ensures Valid() && View() == Switch(old(View()))
      ensures yieldPending == (suspendDepth > 0)
      ensures suspendDepth == 0 ==>
        && topReadyPriority == Top(old(ready)) && !Empty(old(ready)[topReadyPriority])
        && (forall p :: topReadyPriority < p < |ready| ==> Empty(ready[p]))
        && current == (old(ready)[topReadyPriority].ahead + old(ready)[topReadyPriority].passed)[0]
      ensures suspendDepth > 0 ==> View() == old(View())
    {
      hide MergeAt, At, Sorted, Wrapped, Low, Top, NextTurn, Empty;
      if suspendDepth != 0 {
        yieldPending := true;
      } else {
        yieldPending := false;
        SelectHighestPriorityTask();
      }
    }
  }

  /** The task has a higher priority than the running one. */
  predicate Outranks(t: nat, priority: map<nat, nat>, current: nat) {
    t in priority && current in priority && priority[t] > priority[current]
  }

  predicate Preempts(due: seq<Entry>, priority: map<nat, nat>, current: nat) {
    exists e :: e in due && Outranks(e.id, priority, current)
  }

  /** The task has at least the priority of the running one. */
  predicate AtLeast(t: nat, priority: map<nat, nat>, current: nat) {
    t in priority && current in priority ==> priority[t] >= priority[current]
  }

  predicate SomeAtLeast(ts: seq<nat>, priority: map<nat, nat>, current: nat) {
    exists t :: t in ts && AtLeast(t, priority, current)
  }

  lemma NoneAtLeast(priority: map<nat, nat>, current: nat)
    ensures !SomeAtLeast([], priority, current)
  {
  }

  lemma FirstAtLeast(ts: seq<nat>, priority: map<nat, nat>, current: nat)
    requires ts != []
    ensures SomeAtLeast(ts, priority, current)
        <==> AtLeast(ts[0], priority, current) || SomeAtLeast(ts[1..], priority, current)
  {
    assert forall t :: t in ts <==> t == ts[0] || t in ts[1..];
  }

  /** The next tick requests a switch: it readies a task above the running one, or leaves another ready
      beside it. */
  predicate TickRequests(k: Kernel) {
    Preempts(Due(k.sleepers, k.now + 1), k.priority, k.current) || Shares(Advance(k).ready, k.priority, k.current)
  }

  /** One of the next `n` ticks does. */
  ghost predicate SomeTickRequests(k: Kernel, n: nat) {
    exists i: nat :: i < n && TickRequests(AdvanceBy(k, i))
  }

  lemma NoTickRequests(k: Kernel)
    ensures !SomeTickRequests(k, 0)
  {
  }

  lemma FirstTickRequests(k: Kernel, n: nat)
    requires n > 0
    ensures SomeTickRequests(k, n) <==> TickRequests(k) || SomeTickRequests(Advance(k), n - 1)
  {
    hide Advance, TickRequests;
    assert AdvanceBy(k, 0) == k;
    if SomeTickRequests(k, n) && !TickRequests(k) {
      var i: nat :| i < n && TickRequests(AdvanceBy(k, i));
      assert AdvanceBy(k, i) == AdvanceBy(Advance(k), i - 1);
    }
    if SomeTickRequests(Advance(k), n - 1) {
      var i: nat :| i < n - 1 && TickRequests(AdvanceBy(Advance(k), i));
      assert AdvanceBy(Advance(k), i) == AdvanceBy(k, i + 1);
    }
  }

  /** What the head of the delayed list adds to what a tick does. */
  lemma DueHead(l: seq<Entry>, tick: Tick, ready: seq<Turns>, priority: map<nat, nat>, current: nat)
    requires l != [] && l[0].time <= tick
    ensures Later(l, tick) == Later(l[1..], tick)
    ensures Ids(Due(l, tick)) == {l[0].id} + Ids(Due(l[1..], tick))
    ensures EnlistAll(ready, priority, Due(l, tick))
         == EnlistAll(Enlist(ready, priority, l[0].id), priority, Due(l[1..], tick))
    ensures Preempts(Due(l, tick), priority, current)
        <==> Outranks(l[0].id, priority, current) || Preempts(Due(l[1..], tick), priority, current)
  {
    hide Enlist, Outranks;
    var due := Due(l[1..], tick);
    assert Due(l, tick) == [l[0]] + due;
    assert ([l[0]] + due)[1..] == due;
    assert forall e :: e in [l[0]] + due <==> e == l[0] || e in due;
  }

  lemma NothingDue(ready: seq<Turns>, priority: map<nat, nat>, current: nat)
    ensures EnlistAll(ready, priority, []) == ready && Ids([]) == {} && !Preempts([], priority, current)
  {
  }

  lemma LiftPreempts(due: seq<Entry>, priority: map<nat, nat>, current: nat, epoch: nat)
    ensures Preempts(Lift(due, epoch), priority, current) == Preempts(due, priority, current)
  {
    var r := Lift(due, epoch);
    forall i | 0 <= i < |due|
      ensures r[i] in r && due[i] in due && r[i].id == due[i].id
    {
    }
  }

  /** Another task shares the running one's priority (time slicing). */
  predicate Shares(ready: seq<Turns>, priority: map<nat, nat>, current: nat) {
    && current in priority && priority[current] < |ready|
    && |ready[priority[current]].passed| + |ready[priority[current]].ahead| > 1
  }

  /** The one list that the two stand for, at this tick. */
  function MergeAt(current: seq<Entry>, overflow: seq<Entry>, epoch: nat, tick: Tick): seq<Entry> {
    if tick == MAX_DELAY then Merge(overflow, current, epoch + 1) else Merge(current, overflow, epoch)
  }

  /** Once a tick has been processed, nothing is left on the present list at the last tick. */
  lemma LastTickMerge(current: seq<Entry>, overflow: seq<Entry>, epoch: nat, tick: Tick)
    requires Wrapped(current) && forall e :: e in current ==> tick < e.time
    ensures MergeAt(current, overflow, epoch, tick) == Merge(current, overflow, epoch)
  {
    if tick == MAX_DELAY {
      var first := if current == [] then Entry(0, 0) else current[0];
      assert current == [] || first in current;
      MergeSwapped(overflow, epoch);
    }
  }

  lemma MergeAtWithout(current: seq<Entry>, overflow: seq<Entry>, epoch: nat, tick: Tick, id: nat)
    ensures Without(MergeAt(current, overflow, epoch, tick), id)
         == MergeAt(Without(current, id), Without(overflow, id), epoch, tick)
  {
    hide Merge;
    MergeWithout(current, overflow, epoch, id);
    MergeWithout(overflow, current, epoch + 1, id);
  }

  /** Choosing the list by whether the wake time wraps inserts the unbounded wake time. */
  lemma InsertMergedAt(current: seq<Entry>, overflow: seq<Entry>, epoch: nat, tick: Tick, id: nat, ticks: Tick)
    requires Wrapped(current) && Wrapped(overflow)
    ensures var e := Entry(id, Plus(tick, ticks));
            var whole := Insert(MergeAt(current, overflow, epoch, tick), Entry(id, WakeAt(At(epoch, tick), ticks)));
            if Plus(tick, ticks) < tick then whole == MergeAt(current, Insert(overflow, e), epoch, tick)
            else whole == MergeAt(Insert(current, e), overflow, epoch, tick)
  {
    hide Merge, Insert, At, Plus, Low, Epoch, Wrapped;
    var wake := WakeAt(At(epoch, tick), ticks);
    WakeTime(epoch, tick, ticks);
    if tick == MAX_DELAY {
      InsertMerged(overflow, current, epoch + 1, id, wake);
    } else {
      InsertMerged(current, overflow, epoch, id, wake);
    }
  }

  lemma {:induction false} LiftEnlist(ready: seq<Turns>, priority: map<nat, nat>, due: seq<Entry>, epoch: nat)
    ensures EnlistAll(ready, priority, Lift(due, epoch)) == EnlistAll(ready, priority, due)
    decreases |due|
  {
    if due != [] {
      LiftHead(due, epoch);
      LiftEnlist(Enlist(ready, priority, due[0].id), priority, due[1..], epoch);
    }
  }

  lemma {:induction false} SettleKeeps(k: Kernel)
    ensures Settle(k).depth == k.depth && Settle(k).pended == k.pended
    ensures Settle(k).priority == k.priority && Settle(k).current == k.current
    decreases |k.pending|
  {
    if k.pending != [] {
      SettleKeeps(MakeReady(k.(pending := k.pending[1..]), k.pending[0]));
    }
  }

  lemma DetachedGone(k: Kernel, t: nat)
    ensures forall e :: e in Detach(k, t).sleepers ==> e.id != t
  {
    WithoutMembers(k.sleepers, t);
  }

  lemma AdvanceKeeps(k: Kernel)
    ensures Advance(k).now == k.now + 1 && Advance(k).priority == k.priority && Advance(k).current == k.current
  {
  }

  lemma {:induction false} AdvanceByKeeps(k: Kernel, n: nat)
    ensures AdvanceBy(k, n).priority == k.priority && AdvanceBy(k, n).current == k.current
    decreases n
  {
    if n > 0 {
      AdvanceByKeeps(Advance(k), n - 1);
    }
  }

  /** A wake time that wraps is in the next epoch; one that does not is in this one, or, at the last tick,
      in the epoch after the next. */
  lemma WakeTime(epoch: nat, tick: Tick, ticks: Tick)
    ensures Low(WakeAt(At(epoch, tick), ticks)) == Plus(tick, ticks)
    ensures Epoch(WakeAt(At(epoch, tick), ticks))
         == if Plus(tick, ticks) < tick then epoch + 1 else if tick == MAX_DELAY then epoch + 2 else epoch
  {
    if ticks == 0 && tick == MAX_DELAY {
      assert WakeAt(At(epoch, tick), ticks) == At(epoch + 2, tick);
    } else {
      PlusAgrees(At(epoch, tick), ticks);
      EpochOfNear(At(epoch, tick), At(epoch, tick) + ticks);
    }
  }

  lemma {:induction false} TopUnique(ready: seq<Turns>, top: nat)
    requires top < |ready| && !Empty(ready[top])
    requires forall p :: top < p < |ready| ==> Empty(ready[p])
    ensures Top(ready) == top
  {
    if top < |ready| - 1 {
      TopUnique(ready[..|ready| - 1], top);
    }
  }
}
