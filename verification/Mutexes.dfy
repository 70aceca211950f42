/** Mutexes and priority inheritance, as the kernel does it: the fields of the task control blocks,
    the ready lists and the mutex queues, updated in place. */
module Mutexes {
  import opened EventValues
  import opened Options
  import opened SchedulerSpec
  import opened MutexSections
  import P = MutexProtocol

  class MutexKernel {
    var tasks: map<nat, Task>
    var ready: seq<Turns>
    var topReadyPriority: nat
    var current: nat
    /** `counts[m]` is the `uxMessagesWaiting` of mutex `m`: one when it is free. */
    var counts: seq<nat>
    var mutexes: seq<Mutex>

    ghost predicate Valid()
      reads this
    {
      && current in tasks
      && (forall t :: t in tasks ==> tasks[t].priority < |ready| && tasks[t].base < |ready|)
      && (forall p :: topReadyPriority < p < |ready| ==> Empty(ready[p]))
      && |counts| == |mutexes|
      && (forall m :: 0 <= m < |mutexes| ==> counts[m] == if mutexes[m].holder.None? then 1 else 0)
      && (forall m :: 0 <= m < |mutexes| && mutexes[m].holder.Some? ==> mutexes[m].holder.value in tasks)
    }

    function View(): System
      reads this
    {
      System(tasks, ready, mutexes)
    }

    constructor (levels: nat, idle: nat)
      requires 0 < levels < IN_USE
      ensures Valid() && P.Unused(P.State(View(), map[idle := P.Outside]))
      ensures |ready| == levels && mutexes == []
    {
      tasks, current, topReadyPriority := map[idle := Task(0, 0, levels, 0)], idle, 0;
      ready := [Turns([], [idle])] + NoTurns(levels - 1);
      counts, mutexes := [], [];
    }

    /** xQueueCreateMutex and prvInitialiseMutex: a queue of length one without an item, which the
        first give makes free. */
    method CreateMutex() returns (m: nat)
      requires Valid()
      modifies `counts, `mutexes
      ensures Valid() && m == |old(mutexes)|
      ensures View() == old(View()).(mutexes := old(mutexes) + [Mutex(None, [])])
    {
      m := |mutexes|;
      counts, mutexes := counts + [0], mutexes + [Mutex(None, [])];
      counts := counts[m := counts[m] + 1];
    }

    /** prvAddTaskToReadyList */
    method AddTaskToReadyList(t: nat)
      requires t in tasks && tasks[t].priority < |ready|
      requires forall p :: topReadyPriority < p < |ready| ==> Empty(ready[p])
      modifies `ready, `topReadyPriority
      ensures ready == Enlisted(old(ready), t, tasks[t].priority)
      ensures forall p :: topReadyPriority < p < |ready| ==> Empty(ready[p])
    {
      var p := tasks[t].priority;
      if p > topReadyPriority {
        topReadyPriority := p;
      }
      ready := ready[p := AddTurn(ready[p], t)];
    }

    method RemoveFromReadyList(t: nat)
      requires t in tasks && tasks[t].priority < |ready|
      requires forall p :: topReadyPriority < p < |ready| ==> Empty(ready[p])
      modifies `ready
      ensures ready == Unlisted(old(ready), t, tasks[t].priority)
      ensures forall p :: topReadyPriority < p < |ready| ==> Empty(ready[p])
    {
      var p := tasks[t].priority;
      ready := ready[p := DropTurn(ready[p], t)];
    }

    /** What xTaskPriorityInherit and vTaskPriorityDisinheritAfterTimeout share: the event list item gets
        the value of the new priority, unless its value is in use, and a ready task moves between the
        ready lists. */
    method ChangePriority(t: nat, p: nat)
      requires Valid() && t in tasks && p < |ready|
      modifies `tasks, `ready, `topReadyPriority
      ensures Valid() && View() == SetPriority(old(View()), t, p)
    {
      hide AddTurn, DropTurn;
      if !InUse(tasks[t].value) {
        tasks := tasks[t := tasks[t].(value := |ready| - p)];
      }
      if OnTurns(ready[tasks[t].priority], t) {
        RemoveFromReadyList(t);
        tasks := tasks[t := tasks[t].(priority := p)];
        AddTaskToReadyList(t);
      } else {
        tasks := tasks[t := tasks[t].(priority := p)];
      }
    }

    /** xTaskPriorityInherit, called by the current task before it waits. */
    method PriorityInherit(holder: Option<nat>) returns (inherited: bool)
      requires Valid() && (holder.Some? ==> holder.value in tasks)
      modifies `tasks, `ready, `topReadyPriority
      ensures Valid()
      ensures holder == None ==> View() == old(View()) && !inherited
      ensures holder.Some? ==>
        var p := old(tasks)[current].priority;
        && View() == Inherit(old(View()), holder.value, p)
        && inherited == Inherits(old(View()), holder.value, p)
    {
      hide SetPriority, IsReady;
      inherited := false;
      match holder
      case None =>
      case Some(h) =>
        if tasks[h].priority < tasks[current].priority {
          ChangePriority(h, tasks[current].priority);
          inherited := true;
        } else if tasks[h].base < tasks[current].priority {
          inherited := true;
        }
    }

    /** xTaskPriorityDisinherit */
    method PriorityDisinherit(holder: Option<nat>) returns (disinherited: bool)
      requires Valid()
      requires holder.Some? ==> holder.value in tasks && tasks[holder.value].held > 0
      modifies `tasks, `ready, `topReadyPriority
      ensures Valid()
      ensures holder == None ==> View() == old(View()) && !disinherited
      ensures holder.Some? ==>
        && View() == Disinherit(old(View()), holder.value)
        && (disinherited <==> old(tasks)[holder.value].held == 1
                              && old(tasks)[holder.value].priority != old(tasks)[holder.value].base)
    {
      hide AddTurn, DropTurn;
      disinherited := false;
      match holder
      case None =>
      case Some(t) =>
        tasks := tasks[t := tasks[t].(held := tasks[t].held - 1)];
        if tasks[t].priority != tasks[t].base {
          if tasks[t].held == 0 {
            RemoveFromReadyList(t);
            tasks := tasks[t := tasks[t].(priority := tasks[t].base, value := |ready| - tasks[t].base)];
            AddTaskToReadyList(t);
            disinherited := true;
          }
        }
    }

    /** vTaskPriorityDisinheritAfterTimeout */
    method PriorityDisinheritAfterTimeout(holder: Option<nat>, waitingPriority: nat)
      requires Valid() && (holder.Some? ==> holder.value in tasks) && waitingPriority < |ready|
      modifies `tasks, `ready, `topReadyPriority
      ensures Valid()
      ensures View() == match holder
                        case None => old(View())
                        case Some(h) => DisinheritAfterTimeout(old(View()), h, waitingPriority)
    {
      hide SetPriority, IsReady;
      match holder
      case None =>
      case Some(h) =>
        var priorityToUse := tasks[h].base;
        if tasks[h].base < waitingPriority {
          priorityToUse := waitingPriority;
        }
        if tasks[h].priority != priorityToUse {
          if tasks[h].held == 1 {
            ChangePriority(h, priorityToUse);
          }
        }
    }

    /** prvGetDisinheritPriorityAfterTimeout */
    method GetDisinheritPriorityAfterTimeout(m: nat) returns (p: nat)
      requires Valid() && m < |mutexes|
      requires forall w :: w in mutexes[m].waiting ==> w in tasks && tasks[w].value <= |ready|
      ensures p == WaitingPriority(View(), m)
    {
      if |mutexes[m].waiting| > 0 {
        assert mutexes[m].waiting[0] in mutexes[m].waiting;
        p := |ready| - tasks[mutexes[m].waiting[0]].value;
      } else {
        p := 0;
      }
    }

    /** The first section of xQueueSemaphoreTake, by the current task. */
    method TryTake(m: nat) returns (taken: bool)
      requires Valid() && m < |mutexes|
      modifies `tasks, `counts, `mutexes
      ensures Valid()
      ensures taken <==> old(mutexes)[m].holder == None
      ensures View() == if taken then Take(old(View()), current, m) else old(View())
    {
      taken := counts[m] > 0;
      if taken {
        counts := counts[m := counts[m] - 1];
        tasks := tasks[current := tasks[current].(held := tasks[current].held + 1)];
        mutexes := mutexes[m := mutexes[m].(holder := Some(current))];
      }
    }

    /** vListInsert on the list of waiting tasks: it walks the list to the last item whose value
        is not greater. */
    method InsertInEventList(m: nat, t: nat)
      requires m < |mutexes|
      modifies `mutexes
      ensures mutexes == old(mutexes)[m := old(mutexes)[m].(waiting := Place(View(), old(mutexes)[m].waiting, t))]
    {
      hide SetPriority, IsReady;
      var l := mutexes[m].waiting;
      var i := 0;
      assert l[..0] + Place(View(), l[0..], t) == Place(View(), l, t) by {
        assert l[0..] == l;
      }
      while i < |l| && Value(View(), l[i]) <= Value(View(), t)
        invariant 0 <= i <= |l| && mutexes == old(mutexes)
        invariant l[..i] + Place(View(), l[i..], t) == Place(View(), l, t)
      {
        PlaceStep(View(), l, i, t);
        i := i + 1;
      }
      assert Place(View(), l[i..], t) == [t] + l[i..];
      assert l[..i] + ([t] + l[i..]) == l[..i] + [t] + l[i..];
      ghost var k := View();
      mutexes := mutexes[m := mutexes[m].(waiting := l[..i] + [t] + l[i..])];
      PlaceSame(k, View(), l, t);
    }

    /** The part of xQueueSemaphoreTake with the scheduler suspended, when no time-out is due. */
    method WaitForMutex(m: nat) returns (waits: bool, inherited: bool)
      requires Valid() && m < |mutexes|
      modifies this
      ensures Valid() && current == old(current)
      ensures waits <==> old(mutexes)[m].holder.Some?
      ensures !waits ==> View() == old(View())
      ensures waits ==>
        && View() == Wait(old(View()), current, m)
        && inherited == Inherits(old(View()), old(mutexes)[m].holder.value, old(tasks)[current].priority)
    {
      hide Inherit, IsReady, Place;
      waits, inherited := counts[m] == 0, false;
      if waits {
        inherited := PriorityInherit(mutexes[m].holder);
        ghost var k := View();
        InsertInEventList(m, current);
        PlaceSame(k, View(), k.mutexes[m].waiting, current);
        RemoveFromReadyList(current);
        InheritSelf(old(View()), current, k);
      }
    }

    /** xTaskRemoveFromEventList, with the scheduler running. */
    method WakeHead(m: nat)
      requires m < |mutexes| && mutexes[m].waiting != [] && mutexes[m].waiting[0] in tasks
      requires forall i :: 0 < i < |mutexes[m].waiting| ==> mutexes[m].waiting[i] != mutexes[m].waiting[0]
      requires tasks[mutexes[m].waiting[0]].priority < |ready|
      requires forall p :: topReadyPriority < p < |ready| ==> Empty(ready[p])
      modifies `mutexes, `ready, `topReadyPriority
      ensures View() == Wake(old(View()), old(mutexes)[m].waiting[0], m)
      ensures forall p :: topReadyPriority < p < |ready| ==> Empty(ready[p])
    {
      var l := mutexes[m].waiting;
      DropHead(l);
      mutexes := mutexes[m := mutexes[m].(waiting := l[1..])];
      AddTaskToReadyList(l[0]);
    }

    /** xQueueGenericSend on a mutex: fails when the mutex is free.  The code does not look who gives:
        it takes the holder for the running task. */
    method GiveMutex(m: nat) returns (given: bool)
      requires Valid() && m < |mutexes| && P.ListOk(View(), mutexes[m].waiting)
      requires mutexes[m].holder.Some? ==> tasks[mutexes[m].holder.value].held > 0
      modifies this
      ensures Valid() && current == old(current)
      ensures given <==> old(mutexes)[m].holder.Some?
      ensures View() == if given then Give(old(View()), old(mutexes)[m].holder.value, m) else old(View())
    {
      hide SetPriority, IsReady, Disinherit;
      given := counts[m] < 1;
      if given {
        var disinherited := PriorityDisinherit(mutexes[m].holder);
        mutexes := mutexes[m := mutexes[m].(holder := None)];
        DisinheritFrame(old(View()), old(mutexes)[m].holder.value);
        if |mutexes[m].waiting| > 0 {
          WakeHead(m);
        }
        counts := counts[m := counts[m] + 1];
      }
    }

    /** The last part of xQueueSemaphoreTake, after a time-out of a task whose priority was
        inherited. */
    method LowerAfterTimeout(m: nat)
      requires Valid() && m < |mutexes|
      requires forall w :: w in mutexes[m].waiting ==> w in tasks && 0 < tasks[w].value <= |ready|
      modifies `tasks, `ready, `topReadyPriority
      ensures Valid() && View() == Lower(old(View()), m)
    {
      hide DisinheritAfterTimeout;
      assert |ready| > 0;
      if mutexes[m].waiting != [] {
        assert mutexes[m].waiting[0] in mutexes[m].waiting;
      }
      var p := GetDisinheritPriorityAfterTimeout(m);
      PriorityDisinheritAfterTimeout(mutexes[m].holder, p);
    }
  }

  lemma PlaceStep(k: System, l: seq<nat>, i: nat, t: nat)
    requires i < |l| && Value(k, l[i]) <= Value(k, t)
    ensures l[..i] + Place(k, l[i..], t) == l[..i + 1] + Place(k, l[i + 1..], t)
  {
    assert l[i..][1..] == l[i + 1..];
    assert l[..i + 1] == l[..i] + [l[i]];
  }

  /** Only the values of the tasks matter to the place in the list. */
  lemma {:induction false} PlaceSame(k: System, k': System, l: seq<nat>, t: nat)
    requires k'.tasks == k.tasks
    ensures Place(k', l, t) == Place(k, l, t)
  {
    if l != [] {
      PlaceSame(k, k', l[1..], t);
    }
  }

  lemma DropHead(l: seq<nat>)
    requires l != [] && forall i :: 0 < i < |l| ==> l[i] != l[0]
    ensures Drop(l, l[0]) == l[1..]
  {
    DropAbsent(l[1..], l[0]);
  }

  lemma DisinheritFrame(k: System, t: nat)
    requires t in k.tasks && k.tasks[t].held > 0
    ensures Disinherit(k, t).mutexes == k.mutexes && Disinherit(k, t).tasks.Keys == k.tasks.Keys
  {
  }

  /** The current task's own priority is not changed by what its holder inherits from it. */
  lemma InheritSelf(k: System, t: nat, k': System)
    requires t in k.tasks
    requires k' == k || exists h :: h in k.tasks && k' == Inherit(k, h, k.tasks[t].priority)
    ensures Priority(k', t) == Priority(k, t)
  {
    hide IsReady;
  }
}
