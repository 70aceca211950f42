/** What the critical sections of taking and giving a mutex do to the tasks, the ready lists and
    the mutexes' lists of waiting tasks. */
module MutexSections {
  import opened EventValues
  import opened Options
  import opened SchedulerSpec

  /** The fields of a task that priority inheritance reads and writes.  `value` is the value of its
      event list item, by which the lists of waiting tasks are sorted. */
  datatype Task = Task(base: nat, priority: nat, value: nat, held: nat)

  /** A mutex is free when it has no holder. */
  datatype Mutex = Mutex(holder: Option<nat>, waiting: seq<nat>)

  /** `ready[p]` is the ready list of priority `p`; `configMAX_PRIORITIES` is their number. */
  datatype System = System(tasks: map<nat, Task>, ready: seq<Turns>, mutexes: seq<Mutex>)

  function Priority(k: System, t: nat): nat {
    if t in k.tasks then k.tasks[t].priority else 0
  }

  function Value(k: System, t: nat): nat {
    if t in k.tasks then k.tasks[t].value else 0
  }

  /** The task is on the ready list of its priority. */
  predicate IsReady(k: System, t: nat) {
    t in k.tasks && k.tasks[t].priority < |k.ready| && OnTurns(k.ready[k.tasks[t].priority], t)
  }

  function Enlisted(ready: seq<Turns>, t: nat, p: nat): seq<Turns> {
    if p < |ready| then ready[p := AddTurn(ready[p], t)] else ready
  }

  /** Takes a task off the ready list of a priority. */
  function Unlisted(ready: seq<Turns>, t: nat, p: nat): seq<Turns> {
    if p < |ready| then ready[p := DropTurn(ready[p], t)] else ready
  }

  /** Gives a task a new priority and the event value that goes with it, unless that value is in use;
      a ready task moves to the ready list of its new priority. */
  function SetPriority(k: System, t: nat, p: nat): System
    requires t in k.tasks
  {
    var task := k.tasks[t];
    var value := if InUse(task.value) then task.value else EventValue(|k.ready|, p);
    k.(tasks := k.tasks[t := task.(priority := p, value := value)],
       ready := if IsReady(k, t) then Enlisted(Unlisted(k.ready, t, task.priority), t, p) else k.ready)
  }

  /** xTaskPriorityInherit: the holder runs at least at the priority of the task about to wait. */
  function Inherit(k: System, holder: nat, p: nat): System
    requires holder in k.tasks
  {
    if k.tasks[holder].priority < p then SetPriority(k, holder, p) else k
  }

  /** Its answer: whether the holder has a priority that it may owe to the waiting task. */
  predicate Inherits(k: System, holder: nat, p: nat)
    requires holder in k.tasks
  {
    k.tasks[holder].priority < p || k.tasks[holder].base < p
  }

  /** xTaskPriorityDisinherit: the inherited priority goes with the last mutex.  The task is taken for
      the running one: it goes on the ready list, and its event value is not in use. */
  function Disinherit(k: System, t: nat): System
    requires t in k.tasks && k.tasks[t].held > 0
  {
    var task := k.tasks[t].(held := k.tasks[t].held - 1);
    if task.priority != task.base && task.held == 0 then
      k.(tasks := k.tasks[t := task.(priority := task.base, value := EventValue(|k.ready|, task.base))],
         ready := Enlisted(Unlisted(k.ready, t, task.priority), t, task.base))
    else k.(tasks := k.tasks[t := task])
  }

  function Max(a: nat, b: nat): nat {
    if a < b then b else a
  }

  /** vTaskPriorityDisinheritAfterTimeout: down to what the other waiting tasks still need, if this
      is the holder's only mutex. */
  function DisinheritAfterTimeout(k: System, holder: nat, waitingPriority: nat): System
    requires holder in k.tasks
  {
    var target := Max(k.tasks[holder].base, waitingPriority);
    if k.tasks[holder].priority != target && k.tasks[holder].held == 1 then SetPriority(k, holder, target) else k
  }

  /** prvGetDisinheritPriorityAfterTimeout: the priority that the head of the list is filed under. */
  function WaitingPriority(k: System, m: nat): nat
    requires m < |k.mutexes|
  {
    var l := k.mutexes[m].waiting;
    if l == [] then 0 else EventValue(|k.ready|, Value(k, l[0]))
  }

  /** vListInsert on a list of waiting tasks: behind those of equal value. */
  function Place(k: System, l: seq<nat>, t: nat): seq<nat> {
    if l == [] || Value(k, t) < Value(k, l[0]) then [t] + l else [l[0]] + Place(k, l[1..], t)
  }

  /** A task takes a free mutex. */
  function Take(k: System, t: nat, m: nat): System
    requires t in k.tasks && m < |k.mutexes|
  {
    k.(tasks := k.tasks[t := k.tasks[t].(held := k.tasks[t].held + 1)],
       mutexes := k.mutexes[m := k.mutexes[m].(holder := Some(t))])
  }

  /** A task starts waiting for a mutex: the holder inherits its priority, then it goes on the list
      of waiting tasks and off the ready list. */
  function Wait(k: System, t: nat, m: nat): System
    requires t in k.tasks && m < |k.mutexes| && k.mutexes[m].holder.Some? && k.mutexes[m].holder.value in k.tasks
  {
    var k := Inherit(k, k.mutexes[m].holder.value, k.tasks[t].priority);
    k.(mutexes := k.mutexes[m := k.mutexes[m].(waiting := Place(k, k.mutexes[m].waiting, t))],
       ready := Unlisted(k.ready, t, k.tasks[t].priority))
  }

  /** A task that stops waiting goes on the ready list of its priority. */
  function Wake(k: System, t: nat, m: nat): System
    requires m < |k.mutexes|
  {
    k.(mutexes := k.mutexes[m := k.mutexes[m].(waiting := Drop(k.mutexes[m].waiting, t))],
       ready := Enlisted(k.ready, t, Priority(k, t)))
  }

  /** The mutex is given: its holder loses what it inherited, and the head of the list wakes. */
  function Give(k: System, t: nat, m: nat): System
    requires t in k.tasks && k.tasks[t].held > 0 && m < |k.mutexes|
  {
    var k := Disinherit(k, t);
    var k := k.(mutexes := k.mutexes[m := k.mutexes[m].(holder := None)]);
    if k.mutexes[m].waiting == [] then k else Wake(k, k.mutexes[m].waiting[0], m)
  }

  /** A waiting task has timed out on a mutex that is still held. */
  function Lower(k: System, m: nat): System
    requires m < |k.mutexes|
  {
    match k.mutexes[m].holder
    case Some(h) => if h in k.tasks then DisinheritAfterTimeout(k, h, WaitingPriority(k, m)) else k
    case None => k
  }

  /** vTaskPlaceOnUnorderedEventList, for its effect on the event value; the task leaves its ready
      list. */
  function Borrow(k: System, t: nat, data: nat): System
    requires t in k.tasks
  {
    k.(tasks := k.tasks[t := k.tasks[t].(value := IN_USE + data)],
       ready := Unlisted(k.ready, t, k.tasks[t].priority))
  }

  /** uxTaskResetEventItemValue, by a task that has waited for an event group. */
  function ResetValue(k: System, t: nat): System
    requires t in k.tasks
  {
    k.(tasks := k.tasks[t := k.tasks[t].(value := EventValue(|k.ready|, k.tasks[t].priority))])
  }
}
