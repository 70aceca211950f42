/** What the scheduler means, in unbounded time and without the two delayed lists, the cached
    unblock time and the cached top priority.  `Scheduler` is proved to do exactly this. */
module SchedulerSpec {
  import opened Ticks
  import opened Wheel

  /** A ready list: the items up to and including the one at the list's index, and those after it.
      The tasks are served in the order `ahead + passed`. */
  datatype Turns = Turns(passed: seq<nat>, ahead: seq<nat>)

  /** `now` counts processed ticks.  `sleepers` holds the tasks with a wake time, `parked` the
      tasks without one (suspended, or waiting for an event for ever), `pending` the tasks readied
      while the scheduler was suspended, `events` the tasks on the event list of some object.
      `ready[p]` is the ready list of priority `p`. */
  datatype Kernel = Kernel(
    now: nat,
    sleepers: seq<Entry>,
    ready: seq<Turns>,
    parked: seq<nat>,
    terminated: seq<nat>,
    pending: seq<nat>,
    events: set<nat>,
    priority: map<nat, nat>,
    current: nat,
    depth: nat,
    pended: nat)

  /** The kernel when vTaskStartScheduler has created nothing but the idle task. */
  function Started(levels: nat, idle: nat): Kernel
    requires levels > 0
  {
    Kernel(0, [], [Turns([], [idle])] + NoTurns(levels - 1), [], [], [], {}, map[idle := 0], idle, 0, 0)
  }

  function NoTurns(n: nat): (r: seq<Turns>)
    ensures |r| == n && forall p :: 0 <= p < n ==> Empty(r[p])
  {
    if n == 0 then [] else NoTurns(n - 1) + [Turns([], [])]
  }

  /** A list without a task. */
  function Drop(l: seq<nat>, t: nat): seq<nat> {
    if l == [] then [] else if l[0] == t then Drop(l[1..], t) else [l[0]] + Drop(l[1..], t)
  }

  predicate OnTurns(l: Turns, t: nat) {
    t in l.passed || t in l.ahead
  }

  /** When the item at the index goes, the index falls back to the item before it. */
  function DropTurn(l: Turns, t: nat): Turns {
    Turns(Drop(l.passed, t), Drop(l.ahead, t))
  }

  /** vListInsertEnd: in front of the index. */
  function AddTurn(l: Turns, t: nat): Turns {
    if l.passed == [] then l.(ahead := l.ahead + [t])
    else l.(passed := l.passed[..|l.passed| - 1] + [t, l.passed[|l.passed| - 1]])
  }

  /** The task whose turn is next, and the list once it has been served. */
  function NextTurn(l: Turns): (r: (nat, Turns))
    requires l.ahead + l.passed != []
  {
    if l.ahead != [] then (l.ahead[0], Turns(l.passed + [l.ahead[0]], l.ahead[1..]))
    else (l.passed[0], Turns([l.passed[0]], l.passed[1..]))
  }

  function Strip(ready: seq<Turns>, t: nat): (r: seq<Turns>)
    ensures |r| == |ready|
    ensures forall p :: 0 <= p < |ready| ==> r[p] == DropTurn(ready[p], t)
  {
    seq(|ready|, p requires 0 <= p < |ready| => DropTurn(ready[p], t))
  }

  /** prvAddTaskToReadyList: into the list of the task's priority. */
  function Enlist(ready: seq<Turns>, priority: map<nat, nat>, t: nat): (r: seq<Turns>)
    ensures |r| == |ready|
  {
    if t in priority && priority[t] < |ready| then ready[priority[t] := AddTurn(ready[priority[t]], t)] else ready
  }

  function EnlistAll(ready: seq<Turns>, priority: map<nat, nat>, due: seq<Entry>): (r: seq<Turns>)
    ensures |r| == |ready|
    decreases |due|
  {
    if due == [] then ready else EnlistAll(Enlist(ready, priority, due[0].id), priority, due[1..])
  }

  /** Takes the task off whichever state list it is on. */
  function Detach(k: Kernel, t: nat): Kernel {
    k.(sleepers := Without(k.sleepers, t), ready := Strip(k.ready, t),
       parked := Drop(k.parked, t), terminated := Drop(k.terminated, t))
  }

  function MakeReady(k: Kernel, t: nat): Kernel {
    var k := Detach(k, t);
    k.(ready := Enlist(k.ready, k.priority, t))
  }

  /** One tick by the obvious method: look at every sleeper, and ready those whose time has come. */
  function Advance(k: Kernel): Kernel {
    var due := Due(k.sleepers, k.now + 1);
    k.(now := k.now + 1,
       sleepers := Later(k.sleepers, k.now + 1),
       ready := EnlistAll(k.ready, k.priority, due),
       events := k.events - Ids(due))
  }

  function AdvanceBy(k: Kernel, n: nat): Kernel
    decreases n
  {
    if n == 0 then k else AdvanceBy(Advance(k), n - 1)
  }

  /** Moves the pending-ready tasks, in order. */
  function Settle(k: Kernel): Kernel
    decreases |k.pending|
  {
    if k.pending == [] then k
    else Settle(MakeReady(k.(pending := k.pending[1..]), k.pending[0]))
  }

  /** xTaskIncrementTick: while the scheduler is suspended ticks are only counted. */
  function TickInterrupt(k: Kernel): Kernel {
    if k.depth == 0 then Advance(k) else k.(pended := k.pended + 1)
  }

  /** xTaskResumeAll: the outermost one settles the pending tasks and then takes the ticks. */
  function ResumeAll(k: Kernel): Kernel
    requires k.depth > 0
  {
    var k := k.(depth := k.depth - 1);
    if k.depth > 0 then k else AdvanceBy(Settle(k), k.pended).(pended := 0)
  }

  /** When a task wakes that is put on a delayed list at this time.  A wait for no time at all is for the
      tick that comes next, but at the last tick before a wrap the delayed lists change places before
      the entry is looked at, and it is found when its tick comes round on the list that it is then on. */
  function WakeAt(now: nat, ticks: Tick): (wake: nat)
    ensures now + ticks <= wake
  {
    if ticks == 0 && Low(now) == MAX_DELAY then now + 2 * WORD else now + ticks
  }

  /** prvAddCurrentTaskToDelayedList: the current task sleeps for `ticks`, or for ever. */
  function Block(k: Kernel, ticks: Tick, mayBlockForEver: bool): Kernel {
    var t := k.current;
    var k := Detach(k, t);
    if ticks == MAX_DELAY && mayBlockForEver then k.(parked := k.parked + [t])
    else k.(sleepers := Insert(k.sleepers, Entry(t, WakeAt(k.now, ticks))))
  }

  /** vTaskPlaceOnEventList, as far as the scheduler is concerned. */
  function BlockOnEvent(k: Kernel, ticks: Tick): Kernel {
    Block(k.(events := k.events + {k.current}), ticks, true)
  }

  /** vTaskPlaceOnEventListRestricted: the wait of the timer daemon, which may be for no time at all. */
  function BlockRestricted(k: Kernel, ticks: Tick, indefinitely: bool): Kernel {
    Block(k.(events := k.events + {k.current}), if indefinitely then MAX_DELAY else ticks, indefinitely)
  }

  /** xTaskRemoveFromEventList */
  function EventWake(k: Kernel, t: nat): Kernel {
    var k := k.(events := k.events - {t});
    if k.depth == 0 then MakeReady(k, t) else k.(pending := k.pending + [t])
  }

  /** vTaskRemoveFromUnorderedEventList: an event group readies a task at once, with the scheduler
      suspended. */
  function EventRelease(k: Kernel, t: nat): Kernel {
    MakeReady(k.(events := k.events - {t}), t)
  }

  /** vTaskSuspend */
  function SuspendTask(k: Kernel, t: nat): Kernel {
    var k := Detach(k, t);
    k.(parked := k.parked + [t], events := k.events - {t}, pending := Drop(k.pending, t))
  }

  /** prvTaskIsTaskSuspended */
  predicate IsSuspended(k: Kernel, t: nat) {
    t in k.parked && t !in k.pending && t !in k.events
  }

  /** vTaskResume */
  function ResumeTask(k: Kernel, t: nat): Kernel {
    if t != k.current && IsSuspended(k, t) then MakeReady(k, t) else k
  }

  /** xTaskResumeFromISR */
  function ResumeFromIsr(k: Kernel, t: nat): Kernel {
    if !IsSuspended(k, t) then k
    else if k.depth == 0 then MakeReady(k, t)
    else k.(pending := k.pending + [t])
  }

  /** prvAddNewTaskToReadyList, once the scheduler is running */
  function CreateTask(k: Kernel, t: nat, p: nat): Kernel {
    var k := k.(priority := k.priority[t := p]);
    k.(ready := Enlist(k.ready, k.priority, t))
  }

  /** vTaskDelete: a task that deletes itself is left for the idle task to clean up. */
  function DeleteTask(k: Kernel, t: nat): Kernel {
    var k := Detach(k, t);
    var k := k.(events := k.events - {t}, pending := Drop(k.pending, t));
    if t == k.current then k.(terminated := k.terminated + [t])
    else k.(priority := k.priority - {t})
  }

  /** One round of prvCheckTasksWaitingTermination. */
  function Reap(k: Kernel): Kernel {
    if k.terminated == [] then k
    else k.(terminated := k.terminated[1..], priority := k.priority - {k.terminated[0]})
  }

  function ReapAll(k: Kernel): Kernel
    decreases |k.terminated|
  {
    if k.terminated == [] then k else ReapAll(Reap(k))
  }

  predicate Empty(l: Turns) {
    l.passed == [] && l.ahead == []
  }

  /** The highest priority with a ready task. */
  function Top(ready: seq<Turns>): nat {
    if ready == [] then 0
    else if !Empty(ready[|ready| - 1]) then |ready| - 1
    else Top(ready[..|ready| - 1])
  }

  /** vTaskSwitchContext: the next task of the highest non-empty list gets its turn. */
  function Switch(k: Kernel): Kernel {
    var p := Top(k.ready);
    if k.depth > 0 || p >= |k.ready| || Empty(k.ready[p]) then k
    else
      var (t, l) := NextTurn(k.ready[p]);
      k.(current := t, ready := k.ready[p := l])
  }

  lemma {:induction false} DropMembers(l: seq<nat>, t: nat)
    ensures forall x :: x in Drop(l, t) <==> x in l && x != t
  {
    if l != [] {
      DropMembers(l[1..], t);
    }
  }

  lemma {:induction false} DropAbsent(l: seq<nat>, t: nat)
    requires t !in l
    ensures Drop(l, t) == l
  {
    if l != [] {
      DropAbsent(l[1..], t);
    }
  }

  lemma {:induction false} DropOne(l: seq<nat>, k: nat)
    requires k < |l| && forall i :: 0 <= i < |l| && i != k ==> l[i] != l[k]
    ensures Drop(l, l[k]) == l[..k] + l[k + 1..]
  {
    if k == 0 {
      assert forall i :: 0 <= i < |l| - 1 ==> l[1..][i] == l[i + 1];
      DropAbsent(l[1..], l[0]);
    } else {
      assert l[1..][k - 1] == l[k];
      DropOne(l[1..], k - 1);
      assert l[..k] == [l[0]] + l[1..][..k - 1];
      assert l[k + 1..] == l[1..][k..];
    }
  }

  lemma AddTurnMembers(l: Turns, t: nat)
    ensures forall x :: OnTurns(AddTurn(l, t), x) <==> OnTurns(l, x) || x == t
  {
    if l.passed != [] {
      var n := |l.passed| - 1;
      assert l.passed == l.passed[..n] + [l.passed[n]];
    }
  }
}
