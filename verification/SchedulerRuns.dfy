/** Runs of the scheduler: what every step keeps, and when sleepers wake. */
module SchedulerRuns {
  import opened Ticks
  import opened Wheel
  import opened SchedulerSpec

  datatype Event =
    | Interrupt
    | SuspendAll
    | ResumeAll
    | Delay(ticks: Tick)
    | WaitForEvent(ticks: Tick)
    | WaitRestricted(ticks: Tick, indefinitely: bool)
    | Wake(task: nat)
    | Release(task: nat)
    | Suspend(task: nat)
    | Resume(task: nat)
    | ResumeInIsr(task: nat)
    | Create(task: nat, level: nat)
    | Delete(task: nat)
    | CleanUp
    | SwitchContext

  ghost predicate IsReady(k: Kernel, t: nat) {
    t in k.priority && k.priority[t] < |k.ready| && OnTurns(k.ready[k.priority[t]], t)
  }

  /** What the callers of the kernel owe it. */
  ghost predicate Enabled(k: Kernel, ev: Event) {
    match ev
    case ResumeAll => k.depth > 0
    case Delay(ticks) => ticks > 0 && IsReady(k, k.current)
    case WaitForEvent(ticks) => ticks > 0 && IsReady(k, k.current)
    case WaitRestricted(_, _) => IsReady(k, k.current)
    case Wake(t) => t in k.events
    case Release(t) => t in k.events && k.depth > 0
    case Suspend(t) => t in k.priority && t !in k.terminated
    case Create(t, p) => t !in k.priority && p < |k.ready|
    case Delete(t) => t in k.priority && t !in k.terminated
    case _ => true
  }

  function Step(k: Kernel, ev: Event): Kernel {
    match ev
    case Interrupt => TickInterrupt(k)
    case SuspendAll => k.(depth := k.depth + 1)
    case ResumeAll => if k.depth > 0 then SchedulerSpec.ResumeAll(k) else k
    case Delay(ticks) => Block(k, ticks, false)
    case WaitForEvent(ticks) => BlockOnEvent(k, ticks)
    case WaitRestricted(ticks, indefinitely) => BlockRestricted(k, ticks, indefinitely)
    case Wake(t) => EventWake(k, t)
    case Release(t) => EventRelease(k, t)
    case Suspend(t) => SuspendTask(k, t)
    case Resume(t) => ResumeTask(k, t)
    case ResumeInIsr(t) => ResumeFromIsr(k, t)
    case Create(t, p) => CreateTask(k, t, p)
    case Delete(t) => DeleteTask(k, t)
    case CleanUp => Reap(k)
    case SwitchContext => Switch(k)
  }

  ghost predicate IsRun(k: Kernel, evs: seq<Event>)
    decreases |evs|
  {
    evs == [] || (Enabled(k, evs[0]) && IsRun(Step(k, evs[0]), evs[1..]))
  }

  function Run(k: Kernel, evs: seq<Event>): Kernel
    decreases |evs|
  {
    if evs == [] then k else Run(Step(k, evs[0]), evs[1..])
  }

  // Every task is on exactly one state list

  ghost function Gather(ready: seq<Turns>): multiset<nat> {
    if ready == [] then multiset{}
    else Gather(ready[..|ready| - 1]) + Bag(ready[|ready| - 1])
  }

  ghost function Bag(l: Turns): multiset<nat> {
    multiset(l.passed) + multiset(l.ahead)
  }

  ghost function SleepingBag(l: seq<Entry>): multiset<nat> {
    if l == [] then multiset{} else multiset{l[0].id} + SleepingBag(l[1..])
  }

  /** The state list items of the whole system. */
  ghost function Places(k: Kernel): multiset<nat> {
    Gather(k.ready) + SleepingBag(k.sleepers) + multiset(k.parked) + multiset(k.terminated)
  }

  /** Tasks stand on the ready list of their own priority. */
  ghost predicate AtHome(ready: seq<Turns>, priority: map<nat, nat>) {
    forall p, t :: 0 <= p < |ready| && OnTurns(ready[p], t) ==> t in priority && priority[t] == p
  }

  /** Each task is on one list, once, and nothing else is. */
  ghost predicate PlacesOk(k: Kernel) {
    Places(k) == multiset(k.priority.Keys)
  }

  ghost predicate HomesOk(k: Kernel) {
    && (forall t :: t in k.priority ==> k.priority[t] < |k.ready|)
    && AtHome(k.ready, k.priority)
  }

  /** Nobody is asleep past the wake time. */
  ghost predicate SleepersOk(k: Kernel) {
    Sorted(k.sleepers) && forall e :: e in k.sleepers ==> k.now <= e.time
  }

  ghost predicate Blocked(k: Kernel, t: nat) {
    t in k.parked || t in SleepingBag(k.sleepers)
  }

  /** Tasks on an event list, or readied but not yet moved, are blocked, and not both. */
  ghost predicate EventsOk(k: Kernel) {
    && (forall t :: t in k.pending ==> Blocked(k, t) && t !in k.events && multiset(k.pending)[t] == 1)
    && (forall t :: t in k.events ==> Blocked(k, t))
  }

  /** Nothing is left over while the scheduler runs. */
  ghost predicate Settled(k: Kernel) {
    k.depth == 0 ==> k.pending == [] && k.pended == 0
  }

  /** All but the last, for the inside of xTaskResumeAll. */
  ghost predicate InvWithin(k: Kernel) {
    PlacesOk(k) && HomesOk(k) && SleepersOk(k) && EventsOk(k)
  }

  ghost predicate Inv(k: Kernel) {
    InvWithin(k) && Settled(k)
  }

  lemma {:induction false} DropBag(l: seq<nat>, t: nat)
    ensures multiset(Drop(l, t)) == multiset(l)[t := 0]
  {
    if l != [] {
      DropBag(l[1..], t);
      assert l == [l[0]] + l[1..];
    }
  }

  lemma {:induction false} WithoutBag(l: seq<Entry>, t: nat)
    ensures SleepingBag(Without(l, t)) == SleepingBag(l)[t := 0]
  {
    if l != [] {
      WithoutBag(l[1..], t);
    }
  }

  lemma DropTurnBag(l: Turns, t: nat)
    ensures Bag(DropTurn(l, t)) == Bag(l)[t := 0]
  {
    DropBag(l.passed, t);
    DropBag(l.ahead, t);
  }

  lemma CountZero(a: multiset<nat>, b: multiset<nat>, t: nat)
    ensures a[t := 0] + b[t := 0] == (a + b)[t := 0]
  {
  }

  lemma {:induction false} StripBag(ready: seq<Turns>, t: nat)
    ensures Gather(Strip(ready, t)) == Gather(ready)[t := 0]
  {
    hide Bag, DropTurn;
    if ready != [] {
      var n := |ready| - 1;
      StripBag(ready[..n], t);
      assert Strip(ready, t)[..n] == Strip(ready[..n], t);
      DropTurnBag(ready[n], t);
      CountZero(Gather(ready[..n]), Bag(ready[n]), t);
    }
  }

  lemma DetachBag(k: Kernel, t: nat)
    ensures Places(Detach(k, t)) == Places(k)[t := 0]
  {
    hide Gather, SleepingBag, Strip, Without, Drop;
    StripBag(k.ready, t);
    WithoutBag(k.sleepers, t);
    DropBag(k.parked, t);
    DropBag(k.terminated, t);
    CountZero(Gather(k.ready), SleepingBag(k.sleepers), t);
    CountZero(Gather(k.ready) + SleepingBag(k.sleepers), multiset(k.parked), t);
    CountZero(Gather(k.ready) + SleepingBag(k.sleepers) + multiset(k.parked), multiset(k.terminated), t);
  }

  lemma AddTurnBag(l: Turns, t: nat)
    ensures Bag(AddTurn(l, t)) == Bag(l) + multiset{t}
  {
    if l.passed != [] {
      var n := |l.passed| - 1;
      assert l.passed == l.passed[..n] + [l.passed[n]];
    }
  }

  lemma {:induction false} UpdateBag(ready: seq<Turns>, p: nat, l: Turns, extra: multiset<nat>)
    requires p < |ready| && Bag(l) == Bag(ready[p]) + extra
    ensures Gather(ready[p := l]) == Gather(ready) + extra
  {
    var n := |ready| - 1;
    if p == n {
      assert ready[p := l][..n] == ready[..n];
    } else {
      UpdateBag(ready[..n], p, l, extra);
      assert ready[p := l][..n] == ready[..n][p := l];
    }
  }

  lemma EnlistBag(ready: seq<Turns>, priority: map<nat, nat>, t: nat)
    requires t in priority && priority[t] < |ready|
    ensures Gather(Enlist(ready, priority, t)) == Gather(ready) + multiset{t}
  {
    AddTurnBag(ready[priority[t]], t);
    UpdateBag(ready, priority[t], AddTurn(ready[priority[t]], t), multiset{t});
  }

  lemma {:induction false} EnlistAllBag(ready: seq<Turns>, priority: map<nat, nat>, due: seq<Entry>)
    requires forall e :: e in due ==> e.id in priority && priority[e.id] < |ready|
    ensures Gather(EnlistAll(ready, priority, due)) == Gather(ready) + SleepingBag(due)
    decreases |due|
  {
    if due != [] {
      EnlistBag(ready, priority, due[0].id);
      EnlistAllBag(Enlist(ready, priority, due[0].id), priority, due[1..]);
    }
  }

  lemma BagShift(x: multiset<nat>, due: multiset<nat>, later: multiset<nat>, all: multiset<nat>)
    requires due + later == all
    ensures (x + due) + later == x + all && due + (x + later) == x + all
  {
  }

  lemma DueOrLater(l: seq<Entry>, time: nat)
    requires l != []
    ensures l[0].time <= time ==> Due(l, time) == [l[0]] + Due(l[1..], time) && Later(l, time) == Later(l[1..], time)
    ensures l[0].time > time ==> Due(l, time) == Due(l[1..], time) && Later(l, time) == [l[0]] + Later(l[1..], time)
    ensures l == [l[0]] + l[1..]
  {
  }

  lemma {:induction false} DueBag(l: seq<Entry>, time: nat)
    ensures SleepingBag(Due(l, time)) + SleepingBag(Later(l, time)) == SleepingBag(l)
  {
    if l != [] {
      hide SleepingBag, Due, Later;
      var e, rest := l[0], l[1..];
      DueBag(rest, time);
      DueOrLater(l, time);
      ConsBag(e, Due(rest, time));
      ConsBag(e, Later(rest, time));
      ConsBag(e, rest);
      BagShift(multiset{e.id}, SleepingBag(Due(rest, time)), SleepingBag(Later(rest, time)), SleepingBag(rest));
    }
  }

  lemma ConsBag(e: Entry, l: seq<Entry>)
    ensures SleepingBag([e] + l) == multiset{e.id} + SleepingBag(l)
  {
    assert ([e] + l)[1..] == l;
  }

  lemma {:induction false} InSleepingBag(l: seq<Entry>, e: Entry)
    requires e in l
    ensures e.id in SleepingBag(l)
  {
    if e != l[0] {
      InSleepingBag(l[1..], e);
    }
  }

  /** Everything asleep is a task. */
  lemma SleepersAreTasks(k: Kernel)
    requires PlacesOk(k)
    ensures forall e :: e in k.sleepers ==> e.id in k.priority
  {
    forall e | e in k.sleepers
      ensures e.id in k.priority
    {
      InSleepingBag(k.sleepers, e);
      assert e.id in Places(k);
    }
  }

  lemma StripHome(ready: seq<Turns>, priority: map<nat, nat>, t: nat)
    requires AtHome(ready, priority)
    ensures AtHome(Strip(ready, t), priority)
    ensures forall p :: 0 <= p < |ready| ==> !OnTurns(Strip(ready, t)[p], t)
  {
    forall p, x | 0 <= p < |ready|
      ensures OnTurns(Strip(ready, t)[p], x) <==> OnTurns(ready[p], x) && x != t
    {
      DropMembers(ready[p].passed, t);
      DropMembers(ready[p].ahead, t);
    }
  }

  lemma EnlistHome(ready: seq<Turns>, priority: map<nat, nat>, t: nat)
    requires AtHome(ready, priority)
    ensures AtHome(Enlist(ready, priority, t), priority)
    ensures t in priority && priority[t] < |ready| ==> OnTurns(Enlist(ready, priority, t)[priority[t]], t)
    ensures forall p, x :: 0 <= p < |ready| && OnTurns(ready[p], x) ==> OnTurns(Enlist(ready, priority, t)[p], x)
  {
    if t in priority && priority[t] < |ready| {
      AddTurnMembers(ready[priority[t]], t);
    }
  }

  lemma {:induction false} EnlistAllHome(ready: seq<Turns>, priority: map<nat, nat>, due: seq<Entry>)
    requires AtHome(ready, priority)
    ensures AtHome(EnlistAll(ready, priority, due), priority)
    ensures forall p, x :: 0 <= p < |ready| && OnTurns(ready[p], x) ==> OnTurns(EnlistAll(ready, priority, due)[p], x)
    ensures forall e :: e in due && e.id in priority && priority[e.id] < |ready| ==>
      OnTurns(EnlistAll(ready, priority, due)[priority[e.id]], e.id)
    decreases |due|
  {
    if due != [] {
      EnlistHome(ready, priority, due[0].id);
      EnlistAllHome(Enlist(ready, priority, due[0].id), priority, due[1..]);
    }
  }

  // Every step keeps the invariant

  lemma {:induction false} InGather(ready: seq<Turns>, p: nat, t: nat)
    requires p < |ready| && OnTurns(ready[p], t)
    ensures t in Gather(ready)
  {
    if p < |ready| - 1 {
      InGather(ready[..|ready| - 1], p, t);
    }
  }

  /** The kinds of state list exclude one another. */
  lemma OneListEach(k: Kernel, t: nat)
    requires PlacesOk(k)
    ensures Blocked(k, t) || t in k.terminated ==> forall p :: 0 <= p < |k.ready| ==> !OnTurns(k.ready[p], t)
    ensures t in k.terminated ==> !Blocked(k, t)
    ensures multiset(k.terminated)[t] <= 1
  {
    hide Gather, SleepingBag;
    assert Gather(k.ready)[t] + SleepingBag(k.sleepers)[t] + multiset(k.parked)[t] + multiset(k.terminated)[t]
        == multiset(k.priority.Keys)[t] <= 1;
    forall p | 0 <= p < |k.ready| && OnTurns(k.ready[p], t)
      ensures Gather(k.ready)[t] >= 1
    {
      InGather(k.ready, p, t);
    }
  }

  lemma BlockedAreTasks(k: Kernel, t: nat)
    requires PlacesOk(k) && (Blocked(k, t) || t in k.terminated)
    ensures t in k.priority
  {
    assert t in Places(k);
  }

  /** Only the detached task can stop being blocked. */
  lemma StaysBlocked(k: Kernel, t: nat)
    ensures forall x :: x != t && Blocked(k, x) ==> Blocked(Detach(k, t), x)
  {
    DropMembers(k.parked, t);
    WithoutBag(k.sleepers, t);
    assert forall x :: x != t && x in SleepingBag(k.sleepers) ==> SleepingBag(k.sleepers)[t := 0][x] > 0;
  }

  lemma KeepsDetached(k: Kernel, t: nat)
    requires HomesOk(k) && SleepersOk(k)
    ensures HomesOk(Detach(k, t)) && SleepersOk(Detach(k, t))
  {
    StripHome(k.ready, k.priority, t);
    WithoutMembers(k.sleepers, t);
  }

  lemma Moved(tasks: set<nat>, t: nat)
    requires t in tasks
    ensures multiset(tasks)[t := 0] + multiset{t} == multiset(tasks)
  {
  }

  lemma MakeReadyPlaces(k: Kernel, t: nat)
    requires PlacesOk(k) && t in k.priority && k.priority[t] < |k.ready|
    ensures PlacesOk(MakeReady(k, t))
  {
    var d := Detach(k, t);
    DetachBag(k, t);
    EnlistBag(d.ready, d.priority, t);
    assert Places(MakeReady(k, t)) == Places(d) + multiset{t};
    Moved(k.priority.Keys, t);
  }

  lemma KeepsMakeReady(k: Kernel, t: nat)
    requires InvWithin(k) && t in k.priority && t !in k.pending && t !in k.events
    ensures InvWithin(MakeReady(k, t)) && IsReady(MakeReady(k, t), t)
  {
    hide Places, SleepingBag, Drop, Without;
    var d := Detach(k, t);
    MakeReadyPlaces(k, t);
    KeepsDetached(k, t);
    StaysBlocked(k, t);
    EnlistHome(d.ready, d.priority, t);
  }

  lemma AdvancePlaces(k: Kernel)
    requires PlacesOk(k) && forall t :: t in k.priority ==> k.priority[t] < |k.ready|
    ensures PlacesOk(Advance(k))
  {
    hide Gather, SleepingBag, EnlistAll, Due, Later;
    SleepersAreTasks(k);
    DueMembers(k.sleepers, k.now + 1);
    DueBag(k.sleepers, k.now + 1);
    var due, later := Due(k.sleepers, k.now + 1), Later(k.sleepers, k.now + 1);
    EnlistAllBag(k.ready, k.priority, due);
    BagsMoved(Gather(k.ready), SleepingBag(due), SleepingBag(later), SleepingBag(k.sleepers),
              multiset(k.parked), multiset(k.terminated));
  }

  lemma BagsMoved(g: multiset<nat>, d: multiset<nat>, l: multiset<nat>, s: multiset<nat>,
                  p: multiset<nat>, t: multiset<nat>)
    requires d + l == s
    ensures (g + d) + l + p + t == g + s + p + t
  {
  }

  lemma {:induction false} SleepingIds(l: seq<Entry>, t: nat)
    ensures t in SleepingBag(l) <==> t in Ids(l)
  {
    if l != [] {
      SleepingIds(l[1..], t);
      assert Ids(l) == {l[0].id} + Ids(l[1..]);
    }
  }

  lemma AdvanceEvents(k: Kernel)
    requires EventsOk(k) && k.pending == []
    ensures EventsOk(Advance(k))
  {
    hide SleepingBag, EnlistAll, Due, Later;
    DueBag(k.sleepers, k.now + 1);
    forall t | t in Advance(k).events
      ensures Blocked(Advance(k), t)
    {
      SleepingIds(Due(k.sleepers, k.now + 1), t);
      assert t in SleepingBag(k.sleepers) ==> t in SleepingBag(Later(k.sleepers, k.now + 1));
    }
  }

  lemma KeepsAdvance(k: Kernel)
    requires InvWithin(k) && k.pending == []
    ensures InvWithin(Advance(k))
  {
    hide Places, EventsOk;
    AdvancePlaces(k);
    AdvanceEvents(k);
    DueMembers(k.sleepers, k.now + 1);
    EnlistAllHome(k.ready, k.priority, Due(k.sleepers, k.now + 1));
  }

  lemma {:induction false} KeepsAdvanceBy(k: Kernel, n: nat)
    requires InvWithin(k) && k.pending == []
    ensures InvWithin(AdvanceBy(k, n)) && AdvanceBy(k, n).now == k.now + n
    ensures AdvanceBy(k, n).depth == k.depth && AdvanceBy(k, n).pending == k.pending
    ensures AdvanceBy(k, n).pended == k.pended && AdvanceBy(k, n).priority == k.priority
    decreases n
  {
    hide InvWithin;
    if n > 0 {
      KeepsAdvance(k);
      KeepsAdvanceBy(Advance(k), n - 1);
    }
  }

  lemma SettleOne(k: Kernel)
    requires InvWithin(k) && k.pending != []
    ensures InvWithin(MakeReady(k.(pending := k.pending[1..]), k.pending[0]))
  {
    hide Places, SleepingBag;
    var t, rest := k.pending[0], k.(pending := k.pending[1..]);
    assert k.pending == [t] + k.pending[1..];
    SamePlaces(k, rest);
    BlockedAreTasks(k, t);
    forall x | x in rest.pending
      ensures x in k.pending && multiset(rest.pending)[x] == 1 && x != t
    {
      assert multiset(k.pending)[x] == 1;
    }
    KeepsMakeReady(rest, t);
  }

  lemma SamePlaces(k: Kernel, k': Kernel)
    requires k'.ready == k.ready && k'.sleepers == k.sleepers
    requires k'.parked == k.parked && k'.terminated == k.terminated
    ensures Places(k') == Places(k)
  {
  }

  lemma {:induction false} KeepsSettle(k: Kernel)
    requires InvWithin(k)
    ensures InvWithin(Settle(k)) && Settle(k).pending == [] && Settle(k).now == k.now
    ensures Settle(k).depth == k.depth && Settle(k).pended == k.pended && Settle(k).priority == k.priority
    decreases |k.pending|
  {
    if k.pending != [] {
      SettleOne(k);
      KeepsSettle(MakeReady(k.(pending := k.pending[1..]), k.pending[0]));
    }
  }

  lemma KeepsResumeAll(k: Kernel)
    requires Inv(k) && k.depth > 0
    ensures Inv(SchedulerSpec.ResumeAll(k))
  {
    hide InvWithin, Settle, AdvanceBy;
    var k' := k.(depth := k.depth - 1);
    SameWithin(k, k');
    if k'.depth == 0 {
      KeepsSettle(k');
      KeepsAdvanceBy(Settle(k'), k'.pended);
      SameWithin(AdvanceBy(Settle(k'), k'.pended), SchedulerSpec.ResumeAll(k));
    }
  }

  /** Suspension depth and pended ticks do not matter to the lists. */
  lemma SameWithin(k: Kernel, k': Kernel)
    requires InvWithin(k) && k' == k.(depth := k'.depth, pended := k'.pended, current := k'.current)
    ensures InvWithin(k')
  {
    hide Places;
    SamePlaces(k, k');
  }

  /** A task that is detached and put on the parked or the terminated list. */
  lemma KeepsLaidAside(k: Kernel, k': Kernel, t: nat)
    requires InvWithin(k) && t in k.priority
    requires var d := Detach(k, t);
             && k'.now == d.now && k'.priority == d.priority && k'.ready == d.ready && k'.sleepers == d.sleepers
             && ((k'.parked == d.parked + [t] && k'.terminated == d.terminated)
                 || (k'.parked == d.parked && k'.terminated == d.terminated + [t]))
    requires EventsOk(k')
    ensures InvWithin(k')
  {
    hide Gather, SleepingBag, EventsOk;
    KeepsDetached(k, t);
    DetachBag(k, t);
    assert Places(k') == Places(Detach(k, t)) + multiset{t};
    Moved(k.priority.Keys, t);
  }

  lemma {:induction false} InsertBag(l: seq<Entry>, e: Entry)
    ensures SleepingBag(Insert(l, e)) == SleepingBag(l) + multiset{e.id}
  {
    if l != [] && l[0].time <= e.time {
      InsertBag(l[1..], e);
      assert Insert(l, e)[1..] == Insert(l[1..], e);
    } else {
      assert Insert(l, e)[1..] == l;
    }
  }

  lemma SleepPlaces(k: Kernel, t: nat, wake: nat)
    requires PlacesOk(k) && t in k.priority
    ensures var d := Detach(k, t); PlacesOk(d.(sleepers := Insert(d.sleepers, Entry(t, wake))))
  {
    hide Gather, SleepingBag, Insert;
    var d := Detach(k, t);
    DetachBag(k, t);
    InsertBag(d.sleepers, Entry(t, wake));
    assert Places(d.(sleepers := Insert(d.sleepers, Entry(t, wake)))) == Places(d) + multiset{t};
    Moved(k.priority.Keys, t);
  }

  lemma Parked(k: Kernel, t: nat)
    ensures var d := Detach(k, t);
            forall x :: Blocked(k, x) || x == t ==> Blocked(d.(parked := d.parked + [t]), x)
  {
    StaysBlocked(k, t);
  }

  lemma PutToSleep(k: Kernel, t: nat, wake: nat)
    ensures var d := Detach(k, t);
            forall x :: Blocked(k, x) || x == t ==> Blocked(d.(sleepers := Insert(d.sleepers, Entry(t, wake))), x)
  {
    hide SleepingBag, Insert;
    StaysBlocked(k, t);
    InsertBag(Detach(k, t).sleepers, Entry(t, wake));
  }

  lemma KeepsBlock(k: Kernel, ticks: Tick, mayBlockForEver: bool)
    requires InvWithin(k) && k.current in k.priority
    ensures InvWithin(Block(k, ticks, mayBlockForEver))
  {
    hide Places, Insert, SleepingBag, Without, Drop;
    var t := k.current;
    if ticks == MAX_DELAY && mayBlockForEver {
      Parked(k, t);
      KeepsLaidAside(k, Block(k, ticks, mayBlockForEver), t);
    } else {
      var d, e := Detach(k, t), Entry(t, WakeAt(k.now, ticks));
      SleepPlaces(k, t, e.time);
      PutToSleep(k, t, e.time);
      KeepsDetached(k, t);
      InsertMembers(d.sleepers, e);
      InsertSorted(d.sleepers, e);
    }
  }

  /** A ready task is not blocked, so it is on no event list and not pending. */
  lemma ReadyIsFree(k: Kernel, t: nat)
    requires InvWithin(k) && IsReady(k, t)
    ensures t !in k.events && t !in k.pending && t !in k.terminated && !Blocked(k, t)
  {
    OneListEach(k, t);
  }

  /** The current task may be put on an event list once it is blocked. */
  lemma KeepsWait(k: Kernel, ticks: Tick, mayBlockForEver: bool)
    requires Inv(k) && IsReady(k, k.current)
    ensures Inv(Block(k.(events := k.events + {k.current}), ticks, mayBlockForEver))
  {
    hide Places, SleepingBag, Insert, Drop, Without, Strip;
    ReadyIsFree(k, k.current);
    var b, w := Block(k, ticks, mayBlockForEver), Block(k.(events := k.events + {k.current}), ticks, mayBlockForEver);
    KeepsBlock(k, ticks, mayBlockForEver);
    Parked(k, k.current);
    PutToSleep(k, k.current, WakeAt(k.now, ticks));
    assert w == b.(events := w.events);
    SamePlaces(b, w);
  }

  lemma KeepsEventWake(k: Kernel, t: nat)
    requires Inv(k) && t in k.events
    ensures Inv(EventWake(k, t))
  {
    hide Places, SleepingBag;
    var k' := k.(events := k.events - {t});
    SamePlaces(k, k');
    if k.depth == 0 {
      BlockedAreTasks(k, t);
      KeepsMakeReady(k', t);
    } else {
      SamePlaces(k, EventWake(k, t));
    }
  }

  lemma KeepsEventRelease(k: Kernel, t: nat)
    requires Inv(k) && t in k.events && k.depth > 0
    ensures Inv(EventRelease(k, t)) && IsReady(EventRelease(k, t), t)
  {
    hide Places, SleepingBag;
    var k' := k.(events := k.events - {t});
    SamePlaces(k, k');
    BlockedAreTasks(k, t);
    KeepsMakeReady(k', t);
  }

  lemma KeepsSuspendTask(k: Kernel, t: nat)
    requires Inv(k) && t in k.priority
    ensures Inv(SuspendTask(k, t))
  {
    hide Places, SleepingBag;
    Parked(k, t);
    DropMembers(k.pending, t);
    DropBag(k.pending, t);
    KeepsLaidAside(k, SuspendTask(k, t), t);
  }

  lemma KeepsResumed(k: Kernel, t: nat)
    requires Inv(k) && IsSuspended(k, t)
    ensures Inv(MakeReady(k, t))
  {
    hide Places, SleepingBag;
    BlockedAreTasks(k, t);
    KeepsMakeReady(k, t);
  }

  lemma KeepsHeld(k: Kernel, t: nat)
    requires Inv(k) && IsSuspended(k, t) && k.depth > 0
    ensures Inv(k.(pending := k.pending + [t]))
  {
    hide Places, SleepingBag;
    BlockedAreTasks(k, t);
    SamePlaces(k, k.(pending := k.pending + [t]));
  }

  lemma CreatePlaces(k: Kernel, t: nat, p: nat)
    requires PlacesOk(k) && t !in k.priority && p < |k.ready|
    ensures PlacesOk(CreateTask(k, t, p))
  {
    hide Gather, SleepingBag;
    var k' := k.(priority := k.priority[t := p]);
    EnlistBag(k'.ready, k'.priority, t);
    assert Places(CreateTask(k, t, p)) == Places(k) + multiset{t};
    assert k'.priority.Keys == k.priority.Keys + {t};
  }

  lemma KeepsCreate(k: Kernel, t: nat, p: nat)
    requires Inv(k) && t !in k.priority && p < |k.ready|
    ensures Inv(CreateTask(k, t, p)) && IsReady(CreateTask(k, t, p), t)
  {
    hide Places, SleepingBag;
    var k' := k.(priority := k.priority[t := p]);
    CreatePlaces(k, t, p);
    EnlistHome(k'.ready, k'.priority, t);
  }

  lemma DeleteOtherPlaces(k: Kernel, t: nat)
    requires PlacesOk(k) && t in k.priority && t != k.current
    ensures PlacesOk(DeleteTask(k, t))
  {
    hide Gather, SleepingBag;
    assert DeleteTask(k, t).priority.Keys == k.priority.Keys - {t};
    DetachBag(k, t);
    assert Places(DeleteTask(k, t)) == Places(Detach(k, t));
  }

  lemma DeleteOtherHomes(k: Kernel, t: nat)
    requires HomesOk(k) && t != k.current
    ensures HomesOk(DeleteTask(k, t))
  {
    StripHome(k.ready, k.priority, t);
  }

  lemma DeleteEvents(k: Kernel, t: nat)
    requires EventsOk(k)
    ensures EventsOk(DeleteTask(k, t))
  {
    hide SleepingBag, Without, Strip;
    StaysBlocked(k, t);
    DropMembers(k.pending, t);
    DropBag(k.pending, t);
  }

  lemma KeepsDelete(k: Kernel, t: nat)
    requires Inv(k) && t in k.priority
    ensures Inv(DeleteTask(k, t))
  {
    hide Places, EventsOk, HomesOk;
    DeleteEvents(k, t);
    DropMembers(k.pending, t);
    if t == k.current {
      KeepsLaidAside(k, DeleteTask(k, t), t);
    } else {
      DeleteOtherPlaces(k, t);
      DeleteOtherHomes(k, t);
      KeepsDetached(k, t);
    }
  }

  lemma ReapPlaces(k: Kernel)
    requires PlacesOk(k) && k.terminated != []
    ensures PlacesOk(Reap(k))
  {
    hide Gather, SleepingBag;
    var h := k.terminated[0];
    BlockedAreTasks(k, h);
    assert k.terminated == [h] + k.terminated[1..];
    assert Places(k) == Places(Reap(k)) + multiset{h};
    assert k.priority.Keys == (k.priority.Keys - {h}) + {h};
    Cancel(Places(Reap(k)), multiset(k.priority.Keys - {h}), h);
  }

  lemma Cancel(a: multiset<nat>, b: multiset<nat>, h: nat)
    requires a + multiset{h} == b + multiset{h}
    ensures a == b
  {
    assert a == (a + multiset{h}) - multiset{h};
    assert b == (b + multiset{h}) - multiset{h};
  }

  lemma ReapHomes(k: Kernel)
    requires PlacesOk(k) && HomesOk(k) && k.terminated != []
    ensures HomesOk(Reap(k))
  {
    hide Places, OnTurns, Blocked;
    OneListEach(k, k.terminated[0]);
  }

  lemma SameEvents(k: Kernel, k': Kernel)
    requires EventsOk(k) && k'.pending == k.pending && k'.events == k.events
    requires forall x :: Blocked(k, x) ==> Blocked(k', x)
    ensures EventsOk(k')
  {
    hide Blocked;
  }

  lemma KeepsReap(k: Kernel)
    requires Inv(k)
    ensures Inv(Reap(k))
  {
    hide PlacesOk, HomesOk, EventsOk;
    if k.terminated != [] {
      ReapPlaces(k);
      ReapHomes(k);
      SameBlocked(k, Reap(k));
      SameEvents(k, Reap(k));
    }
  }

  lemma {:induction false} TopIsHighest(ready: seq<Turns>)
    ensures Top(ready) < |ready| || ready == []
    ensures forall p :: Top(ready) < p < |ready| ==> Empty(ready[p])
    ensures (exists p :: 0 <= p < |ready| && !Empty(ready[p])) ==> !Empty(ready[Top(ready)])
  {
    if ready != [] {
      TopIsHighest(ready[..|ready| - 1]);
    }
  }

  lemma NextTurnBag(l: Turns)
    requires !Empty(l)
    ensures Bag(NextTurn(l).1) == Bag(l)
    ensures forall t :: OnTurns(NextTurn(l).1, t) <==> OnTurns(l, t)
    ensures OnTurns(l, NextTurn(l).0)
  {
    if l.ahead != [] {
      assert l.ahead == [l.ahead[0]] + l.ahead[1..];
    } else {
      assert l.passed == [l.passed[0]] + l.passed[1..];
    }
  }

  lemma ServedPlaces(k: Kernel, p: nat, t: nat)
    requires PlacesOk(k) && p < |k.ready| && !Empty(k.ready[p])
    ensures PlacesOk(k.(current := t, ready := k.ready[p := NextTurn(k.ready[p]).1]))
  {
    hide Gather, SleepingBag, Bag, NextTurn;
    NextTurnBag(k.ready[p]);
    UpdateBag(k.ready, p, NextTurn(k.ready[p]).1, multiset{});
  }

  lemma ServedHomes(k: Kernel, p: nat, t: nat)
    requires HomesOk(k) && p < |k.ready| && !Empty(k.ready[p])
    ensures HomesOk(k.(current := t, ready := k.ready[p := NextTurn(k.ready[p]).1]))
  {
    hide Bag, NextTurn, OnTurns;
    NextTurnBag(k.ready[p]);
  }

  /** Serving the next turn of a list leaves everybody on the same lists. */
  lemma KeepsServed(k: Kernel, p: nat, t: nat)
    requires Inv(k) && p < |k.ready| && !Empty(k.ready[p])
    ensures Inv(k.(current := t, ready := k.ready[p := NextTurn(k.ready[p]).1]))
  {
    hide PlacesOk, HomesOk, EventsOk, NextTurn;
    var k' := k.(current := t, ready := k.ready[p := NextTurn(k.ready[p]).1]);
    ServedPlaces(k, p, t);
    ServedHomes(k, p, t);
    SameBlocked(k, k');
    SameEvents(k, k');
  }

  lemma SameBlocked(k: Kernel, k': Kernel)
    requires k'.parked == k.parked && k'.sleepers == k.sleepers
    ensures forall x :: Blocked(k', x) <==> Blocked(k, x)
  {
  }

  lemma KeepsSwitch(k: Kernel)
    requires Inv(k)
    ensures Inv(Switch(k))
  {
    hide Inv, Top, NextTurn;
    var p := Top(k.ready);
    if k.depth == 0 && p < |k.ready| && !Empty(k.ready[p]) {
      KeepsServed(k, p, NextTurn(k.ready[p]).0);
    }
  }

  lemma KeepsStep(k: Kernel, ev: Event)
    requires Inv(k) && Enabled(k, ev)
    ensures Inv(Step(k, ev))
  {
    hide InvWithin, SchedulerSpec.ResumeAll, Block, EventWake, SuspendTask, MakeReady, CreateTask, DeleteTask, Reap,
         Switch, Advance;
    match ev {
      case Interrupt => KeepsInterrupt(k);
      case SuspendAll => SameWithin(k, Step(k, ev));
      case ResumeAll => KeepsResumeAll(k);
      case Delay(ticks) => KeepsDelay(k, ticks);
      case WaitForEvent(ticks) => KeepsWait(k, ticks, true);
      case WaitRestricted(ticks, indefinitely) => KeepsWait(k, if indefinitely then MAX_DELAY else ticks, indefinitely);
      case Wake(t) => KeepsEventWake(k, t);
      case Release(t) => KeepsEventRelease(k, t);
      case Suspend(t) => KeepsSuspendTask(k, t);
      case Resume(t) => if IsSuspended(k, t) { KeepsResumed(k, t); }
      case ResumeInIsr(t) =>
        if IsSuspended(k, t) {
          if k.depth == 0 { KeepsResumed(k, t); } else { KeepsHeld(k, t); }
        }
      case Create(t, p) => KeepsCreate(k, t, p);
      case Delete(t) => KeepsDelete(k, t);
      case CleanUp => KeepsReap(k);
      case SwitchContext => KeepsSwitch(k);
    }
  }

  lemma KeepsInterrupt(k: Kernel)
    requires Inv(k)
    ensures Inv(TickInterrupt(k))
  {
    hide InvWithin;
    if k.depth == 0 { KeepsAdvance(k); } else { SameWithin(k, TickInterrupt(k)); }
  }

  lemma KeepsDelay(k: Kernel, ticks: Tick)
    requires Inv(k) && Enabled(k, Delay(ticks))
    ensures Inv(Block(k, ticks, false))
  {
    hide InvWithin;
    KeepsBlock(k, ticks, false);
  }

  /** The structure of the scheduler, over every run. */
  lemma {:induction false} RunsKeepInv(k: Kernel, evs: seq<Event>)
    requires Inv(k) && IsRun(k, evs)
    ensures Inv(Run(k, evs))
    decreases |evs|
  {
    hide Inv, Step;
    if evs != [] {
      KeepsStep(k, evs[0]);
      RunsKeepInv(Step(k, evs[0]), evs[1..]);
    }
  }

  lemma GatherSnoc(ready: seq<Turns>, l: Turns)
    ensures Gather(ready + [l]) == Gather(ready) + Bag(l)
  {
    hide Bag;
    assert (ready + [l])[..|ready|] == ready;
  }

  lemma GatherEmpty(ready: seq<Turns>)
    ensures Gather(ready + [Turns([], [])]) == Gather(ready)
  {
    GatherSnoc(ready, Turns([], []));
    hide Gather;
    assert Bag(Turns([], [])) == multiset{};
  }

  lemma {:induction false} NoTurnsBag(ready: seq<Turns>, n: nat)
    ensures Gather(ready + NoTurns(n)) == Gather(ready)
    decreases n
  {
    hide Gather, Bag;
    if n == 0 {
      assert ready + [] == ready;
    } else {
      NoTurnsBag(ready, n - 1);
      assert ready + NoTurns(n) == (ready + NoTurns(n - 1)) + [Turns([], [])];
      GatherEmpty(ready + NoTurns(n - 1));
    }
  }

  lemma StartedPlaces(levels: nat, idle: nat)
    requires levels > 0
    ensures PlacesOk(Started(levels, idle))
  {
    var first := Turns([], [idle]);
    NoTurnsBag([first], levels - 1);
    GatherSnoc([], first);
    assert [] + [first] == [first];
    hide Gather;
    assert Gather([]) == multiset{} by {
      GatherNone();
    }
    assert Bag(first) == multiset{idle};
    assert multiset({idle}) == multiset{idle};
  }

  lemma GatherNone()
    ensures Gather([]) == multiset{}
  {
  }

  /** The kernel starts with the invariant, so every run from its start has it. */
  lemma StartedInv(levels: nat, idle: nat)
    requires levels > 0
    ensures Inv(Started(levels, idle))
  {
    hide Gather, SleepingBag, Places;
    StartedPlaces(levels, idle);
  }

  function ReadyCount(ready: seq<Turns>): nat {
    if ready == [] then 0
    else ReadyCount(ready[..|ready| - 1]) + |ready[|ready| - 1].passed| + |ready[|ready| - 1].ahead|
  }

  lemma {:induction false} GatherCount(ready: seq<Turns>)
    ensures |Gather(ready)| == ReadyCount(ready)
  {
    if ready != [] {
      GatherCount(ready[..|ready| - 1]);
    }
  }

  lemma {:induction false} SleepingCount(l: seq<Entry>)
    ensures |SleepingBag(l)| == |l|
  {
    if l != [] {
      SleepingCount(l[1..]);
    }
  }

  /** In every run, the list lengths sum to the number of tasks and each task is on one list. */
  lemma {:induction false} ListsPartitionTasks(k: Kernel, evs: seq<Event>)
    requires Inv(k) && IsRun(k, evs)
    ensures var s := Run(k, evs);
            && ReadyCount(s.ready) + |s.sleepers| + |s.parked| + |s.terminated| == |s.priority|
            && (forall t :: Places(s)[t] == if t in s.priority then 1 else 0)
            && (forall p, t :: 0 <= p < |s.ready| && OnTurns(s.ready[p], t) ==> t in s.priority && s.priority[t] == p)
            && (s.depth == 0 ==> s.pending == [])
  {
    hide Gather, SleepingBag, Run, IsRun;
    RunsKeepInv(k, evs);
    var s := Run(k, evs);
    GatherCount(s.ready);
    SleepingCount(s.sleepers);
    assert |Places(s)| == |multiset(s.priority.Keys)|;
  }

  // Ticks are conserved

  function Interrupts(evs: seq<Event>): nat {
    if evs == [] then 0 else (if evs[0].Interrupt? then 1 else 0) + Interrupts(evs[1..])
  }

  lemma {:induction false} AdvanceByNow(k: Kernel, n: nat)
    ensures AdvanceBy(k, n).now == k.now + n
    decreases n
  {
    if n > 0 {
      AdvanceByNow(Advance(k), n - 1);
    }
  }

  lemma {:induction false} SettleNow(k: Kernel)
    ensures Settle(k).now == k.now && Settle(k).pended == k.pended && Settle(k).depth == k.depth
    decreases |k.pending|
  {
    if k.pending != [] {
      SettleNow(MakeReady(k.(pending := k.pending[1..]), k.pending[0]));
    }
  }

  lemma StepCountsTicks(k: Kernel, ev: Event)
    ensures Step(k, ev).now + Step(k, ev).pended == k.now + k.pended + if ev.Interrupt? then 1 else 0
  {
    hide Without, Drop, Strip, Enlist, EnlistAll, NextTurn, Top;
    if ev.ResumeAll? {
      SettleNow(k.(depth := if k.depth > 0 then k.depth - 1 else 0));
      AdvanceByNow(Settle(k.(depth := if k.depth > 0 then k.depth - 1 else 0)), k.pended);
    }
  }

  /** At every point of a run, ticks processed plus ticks pended are the tick interrupts taken. */
  lemma {:induction false} TicksConserved(k: Kernel, evs: seq<Event>)
    ensures Run(k, evs).now + Run(k, evs).pended == k.now + k.pended + Interrupts(evs)
    decreases |evs|
  {
    hide Step;
    if evs != [] {
      StepCountsTicks(k, evs[0]);
      TicksConserved(Step(k, evs[0]), evs[1..]);
    }
  }

  function Repeat(n: nat): (evs: seq<Event>)
    ensures |evs| == n
  {
    if n == 0 then [] else [Interrupt] + Repeat(n - 1)
  }

  lemma {:induction false} InterruptsRun(k: Kernel, n: nat)
    ensures k.depth == 0 ==> Run(k, Repeat(n)) == AdvanceBy(k, n)
    ensures k.depth > 0 ==> Run(k, Repeat(n)) == k.(pended := k.pended + n)
    decreases n
  {
    if n > 0 {
      assert Repeat(n)[1..] == Repeat(n - 1);
      InterruptsRun(TickInterrupt(k), n - 1);
    }
  }

  lemma {:induction false} RunAppend(k: Kernel, a: seq<Event>, b: seq<Event>)
    ensures Run(k, a + b) == Run(Run(k, a), b)
    decreases |a|
  {
    if a == [] {
      assert a + b == b;
    } else {
      assert (a + b)[0] == a[0] && (a + b)[1..] == a[1..] + b;
      RunAppend(Step(k, a[0]), a[1..], b);
    }
  }

  lemma {:induction false} AdvanceByIgnoresDepth(k: Kernel, n: nat, depth: nat, pended: nat)
    ensures AdvanceBy(k.(depth := depth, pended := pended), n)
         == AdvanceBy(k, n).(depth := depth, pended := pended)
    decreases n
  {
    if n > 0 {
      AdvanceByIgnoresDepth(Advance(k), n - 1, depth, pended);
    }
  }

  /** What interrupts do: ticks, and readying tasks. */
  predicate FromInterrupt(ev: Event) {
    ev.Interrupt? || ev.Wake? || ev.ResumeInIsr?
  }

  /** The events other than ticks. */
  function Moves(evs: seq<Event>): seq<Event> {
    if evs == [] then []
    else if evs[0].Interrupt? then Moves(evs[1..])
    else [evs[0]] + Moves(evs[1..])
  }

  lemma {:induction false} SettleIgnores(k: Kernel, depth: nat, pended: nat, events: set<nat>)
    ensures Settle(k.(depth := depth, pended := pended, events := events))
         == Settle(k).(depth := depth, pended := pended, events := events)
    decreases |k.pending|
  {
    if k.pending != [] {
      SettleIgnores(MakeReady(k.(pending := k.pending[1..]), k.pending[0]), depth, pended, events);
    }
  }

  lemma {:induction false} SettleLast(k: Kernel, t: nat)
    ensures Settle(k.(pending := k.pending + [t])) == MakeReady(Settle(k), t)
    decreases |k.pending|
  {
    hide MakeReady;
    var l := k.pending + [t];
    if k.pending == [] {
      assert l[1..] == [] && l[0] == t;
      MakeReadyKeepsPending(k.(pending := []), t);
      assert k.(pending := []) == k;
    } else {
      assert l[1..] == k.pending[1..] + [t] && l[0] == k.pending[0];
      var r := MakeReady(k.(pending := k.pending[1..]), k.pending[0]);
      MakeReadyKeepsPending(k.(pending := k.pending[1..]), k.pending[0]);
      MakeReadyPending(k, k.pending[0], l[1..]);
      MakeReadyPending(k, k.pending[0], k.pending[1..]);
      SettleLast(r, t);
    }
  }

  lemma MakeReadyKeepsPending(k: Kernel, t: nat)
    ensures MakeReady(k, t).pending == k.pending && MakeReady(k, t).events == k.events
  {
  }

  lemma MakeReadyPending(k: Kernel, t: nat, pending: seq<nat>)
    ensures MakeReady(k.(pending := pending), t) == MakeReady(k, t).(pending := pending)
  {
  }

  lemma {:induction false} SettledLists(k: Kernel)
    ensures Settle(k).pending == [] && Settle(k).events == k.events
    ensures forall t :: t in Settle(k).parked <==> t in k.parked && t !in k.pending
    decreases |k.pending|
  {
    if k.pending != [] {
      var t := k.pending[0];
      var r := MakeReady(k.(pending := k.pending[1..]), t);
      DropMembers(k.parked, t);
      SettledLists(r);
      assert forall x :: x in k.pending <==> x == t || x in k.pending[1..];
    }
  }

  /** What is left of a suspended kernel once it has been settled, as if it had never been suspended. */
  function AsIfRunning(k: Kernel): Kernel {
    Settle(k).(depth := 0, pended := 0)
  }

  lemma MoveTransparent(k: Kernel, ev: Event)
    requires k.depth > 0 && FromInterrupt(ev) && !ev.Interrupt?
    ensures AsIfRunning(Step(k, ev)) == Step(AsIfRunning(k), ev)
    ensures Step(k, ev).depth == k.depth && Step(k, ev).pended == k.pended
  {
    hide Settle, MakeReady;
    SettledLists(k);
    SettleIgnores(k, 0, 0, k.events);
    if ev.Wake? {
      SettleLast(k.(events := k.events - {ev.task}), ev.task);
      SettleIgnores(k, k.depth, k.pended, k.events - {ev.task});
      MakeReadyIgnores(Settle(k), ev.task, 0, 0, k.events - {ev.task});
      MakeReadyIgnores(Settle(k), ev.task, k.depth, k.pended, k.events - {ev.task});
      assert Settle(Step(k, ev))
          == MakeReady(Settle(k), ev.task).(events := k.events - {ev.task}, depth := k.depth, pended := k.pended);
    } else {
      assert IsSuspended(k, ev.task) <==> IsSuspended(AsIfRunning(k), ev.task);
      assert AsIfRunning(k) == Settle(k).(depth := 0, pended := 0, events := k.events);
      assert Settle(k) == Settle(k).(depth := Settle(k).depth);
      SettleLast(k, ev.task);
      MakeReadyIgnores(Settle(k), ev.task, 0, 0, k.events);
      MakeReadyKeepsPending(Settle(k), ev.task);
    }
  }

  lemma MakeReadyIgnores(k: Kernel, t: nat, depth: nat, pended: nat, events: set<nat>)
    ensures MakeReady(k.(depth := depth, pended := pended, events := events), t)
         == MakeReady(k, t).(depth := depth, pended := pended, events := events)
  {
  }

  lemma {:induction false} RunTransparent(k: Kernel, evs: seq<Event>)
    requires k.depth > 0 && forall i :: 0 <= i < |evs| ==> FromInterrupt(evs[i])
    ensures AsIfRunning(Run(k, evs)) == Run(AsIfRunning(k), Moves(evs))
    ensures Run(k, evs).pended == k.pended + Interrupts(evs) && Run(k, evs).depth == k.depth
    decreases |evs|
  {
    hide Settle, MakeReady, EventWake, ResumeFromIsr;
    if evs != [] {
      var k' := Step(k, evs[0]);
      if evs[0].Interrupt? {
        SettleIgnores(k, k.depth, k.pended + 1, k.events);
        SettledLists(k);
        assert k' == k.(depth := k.depth, pended := k.pended + 1, events := k.events);
        assert AsIfRunning(k') == AsIfRunning(k);
      } else {
        MoveTransparent(k, evs[0]);
        assert Moves(evs)[0] == evs[0] && Moves(evs)[1..] == Moves(evs[1..]);
      }
      RunTransparent(k', evs[1..]);
    }
  }

  /** Whatever interrupts do while the scheduler is suspended, ticks and readying of tasks in any order,
      the outermost resume ends in the same state as if it had never been suspended: first the tasks
      readied, in their order, and then all the ticks. */
  lemma {:induction false} SuspensionIsTransparent(k: Kernel, evs: seq<Event>)
    requires Settled(k) && k.depth == 0
    requires forall i :: 0 <= i < |evs| ==> FromInterrupt(evs[i])
    ensures Run(k, [SuspendAll] + evs + [ResumeAll]) == Run(k, Moves(evs) + Repeat(Interrupts(evs)))
  {
    hide Settle, AdvanceBy, TickInterrupt, EventWake, ResumeFromIsr, Moves;
    var up, n := k.(depth := 1), Interrupts(evs);
    RunAppend(k, [SuspendAll] + evs, [ResumeAll]);
    RunAppend(k, [SuspendAll], evs);
    assert Run(k, [SuspendAll]) == up;
    RunTransparent(up, evs);
    SettleNothing(up);
    assert AsIfRunning(up) == k;
    var r, v := Run(up, evs), Run(k, Moves(evs));
    assert [ResumeAll][1..] == [];
    assert Run(r, [ResumeAll]) == SchedulerSpec.ResumeAll(r);
    SettleIgnores(r, 0, n, r.events);
    SettledLists(r);
    assert Settle(r.(depth := 0)) == v.(pended := n);
    AdvanceByIgnoresDepth(v, n, 0, n);
    AdvanceByIgnoresDepth(v, n, 0, 0);
    RunAppend(k, Moves(evs), Repeat(n));
    InterruptsRun(v, n);
  }

  lemma SettleNothing(k: Kernel)
    requires k.pending == []
    ensures Settle(k) == k
  {
  }

  lemma ReadyBesides(k: Kernel, x: nat, t: nat)
    requires IsReady(k, t)
    ensures IsReady(MakeReady(k, x), t) && MakeReady(k, x).depth == k.depth
    ensures x in k.priority && k.priority[x] < |k.ready| ==> IsReady(MakeReady(k, x), x)
  {
    var p := k.priority[t];
    DropMembers(k.ready[p].passed, x);
    DropMembers(k.ready[p].ahead, x);
    if x in k.priority && k.priority[x] < |k.ready| {
      AddTurnMembers(DropTurn(k.ready[k.priority[x]], x), x);
    }
  }

  lemma {:induction false} SettleReadies(k: Kernel, t: nat)
    requires InvWithin(k) && (t in k.pending || IsReady(k, t))
    ensures InvWithin(Settle(k)) && IsReady(Settle(k), t)
    decreases |k.pending|
  {
    hide InvWithin, MakeReady, IsReady;
    if k.pending != [] {
      var x, rest := k.pending[0], k.(pending := k.pending[1..]);
      SettleOne(k);
      PendingKnown(k, x);
      MakeReadyKeepsPending(rest, x);
      assert t in k.pending ==> t == x || t in rest.pending;
      if t == x {
        ReadiesOne(rest, x);
      } else if IsReady(k, t) {
        ReadyElsewhere(k, rest, t);
        ReadyBesides(rest, x, t);
      }
      SettleReadies(MakeReady(rest, x), t);
    }
  }

  lemma PendingKnown(k: Kernel, t: nat)
    requires InvWithin(k) && t in k.pending
    ensures t in k.priority && k.priority[t] < |k.ready|
  {
    BlockedAreTasks(k, t);
  }

  lemma ReadyElsewhere(k: Kernel, k': Kernel, t: nat)
    requires IsReady(k, t) && k'.ready == k.ready && k'.priority == k.priority
    ensures IsReady(k', t)
  {
  }

  lemma ReadiesOne(k: Kernel, t: nat)
    requires t in k.priority && k.priority[t] < |k.ready|
    ensures IsReady(MakeReady(k, t), t)
  {
    AddTurnMembers(DropTurn(k.ready[k.priority[t]], t), t);
  }

  /** What happens while the scheduler is suspended: interrupts, and an event group releasing tasks. */
  predicate WhileSuspended(ev: Event) {
    FromInterrupt(ev) || ev.Release?
  }

  ghost predicate OnItsWay(k: Kernel, t: nat) {
    t in k.pending || IsReady(k, t)
  }

  /** A task that is woken or released stays so, until the resume, and nothing readies it again. */
  lemma StaysOnItsWay(k: Kernel, ev: Event, t: nat)
    requires Inv(k) && k.depth > 0 && Enabled(k, ev) && WhileSuspended(ev)
    requires OnItsWay(k, t) || ev == Wake(t) || ev == Release(t)
    ensures OnItsWay(Step(k, ev), t) && Step(k, ev).depth == k.depth
  {
    hide InvWithin, MakeReady, IsReady;
    match ev
    case Release(x) =>
      KeepsEventRelease(k, x);
      var k' := k.(events := k.events - {x});
      MakeReadyKeepsPending(k', x);
      if IsReady(k, t) && t != x {
        ReadyElsewhere(k, k', t);
      }
      if IsReady(k', t) {
        ReadyBesides(k', x, t);
      }
      MakeReadyDepth(k', x);
    case _ => if IsReady(k, t) { ReadyElsewhere(k, Step(k, ev), t); }
  }

  lemma MakeReadyDepth(k: Kernel, t: nat)
    ensures MakeReady(k, t).depth == k.depth
  {
  }

  lemma {:induction false} OnItsWayAlong(k: Kernel, evs: seq<Event>, t: nat)
    requires Inv(k) && k.depth > 0 && IsRun(k, evs)
    requires OnItsWay(k, t) || Wake(t) in evs || Release(t) in evs
    requires forall i :: 0 <= i < |evs| ==> WhileSuspended(evs[i])
    ensures OnItsWay(Run(k, evs), t) && Run(k, evs).depth == k.depth
    decreases |evs|
  {
    hide Inv, OnItsWay, Enabled, Step;
    if evs != [] {
      KeepsStep(k, evs[0]);
      SuspendedDepth(k, evs[0]);
      if OnItsWay(k, t) || evs[0] == Wake(t) || evs[0] == Release(t) {
        StaysOnItsWay(k, evs[0], t);
      } else {
        assert Wake(t) in evs ==> Wake(t) in evs[1..];
        assert Release(t) in evs ==> Release(t) in evs[1..];
      }
      OnItsWayAlong(Step(k, evs[0]), evs[1..], t);
    }
  }

  lemma SuspendedDepth(k: Kernel, ev: Event)
    requires k.depth > 0 && WhileSuspended(ev)
    ensures Step(k, ev).depth == k.depth
  {
  }

  /** A task that an event wakes, or an event group releases, while the scheduler is suspended, and whose
      block time may run out in the meantime too, is ready after the resume, on that one list, once. */
  lemma {:induction false} WokenAndOverdueOnce(k: Kernel, evs: seq<Event>, t: nat)
    requires Inv(k) && k.depth == 0 && (Wake(t) in evs || Release(t) in evs)
    requires forall i :: 0 <= i < |evs| ==> WhileSuspended(evs[i])
    requires IsRun(Step(k, SuspendAll), evs)
    ensures var s := Run(k, [SuspendAll] + evs + [ResumeAll]);
            IsReady(s, t) && Places(s)[t] == 1
  {
    hide InvWithin, Run, IsRun, Settle, AdvanceBy, Places, IsReady;
    var up := Step(k, SuspendAll);
    var r := Run(up, evs);
    KeepsStep(k, SuspendAll);
    RunsKeepInv(up, evs);
    OnItsWayAlong(up, evs, t);
    Resumed(k, evs);
    var r' := r.(depth := 0);
    SameWithin(r, r');
    if IsReady(r, t) {
      ReadyElsewhere(r, r', t);
    }
    SettleReadies(r', t);
    KeepsStep(r, ResumeAll);
    SettledLists(r');
    AdvanceByWakes(Settle(r'), Entry(t, Settle(r').now), r.pended);
    ReadyElsewhere(AdvanceBy(Settle(r'), r.pended), SchedulerSpec.ResumeAll(r), t);
    ReadyIsOnce(SchedulerSpec.ResumeAll(r), t);
  }

  lemma ReadyIsOnce(k: Kernel, t: nat)
    requires Inv(k) && IsReady(k, t)
    ensures Places(k)[t] == 1
  {
    hide Places;
    assert multiset(k.priority.Keys)[t] == 1;
  }

  lemma Resumed(k: Kernel, evs: seq<Event>)
    requires k.depth == 0
    ensures Run(k, [SuspendAll] + evs + [ResumeAll]) == Step(Run(Step(k, SuspendAll), evs), ResumeAll)
  {
    hide Step;
    RunAppend(k, [SuspendAll] + evs, [ResumeAll]);
    RunAppend(k, [SuspendAll], evs);
    assert [ResumeAll][1..] == [] && [SuspendAll][1..] == [];
  }

  // Sleepers wake exactly on time

  ghost predicate Touches(ev: Event, t: nat) {
    match ev
    case Wake(x) => x == t
    case Release(x) => x == t
    case Suspend(x) => x == t
    case Resume(x) => x == t
    case ResumeInIsr(x) => x == t
    case Delete(x) => x == t
    case _ => false
  }

  ghost predicate Leaves(evs: seq<Event>, t: nat) {
    forall i :: 0 <= i < |evs| ==> !Touches(evs[i], t)
  }

  lemma OthersStayAsleep(k: Kernel, t: nat, e: Entry)
    requires e in k.sleepers && e.id != t
    ensures e in Detach(k, t).sleepers
  {
    WithoutMembers(k.sleepers, t);
  }

  /** A tick wakes the entry when its time has come, and not before. */
  lemma AdvanceWakes(k: Kernel, e: Entry)
    requires InvWithin(k) && k.pending == [] && e in k.sleepers
    ensures k.now + 1 < e.time ==> e in Advance(k).sleepers
    ensures k.now + 1 >= e.time ==> IsReady(Advance(k), e.id)
  {
    hide Places, Due, Later, EnlistAll;
    DueMembers(k.sleepers, k.now + 1);
    SleepersAreTasks(k);
    EnlistAllHome(k.ready, k.priority, Due(k.sleepers, k.now + 1));
  }

  lemma AdvanceKeepsReady(k: Kernel, t: nat)
    requires HomesOk(k) && IsReady(k, t)
    ensures IsReady(Advance(k), t)
  {
    EnlistAllHome(k.ready, k.priority, Due(k.sleepers, k.now + 1));
  }

  lemma {:induction false} AdvanceByWakes(k: Kernel, e: Entry, n: nat)
    requires InvWithin(k) && k.pending == []
    requires (e in k.sleepers && k.now < e.time) || (IsReady(k, e.id) && e.time <= k.now)
    ensures k.now + n < e.time ==> e in AdvanceBy(k, n).sleepers
    ensures k.now + n >= e.time ==> IsReady(AdvanceBy(k, n), e.id)
    decreases n
  {
    hide Places, Advance, HomesOk;
    if n > 0 {
      AdvanceNow(k);
      KeepsAdvance(k);
      if e in k.sleepers { AdvanceWakes(k, e); } else { AdvanceKeepsReady(k, e.id); }
      AdvanceByWakes(Advance(k), e, n - 1);
    }
  }

  lemma AdvanceNow(k: Kernel)
    ensures Advance(k).now == k.now + 1 && Advance(k).pending == k.pending
  {
  }

  lemma {:induction false} SettleKeepsAsleep(k: Kernel, e: Entry)
    requires e in k.sleepers && e.id !in k.pending
    ensures e in Settle(k).sleepers
    decreases |k.pending|
  {
    if k.pending != [] {
      var rest := k.(pending := k.pending[1..]);
      OthersStayAsleep(rest, k.pending[0], e);
      SettleKeepsAsleep(MakeReady(rest, k.pending[0]), e);
    }
  }

  lemma ResumeAllWakes(k: Kernel, e: Entry)
    requires Inv(k) && k.depth > 0 && e in k.sleepers && k.now < e.time && e.id !in k.pending
    ensures var s := SchedulerSpec.ResumeAll(k);
            if s.now < e.time then e in s.sleepers && e.id !in s.pending else IsReady(s, e.id)
  {
    hide InvWithin, Settle, AdvanceBy;
    var k' := k.(depth := k.depth - 1);
    SameWithin(k, k');
    if k'.depth == 0 {
      KeepsSettle(k');
      SettleKeepsAsleep(k', e);
      AdvanceByWakes(Settle(k'), e, k'.pended);
      KeepsAdvanceBy(Settle(k'), k'.pended);
    } else {
      NotYet(k, e);
    }
  }

  lemma NotYet(k: Kernel, e: Entry)
    requires InvWithin(k) && e in k.sleepers
    ensures k.now <= e.time && e.id in k.priority && !IsReady(k, e.id)
  {
    SleepersAreTasks(k);
    InSleepingBag(k.sleepers, e);
    OneListEach(k, e.id);
  }

  /** One step of anything that is not aimed at the sleeper. */
  lemma StepWakes(k: Kernel, e: Entry, ev: Event)
    requires Inv(k) && Enabled(k, ev) && !Touches(ev, e.id)
    requires e in k.sleepers && k.now < e.time && e.id !in k.pending
    ensures var s := Step(k, ev);
            if s.now < e.time then e in s.sleepers && e.id !in s.pending else IsReady(s, e.id)
  {
    hide Places, SleepingBag, HomesOk, EventsOk, Due, Later, EnlistAll, AdvanceBy, Settle, Top;
    NotYet(k, e);
    match ev {
      case Interrupt => if k.depth == 0 { AdvanceWakes(k, e); }
      case ResumeAll => ResumeAllWakes(k, e);
      case Delay(ticks) =>
        OthersStayAsleep(k, k.current, e);
        InsertMembers(Detach(k, k.current).sleepers, Entry(k.current, WakeAt(k.now, ticks)));
      case WaitForEvent(ticks) =>
        OthersStayAsleep(k, k.current, e);
        InsertMembers(Detach(k, k.current).sleepers, Entry(k.current, WakeAt(k.now, ticks)));
      case WaitRestricted(ticks, indefinitely) =>
        OthersStayAsleep(k, k.current, e);
        InsertMembers(Detach(k, k.current).sleepers, Entry(k.current, WakeAt(k.now, ticks)));
      case Wake(t) => OthersStayAsleep(k, t, e);
      case Release(t) => OthersStayAsleep(k, t, e);
      case Suspend(t) => OthersStayAsleep(k, t, e); DropMembers(k.pending, t);
      case Resume(t) => OthersStayAsleep(k, t, e);
      case ResumeInIsr(t) => OthersStayAsleep(k, t, e);
      case Delete(t) => OthersStayAsleep(k, t, e); DropMembers(k.pending, t);
      case _ =>
    }
  }

  /** Until its wake time a sleeper that nobody touches sleeps on, in every run. */
  lemma {:induction false} AsleepUntilWake(k: Kernel, e: Entry, evs: seq<Event>)
    requires Inv(k) && IsRun(k, evs) && Leaves(evs, e.id)
    requires e in k.sleepers && k.now < e.time && e.id !in k.pending
    ensures Run(k, evs).now < e.time ==> e in Run(k, evs).sleepers && e.id !in Run(k, evs).pending
    decreases |evs|
  {
    hide Inv, Step;
    if evs != [] {
      StepWakes(k, e, evs[0]);
      KeepsStep(k, evs[0]);
      NowGrows(Step(k, evs[0]), evs[1..]);
      if Step(k, evs[0]).now < e.time {
        AsleepUntilWake(Step(k, evs[0]), e, evs[1..]);
      }
    }
  }

  lemma StepNow(k: Kernel, ev: Event)
    ensures Step(k, ev).now >= k.now
  {
    hide Without, Drop, Strip, Enlist, EnlistAll, NextTurn, Top;
    if ev.ResumeAll? {
      SettleNow(k.(depth := if k.depth > 0 then k.depth - 1 else 0));
      AdvanceByNow(Settle(k.(depth := if k.depth > 0 then k.depth - 1 else 0)), k.pended);
    }
  }

  lemma {:induction false} NowGrows(k: Kernel, evs: seq<Event>)
    ensures Run(k, evs).now >= k.now
    decreases |evs|
  {
    hide Step;
    if evs != [] {
      StepNow(k, evs[0]);
      NowGrows(Step(k, evs[0]), evs[1..]);
    }
  }

  /** Any sleeper that nobody aims at sleeps on while its wake time is still to come, and the step that
      processes that tick readies it. */
  lemma {:induction false} SleeperWakes(k: Kernel, e: Entry, evs: seq<Event>, ev: Event)
    requires Inv(k) && e in k.sleepers && k.now < e.time && e.id !in k.pending
    requires IsRun(k, evs) && Leaves(evs, e.id)
    requires Run(k, evs).now < e.time && Enabled(Run(k, evs), ev) && !Touches(ev, e.id)
    ensures var s := Run(k, evs);
            && e in s.sleepers && !IsReady(s, e.id)
            && (if Step(s, ev).now < e.time then e in Step(s, ev).sleepers else IsReady(Step(s, ev), e.id))
  {
    hide InvWithin, Run, IsRun, Step, Leaves, Enabled;
    AsleepUntilWake(k, e, evs);
    RunsKeepInv(k, evs);
    NotYet(Run(k, evs), e);
    StepWakes(Run(k, evs), e, ev);
  }

  /** The event puts the current task to sleep for `n` ticks: by a delay, or by a wait for a queue, a
      semaphore, an event group or a timer command that is not for ever. */
  predicate SleepsFor(ev: Event, n: Tick) {
    match ev
    case Delay(ticks) => ticks == n
    case WaitForEvent(ticks) => ticks == n && n != MAX_DELAY
    case WaitRestricted(ticks, indefinitely) => ticks == n && !indefinitely
    case _ => false
  }

  lemma FallsAsleep(k: Kernel, sleep: Event, n: Tick)
    requires Inv(k) && Enabled(k, sleep) && SleepsFor(sleep, n)
    ensures var b := Step(k, sleep);
            Inv(b) && Entry(k.current, WakeAt(k.now, n)) in b.sleepers && b.now == k.now && k.current !in b.pending
  {
    hide Inv, Insert, Without;
    KeepsStep(k, sleep);
    InsertMembers(Detach(k, k.current).sleepers, Entry(k.current, WakeAt(k.now, n)));
    CurrentNotPending(k);
  }

  lemma CurrentNotPending(k: Kernel)
    requires Inv(k) && IsReady(k, k.current)
    ensures k.current !in k.pending
  {
    ReadyIsFree(k, k.current);
  }

  /** A task blocked for `n` ticks, at any time, sleeps through any run that does not aim at it while
      fewer than `n` ticks have been processed, and the step that processes the `n`-th readies it. */
  lemma {:induction false} ExactWake(k: Kernel, sleep: Event, n: Tick, evs: seq<Event>, ev: Event)
    requires Inv(k) && Enabled(k, sleep) && SleepsFor(sleep, n) && n > 0 && IsRun(Step(k, sleep), evs)
    requires Leaves(evs, k.current)
    requires var s := Run(Step(k, sleep), evs);
             s.now < k.now + n && Enabled(s, ev) && !Touches(ev, k.current)
    ensures var s := Run(Step(k, sleep), evs);
            && Entry(k.current, k.now + n) in s.sleepers && !IsReady(s, k.current)
            && (if Step(s, ev).now < k.now + n then Entry(k.current, k.now + n) in Step(s, ev).sleepers
                else IsReady(Step(s, ev), k.current))
  {
    hide Inv, Run, IsRun, Step, Leaves, Enabled, SleepsFor;
    FallsAsleep(k, sleep, n);
    SleeperWakes(Step(k, sleep), Entry(k.current, k.now + n), evs, ev);
  }

  /** A wait of the timer daemon for no time at all ends with the next tick exactly when that tick does
      not wrap. */
  lemma ZeroBlockWakesNextIff(k: Kernel)
    requires Inv(k) && IsReady(k, k.current) && k.depth == 0
    ensures IsReady(TickInterrupt(BlockRestricted(k, 0, false)), k.current) <==> Low(k.now) != MAX_DELAY
  {
    hide Inv, Advance;
    var b, e := BlockRestricted(k, 0, false), Entry(k.current, WakeAt(k.now, 0));
    FallsAsleep(k, WaitRestricted(0, false), 0);
    assert InvWithin(b) && b.pending == [] by {
      RunningIsSettled(b);
    }
    AdvanceWakes(b, e);
    if Low(k.now) == MAX_DELAY {
      KeepsAdvance(b);
      NotYet(Advance(b), e);
    }
  }

  /** At the last tick before a wrap it lasts for two full wraps of the tick count, whatever happens
      meanwhile that does not aim at the task. */
  lemma {:induction false} ZeroBlockTwoWrapsLate(k: Kernel, evs: seq<Event>, ev: Event)
    requires Inv(k) && IsReady(k, k.current) && Low(k.now) == MAX_DELAY
    requires IsRun(Step(k, WaitRestricted(0, false)), evs) && Leaves(evs, k.current)
    requires var s := Run(Step(k, WaitRestricted(0, false)), evs);
             s.now < k.now + 2 * WORD && Enabled(s, ev) && !Touches(ev, k.current)
    ensures var s := Run(Step(k, WaitRestricted(0, false)), evs);
            && !IsReady(s, k.current)
            && (Step(s, ev).now >= k.now + 2 * WORD ==> IsReady(Step(s, ev), k.current))
  {
    hide Inv, Run, IsRun, Step, Leaves;
    assert Enabled(k, WaitRestricted(0, false)) && SleepsFor(WaitRestricted(0, false), 0);
    hide Enabled, SleepsFor;
    FallsAsleep(k, WaitRestricted(0, false), 0);
    SleeperWakes(Step(k, WaitRestricted(0, false)), Entry(k.current, k.now + 2 * WORD), evs, ev);
  }

  lemma RunningIsSettled(k: Kernel)
    requires Inv(k) && k.depth == 0
    ensures InvWithin(k) && k.pending == []
  {
  }
}
