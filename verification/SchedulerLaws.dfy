/** What the calls of the kernel do to the task they concern, what they leave alone, in which order
    tasks are served, and which of them runs. */
module SchedulerLaws {
  import opened Ticks
  import opened Wheel
  import opened SchedulerSpec
  import opened SchedulerRuns

  // Who runs

  /** The tasks of a ready list in the order in which they are served. */
  function Order(l: Turns): seq<nat> {
    l.ahead + l.passed
  }

  ghost predicate SomebodyReady(k: Kernel) {
    exists t :: IsReady(k, t)
  }

  /** The list with the highest priority that holds a task. */
  ghost predicate Highest(k: Kernel, p: nat) {
    p < |k.ready| && Order(k.ready[p]) != [] && forall q :: p < q < |k.ready| ==> Order(k.ready[q]) == []
  }

  lemma HighestIsTop(k: Kernel, p: nat)
    requires Highest(k, p)
    ensures Top(k.ready) == p && !Empty(k.ready[p])
  {
    SchedulerRuns.TopIsHighest(k.ready);
    assert forall q :: p < q < |k.ready| ==> Order(k.ready[q]) == [] && Empty(k.ready[q]);
    assert !Empty(k.ready[p]);
  }

  lemma SomeListIsHighest(k: Kernel) returns (p: nat)
    requires SomebodyReady(k)
    ensures Highest(k, p)
  {
    SchedulerRuns.TopIsHighest(k.ready);
    var t :| IsReady(k, t);
    assert !Empty(k.ready[k.priority[t]]);
    p := Top(k.ready);
  }

  /** A switch gives the processor to the task whose turn it is on the highest list that holds one, which
      then comes last; nothing else changes. */
  lemma SwitchServes(k: Kernel, p: nat)
    requires k.depth == 0 && Highest(k, p)
    ensures var s := Switch(k);
            && s == k.(current := s.current, ready := s.ready) && |s.ready| == |k.ready|
            && s.current == Order(k.ready[p])[0]
            && Order(s.ready[p]) == Order(k.ready[p])[1..] + [s.current]
            && forall q :: 0 <= q < |k.ready| && q != p ==> s.ready[q] == k.ready[q]
  {
    HighestIsTop(k, p);
    var l := k.ready[p];
    if l.ahead == [] {
      assert Order(l) == l.passed;
    } else {
      assert (l.ahead[1..] + l.passed) + [l.ahead[0]] == l.ahead[1..] + (l.passed + [l.ahead[0]]);
    }
  }

  /** The task that a switch picks is ready, and no ready task is more urgent.  While the scheduler is
      suspended nothing changes. */
  lemma SwitchRunsTheMostUrgent(k: Kernel)
    requires Inv(k)
    ensures k.depth > 0 ==> Switch(k) == k
    ensures k.depth == 0 && SomebodyReady(k) ==>
      var s := Switch(k);
      IsReady(s, s.current) && forall t :: IsReady(s, t) ==> s.priority[t] <= s.priority[s.current]
  {
    if k.depth == 0 && SomebodyReady(k) {
      var p := SomeListIsHighest(k);
      KeepsSwitch(k);
      hide Inv;
      InHomes(Switch(k));
      hide Switch;
      SwitchServes(k, p);
      SwitchKeepsHighest(k, p);
      LastIsReady(Switch(k), p);
      NoneAbove(Switch(k), p);
    }
  }

  lemma InHomes(k: Kernel)
    requires Inv(k)
    ensures HomesOk(k)
  {
  }

  lemma LastIsReady(k: Kernel, p: nat)
    requires HomesOk(k) && p < |k.ready| && Order(k.ready[p]) != []
    ensures var t := Order(k.ready[p])[|Order(k.ready[p])| - 1];
            IsReady(k, t) && k.priority[t] == p
  {
    var o := Order(k.ready[p]);
    assert o[|o| - 1] in o;
    assert OnTurns(k.ready[p], o[|o| - 1]);
  }

  lemma NoneAbove(k: Kernel, p: nat)
    requires Highest(k, p)
    ensures forall t :: IsReady(k, t) ==> k.priority[t] <= p
  {
    forall t | IsReady(k, t)
      ensures k.priority[t] <= p
    {
      assert t in Order(k.ready[k.priority[t]]);
    }
  }

  /** The task that runs after each of `n` switches in a row. */
  function Runners(k: Kernel, n: nat): seq<nat>
    decreases n
  {
    if n == 0 then [] else [Switch(k).current] + Runners(Switch(k), n - 1)
  }

  function Switches(k: Kernel, n: nat): Kernel
    decreases n
  {
    if n == 0 then k else Switches(Switch(k), n - 1)
  }

  lemma SwitchKeepsHighest(k: Kernel, p: nat)
    requires k.depth == 0 && Highest(k, p)
    ensures Highest(Switch(k), p) && Switch(k).depth == 0
  {
    SwitchServes(k, p);
  }

  lemma {:induction false} RunnersInOrder(k: Kernel, p: nat, n: nat)
    requires k.depth == 0 && Highest(k, p) && n <= |Order(k.ready[p])|
    ensures Runners(k, n) == Order(k.ready[p])[..n]
    ensures p < |Switches(k, n).ready|
    ensures Order(Switches(k, n).ready[p]) == Order(k.ready[p])[n..] + Order(k.ready[p])[..n]
    decreases n
  {
    hide Order, Switch, Highest;
    if n > 0 {
      HighestHolds(k, p);
      var o, s := Order(k.ready[p]), Switch(k);
      SwitchServes(k, p);
      SwitchKeepsHighest(k, p);
      var o' := Order(s.ready[p]);
      assert o' == o[1..] + [o[0]];
      RunnersInOrder(s, p, n - 1);
      assert o[..n] == [o[0]] + o'[..n - 1];
      assert o'[n - 1..] + o'[..n - 1] == o[n..] + o[..n];
    } else {
      HighestHolds(k, p);
      assert Order(k.ready[p])[0..] + [] == Order(k.ready[p]);
    }
  }

  lemma HighestHolds(k: Kernel, p: nat)
    requires Highest(k, p)
    ensures p < |k.ready| && Order(k.ready[p]) != []
  {
  }

  /** Round robin: as many switches as the highest list has tasks, with nothing in between, run each of
      them once, in their order, and leave that order as it was. */
  lemma RoundRobin(k: Kernel, p: nat)
    requires k.depth == 0 && Highest(k, p)
    ensures var n := |Order(k.ready[p])|;
            && p < |Switches(k, n).ready|
            && Runners(k, n) == Order(k.ready[p]) && Order(Switches(k, n).ready[p]) == Order(k.ready[p])
  {
    var o := Order(k.ready[p]);
    RunnersInOrder(k, p, |o|);
    assert o[..|o|] == o && o[|o|..] == [];
  }

  // What a call leaves alone

  /** The task is where it was: on the same state list, with the same wake time and priority, on the
      same event list, and pending or not as before. */
  ghost predicate Same(k: Kernel, k': Kernel, u: nat) {
    && (IsReady(k', u) <==> IsReady(k, u))
    && (forall w: nat :: Entry(u, w) in k'.sleepers <==> Entry(u, w) in k.sleepers)
    && (u in k'.parked <==> u in k.parked) && (u in k'.terminated <==> u in k.terminated)
    && (u in k'.events <==> u in k.events) && (u in k'.pending <==> u in k.pending)
    && (u in k'.priority <==> u in k.priority) && (u in k.priority ==> k'.priority[u] == k.priority[u])
  }

  /** Due at one of the next `n` ticks. */
  ghost predicate DueWithin(k: Kernel, u: nat, n: nat) {
    exists w: nat :: w <= k.now + n && Entry(u, w) in k.sleepers
  }

  /** The tasks that a call or an interrupt is about. */
  ghost predicate Concerns(k: Kernel, ev: Event, u: nat) {
    match ev
    case Interrupt => k.depth == 0 && DueWithin(k, u, 1)
    case ResumeAll => k.depth == 1 && (u in k.pending || DueWithin(k, u, k.pended))
    case Delay(_) => u == k.current
    case WaitForEvent(_) => u == k.current
    case WaitRestricted(_, _) => u == k.current
    case Create(t, _) => u == t
    case CleanUp => k.terminated != [] && u == k.terminated[0]
    case _ => Touches(ev, u)
  }

  lemma DetachSame(k: Kernel, t: nat, u: nat)
    requires u != t
    ensures Same(k, Detach(k, t), u)
  {
    WithoutMembers(k.sleepers, t);
    DropMembers(k.parked, t);
    DropMembers(k.terminated, t);
    if u in k.priority && k.priority[u] < |k.ready| {
      DropMembers(k.ready[k.priority[u]].passed, t);
      DropMembers(k.ready[k.priority[u]].ahead, t);
    }
  }

  lemma EnlistSame(k: Kernel, t: nat, u: nat)
    requires u != t
    ensures Same(k, k.(ready := Enlist(k.ready, k.priority, t)), u)
  {
    if t in k.priority && k.priority[t] < |k.ready| {
      AddTurnMembers(k.ready[k.priority[t]], t);
    }
  }

  lemma SameAgain(k: Kernel, a: Kernel, b: Kernel, u: nat)
    requires Same(k, a, u) && Same(a, b, u)
    ensures Same(k, b, u)
  {
    hide IsReady;
  }

  lemma MakeReadySame(k: Kernel, t: nat, u: nat)
    requires u != t
    ensures Same(k, MakeReady(k, t), u)
  {
    hide Same;
    DetachSame(k, t, u);
    EnlistSame(Detach(k, t), t, u);
    SameAgain(k, Detach(k, t), MakeReady(k, t), u);
  }

  lemma BlockSame(k: Kernel, ticks: Tick, mayBlockForEver: bool, u: nat)
    requires u != k.current
    ensures Same(k, Block(k, ticks, mayBlockForEver), u)
  {
    hide IsReady;
    var t, d := k.current, Detach(k, k.current);
    DetachSame(k, t, u);
    ReadyElsewhereIff(d, Block(k, ticks, mayBlockForEver));
    hide Detach;
    InsertMembers(d.sleepers, Entry(t, WakeAt(k.now, ticks)));
  }

  lemma ReadyElsewhereIff(k: Kernel, k': Kernel)
    requires k'.ready == k.ready && k'.priority == k.priority
    ensures forall u :: IsReady(k', u) <==> IsReady(k, u)
  {
  }

  lemma {:induction false} EnlistAllSame(k: Kernel, due: seq<Entry>, u: nat)
    requires u !in Ids(due)
    ensures Same(k, k.(ready := EnlistAll(k.ready, k.priority, due)), u)
    decreases |due|
  {
    if due != [] {
      hide Same, Enlist;
      var k' := k.(ready := Enlist(k.ready, k.priority, due[0].id));
      assert due[0] in due;
      IdsOfRest(due);
      EnlistSame(k, due[0].id, u);
      EnlistAllSame(k', due[1..], u);
      SameAgain(k, k', k.(ready := EnlistAll(k.ready, k.priority, due)), u);
    } else {
      assert k.(ready := k.ready) == k;
    }
  }

  lemma IdsOfRest(l: seq<Entry>)
    requires l != []
    ensures Ids(l[1..]) <= Ids(l)
  {
    forall t | t in Ids(l[1..])
      ensures t in Ids(l)
    {
      var e :| e in l[1..] && e.id == t;
      assert e in l;
    }
  }

  lemma AdvanceSame(k: Kernel, u: nat)
    requires !DueWithin(k, u, 1)
    ensures Same(k, Advance(k), u)
  {
    hide IsReady, EnlistAll;
    var due := Due(k.sleepers, k.now + 1);
    DueMembers(k.sleepers, k.now + 1);
    assert u !in Ids(due);
    EnlistAllSame(k, due, u);
    ReadyElsewhereIff(k.(ready := EnlistAll(k.ready, k.priority, due)), Advance(k));
  }

  lemma {:induction false} AdvanceBySame(k: Kernel, n: nat, u: nat)
    requires !DueWithin(k, u, n)
    ensures Same(k, AdvanceBy(k, n), u)
    decreases n
  {
    hide Same, Advance;
    if n > 0 {
      AdvanceSame(k, u);
      NotDueLater(k, n, u);
      AdvanceBySame(Advance(k), n - 1, u);
      SameAgain(k, Advance(k), AdvanceBy(k, n), u);
    } else {
      SameKernel(k, u);
    }
  }

  lemma SameKernel(k: Kernel, u: nat)
    ensures Same(k, k, u)
  {
  }

  lemma NotDueLater(k: Kernel, n: nat, u: nat)
    requires n > 0 && !DueWithin(k, u, n)
    ensures !DueWithin(Advance(k), u, n - 1)
  {
    DueMembers(k.sleepers, k.now + 1);
  }

  lemma {:induction false} SettleSame(k: Kernel, u: nat)
    requires u !in k.pending
    ensures Same(k, Settle(k), u)
    decreases |k.pending|
  {
    if k.pending != [] {
      hide Same, MakeReady;
      var rest := k.(pending := k.pending[1..]);
      RestSame(k, rest, u);
      MakeReadySame(rest, k.pending[0], u);
      MakeReadyKeepsPending(rest, k.pending[0]);
      SettleSame(MakeReady(rest, k.pending[0]), u);
      SameAgain(k, rest, MakeReady(rest, k.pending[0]), u);
      SameAgain(k, MakeReady(rest, k.pending[0]), Settle(k), u);
    }
  }

  lemma RestSame(k: Kernel, rest: Kernel, u: nat)
    requires k.pending != [] && rest == k.(pending := k.pending[1..]) && u !in k.pending
    ensures Same(k, rest, u)
  {
  }

  lemma {:induction false} SettledSleepers(k: Kernel, u: nat, n: nat)
    requires u !in k.pending && !DueWithin(k, u, n)
    ensures !DueWithin(Settle(k), u, n)
  {
    SettleSame(k, u);
    SettleNow(k);
  }

  lemma ResumeAllSame(k: Kernel, u: nat)
    requires k.depth > 0 && !Concerns(k, ResumeAll, u)
    ensures Same(k, SchedulerSpec.ResumeAll(k), u)
  {
    hide Settle, AdvanceBy, IsReady;
    var k' := k.(depth := k.depth - 1);
    ReadyElsewhereIff(k, k');
    if k'.depth == 0 {
      SettleSame(k', u);
      SettledSleepers(k', u, k.pended);
      AdvanceBySame(Settle(k'), k.pended, u);
      var a := AdvanceBy(Settle(k'), k.pended);
      ReadyElsewhereIff(a, SchedulerSpec.ResumeAll(k));
      SettleNow(k');
    }
  }

  lemma WaitSame(k: Kernel, ticks: Tick, mayBlockForEver: bool, u: nat)
    requires u != k.current
    ensures Same(k, Block(k.(events := k.events + {k.current}), ticks, mayBlockForEver), u)
  {
    hide IsReady, Block;
    var k' := k.(events := k.events + {k.current});
    ReadyElsewhereIff(k, k');
    BlockSame(k', ticks, mayBlockForEver, u);
  }

  lemma ReleaseSame(k: Kernel, t: nat, u: nat)
    requires u != t
    ensures Same(k, EventRelease(k, t), u)
  {
    hide IsReady, MakeReady;
    var k' := k.(events := k.events - {t});
    ReadyElsewhereIff(k, k');
    MakeReadySame(k', t, u);
  }

  lemma WakeSame(k: Kernel, t: nat, u: nat)
    requires u != t
    ensures Same(k, EventWake(k, t), u)
  {
    hide IsReady, MakeReady;
    ReleaseSame(k, t, u);
    if k.depth > 0 {
      ReadyElsewhereIff(k, EventWake(k, t));
    }
  }

  lemma SuspendSame(k: Kernel, t: nat, u: nat)
    requires u != t
    ensures Same(k, SuspendTask(k, t), u)
  {
    hide IsReady;
    DetachSame(k, t, u);
    ReadyElsewhereIff(Detach(k, t), SuspendTask(k, t));
    hide Detach;
    DropMembers(k.pending, t);
  }

  lemma CreateSame(k: Kernel, t: nat, p: nat, u: nat)
    requires u != t
    ensures Same(k, CreateTask(k, t, p), u)
  {
    var k' := k.(priority := k.priority[t := p]);
    assert Same(k, k', u);
    EnlistSame(k', t, u);
    hide Same;
    SameAgain(k, k', CreateTask(k, t, p), u);
  }

  lemma DeleteSame(k: Kernel, t: nat, u: nat)
    requires u != t
    ensures Same(k, DeleteTask(k, t), u)
  {
    DetachSame(k, t, u);
    hide Detach;
    DropMembers(k.pending, t);
  }

  lemma ReapSame(k: Kernel, u: nat)
    requires k.terminated != [] ==> u != k.terminated[0]
    ensures Same(k, Reap(k), u)
  {
    if k.terminated != [] {
      assert k.terminated == [k.terminated[0]] + k.terminated[1..];
    }
  }

  lemma SwitchSame(k: Kernel, u: nat)
    ensures Same(k, Switch(k), u)
  {
    hide Top, NextTurn;
    var p := Top(k.ready);
    if k.depth == 0 && p < |k.ready| && !Empty(k.ready[p]) {
      NextTurnBag(k.ready[p]);
    }
  }

  /** Every call and every interrupt leaves every task alone that it is not about. */
  lemma OthersStay(k: Kernel, ev: Event, u: nat)
    requires Inv(k) && Enabled(k, ev) && !Concerns(k, ev, u)
    ensures Same(k, Step(k, ev), u)
  {
    hide Inv, IsReady, Block, MakeReady, Advance, Detach;
    match ev {
      case Interrupt =>
        if k.depth == 0 { AdvanceSame(k, u); } else { ReadyElsewhereIff(k, TickInterrupt(k)); }
      case SuspendAll => ReadyElsewhereIff(k, Step(k, ev));
      case ResumeAll => ResumeAllSame(k, u);
      case Delay(ticks) => BlockSame(k, ticks, false, u);
      case WaitForEvent(ticks) => WaitSame(k, ticks, true, u);
      case WaitRestricted(ticks, indefinitely) =>
        WaitSame(k, if indefinitely then MAX_DELAY else ticks, indefinitely, u);
      case Wake(t) => WakeSame(k, t, u);
      case Release(t) => ReleaseSame(k, t, u);
      case Suspend(t) => SuspendSame(k, t, u);
      case Resume(t) => if t != k.current && IsSuspended(k, t) { MakeReadySame(k, t, u); }
      case ResumeInIsr(t) =>
        if IsSuspended(k, t) && k.depth == 0 { MakeReadySame(k, t, u); } else { ReadyElsewhereIff(k, Step(k, ev)); }
      case Create(t, p) => CreateSame(k, t, p, u);
      case Delete(t) => DeleteSame(k, t, u);
      case CleanUp => ReapSame(k, u);
      case SwitchContext => SwitchSame(k, u);
    }
  }

  lemma {:induction false} AdvanceByCurrent(k: Kernel, n: nat)
    ensures AdvanceBy(k, n).current == k.current && AdvanceBy(k, n).depth == k.depth
    decreases n
  {
    if n > 0 {
      AdvanceByCurrent(Advance(k), n - 1);
    }
  }

  lemma {:induction false} SettleCurrent(k: Kernel)
    ensures Settle(k).current == k.current && Settle(k).depth == k.depth
    decreases |k.pending|
  {
    if k.pending != [] {
      SettleCurrent(MakeReady(k.(pending := k.pending[1..]), k.pending[0]));
    }
  }

  /** Only a switch changes the running task, and only suspending and resuming the scheduler changes the
      depth. */
  lemma OnlySwitchesSwitch(k: Kernel, ev: Event)
    ensures !ev.SwitchContext? ==> Step(k, ev).current == k.current
    ensures Step(k, ev).depth
         == k.depth + (if ev.SuspendAll? then 1 else if ev.ResumeAll? && k.depth > 0 then -1 else 0)
  {
    hide Without, Drop, Strip, Settle, AdvanceBy, Enlist, EnlistAll, Due, Later, Top, NextTurn, Insert;
    if ev.ResumeAll? && k.depth == 1 {
      var k' := k.(depth := 0);
      SettleCurrent(k');
      AdvanceByCurrent(Settle(k'), k.pended);
    }
  }

  // What a call does to the task that it concerns

  lemma BlockedNotReady(k: Kernel, t: nat)
    requires Inv(k) && (Blocked(k, t) || t in k.terminated)
    ensures !IsReady(k, t)
  {
    OneListEach(k, t);
  }

  /** A delay puts the running task to sleep until its wake time. */
  lemma DelaySleeps(k: Kernel, ticks: Tick)
    requires Inv(k) && Enabled(k, Delay(ticks))
    ensures var s := Step(k, Delay(ticks));
            && Entry(k.current, k.now + ticks) in s.sleepers
            && !IsReady(s, k.current) && k.current !in s.events && k.current !in s.pending
  {
    hide Insert, Without, Drop, Strip, Inv, SleepingBag;
    FallsAsleep(k, Delay(ticks), ticks);
    CurrentFree(k);
    InSleepingBag(Step(k, Delay(ticks)).sleepers, Entry(k.current, k.now + ticks));
    BlockedNotReady(Step(k, Delay(ticks)), k.current);
  }

  lemma CurrentFree(k: Kernel)
    requires Inv(k) && IsReady(k, k.current)
    ensures k.current !in k.events && k.current !in k.pending
  {
    ReadyIsFree(k, k.current);
  }

  predicate ForEver(sleep: Event) {
    match sleep
    case WaitForEvent(ticks) => ticks == MAX_DELAY
    case WaitRestricted(_, indefinitely) => indefinitely
    case _ => false
  }

  /** A wait puts the running task on the event list, and to sleep until its wake time or, if it is for
      ever, on no list that a tick looks at. */
  lemma WaitSleeps(k: Kernel, wait: Event, ticks: Tick)
    requires Inv(k) && Enabled(k, wait)
    requires wait == WaitForEvent(ticks) || wait == WaitRestricted(ticks, false) || wait == WaitRestricted(ticks, true)
    ensures var s := Step(k, wait);
            && Inv(s) && k.current in s.events && !IsReady(s, k.current) && k.current !in s.pending
            && (if ForEver(wait) then k.current in s.parked && forall w: nat :: Entry(k.current, w) !in s.sleepers
                else Entry(k.current, WakeAt(k.now, ticks)) in s.sleepers && k.current !in s.parked)
  {
    hide Insert, Without, Drop, Strip, Inv, SleepingBag;
    KeepsStep(k, wait);
    CurrentFree(k);
    var s := Step(k, wait);
    WaitPlaces(k, wait, ticks);
    assert Blocked(s, k.current) by {
      if !ForEver(wait) {
        InSleepingBag(s.sleepers, Entry(k.current, WakeAt(k.now, ticks)));
      }
    }
    BlockedNotReady(s, k.current);
  }

  lemma WaitPlaces(k: Kernel, wait: Event, ticks: Tick)
    requires wait == WaitForEvent(ticks) || wait == WaitRestricted(ticks, false) || wait == WaitRestricted(ticks, true)
    ensures var s := Step(k, wait);
            && k.current in s.events
            && (if ForEver(wait) then k.current in s.parked && forall w: nat :: Entry(k.current, w) !in s.sleepers
                else Entry(k.current, WakeAt(k.now, ticks)) in s.sleepers && k.current !in s.parked)
  {
    hide Insert, Strip;
    WithoutMembers(k.sleepers, k.current);
    DropMembers(k.parked, k.current);
    InsertMembers(Detach(k, k.current).sleepers, Entry(k.current, WakeAt(k.now, ticks)));
  }

  /** An event takes the task off its event list and readies it, or leaves that to the resume. */
  lemma WakeReadies(k: Kernel, t: nat)
    requires Inv(k) && Enabled(k, Wake(t))
    ensures var s := Step(k, Wake(t));
            && t !in s.events && (if k.depth == 0 then IsReady(s, t) else t in s.pending && !IsReady(s, t))
  {
    hide Places, SleepingBag;
    var k' := k.(events := k.events - {t});
    SamePlaces(k, k');
    BlockedAreTasks(k, t);
    if k.depth == 0 {
      KeepsMakeReady(k', t);
      MakeReadyKeepsPending(k', t);
    } else {
      BlockedNotReady(k, t);
      ReadyElsewhereIff(k, Step(k, Wake(t)));
    }
  }

  /** A suspended task is on no list but that of the suspended ones. */
  lemma SuspendParks(k: Kernel, t: nat)
    requires Inv(k) && Enabled(k, Suspend(t))
    ensures var s := Step(k, Suspend(t));
            && t in s.parked && IsSuspended(s, t) && !IsReady(s, t) && forall w: nat :: Entry(t, w) !in s.sleepers
  {
    hide Inv, Strip;
    KeepsStep(k, Suspend(t));
    WithoutMembers(k.sleepers, t);
    DropMembers(k.pending, t);
    BlockedNotReady(Step(k, Suspend(t)), t);
  }

  lemma SuspendedIsReadied(k: Kernel, t: nat)
    requires Inv(k) && IsSuspended(k, t)
    ensures IsReady(MakeReady(k, t), t) && t !in MakeReady(k, t).parked
  {
    hide Places, SleepingBag, Strip, Without;
    BlockedAreTasks(k, t);
    hide PlacesOk, EventsOk, SleepersOk, AtHome;
    ReadiesOne(k, t);
    DropMembers(k.parked, t);
  }

  /** A resume readies a task that is suspended and no other; from an interrupt, while the scheduler is
      suspended, it holds the task pending. */
  lemma ResumeReadies(k: Kernel, t: nat)
    requires Inv(k)
    ensures var s := Step(k, Resume(t));
            if t in k.parked && t !in k.pending && t !in k.events && t != k.current then IsReady(s, t) && t !in s.parked
            else s == k
    ensures var s := Step(k, ResumeInIsr(t));
            if t in k.parked && t !in k.pending && t !in k.events then
              if k.depth == 0 then IsReady(s, t) && t !in s.parked else s == k.(pending := k.pending + [t])
            else s == k
  {
    hide Inv, MakeReady, IsReady;
    if IsSuspended(k, t) {
      SuspendedIsReadied(k, t);
    }
  }

  /** Of a deleted task nothing is left, except that one that deletes itself waits to be cleaned up. */
  lemma DeleteRemoves(k: Kernel, t: nat)
    requires Inv(k) && Enabled(k, Delete(t))
    ensures var s := Step(k, Delete(t));
            && !IsReady(s, t) && t !in s.events && t !in s.pending && !Blocked(s, t)
            && (if t == k.current then t in s.terminated && t in s.priority else t !in s.priority && Places(s)[t] == 0)
  {
    hide Inv, Places;
    KeepsStep(k, Delete(t));
    DropMembers(k.pending, t);
    var s := Step(k, Delete(t));
    if t == k.current {
      InPlaces(s);
      OneListEach(s, t);
    } else {
      NowhereUnlessTask(s, t);
    }
  }

  lemma InPlaces(k: Kernel)
    requires Inv(k)
    ensures PlacesOk(k)
  {
  }

  lemma NowhereUnlessTask(k: Kernel, t: nat)
    requires Inv(k) && t !in k.priority
    ensures Places(k)[t] == 0 && !IsReady(k, t) && !Blocked(k, t)
  {
    hide Gather, SleepingBag;
    assert Places(k)[t] == 0;
  }

  /** Cleaning up removes the first of the tasks that wait for it. */
  lemma CleanUpRemoves(k: Kernel)
    requires Inv(k) && k.terminated != []
    ensures var s := Step(k, CleanUp);
            && s.terminated == k.terminated[1..] && k.terminated[0] !in s.priority && Places(s)[k.terminated[0]] == 0
  {
    hide Inv;
    KeepsStep(k, CleanUp);
    NowhereUnlessTask(Step(k, CleanUp), k.terminated[0]);
  }

  /** A new task is ready, at its priority. */
  lemma CreateReadies(k: Kernel, t: nat, p: nat)
    requires Inv(k) && Enabled(k, Create(t, p))
    ensures var s := Step(k, Create(t, p)); IsReady(s, t) && s.priority[t] == p
  {
    hide Inv, IsReady;
    KeepsCreate(k, t, p);
  }

  /** A tick readies the tasks whose time has come, whatever they wait for, and times them out of it. */
  lemma TickReadies(k: Kernel, e: Entry)
    requires Inv(k) && k.depth == 0 && e in k.sleepers && e.time <= k.now + 1
    ensures var s := Step(k, Interrupt); IsReady(s, e.id) && e.id !in s.events && e !in s.sleepers
  {
    hide Places, EnlistAll;
    AdvanceWakes(k, e);
    DueMembers(k.sleepers, k.now + 1);
    assert e in Due(k.sleepers, k.now + 1);
  }

  // A wait for ever

  lemma ParkedOnly(k: Kernel, t: nat)
    requires Inv(k) && t in k.parked
    ensures t in k.priority && t !in k.terminated && !IsReady(k, t)
    ensures forall w: nat :: Entry(t, w) !in k.sleepers
  {
    hide Gather, SleepingBag;
    BlockedAreTasks(k, t);
    OneListEach(k, t);
    assert SleepingBag(k.sleepers)[t] + multiset(k.parked)[t] <= Places(k)[t] <= 1;
    forall w: nat | Entry(t, w) in k.sleepers
      ensures false
    {
      InSleepingBag(k.sleepers, Entry(t, w));
    }
  }

  lemma ParkedStep(k: Kernel, t: nat, ev: Event)
    requires Inv(k) && Enabled(k, ev) && !Touches(ev, t) && t in k.parked && t !in k.pending
    ensures t in Step(k, ev).parked && t !in Step(k, ev).pending
  {
    hide Inv, Step, IsReady;
    ParkedOnly(k, t);
    OthersStay(k, ev, t);
  }

  lemma {:induction false} ParkedStays(k: Kernel, t: nat, evs: seq<Event>)
    requires Inv(k) && IsRun(k, evs) && Leaves(evs, t) && t in k.parked && t !in k.pending
    ensures t in Run(k, evs).parked && !IsReady(Run(k, evs), t)
    decreases |evs|
  {
    hide Inv, Step, IsReady, Enabled, Touches;
    if evs == [] {
      ParkedOnly(k, t);
    } else {
      ParkedStep(k, t, evs[0]);
      KeepsStep(k, evs[0]);
      ParkedStays(Step(k, evs[0]), t, evs[1..]);
    }
  }

  /** A task that waits for ever is not readied by any number of ticks and wraps, nor by anything else
      that is not aimed at it. */
  lemma WaitsForEver(k: Kernel, wait: Event, evs: seq<Event>)
    requires Inv(k) && Enabled(k, wait)
    requires wait == WaitForEvent(MAX_DELAY) || (wait.WaitRestricted? && wait.indefinitely)
    requires IsRun(Step(k, wait), evs) && Leaves(evs, k.current)
    ensures !IsReady(Run(Step(k, wait), evs), k.current)
  {
    hide Inv, Step, IsReady, Enabled, IsRun, Run, Leaves;
    WaitSleeps(k, wait, if wait.WaitForEvent? then MAX_DELAY else wait.ticks);
    ParkedStays(Step(k, wait), k.current, evs);
  }

  // In which order tasks are served

  /** The tasks join a ready list in this order, behind all others except the one that the index rests
      on, which has been served last. */
  ghost predicate Join(l: Turns, l': Turns, ts: seq<nat>) {
    && (l.passed == [] <==> l'.passed == [])
    && if l.passed == [] then Order(l') == Order(l) + ts
       else
         var n := |Order(l)| - 1;
         Order(l') == Order(l)[..n] + ts + [Order(l)[n]]
  }

  lemma NobodyJoins(l: Turns)
    ensures Join(l, l, [])
  {
    if l.passed != [] {
      var n := |Order(l)| - 1;
      assert Order(l) == Order(l)[..n] + [Order(l)[n]];
    }
  }

  lemma JoinOne(l: Turns, t: nat)
    ensures Join(l, AddTurn(l, t), [t])
  {
    if l.passed == [] {
      assert (l.ahead + [t]) + [] == (l.ahead + []) + [t];
    } else {
      var n := |l.passed| - 1;
      assert Order(l)[..|Order(l)| - 1] == l.ahead + l.passed[..n];
      assert Order(AddTurn(l, t)) == l.ahead + (l.passed[..n] + [t, l.passed[n]]);
    }
  }

  lemma JoinMore(l: Turns, l1: Turns, l2: Turns, a: seq<nat>, b: seq<nat>)
    requires Join(l, l1, a) && Join(l1, l2, b)
    ensures Join(l, l2, a + b)
  {
    if l.passed == [] {
      assert (Order(l) + a) + b == Order(l) + (a + b);
    } else {
      var n, n1 := |Order(l)| - 1, |Order(l1)| - 1;
      assert Order(l1)[..n1] == Order(l)[..n] + a && Order(l1)[n1] == Order(l)[n];
      assert (Order(l)[..n] + a) + b == Order(l)[..n] + (a + b);
    }
  }

  /** Those of the tasks that have the priority. */
  function AtLevel(ts: seq<nat>, priority: map<nat, nat>, p: nat): seq<nat> {
    if ts == [] then []
    else if ts[0] in priority && priority[ts[0]] == p then [ts[0]] + AtLevel(ts[1..], priority, p)
    else AtLevel(ts[1..], priority, p)
  }

  function Tasks(l: seq<Entry>): seq<nat> {
    if l == [] then [] else [l[0].id] + Tasks(l[1..])
  }

  lemma EnlistJoins(ready: seq<Turns>, priority: map<nat, nat>, t: nat, p: nat)
    requires p < |ready|
    ensures Join(ready[p], Enlist(ready, priority, t)[p], AtLevel([t], priority, p))
  {
    assert [t][1..] == [] && [t] + [] == [t];
    JoinOne(ready[p], t);
    NobodyJoins(ready[p]);
  }

  lemma AtLevelCons(t: nat, ts: seq<nat>, priority: map<nat, nat>, p: nat)
    ensures AtLevel([t] + ts, priority, p) == AtLevel([t], priority, p) + AtLevel(ts, priority, p)
  {
    assert ([t] + ts)[1..] == ts && [t][1..] == [];
  }

  lemma {:induction false} EnlistAllJoins(ready: seq<Turns>, priority: map<nat, nat>, due: seq<Entry>, p: nat)
    requires p < |ready|
    ensures Join(ready[p], EnlistAll(ready, priority, due)[p], AtLevel(Tasks(due), priority, p))
    decreases |due|
  {
    hide Join, Enlist;
    if due == [] {
      NobodyJoins(ready[p]);
    } else {
      var ready' := Enlist(ready, priority, due[0].id);
      EnlistJoins(ready, priority, due[0].id, p);
      EnlistAllJoins(ready', priority, due[1..], p);
      AtLevelCons(due[0].id, Tasks(due[1..]), priority, p);
      JoinMore(ready[p], ready'[p], EnlistAll(ready, priority, due)[p],
               AtLevel([due[0].id], priority, p), AtLevel(Tasks(due[1..]), priority, p));
    }
  }

  /** The tasks that a tick readies are served in the order of their wake times, and after everybody of
      their priority who was ready before, except the one served last. */
  lemma TickServesInOrder(k: Kernel, p: nat)
    requires k.depth == 0 && p < |k.ready|
    ensures var due := Due(k.sleepers, k.now + 1);
            Join(k.ready[p], Step(k, Interrupt).ready[p], AtLevel(Tasks(due), k.priority, p))
  {
    EnlistAllJoins(k.ready, k.priority, Due(k.sleepers, k.now + 1), p);
  }

  lemma StripNobody(ready: seq<Turns>, t: nat)
    requires forall p :: 0 <= p < |ready| ==> !OnTurns(ready[p], t)
    ensures Strip(ready, t) == ready
  {
    forall p | 0 <= p < |ready|
      ensures DropTurn(ready[p], t) == ready[p]
    {
      DropAbsent(ready[p].passed, t);
      DropAbsent(ready[p].ahead, t);
    }
  }

  lemma MakeReadyJoins(k: Kernel, t: nat, p: nat)
    requires PlacesOk(k) && Blocked(k, t) && p < |k.ready|
    ensures Join(k.ready[p], MakeReady(k, t).ready[p], AtLevel([t], k.priority, p))
  {
    hide Places, Join, Enlist, SleepingBag;
    OneListEach(k, t);
    StripNobody(k.ready, t);
    EnlistJoins(k.ready, k.priority, t, p);
  }

  /** A task that is readied is served after everybody of its priority who was ready before, except the
      one served last. */
  lemma ReadiedIsServedLast(k: Kernel, ev: Event, t: nat, p: nat)
    requires Inv(k) && Enabled(k, ev) && !IsReady(k, t) && IsReady(Step(k, ev), t) && p < |k.ready|
    requires ev == Wake(t) || ev == Release(t) || ev == Resume(t) || ev == ResumeInIsr(t)
    ensures Join(k.ready[p], Step(k, ev).ready[p], AtLevel([t], k.priority, p))
  {
    hide Join, InvWithin, IsReady, Detach;
    KnownBlocked(k, ev, t);
    var k' := if ev.Wake? || ev.Release? then k.(events := k.events - {t}) else k;
    InPlaces(k);
    SamePlaces(k, k');
    hide Inv, Places;
    BlockedElsewhere(k, k', t);
    MakeReadyJoins(k', t, p);
    if Step(k, ev) != MakeReady(k', t) {
      ReadyElsewhereIff(k, Step(k, ev));
    }
  }

  lemma BlockedElsewhere(k: Kernel, k': Kernel, t: nat)
    requires Blocked(k, t) && k'.parked == k.parked && k'.sleepers == k.sleepers
    ensures Blocked(k', t)
  {
  }

  lemma KnownBlocked(k: Kernel, ev: Event, t: nat)
    requires Inv(k) && Enabled(k, ev) && !IsReady(k, t) && IsReady(Step(k, ev), t)
    requires ev == Wake(t) || ev == Release(t) || ev == Resume(t) || ev == ResumeInIsr(t)
    ensures Blocked(k, t)
  {
    hide Places, SleepingBag, Detach, Enlist;
    if ev.Resume? || ev.ResumeInIsr? {
      assert IsSuspended(k, t);
    }
  }

  /** A new task is served last, too. */
  lemma CreatedIsServedLast(k: Kernel, t: nat, p: nat)
    requires Inv(k) && Enabled(k, Create(t, p))
    ensures Join(k.ready[p], Step(k, Create(t, p)).ready[p], [t])
    ensures forall q :: 0 <= q < |k.ready| && q != p ==> Step(k, Create(t, p)).ready[q] == k.ready[q]
  {
    JoinOne(k.ready[p], t);
  }

  lemma {:induction false} SettleJoins(k: Kernel, p: nat)
    requires InvWithin(k) && p < |k.ready|
    ensures |Settle(k).ready| == |k.ready|
    ensures Join(k.ready[p], Settle(k).ready[p], AtLevel(k.pending, k.priority, p))
    decreases |k.pending|
  {
    if k.pending == [] {
      NobodyJoins(k.ready[p]);
    } else {
      hide Join, MakeReady, InvWithin;
      var t, rest := k.pending[0], k.(pending := k.pending[1..]);
      var k' := MakeReady(rest, t);
      assert k.pending == [t] + k.pending[1..];
      SettleOne(k);
      MakeReadyFrame(rest, t);
      PendingBlocked(k, t);
      SamePlaces(k, rest);
      BlockedElsewhere(k, rest, t);
      MakeReadyJoins(rest, t, p);
      SettleJoins(k', p);
      AtLevelCons(t, k.pending[1..], k.priority, p);
      JoinMore(k.ready[p], k'.ready[p], Settle(k).ready[p],
               AtLevel([t], k.priority, p), AtLevel(k.pending[1..], k.priority, p));
    }
  }

  lemma MakeReadyFrame(k: Kernel, t: nat)
    ensures var k' := MakeReady(k, t);
            k'.pending == k.pending && k'.priority == k.priority && |k'.ready| == |k.ready|
  {
  }

  lemma PendingBlocked(k: Kernel, t: nat)
    requires InvWithin(k) && t in k.pending
    ensures Blocked(k, t) && PlacesOk(k)
  {
    hide Places;
  }

  lemma {:induction false} DueSplits(l: seq<Entry>, a: nat, b: nat)
    requires Sorted(l) && a <= b
    ensures Due(l, b) == Due(l, a) + Due(Later(l, a), b)
  {
    if l != [] {
      if l[0].time <= a {
        DueSplits(l[1..], a, b);
      } else {
        NoneDue(l, a);
      }
    }
  }

  lemma {:induction false} LevelsAppend(a: seq<Entry>, b: seq<Entry>, priority: map<nat, nat>, p: nat)
    ensures AtLevel(Tasks(a + b), priority, p) == AtLevel(Tasks(a), priority, p) + AtLevel(Tasks(b), priority, p)
  {
    if a == [] {
      assert a + b == b;
    } else {
      assert (a + b)[1..] == a[1..] + b;
      LevelsAppend(a[1..], b, priority, p);
      AtLevelCons(a[0].id, Tasks(a[1..] + b), priority, p);
      AtLevelCons(a[0].id, Tasks(a[1..]), priority, p);
    }
  }

  lemma AdvanceJoins(k: Kernel, p: nat)
    requires p < |k.ready|
    ensures p < |Advance(k).ready|
    ensures Join(k.ready[p], Advance(k).ready[p], AtLevel(Tasks(Due(k.sleepers, k.now + 1)), k.priority, p))
  {
    hide Join, EnlistAll, AtLevel, Tasks;
    EnlistAllJoins(k.ready, k.priority, Due(k.sleepers, k.now + 1), p);
  }

  lemma AdvanceByMore(k: Kernel, n: nat)
    requires n > 0
    ensures AdvanceBy(k, n) == AdvanceBy(Advance(k), n - 1)
  {
  }

  lemma AdvanceFrame(k: Kernel)
    requires Sorted(k.sleepers)
    ensures var k' := Advance(k);
            && k'.now == k.now + 1 && k'.priority == k.priority && k'.sleepers == Later(k.sleepers, k.now + 1)
            && Sorted(k'.sleepers)
  {
    DueMembers(k.sleepers, k.now + 1);
  }

  lemma {:induction false} AdvanceByJoins(k: Kernel, n: nat, p: nat)
    requires n > 0 && Sorted(k.sleepers) && p < |k.ready|
    ensures p < |AdvanceBy(k, n).ready|
    ensures Join(k.ready[p], AdvanceBy(k, n).ready[p], AtLevel(Tasks(Due(k.sleepers, k.now + n)), k.priority, p))
    decreases n
  {
    hide Join, AtLevel, Tasks, Due, Later, Advance, AdvanceBy;
    var k', due, later := Advance(k), Due(k.sleepers, k.now + 1), Later(k.sleepers, k.now + 1);
    AdvanceJoins(k, p);
    AdvanceFrame(k);
    AdvanceByMore(k, n);
    if n == 1 {
      AdvanceByNone(k');
    } else {
      DueSplits(k.sleepers, k.now + 1, k.now + n);
      AdvanceByJoins(k', n - 1, p);
      LevelsAppend(due, Due(later, k.now + n), k.priority, p);
      JoinMore(k.ready[p], k'.ready[p], AdvanceBy(k, n).ready[p], AtLevel(Tasks(due), k.priority, p),
               AtLevel(Tasks(Due(later, k.now + n)), k.priority, p));
    }
  }

  function WithoutAll(l: seq<Entry>, ts: seq<nat>): seq<Entry>
    decreases |ts|
  {
    if ts == [] then l else WithoutAll(Without(l, ts[0]), ts[1..])
  }

  lemma {:induction false} SettledAsleep(k: Kernel)
    ensures Settle(k).sleepers == WithoutAll(k.sleepers, k.pending)
    ensures Settle(k).now == k.now && Settle(k).priority == k.priority
    decreases |k.pending|
  {
    if k.pending != [] {
      SettledAsleep(MakeReady(k.(pending := k.pending[1..]), k.pending[0]));
    }
  }

  /** The outermost resume readies first the pending tasks, in the order in which they became pending,
      and then the other sleepers that were due meanwhile, in the order of their wake times. */
  lemma ResumeServesInOrder(k: Kernel, p: nat)
    requires Inv(k) && k.depth == 1 && p < |k.ready|
    ensures p < |Step(k, ResumeAll).ready|
    ensures var due := if k.pended == 0 then [] else Due(WithoutAll(k.sleepers, k.pending), k.now + k.pended);
            Join(k.ready[p], Step(k, ResumeAll).ready[p],
                 AtLevel(k.pending, k.priority, p) + AtLevel(Tasks(due), k.priority, p))
  {
    hide Join, Settle, AdvanceBy, AtLevel, Places;
    var k' := k.(depth := 0);
    SameWithin(k, k');
    SettleJoins(k', p);
    SettledAsleep(k');
    KeepsSettle(k');
    var s, pending := Settle(k'), AtLevel(k.pending, k.priority, p);
    if k.pended == 0 {
      assert AtLevel(Tasks([]), k.priority, p) == [] by {
        NobodyAtLevel(k.priority, p);
      }
      assert pending + [] == pending;
      AdvanceByNone(s);
    } else {
      AdvanceByJoins(s, k.pended, p);
      JoinMore(k.ready[p], s.ready[p], AdvanceBy(s, k.pended).ready[p], pending,
               AtLevel(Tasks(Due(s.sleepers, k.now + k.pended)), k.priority, p));
    }
  }

  lemma NobodyAtLevel(priority: map<nat, nat>, p: nat)
    ensures AtLevel(Tasks([]), priority, p) == []
  {
  }

  lemma AdvanceByNone(k: Kernel)
    ensures AdvanceBy(k, 0) == k
  {
  }
}
