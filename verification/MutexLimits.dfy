/** Exactly which steps keep the priority inheritance bound, one by one and over whole runs. */
module MutexLimits {
  import opened Options
  import opened SchedulerSpec
  import opened MutexSections
  import opened MutexProtocol
  import opened MutexBound

  /** Nobody else who waits for the mutex is above the priority. */
  ghost predicate OthersWithin(k: System, m: nat, t: nat, p: nat)
    requires m < |k.mutexes|
  {
    forall w :: w in k.mutexes[m].waiting && w != t ==> Priority(k, w) <= p
  }

  /** Nobody else who waits for a mutex of the task is above the priority. */
  ghost predicate WaitersWithin(k: System, t: nat, p: nat) {
    forall n :: 0 <= n < |k.mutexes| && k.mutexes[n].holder == Some(t) ==> OthersWithin(k, n, t, p)
  }

  /** Whoever else holds a mutex that the task waits for has at least the priority. */
  ghost predicate HoldersOutrank(k: System, t: nat, p: nat) {
    forall n :: 0 <= n < |k.mutexes| && t in k.mutexes[n].waiting ==>
      var holder := k.mutexes[n].holder;
      holder == None || holder == Some(t) || p <= Priority(k, holder.value)
  }

  /** A change of priority keeps the bound exactly when the task still outranks those who wait for it,
      and is still outranked by those it waits for. */
  lemma PriorityKeepsBoundIff(k: System, t: nat, p: nat)
    requires Bound(k) && t in k.tasks
    ensures Bound(SetPriority(k, t, p)) <==> WaitersWithin(k, t, p) && HoldersOutrank(k, t, p)
  {
    hide SetPriority;
    PriorityFrame(k, t, p);
    var k' := SetPriority(k, t, p);
    assert forall x :: x != t ==> Priority(k', x) == Priority(k, x);
    if Bound(k') {
      forall n, w | 0 <= n < |k.mutexes| && k.mutexes[n].holder == Some(t) && w in k.mutexes[n].waiting && w != t
        ensures Priority(k, w) <= p
      {
        assert w in k'.mutexes[n].waiting;
      }
      assert forall n :: 0 <= n < |k.mutexes| ==> k'.mutexes[n] == k.mutexes[n];
    }
  }

  /** Taking a free mutex keeps the bound exactly when the taker outranks those who wait for it. */
  lemma TakeKeepsBoundIff(k: System, t: nat, m: nat)
    requires Bound(k) && t in k.tasks && m < |k.mutexes| && k.mutexes[m].holder.None?
    ensures Bound(Take(k, t, m)) <==> OthersWithin(k, m, t, Priority(k, t))
  {
    var k' := Take(k, t, m);
    assert forall x :: Priority(k', x) == Priority(k, x);
    assert k'.mutexes[m].holder == Some(t);
    assert k'.mutexes[m].waiting == k.mutexes[m].waiting;
  }

  lemma JoinKeepsBoundIff(k: System, t: nat, m: nat)
    requires t in k.tasks && m < |k.mutexes| && k.mutexes[m].holder.Some?
    requires Priority(k, t) <= Priority(k, k.mutexes[m].holder.value)
    ensures Bound(Join(k, t, m)) <==> Bound(k)
  {
    hide Place, DropTurn;
    var k' := Join(k, t, m);
    PlaceMembers(k, k.mutexes[m].waiting, t);
    assert forall x :: Priority(k', x) == Priority(k, x);
    forall n | 0 <= n < |k.mutexes|
      ensures k'.mutexes[n].holder == k.mutexes[n].holder
      ensures forall w :: w in k'.mutexes[n].waiting <==> w in k.mutexes[n].waiting || (n == m && w == t)
    {
    }
  }

  /** Starting to wait keeps the bound exactly when the holder is not itself waiting for somebody
      less urgent: inheritance goes no further than the holder. */
  lemma WaitKeepsBoundIff(k: System, t: nat, m: nat)
    requires Bound(k) && t in k.tasks && m < |k.mutexes|
    requires k.mutexes[m].holder.Some? && k.mutexes[m].holder.value in k.tasks
    ensures var h := k.mutexes[m].holder.value;
            Bound(Wait(k, t, m)) <==>
            Priority(k, t) <= Priority(k, h) || HoldersOutrank(k, h, Priority(k, t))
  {
    hide SetPriority, Bound, HoldersOutrank;
    var h, p := k.mutexes[m].holder.value, Priority(k, t);
    if p > Priority(k, h) {
      PriorityKeepsBoundIff(k, h, p);
      PriorityFrame(k, h, p);
      RaiseWithin(k, h, p);
    }
    assert Wait(k, t, m) == Join(Inherit(k, h, p), t, m);
    JoinKeepsBoundIff(Inherit(k, h, p), t, m);
  }

  lemma RaiseWithin(k: System, t: nat, p: nat)
    requires Bound(k) && Priority(k, t) <= p
    ensures WaitersWithin(k, t, p)
  {
  }

  lemma LowerOutranked(k: System, t: nat, p: nat)
    requires Bound(k) && p <= Priority(k, t)
    ensures HoldersOutrank(k, t, p)
  {
  }

  /** Lowering the holder of one mutex after a time-out keeps the bound exactly when nobody else who
      waits is above both the holder's base priority and the priority that the head of the list is
      filed under.  The head need not be the most urgent: the list is not sorted again when a task on
      it inherits. */
  lemma LowerKeepsBoundIff(s: State, m: nat)
    requires Sound(s) && Bound(s.k) && m < |s.k.mutexes| && s.k.mutexes[m].holder.Some?
    ensures var h := s.k.mutexes[m].holder.value;
            && h in s.k.tasks
            && (Bound(Lower(s.k, m)) <==>
                s.k.tasks[h].held == 1 ==>
                OthersWithin(s.k, m, h, Max(s.k.tasks[h].base, WaitingPriority(s.k, m))))
  {
    hide SetPriority, IsReady, AtHome, Lists, Phases, Holds;
    var k, h := s.k, s.k.mutexes[m].holder.value;
    assert h in k.tasks;
    var target := Max(k.tasks[h].base, WaitingPriority(k, m));
    if k.tasks[h].held == 1 {
      OneMutexWithin(s, m, target);
      if k.tasks[h].priority != target {
        PriorityKeepsBoundIff(k, h, target);
        TargetWithin(s, m);
        LowerOutranked(k, h, target);
      } else {
        RaiseWithin(k, h, target);
      }
    }
  }

  lemma OneMutexWithin(s: State, m: nat, p: nat)
    requires Sound(s) && m < |s.k.mutexes| && s.k.mutexes[m].holder.Some? && s.k.mutexes[m].holder.value in s.k.tasks
    requires s.k.tasks[s.k.mutexes[m].holder.value].held == 1
    ensures var h := s.k.mutexes[m].holder.value;
            WaitersWithin(s.k, h, p) <==> OthersWithin(s.k, m, h, p)
  {
    hide OthersWithin, Holds, AtHome, Lists, Phases, Levels;
    var h := s.k.mutexes[m].holder.value;
    forall n | 0 <= n < |s.k.mutexes| && s.k.mutexes[n].holder == Some(h)
      ensures n == m
    {
      if n != m {
        HoldsOne(s.k.mutexes, m, n, h);
      }
    }
  }

  /** The holder is never raised by a time-out. */
  lemma TargetWithin(s: State, m: nat)
    requires Sound(s) && Bound(s.k) && m < |s.k.mutexes|
    requires s.k.mutexes[m].holder.Some? && s.k.mutexes[m].holder.value in s.k.tasks
    ensures var h := s.k.mutexes[m].holder.value;
            Max(s.k.tasks[h].base, WaitingPriority(s.k, m)) <= Priority(s.k, h)
  {
    hide WaitingPriority, AtHome, Lists, Phases, Accounts;
    var h := s.k.mutexes[m].holder.value;
    WaitingPriorityIs(s, m);
    assert LevelOk(s.k.tasks[h], |s.k.ready|);
  }

  lemma GiveKeepsBound(s: State, t: nat, m: nat)
    requires Sound(s) && Bound(s.k) && Enabled(s, Release(t, m))
    ensures Bound(Next(s, Release(t, m)).k)
  {
    hide OnTurns, Holds, IsReady, Accounts, Levels, AtHome, Lists, Phases, Bound, Wake, Disinherit;
    RelinquishBound(s, t, m);
    RelinquishFrame(s.k, t, m);
    var k1 := Relinquish(s.k, t, m);
    if k1.mutexes[m].waiting != [] {
      WakeBound(k1, k1.mutexes[m].waiting[0], m);
    }
  }

  lemma SamePriorities(k: System, k': System)
    requires Bound(k) && k'.mutexes == k.mutexes && forall t :: Priority(k', t) == Priority(k, t)
    ensures Bound(k')
  {
  }

  /** What each step must meet: a take, a start of waiting and a lowering can break the bound, no other
      step does. */
  ghost predicate StepKeeps(s: State, step: Step)
    requires Enabled(s, step)
  {
    var k := s.k;
    match step
    case Try(t, _) =>
      var m := At(s, t).m;
      k.mutexes[m].holder.None? ==> OthersWithin(k, m, t, Priority(k, t))
    case Check(t, expired) =>
      var holder := k.mutexes[At(s, t).m].holder;
      !expired && holder.Some? ==>
        Priority(k, t) <= Priority(k, holder.value) || HoldersOutrank(k, holder.value, Priority(k, t))
    case LowerHolder(t) =>
      var m := At(s, t).m;
      var holder := k.mutexes[m].holder;
      holder.Some? && holder.value in k.tasks && k.tasks[holder.value].held == 1 ==>
        OthersWithin(k, m, holder.value, Max(k.tasks[holder.value].base, WaitingPriority(k, m)))
    case _ => true
  }

  lemma StepKeepsBoundIff(s: State, step: Step)
    requires Sound(s) && Bound(s.k) && Enabled(s, step)
    ensures Bound(Next(s, step).k) <==> StepKeeps(s, step)
  {
    hide Bound, IsReady, Filed, Levels, AtHome, Lists, Phases;
    hide Take, Give, Wake, Wait, Lower, OthersWithin, HoldersOutrank;
    var k := s.k;
    match step
    case Try(t, _) =>
      ReadyKnown(k, t);
      if k.mutexes[At(s, t).m].holder.None? {
        TakeKeepsBoundIff(k, t, At(s, t).m);
      }
    case Check(t, expired) =>
      ReadyKnown(k, t);
      if !expired && k.mutexes[At(s, t).m].holder.Some? {
        WaitKeepsBoundIff(k, t, At(s, t).m);
      }
    case LowerHolder(t) => LowerStepIff(s, t);
    case Release(t, m) => GiveKeepsBound(s, t, m);
    case Timeout(t) => WakeBound(k, t, At(s, t).m);
    case Enter(t, data) =>
      ReadyKnown(k, t);
      SamePriorities(k, Next(s, step).k);
    case Leave(t) =>
      ReadyKnown(k, t);
      SamePriorities(k, Next(s, step).k);
    case _ => SamePriorities(k, Next(s, step).k);
  }

  lemma LowerStepIff(s: State, t: nat)
    requires Sound(s) && Bound(s.k) && Enabled(s, LowerHolder(t))
    ensures Bound(Next(s, LowerHolder(t)).k) <==> StepKeeps(s, LowerHolder(t))
  {
    hide Bound, IsReady, Filed, Sound, OthersWithin, DisinheritAfterTimeout;
    if s.k.mutexes[At(s, t).m].holder.Some? {
      LowerKeepsBoundIff(s, At(s, t).m);
    }
  }

  // Over whole runs

  /** The bound holds at every state of the run. */
  ghost predicate BoundThroughout(s: State, steps: seq<Step>)
    requires IsRun(s, steps)
    decreases |steps|
  {
    Bound(s.k) && (steps == [] || BoundThroughout(Next(s, steps[0]), steps[1..]))
  }

  ghost predicate EveryStepKeeps(s: State, steps: seq<Step>)
    requires IsRun(s, steps)
    decreases |steps|
  {
    steps == [] || (StepKeeps(s, steps[0]) && EveryStepKeeps(Next(s, steps[0]), steps[1..]))
  }

  lemma {:induction false} RunKeepsBoundIff(s: State, steps: seq<Step>)
    requires Sound(s) && Bound(s.k) && IsRun(s, steps)
    ensures BoundThroughout(s, steps) <==> EveryStepKeeps(s, steps)
    decreases |steps|
  {
    hide Sound, Bound, Enabled, Next, StepKeeps;
    if steps != [] {
      var s' := Next(s, steps[0]);
      SoundStep(s, steps[0]);
      StepKeepsBoundIff(s, steps[0]);
      if Bound(s'.k) {
        RunKeepsBoundIff(s', steps[1..]);
      } else {
        assert !BoundThroughout(s', steps[1..]);
      }
    }
  }

  /** From unused mutexes, whatever the tasks do: the holder of every mutex is at least as urgent as
      every task waiting for it, at every moment of the run, exactly when each take, each start of
      waiting and each lowering of the run meets its condition. */
  lemma BoundThroughoutIff(s: State, steps: seq<Step>)
    requires Unused(s) && IsRun(s, steps)
    ensures BoundThroughout(s, steps) <==> EveryStepKeeps(s, steps)
  {
    hide Unused, Sound, Bound, IsRun, EveryStepKeeps, BoundThroughout;
    UnusedSound(s);
    UnusedBound(s);
    RunKeepsBoundIff(s, steps);
  }

  lemma UnusedBound(s: State)
    requires Unused(s)
    ensures Bound(s.k)
  {
    hide AtHome;
  }

  /** The two hypotheses together see to all three conditions. */
  lemma {:induction false} DisciplineKeeps(s: State, steps: seq<Step>)
    requires Sound(s) && Ranked(s) && Disciplined(s, steps, true, true)
    ensures IsRun(s, steps) && EveryStepKeeps(s, steps)
    decreases |steps|
  {
    hide Sound, Ranked, Enabled, Next, TakesHighest, WaitsEmptyHanded, StepKeeps;
    if steps != [] {
      SoundStep(s, steps[0]);
      RankedStep(s, steps[0]);
      RankedBound(s);
      RankedBound(Next(s, steps[0]));
      StepKeepsBoundIff(s, steps[0]);
      DisciplineKeeps(Next(s, steps[0]), steps[1..]);
    }
  }

  lemma RankedBound(s: State)
    requires Ranked(s)
    ensures Bound(s.k)
  {
  }
}
