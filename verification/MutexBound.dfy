/** The priority inheritance bound: a mutex's holder is at least as urgent as every task waiting for
    it.  What it needs of the runs, that it then always holds, and that it does not hold without. */
module MutexBound {
  import opened Options
  import opened SchedulerSpec
  import opened MutexSections
  import opened MutexProtocol

  /** No ready list above the task's priority holds a task. */
  ghost predicate HighestReady(k: System, t: nat) {
    forall p :: Priority(k, t) < p < |k.ready| ==> Empty(k.ready[p])
  }

  /** First hypothesis: a mutex is taken by a highest-priority ready task. */
  ghost predicate TakesHighest(s: State, step: Step)
    requires Enabled(s, step)
  {
    step.Try? && s.k.mutexes[At(s, step.t).m].holder.None? ==> HighestReady(s.k, step.t)
  }

  /** Second hypothesis: a task that starts to wait for a mutex holds none. */
  ghost predicate WaitsEmptyHanded(s: State, step: Step)
    requires Enabled(s, step)
  {
    step.Check? && !step.expired && s.k.mutexes[At(s, step.t).m].holder.Some? ==> HoldsNone(s.k, step.t)
  }

  /** A run that keeps to the hypotheses asked for. */
  ghost predicate Disciplined(s: State, steps: seq<Step>, highest: bool, emptyHanded: bool)
    decreases |steps|
  {
    steps == [] ||
      (&& Enabled(s, steps[0])
       && (highest ==> TakesHighest(s, steps[0]))
       && (emptyHanded ==> WaitsEmptyHanded(s, steps[0]))
       && Disciplined(Next(s, steps[0]), steps[1..], highest, emptyHanded))
  }

  /** The holder of a mutex has at least the priority of every task that waits for it. */
  ghost predicate Bound(k: System) {
    forall m, w :: 0 <= m < |k.mutexes| && k.mutexes[m].holder.Some? && w in k.mutexes[m].waiting ==>
      Priority(k, w) <= Priority(k, k.mutexes[m].holder.value)
  }

  /** Waiting tasks are listed the most urgent first. */
  ghost predicate Queued(k: System, l: seq<nat>) {
    forall i, j :: 0 <= i < j < |l| ==> Priority(k, l[j]) <= Priority(k, l[i])
  }

  ghost predicate Queues(k: System) {
    forall m :: 0 <= m < |k.mutexes| ==> Queued(k, k.mutexes[m].waiting)
  }

  ghost predicate WaitingHoldNone(k: System) {
    forall m, w :: 0 <= m < |k.mutexes| && w in k.mutexes[m].waiting ==> HoldsNone(k, w)
  }

  /** A woken task that has not retried yet and is at least as urgent as all that still wait. */
  ghost predicate Heir(s: State, m: nat, u: nat)
    requires m < |s.k.mutexes|
  {
    && At(s, u).Trying? && At(s, u).m == m && HoldsNone(s.k, u)
    && forall w :: w in s.k.mutexes[m].waiting ==> Priority(s.k, w) <= Priority(s.k, u)
  }

  ghost predicate HasHeir(s: State, m: nat)
    requires m < |s.k.mutexes|
  {
    s.k.mutexes[m].holder.None? && s.k.mutexes[m].waiting != [] ==> exists u :: Heir(s, m, u)
  }

  ghost predicate Heirs(s: State) {
    forall m :: 0 <= m < |s.k.mutexes| ==> HasHeir(s, m)
  }

  ghost predicate Ranked(s: State) {
    Bound(s.k) && Queues(s.k) && WaitingHoldNone(s.k) && Heirs(s)
  }

  // What keeps heirs

  /** Where the step leaves a free mutex with what it needs of its heir, there is still an heir. */
  lemma HeirStays(s: State, s': State, m: nat, u: nat)
    requires m < |s.k.mutexes| && |s'.k.mutexes| == |s.k.mutexes| && Heir(s, m, u)
    requires At(s', u) == At(s, u) && HoldsNone(s'.k, u)
    requires forall t :: HoldsNone(s.k, t) ==> Priority(s'.k, t) == Priority(s.k, t)
    requires forall w :: w in s'.k.mutexes[m].waiting ==> w in s.k.mutexes[m].waiting && HoldsNone(s.k, w)
    ensures HasHeir(s', m)
  {
    assert Heir(s', m, u);
  }

  /** Every step leaves an heir where there was one, if no heir goes, nobody who holds nothing changes
      priority, and no free mutex gets new waiting tasks. */
  lemma HeirsStay(s: State, s': State)
    requires Heirs(s) && WaitingHoldNone(s.k) && |s'.k.mutexes| == |s.k.mutexes|
    requires forall t :: HoldsNone(s.k, t) ==> Priority(s'.k, t) == Priority(s.k, t)
    requires forall m, u :: 0 <= m < |s.k.mutexes| && s'.k.mutexes[m].holder.None? && Heir(s, m, u) ==>
      At(s', u) == At(s, u) && HoldsNone(s'.k, u)
    requires forall m :: 0 <= m < |s.k.mutexes| && s'.k.mutexes[m].holder.None? ==>
      s.k.mutexes[m].holder.None? && forall w :: w in s'.k.mutexes[m].waiting ==> w in s.k.mutexes[m].waiting
    ensures Heirs(s')
  {
    hide HoldsNone, Priority;
    forall m | 0 <= m < |s'.k.mutexes|
      ensures HasHeir(s', m)
    {
      assert HasHeir(s, m);
      if s'.k.mutexes[m].holder.None? && s'.k.mutexes[m].waiting != [] {
        assert s'.k.mutexes[m].waiting[0] in s.k.mutexes[m].waiting;
        var u :| Heir(s, m, u);
        HeirStays(s, s', m, u);
      }
    }
  }

  predicate TriesFree(s: State, t: nat) {
    At(s, t).Trying? && At(s, t).m < |s.k.mutexes| && s.k.mutexes[At(s, t).m].holder.None?
  }

  /** A step that changes neither mutexes nor priorities, and takes no heir out of its phase. */
  lemma RankedFrame(s: State, s': State)
    requires Ranked(s) && s'.k.mutexes == s.k.mutexes
    requires forall t :: Priority(s'.k, t) == Priority(s.k, t)
    requires forall t :: HoldsNone(s'.k, t) <==> HoldsNone(s.k, t)
    requires forall t :: At(s', t) == At(s, t) || !TriesFree(s, t)
    ensures Ranked(s')
  {
    hide Priority, HoldsNone;
    forall m | 0 <= m < |s.k.mutexes|
      ensures Queued(s'.k, s'.k.mutexes[m].waiting)
    {
      assert Queued(s.k, s.k.mutexes[m].waiting);
    }
    HeirsStay(s, s');
  }

  // Changes of priority

  /** Raising or lowering the holder of mutexes, to nothing below its waiting tasks. */
  lemma RankedSetPriority(s: State, h: nat, p: nat)
    requires Sound(s) && Ranked(s) && h in s.k.tasks && s.k.tasks[h].held > 0
    requires s.k.tasks[h].base <= p < |s.k.ready|
    requires forall m, w ::
               0 <= m < |s.k.mutexes| && s.k.mutexes[m].holder == Some(h) && w in s.k.mutexes[m].waiting ==>
                 Priority(s.k, w) <= p
    ensures Ranked(s.(k := SetPriority(s.k, h, p)))
  {
    hide Holds, IsReady, OnTurns, AtHome, Phases, SetPriority, Lists;
    var s' := s.(k := SetPriority(s.k, h, p));
    assert LevelOk(s.k.tasks[h], |s.k.ready|);
    PriorityMoves(s.k, h, p);
    PriorityFrame(s.k, h, p);
    assert forall t :: HoldsNone(s'.k, t) <==> HoldsNone(s.k, t);
    forall m | 0 <= m < |s.k.mutexes|
      ensures Queued(s'.k, s'.k.mutexes[m].waiting)
    {
      var l := s.k.mutexes[m].waiting;
      assert Queued(s.k, l);
      assert forall i :: 0 <= i < |l| ==> l[i] in l && HoldsNone(s.k, l[i]);
    }
    HeirsStay(s, s');
  }

  lemma RankedInherit(s: State, h: nat, p: nat)
    requires Sound(s) && Ranked(s) && h in s.k.tasks && s.k.tasks[h].held > 0 && p < |s.k.ready|
    ensures Ranked(s.(k := Inherit(s.k, h, p)))
  {
    hide Sound, SetPriority, Queues, Heirs;
    SoundLevel(s, h);
    if s.k.tasks[h].priority < p {
      RankedSetPriority(s, h, p);
    }
  }

  // The lists

  /** The greater the priority, the smaller the value. */
  ghost predicate Opposed(k: System, t: nat) {
    Priority(k, t) + Value(k, t) == |k.ready|
  }

  lemma {:induction false} PlaceQueued(k: System, l: seq<nat>, t: nat)
    requires Queued(k, l) && Opposed(k, t) && forall w :: w in l ==> Opposed(k, w)
    ensures Queued(k, Place(k, l, t))
  {
    hide Priority, Value;
    if l != [] {
      assert l[0] in l;
      if Value(k, l[0]) <= Value(k, t) {
        PlaceQueued(k, l[1..], t);
        PlaceMembers(k, l[1..], t);
        var r := Place(k, l[1..], t);
        forall j | 0 <= j < |r|
          ensures Priority(k, r[j]) <= Priority(k, l[0])
        {
          assert r[j] in r;
          if r[j] != t {
            var i :| 0 <= i < |l[1..]| && l[1..][i] == r[j];
            assert l[i + 1] == r[j];
          }
        }
      } else {
        forall j | 0 <= j < |l|
          ensures Priority(k, l[j]) <= Priority(k, t)
        {
          assert l[j] in l;
        }
      }
    }
  }

  lemma {:induction false} DropQueued(k: System, l: seq<nat>, t: nat)
    requires Queued(k, l)
    ensures Queued(k, Drop(l, t))
  {
    if l != [] {
      DropQueued(k, l[1..], t);
      DropMembers(l[1..], t);
      var r := Drop(l[1..], t);
      forall j | 0 <= j < |r|
        ensures Priority(k, r[j]) <= Priority(k, l[0])
      {
        assert r[j] in r;
        var i :| 0 <= i < |l[1..]| && l[1..][i] == r[j];
        assert l[i + 1] == r[j];
      }
    }
  }

  // Taking

  /** The taker outranks the heir, who outranks whoever still waits. */
  lemma TakerOutranks(s: State, t: nat, m: nat, w: nat)
    requires Sound(s) && Heirs(s) && HighestReady(s.k, t) && m < |s.k.mutexes|
    requires s.k.mutexes[m].holder.None? && w in s.k.mutexes[m].waiting
    ensures Priority(s.k, w) <= Priority(s.k, t)
  {
    hide Accounts, Lists, Holds;
    assert HasHeir(s, m);
    var u :| Heir(s, m, u);
    assert u in s.phase && PhaseOk(s, u);
    assert IsReady(s.k, u);
    var p := Priority(s.k, u);
    assert !Empty(s.k.ready[p]);
  }

  lemma RankedTake(s: State, t: nat, m: nat)
    requires Sound(s) && Ranked(s) && IsReady(s.k, t) && At(s, t).Trying? && At(s, t).m == m < |s.k.mutexes|
    requires s.k.mutexes[m].holder.None? && HighestReady(s.k, t)
    ensures Ranked(Goes(s, t, Take(s.k, t, m), Outside))
  {
    hide OnTurns, Holds, IsReady, Accounts, Lists, HighestReady;
    ReadyKnown(s.k, t);
    NotListed(s, t);
    hide Phases;
    TakeReadiness(s.k, t, m);
    var s' := Goes(s, t, Take(s.k, t, m), Outside);
    assert forall n :: 0 <= n < |s.k.mutexes| ==> s'.k.mutexes[n].waiting == s.k.mutexes[n].waiting;
    forall w | w in s.k.mutexes[m].waiting
      ensures Priority(s.k, w) <= Priority(s.k, t)
    {
      TakerOutranks(s, t, m, w);
    }
    forall n | 0 <= n < |s.k.mutexes|
      ensures Queued(s'.k, s'.k.mutexes[n].waiting)
    {
      assert Queued(s.k, s.k.mutexes[n].waiting);
    }
    HeirsStay(s, s');
  }

  // Waiting

  /** A task that holds nothing and is outranked by the holder joins the list. */
  lemma RankedJoin(s: State, t: nat, m: nat, inherited: bool)
    requires Sound(s) && Ranked(s) && IsReady(s.k, t) && At(s, t).Checking? && m < |s.k.mutexes| && HoldsNone(s.k, t)
    requires s.k.mutexes[m].holder.Some? && Priority(s.k, t) <= Priority(s.k, s.k.mutexes[m].holder.value)
    ensures Ranked(Goes(s, t, Join(s.k, t, m), Waiting(m, inherited)))
  {
    hide OnTurns, Holds, IsReady, Place, Unlisted, AtHome, Accounts, Lists;
    var k, s' := s.k, Goes(s, t, Join(s.k, t, m), Waiting(m, inherited));
    var k', l := s'.k, k.mutexes[m].waiting;
    PlaceMembers(k, l, t);
    assert forall x :: Priority(k', x) == Priority(k, x);
    JoinQueued(s, t, m);
    forall n | 0 <= n < |k.mutexes|
      ensures Queued(k', k'.mutexes[n].waiting)
    {
      assert Queued(k, k.mutexes[n].waiting) && Queued(k, k'.mutexes[n].waiting);
    }
    assert forall x :: HoldsNone(k', x) <==> HoldsNone(k, x);
    HeirsStay(s, s');
  }

  lemma JoinQueued(s: State, t: nat, m: nat)
    requires Sound(s) && Queues(s.k) && t in s.k.tasks && At(s, t).Checking? && m < |s.k.mutexes|
    ensures Queued(s.k, Place(s.k, s.k.mutexes[m].waiting, t))
  {
    hide OnTurns, Holds, IsReady, Place, AtHome, Accounts, Lists;
    var k, l := s.k, s.k.mutexes[m].waiting;
    PhaseFiled(s, t);
    assert LevelOk(k.tasks[t], |k.ready|);
    assert Queued(k, l);
    forall w | w in l
      ensures Opposed(k, w)
    {
      ListedWaits(s, m, w);
      assert LevelOk(k.tasks[w], |k.ready|);
    }
    PlaceQueued(k, l, t);
  }

  lemma RankedWait(s: State, t: nat, m: nat, inherited: bool)
    requires Sound(s) && Ranked(s) && IsReady(s.k, t) && At(s, t).Checking? && m < |s.k.mutexes| && HoldsNone(s.k, t)
    requires s.k.mutexes[m].holder.Some?
    ensures s.k.mutexes[m].holder.value in s.k.tasks
    ensures Ranked(Goes(s, t, Wait(s.k, t, m), Waiting(m, inherited)))
  {
    hide OnTurns, Holds, Place, AtHome, Phases, Lists, Inherit, Ranked, IsReady;
    var h, p := s.k.mutexes[m].holder.value, s.k.tasks[t].priority;
    HolderHolds(s.k.mutexes, m, h);
    assert LevelOk(s.k.tasks[t], |s.k.ready|) && LevelOk(s.k.tasks[h], |s.k.ready|);
    InheritFrame(s.k, h, p);
    SoundInherit(s, h, p);
    RankedInherit(s, h, p);
    var s1 := s.(k := Inherit(s.k, h, p));
    assert Priority(s1.k, t) == p && HoldsNone(s1.k, t);
    RankedJoin(s1, t, m, inherited);
  }

  // Waking

  lemma WakeBound(k: System, w: nat, m: nat)
    requires Bound(k) && m < |k.mutexes|
    ensures Bound(Wake(k, w, m))
  {
    hide AddTurn, Enlisted, Drop;
    DropMembers(k.mutexes[m].waiting, w);
  }

  lemma WakeLists(k: System, w: nat, m: nat)
    requires Bound(k) && Queues(k) && WaitingHoldNone(k) && m < |k.mutexes|
    ensures Bound(Wake(k, w, m)) && Queues(Wake(k, w, m)) && WaitingHoldNone(Wake(k, w, m))
  {
    WakeBound(k, w, m);
    hide AddTurn, Enlisted, Drop, Bound;
    var k', l := Wake(k, w, m), k.mutexes[m].waiting;
    DropMembers(l, w);
    DropQueued(k, l, w);
    forall n | 0 <= n < |k.mutexes|
      ensures Queued(k', k'.mutexes[n].waiting)
    {
      assert Queued(k, k.mutexes[n].waiting);
      assert Queued(k, k'.mutexes[n].waiting);
    }
    forall n, x | 0 <= n < |k.mutexes| && x in k'.mutexes[n].waiting
      ensures HoldsNone(k', x)
    {
      assert x in k.mutexes[n].waiting;
      assert HoldsNone(k, x);
    }
  }

  lemma RankedTimeout(s: State, t: nat)
    requires Sound(s) && Ranked(s) && Enabled(s, Timeout(t))
    ensures Ranked(Next(s, Timeout(t)))
  {
    hide IsReady, OnTurns, Enlisted, Drop, Sound, Queues, Bound;
    var s', m := Next(s, Timeout(t)), At(s, t).m;
    WakeLists(s.k, t, m);
    DropMembers(s.k.mutexes[m].waiting, t);
    HeirsStay(s, s');
  }

  // Giving

  /** The giver owes its priority to nobody through the mutex that it gives, and keeps it if it holds
      another. */
  lemma RelinquishBound(s: State, t: nat, m: nat)
    requires Sound(s) && Bound(s.k) && At(s, t).Outside? && m < |s.k.mutexes| && s.k.mutexes[m].holder == Some(t)
    ensures t in s.k.tasks && s.k.tasks[t].held > 0 && Bound(Relinquish(s.k, t, m))
  {
    hide OnTurns, Holds, IsReady, Levels, AtHome, Disinherit, Lists;
    RelinquishAccounts(s.k, t, m);
    RelinquishFrame(s.k, t, m);
    NotListed(s, t);
    hide Phases;
    var k, k' := s.k, Relinquish(s.k, t, m);
    forall n | 0 <= n < |k.mutexes| && k'.mutexes[n].holder == Some(t)
      ensures Priority(k', t) == Priority(k, t)
    {
      HoldsOne(k.mutexes, m, n, t);
    }
  }

  lemma RelinquishRanks(s: State, t: nat, m: nat)
    requires Sound(s) && Ranked(s) && IsReady(s.k, t) && At(s, t).Outside?
    requires m < |s.k.mutexes| && s.k.mutexes[m].holder == Some(t)
    ensures t in s.k.tasks && s.k.tasks[t].held > 0
    ensures var k' := Relinquish(s.k, t, m);
            && Bound(k') && Queues(k') && WaitingHoldNone(k')
            && (forall x :: HoldsNone(s.k, x) ==> HoldsNone(k', x) && Priority(k', x) == Priority(s.k, x))
  {
    hide OnTurns, Holds, IsReady, Levels, AtHome, Disinherit, Lists;
    RelinquishBound(s, t, m);
    RelinquishFrame(s.k, t, m);
    NotListed(s, t);
    hide Phases, Bound;
    var k, k' := s.k, Relinquish(s.k, t, m);
    forall n | 0 <= n < |k.mutexes|
      ensures Queued(k', k'.mutexes[n].waiting)
    {
      assert Queued(k, k.mutexes[n].waiting);
      assert forall i :: 0 <= i < |k.mutexes[n].waiting| ==> k.mutexes[n].waiting[i] in k.mutexes[n].waiting;
    }
    forall n, w | 0 <= n < |k.mutexes| && w in k'.mutexes[n].waiting
      ensures HoldsNone(k', w)
    {
      assert w in k.mutexes[n].waiting;
      assert HoldsNone(k, w);
    }
  }

  /** The task that a give wakes is an heir. */
  lemma HeadIsHeir(s: State, t: nat, m: nat)
    requires Sound(s) && Ranked(s) && Enabled(s, Release(t, m)) && s.k.mutexes[m].waiting != []
    ensures s.k.tasks[t].held > 0 && Heir(Next(s, Release(t, m)), m, s.k.mutexes[m].waiting[0])
  {
    hide OnTurns, Holds, IsReady, Bound, Drop, Disinherit, Enlisted, Accounts, Levels, AtHome, Lists;
    var k, l, s' := s.k, s.k.mutexes[m].waiting, Next(s, Release(t, m));
    RelinquishRanks(s, t, m);
    RelinquishFrame(k, t, m);
    assert l[0] in l;
    ListedWaits(s, m, l[0]);
    DropMembers(l, l[0]);
    assert Queued(k, l);
    assert forall w :: w in l ==> HoldsNone(k, w);
  }

  lemma RankedGive(s: State, t: nat, m: nat)
    requires Sound(s) && Ranked(s) && Enabled(s, Release(t, m))
    ensures Ranked(Next(s, Release(t, m)))
  {
    hide OnTurns, Holds, IsReady, Drop, Disinherit, Enlisted, Accounts, Levels, AtHome, Lists, Bound, Queues;
    var k, l, s' := s.k, s.k.mutexes[m].waiting, Next(s, Release(t, m));
    RelinquishRanks(s, t, m);
    RelinquishFrame(k, t, m);
    var k1 := Relinquish(k, t, m);
    assert k1.mutexes[m].waiting == l;
    if l != [] {
      assert l[0] in l;
      ListedWaits(s, m, l[0]);
      WakeLists(k1, l[0], m);
      DropMembers(l, l[0]);
      HeadIsHeir(s, t, m);
    }
    GiveHeirs(s, t, m);
  }

  lemma GiveHeirs(s: State, t: nat, m: nat)
    requires Sound(s) && Ranked(s) && Enabled(s, Release(t, m))
    ensures Heirs(Next(s, Release(t, m)))
  {
    hide OnTurns, Holds, IsReady, Drop, Disinherit, Enlisted, Accounts, Levels, AtHome, Lists, Bound, Queues;
    var k, l, s' := s.k, s.k.mutexes[m].waiting, Next(s, Release(t, m));
    RelinquishRanks(s, t, m);
    RelinquishFrame(k, t, m);
    if l != [] {
      assert l[0] in l;
      ListedWaits(s, m, l[0]);
      HeadIsHeir(s, t, m);
    }
    forall n | 0 <= n < |k.mutexes| && n != m
      ensures HasHeir(s', n)
    {
      assert HasHeir(s, n);
      if s'.k.mutexes[n].holder.None? && s'.k.mutexes[n].waiting != [] {
        var u :| Heir(s, n, u);
        HeirStays(s, s', n, u);
      }
    }
    assert HasHeir(s', m);
  }

  // Lowering the holder after a time-out

  /** The priority after a time-out suits every task still waiting for the holder's one mutex. */
  lemma LowerTarget(s: State, m: nat, h: nat)
    requires Sound(s) && Queues(s.k) && m < |s.k.mutexes| && s.k.mutexes[m].holder == Some(h) && h in s.k.tasks
    requires s.k.tasks[h].held == 1
    ensures var target := Max(s.k.tasks[h].base, WaitingPriority(s.k, m));
            && target < |s.k.ready|
            && forall n, w ::
                 0 <= n < |s.k.mutexes| && s.k.mutexes[n].holder == Some(h) && w in s.k.mutexes[n].waiting ==>
                   Priority(s.k, w) <= target
  {
    hide OnTurns, Holds, IsReady, AtHome, Phases, Lists;
    var k := s.k;
    assert LevelOk(k.tasks[h], |k.ready|);
    assert Queued(k, k.mutexes[m].waiting);
    WaitingPriorityIs(s, m);
    forall n, w | 0 <= n < |k.mutexes| && k.mutexes[n].holder == Some(h) && w in k.mutexes[n].waiting
      ensures n == m
    {
      if n != m {
        HoldsOne(k.mutexes, m, n, h);
      }
    }
  }

  lemma RankedLower(s: State, t: nat)
    requires Sound(s) && Ranked(s) && Enabled(s, LowerHolder(t))
    ensures Ranked(Next(s, LowerHolder(t)))
  {
    hide OnTurns, Holds, IsReady, SetPriority, AtHome, Phases, Lists, Ranked, Levels;
    var k, m := s.k, At(s, t).m;
    var s1 := s.(k := Lower(k, m));
    if k.mutexes[m].holder.Some? {
      var h := k.mutexes[m].holder.value;
      var target := Max(k.tasks[h].base, WaitingPriority(k, m));
      if k.tasks[h].priority != target && k.tasks[h].held == 1 {
        assert Queues(k) by {
          RankedQueues(s);
        }
        LowerTarget(s, m, h);
        RankedSetPriority(s, h, target);
      }
    }
    RankedFrame(s1, Goes(s, t, Lower(k, m), Outside));
  }

  lemma RankedQueues(s: State)
    requires Ranked(s)
    ensures Queues(s.k)
  {
  }

  // Runs

  lemma RankedTry(s: State, t: nat, blocks: bool)
    requires Sound(s) && Ranked(s) && Enabled(s, Try(t, blocks)) && TakesHighest(s, Try(t, blocks))
    ensures Ranked(Next(s, Try(t, blocks)))
  {
    hide IsReady, Sound, Ranked, Take, HighestReady;
    var m := At(s, t).m;
    if s.k.mutexes[m].holder.None? {
      RankedTake(s, t, m);
    } else {
      RankedFrame(s, Next(s, Try(t, blocks)));
    }
  }

  lemma RankedCheck(s: State, t: nat, expired: bool)
    requires Sound(s) && Ranked(s) && Enabled(s, Check(t, expired)) && WaitsEmptyHanded(s, Check(t, expired))
    ensures Ranked(Next(s, Check(t, expired)))
  {
    hide IsReady, Sound, Ranked, Wait;
    var m := At(s, t).m;
    if !expired && s.k.mutexes[m].holder.Some? {
      ReadyKnown(s.k, t);
      var h := s.k.mutexes[m].holder.value;
      RankedWait(s, t, m, h in s.k.tasks && Inherits(s.k, h, s.k.tasks[t].priority));
    } else {
      RankedFrame(s, Next(s, Check(t, expired)));
    }
  }

  lemma RankedStep(s: State, step: Step)
    requires Sound(s) && Ranked(s) && Enabled(s, step) && TakesHighest(s, step) && WaitsEmptyHanded(s, step)
    ensures Ranked(Next(s, step))
  {
    hide Sound, Ranked, IsReady, HighestReady, Wait, Take, Give, Wake, Lower;
    match step
    case Try(t, blocks) => RankedTry(s, t, blocks);
    case Check(t, expired) => RankedCheck(s, t, expired);
    case LowerHolder(t) => RankedLower(s, t);
    case Release(t, m) => RankedGive(s, t, m);
    case Timeout(t) => RankedTimeout(s, t);
    case Enter(t, data) =>
      ReadyKnown(s.k, t);
      RankedFrame(s, Next(s, step));
    case Leave(t) =>
      ReadyKnown(s.k, t);
      RankedFrame(s, Next(s, step));
    case _ => RankedFrame(s, Next(s, step));
  }

  lemma {:induction false} RunsKeepRanked(s: State, steps: seq<Step>)
    requires Sound(s) && Ranked(s) && Disciplined(s, steps, true, true)
    ensures IsRun(s, steps) && Sound(Run(s, steps)) && Ranked(Run(s, steps))
    decreases |steps|
  {
    hide Sound, Ranked, Enabled, Next, TakesHighest, WaitsEmptyHanded;
    if steps != [] {
      SoundStep(s, steps[0]);
      RankedStep(s, steps[0]);
      RunsKeepRanked(Next(s, steps[0]), steps[1..]);
    }
  }

  lemma UnusedRanked(s: State)
    requires Unused(s)
    ensures Ranked(s)
  {
    hide AtHome;
  }

  /** Over every disciplined run the holder of a mutex is at least as urgent as every task waiting for
      it. */
  lemma InheritanceBound(s: State, steps: seq<Step>, m: nat, w: nat)
    requires Unused(s) && Disciplined(s, steps, true, true)
    ensures IsRun(s, steps)
    ensures var k := Run(s, steps).k;
            m < |k.mutexes| && k.mutexes[m].holder.Some? && w in k.mutexes[m].waiting ==>
              Priority(k, w) <= Priority(k, k.mutexes[m].holder.value)
  {
    hide Run, Disciplined, IsRun, Unused, Sound, Queues, Heirs;
    UnusedSound(s);
    UnusedRanked(s);
    RunsKeepRanked(s, steps);
  }

  /** Over every disciplined run a give wakes a task at least as urgent as all that go on waiting. */
  lemma GiveWakesTheMostUrgent(s: State, steps: seq<Step>, t: nat, m: nat)
    requires Unused(s) && Disciplined(s, steps, true, true)
    ensures IsRun(s, steps)
    ensures var before := Run(s, steps);
            Enabled(before, Release(t, m)) && before.k.mutexes[m].waiting != [] ==>
              var after := Next(before, Release(t, m));
              exists u :: u in before.k.mutexes[m].waiting && u !in after.k.mutexes[m].waiting && IsReady(after.k, u)
                && forall w :: w in after.k.mutexes[m].waiting ==> Priority(after.k, w) <= Priority(after.k, u)
  {
    hide Run, Disciplined, IsRun, Unused, IsReady, OnTurns, Disinherit, Drop, Enlisted, Ranked;
    UnusedSound(s);
    UnusedRanked(s);
    RunsKeepRanked(s, steps);
    var before := Run(s, steps);
    if Enabled(before, Release(t, m)) && before.k.mutexes[m].waiting != [] {
      var after, l := Next(before, Release(t, m)), before.k.mutexes[m].waiting;
      HeadIsHeir(before, t, m);
      SoundStep(before, Release(t, m));
      RelinquishFrame(before.k, t, m);
      DropMembers(l, l[0]);
      assert l[0] in l;
      assert PhaseOk(after, l[0]);
    }
  }
}
