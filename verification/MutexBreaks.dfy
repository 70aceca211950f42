/** Runs that break the priority inheritance bound as soon as one of the two hypotheses is dropped: by a
    take, by a start of waiting and by a lowering, each the first step after which it fails. */
module MutexBreaks {
  import opened EventValues
  import opened Options
  import opened SchedulerSpec
  import opened MutexSections
  import opened MutexProtocol
  import opened MutexBound
  import opened MutexLimits

  /** Some run that keeps to the hypotheses asked for, and to the bound, leads from one state to the
      other. */
  ghost predicate Leads(s: State, steps: seq<Step>, highest: bool, emptyHanded: bool, s': State) {
    Disciplined(s, steps, highest, emptyHanded) && IsRun(s, steps) && BoundThroughout(s, steps) && Run(s, steps) == s'
  }

  ghost predicate Reaches(s: State, highest: bool, emptyHanded: bool, s': State) {
    exists steps :: Leads(s, steps, highest, emptyHanded, s')
  }

  /** After a run that keeps to the hypotheses asked for and to the bound, one more step that keeps to
      those hypotheses breaks the bound. */
  ghost predicate Breaks(s: State, steps: seq<Step>, highest: bool, emptyHanded: bool, step: Step) {
    && Disciplined(s, steps + [step], highest, emptyHanded) && IsRun(s, steps) && BoundThroughout(s, steps)
    && IsRun(s, steps + [step]) && !Bound(Run(s, steps + [step]).k)
  }

  ghost predicate KeepsTo(s: State, highest: bool, emptyHanded: bool, step: Step) {
    Enabled(s, step) && (highest ==> TakesHighest(s, step)) && (emptyHanded ==> WaitsEmptyHanded(s, step))
  }

  lemma {:induction false} RunAppend(s: State, steps: seq<Step>, highest: bool, emptyHanded: bool, step: Step)
    requires Disciplined(s, steps, highest, emptyHanded) && IsRun(s, steps) && BoundThroughout(s, steps)
    requires KeepsTo(Run(s, steps), highest, emptyHanded, step)
    ensures Disciplined(s, steps + [step], highest, emptyHanded)
    ensures IsRun(s, steps + [step]) && Run(s, steps + [step]) == Next(Run(s, steps), step)
    ensures BoundThroughout(s, steps + [step]) <==> Bound(Next(Run(s, steps), step).k)
    decreases |steps|
  {
    hide Enabled, Next, TakesHighest, WaitsEmptyHanded, Bound;
    if steps == [] {
      assert steps + [step] == [step];
      assert [step][1..] == [];
    } else {
      RunAppend(Next(s, steps[0]), steps[1..], highest, emptyHanded, step);
      assert (steps + [step])[1..] == steps[1..] + [step];
    }
  }

  lemma Starts(s: State, highest: bool, emptyHanded: bool)
    requires Unused(s)
    ensures Reaches(s, highest, emptyHanded, s)
  {
    UnusedBound(s);
    assert Leads(s, [], highest, emptyHanded, s);
  }

  lemma Steps(s: State, highest: bool, emptyHanded: bool, a: State, step: Step, b: State)
    requires Reaches(s, highest, emptyHanded, a)
    requires KeepsTo(a, highest, emptyHanded, step) && Next(a, step) == b && Bound(b.k)
    ensures Reaches(s, highest, emptyHanded, b)
  {
    hide KeepsTo, Next, Disciplined, IsRun, Run, BoundThroughout, Bound;
    var steps :| Leads(s, steps, highest, emptyHanded, a);
    RunAppend(s, steps, highest, emptyHanded, step);
    assert Leads(s, steps + [step], highest, emptyHanded, b);
  }

  lemma StepBreaks(s: State, highest: bool, emptyHanded: bool, a: State, step: Step) returns (steps: seq<Step>)
    requires Reaches(s, highest, emptyHanded, a)
    requires KeepsTo(a, highest, emptyHanded, step) && !Bound(Next(a, step).k)
    ensures Breaks(s, steps, highest, emptyHanded, step)
  {
    hide KeepsTo, Next, Disciplined, IsRun, Run, BoundThroughout, Bound;
    steps :| Leads(s, steps, highest, emptyHanded, a);
    RunAppend(s, steps, highest, emptyHanded, step);
  }

  lemma {:induction false} EndBound(s: State, steps: seq<Step>)
    requires IsRun(s, steps) && BoundThroughout(s, steps)
    ensures Bound(Run(s, steps).k)
    decreases |steps|
  {
    hide Bound, Enabled, Next;
    if steps != [] {
      EndBound(Next(s, steps[0]), steps[1..]);
    }
  }

  lemma ReachedBound(s: State, highest: bool, emptyHanded: bool, a: State)
    requires Reaches(s, highest, emptyHanded, a)
    ensures Bound(a.k)
  {
    hide Bound, Disciplined, IsRun, Run, BoundThroughout;
    var steps :| Leads(s, steps, highest, emptyHanded, a);
    EndBound(s, steps);
  }

  // What a task does in one go

  lemma Begins(s: State, highest: bool, emptyHanded: bool, a: State, t: nat, m: nat)
    requires Reaches(s, highest, emptyHanded, a)
    requires t in a.phase && At(a, t).Outside? && IsReady(a.k, t) && Filed(a.k, t) && m < |a.k.mutexes|
    ensures Reaches(s, highest, emptyHanded, Goes(a, t, a.k, Trying(m, false)))
  {
    hide Reaches, IsReady, Filed, HighestReady, Bound;
    ReachedBound(s, highest, emptyHanded, a);
    Steps(s, highest, emptyHanded, a, Begin(t, m), Goes(a, t, a.k, Trying(m, false)));
  }

  lemma Takes(s: State, highest: bool, emptyHanded: bool, a: State, t: nat, m: nat, k: System)
    requires Reaches(s, highest, emptyHanded, a)
    requires t in a.phase && At(a, t).Outside? && IsReady(a.k, t) && Filed(a.k, t)
    requires m < |a.k.mutexes| && a.k.mutexes[m].holder.None? && (highest ==> HighestReady(a.k, t))
    requires k == Take(a.k, t, m) && Bound(k)
    ensures Reaches(s, highest, emptyHanded, a.(k := k))
  {
    hide Reaches, IsReady, Filed, HighestReady, Take, Bound;
    ReadyKnown(a.k, t);
    Begins(s, highest, emptyHanded, a, t, m);
    var b := Goes(a, t, a.k, Trying(m, false));
    assert b.phase[t := Outside] == a.phase;
    Steps(s, highest, emptyHanded, b, Try(t, true), a.(k := k));
  }

  /** Up to the check of the time that follows a take without success. */
  lemma Checks(s: State, highest: bool, emptyHanded: bool, a: State, t: nat, m: nat)
    requires Reaches(s, highest, emptyHanded, a)
    requires t in a.phase && At(a, t).Outside? && IsReady(a.k, t) && Filed(a.k, t)
    requires m < |a.k.mutexes| && a.k.mutexes[m].holder.Some?
    ensures Reaches(s, highest, emptyHanded, Goes(a, t, a.k, Checking(m, false)))
  {
    hide Reaches, IsReady, Filed, HighestReady, Bound;
    Begins(s, highest, emptyHanded, a, t, m);
    ReachedBound(s, highest, emptyHanded, a);
    var b, c := Goes(a, t, a.k, Trying(m, false)), Goes(a, t, a.k, Checking(m, false));
    assert b.phase[t := Checking(m, false)] == c.phase;
    Steps(s, highest, emptyHanded, b, Try(t, true), c);
  }

  lemma Waits(s: State, highest: bool, emptyHanded: bool, a: State, t: nat, m: nat, k: System)
    requires Reaches(s, highest, emptyHanded, a)
    requires t in a.phase && At(a, t).Outside? && IsReady(a.k, t) && Filed(a.k, t)
    requires m < |a.k.mutexes| && a.k.mutexes[m].holder.Some? && a.k.mutexes[m].holder.value in a.k.tasks
    requires emptyHanded ==> HoldsNone(a.k, t)
    requires k == Wait(a.k, t, m) && Bound(k)
    ensures Reaches(s, highest, emptyHanded,
              Goes(a, t, k, Waiting(m, Inherits(a.k, a.k.mutexes[m].holder.value, Priority(a.k, t)))))
  {
    hide Reaches, IsReady, Filed, HighestReady, Wait, Inherits, Bound;
    ReadyKnown(a.k, t);
    Checks(s, highest, emptyHanded, a, t, m);
    var c := Goes(a, t, a.k, Checking(m, false));
    var d := Goes(a, t, k, Waiting(m, Inherits(a.k, a.k.mutexes[m].holder.value, Priority(a.k, t))));
    assert c.phase[t := d.phase[t]] == d.phase;
    Steps(s, highest, emptyHanded, c, Check(t, false), d);
  }

  /** A task that a time-out has woken finds the mutex still held, its time over, and the holder with a
      priority that it may owe to the task. */
  lemma GivesUp(s: State, highest: bool, emptyHanded: bool, a: State, t: nat, m: nat)
    requires Reaches(s, highest, emptyHanded, a)
    requires t in a.phase && At(a, t) == Trying(m, true) && IsReady(a.k, t)
    requires m < |a.k.mutexes| && a.k.mutexes[m].holder.Some?
    ensures Reaches(s, highest, emptyHanded, Goes(a, t, a.k, Lowering(m)))
  {
    hide Reaches, IsReady, HighestReady, Bound;
    ReachedBound(s, highest, emptyHanded, a);
    var b, c, d := Goes(a, t, a.k, Checking(m, true)), Goes(a, t, a.k, Expired(m, true)), Goes(a, t, a.k, Lowering(m));
    Steps(s, highest, emptyHanded, a, Try(t, true), b);
    assert b.phase[t := Expired(m, true)] == c.phase;
    Steps(s, highest, emptyHanded, b, Check(t, true), c);
    assert c.phase[t := Lowering(m)] == d.phase;
    Steps(s, highest, emptyHanded, c, Recheck(t), d);
  }

  lemma Wakes(s: State, highest: bool, emptyHanded: bool, a: State, t: nat, k: System)
    requires Reaches(s, highest, emptyHanded, a)
    requires t in a.k.tasks && !IsReady(a.k, t) && At(a, t).Outside?
    requires k == a.k.(ready := Enlisted(a.k.ready, t, Priority(a.k, t)))
    ensures Reaches(s, highest, emptyHanded, a.(k := k))
  {
    hide Reaches, IsReady, Enlisted, Bound;
    ReachedBound(s, highest, emptyHanded, a);
    SamePriorities(a.k, k);
    Steps(s, highest, emptyHanded, a, Awake(t), a.(k := k));
  }

  /** Three tasks that have not been served yet, on ready lists of two levels or three. */
  function Queue(l: seq<nat>): Turns {
    Turns([], l)
  }

  lemma DropOnly(t: nat, u: nat)
    ensures Drop([t], t) == [] && Drop([], t) == []
    ensures u != t ==> Drop([t, u], t) == [u] && Drop([u, t], t) == [u]
  {
    assert [t, u][1..] == [u] && [u, t][1..] == [t] && [t][1..] == [] && [u][1..] == [];
  }

  function Three(a: Task, b: Task, c: Task, ready: seq<Turns>, mutexes: seq<Mutex>): System {
    System(map[0 := a, 1 := b, 2 := c], ready, mutexes)
  }

  function Phases3(a: Phase, b: Phase, c: Phase): map<nat, Phase> {
    map[0 := a, 1 := b, 2 := c]
  }

  // A less urgent task takes the mutex first

  /** Task 0 has the lower base priority; tasks 1 and 2 have the higher one. */
  function Steal(priority: nat, held: nat, low: seq<nat>, high: seq<nat>, mutex: Mutex): System {
    Three(Task(0, priority, EventValue(2, priority), held), Task(1, 1, 1, 0), Task(1, 1, 1, 0),
          [Queue(low), Queue(high)], [mutex])
  }

  lemma StealEnlists(k: System, held: nat, priority: nat, low: seq<nat>, high: seq<nat>, mutex: Mutex, t: nat)
    requires k == Steal(priority, held, low, high, mutex) && 1 <= t <= 2
    ensures Enlisted(k.ready, t, Priority(k, t)) == Steal(priority, held, low, high + [t], mutex).ready
  {
  }

  lemma StealFirstWait()
    ensures Wait(Steal(0, 1, [0], [1], Mutex(Some(0), [])), 1, 0) == Steal(1, 1, [], [0], Mutex(Some(0), [1]))
  {
    var k := Steal(0, 1, [0], [1], Mutex(Some(0), []));
    DropOnly(0, 1);
    DropOnly(1, 0);
    assert Inherit(k, 0, 1) == Steal(1, 1, [], [1, 0], Mutex(Some(0), [])) by {
      assert Unlisted(k.ready, 0, 0) == [Queue([]), Queue([1])];
      assert [1] + [0] == [1, 0];
      assert Enlisted([Queue([]), Queue([1])], 0, 1) == [Queue([]), Queue([1, 0])];
    }
    hide Inherit, SetPriority, IsReady;
    assert Unlisted([Queue([]), Queue([1, 0])], 1, 1) == [Queue([]), Queue([0])];
    assert Place(Steal(1, 1, [], [1, 0], Mutex(Some(0), [])), [], 1) == [1];
  }

  lemma StealSecondWait()
    ensures Wait(Steal(1, 1, [], [0, 2], Mutex(Some(0), [1])), 2, 0) == Steal(1, 1, [], [0], Mutex(Some(0), [1, 2]))
  {
    var k := Steal(1, 1, [], [0, 2], Mutex(Some(0), [1]));
    DropOnly(2, 0);
    assert Inherit(k, 0, 1) == k;
    hide Inherit, SetPriority, IsReady;
    assert Unlisted(k.ready, 2, 1) == [Queue([]), Queue([0])];
    assert [1][1..] == [] && [1] + [2] == [1, 2];
    assert Place(k, [], 2) == [2] && Place(k, [1], 2) == [1] + Place(k, [1][1..], 2);
  }

  lemma StealGive()
    ensures Give(Steal(1, 1, [], [0], Mutex(Some(0), [1, 2])), 0, 0) == Steal(0, 0, [0], [1], Mutex(None, [2]))
  {
    var k := Steal(1, 1, [], [0], Mutex(Some(0), [1, 2]));
    DropOnly(0, 1);
    DropOnly(1, 2);
    assert Disinherit(k, 0) == Steal(0, 0, [0], [], Mutex(Some(0), [1, 2])) by {
      assert Unlisted(k.ready, 0, 1) == [Queue([]), Queue([])];
      assert [] + [0] == [0];
      assert Enlisted([Queue([]), Queue([])], 0, 0) == [Queue([0]), Queue([])];
    }
    hide Disinherit;
    assert [] + [1] == [1];
    assert Enlisted([Queue([0]), Queue([])], 1, 1) == [Queue([0]), Queue([1])];
  }

  lemma StealReady(priority: nat, held: nat, low: seq<nat>, high: seq<nat>, mutex: Mutex)
    ensures forall t :: IsReady(Steal(priority, held, low, high, mutex), t) <==>
      (t == 0 && (if priority == 0 then 0 in low else priority == 1 && 0 in high)) || (1 <= t <= 2 && t in high)
  {
    var k := Steal(priority, held, low, high, mutex);
    assert forall t :: t in k.tasks <==> 0 <= t <= 2;
  }

  lemma StealBound(priority: nat, held: nat, low: seq<nat>, high: seq<nat>, mutex: Mutex)
    requires forall w :: w in mutex.waiting ==> w <= 2
    requires mutex.holder == None || (mutex.holder == Some(0) && (priority == 1 || mutex.waiting == []))
    ensures Bound(Steal(priority, held, low, high, mutex))
  {
  }

  function StealStart(): State {
    State(Steal(0, 0, [0], [], Mutex(None, [])), Phases3(Outside, Outside, Outside))
  }

  ghost predicate StealReaches(k: System, one: Phase, two: Phase) {
    Reaches(StealStart(), false, true, State(k, Phases3(Outside, one, two)))
  }

  lemma StealHolds()
    ensures StealReaches(Steal(0, 1, [0], [1], Mutex(Some(0), [])), Outside, Outside)
  {
    hide Reaches, IsReady, Enlisted;
    var s := StealStart();
    StealReady(0, 0, [0], [], Mutex(None, []));
    StealUnused();
    Starts(s, false, true);
    var k := Steal(0, 1, [0], [], Mutex(Some(0), []));
    assert Take(s.k, 0, 0) == k;
    StealBound(0, 1, [0], [], Mutex(Some(0), []));
    Takes(s, false, true, s, 0, 0, k);
    StealReady(0, 1, [0], [], Mutex(Some(0), []));
    StealEnlists(k, 1, 0, [0], [], Mutex(Some(0), []), 1);
    assert [] + [1] == [1];
    Wakes(s, false, true, s.(k := k), 1, Steal(0, 1, [0], [1], Mutex(Some(0), [])));
  }

  lemma StealWaits()
    ensures StealReaches(Steal(1, 1, [], [0, 2], Mutex(Some(0), [1])), Waiting(0, true), Outside)
  {
    hide Reaches, IsReady, Enlisted, Wait;
    var s, k := StealStart(), Steal(0, 1, [0], [1], Mutex(Some(0), []));
    StealHolds();
    StealReady(0, 1, [0], [1], Mutex(Some(0), []));
    StealFirstWait();
    var a := State(k, Phases3(Outside, Outside, Outside));
    var k' := Steal(1, 1, [], [0], Mutex(Some(0), [1]));
    StealBound(1, 1, [], [0], Mutex(Some(0), [1]));
    Waits(s, false, true, a, 1, 0, k');
    var b := State(k', Phases3(Outside, Waiting(0, true), Outside));
    assert Goes(a, 1, k', Waiting(0, true)) == b;
    StealReady(1, 1, [], [0], Mutex(Some(0), [1]));
    StealEnlists(k', 1, 1, [], [0], Mutex(Some(0), [1]), 2);
    assert [0] + [2] == [0, 2];
    Wakes(s, false, true, b, 2, Steal(1, 1, [], [0, 2], Mutex(Some(0), [1])));
  }

  lemma StealGives()
    ensures StealReaches(Steal(0, 0, [0], [1], Mutex(None, [2])), Trying(0, true), Waiting(0, true))
  {
    hide Reaches, IsReady, Enlisted, Wait, Give;
    var s, k := StealStart(), Steal(1, 1, [], [0, 2], Mutex(Some(0), [1]));
    StealWaits();
    StealReady(1, 1, [], [0, 2], Mutex(Some(0), [1]));
    StealSecondWait();
    var a := State(k, Phases3(Outside, Waiting(0, true), Outside));
    var k' := Steal(1, 1, [], [0], Mutex(Some(0), [1, 2]));
    StealBound(1, 1, [], [0], Mutex(Some(0), [1, 2]));
    Waits(s, false, true, a, 2, 0, k');
    var b := State(k', Phases3(Outside, Waiting(0, true), Waiting(0, true)));
    assert Goes(a, 2, k', Waiting(0, true)) == b;
    StealReady(1, 1, [], [0], Mutex(Some(0), [1, 2]));
    StealGive();
    var c := State(Steal(0, 0, [0], [1], Mutex(None, [2])), Phases3(Outside, Trying(0, true), Waiting(0, true)));
    assert Next(b, Release(0, 0)) == c;
    StealBound(0, 0, [0], [1], Mutex(None, [2]));
    Steps(s, false, true, b, Release(0, 0), c);
  }

  /** Without the first hypothesis: two equally urgent tasks wait, the giver wakes one of them and then,
      less urgent than both, takes the mutex again before the woken one retries. */
  lemma StealBreaksTheBound()
    ensures exists s, steps, t :: Unused(s) && Breaks(s, steps, false, true, Try(t, true))
  {
    hide Reaches, IsReady, Breaks, Filed;
    var s, k := StealStart(), Steal(0, 0, [0], [1], Mutex(None, [2]));
    StealGives();
    StealReady(0, 0, [0], [1], Mutex(None, [2]));
    var a := State(k, Phases3(Outside, Trying(0, true), Waiting(0, true)));
    assert Filed(k, 0) by {
      StealFiled();
    }
    Begins(s, false, true, a, 0, 0);
    var b := Goes(a, 0, k, Trying(0, false));
    var k' := Take(k, 0, 0);
    assert Next(b, Try(0, true)).k == k';
    assert 2 in k'.mutexes[0].waiting && k'.mutexes[0].holder == Some(0);
    assert Priority(k', 2) == 1 && Priority(k', 0) == 0;
    assert !Bound(k');
    var steps := StepBreaks(s, false, true, b, Try(0, true));
    StealUnused();
  }

  lemma StealFiled()
    ensures Filed(Steal(0, 0, [0], [1], Mutex(None, [2])), 0)
  {
  }

  lemma StealUnused()
    ensures Unused(StealStart())
  {
  }

  // Inheritance goes one holder far

  /** Tasks 0, 1 and 2 have base priorities 0, 1 and 2. */
  function Chain(p: nat, pHeld: nat, q: nat, qHeld: nat, low: seq<nat>, mid: seq<nat>, top: seq<nat>,
                 first: Mutex, second: Mutex): System {
    Three(Task(0, p, EventValue(3, p), pHeld), Task(1, q, EventValue(3, q), qHeld), Task(2, 2, 1, 0),
          [Queue(low), Queue(mid), Queue(top)], [first, second])
  }

  function ChainStart(): State {
    State(Chain(0, 0, 1, 0, [0], [], [], Mutex(None, []), Mutex(None, [])), Phases3(Outside, Outside, Outside))
  }

  ghost predicate ChainReaches(k: System, one: Phase, two: Phase) {
    Reaches(ChainStart(), true, false, State(k, Phases3(Outside, one, two)))
  }

  lemma ChainReady(p: nat, pHeld: nat, q: nat, qHeld: nat, low: seq<nat>, mid: seq<nat>, top: seq<nat>,
                   first: Mutex, second: Mutex)
    requires p <= 1 && 1 <= q <= 2
    ensures forall t :: IsReady(Chain(p, pHeld, q, qHeld, low, mid, top, first, second), t) <==>
      || (t == 0 && 0 in (if p == 0 then low else mid))
      || (t == 1 && 1 in (if q == 1 then mid else top))
      || (t == 2 && 2 in top)
  {
    var k := Chain(p, pHeld, q, qHeld, low, mid, top, first, second);
    assert forall t :: t in k.tasks <==> 0 <= t <= 2;
  }

  lemma ChainBound(p: nat, pHeld: nat, q: nat, qHeld: nat, low: seq<nat>, mid: seq<nat>, top: seq<nat>,
                   first: Mutex, second: Mutex)
    requires first.holder == None || first.holder == Some(0)
    requires first.waiting == [] || (first.waiting == [1] && q <= p)
    requires second.waiting == []
    ensures Bound(Chain(p, pHeld, q, qHeld, low, mid, top, first, second))
  {
  }

  lemma ChainFirstTake()
    ensures Take(ChainStart().k, 0, 0) == Chain(0, 1, 1, 0, [0], [], [], Mutex(Some(0), []), Mutex(None, []))
    ensures HighestReady(ChainStart().k, 0) && Filed(ChainStart().k, 0)
  {
  }

  lemma ChainHoldsFirst()
    ensures ChainReaches(Chain(0, 1, 1, 0, [0], [], [], Mutex(Some(0), []), Mutex(None, [])), Outside, Outside)
  {
    hide Reaches, IsReady, Bound, Take, HighestReady, Filed, Unused;
    var s := ChainStart();
    ChainReady(0, 0, 1, 0, [0], [], [], Mutex(None, []), Mutex(None, []));
    ChainUnused();
    Starts(s, true, false);
    ChainFirstTake();
    ChainBound(0, 1, 1, 0, [0], [], [], Mutex(Some(0), []), Mutex(None, []));
    Takes(s, true, false, s, 0, 0, Chain(0, 1, 1, 0, [0], [], [], Mutex(Some(0), []), Mutex(None, [])));
  }

  lemma ChainHolds()
    ensures ChainReaches(Chain(0, 1, 1, 1, [0], [1], [], Mutex(Some(0), []), Mutex(Some(1), [])), Outside, Outside)
  {
    hide Reaches, IsReady, Bound;
    ChainHoldsFirst();
    var s, k := ChainStart(), Chain(0, 1, 1, 0, [0], [], [], Mutex(Some(0), []), Mutex(None, []));
    ChainReady(0, 1, 1, 0, [0], [], [], Mutex(Some(0), []), Mutex(None, []));
    var k' := Chain(0, 1, 1, 0, [0], [1], [], Mutex(Some(0), []), Mutex(None, []));
    assert [] + [1] == [1];
    assert Enlisted(k.ready, 1, 1) == k'.ready;
    Wakes(s, true, false, s.(k := k), 1, k');
    ChainReady(0, 1, 1, 0, [0], [1], [], Mutex(Some(0), []), Mutex(None, []));
    var k'' := Chain(0, 1, 1, 1, [0], [1], [], Mutex(Some(0), []), Mutex(Some(1), []));
    assert Take(k', 1, 1) == k'';
    ChainBound(0, 1, 1, 1, [0], [1], [], Mutex(Some(0), []), Mutex(Some(1), []));
    Takes(s, true, false, s.(k := k'), 1, 1, k'');
  }

  lemma ChainFirstWait()
    ensures Wait(Chain(0, 1, 1, 1, [0], [1], [], Mutex(Some(0), []), Mutex(Some(1), [])), 1, 0)
         == Chain(1, 1, 1, 1, [], [0], [], Mutex(Some(0), [1]), Mutex(Some(1), []))
  {
    var k := Chain(0, 1, 1, 1, [0], [1], [], Mutex(Some(0), []), Mutex(Some(1), []));
    var raised := Chain(1, 1, 1, 1, [], [1, 0], [], Mutex(Some(0), []), Mutex(Some(1), []));
    DropOnly(0, 1);
    DropOnly(1, 0);
    assert Inherit(k, 0, 1) == raised by {
      assert Unlisted(k.ready, 0, 0) == [Queue([]), Queue([1]), Queue([])];
      assert [1] + [0] == [1, 0];
      assert Enlisted([Queue([]), Queue([1]), Queue([])], 0, 1) == raised.ready;
    }
    hide Inherit, SetPriority, IsReady;
    assert Unlisted(raised.ready, 1, 1) == [Queue([]), Queue([0]), Queue([])];
    assert Place(raised, [], 1) == [1];
  }

  lemma ChainSecondWait()
    ensures Wait(Chain(1, 1, 1, 1, [], [0], [2], Mutex(Some(0), [1]), Mutex(Some(1), [])), 2, 1)
         == Chain(1, 1, 2, 1, [], [0], [], Mutex(Some(0), [1]), Mutex(Some(1), [2]))
  {
    var k := Chain(1, 1, 1, 1, [], [0], [2], Mutex(Some(0), [1]), Mutex(Some(1), []));
    var raised := Chain(1, 1, 2, 1, [], [0], [2], Mutex(Some(0), [1]), Mutex(Some(1), []));
    DropOnly(2, 0);
    ChainReady(1, 1, 1, 1, [], [0], [2], Mutex(Some(0), [1]), Mutex(Some(1), []));
    assert Inherit(k, 1, 2) == raised;
    hide Inherit, SetPriority, IsReady;
    assert Unlisted(raised.ready, 2, 2) == [Queue([]), Queue([0]), Queue([])];
    assert Place(raised, [], 2) == [2];
  }

  lemma ChainWaits()
    ensures ChainReaches(Chain(1, 1, 1, 1, [], [0], [2], Mutex(Some(0), [1]), Mutex(Some(1), [])),
                         Waiting(0, true), Outside)
  {
    hide Reaches, IsReady, Wait;
    var s, k := ChainStart(), Chain(0, 1, 1, 1, [0], [1], [], Mutex(Some(0), []), Mutex(Some(1), []));
    ChainHolds();
    ChainReady(0, 1, 1, 1, [0], [1], [], Mutex(Some(0), []), Mutex(Some(1), []));
    ChainFirstWait();
    var a := State(k, Phases3(Outside, Outside, Outside));
    var k' := Chain(1, 1, 1, 1, [], [0], [], Mutex(Some(0), [1]), Mutex(Some(1), []));
    ChainBound(1, 1, 1, 1, [], [0], [], Mutex(Some(0), [1]), Mutex(Some(1), []));
    Waits(s, true, false, a, 1, 0, k');
    var b := State(k', Phases3(Outside, Waiting(0, true), Outside));
    assert Goes(a, 1, k', Waiting(0, true)) == b;
    ChainReady(1, 1, 1, 1, [], [0], [], Mutex(Some(0), [1]), Mutex(Some(1), []));
    var k'' := Chain(1, 1, 1, 1, [], [0], [2], Mutex(Some(0), [1]), Mutex(Some(1), []));
    assert [] + [2] == [2];
    assert Enlisted(k'.ready, 2, 2) == k''.ready;
    Wakes(s, true, false, b, 2, k'');
  }

  /** Without the second hypothesis: task 0 holds the first mutex, task 1 holds the second and waits for
      the first, and when task 2 waits for the second, task 1 inherits but task 0 does not, and holds
      up a task more urgent than itself. */
  lemma ChainBreaksTheBound()
    ensures exists s, steps, t :: Unused(s) && Breaks(s, steps, true, false, Check(t, false))
  {
    hide Reaches, IsReady, Breaks, Wait, Filed;
    var s, k := ChainStart(), Chain(1, 1, 1, 1, [], [0], [2], Mutex(Some(0), [1]), Mutex(Some(1), []));
    ChainWaits();
    ChainReady(1, 1, 1, 1, [], [0], [2], Mutex(Some(0), [1]), Mutex(Some(1), []));
    ChainSecondWait();
    var a := State(k, Phases3(Outside, Waiting(0, true), Outside));
    assert Filed(k, 2) by {
      ChainFiled();
    }
    Checks(s, true, false, a, 2, 1);
    var b := Goes(a, 2, k, Checking(1, false));
    var k' := Chain(1, 1, 2, 1, [], [0], [], Mutex(Some(0), [1]), Mutex(Some(1), [2]));
    assert Next(b, Check(2, false)).k == k';
    assert 1 in k'.mutexes[0].waiting && k'.mutexes[0].holder == Some(0);
    assert Priority(k', 1) == 2 && Priority(k', 0) == 1;
    assert !Bound(k');
    var steps := StepBreaks(s, true, false, b, Check(2, false));
    ChainUnused();
  }

  lemma ChainFiled()
    ensures Filed(Chain(1, 1, 1, 1, [], [0], [2], Mutex(Some(0), [1]), Mutex(Some(1), [])), 2)
  {
  }

  lemma ChainUnused()
    ensures Unused(ChainStart())
  {
  }

  // A list is not sorted again when a task on it inherits

  /** Tasks 0 to 4 have base priorities 0, 1, 0, 2 and 3; task 0 takes the first mutex and task 2 the
      second. */
  function Stale(p: nat, pHeld: nat, q: nat, qHeld: nat, ready: seq<Turns>, first: Mutex, second: Mutex): System {
    System(map[0 := Task(0, p, EventValue(4, p), pHeld), 1 := Task(1, 1, 3, 0),
               2 := Task(0, q, EventValue(4, q), qHeld), 3 := Task(2, 2, 2, 0), 4 := Task(3, 3, 1, 0)],
           ready, [first, second])
  }

  function Levels4(a: seq<nat>, b: seq<nat>, c: seq<nat>, d: seq<nat>): seq<Turns> {
    [Queue(a), Queue(b), Queue(c), Queue(d)]
  }

  function Phases5(one: Phase, two: Phase, three: Phase, four: Phase): map<nat, Phase> {
    map[0 := Outside, 1 := one, 2 := two, 3 := three, 4 := four]
  }

  function StaleStart(): State {
    State(Stale(0, 0, 0, 0, Levels4([0, 2], [], [], []), Mutex(None, []), Mutex(None, [])),
          Phases5(Outside, Outside, Outside, Outside))
  }

  lemma StaleHome()
    ensures AtHome(StaleStart().k)
  {
    var k := StaleStart().k;
    assert forall t :: t in k.tasks <==> 0 <= t <= 4;
    assert k.ready[1] == Queue([]) && k.ready[2] == Queue([]) && k.ready[3] == Queue([]);
  }

  lemma StaleUnused()
    ensures Unused(StaleStart())
  {
    StaleHome();
    assert |StaleStart().k.ready| == 4;
    hide AtHome, Levels4;
  }

  function Level(p: nat, a: seq<nat>, b: seq<nat>, c: seq<nat>, d: seq<nat>): seq<nat> {
    if p == 0 then a else if p == 1 then b else if p == 2 then c else d
  }

  lemma StaleReady(p: nat, pHeld: nat, q: nat, qHeld: nat, a: seq<nat>, b: seq<nat>, c: seq<nat>, d: seq<nat>,
                   first: Mutex, second: Mutex)
    requires p < 4 && q < 4
    ensures forall t :: IsReady(Stale(p, pHeld, q, qHeld, Levels4(a, b, c, d), first, second), t) <==>
      || (t == 0 && 0 in Level(p, a, b, c, d))
      || (t == 1 && 1 in b)
      || (t == 2 && 2 in Level(q, a, b, c, d))
      || (t == 3 && 3 in c)
      || (t == 4 && 4 in d)
  {
    var k := Stale(p, pHeld, q, qHeld, Levels4(a, b, c, d), first, second);
    assert forall t :: t in k.tasks <==> 0 <= t <= 4;
  }

  lemma StaleFiled(p: nat, pHeld: nat, q: nat, qHeld: nat, ready: seq<Turns>, first: Mutex, second: Mutex, t: nat)
    requires |ready| == 4 && t <= 4
    ensures Filed(Stale(p, pHeld, q, qHeld, ready, first, second), t)
  {
  }

  lemma StaleBound(p: nat, pHeld: nat, q: nat, qHeld: nat, ready: seq<Turns>, first: Mutex, second: Mutex)
    requires first.holder == None || first.holder == Some(0)
    requires first.waiting == [] || (p == 3 && q <= 3)
    requires second.waiting == [] || (second == Mutex(Some(2), [3]) && q == 2)
    ensures Bound(Stale(p, pHeld, q, qHeld, ready, first, second))
  {
  }

  ghost predicate StaleReaches(k: System, phase: map<nat, Phase>) {
    Reaches(StaleStart(), true, false, State(k, phase))
  }

  lemma StaleHighest(ready: seq<Turns>, pHeld: nat, first: Mutex, t: nat)
    requires ready == Levels4([0, 2], [], [], []) && (t == 0 || t == 2)
    ensures HighestReady(Stale(0, pHeld, 0, 0, ready, first, Mutex(None, [])), t)
  {
  }

  lemma StaleTakes()
    ensures Take(StaleStart().k, 0, 0) == Stale(0, 1, 0, 0, StaleStart().k.ready, Mutex(Some(0), []), Mutex(None, []))
    ensures Take(Stale(0, 1, 0, 0, StaleStart().k.ready, Mutex(Some(0), []), Mutex(None, [])), 2, 1)
         == Stale(0, 1, 0, 1, StaleStart().k.ready, Mutex(Some(0), []), Mutex(Some(2), []))
  {
  }

  lemma StaleHoldsFirst()
    ensures StaleReaches(Stale(0, 1, 0, 0, Levels4([0, 2], [], [], []), Mutex(Some(0), []), Mutex(None, [])),
                         Phases5(Outside, Outside, Outside, Outside))
  {
    hide Reaches, IsReady, Filed, Bound, HighestReady, Take, Unused;
    var s, ready := StaleStart(), Levels4([0, 2], [], [], []);
    StaleUnused();
    Starts(s, true, false);
    StaleTakes();
    StaleReady(0, 0, 0, 0, [0, 2], [], [], [], Mutex(None, []), Mutex(None, []));
    StaleFiled(0, 0, 0, 0, ready, Mutex(None, []), Mutex(None, []), 0);
    StaleHighest(ready, 0, Mutex(None, []), 0);
    var k := Stale(0, 1, 0, 0, ready, Mutex(Some(0), []), Mutex(None, []));
    StaleBound(0, 1, 0, 0, ready, Mutex(Some(0), []), Mutex(None, []));
    Takes(s, true, false, s, 0, 0, k);
  }

  lemma StaleHolds()
    ensures StaleReaches(Stale(0, 1, 0, 1, Levels4([0, 2], [], [], []), Mutex(Some(0), []), Mutex(Some(2), [])),
                         Phases5(Outside, Outside, Outside, Outside))
  {
    hide Reaches, IsReady, Filed, Bound, HighestReady, Take;
    var s, ready := StaleStart(), Levels4([0, 2], [], [], []);
    StaleHoldsFirst();
    StaleTakes();
    StaleReady(0, 1, 0, 0, [0, 2], [], [], [], Mutex(Some(0), []), Mutex(None, []));
    StaleFiled(0, 1, 0, 0, ready, Mutex(Some(0), []), Mutex(None, []), 2);
    StaleHighest(ready, 1, Mutex(Some(0), []), 2);
    var k := Stale(0, 1, 0, 0, ready, Mutex(Some(0), []), Mutex(None, []));
    var k' := Stale(0, 1, 0, 1, ready, Mutex(Some(0), []), Mutex(Some(2), []));
    StaleBound(0, 1, 0, 1, ready, Mutex(Some(0), []), Mutex(Some(2), []));
    Takes(s, true, false, s.(k := k), 2, 1, k');
  }

  lemma StaleFirstWait()
    ensures Wait(Stale(0, 1, 0, 1, Levels4([0, 2], [], [], [4]), Mutex(Some(0), []), Mutex(Some(2), [])), 4, 0)
         == Stale(3, 1, 0, 1, Levels4([2], [], [], [0]), Mutex(Some(0), [4]), Mutex(Some(2), []))
  {
    var k := Stale(0, 1, 0, 1, Levels4([0, 2], [], [], [4]), Mutex(Some(0), []), Mutex(Some(2), []));
    var raised := Stale(3, 1, 0, 1, Levels4([2], [], [], [4, 0]), Mutex(Some(0), []), Mutex(Some(2), []));
    DropOnly(0, 2);
    DropOnly(4, 0);
    assert Inherit(k, 0, 3) == raised by {
      assert Unlisted(k.ready, 0, 0) == Levels4([2], [], [], [4]);
      assert [4] + [0] == [4, 0];
      assert Enlisted(Levels4([2], [], [], [4]), 0, 3) == raised.ready;
    }
    hide Inherit, SetPriority, IsReady;
    assert Unlisted(raised.ready, 4, 3) == Levels4([2], [], [], [0]);
    assert Place(raised, [], 4) == [4];
  }

  lemma StaleSecondWait()
    ensures Wait(Stale(3, 1, 0, 1, Levels4([2], [1], [], [0]), Mutex(Some(0), [4]), Mutex(Some(2), [])), 1, 0)
         == Stale(3, 1, 0, 1, Levels4([2], [], [], [0]), Mutex(Some(0), [4, 1]), Mutex(Some(2), []))
  {
    var k := Stale(3, 1, 0, 1, Levels4([2], [1], [], [0]), Mutex(Some(0), [4]), Mutex(Some(2), []));
    DropOnly(1, 0);
    assert Inherit(k, 0, 1) == k;
    hide Inherit, SetPriority, IsReady;
    assert Unlisted(k.ready, 1, 1) == Levels4([2], [], [], [0]);
    assert [4][1..] == [] && [4] + [1] == [4, 1];
    assert Place(k, [], 1) == [1] && Place(k, [4], 1) == [4] + Place(k, [4][1..], 1);
  }

  lemma StaleThirdWait()
    ensures Wait(Stale(3, 1, 0, 1, Levels4([2], [], [], [0]), Mutex(Some(0), [4, 1]), Mutex(Some(2), [])), 2, 0)
         == Stale(3, 1, 0, 1, Levels4([], [], [], [0]), Mutex(Some(0), [4, 1, 2]), Mutex(Some(2), []))
  {
    var k := Stale(3, 1, 0, 1, Levels4([2], [], [], [0]), Mutex(Some(0), [4, 1]), Mutex(Some(2), []));
    DropOnly(2, 0);
    assert Inherit(k, 0, 0) == k;
    hide Inherit, SetPriority, IsReady;
    assert Unlisted(k.ready, 2, 0) == Levels4([], [], [], [0]);
    assert [1][1..] == [] && [4, 1][1..] == [1] && [4] + [1, 2] == [4, 1, 2] && [1] + [2] == [1, 2];
    assert Place(k, [], 2) == [2];
    assert Place(k, [1], 2) == [1] + Place(k, [1][1..], 2);
    assert Place(k, [4, 1], 2) == [4] + Place(k, [4, 1][1..], 2);
  }

  lemma StaleFourthWait()
    ensures Wait(Stale(3, 1, 0, 1, Levels4([], [], [3], [0]), Mutex(Some(0), [4, 1, 2]), Mutex(Some(2), [])), 3, 1)
         == Stale(3, 1, 2, 1, Levels4([], [], [], [0]), Mutex(Some(0), [4, 1, 2]), Mutex(Some(2), [3]))
  {
    var k := Stale(3, 1, 0, 1, Levels4([], [], [3], [0]), Mutex(Some(0), [4, 1, 2]), Mutex(Some(2), []));
    var raised := Stale(3, 1, 2, 1, Levels4([], [], [3], [0]), Mutex(Some(0), [4, 1, 2]), Mutex(Some(2), []));
    DropOnly(3, 0);
    StaleReady(3, 1, 0, 1, [], [], [3], [0], Mutex(Some(0), [4, 1, 2]), Mutex(Some(2), []));
    assert Inherit(k, 2, 2) == raised;
    hide Inherit, SetPriority, IsReady;
    assert Unlisted(raised.ready, 3, 2) == Levels4([], [], [], [0]);
    assert Place(raised, [], 3) == [3];
  }

  lemma StaleTimeout()
    ensures Wake(Stale(3, 1, 2, 1, Levels4([], [], [], [0]), Mutex(Some(0), [4, 1, 2]), Mutex(Some(2), [3])), 4, 0)
         == Stale(3, 1, 2, 1, Levels4([], [], [], [0, 4]), Mutex(Some(0), [1, 2]), Mutex(Some(2), [3]))
  {
    var k := Stale(3, 1, 2, 1, Levels4([], [], [], [0]), Mutex(Some(0), [4, 1, 2]), Mutex(Some(2), [3]));
    assert [4, 1, 2][1..] == [1, 2] && [1, 2][1..] == [2] && [2][1..] == [];
    assert Drop([2], 4) == [2] && Drop([1, 2], 4) == [1] + Drop([1, 2][1..], 4) && [1] + [2] == [1, 2];
    assert Drop([4, 1, 2], 4) == [1, 2];
    assert [0] + [4] == [0, 4];
    assert Enlisted(k.ready, 4, 3) == Levels4([], [], [], [0, 4]);
  }

  lemma StaleLower()
    ensures Lower(Stale(3, 1, 2, 1, Levels4([], [], [], [0, 4]), Mutex(Some(0), [1, 2]), Mutex(Some(2), [3])), 0)
         == Stale(1, 1, 2, 1, Levels4([], [0], [], [4]), Mutex(Some(0), [1, 2]), Mutex(Some(2), [3]))
  {
    var k := Stale(3, 1, 2, 1, Levels4([], [], [], [0, 4]), Mutex(Some(0), [1, 2]), Mutex(Some(2), [3]));
    DropOnly(0, 4);
    assert WaitingPriority(k, 0) == 1;
    StaleReady(3, 1, 2, 1, [], [], [], [0, 4], Mutex(Some(0), [1, 2]), Mutex(Some(2), [3]));
    hide IsReady;
    assert Unlisted(k.ready, 0, 3) == Levels4([], [], [], [4]);
    assert [] + [0] == [0];
    assert Enlisted(Levels4([], [], [], [4]), 0, 1) == Levels4([], [0], [], [4]);
  }

  lemma StaleEnlists(p: nat, ready: seq<Turns>, first: Mutex, t: nat, ready': seq<Turns>)
    requires ready' == Enlisted(ready, t, if t == 1 then 1 else if t == 3 then 2 else 3) && t in {1, 3, 4}
    ensures var k := Stale(p, 1, 0, 1, ready, first, Mutex(Some(2), []));
            k.(ready := Enlisted(k.ready, t, Priority(k, t))) == Stale(p, 1, 0, 1, ready', first, Mutex(Some(2), []))
  {
  }

  lemma EnlistOnly()
    ensures Enlisted(Levels4([0, 2], [], [], []), 4, 3) == Levels4([0, 2], [], [], [4])
    ensures Enlisted(Levels4([2], [], [], [0]), 1, 1) == Levels4([2], [1], [], [0])
    ensures Enlisted(Levels4([], [], [], [0]), 3, 2) == Levels4([], [], [3], [0])
  {
    assert [] + [4] == [4] && [] + [1] == [1] && [] + [3] == [3];
  }

  lemma StaleFirst()
    ensures StaleReaches(Stale(3, 1, 0, 1, Levels4([2], [], [], [0]), Mutex(Some(0), [4]), Mutex(Some(2), [])),
                         Phases5(Outside, Outside, Outside, Waiting(0, true)))
  {
    hide Reaches, IsReady, Filed, Bound, Wait, Enlisted;
    var s, m1 := StaleStart(), Mutex(Some(2), []);
    StaleHolds();
    var k := Stale(0, 1, 0, 1, Levels4([0, 2], [], [], []), Mutex(Some(0), []), m1);
    var k1 := Stale(0, 1, 0, 1, Levels4([0, 2], [], [], [4]), Mutex(Some(0), []), m1);
    var k2 := Stale(3, 1, 0, 1, Levels4([2], [], [], [0]), Mutex(Some(0), [4]), m1);
    var a := State(k, Phases5(Outside, Outside, Outside, Outside));
    StaleReady(0, 1, 0, 1, [0, 2], [], [], [], Mutex(Some(0), []), m1);
    EnlistOnly();
    StaleEnlists(0, k.ready, Mutex(Some(0), []), 4, k1.ready);
    Wakes(s, true, false, a, 4, k1);
    StaleReady(0, 1, 0, 1, [0, 2], [], [], [4], Mutex(Some(0), []), m1);
    StaleFiled(0, 1, 0, 1, k1.ready, Mutex(Some(0), []), m1, 4);
    StaleBound(3, 1, 0, 1, k2.ready, Mutex(Some(0), [4]), m1);
    StaleFirstWait();
    Waits(s, true, false, a.(k := k1), 4, 0, k2);
    assert Goes(a, 4, k2, Waiting(0, true)) == State(k2, Phases5(Outside, Outside, Outside, Waiting(0, true)));
  }

  lemma StaleSecond()
    ensures StaleReaches(Stale(3, 1, 0, 1, Levels4([2], [], [], [0]), Mutex(Some(0), [4, 1]), Mutex(Some(2), [])),
                         Phases5(Waiting(0, true), Outside, Outside, Waiting(0, true)))
  {
    hide Reaches, IsReady, Filed, Bound, Wait, Enlisted;
    var s, m1 := StaleStart(), Mutex(Some(2), []);
    StaleFirst();
    var k := Stale(3, 1, 0, 1, Levels4([2], [], [], [0]), Mutex(Some(0), [4]), m1);
    var k1 := Stale(3, 1, 0, 1, Levels4([2], [1], [], [0]), Mutex(Some(0), [4]), m1);
    var k2 := Stale(3, 1, 0, 1, Levels4([2], [], [], [0]), Mutex(Some(0), [4, 1]), m1);
    var a := State(k, Phases5(Outside, Outside, Outside, Waiting(0, true)));
    StaleReady(3, 1, 0, 1, [2], [], [], [0], Mutex(Some(0), [4]), m1);
    EnlistOnly();
    StaleEnlists(3, k.ready, Mutex(Some(0), [4]), 1, k1.ready);
    Wakes(s, true, false, a, 1, k1);
    StaleReady(3, 1, 0, 1, [2], [1], [], [0], Mutex(Some(0), [4]), m1);
    StaleFiled(3, 1, 0, 1, k1.ready, Mutex(Some(0), [4]), m1, 1);
    StaleBound(3, 1, 0, 1, k2.ready, Mutex(Some(0), [4, 1]), m1);
    StaleSecondWait();
    Waits(s, true, false, a.(k := k1), 1, 0, k2);
    assert Goes(a, 1, k2, Waiting(0, true)) == State(k2, Phases5(Waiting(0, true), Outside, Outside, Waiting(0, true)));
  }

  lemma StaleThird()
    ensures StaleReaches(Stale(3, 1, 0, 1, Levels4([], [], [], [0]), Mutex(Some(0), [4, 1, 2]), Mutex(Some(2), [])),
                         Phases5(Waiting(0, true), Waiting(0, false), Outside, Waiting(0, true)))
  {
    hide Reaches, IsReady, Filed, Bound, Wait;
    var s, m1 := StaleStart(), Mutex(Some(2), []);
    StaleSecond();
    var k := Stale(3, 1, 0, 1, Levels4([2], [], [], [0]), Mutex(Some(0), [4, 1]), m1);
    var k' := Stale(3, 1, 0, 1, Levels4([], [], [], [0]), Mutex(Some(0), [4, 1, 2]), m1);
    var a := State(k, Phases5(Waiting(0, true), Outside, Outside, Waiting(0, true)));
    StaleReady(3, 1, 0, 1, [2], [], [], [0], Mutex(Some(0), [4, 1]), m1);
    StaleFiled(3, 1, 0, 1, k.ready, Mutex(Some(0), [4, 1]), m1, 2);
    StaleBound(3, 1, 0, 1, k'.ready, Mutex(Some(0), [4, 1, 2]), m1);
    StaleThirdWait();
    Waits(s, true, false, a, 2, 0, k');
    assert Goes(a, 2, k', Waiting(0, false))
        == State(k', Phases5(Waiting(0, true), Waiting(0, false), Outside, Waiting(0, true)));
  }

  lemma StaleFourth()
    ensures StaleReaches(Stale(3, 1, 2, 1, Levels4([], [], [], [0]), Mutex(Some(0), [4, 1, 2]), Mutex(Some(2), [3])),
                         Phases5(Waiting(0, true), Waiting(0, false), Waiting(1, true), Waiting(0, true)))
  {
    hide Reaches, IsReady, Filed, Bound, Wait, Enlisted;
    var s, m0, m1 := StaleStart(), Mutex(Some(0), [4, 1, 2]), Mutex(Some(2), []);
    StaleThird();
    var k := Stale(3, 1, 0, 1, Levels4([], [], [], [0]), m0, m1);
    var k1 := Stale(3, 1, 0, 1, Levels4([], [], [3], [0]), m0, m1);
    var k2 := Stale(3, 1, 2, 1, Levels4([], [], [], [0]), m0, Mutex(Some(2), [3]));
    var a := State(k, Phases5(Waiting(0, true), Waiting(0, false), Outside, Waiting(0, true)));
    StaleReady(3, 1, 0, 1, [], [], [], [0], m0, m1);
    EnlistOnly();
    StaleEnlists(3, k.ready, m0, 3, k1.ready);
    Wakes(s, true, false, a, 3, k1);
    StaleReady(3, 1, 0, 1, [], [], [3], [0], m0, m1);
    StaleFiled(3, 1, 0, 1, k1.ready, m0, m1, 3);
    StaleBound(3, 1, 2, 1, k2.ready, m0, Mutex(Some(2), [3]));
    StaleFourthWait();
    Waits(s, true, false, a.(k := k1), 3, 1, k2);
    assert Goes(a, 3, k2, Waiting(1, true))
        == State(k2, Phases5(Waiting(0, true), Waiting(0, false), Waiting(1, true), Waiting(0, true)));
  }

  lemma StaleExpires()
    ensures StaleReaches(Stale(3, 1, 2, 1, Levels4([], [], [], [0, 4]), Mutex(Some(0), [1, 2]), Mutex(Some(2), [3])),
                         Phases5(Waiting(0, true), Waiting(0, false), Waiting(1, true), Lowering(0)))
  {
    hide Reaches, IsReady, Filed, Bound, Wake;
    var s, m1 := StaleStart(), Mutex(Some(2), [3]);
    StaleFourth();
    var k := Stale(3, 1, 2, 1, Levels4([], [], [], [0]), Mutex(Some(0), [4, 1, 2]), m1);
    var k' := Stale(3, 1, 2, 1, Levels4([], [], [], [0, 4]), Mutex(Some(0), [1, 2]), m1);
    var a := State(k, Phases5(Waiting(0, true), Waiting(0, false), Waiting(1, true), Waiting(0, true)));
    var b := State(k', Phases5(Waiting(0, true), Waiting(0, false), Waiting(1, true), Trying(0, true)));
    StaleTimeout();
    assert Goes(a, 4, k', Trying(0, true)) == b;
    StaleBound(3, 1, 2, 1, k'.ready, Mutex(Some(0), [1, 2]), m1);
    Steps(s, true, false, a, Timeout(4), b);
    StaleReady(3, 1, 2, 1, [], [], [], [0, 4], Mutex(Some(0), [1, 2]), m1);
    GivesUp(s, true, false, b, 4, 0);
    assert Goes(b, 4, k', Lowering(0))
        == State(k', Phases5(Waiting(0, true), Waiting(0, false), Waiting(1, true), Lowering(0)));
  }

  /** Without the second hypothesis a lowering can break the bound as well: task 2 holds the second mutex
      while it waits for the first, behind task 1, and inherits above task 1 where it stands; when task
      4 gives up, task 0 goes down to the priority of task 1. */
  lemma StaleHeadBreaksTheBound()
    ensures exists s, steps, t :: Unused(s) && Breaks(s, steps, true, false, LowerHolder(t))
  {
    hide Reaches, IsReady, Breaks, Lower;
    var s, m0, m1 := StaleStart(), Mutex(Some(0), [1, 2]), Mutex(Some(2), [3]);
    StaleExpires();
    var k := Stale(3, 1, 2, 1, Levels4([], [], [], [0, 4]), m0, m1);
    var k' := Stale(1, 1, 2, 1, Levels4([], [0], [], [4]), m0, m1);
    var a := State(k, Phases5(Waiting(0, true), Waiting(0, false), Waiting(1, true), Lowering(0)));
    StaleReady(3, 1, 2, 1, [], [], [], [0, 4], m0, m1);
    StaleLower();
    assert Next(a, LowerHolder(4)).k == k';
    assert 2 in k'.mutexes[0].waiting && k'.mutexes[0].holder == Some(0);
    assert Priority(k', 2) == 2 && Priority(k', 0) == 1;
    assert !Bound(k');
    var steps := StepBreaks(s, true, false, a, LowerHolder(4));
    StaleUnused();
  }
}
