/** Tasks taking and giving mutexes, interleaved between the critical sections of the take, with
    time-outs, sleeps and waits for event groups: what holds over every run. */
module MutexProtocol {
  import opened EventValues
  import opened Options
  import opened SchedulerSpec
  import opened MutexSections

  /** Where a task stands in xQueueSemaphoreTake.  `inherited` is its local record of whether the
      holder inherited when it last started to wait. */
  datatype Phase =
    | Outside
    | Trying(m: nat, inherited: bool)
    | Checking(m: nat, inherited: bool)
    | Waiting(m: nat, inherited: bool)
    | Expired(m: nat, inherited: bool)
    | Lowering(m: nat)

  datatype State = State(k: System, phase: map<nat, Phase>)

  /** One atomic step.  `blocks` says whether the task has block time left, `expired` whether that
      time has run out; `Enter` and `Leave` are a wait for an event group, which keeps `data` in the
      event list item of the task until that runs again. */
  datatype Step =
    | Begin(t: nat, m: nat)
    | Try(t: nat, blocks: bool)
    | Check(t: nat, expired: bool)
    | Recheck(t: nat)
    | LowerHolder(t: nat)
    | Release(t: nat, m: nat)
    | Timeout(t: nat)
    | Sleep(t: nat)
    | Awake(t: nat)
    | Enter(t: nat, data: nat)
    | Leave(t: nat)
    | Turn(p: nat)

  function At(s: State, t: nat): Phase {
    if t in s.phase then s.phase[t] else Outside
  }

  ghost predicate HoldsNone(k: System, t: nat) {
    t in k.tasks && k.tasks[t].held == 0
  }

  /** The event list item is filed under the priority of the task. */
  ghost predicate Filed(k: System, t: nat) {
    t in k.tasks && k.tasks[t].value == EventValue(|k.ready|, k.tasks[t].priority)
  }

  /** Only ready tasks run, and only the holder gives a mutex.  A task coming back from an event group
      resets its event list item before it does anything else. */
  ghost predicate Enabled(s: State, step: Step) {
    match step
    case Begin(t, m) => IsReady(s.k, t) && At(s, t).Outside? && Filed(s.k, t) && m < |s.k.mutexes|
    case Try(t, _) => IsReady(s.k, t) && At(s, t).Trying? && At(s, t).m < |s.k.mutexes|
    case Check(t, _) => IsReady(s.k, t) && At(s, t).Checking? && At(s, t).m < |s.k.mutexes|
    case Recheck(t) => IsReady(s.k, t) && At(s, t).Expired? && At(s, t).m < |s.k.mutexes|
    case LowerHolder(t) => IsReady(s.k, t) && At(s, t).Lowering? && At(s, t).m < |s.k.mutexes|
    case Release(t, m) =>
      IsReady(s.k, t) && At(s, t).Outside? && m < |s.k.mutexes| && s.k.mutexes[m].holder == Some(t)
    case Timeout(t) => t in s.k.tasks && At(s, t).Waiting? && At(s, t).m < |s.k.mutexes|
    case Sleep(t) => IsReady(s.k, t) && At(s, t).Outside?
    case Awake(t) => t in s.k.tasks && !IsReady(s.k, t) && At(s, t).Outside?
    case Enter(t, _) => IsReady(s.k, t) && At(s, t).Outside?
    case Leave(t) => IsReady(s.k, t) && At(s, t).Outside?
    case Turn(p) => p < |s.k.ready| && !Empty(s.k.ready[p])
  }

  function Goes(s: State, t: nat, k: System, phase: Phase): State {
    State(k, s.phase[t := phase])
  }

  function Next(s: State, step: Step): State
    requires Enabled(s, step)
  {
    var k := s.k;
    match step
    case Begin(t, m) => Goes(s, t, k, Trying(m, false))
    case Try(t, blocks) =>
      var Trying(m, inherited) := At(s, t);
      if k.mutexes[m].holder.None? then Goes(s, t, Take(k, t, m), Outside)
      else Goes(s, t, k, if blocks then Checking(m, inherited) else Outside)
    case Check(t, expired) =>
      var Checking(m, inherited) := At(s, t);
      if expired then Goes(s, t, k, Expired(m, inherited))
      else if k.mutexes[m].holder.None? then Goes(s, t, k, Trying(m, inherited))
      else if k.mutexes[m].holder.value in k.tasks then
        Goes(s, t, Wait(k, t, m), Waiting(m, Inherits(k, k.mutexes[m].holder.value, k.tasks[t].priority)))
      else s
    case Recheck(t) =>
      var Expired(m, inherited) := At(s, t);
      if k.mutexes[m].holder.None? then Goes(s, t, k, Trying(m, inherited))
      else Goes(s, t, k, if inherited then Lowering(m) else Outside)
    case LowerHolder(t) => Goes(s, t, Lower(k, At(s, t).m), Outside)
    case Release(t, m) =>
      if k.tasks[t].held == 0 then s
      else if k.mutexes[m].waiting == [] then s.(k := Give(k, t, m))
      else
        var head := k.mutexes[m].waiting[0];
        Goes(s, head, Give(k, t, m), Trying(m, At(s, head).Waiting? && At(s, head).inherited))
    case Timeout(t) =>
      var Waiting(m, inherited) := At(s, t);
      Goes(s, t, Wake(k, t, m), Trying(m, inherited))
    case Sleep(t) => s.(k := k.(ready := Unlisted(k.ready, t, Priority(k, t))))
    case Awake(t) => s.(k := k.(ready := Enlisted(k.ready, t, Priority(k, t))))
    case Enter(t, data) => s.(k := Borrow(k, t, data))
    case Leave(t) => s.(k := ResetValue(k, t))
    case Turn(p) => s.(k := k.(ready := k.ready[p := NextTurn(k.ready[p]).1]))
  }

  ghost predicate IsRun(s: State, steps: seq<Step>)
    decreases |steps|
  {
    steps == [] || (Enabled(s, steps[0]) && IsRun(Next(s, steps[0]), steps[1..]))
  }

  function Run(s: State, steps: seq<Step>): State
    requires IsRun(s, steps)
    decreases |steps|
  {
    if steps == [] then s else Run(Next(s, steps[0]), steps[1..])
  }

  // What holds over every run

  /** How many mutexes name the task as their holder. */
  function Holds(mutexes: seq<Mutex>, t: nat): nat {
    if mutexes == [] then 0
    else (if mutexes[0].holder == Some(t) then 1 else 0) + Holds(mutexes[1..], t)
  }

  ghost predicate Accounts(k: System) {
    && (forall t :: t in k.tasks ==> k.tasks[t].held == Holds(k.mutexes, t))
    && (forall m :: 0 <= m < |k.mutexes| && k.mutexes[m].holder.Some? ==> k.mutexes[m].holder.value in k.tasks)
  }

  /** A task runs at its base priority unless it holds a mutex, and never below; its event list item
      is filed under its priority, unless an event group uses it. */
  ghost predicate LevelOk(task: Task, levels: nat) {
    && task.base <= task.priority < levels < IN_USE
    && (task.value == EventValue(levels, task.priority) || InUse(task.value))
    && (task.held == 0 ==> task.priority == task.base)
  }

  ghost predicate Levels(k: System) {
    forall t :: t in k.tasks ==> LevelOk(k.tasks[t], |k.ready|)
  }

  /** A task on the ready list of a priority has that priority. */
  ghost predicate AtHome(k: System) {
    forall p, t :: 0 <= p < |k.ready| && OnTurns(k.ready[p], t) ==> t in k.tasks && k.tasks[t].priority == p
  }

  /** Waiting tasks are listed once each. */
  ghost predicate ListOk(k: System, l: seq<nat>) {
    && (forall w :: w in l ==> w in k.tasks)
    && (forall i, j :: 0 <= i < j < |l| ==> l[i] != l[j])
  }

  ghost predicate Lists(k: System) {
    forall m :: 0 <= m < |k.mutexes| ==> ListOk(k, k.mutexes[m].waiting)
  }

  /** A task in the take is ready, or else blocked on the list of its mutex; its event list item is
      not in use. */
  ghost predicate PhaseOk(s: State, t: nat) {
    var phase := At(s, t);
    phase.Outside? ||
      (&& phase.m < |s.k.mutexes| && Filed(s.k, t)
       && (if phase.Waiting? then t in s.k.mutexes[phase.m].waiting && !IsReady(s.k, t) else IsReady(s.k, t)))
  }

  ghost predicate Phases(s: State) {
    && s.phase.Keys == s.k.tasks.Keys
    && (forall t :: t in s.phase ==> PhaseOk(s, t))
    && (forall m, w :: 0 <= m < |s.k.mutexes| && w in s.k.mutexes[m].waiting ==>
          At(s, w).Waiting? && At(s, w).m == m)
  }

  ghost predicate Sound(s: State) {
    Accounts(s.k) && Levels(s.k) && AtHome(s.k) && Lists(s.k) && Phases(s)
  }

  // Ready lists

  lemma DropTurnMembers(l: Turns, t: nat)
    ensures forall x :: OnTurns(DropTurn(l, t), x) <==> OnTurns(l, x) && x != t
  {
    DropMembers(l.passed, t);
    DropMembers(l.ahead, t);
  }

  lemma EnlistedMembers(ready: seq<Turns>, t: nat, p: nat)
    requires p < |ready|
    ensures forall q, x :: 0 <= q < |ready| ==>
      (OnTurns(Enlisted(ready, t, p)[q], x) <==> OnTurns(ready[q], x) || (q == p && x == t))
  {
    AddTurnMembers(ready[p], t);
  }

  lemma UnlistedMembers(ready: seq<Turns>, t: nat, p: nat)
    requires p < |ready|
    ensures forall q, x :: 0 <= q < |ready| ==>
      (OnTurns(Unlisted(ready, t, p)[q], x) <==> OnTurns(ready[q], x) && !(q == p && x == t))
  {
    DropTurnMembers(ready[p], t);
  }

  /** A change of priority keeps every task on the list where it belongs, and readiness as it was. */
  lemma PriorityMoves(k: System, t: nat, p: nat)
    requires t in k.tasks && AtHome(k) && p < |k.ready| && k.tasks[t].priority < |k.ready|
    ensures var k' := SetPriority(k, t, p);
            && AtHome(k') && |k'.ready| == |k.ready|
            && (forall x :: IsReady(k', x) <==> IsReady(k, x))
            && (forall x :: x != t ==> Priority(k', x) == Priority(k, x))
            && Priority(k', t) == p
  {
    hide DropTurn, AddTurn;
    if IsReady(k, t) {
      var from := k.tasks[t].priority;
      UnlistedMembers(k.ready, t, from);
      EnlistedMembers(Unlisted(k.ready, t, from), t, p);
    }
  }

  /** What a change of priority leaves alone. */
  lemma PriorityFrame(k: System, t: nat, p: nat)
    requires t in k.tasks
    ensures var k' := SetPriority(k, t, p);
            && k'.mutexes == k.mutexes && k'.tasks.Keys == k.tasks.Keys && |k'.ready| == |k.ready|
            && (forall x :: x in k.tasks ==> k'.tasks[x].held == k.tasks[x].held)
            && (forall x :: x in k.tasks && x != t ==> k'.tasks[x] == k.tasks[x])
            && k'.tasks[t].base == k.tasks[t].base && k'.tasks[t].priority == p
            && k'.tasks[t].value == if InUse(k.tasks[t].value) then k.tasks[t].value else EventValue(|k.ready|, p)
  {
    hide IsReady;
  }

  // Counting

  lemma {:induction false} HoldsUpdate(mutexes: seq<Mutex>, m: nat, x: Mutex, t: nat)
    requires m < |mutexes|
    ensures Holds(mutexes[m := x], t) + (if mutexes[m].holder == Some(t) then 1 else 0)
         == Holds(mutexes, t) + (if x.holder == Some(t) then 1 else 0)
  {
    if m == 0 {
      assert mutexes[m := x][1..] == mutexes[1..];
    } else {
      assert mutexes[m := x][1..] == mutexes[1..][m - 1 := x];
      HoldsUpdate(mutexes[1..], m - 1, x, t);
    }
  }

  lemma {:induction false} HolderHolds(mutexes: seq<Mutex>, m: nat, t: nat)
    requires m < |mutexes| && mutexes[m].holder == Some(t)
    ensures Holds(mutexes, t) > 0
  {
    if m > 0 {
      HolderHolds(mutexes[1..], m - 1, t);
    }
  }

  lemma {:induction false} HoldsOne(mutexes: seq<Mutex>, m: nat, n: nat, t: nat)
    requires m < |mutexes| && n < |mutexes| && m != n
    requires mutexes[m].holder == Some(t) && mutexes[n].holder == Some(t)
    ensures Holds(mutexes, t) >= 2
  {
    if m == 0 {
      HolderHolds(mutexes[1..], n - 1, t);
    } else if n == 0 {
      HolderHolds(mutexes[1..], m - 1, t);
    } else {
      HoldsOne(mutexes[1..], m - 1, n - 1, t);
    }
  }

  // Frames

  lemma NotListed(s: State, t: nat)
    requires Phases(s) && !At(s, t).Waiting?
    ensures forall m :: 0 <= m < |s.k.mutexes| ==> t !in s.k.mutexes[m].waiting
  {
  }

  /** The phases fit as long as lists, readiness and filing stay. */
  lemma SamePhases(s: State, s': State)
    requires Phases(s) && s'.phase == s.phase && |s'.k.mutexes| == |s.k.mutexes|
    requires forall m :: 0 <= m < |s.k.mutexes| ==> s'.k.mutexes[m].waiting == s.k.mutexes[m].waiting
    requires s'.k.tasks.Keys == s.k.tasks.Keys
    requires forall t :: !At(s, t).Outside? ==> (IsReady(s'.k, t) <==> IsReady(s.k, t))
    requires forall t :: !At(s, t).Outside? && Filed(s.k, t) ==> Filed(s'.k, t)
    ensures Phases(s')
  {
    hide IsReady, Filed;
    assert forall t :: At(s', t) == At(s, t);
    forall t | t in s'.phase
      ensures PhaseOk(s', t)
    {
      assert PhaseOk(s, t);
    }
    assert s'.phase.Keys == s'.k.tasks.Keys;
    forall m, w | 0 <= m < |s'.k.mutexes| && w in s'.k.mutexes[m].waiting
      ensures At(s', w).Waiting? && At(s', w).m == m
    {
      assert w in s.k.mutexes[m].waiting;
    }
  }

  lemma SameLists(k: System, k': System)
    requires Lists(k) && |k'.mutexes| == |k.mutexes| && k'.tasks.Keys == k.tasks.Keys
    requires forall m :: 0 <= m < |k.mutexes| ==> k'.mutexes[m].waiting == k.mutexes[m].waiting
    ensures Lists(k')
  {
    forall m | 0 <= m < |k'.mutexes|
      ensures ListOk(k', k'.mutexes[m].waiting)
    {
      assert ListOk(k, k.mutexes[m].waiting);
    }
  }

  /** Replacing a mutex by one with the same holder leaves the accounts alone. */
  lemma SameAccounts(k: System, m: nat, x: Mutex)
    requires Accounts(k) && m < |k.mutexes| && x.holder == k.mutexes[m].holder
    ensures Accounts(k.(mutexes := k.mutexes[m := x]))
  {
    hide Holds;
    forall t | t in k.tasks
      ensures k.tasks[t].held == Holds(k.mutexes[m := x], t)
    {
      HoldsUpdate(k.mutexes, m, x, t);
    }
  }

  lemma ReadyKnown(k: System, t: nat)
    requires IsReady(k, t)
    ensures t in k.tasks
  {
  }

  // Changes of priority

  lemma SoundSetPriority(s: State, h: nat, p: nat)
    requires Sound(s) && h in s.k.tasks && s.k.tasks[h].held > 0 && s.k.tasks[h].base <= p < |s.k.ready|
    ensures Sound(s.(k := SetPriority(s.k, h, p)))
  {
    hide Holds, IsReady, OnTurns, AtHome, SetPriority, Lists, Phases;
    var s' := s.(k := SetPriority(s.k, h, p));
    assert LevelOk(s.k.tasks[h], |s.k.ready|);
    PriorityMoves(s.k, h, p);
    PriorityFrame(s.k, h, p);
    SamePhases(s, s');
    SameLists(s.k, s'.k);
    assert forall t :: t in s.k.tasks ==> LevelOk(s.k.tasks[t], |s.k.ready|);
  }

  lemma InheritFrame(k: System, h: nat, p: nat)
    requires h in k.tasks && AtHome(k) && p < |k.ready| && k.tasks[h].priority < |k.ready|
    ensures var k' := Inherit(k, h, p);
            && k'.mutexes == k.mutexes && |k'.ready| == |k.ready| && k'.tasks.Keys == k.tasks.Keys
            && (forall x :: IsReady(k', x) <==> IsReady(k, x))
            && (forall x :: x in k.tasks ==> k'.tasks[x].held == k.tasks[x].held)
            && (forall x :: x in k.tasks && x != h ==> k'.tasks[x] == k.tasks[x])
            && Priority(k', h) == Max(Priority(k, h), p)
  {
    hide IsReady, SetPriority, AtHome;
    if k.tasks[h].priority < p {
      PriorityMoves(k, h, p);
      PriorityFrame(k, h, p);
    }
  }

  lemma SoundInherit(s: State, h: nat, p: nat)
    requires Sound(s) && h in s.k.tasks && s.k.tasks[h].held > 0 && p < |s.k.ready|
    ensures Sound(s.(k := Inherit(s.k, h, p)))
  {
    hide Sound, SetPriority;
    assert LevelOk(s.k.tasks[h], |s.k.ready|) by {
      SoundLevel(s, h);
    }
    if s.k.tasks[h].priority < p {
      SoundSetPriority(s, h, p);
    }
  }

  lemma SoundLevel(s: State, t: nat)
    requires Sound(s) && t in s.k.tasks
    ensures LevelOk(s.k.tasks[t], |s.k.ready|)
  {
  }

  // Steps that move one task between phases and the ready lists

  /** A task that runs goes on to its next phase. */
  lemma SoundPhase(s: State, t: nat, phase: Phase)
    requires Sound(s) && IsReady(s.k, t) && !At(s, t).Waiting? && !phase.Waiting?
    requires !phase.Outside? ==> phase.m < |s.k.mutexes| && Filed(s.k, t)
    ensures Sound(Goes(s, t, s.k, phase))
  {
    ReadyKnown(s.k, t);
    hide IsReady, Filed, Accounts, Levels, AtHome, Lists;
    var s' := Goes(s, t, s.k, phase);
    NotListed(s, t);
    assert s'.phase.Keys == s'.k.tasks.Keys;
    assert PhaseOk(s', t);
    assert forall x :: x in s.phase && x != t ==> PhaseOk(s, x) && At(s', x) == At(s, x) && PhaseOk(s', x);
  }

  /** In the take a task's event list item stays filed. */
  lemma PhaseFiled(s: State, t: nat)
    requires Sound(s) && !At(s, t).Outside?
    ensures Filed(s.k, t) && At(s, t).m < |s.k.mutexes|
  {
    assert PhaseOk(s, t);
  }

  /** Tasks outside the take sleep, wake and take turns. */
  lemma SoundReadyLists(s: State, ready: seq<Turns>)
    requires Sound(s) && |ready| == |s.k.ready|
    requires forall x :: !At(s, x).Outside? ==> (IsReady(s.k.(ready := ready), x) <==> IsReady(s.k, x))
    requires AtHome(s.k.(ready := ready))
    ensures Sound(s.(k := s.k.(ready := ready)))
  {
    hide IsReady, AtHome, OnTurns, Holds, Phases, Lists;
    var s' := s.(k := s.k.(ready := ready));
    SamePhases(s, s');
    SameLists(s.k, s'.k);
  }

  lemma SoundSleep(s: State, t: nat)
    requires Sound(s) && IsReady(s.k, t) && At(s, t).Outside?
    ensures Sound(Next(s, Sleep(t)))
  {
    hide DropTurn, OnTurns, Holds;
    var p := Priority(s.k, t);
    UnlistedMembers(s.k.ready, t, p);
    SoundReadyLists(s, Unlisted(s.k.ready, t, p));
  }

  lemma SoundAwake(s: State, t: nat)
    requires Sound(s) && t in s.k.tasks && At(s, t).Outside? && !IsReady(s.k, t)
    ensures Sound(Next(s, Awake(t)))
  {
    hide AddTurn, OnTurns, Holds;
    var p := Priority(s.k, t);
    assert LevelOk(s.k.tasks[t], |s.k.ready|);
    EnlistedMembers(s.k.ready, t, p);
    SoundReadyLists(s, Enlisted(s.k.ready, t, p));
  }

  lemma SoundTurn(s: State, p: nat)
    requires Sound(s) && p < |s.k.ready| && !Empty(s.k.ready[p])
    ensures Sound(Next(s, Turn(p)))
  {
    hide Holds, Levels, Accounts, Lists, Phases;
    var ready := s.k.ready[p := NextTurn(s.k.ready[p]).1];
    assert forall q, x :: 0 <= q < |ready| ==> (OnTurns(ready[q], x) <==> OnTurns(s.k.ready[q], x));
    SoundReadyLists(s, ready);
  }

  /** The event list item of a task outside the take may hold anything that is marked as in use. */
  lemma SoundValue(s: State, t: nat, value: nat)
    requires Sound(s) && t in s.k.tasks && At(s, t).Outside?
    requires InUse(value) || value == EventValue(|s.k.ready|, s.k.tasks[t].priority)
    ensures Sound(s.(k := s.k.(tasks := s.k.tasks[t := s.k.tasks[t].(value := value)])))
  {
    hide Holds, OnTurns, Phases, Lists;
    var s' := s.(k := s.k.(tasks := s.k.tasks[t := s.k.tasks[t].(value := value)]));
    assert LevelOk(s.k.tasks[t], |s.k.ready|);
    SamePhases(s, s');
    SameLists(s.k, s'.k);
  }

  lemma SoundEnter(s: State, t: nat, data: nat)
    requires Sound(s) && IsReady(s.k, t) && At(s, t).Outside?
    ensures Sound(Next(s, Enter(t, data)))
  {
    hide DropTurn, OnTurns, Holds, Sound;
    SoundSleep(s, t);
    var s1 := Next(s, Sleep(t));
    SoundValue(s1, t, IN_USE + data);
  }

  lemma SoundLeave(s: State, t: nat)
    requires Sound(s) && IsReady(s.k, t) && At(s, t).Outside?
    ensures Sound(Next(s, Leave(t)))
  {
    hide Sound;
    SoundValue(s, t, EventValue(|s.k.ready|, s.k.tasks[t].priority));
  }

  /** A task takes the mutex if it is free; otherwise it goes on to the check of its time if it has any,
      and leaves without the mutex if not. */
  lemma TakesIff(s: State, t: nat, blocks: bool)
    requires Enabled(s, Try(t, blocks))
    ensures var m, s' := At(s, t).m, Next(s, Try(t, blocks));
            if s.k.mutexes[m].holder == None then
              && At(s', t) == Outside && t in s.k.tasks
              && s'.k == s.k.(tasks := s'.k.tasks, mutexes := s.k.mutexes[m := Mutex(Some(t), s.k.mutexes[m].waiting)])
              && s'.k.tasks == s.k.tasks[t := s.k.tasks[t].(held := s.k.tasks[t].held + 1)]
            else
              && s'.k == s.k
              && (At(s', t) == Outside <==> !blocks) && (At(s', t).Checking? <==> blocks)
  {
    hide OnTurns;
  }

  /** A task whose time is up and that still does not get the mutex lowers the holder on its way out if
      it may owe its priority to it. */
  lemma LeavesIff(s: State, t: nat)
    requires Enabled(s, Recheck(t))
    ensures var m, s' := At(s, t).m, Next(s, Recheck(t));
            && s'.k == s.k
            && (s.k.mutexes[m].holder == None ==> At(s', t) == Trying(m, At(s, t).inherited))
            && (s.k.mutexes[m].holder != None ==> At(s', t) == if At(s, t).inherited then Lowering(m) else Outside)
  {
    hide IsReady;
  }

  /** A wait for an event group marks the event list item as in use and blocks the task; when it runs
      again it files the item under its priority, which it may have inherited meanwhile. */
  lemma EventWaitMarks(s: State, t: nat, data: nat)
    requires Sound(s)
    ensures Enabled(s, Enter(t, data)) ==>
      var s' := Next(s, Enter(t, data));
      && t in s'.k.tasks && s'.k.tasks[t].value == IN_USE + data && !Filed(s'.k, t) && !IsReady(s'.k, t)
      && Priority(s'.k, t) == Priority(s.k, t)
    ensures Enabled(s, Leave(t)) ==>
      var s' := Next(s, Leave(t));
      Filed(s'.k, t) && IsReady(s'.k, t) && Priority(s'.k, t) == Priority(s.k, t)
  {
    hide DropTurn, OnTurns, Holds, Lists, Phases, AtHome, Accounts;
    if IsReady(s.k, t) {
      var p := Priority(s.k, t);
      assert LevelOk(s.k.tasks[t], |s.k.ready|);
      UnlistedMembers(s.k.ready, t, p);
    }
  }

  // Taking, waiting and waking

  lemma TakeAccounts(k: System, t: nat, m: nat)
    requires Accounts(k) && t in k.tasks && m < |k.mutexes| && k.mutexes[m].holder.None?
    ensures Accounts(Take(k, t, m))
  {
    hide Holds;
    var k' := Take(k, t, m);
    forall x | x in k.tasks
      ensures k'.tasks[x].held == Holds(k'.mutexes, x)
    {
      HoldsUpdate(k.mutexes, m, k'.mutexes[m], x);
    }
  }

  lemma TakeReadiness(k: System, t: nat, m: nat)
    requires t in k.tasks && m < |k.mutexes|
    ensures forall x :: IsReady(Take(k, t, m), x) <==> IsReady(k, x)
    ensures forall x :: Filed(k, x) ==> Filed(Take(k, t, m), x)
    ensures forall x :: Priority(Take(k, t, m), x) == Priority(k, x)
    ensures forall x :: x != t ==> (HoldsNone(Take(k, t, m), x) <==> HoldsNone(k, x))
  {
  }

  lemma SoundTake(s: State, t: nat, m: nat)
    requires Sound(s) && IsReady(s.k, t) && m < |s.k.mutexes| && At(s, t).Trying?
    requires s.k.mutexes[m].holder.None?
    ensures Sound(Goes(s, t, Take(s.k, t, m), Outside))
  {
    hide OnTurns, Holds, IsReady, Lists, Filed;
    ReadyKnown(s.k, t);
    TakeAccounts(s.k, t, m);
    TakeReadiness(s.k, t, m);
    SameLists(s.k, Take(s.k, t, m));
    SoundPhase(s, t, Outside);
    SamePhases(Goes(s, t, s.k, Outside), Goes(s, t, Take(s.k, t, m), Outside));
    assert LevelOk(s.k.tasks[t], |s.k.ready|);
  }

  lemma {:induction false} PlaceMembers(k: System, l: seq<nat>, t: nat)
    ensures forall x :: x in Place(k, l, t) <==> x in l || x == t
  {
    if l != [] {
      PlaceMembers(k, l[1..], t);
    }
  }

  lemma {:induction false} PlaceListed(k: System, l: seq<nat>, t: nat)
    requires ListOk(k, l) && t in k.tasks && t !in l
    ensures ListOk(k, Place(k, l, t))
  {
    hide Value;
    PlaceMembers(k, l, t);
    if l != [] && Value(k, l[0]) <= Value(k, t) {
      assert forall w :: w in l[1..] ==> w in l && w != l[0];
      PlaceListed(k, l[1..], t);
      PlaceMembers(k, l[1..], t);
      var r := Place(k, l[1..], t);
      assert forall j :: 0 <= j < |r| ==> r[j] in r;
    } else {
      assert forall j :: 0 <= j < |l| ==> l[j] in l;
    }
  }

  lemma {:induction false} DropListed(k: System, l: seq<nat>, t: nat)
    requires ListOk(k, l)
    ensures ListOk(k, Drop(l, t))
  {
    DropMembers(l, t);
    DropDistinct(l, t);
  }

  lemma {:induction false} DropDistinct(l: seq<nat>, t: nat)
    requires forall i, j :: 0 <= i < j < |l| ==> l[i] != l[j]
    ensures forall i, j :: 0 <= i < j < |Drop(l, t)| ==> Drop(l, t)[i] != Drop(l, t)[j]
  {
    if l != [] {
      DropDistinct(l[1..], t);
      DropMembers(l[1..], t);
      assert forall w :: w in l[1..] ==> w != l[0];
      var r := Drop(l[1..], t);
      assert forall j :: 0 <= j < |r| ==> r[j] in r;
    }
  }

  /** A task goes on the list of a mutex and off its ready list. */
  function Join(k: System, t: nat, m: nat): System
    requires t in k.tasks && m < |k.mutexes|
  {
    k.(mutexes := k.mutexes[m := k.mutexes[m].(waiting := Place(k, k.mutexes[m].waiting, t))],
       ready := Unlisted(k.ready, t, k.tasks[t].priority))
  }

  lemma JoinPhases(s: State, t: nat, m: nat, inherited: bool)
    requires Phases(s) && IsReady(s.k, t) && !At(s, t).Waiting? && m < |s.k.mutexes| && Filed(s.k, t)
    ensures Phases(Goes(s, t, Join(s.k, t, m), Waiting(m, inherited)))
  {
    hide OnTurns, Place, DropTurn;
    var k, s' := s.k, Goes(s, t, Join(s.k, t, m), Waiting(m, inherited));
    UnlistedMembers(k.ready, t, k.tasks[t].priority);
    PlaceMembers(k, k.mutexes[m].waiting, t);
    NotListed(s, t);
    assert PhaseOk(s', t);
    forall x | x in s.phase && x != t
      ensures PhaseOk(s', x)
    {
      assert PhaseOk(s, x);
      assert IsReady(s'.k, x) <==> IsReady(k, x);
    }
    forall n, x | 0 <= n < |k.mutexes| && x in s'.k.mutexes[n].waiting
      ensures At(s', x).Waiting? && At(s', x).m == n
    {
      if x == t {
        assert n == m;
        assert At(s', t) == Waiting(m, inherited);
      } else {
        assert x in s.k.mutexes[n].waiting;
        assert At(s', x) == At(s, x);
      }
    }
  }

  lemma SoundJoin(s: State, t: nat, m: nat, inherited: bool)
    requires Sound(s) && IsReady(s.k, t) && At(s, t).Checking? && m < |s.k.mutexes|
    ensures Sound(Goes(s, t, Join(s.k, t, m), Waiting(m, inherited)))
  {
    hide OnTurns, Holds, Place, DropTurn;
    var k, s' := s.k, Goes(s, t, Join(s.k, t, m), Waiting(m, inherited));
    var k', l := s'.k, k.mutexes[m].waiting;
    NotListed(s, t);
    PhaseFiled(s, t);
    assert ListOk(k, l);
    PlaceListed(k, l, t);
    forall n | 0 <= n < |k.mutexes|
      ensures ListOk(k', k'.mutexes[n].waiting)
    {
      assert ListOk(k, k.mutexes[n].waiting) && ListOk(k, k'.mutexes[n].waiting);
    }
    SameAccounts(k, m, k'.mutexes[m]);
    JoinPhases(s, t, m, inherited);
    UnlistedMembers(k.ready, t, k.tasks[t].priority);
  }

  lemma SoundWait(s: State, t: nat, m: nat, inherited: bool)
    requires Sound(s) && IsReady(s.k, t) && At(s, t).Checking? && m < |s.k.mutexes| && s.k.mutexes[m].holder.Some?
    ensures t in s.k.tasks && s.k.mutexes[m].holder.value in s.k.tasks
    ensures Wait(s.k, t, m) == Join(Inherit(s.k, s.k.mutexes[m].holder.value, s.k.tasks[t].priority), t, m)
    ensures Sound(Goes(s, t, Wait(s.k, t, m), Waiting(m, inherited)))
  {
    hide OnTurns, Holds, Place, DropTurn, SetPriority, AtHome, Phases, Lists, Inherit;
    ReadyKnown(s.k, t);
    var h, p := s.k.mutexes[m].holder.value, s.k.tasks[t].priority;
    HolderHolds(s.k.mutexes, m, h);
    assert LevelOk(s.k.tasks[t], |s.k.ready|) && LevelOk(s.k.tasks[h], |s.k.ready|);
    InheritFrame(s.k, h, p);
    SoundInherit(s, h, p);
    var s1 := s.(k := Inherit(s.k, h, p));
    assert Priority(s1.k, t) == p;
    SoundJoin(s1, t, m, inherited);
  }

  lemma WakePhases(s: State, w: nat, m: nat, inherited: bool)
    requires Sound(s) && m < |s.k.mutexes| && At(s, w).Waiting? && At(s, w).m == m && w in s.k.tasks
    ensures Phases(Goes(s, w, Wake(s.k, w, m), Trying(m, inherited)))
  {
    hide AddTurn, OnTurns, Holds, Drop, Lists, Accounts;
    var s' := Goes(s, w, Wake(s.k, w, m), Trying(m, inherited));
    var p, l := Priority(s.k, w), s.k.mutexes[m].waiting;
    assert LevelOk(s.k.tasks[w], |s.k.ready|);
    assert PhaseOk(s, w);
    EnlistedMembers(s.k.ready, w, p);
    DropMembers(l, w);
    assert s'.phase.Keys == s'.k.tasks.Keys;
    assert PhaseOk(s', w);
    forall x | x in s.phase && x != w
      ensures PhaseOk(s', x)
    {
      assert PhaseOk(s, x);
      assert IsReady(s'.k, x) <==> IsReady(s.k, x);
    }
    forall n, x | 0 <= n < |s'.k.mutexes| && x in s'.k.mutexes[n].waiting
      ensures At(s', x).Waiting? && At(s', x).m == n
    {
      assert n == m ==> s'.k.mutexes[n].waiting == Drop(l, w);
      assert x in s.k.mutexes[n].waiting;
      assert At(s, x).m == n;
      assert x != w;
    }
  }

  lemma SoundWake(s: State, w: nat, m: nat, inherited: bool)
    requires Sound(s) && m < |s.k.mutexes| && At(s, w).Waiting? && At(s, w).m == m && w in s.k.tasks
    ensures Sound(Goes(s, w, Wake(s.k, w, m), Trying(m, inherited)))
  {
    hide AddTurn, OnTurns, Holds, Drop;
    var k, s' := s.k, Goes(s, w, Wake(s.k, w, m), Trying(m, inherited));
    var p, l := Priority(k, w), k.mutexes[m].waiting;
    assert LevelOk(k.tasks[w], |k.ready|);
    EnlistedMembers(k.ready, w, p);
    forall n | 0 <= n < |k.mutexes|
      ensures ListOk(s'.k, s'.k.mutexes[n].waiting)
    {
      assert ListOk(k, k.mutexes[n].waiting);
      DropListed(k, l, w);
    }
    SameAccounts(k, m, s'.k.mutexes[m]);
    WakePhases(s, w, m, inherited);
  }

  // Giving

  /** The giver's accounts, and its priority, once it has let go of the mutex. */
  function Relinquish(k: System, t: nat, m: nat): System
    requires t in k.tasks && k.tasks[t].held > 0 && m < |k.mutexes|
  {
    var k := Disinherit(k, t);
    k.(mutexes := k.mutexes[m := k.mutexes[m].(holder := None)])
  }

  lemma RelinquishAccounts(k: System, t: nat, m: nat)
    requires Accounts(k) && m < |k.mutexes| && k.mutexes[m].holder == Some(t)
    ensures t in k.tasks && k.tasks[t].held > 0 && Accounts(Relinquish(k, t, m))
  {
    hide Holds, IsReady;
    HolderHolds(k.mutexes, m, t);
    var k' := Relinquish(k, t, m);
    forall x | x in k.tasks
      ensures k'.tasks[x].held == Holds(k'.mutexes, x)
    {
      HoldsUpdate(k.mutexes, m, k'.mutexes[m], x);
    }
  }

  lemma RelinquishFrame(k: System, t: nat, m: nat)
    requires t in k.tasks && k.tasks[t].held > 0 && m < |k.mutexes|
    ensures var k' := Relinquish(k, t, m);
            && k'.tasks.Keys == k.tasks.Keys && |k'.ready| == |k.ready|
            && k'.mutexes == k.mutexes[m := k.mutexes[m].(holder := None)]
            && (forall x :: x in k.tasks && x != t ==> k'.tasks[x] == k.tasks[x])
            && (k.tasks[t].held > 1 ==> Priority(k', t) == Priority(k, t))
  {
  }

  lemma RelinquishMoves(k: System, t: nat, m: nat)
    requires Levels(k) && AtHome(k) && IsReady(k, t) && k.tasks[t].held > 0 && m < |k.mutexes|
    ensures var k' := Relinquish(k, t, m);
            && Levels(k') && AtHome(k')
            && (forall x :: IsReady(k', x) <==> IsReady(k, x))
            && (forall x :: x != t && Filed(k, x) ==> Filed(k', x))
  {
    hide OnTurns, AddTurn, DropTurn;
    var task := k.tasks[t].(held := k.tasks[t].held - 1);
    assert LevelOk(k.tasks[t], |k.ready|);
    if task.priority != task.base && task.held == 0 {
      UnlistedMembers(k.ready, t, task.priority);
      EnlistedMembers(Unlisted(k.ready, t, task.priority), t, task.base);
    }
  }

  lemma SoundRelinquish(s: State, t: nat, m: nat)
    requires Sound(s) && IsReady(s.k, t) && At(s, t).Outside? && m < |s.k.mutexes| && s.k.mutexes[m].holder == Some(t)
    ensures t in s.k.tasks && s.k.tasks[t].held > 0
    ensures Sound(s.(k := Relinquish(s.k, t, m)))
  {
    hide OnTurns, Holds, IsReady, Levels, AtHome, Disinherit, Phases, Lists, Filed;
    RelinquishAccounts(s.k, t, m);
    RelinquishMoves(s.k, t, m);
    RelinquishFrame(s.k, t, m);
    var s' := s.(k := Relinquish(s.k, t, m));
    SameLists(s.k, s'.k);
    SamePhases(s, s');
  }

  lemma ListedWaits(s: State, m: nat, w: nat)
    requires Phases(s) && m < |s.k.mutexes| && w in s.k.mutexes[m].waiting
    ensures At(s, w).Waiting? && At(s, w).m == m && w in s.k.tasks && Filed(s.k, w) && !IsReady(s.k, w)
  {
    assert At(s, w).Waiting?;
    assert PhaseOk(s, w);
  }

  lemma SoundGive(s: State, t: nat, m: nat)
    requires Sound(s) && Enabled(s, Release(t, m))
    ensures Sound(Next(s, Release(t, m)))
  {
    hide OnTurns, Holds, IsReady, Levels, AtHome, Accounts, Lists, Drop, Disinherit;
    SoundRelinquish(s, t, m);
    RelinquishFrame(s.k, t, m);
    var s1, l := s.(k := Relinquish(s.k, t, m)), s.k.mutexes[m].waiting;
    assert s1.k.mutexes[m].waiting == l;
    if l != [] {
      assert l[0] in l;
      ListedWaits(s, m, l[0]);
      SoundWake(s1, l[0], m, At(s, l[0]).inherited);
    }
  }

  // Lowering the holder after a time-out

  /** The head of the list is filed under its priority. */
  lemma WaitingPriorityIs(s: State, m: nat)
    requires Sound(s) && m < |s.k.mutexes|
    ensures var l := s.k.mutexes[m].waiting;
            WaitingPriority(s.k, m) == (if l == [] then 0 else Priority(s.k, l[0]))
    ensures s.k.tasks.Keys != {} ==> WaitingPriority(s.k, m) < |s.k.ready|
  {
    hide OnTurns, Holds, IsReady, AtHome, Lists, Accounts;
    var k, l := s.k, s.k.mutexes[m].waiting;
    if l != [] {
      assert l[0] in l;
      ListedWaits(s, m, l[0]);
      assert LevelOk(k.tasks[l[0]], |k.ready|);
    } else if k.tasks.Keys != {} {
      var t :| t in k.tasks;
      assert LevelOk(k.tasks[t], |k.ready|);
    }
  }

  lemma SoundLower(s: State, t: nat)
    requires Sound(s) && Enabled(s, LowerHolder(t))
    ensures Sound(Next(s, LowerHolder(t)))
  {
    hide OnTurns, Holds, IsReady, SetPriority, AtHome, Phases, Lists;
    var k, m := s.k, At(s, t).m;
    var s1 := s.(k := Lower(k, m));
    ReadyKnown(k, t);
    if k.mutexes[m].holder.Some? {
      var h := k.mutexes[m].holder.value;
      var target := Max(k.tasks[h].base, WaitingPriority(k, m));
      WaitingPriorityIs(s, m);
      assert LevelOk(k.tasks[h], |k.ready|);
      if k.tasks[h].priority != target && k.tasks[h].held == 1 {
        SoundSetPriority(s, h, target);
        PriorityMoves(k, h, target);
      }
    }
    SoundPhase(s1, t, Outside);
  }

  // Runs

  lemma SoundCheck(s: State, t: nat, expired: bool)
    requires Sound(s) && Enabled(s, Check(t, expired))
    ensures Sound(Next(s, Check(t, expired)))
  {
    hide IsReady, Sound, Wait, Filed;
    var m, inherited := At(s, t).m, At(s, t).inherited;
    PhaseFiled(s, t);
    if expired {
      SoundPhase(s, t, Expired(m, inherited));
    } else if s.k.mutexes[m].holder.None? {
      SoundPhase(s, t, Trying(m, inherited));
    } else {
      ReadyKnown(s.k, t);
      var h := s.k.mutexes[m].holder.value;
      SoundWait(s, t, m, h in s.k.tasks && Inherits(s.k, h, s.k.tasks[t].priority));
    }
  }

  lemma SoundTry(s: State, t: nat, blocks: bool)
    requires Sound(s) && Enabled(s, Try(t, blocks))
    ensures Sound(Next(s, Try(t, blocks)))
  {
    hide IsReady, Sound, Take, Filed;
    var m, inherited := At(s, t).m, At(s, t).inherited;
    PhaseFiled(s, t);
    if s.k.mutexes[m].holder.None? {
      SoundTake(s, t, m);
    } else {
      SoundPhase(s, t, if blocks then Checking(m, inherited) else Outside);
    }
  }

  lemma SoundRecheck(s: State, t: nat)
    requires Sound(s) && Enabled(s, Recheck(t))
    ensures Sound(Next(s, Recheck(t)))
  {
    hide IsReady, Sound, Filed;
    var m, inherited := At(s, t).m, At(s, t).inherited;
    PhaseFiled(s, t);
    if s.k.mutexes[m].holder.None? {
      SoundPhase(s, t, Trying(m, inherited));
    } else {
      SoundPhase(s, t, if inherited then Lowering(m) else Outside);
    }
  }

  lemma SoundStep(s: State, step: Step)
    requires Sound(s) && Enabled(s, step)
    ensures Sound(Next(s, step))
  {
    hide Sound, IsReady, Filed, Take, Give, Wake, Lower, Borrow, ResetValue;
    match step
    case Begin(t, m) => SoundPhase(s, t, Trying(m, false));
    case Try(t, blocks) => SoundTry(s, t, blocks);
    case Check(t, expired) => SoundCheck(s, t, expired);
    case Recheck(t) => SoundRecheck(s, t);
    case LowerHolder(t) => SoundLower(s, t);
    case Release(t, m) => SoundGive(s, t, m);
    case Timeout(t) => SoundWake(s, t, At(s, t).m, At(s, t).inherited);
    case Sleep(t) => SoundSleep(s, t);
    case Awake(t) => SoundAwake(s, t);
    case Enter(t, data) => SoundEnter(s, t, data);
    case Leave(t) => SoundLeave(s, t);
    case Turn(p) => SoundTurn(s, p);
  }

  lemma {:induction false} RunsKeepSound(s: State, steps: seq<Step>)
    requires Sound(s) && IsRun(s, steps)
    ensures Sound(Run(s, steps))
    decreases |steps|
  {
    hide Sound, Enabled, Next;
    if steps != [] {
      SoundStep(s, steps[0]);
      RunsKeepSound(Next(s, steps[0]), steps[1..]);
    }
  }

  /** Tasks at their base priorities, holding nothing, and free mutexes. */
  ghost predicate Unused(s: State) {
    && s.phase.Keys == s.k.tasks.Keys && AtHome(s.k) && |s.k.ready| < IN_USE
    && (forall t :: t in s.phase ==> s.phase[t] == Outside)
    && (forall t :: t in s.k.tasks ==>
          var task := s.k.tasks[t];
          task.base < |s.k.ready| && task == Task(task.base, task.base, |s.k.ready| - task.base, 0))
    && (forall m :: 0 <= m < |s.k.mutexes| ==> s.k.mutexes[m] == Mutex(None, []))
  }

  lemma UnusedSound(s: State)
    requires Unused(s)
    ensures Sound(s)
  {
    hide AtHome, IsReady;
    forall t | t in s.k.tasks
      ensures Holds(s.k.mutexes, t) == 0
    {
      NobodyHolds(s.k.mutexes, t);
    }
  }

  lemma {:induction false} NobodyHolds(mutexes: seq<Mutex>, t: nat)
    requires forall m :: 0 <= m < |mutexes| ==> mutexes[m].holder == None
    ensures Holds(mutexes, t) == 0
  {
    if mutexes != [] {
      NobodyHolds(mutexes[1..], t);
    }
  }

  /** Over every run of takes, waits, gives, time-outs and sleeps, whoever runs and whatever a waiting
      task holds: the held counts are exact, a task that holds nothing runs at its base priority and
      none runs below it, event values follow priorities, ready tasks are on the ready list of their
      priority, and a task waits on at most one list, once, without being ready. */
  lemma AccountsAlways(s: State, steps: seq<Step>, t: nat, m: nat)
    requires Unused(s) && IsRun(s, steps) && t in Run(s, steps).k.tasks && m < |Run(s, steps).k.mutexes|
    ensures var k := Run(s, steps).k;
            && k.tasks[t].held == Holds(k.mutexes, t)
            && (k.tasks[t].held == 0 ==> k.tasks[t].priority == k.tasks[t].base)
            && k.tasks[t].base <= k.tasks[t].priority < |k.ready|
            && (Filed(k, t) || InUse(k.tasks[t].value))
            && (forall p :: 0 <= p < |k.ready| && OnTurns(k.ready[p], t) ==> k.tasks[t].priority == p)
            && (t in k.mutexes[m].waiting ==>
                  && Filed(k, t) && !IsReady(k, t) && multiset(k.mutexes[m].waiting)[t] == 1
                  && forall n :: 0 <= n < |k.mutexes| && t in k.mutexes[n].waiting ==> n == m)
  {
    hide Run, IsRun, Unused, Holds, OnTurns, IsReady;
    UnusedSound(s);
    RunsKeepSound(s, steps);
    var k := Run(s, steps).k;
    assert LevelOk(k.tasks[t], |k.ready|);
    if t in k.mutexes[m].waiting {
      ListedWaits(Run(s, steps), m, t);
      assert ListOk(k, k.mutexes[m].waiting);
      OnceListed(k.mutexes[m].waiting, t);
    }
  }

  lemma {:induction false} OnceListed(l: seq<nat>, t: nat)
    requires t in l && forall i, j :: 0 <= i < j < |l| ==> l[i] != l[j]
    ensures multiset(l)[t] == 1
  {
    assert l == [l[0]] + l[1..];
    if l[0] == t {
      assert forall j :: 0 < j < |l| ==> l[j] != t;
      assert t !in l[1..];
    } else {
      OnceListed(l[1..], t);
    }
  }
}
