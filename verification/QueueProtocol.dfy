/** Blocking on a queue: tasks run the sections of the send, receive and peek loops, interrupts
    post and take between any two sections, and no wake-up gets lost. */
module QueueProtocol {
  import EventValues
  import opened Once
  import opened Options
  import opened Wheel
  import Q = QueueSections

  /** A queue of `length` messages in a system of `|priorities|` tasks. */
  datatype Config = Config(length: nat, priorities: seq<nat>, levels: nat) {
    ghost predicate Valid() {
      && length > 0 && |priorities| > 0
      && forall t :: 0 <= t < |priorities| ==> priorities[t] < levels
    }

    function Tasks(): nat {
      |priorities|
    }

    function EventValue(t: nat): nat
      requires t < Tasks()
    {
      EventValues.EventValue(levels, priorities[t])
    }
  }

  datatype Call = Receive | Peek | Send(overwrite: bool)

  /** What follows the unlocking of the queue. */
  datatype After = Block | Retry | GiveUp

  /** Where a task stands: each phase ends with the atomic section it names. */
  datatype Phase =
    | Outside
    | Trying(call: Call)
    | Suspending(call: Call)
    | Locking(call: Call)
    | Timing(call: Call)
    | Checking(call: Call)
    | Placing(call: Call)
    | UnlockingTx(call: Call, next: After)
    | UnlockingRx(call: Call, next: After)
    | Resuming(call: Call, next: After)
    | Waiting(call: Call)
    | Rechecking(call: Call)

  /** `suspender` is the task that has suspended the scheduler.  The two sets record the tasks
      that an event has taken off an event list and that have not tried again since. */
  datatype State = State(
    q: Q.State,
    phase: seq<Phase>,
    suspender: Option<nat>,
    wokenReceivers: set<nat>,
    wokenSenders: set<nat>)

  /** One atomic step.  `choice` settles what the model leaves open: whether a task that finds
      nothing to do has block time left, and whether its block time has expired. */
  datatype Step =
    | Begin(task: nat, call: Call)
    | Run(task: nat, choice: bool)
    | Expire(task: nat)
    | IsrPost(overwrite: bool)
    | IsrTake

  function Initial(c: Config): State {
    State(Q.State(0, Q.UNLOCKED, Q.UNLOCKED, [], []), seq(c.Tasks(), _ => Outside), None, {}, {})
  }

  predicate Listed(l: seq<Entry>, task: nat) {
    exists e :: e in l && e.id == task
  }

  ghost predicate Enabled(c: Config, s: State, step: Step) {
    && |s.phase| == c.Tasks()
    && match step
       case Begin(t, call) =>
         && t < c.Tasks() && s.phase[t] == Outside && s.suspender == None
         && (call == Send(true) ==> c.length == 1)
       case Run(t, _) =>
         && t < c.Tasks() && s.phase[t] != Outside && s.suspender in {None, Some(t)}
         && (s.phase[t].Waiting? ==> !Listed(s.q.toReceive, t) && !Listed(s.q.toSend, t))
       case Expire(t) =>
         s.suspender == None && (Listed(s.q.toReceive, t) || Listed(s.q.toSend, t))
       case IsrPost(overwrite) => Q.LocksFit(s.q) && (overwrite ==> c.length == 1)
       case IsrTake => Q.LocksFit(s.q)
  }

  /** The state after a section that changed the queue to `q`: every task it took off an event
      list counts as woken. */
  function Woke(s: State, q: Q.State): State {
    s.(q := q,
       wokenReceivers := s.wokenReceivers + (Ids(s.q.toReceive) - Ids(q.toReceive)),
       wokenSenders := s.wokenSenders + (Ids(s.q.toSend) - Ids(q.toSend)))
  }

  function Goto(s: State, t: nat, phase: Phase): State
    requires t < |s.phase|
  {
    s.(phase := s.phase[t := phase])
  }

  /** The state at the top of the loop once the task no longer counts as woken. */
  function Forgotten(s: State, t: nat): State {
    s.(wokenReceivers := s.wokenReceivers - {t}, wokenSenders := s.wokenSenders - {t})
  }

  function TrySuccess(s: State, t: nat, q: Q.State): State
    requires t < |s.phase|
  {
    Goto(Woke(Forgotten(s, t), q), t, Outside)
  }

  /** The section at the top of the loop. */
  function Try(c: Config, s: State, t: nat, blockTime: bool): State
    requires t < |s.phase| && s.phase[t].Trying?
  {
    var call := s.phase[t].call;
    var failed := Goto(Forgotten(s, t), t, if blockTime then Suspending(call) else Outside);
    match call
    case Receive => if s.q.count > 0 then TrySuccess(s, t, Q.TaskTake(s.q)) else failed
    case Peek => if s.q.count > 0 then TrySuccess(s, t, Q.TaskPeek(s.q)) else failed
    case Send(overwrite) =>
      if s.q.count < c.length || overwrite then TrySuccess(s, t, Q.TaskPost(s.q, overwrite)) else failed
  }

  function Place(c: Config, s: State, t: nat, call: Call): State
    requires t < |s.phase| == c.Tasks()
  {
    var e := Entry(t, c.EventValue(t));
    if call.Send? then s.(q := s.q.(toSend := Insert(s.q.toSend, e)))
    else s.(q := s.q.(toReceive := Insert(s.q.toReceive, e)))
  }

  function RunTask(c: Config, s: State, t: nat, choice: bool): State
    requires t < |s.phase| == c.Tasks()
  {
    match s.phase[t]
    case Outside => s
    case Trying(_) => Try(c, s, t, choice)
    case Suspending(call) => Goto(s.(suspender := Some(t)), t, Locking(call))
    case Locking(call) => Goto(s.(q := Q.Lock(s.q)), t, Timing(call))
    case Timing(call) => Goto(s, t, if choice then UnlockingTx(call, GiveUp) else Checking(call))
    case Checking(call) =>
      var blocked := if call.Send? then s.q.count == c.length else s.q.count == 0;
      Goto(s, t, if blocked then Placing(call) else UnlockingTx(call, Retry))
    case Placing(call) => Goto(Place(c, s, t, call), t, UnlockingTx(call, Block))
    case UnlockingTx(call, next) => Goto(Woke(s, Q.UnlockTx(s.q)), t, UnlockingRx(call, next))
    case UnlockingRx(call, next) => Goto(Woke(s, Q.UnlockRx(s.q)), t, Resuming(call, next))
    case Resuming(call, next) =>
      var phase := match next
        case Block => Waiting(call)
        case Retry => Trying(call)
        case GiveUp => if call.Send? then Outside else Rechecking(call);
      Goto(s.(suspender := None), t, phase)
    case Waiting(call) => Goto(s, t, Trying(call))
    case Rechecking(call) => Goto(s, t, if s.q.count == 0 then Outside else Trying(call))
  }

  ghost function Next(c: Config, s: State, step: Step): State
    requires Enabled(c, s, step)
  {
    match step
    case Begin(t, call) => Goto(s, t, Trying(call))
    case Run(t, choice) => RunTask(c, s, t, choice)
    case Expire(t) =>
      s.(q := s.q.(toReceive := Without(s.q.toReceive, t), toSend := Without(s.q.toSend, t)))
    case IsrPost(overwrite) => Woke(s, Q.IsrPost(s.q, c.length, overwrite, c.Tasks()))
    case IsrTake => Woke(s, Q.IsrTake(s.q, c.Tasks()))
  }

  /** A run from the initial state; `None` when a step is not enabled. */
  ghost function Exec(c: Config, steps: seq<Step>): Option<State>
    decreases |steps|
  {
    if steps == [] then Some(Initial(c))
    else
      var last := |steps| - 1;
      match Exec(c, steps[..last])
      case None => None
      case Some(s) => if Enabled(c, s, steps[last]) then Some(Next(c, s, steps[last])) else None
  }

  // The claims

  /** While a receiver waits, every message is accounted for by a woken receiver that has yet to
      try again or by a wake-up the locked queue owes, unless it owes one to every task. */
  ghost predicate ReceiversCovered(c: Config, s: State) {
    s.q.toReceive != [] ==>
      s.q.count <= |s.wokenReceivers| + Q.Owed(s.q.txLock) || s.q.txLock >= c.Tasks()
  }

  ghost predicate SendersCovered(c: Config, s: State) {
    s.q.toSend != [] ==>
      c.length - s.q.count <= |s.wokenSenders| + Q.Owed(s.q.rxLock) || s.q.rxLock >= c.Tasks()
  }

  /** Nobody is in the middle of anything. */
  ghost predicate Quiescent(s: State) {
    s.suspender == None && s.wokenReceivers == {} && s.wokenSenders == {}
  }

  /** Nobody sleeps next to what it is waiting for. */
  ghost predicate NobodyStranded(c: Config, s: State) {
    && (s.q.count > 0 ==> s.q.toReceive == [])
    && (s.q.count < c.length ==> s.q.toSend == [])
  }

  // The invariant

  /** On an event list, or taken off it and not yet back at the top of the loop. */
  predicate Placed(p: Phase, sending: bool) {
    match p
    case UnlockingTx(call, next) => next == Block && call.Send? == sending
    case UnlockingRx(call, next) => next == Block && call.Send? == sending
    case Resuming(call, next) => next == Block && call.Send? == sending
    case Waiting(call) => call.Send? == sending
    case _ => false
  }

  predicate MayBeWoken(p: Phase, sending: bool) {
    Placed(p, sending) || (p.Trying? && p.call.Send? == sending)
  }

  /** The scheduler is suspended by the task in this phase. */
  predicate Holding(p: Phase) {
    p.Locking? || p.Timing? || p.Checking? || p.Placing? || p.UnlockingTx? || p.UnlockingRx? || p.Resuming?
  }

  predicate TxLocked(p: Phase) {
    p.Timing? || p.Checking? || p.Placing? || p.UnlockingTx?
  }

  predicate RxLocked(p: Phase) {
    TxLocked(p) || p.UnlockingRx?
  }

  ghost predicate ListInv(c: Config, phase: seq<Phase>, l: seq<Entry>, woken: set<nat>, sending: bool) {
    && Sorted(l) && NoDuplicates(l) && |phase| == c.Tasks()
    && (forall e :: e in l ==> && e.id < |phase| && e.time == c.EventValue(e.id)
                               && Placed(phase[e.id], sending) && e.id !in woken)
    && (forall t :: t in woken ==> t < |phase| && MayBeWoken(phase[t], sending))
  }

  ghost predicate LockInv(c: Config, s: State) {
    && |s.phase| == c.Tasks()
    && match s.suspender
       case None =>
         && s.q.txLock == Q.UNLOCKED && s.q.rxLock == Q.UNLOCKED
         && forall t :: 0 <= t < |s.phase| ==> !Holding(s.phase[t])
       case Some(h) =>
         && h < |s.phase| && Holding(s.phase[h])
         && (forall t :: 0 <= t < |s.phase| && t != h ==> !Holding(s.phase[t]))
         && (if TxLocked(s.phase[h]) then 0 <= s.q.txLock <= c.Tasks() else s.q.txLock == Q.UNLOCKED)
         && (if RxLocked(s.phase[h]) then 0 <= s.q.rxLock <= c.Tasks() else s.q.rxLock == Q.UNLOCKED)
  }

  /** A task that has seen the queue empty (or full) under the lock is as good as listed. */
  ghost predicate AboutToWait(s: State, sending: bool) {
    s.suspender.Some? && s.suspender.value < |s.phase|
    && s.phase[s.suspender.value].Placing? && s.phase[s.suspender.value].call.Send? == sending
  }

  ghost predicate ReceiverInv(c: Config, s: State) {
    s.q.toReceive != [] || AboutToWait(s, false) ==>
      s.q.count <= |s.wokenReceivers| + Q.Owed(s.q.txLock) || s.q.txLock >= c.Tasks()
  }

  ghost predicate SenderInv(c: Config, s: State) {
    s.q.toSend != [] || AboutToWait(s, true) ==>
      c.length - s.q.count <= |s.wokenSenders| + Q.Owed(s.q.rxLock) || s.q.rxLock >= c.Tasks()
  }

  ghost predicate CoverInv(c: Config, s: State) {
    ReceiverInv(c, s) && SenderInv(c, s)
  }

  /** Overwriting is for queues of one message only. */
  ghost predicate CallsInv(c: Config, phase: seq<Phase>) {
    forall t :: 0 <= t < |phase| && !phase[t].Outside? && phase[t].call == Send(true) ==> c.length == 1
  }

  ghost predicate Inv(c: Config, s: State) {
    && CallsInv(c, s.phase)
    && s.q.count <= c.length
    && ListInv(c, s.phase, s.q.toReceive, s.wokenReceivers, false)
    && ListInv(c, s.phase, s.q.toSend, s.wokenSenders, true)
    && LockInv(c, s)
    && CoverInv(c, s)
  }

  // How the pieces of the invariant survive

  /** A task may change phase freely unless it is listed or woken. */
  lemma ListGoto(c: Config, phase: seq<Phase>, l: seq<Entry>, woken: set<nat>, sending: bool, t: nat, p: Phase)
    requires ListInv(c, phase, l, woken, sending) && t < |phase|
    requires Placed(phase[t], sending) ==> Placed(p, sending) || (!Listed(l, t) && MayBeWoken(p, sending))
    requires t in woken ==> MayBeWoken(p, sending)
    ensures ListInv(c, phase[t := p], l, woken, sending)
  {
  }

  lemma ListForget(c: Config, phase: seq<Phase>, l: seq<Entry>, woken: set<nat>, sending: bool, t: nat)
    requires ListInv(c, phase, l, woken, sending)
    ensures ListInv(c, phase, l, woken - {t}, sending)
    ensures |woken - {t}| >= |woken| - 1
  {
    if t in woken {
      assert woken == (woken - {t}) + {t};
    } else {
      assert woken - {t} == woken;
    }
  }

  lemma ListDrained(c: Config, phase: seq<Phase>, l: seq<Entry>, woken: set<nat>, sending: bool, k: nat)
    requires ListInv(c, phase, l, woken, sending) && k <= |l|
    ensures ListInv(c, phase, l[k..], woken + (Ids(l) - Ids(l[k..])), sending)
    ensures |woken + (Ids(l) - Ids(l[k..]))| == |woken| + k
  {
    var rest := l[k..];
    var taken := Ids(l) - Ids(rest);
    SuffixInv(l, k);
    MembersCount(l);
    MembersCount(rest);
    assert Ids(l) == Ids(rest) + taken;
    assert woken !! taken;
    forall e | e in rest
      ensures e in l && e.id !in taken
    {
      assert e.id in Ids(rest);
    }
    forall t | t in taken
      ensures t < |phase| && MayBeWoken(phase[t], sending)
    {
      var e :| e in l && e.id == t;
    }
  }

  lemma SuffixInv(l: seq<Entry>, k: nat)
    requires Sorted(l) && NoDuplicates(l) && k <= |l|
    ensures Sorted(l[k..]) && NoDuplicates(l[k..])
  {
  }

  lemma {:induction false} MembersCount(l: seq<Entry>)
    requires NoDuplicates(l)
    ensures |Ids(l)| == |l|
  {
    if l != [] {
      var n := |l| - 1;
      MembersCount(l[..n]);
      assert l == l[..n] + [l[n]];
      assert Ids(l) == Ids(l[..n]) + {l[n].id};
    }
  }

  lemma {:induction false} Below(s: set<nat>, n: nat)
    requires forall t :: t in s ==> t < n
    ensures |s| <= n
  {
    if n > 0 {
      Below(s - {n - 1}, n - 1);
      assert s <= (s - {n - 1}) + {n - 1};
      assert |s| <= |(s - {n - 1}) + {n - 1}|  by { Subset(s, (s - {n - 1}) + {n - 1}); }
    } else {
      assert s == {};
    }
  }

  lemma {:induction false} Subset(a: set<nat>, b: set<nat>)
    requires a <= b
    ensures |a| <= |b|
  {
    assert b == a + (b - a);
  }

  lemma ListPlaced(c: Config, phase: seq<Phase>, l: seq<Entry>, woken: set<nat>, sending: bool, t: nat, p: Phase)
    requires ListInv(c, phase, l, woken, sending) && t < |phase|
    requires !MayBeWoken(phase[t], sending) && Placed(p, sending)
    ensures ListInv(c, phase[t := p], Insert(l, Entry(t, c.EventValue(t))), woken, sending)
  {
    var e := Entry(t, c.EventValue(t));
    InsertSorted(l, e);
    assert forall x :: x in l ==> x.id != t;
    InsertFresh(l, e);
  }

  lemma ListExpired(l: seq<Entry>, t: nat)
    ensures NoDuplicates(l) ==> NoDuplicates(Without(l, t))
    ensures Sorted(l) ==> Sorted(Without(l, t))
    ensures forall e :: e in Without(l, t) <==> e in l && e.id != t
  {
    WithoutMembers(l, t);
    if NoDuplicates(l) {
      WithoutNoDuplicates(l, t);
    }
  }

  /** A waiting list has no more entries than there are tasks. */
  lemma ListBounded(c: Config, phase: seq<Phase>, l: seq<Entry>, woken: set<nat>, sending: bool)
    requires ListInv(c, phase, l, woken, sending)
    ensures |l| <= c.Tasks()
  {
    MembersCount(l);
    Below(Ids(l), c.Tasks());
  }

  /** The effect of a section that takes `r` and `w` tasks off the heads of the event lists. */
  lemma WokeLists(c: Config, s: State, q: Q.State, r: nat, w: nat)
    requires ListInv(c, s.phase, s.q.toReceive, s.wokenReceivers, false)
    requires ListInv(c, s.phase, s.q.toSend, s.wokenSenders, true)
    requires r <= |s.q.toReceive| && q.toReceive == s.q.toReceive[r..]
    requires w <= |s.q.toSend| && q.toSend == s.q.toSend[w..]
    ensures ListInv(c, s.phase, q.toReceive, Woke(s, q).wokenReceivers, false)
    ensures ListInv(c, s.phase, q.toSend, Woke(s, q).wokenSenders, true)
    ensures |Woke(s, q).wokenReceivers| == |s.wokenReceivers| + r
    ensures |Woke(s, q).wokenSenders| == |s.wokenSenders| + w
  {
    ListDrained(c, s.phase, s.q.toReceive, s.wokenReceivers, false, r);
    ListDrained(c, s.phase, s.q.toSend, s.wokenSenders, true, w);
  }

  /** A section that leaves the event lists alone wakes nobody. */
  lemma WokeNobody(s: State, q: Q.State)
    requires q.toReceive == s.q.toReceive && q.toSend == s.q.toSend
    ensures Woke(s, q) == s.(q := q)
  {
    assert s.wokenReceivers + {} == s.wokenReceivers;
    assert s.wokenSenders + {} == s.wokenSenders;
  }

  // Every step keeps the invariant, when the lock counters cannot overflow

  lemma KeepsBegin(c: Config, s: State, t: nat, call: Call)
    requires c.Valid() && Inv(c, s) && Enabled(c, s, Begin(t, call))
    ensures Inv(c, Next(c, s, Begin(t, call)))
  {
    ListGoto(c, s.phase, s.q.toReceive, s.wokenReceivers, false, t, Trying(call));
    ListGoto(c, s.phase, s.q.toSend, s.wokenSenders, true, t, Trying(call));
  }

  lemma KeepsExpire(c: Config, s: State, t: nat)
    requires c.Valid() && Inv(c, s) && Enabled(c, s, Expire(t))
    ensures Inv(c, Next(c, s, Expire(t)))
  {
    ListExpired(s.q.toReceive, t);
    ListExpired(s.q.toSend, t);
  }

  lemma {:induction false} KeepsIsrPost(c: Config, s: State, overwrite: bool)
    requires c.Valid() && c.Tasks() <= 127
    requires Inv(c, s) && Enabled(c, s, IsrPost(overwrite))
    ensures Inv(c, Next(c, s, IsrPost(overwrite)))
  {
    hide ListInv, LockInv, CoverInv, CallsInv, Q.IsrPost, Woke;
    IsrPostLists(c, s, overwrite);
    IsrPostLocks(c, s, overwrite);
    IsrPostCover(c, s, overwrite);
  }

  lemma IsrPostLists(c: Config, s: State, overwrite: bool)
    requires Q.LocksFit(s.q) && s.q.count <= c.length && (overwrite ==> c.length == 1) && c.length > 0
    requires ListInv(c, s.phase, s.q.toReceive, s.wokenReceivers, false)
    requires ListInv(c, s.phase, s.q.toSend, s.wokenSenders, true)
    ensures var s' := Woke(s, Q.IsrPost(s.q, c.length, overwrite, c.Tasks()));
            && s'.phase == s.phase && s'.suspender == s.suspender && s'.q.count <= c.length
            && ListInv(c, s'.phase, s'.q.toReceive, s'.wokenReceivers, false)
            && ListInv(c, s'.phase, s'.q.toSend, s'.wokenSenders, true)
            && |s'.wokenReceivers| == |s.wokenReceivers| + |s.q.toReceive| - |s'.q.toReceive|
            && s'.wokenSenders == s.wokenSenders
  {
    hide ListInv, Q.CappedIncrement;
    var q := Q.IsrPost(s.q, c.length, overwrite, c.Tasks());
    if s.q.txLock == Q.UNLOCKED && s.q.toReceive != [] && (s.q.count < c.length || overwrite) {
      WokeLists(c, s, q, 1, 0);
    } else {
      WokeNobody(s, q);
    }
  }

  lemma IsrPostLocks(c: Config, s: State, overwrite: bool)
    requires c.Tasks() <= 127 && LockInv(c, s) && Q.LocksFit(s.q)
    ensures LockInv(c, Woke(s, Q.IsrPost(s.q, c.length, overwrite, c.Tasks())))
  {
  }

  lemma IsrPostCover(c: Config, s: State, overwrite: bool)
    requires Enabled(c, s, IsrPost(overwrite)) && c.Tasks() <= 127
    requires LockInv(c, s) && CoverInv(c, s) && s.q.count <= c.length
    requires var s' := Next(c, s, IsrPost(overwrite));
             && |s'.wokenReceivers| == |s.wokenReceivers| + |s.q.toReceive| - |s'.q.toReceive|
             && s'.wokenSenders == s.wokenSenders
    ensures CoverInv(c, Next(c, s, IsrPost(overwrite)))
  {
    hide Q.CappedIncrement, Woke, ReceiverInv, SenderInv, LockInv;
    IsrPostSenders(c, s, overwrite);
    IsrPostReceivers(c, s, overwrite);
  }

  /** What an interrupt's post does to the queue. */
  lemma IsrPostFrame(q: Q.State, length: nat, overwrite: bool, tasks: nat)
    requires Q.LocksFit(q)
    ensures var q' := Q.IsrPost(q, length, overwrite, tasks);
            && q'.toSend == q.toSend && q'.rxLock == q.rxLock && q.count <= q'.count <= q.count + 1
            && (q' == q || (q.txLock == Q.UNLOCKED && q'.txLock == q.txLock && q'.toReceive == Q.Popped(q.toReceive))
                || (q.txLock != Q.UNLOCKED && q'.txLock == Q.CappedIncrement(q.txLock, tasks)
                    && q'.toReceive == q.toReceive))
  {
    hide Q.CappedIncrement;
  }

  lemma IsrPostSenders(c: Config, s: State, overwrite: bool)
    requires Enabled(c, s, IsrPost(overwrite)) && SenderInv(c, s)
    requires Next(c, s, IsrPost(overwrite)).wokenSenders == s.wokenSenders
    ensures SenderInv(c, Next(c, s, IsrPost(overwrite)))
  {
    hide Q.CappedIncrement, Q.IsrPost;
    IsrPostFrame(s.q, c.length, overwrite, c.Tasks());
  }

  lemma IsrPostReceivers(c: Config, s: State, overwrite: bool)
    requires Enabled(c, s, IsrPost(overwrite)) && c.Tasks() <= 127
    requires LockInv(c, s) && ReceiverInv(c, s) && s.q.count <= c.length
    requires var s' := Next(c, s, IsrPost(overwrite));
             |s'.wokenReceivers| == |s.wokenReceivers| + |s.q.toReceive| - |s'.q.toReceive|
    ensures ReceiverInv(c, Next(c, s, IsrPost(overwrite)))
  {
    hide Q.CappedIncrement, Q.IsrPost;
    IsrPostFrame(s.q, c.length, overwrite, c.Tasks());
    CappedStep(s.q.txLock, c.Tasks());
  }

  /** The cap leaves the counter alone once it has reached the number of tasks. */
  lemma CappedStep(lock: int, tasks: nat)
    requires tasks <= 127
    ensures 0 <= lock <= tasks ==> Q.CappedIncrement(lock, tasks) == if lock < tasks then lock + 1 else lock
  {
  }

  lemma {:induction false} KeepsIsrTake(c: Config, s: State)
    requires c.Valid() && c.Tasks() <= 127
    requires Inv(c, s) && Enabled(c, s, IsrTake)
    ensures Inv(c, Next(c, s, IsrTake))
  {
    hide ListInv, LockInv, CoverInv, CallsInv, Q.IsrTake, Woke;
    IsrTakeLists(c, s);
    IsrTakeLocks(c, s);
    IsrTakeCover(c, s);
  }

  lemma IsrTakeLists(c: Config, s: State)
    requires Q.LocksFit(s.q) && s.q.count <= c.length
    requires ListInv(c, s.phase, s.q.toReceive, s.wokenReceivers, false)
    requires ListInv(c, s.phase, s.q.toSend, s.wokenSenders, true)
    ensures var s' := Woke(s, Q.IsrTake(s.q, c.Tasks()));
            && s'.phase == s.phase && s'.suspender == s.suspender && s'.q.count <= c.length
            && ListInv(c, s'.phase, s'.q.toReceive, s'.wokenReceivers, false)
            && ListInv(c, s'.phase, s'.q.toSend, s'.wokenSenders, true)
            && s'.wokenReceivers == s.wokenReceivers
            && |s'.wokenSenders| == |s.wokenSenders| + |s.q.toSend| - |s'.q.toSend|
  {
    hide ListInv, Q.CappedIncrement;
    var q := Q.IsrTake(s.q, c.Tasks());
    if s.q.rxLock == Q.UNLOCKED && s.q.toSend != [] && s.q.count > 0 {
      WokeLists(c, s, q, 0, 1);
    } else {
      WokeNobody(s, q);
    }
  }

  lemma IsrTakeLocks(c: Config, s: State)
    requires c.Tasks() <= 127 && LockInv(c, s) && Q.LocksFit(s.q)
    ensures LockInv(c, Woke(s, Q.IsrTake(s.q, c.Tasks())))
  {
  }

  /** What an interrupt's take does to the queue. */
  lemma IsrTakeFrame(q: Q.State, tasks: nat)
    requires Q.LocksFit(q)
    ensures var q' := Q.IsrTake(q, tasks);
            && q'.toReceive == q.toReceive && q'.txLock == q.txLock && q'.count <= q.count <= q'.count + 1
            && (q' == q || (q.rxLock == Q.UNLOCKED && q'.rxLock == q.rxLock && q'.toSend == Q.Popped(q.toSend))
                || (q.rxLock != Q.UNLOCKED && q'.rxLock == Q.CappedIncrement(q.rxLock, tasks) && q'.toSend == q.toSend))
  {
    hide Q.CappedIncrement;
  }

  lemma IsrTakeCover(c: Config, s: State)
    requires Enabled(c, s, IsrTake) && c.Tasks() <= 127
    requires LockInv(c, s) && CoverInv(c, s)
    requires var s' := Next(c, s, IsrTake);
             && |s'.wokenSenders| == |s.wokenSenders| + |s.q.toSend| - |s'.q.toSend|
             && s'.wokenReceivers == s.wokenReceivers
    ensures CoverInv(c, Next(c, s, IsrTake))
  {
    hide Q.CappedIncrement, Q.IsrTake;
    IsrTakeFrame(s.q, c.Tasks());
    CappedStep(s.q.rxLock, c.Tasks());
  }

  // The steps of a task.  Outside a held section the scheduler is not suspended.

  lemma KeepsQuietly(c: Config, s: State, t: nat, choice: bool)
    requires Inv(c, s) && Enabled(c, s, Run(t, choice))
    requires var p := s.phase[t]; p.Suspending? || p.Timing? || p.Checking? || p.Waiting? || p.Rechecking?
    ensures Inv(c, RunTask(c, s, t, choice))
  {
    var p := RunTask(c, s, t, choice).phase[t];
    ListGoto(c, s.phase, s.q.toReceive, s.wokenReceivers, false, t, p);
    ListGoto(c, s.phase, s.q.toSend, s.wokenSenders, true, t, p);
  }

  lemma KeepsLocking(c: Config, s: State, t: nat, choice: bool)
    requires Inv(c, s) && Enabled(c, s, Run(t, choice)) && s.phase[t].Locking?
    ensures Inv(c, RunTask(c, s, t, choice))
  {
    var p := Timing(s.phase[t].call);
    ListGoto(c, s.phase, s.q.toReceive, s.wokenReceivers, false, t, p);
    ListGoto(c, s.phase, s.q.toSend, s.wokenSenders, true, t, p);
  }

  lemma KeepsPlacing(c: Config, s: State, t: nat, choice: bool)
    requires Inv(c, s) && Enabled(c, s, Run(t, choice)) && s.phase[t].Placing?
    ensures Inv(c, RunTask(c, s, t, choice))
  {
    var call := s.phase[t].call;
    var p := UnlockingTx(call, Block);
    if call.Send? {
      ListGoto(c, s.phase, s.q.toReceive, s.wokenReceivers, false, t, p);
      ListPlaced(c, s.phase, s.q.toSend, s.wokenSenders, true, t, p);
    } else {
      ListPlaced(c, s.phase, s.q.toReceive, s.wokenReceivers, false, t, p);
      ListGoto(c, s.phase, s.q.toSend, s.wokenSenders, true, t, p);
    }
  }

  lemma KeepsResuming(c: Config, s: State, t: nat, choice: bool)
    requires Inv(c, s) && Enabled(c, s, Run(t, choice)) && s.phase[t].Resuming?
    ensures Inv(c, RunTask(c, s, t, choice))
  {
    var p := RunTask(c, s, t, choice).phase[t];
    ListGoto(c, s.phase, s.q.toReceive, s.wokenReceivers, false, t, p);
    ListGoto(c, s.phase, s.q.toSend, s.wokenSenders, true, t, p);
  }

  function Paid(l: seq<Entry>, lock: int): nat {
    if Q.Owed(lock) <= |l| then Q.Owed(lock) else |l|
  }

  lemma DrainedAs(l: seq<Entry>, lock: int)
    ensures Q.Drained(l, Q.Owed(lock)) == l[Paid(l, lock)..]
  {
  }

  ghost predicate ListsInv(c: Config, s: State) {
    && ListInv(c, s.phase, s.q.toReceive, s.wokenReceivers, false)
    && ListInv(c, s.phase, s.q.toSend, s.wokenSenders, true)
  }

  /** The task moves on to a phase that means the same to the event lists. */
  lemma MovedOn(c: Config, s: State, t: nat, p: Phase)
    requires ListsInv(c, s) && t < |s.phase|
    requires Placed(s.phase[t], false) ==> Placed(p, false)
    requires Placed(s.phase[t], true) ==> Placed(p, true)
    requires MayBeWoken(s.phase[t], false) ==> MayBeWoken(p, false)
    requires MayBeWoken(s.phase[t], true) ==> MayBeWoken(p, true)
    ensures ListsInv(c, Goto(s, t, p))
  {
    ListGoto(c, s.phase, s.q.toReceive, s.wokenReceivers, false, t, p);
    ListGoto(c, s.phase, s.q.toSend, s.wokenSenders, true, t, p);
  }

  /** A task that is neither placed nor woken moves anywhere. */
  lemma MovedAway(c: Config, s: State, t: nat, p: Phase)
    requires ListsInv(c, s) && t < |s.phase|
    requires !Placed(s.phase[t], false) && !Placed(s.phase[t], true)
    requires t !in s.wokenReceivers && t !in s.wokenSenders
    ensures ListsInv(c, Goto(s, t, p))
  {
    ListGoto(c, s.phase, s.q.toReceive, s.wokenReceivers, false, t, p);
    ListGoto(c, s.phase, s.q.toSend, s.wokenSenders, true, t, p);
  }

  function AfterUnlockTx(s: State, t: nat): State
    requires t < |s.phase| && s.phase[t].UnlockingTx?
  {
    Goto(Woke(s, Q.UnlockTx(s.q)), t, UnlockingRx(s.phase[t].call, s.phase[t].next))
  }

  lemma UnlockTxLists(c: Config, s: State, t: nat)
    requires ListsInv(c, s) && t < |s.phase| && s.phase[t].UnlockingTx?
    ensures ListsInv(c, AfterUnlockTx(s, t)) && |s.q.toReceive| <= c.Tasks()
    ensures |AfterUnlockTx(s, t).wokenReceivers| == |s.wokenReceivers| + Paid(s.q.toReceive, s.q.txLock)
    ensures AfterUnlockTx(s, t).wokenSenders == s.wokenSenders
  {
    hide ListInv;
    ListBounded(c, s.phase, s.q.toReceive, s.wokenReceivers, false);
    DrainedAs(s.q.toReceive, s.q.txLock);
    WokeLists(c, s, Q.UnlockTx(s.q), Paid(s.q.toReceive, s.q.txLock), 0);
    MovedOn(c, Woke(s, Q.UnlockTx(s.q)), t, UnlockingRx(s.phase[t].call, s.phase[t].next));
  }

  lemma UnlockTxLocks(c: Config, s: State, t: nat)
    requires t < |s.phase| && s.phase[t].UnlockingTx? && LockInv(c, s)
    ensures LockInv(c, AfterUnlockTx(s, t))
  {
  }

  lemma UnlockTxCover(c: Config, s: State, s': State, t: nat)
    requires t < |s.phase| && s.phase[t].UnlockingTx? && s' == AfterUnlockTx(s, t)
    requires LockInv(c, s) && CoverInv(c, s) && |s.q.toReceive| <= c.Tasks()
    requires |s'.wokenReceivers| == |s.wokenReceivers| + Paid(s.q.toReceive, s.q.txLock)
    requires s'.wokenSenders == s.wokenSenders
    ensures CoverInv(c, s')
  {
  }

  lemma UnlockTxRest(c: Config, s: State, s': State, t: nat)
    requires t < |s.phase| && s.phase[t].UnlockingTx? && s' == AfterUnlockTx(s, t)
    requires LockInv(c, s) && CoverInv(c, s) && |s.q.toReceive| <= c.Tasks()
    requires |s'.wokenReceivers| == |s.wokenReceivers| + Paid(s.q.toReceive, s.q.txLock)
    requires s'.wokenSenders == s.wokenSenders
    ensures LockInv(c, s') && CoverInv(c, s')
  {
    hide LockInv, CoverInv;
    UnlockTxLocks(c, s, t);
    UnlockTxCover(c, s, s', t);
  }

  function AfterUnlockRx(s: State, t: nat): State
    requires t < |s.phase| && s.phase[t].UnlockingRx?
  {
    Goto(Woke(s, Q.UnlockRx(s.q)), t, Resuming(s.phase[t].call, s.phase[t].next))
  }

  lemma UnlockRxLists(c: Config, s: State, t: nat)
    requires ListsInv(c, s) && t < |s.phase| && s.phase[t].UnlockingRx?
    ensures ListsInv(c, AfterUnlockRx(s, t)) && |s.q.toSend| <= c.Tasks()
    ensures |AfterUnlockRx(s, t).wokenSenders| == |s.wokenSenders| + Paid(s.q.toSend, s.q.rxLock)
    ensures AfterUnlockRx(s, t).wokenReceivers == s.wokenReceivers
  {
    hide ListInv;
    ListBounded(c, s.phase, s.q.toSend, s.wokenSenders, true);
    DrainedAs(s.q.toSend, s.q.rxLock);
    WokeLists(c, s, Q.UnlockRx(s.q), 0, Paid(s.q.toSend, s.q.rxLock));
    MovedOn(c, Woke(s, Q.UnlockRx(s.q)), t, Resuming(s.phase[t].call, s.phase[t].next));
  }

  lemma UnlockRxLocks(c: Config, s: State, t: nat)
    requires t < |s.phase| && s.phase[t].UnlockingRx? && LockInv(c, s)
    ensures LockInv(c, AfterUnlockRx(s, t))
  {
  }

  lemma UnlockRxCover(c: Config, s: State, s': State, t: nat)
    requires t < |s.phase| && s.phase[t].UnlockingRx? && s' == AfterUnlockRx(s, t)
    requires LockInv(c, s) && CoverInv(c, s) && |s.q.toSend| <= c.Tasks()
    requires |s'.wokenSenders| == |s.wokenSenders| + Paid(s.q.toSend, s.q.rxLock)
    requires s'.wokenReceivers == s.wokenReceivers
    ensures CoverInv(c, s')
  {
  }

  lemma UnlockRxRest(c: Config, s: State, s': State, t: nat)
    requires t < |s.phase| && s.phase[t].UnlockingRx? && s' == AfterUnlockRx(s, t)
    requires LockInv(c, s) && CoverInv(c, s) && |s.q.toSend| <= c.Tasks()
    requires |s'.wokenSenders| == |s.wokenSenders| + Paid(s.q.toSend, s.q.rxLock)
    requires s'.wokenReceivers == s.wokenReceivers
    ensures LockInv(c, s') && CoverInv(c, s')
  {
    hide LockInv, CoverInv;
    UnlockRxLocks(c, s, t);
    UnlockRxCover(c, s, s', t);
  }

  lemma ForgottenLists(c: Config, s: State, t: nat)
    requires ListsInv(c, s)
    ensures ListsInv(c, Forgotten(s, t))
    ensures |Forgotten(s, t).wokenReceivers| >= |s.wokenReceivers| - (if t in s.wokenReceivers then 1 else 0)
    ensures |Forgotten(s, t).wokenSenders| >= |s.wokenSenders| - (if t in s.wokenSenders then 1 else 0)
  {
    ListForget(c, s.phase, s.q.toReceive, s.wokenReceivers, false, t);
    ListForget(c, s.phase, s.q.toSend, s.wokenSenders, true, t);
  }

  lemma TrySuccessLists(c: Config, s: State, t: nat, q: Q.State)
    requires ListsInv(c, s) && t < |s.phase| && s.phase[t].Trying?
    requires q.toReceive in {s.q.toReceive, Q.Popped(s.q.toReceive)}
    requires q.toSend in {s.q.toSend, Q.Popped(s.q.toSend)}
    ensures ListsInv(c, TrySuccess(s, t, q))
    ensures |TrySuccess(s, t, q).wokenReceivers| == |Forgotten(s, t).wokenReceivers| + |s.q.toReceive| - |q.toReceive|
    ensures |TrySuccess(s, t, q).wokenSenders| == |Forgotten(s, t).wokenSenders| + |s.q.toSend| - |q.toSend|
  {
    var f := Forgotten(s, t);
    ForgottenLists(c, s, t);
    WokeLists(c, f, q, |s.q.toReceive| - |q.toReceive|, |s.q.toSend| - |q.toSend|);
    NotPlaced(c, s, t);
    MovedAway(c, Woke(f, q), t, Outside);
  }

  lemma NotPlaced(c: Config, s: State, t: nat)
    requires ListsInv(c, s) && t < |s.phase| && !Placed(s.phase[t], false) && !Placed(s.phase[t], true)
    ensures t !in Ids(s.q.toReceive) && t !in Ids(s.q.toSend)
    ensures t in s.wokenReceivers ==> s.phase[t].Trying? && !s.phase[t].call.Send?
    ensures t in s.wokenSenders ==> s.phase[t].Trying? && s.phase[t].call.Send?
  {
  }

  lemma TryFailureLists(c: Config, s: State, t: nat, p: Phase)
    requires ListsInv(c, s) && t < |s.phase| && s.phase[t].Trying?
    ensures ListsInv(c, Goto(Forgotten(s, t), t, p))
  {
    ForgottenLists(c, s, t);
    MovedAway(c, Forgotten(s, t), t, p);
  }

  /** At the top of the loop the scheduler runs, so both locks are off. */
  lemma TryLocks(c: Config, s: State, s': State, t: nat, p: Phase)
    requires LockInv(c, s) && t < |s.phase| && s.phase[t].Trying? && s.suspender in {None, Some(t)}
    requires s'.suspender == s.suspender && s'.q.txLock == s.q.txLock && s'.q.rxLock == s.q.rxLock
    requires !Holding(p) && s'.phase == s.phase[t := p]
    ensures LockInv(c, s') && s.suspender == None
    ensures s'.q.txLock == Q.UNLOCKED && s'.q.rxLock == Q.UNLOCKED
  {
  }

  lemma TryCover(c: Config, s: State, s': State, r: int, w: int)
    requires CoverInv(c, s) && s.suspender == None && s'.suspender == None
    requires s.q.txLock == Q.UNLOCKED && s.q.rxLock == Q.UNLOCKED
    requires s'.q.txLock == Q.UNLOCKED && s'.q.rxLock == Q.UNLOCKED
    requires |s'.wokenReceivers| >= |s.wokenReceivers| + r && |s'.wokenSenders| >= |s.wokenSenders| + w
    requires s'.q.toReceive != [] ==> (s.q.toReceive != [] && s'.q.count <= s.q.count + r) || s'.q.count == 0
    requires s'.q.toSend != [] ==> (s.q.toSend != [] && s.q.count <= s'.q.count + w) || s'.q.count == c.length
    ensures CoverInv(c, s')
  {
  }

  /** What the section at the top of the loop does when it succeeds. */
  ghost predicate Succeeds(c: Config, s: State, t: nat, q: Q.State) {
    && t < |s.phase| && s.phase[t].Trying?
    && match s.phase[t].call
       case Receive => s.q.count > 0 && q == Q.TaskTake(s.q)
       case Peek => s.q.count > 0 && q == Q.TaskPeek(s.q)
       case Send(overwrite) =>
         q == Q.TaskPost(s.q, overwrite)
         && (overwrite ==> c.length == 1) && (s.q.count < c.length || overwrite)
  }

  lemma SucceedsFrame(c: Config, s: State, t: nat, q: Q.State)
    requires Succeeds(c, s, t, q) && s.q.count <= c.length
    ensures q.txLock == s.q.txLock && q.rxLock == s.q.rxLock && q.count <= c.length
    ensures q.toReceive in {s.q.toReceive, Q.Popped(s.q.toReceive)} && q.toSend in {s.q.toSend, Q.Popped(s.q.toSend)}
  {
  }

  lemma CallsEnd(c: Config, phase: seq<Phase>, t: nat)
    requires CallsInv(c, phase) && t < |phase|
    ensures CallsInv(c, phase[t := Outside])
  {
  }

  lemma KeepsTrySuccess(c: Config, s: State, t: nat, q: Q.State)
    requires c.Valid() && Inv(c, s) && s.suspender in {None, Some(t)} && Succeeds(c, s, t, q)
    ensures Inv(c, TrySuccess(s, t, q))
  {
    hide ListInv, LockInv, CoverInv, CallsInv, Q.TaskTake, Q.TaskPeek, Q.TaskPost, Q.Popped;
    SucceedsFrame(c, s, t, q);
    TrySuccessLists(c, s, t, q);
    TryLocks(c, s, TrySuccess(s, t, q), t, Outside);
    TrySuccessCover(c, s, t, q);
    CallsEnd(c, s.phase, t);
  }

  /** By how much a successful section moves the count, and whom it takes off the lists. */
  lemma SucceedsMoves(c: Config, s: State, t: nat, q: Q.State)
    requires Succeeds(c, s, t, q) && s.q.count <= c.length
    ensures match s.phase[t].call
            case Receive => q.count == s.q.count - 1 && q.toReceive == s.q.toReceive && q.toSend == Q.Popped(s.q.toSend)
            case Peek => q.count == s.q.count && q.toReceive == Q.Popped(s.q.toReceive) && q.toSend == s.q.toSend
            case Send(_) =>
              && q.count <= s.q.count + 1 && (q.count == s.q.count + 1 || q.count == c.length)
              && q.toReceive == Q.Popped(s.q.toReceive) && q.toSend == s.q.toSend
  {
  }

  lemma TrySuccessCover(c: Config, s: State, t: nat, q: Q.State)
    requires c.Valid() && Inv(c, s) && s.suspender in {None, Some(t)} && Succeeds(c, s, t, q)
    ensures CoverInv(c, TrySuccess(s, t, q))
  {
    hide ListInv, LockInv, CoverInv, Q.TaskTake, Q.TaskPeek, Q.TaskPost;
    var s' := TrySuccess(s, t, q);
    ForgottenLists(c, s, t);
    NotPlaced(c, s, t);
    SucceedsFrame(c, s, t, q);
    SucceedsMoves(c, s, t, q);
    TrySuccessLists(c, s, t, q);
    TryLocks(c, s, s', t, Outside);
    hide Forgotten, ListsInv, CallsInv, Succeeds;
    match s.phase[t].call {
      case Receive => TryCover(c, s, s', -1, if s.q.toSend == [] then 0 else 1);
      case Peek => TryCover(c, s, s', if s.q.toReceive == [] then -1 else 0, 0);
      case Send(_) => TryCover(c, s, s', if s.q.toReceive == [] then 0 else 1, -1);
    }
  }

  lemma KeepsTryFailure(c: Config, s: State, t: nat, p: Phase)
    requires c.Valid() && Inv(c, s) && t < |s.phase| && s.phase[t].Trying?
    requires s.suspender in {None, Some(t)}
    requires if s.phase[t].call.Send? then s.q.count == c.length else s.q.count == 0
    requires p in {Outside, Suspending(s.phase[t].call)}
    ensures Inv(c, Goto(Forgotten(s, t), t, p))
  {
    hide ListInv, LockInv, CoverInv;
    var s' := Goto(Forgotten(s, t), t, p);
    ForgottenLists(c, s, t);
    NotPlaced(c, s, t);
    TryFailureLists(c, s, t, p);
    TryLocks(c, s, s', t, p);
    FailedCover(c, s, s', s.phase[t].call.Send?);
  }

  lemma FailedCover(c: Config, s: State, s': State, sending: bool)
    requires CoverInv(c, s) && s.suspender == None && s'.suspender == None && s'.q == s.q
    requires if sending then s.q.count == c.length else s.q.count == 0
    requires if sending then |s'.wokenReceivers| >= |s.wokenReceivers| else |s'.wokenSenders| >= |s.wokenSenders|
    ensures CoverInv(c, s')
  {
  }

  lemma {:induction false} KeepsTrying(c: Config, s: State, t: nat, choice: bool)
    requires c.Valid() && Inv(c, s) && t < |s.phase| && s.phase[t].Trying?
    requires s.suspender in {None, Some(t)}
    ensures Inv(c, Try(c, s, t, choice))
  {
    hide ListInv, LockInv, CoverInv;
    var call := s.phase[t].call;
    var failed := if choice then Suspending(call) else Outside;
    match call {
      case Receive =>
        if s.q.count > 0 { KeepsTrySuccess(c, s, t, Q.TaskTake(s.q)); } else { KeepsTryFailure(c, s, t, failed); }
      case Peek =>
        if s.q.count > 0 { KeepsTrySuccess(c, s, t, Q.TaskPeek(s.q)); } else { KeepsTryFailure(c, s, t, failed); }
      case Send(overwrite) =>
        if s.q.count < c.length || overwrite { KeepsTrySuccess(c, s, t, Q.TaskPost(s.q, overwrite)); }
        else { KeepsTryFailure(c, s, t, failed); }
    }
  }

  lemma {:induction false} KeepsUnlockTx(c: Config, s: State, t: nat)
    requires Inv(c, s) && t < |s.phase| && s.phase[t].UnlockingTx?
    ensures Inv(c, AfterUnlockTx(s, t))
  {
    hide ListInv, LockInv, CoverInv;
    UnlockTxLists(c, s, t);
    UnlockTxRest(c, s, AfterUnlockTx(s, t), t);
  }

  lemma {:induction false} KeepsUnlockRx(c: Config, s: State, t: nat)
    requires Inv(c, s) && t < |s.phase| && s.phase[t].UnlockingRx?
    ensures Inv(c, AfterUnlockRx(s, t))
  {
    hide ListInv, LockInv, CoverInv;
    UnlockRxLists(c, s, t);
    UnlockRxRest(c, s, AfterUnlockRx(s, t), t);
  }

  lemma KeepsRun(c: Config, s: State, t: nat, choice: bool)
    requires c.Valid() && Inv(c, s) && Enabled(c, s, Run(t, choice))
    ensures Inv(c, RunTask(c, s, t, choice))
  {
    hide Inv, Woke, Try;
    match s.phase[t] {
      case Trying(_) => KeepsTrying(c, s, t, choice);
      case Locking(_) => KeepsLocking(c, s, t, choice);
      case Placing(_) => KeepsPlacing(c, s, t, choice);
      case UnlockingTx(_, _) => KeepsUnlockTx(c, s, t);
      case UnlockingRx(_, _) => KeepsUnlockRx(c, s, t);
      case Resuming(_, _) => KeepsResuming(c, s, t, choice);
      case _ => KeepsQuietly(c, s, t, choice);
    }
  }

  lemma Keeps(c: Config, s: State, step: Step)
    requires c.Valid() && c.Tasks() <= 127
    requires Inv(c, s) && Enabled(c, s, step)
    ensures Inv(c, Next(c, s, step))
  {
    hide Inv, RunTask, Woke;
    match step {
      case Begin(t, call) => KeepsBegin(c, s, t, call);
      case Run(t, choice) => KeepsRun(c, s, t, choice);
      case Expire(t) => KeepsExpire(c, s, t);
      case IsrPost(overwrite) => KeepsIsrPost(c, s, overwrite);
      case IsrTake => KeepsIsrTake(c, s);
    }
  }

  // The theorems

  lemma {:induction false} RunsKeepInv(c: Config, steps: seq<Step>)
    requires c.Valid() && c.Tasks() <= 127 && Exec(c, steps).Some?
    ensures Inv(c, Exec(c, steps).value)
    decreases |steps|
  {
    if steps == [] {
      assert Ids([]) == {};
    } else {
      var last := |steps| - 1;
      RunsKeepInv(c, steps[..last]);
      Keeps(c, Exec(c, steps[..last]).value, steps[last]);
    }
  }

  /** No wake-up is lost: in every run, of any length, by up to 127 tasks. */
  lemma {:induction false} NoLostWakeUp(c: Config, steps: seq<Step>)
    requires c.Valid() && c.Tasks() <= 127 && Exec(c, steps).Some?
    ensures var s := Exec(c, steps).value;
            && ReceiversCovered(c, s) && SendersCovered(c, s)
            && (Quiescent(s) ==> NobodyStranded(c, s))
  {
    RunsKeepInv(c, steps);
  }

  /** The task woken is always one of highest priority among those that wait. */
  lemma WakesTheMostUrgent(c: Config, steps: seq<Step>, e: Entry)
    requires c.Valid() && c.Tasks() <= 127 && Exec(c, steps).Some?
    ensures var q := Exec(c, steps).value.q;
            && (e in q.toReceive ==> e.id < c.Tasks() && q.toReceive[0].id < c.Tasks()
                                     && c.priorities[e.id] <= c.priorities[q.toReceive[0].id])
            && (e in q.toSend ==> e.id < c.Tasks() && q.toSend[0].id < c.Tasks()
                                  && c.priorities[e.id] <= c.priorities[q.toSend[0].id])
  {
    RunsKeepInv(c, steps);
    var q := Exec(c, steps).value.q;
    if e in q.toReceive {
      assert q.toReceive[0] in q.toReceive;
    }
    if e in q.toSend {
      assert q.toSend[0] in q.toSend;
    }
  }

  // 127 tasks is exactly the limit: from 128 on, a counter can wrap to a negative value

  lemma ExecExtends(c: Config, steps: seq<Step>, step: Step, s: State, s': State)
    requires Exec(c, steps) == Some(s) && Enabled(c, s, step) && Next(c, s, step) == s'
    ensures Exec(c, steps + [step]) == Some(s')
  {
    assert (steps + [step])[..|steps|] == steps;
  }

  /** Task 0 listed as a receiver and about to unlock, with every other task outside. */
  function Overloaded(c: Config, phase: Phase, suspended: bool, count: nat, tx: int, rx: int): State
    requires c.Tasks() > 0
  {
    State(Q.State(count, tx, rx, [], [Entry(0, c.EventValue(0))]),
          seq(c.Tasks(), _ => Outside)[0 := phase], if suspended then Some(0) else None, {}, {})
  }

  function Approach(): seq<Step> {
    [Begin(0, Receive), Run(0, true), Run(0, true), Run(0, true), Run(0, false), Run(0, true), Run(0, true)]
  }

  /** Task 0 before it is listed. */
  function Alone(c: Config, phase: Phase, suspended: bool, lock: int): State
    requires c.Tasks() > 0
  {
    State(Q.State(0, lock, lock, [], []), seq(c.Tasks(), _ => Outside)[0 := phase],
          if suspended then Some(0) else None, {}, {})
  }

  lemma ApproachTries(c: Config)
    requires c.Valid()
    ensures Exec(c, Approach()[..3]) == Some(Alone(c, Locking(Receive), true, Q.UNLOCKED))
  {
    var a := Approach();
    var s1, s2 := Alone(c, Trying(Receive), false, Q.UNLOCKED), Alone(c, Suspending(Receive), false, Q.UNLOCKED);
    assert Exec(c, []) == Some(Initial(c));
    hide Exec;
    ExecExtends(c, [], a[0], Initial(c), s1);
    assert [] + [a[0]] == a[..1];
    ExecExtends(c, a[..1], a[1], s1, s2);
    assert a[..1] + [a[1]] == a[..2];
    ExecExtends(c, a[..2], a[2], s2, Alone(c, Locking(Receive), true, Q.UNLOCKED));
    assert a[..2] + [a[2]] == a[..3];
  }

  /** Task 0 gets on the event list of an empty queue. */
  lemma ApproachRuns(c: Config)
    requires c.Valid()
    ensures Exec(c, Approach()) == Some(Overloaded(c, UnlockingTx(Receive, Block), true, 0, 0, 0))
  {
    var a := Approach();
    var s4, s5 := Alone(c, Timing(Receive), true, 0), Alone(c, Checking(Receive), true, 0);
    var s6 := Alone(c, Placing(Receive), true, 0);
    hide Exec;
    ApproachTries(c);
    ExecExtends(c, a[..3], a[3], Alone(c, Locking(Receive), true, Q.UNLOCKED), s4);
    assert a[..3] + [a[3]] == a[..4];
    ExecExtends(c, a[..4], a[4], s4, s5);
    assert a[..4] + [a[4]] == a[..5];
    ExecExtends(c, a[..5], a[5], s5, s6);
    assert a[..5] + [a[5]] == a[..6];
    ExecExtends(c, a[..6], a[6], s6, Overloaded(c, UnlockingTx(Receive, Block), true, 0, 0, 0));
    assert a[..6] + [a[6]] == a;
  }

  lemma OverloadedPost(c: Config, tx: int, rx: int)
    requires c.Valid() && c.Tasks() >= 128 && 0 <= tx <= 127 && 0 <= rx <= 127
    ensures var s := Overloaded(c, UnlockingTx(Receive, Block), true, 0, tx, rx);
            && Enabled(c, s, IsrPost(false))
            && Next(c, s, IsrPost(false))
               == Overloaded(c, UnlockingTx(Receive, Block), true, 1, if tx == 127 then -128 else tx + 1, rx)
  {
    hide Exec;
    var s := Overloaded(c, UnlockingTx(Receive, Block), true, 0, tx, rx);
    WokeNobody(s, Q.IsrPost(s.q, c.length, false, c.Tasks()));
  }

  lemma OverloadedTake(c: Config, tx: int, rx: int)
    requires c.Valid() && c.Tasks() >= 128 && 0 <= tx <= 127 && 0 <= rx < 127
    ensures var s := Overloaded(c, UnlockingTx(Receive, Block), true, 1, tx, rx);
            && Enabled(c, s, IsrTake)
            && Next(c, s, IsrTake) == Overloaded(c, UnlockingTx(Receive, Block), true, 0, tx, rx + 1)
  {
    hide Exec;
    var s := Overloaded(c, UnlockingTx(Receive, Block), true, 1, tx, rx);
    WokeNobody(s, Q.IsrTake(s.q, c.Tasks()));
  }

  /** Unlocking pays nothing when the transmit counter is negative, and there is no sender. */
  lemma OverloadedUnlock(c: Config, rx: int)
    requires c.Valid()
    ensures var s1 := Overloaded(c, UnlockingTx(Receive, Block), true, 1, -128, rx);
            var s2 := Overloaded(c, UnlockingRx(Receive, Block), true, 1, Q.UNLOCKED, rx);
            Enabled(c, s1, Run(0, true)) && Next(c, s1, Run(0, true)) == s2
    ensures var s2 := Overloaded(c, UnlockingRx(Receive, Block), true, 1, Q.UNLOCKED, rx);
            var s3 := Overloaded(c, Resuming(Receive, Block), true, 1, Q.UNLOCKED, Q.UNLOCKED);
            Enabled(c, s2, Run(0, true)) && Next(c, s2, Run(0, true)) == s3
    ensures var s3 := Overloaded(c, Resuming(Receive, Block), true, 1, Q.UNLOCKED, Q.UNLOCKED);
            var s4 := Overloaded(c, Waiting(Receive), false, 1, Q.UNLOCKED, Q.UNLOCKED);
            Enabled(c, s3, Run(0, true)) && Next(c, s3, Run(0, true)) == s4
  {
    var s1 := Overloaded(c, UnlockingTx(Receive, Block), true, 1, -128, rx);
    var s2 := Overloaded(c, UnlockingRx(Receive, Block), true, 1, Q.UNLOCKED, rx);
    WokeNobody(s1, Q.UnlockTx(s1.q));
    WokeNobody(s2, Q.UnlockRx(s2.q));
  }

  function Storm(k: nat): seq<Step> {
    if k == 0 then Approach() else Storm(k - 1) + [IsrPost(false)] + [IsrTake]
  }

  /** While task 0 holds the lock, interrupts post and take `k` times: both counters reach `k`. */
  lemma {:induction false} StormRuns(c: Config, k: nat)
    requires c.Valid() && c.Tasks() >= 128 && k <= 127
    ensures Exec(c, Storm(k)) == Some(Overloaded(c, UnlockingTx(Receive, Block), true, 0, k, k))
  {
    hide Overloaded, Next, Enabled, Exec;
    if k == 0 {
      ApproachRuns(c);
    } else {
      var p := UnlockingTx(Receive, Block);
      StormRuns(c, k - 1);
      OverloadedPost(c, k - 1, k - 1);
      OverloadedTake(c, k, k - 1);
      ExecExtends(c, Storm(k - 1), IsrPost(false), Overloaded(c, p, true, 0, k - 1, k - 1),
                  Overloaded(c, p, true, 1, k, k - 1));
      ExecExtends(c, Storm(k - 1) + [IsrPost(false)], IsrTake, Overloaded(c, p, true, 1, k, k - 1),
                  Overloaded(c, p, true, 0, k, k));
    }
  }

  function Stranding(): seq<Step> {
    Storm(127) + [IsrPost(false)] + [Run(0, true)] + [Run(0, true)] + [Run(0, true)]
  }

  /** One more post wraps the transmit counter to -128, and the unlock then wakes nobody: the task
      sleeps beside a message with nothing left to wake it. */
  lemma StrandingRuns(c: Config)
    requires c.Valid() && c.Tasks() >= 128
    ensures Exec(c, Stranding()) == Some(Overloaded(c, Waiting(Receive), false, 1, Q.UNLOCKED, Q.UNLOCKED))
  {
    hide Overloaded, Next, Enabled, Exec, Storm;
    StormRuns(c, 127);
    OverloadedPost(c, 127, 127);
    OverloadedUnlock(c, 127);
    var s := Overloaded(c, UnlockingTx(Receive, Block), true, 0, 127, 127);
    var s1 := Overloaded(c, UnlockingTx(Receive, Block), true, 1, -128, 127);
    var s2 := Overloaded(c, UnlockingRx(Receive, Block), true, 1, Q.UNLOCKED, 127);
    var s3 := Overloaded(c, Resuming(Receive, Block), true, 1, Q.UNLOCKED, Q.UNLOCKED);
    var s4 := Overloaded(c, Waiting(Receive), false, 1, Q.UNLOCKED, Q.UNLOCKED);
    ExecExtends(c, Storm(127), IsrPost(false), s, s1);
    ExecExtends(c, Storm(127) + [IsrPost(false)], Run(0, true), s1, s2);
    ExecExtends(c, Storm(127) + [IsrPost(false)] + [Run(0, true)], Run(0, true), s2, s3);
    ExecExtends(c, Storm(127) + [IsrPost(false)] + [Run(0, true)] + [Run(0, true)], Run(0, true), s3, s4);
  }

  /** The kernel never strands a task exactly when there are at most 127 tasks. */
  lemma NeverStrandsIff127(c: Config)
    requires c.Valid()
    ensures (forall steps :: Exec(c, steps).Some? ==>
              (Quiescent(Exec(c, steps).value) ==> NobodyStranded(c, Exec(c, steps).value)))
        <==> c.Tasks() <= 127
  {
    if c.Tasks() <= 127 {
      forall steps | Exec(c, steps).Some?
        ensures Quiescent(Exec(c, steps).value) ==> NobodyStranded(c, Exec(c, steps).value)
      {
        NoLostWakeUp(c, steps);
      }
    } else {
      hide Exec, Storm, Stranding;
      StrandingRuns(c);
      var s := Overloaded(c, Waiting(Receive), false, 1, Q.UNLOCKED, Q.UNLOCKED);
      assert Exec(c, Stranding()) == Some(s) && Quiescent(s) && !NobodyStranded(c, s);
    }
  }

  // A queue that holds more than its length

  /** A run from any state; `None` when a step is not enabled. */
  ghost function ExecFrom(c: Config, s: State, steps: seq<Step>): Option<State>
    decreases |steps|
  {
    if steps == [] then Some(s)
    else if Enabled(c, s, steps[0]) then ExecFrom(c, Next(c, s, steps[0]), steps[1..])
    else None
  }

  lemma ExecFirst(c: Config, s: State, step: Step, s': State, steps: seq<Step>)
    requires Enabled(c, s, step) && Next(c, s, step) == s'
    ensures ExecFrom(c, s, [step] + steps) == ExecFrom(c, s', steps)
  {
    assert ([step] + steps)[1..] == steps;
  }

  /** A sender somewhere in its loop, with the locks as they are there. */
  function Looping(s: State, t: nat, p: Phase, locked: bool, tx: int, rx: int): State
    requires t < |s.phase|
  {
    State(s.q.(txLock := tx, rxLock := rx), s.phase[t := p], if locked then Some(t) else None,
          s.wokenReceivers - {t}, s.wokenSenders - {t})
  }

  /** The sender has block time left at each look. */
  function Looks(t: nat): seq<Step> {
    [Run(t, true), Run(t, true), Run(t, true), Run(t, false)] + [Run(t, true), Run(t, true), Run(t, true), Run(t, true)]
  }

  lemma OverfullTries(c: Config, s: State, t: nat, steps: seq<Step>)
    requires |s.phase| == c.Tasks() && t < c.Tasks() && s.phase[t] == Trying(Send(false)) && s.suspender == None
    requires s.q.txLock == Q.UNLOCKED && s.q.rxLock == Q.UNLOCKED && s.q.count > c.length
    ensures ExecFrom(c, s, [Run(t, true), Run(t, true), Run(t, true), Run(t, false)] + steps)
         == ExecFrom(c, Looping(s, t, Checking(Send(false)), true, 0, 0), steps)
  {
    var call, U := Send(false), Q.UNLOCKED;
    var a, b := Looping(s, t, Suspending(call), false, U, U), Looping(s, t, Locking(call), true, U, U);
    var d, e := Looping(s, t, Timing(call), true, 0, 0), Looping(s, t, Checking(call), true, 0, 0);
    hide ExecFrom;
    assert [Run(t, true), Run(t, true), Run(t, true), Run(t, false)] + steps
        == [Run(t, true)] + ([Run(t, true)] + ([Run(t, true)] + ([Run(t, false)] + steps)));
    ExecFirst(c, s, Run(t, true), a, [Run(t, true)] + ([Run(t, true)] + ([Run(t, false)] + steps)));
    ExecFirst(c, a, Run(t, true), b, [Run(t, true)] + ([Run(t, false)] + steps));
    ExecFirst(c, b, Run(t, true), d, [Run(t, false)] + steps);
    ExecFirst(c, d, Run(t, false), e, steps);
  }

  lemma OverfullRetries(c: Config, s: State, t: nat)
    requires |s.phase| == c.Tasks() && t < c.Tasks() && s.q.count > c.length
    ensures ExecFrom(c, Looping(s, t, Checking(Send(false)), true, 0, 0),
                     [Run(t, true), Run(t, true), Run(t, true), Run(t, true)])
         == Some(Looping(s, t, Trying(Send(false)), false, Q.UNLOCKED, Q.UNLOCKED))
  {
    var call, U := Send(false), Q.UNLOCKED;
    var e, f := Looping(s, t, Checking(call), true, 0, 0), Looping(s, t, UnlockingTx(call, Retry), true, 0, 0);
    var g, h := Looping(s, t, UnlockingRx(call, Retry), true, U, 0), Looping(s, t, Resuming(call, Retry), true, U, U);
    var i := Looping(s, t, Trying(call), false, U, U);
    WokeNobody(f, Q.UnlockTx(f.q));
    WokeNobody(g, Q.UnlockRx(g.q));
    assert ExecFrom(c, i, []) == Some(i);
    hide ExecFrom;
    var again := [Run(t, true)];
    assert again + [] == again;
    assert [Run(t, true), Run(t, true), Run(t, true), Run(t, true)] == again + (again + (again + again));
    ExecFirst(c, e, Run(t, true), f, again + (again + again));
    ExecFirst(c, f, Run(t, true), g, again + again);
    ExecFirst(c, g, Run(t, true), h, again);
    ExecFirst(c, h, Run(t, true), i, []);
  }

  /** With more messages than the length, which overwriting an empty item in a full queue gives, a sender
      finds neither room nor a full queue to wait for: it goes round its loop, and after the eight
      sections everything is as it was. */
  lemma OverfullSenderSpins(c: Config, s: State, t: nat)
    requires |s.phase| == c.Tasks() && t < c.Tasks() && s.phase[t] == Trying(Send(false)) && s.suspender == None
    requires s.q.txLock == Q.UNLOCKED && s.q.rxLock == Q.UNLOCKED && s.q.count > c.length
    ensures ExecFrom(c, s, Looks(t)) == Some(Forgotten(s, t))
  {
    hide ExecFrom;
    OverfullTries(c, s, t, [Run(t, true), Run(t, true), Run(t, true), Run(t, true)]);
    OverfullRetries(c, s, t);
    assert Looping(s, t, Trying(Send(false)), false, Q.UNLOCKED, Q.UNLOCKED) == Forgotten(s, t);
  }
}
