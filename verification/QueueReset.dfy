/** Resetting a queue that is in use: one sender is woken, whatever the number of slots that become
    free, and when that strands the others. */
module QueueReset {
  import opened Options
  import opened Wheel
  import Q = QueueSections
  import opened QueueProtocol

  /** xQueueGenericReset by a task, with the scheduler running. */
  function Reset(s: State): State {
    Woke(s, Q.Reset(s.q))
  }

  /** Resetting a queue that is in use wakes one sender only.  Receivers stay covered; the senders
      do so exactly when there is at most one of them, or no room for more than those woken. */
  lemma {:induction false} ResetCover(c: Config, s: State)
    requires c.Valid() && Inv(c, s) && s.suspender == None
    ensures var s' := Reset(s);
            && ReceiversCovered(c, s')
            && (SendersCovered(c, s') <==> |s.q.toSend| <= 1 || c.length <= |s.wokenSenders| + 1)
  {
    hide ListInv;
    var q := Q.Reset(s.q);
    if s.q.toSend == [] {
      WokeNobody(s, q);
    } else {
      WokeLists(c, s, q, 0, 1);
    }
  }

  // Runs from any state

  ghost predicate Leads(c: Config, s: State, steps: seq<Step>, s': State)
    decreases |steps|
  {
    if steps == [] then s == s'
    else Enabled(c, s, steps[0]) && Leads(c, Next(c, s, steps[0]), steps[1..], s')
  }

  ghost predicate Reaches(c: Config, s: State, s': State) {
    exists steps :: Leads(c, s, steps, s')
  }

  lemma {:induction false} LeadsOn(c: Config, s: State, a: seq<Step>, m: State, b: seq<Step>, s': State)
    requires Leads(c, s, a, m) && Leads(c, m, b, s')
    ensures Leads(c, s, a + b, s')
    decreases |a|
  {
    hide Enabled, Next;
    if a == [] {
      assert a + b == b;
    } else {
      LeadsOn(c, Next(c, s, a[0]), a[1..], m, b, s');
      assert (a + b)[1..] == a[1..] + b;
    }
  }

  lemma Stays(c: Config, s: State)
    ensures Reaches(c, s, s)
  {
    assert Leads(c, s, [], s);
  }

  lemma Onward(c: Config, s: State, m: State, s': State)
    requires Reaches(c, s, m) && Reaches(c, m, s')
    ensures Reaches(c, s, s')
  {
    hide Leads;
    var a :| Leads(c, s, a, m);
    var b :| Leads(c, m, b, s');
    LeadsOn(c, s, a, m, b, s');
  }

  lemma OneStep(c: Config, s: State, step: Step, s': State)
    requires Enabled(c, s, step) && Next(c, s, step) == s'
    ensures Reaches(c, s, s')
  {
    hide Enabled, Next;
    assert [step][1..] == [];
    assert Leads(c, s', [], s');
    assert Leads(c, s, [step], s');
  }

  lemma {:induction false} LeadsKeepInv(c: Config, s: State, steps: seq<Step>, s': State)
    requires c.Valid() && c.Tasks() <= 127 && Inv(c, s) && Leads(c, s, steps, s')
    ensures Inv(c, s')
    decreases |steps|
  {
    hide Inv, Enabled, Next;
    if steps != [] {
      Keeps(c, s, steps[0]);
      LeadsKeepInv(c, Next(c, s, steps[0]), steps[1..], s');
    }
  }

  // How the others come to be stranded

  /** A woken task that has not tried again, with nothing of the queue's between it and the try. */
  ghost predicate Back(c: Config, s: State, t: nat, sending: bool) {
    && t < |s.phase| && (s.phase[t].Waiting? || s.phase[t].Trying?)
    && (if sending then s.phase[t].call == Send(false) else !s.phase[t].call.Send?)
    && !Listed(s.q.toReceive, t) && !Listed(s.q.toSend, t)
  }

  ghost predicate Between(c: Config, s: State) {
    && |s.phase| == c.Tasks() && s.suspender == None && s.q.toReceive == []
    && (forall t :: t in s.wokenReceivers ==> Back(c, s, t, false))
    && (forall t :: t in s.wokenSenders ==> Back(c, s, t, true))
  }

  /** A woken task goes back to the top of the loop. */
  lemma BackToTrying(c: Config, s: State, t: nat, sending: bool)
    requires Between(c, s) && Back(c, s, t, sending)
    ensures var s' := Goto(s, t, Trying(s.phase[t].call));
            Reaches(c, s, s') && Between(c, s') && Back(c, s', t, sending)
  {
    var s' := Goto(s, t, Trying(s.phase[t].call));
    if s.phase[t].Waiting? {
      OneStep(c, s, Run(t, false), s');
    } else {
      assert s.phase[t := s.phase[t]] == s.phase;
      Stays(c, s);
    }
    assert forall u, b :: Back(c, s, u, b) ==> Back(c, s', u, b);
  }

  /** Woken receivers that find the queue empty give up. */
  lemma {:induction false} ReceiversGiveUp(c: Config, s: State)
    requires Between(c, s) && s.q.count == 0
    ensures exists s' :: && Reaches(c, s, s') && Between(c, s') && s'.wokenReceivers == {}
                         && s'.q == s.q && s'.wokenSenders == s.wokenSenders
    decreases |s.wokenReceivers|
  {
    if s.wokenReceivers == {} {
      Stays(c, s);
    } else {
      var t :| t in s.wokenReceivers;
      assert Back(c, s, t, false);
      var a, b := ReceiverGivesUp(c, s, t);
      ReceiversGiveUp(c, b);
      var s' :| Reaches(c, b, s') && Between(c, s')
        && s'.wokenReceivers == {} && s'.q == b.q && s'.wokenSenders == b.wokenSenders;
      Onward(c, s, b, s');
    }
  }

  lemma ReceiverGivesUp(c: Config, s: State, t: nat) returns (a: State, b: State)
    requires Between(c, s) && s.q.count == 0 && t in s.wokenReceivers
    ensures Reaches(c, s, b) && Between(c, b) && b.q == s.q
    ensures b.wokenReceivers == s.wokenReceivers - {t} && b.wokenSenders == s.wokenSenders
  {
    assert Back(c, s, t, false);
    a := Goto(s, t, Trying(s.phase[t].call));
    BackToTrying(c, s, t, false);
    b := Goto(Forgotten(a, t), t, Outside);
    assert t !in s.wokenSenders;
    OneStep(c, a, Run(t, false), b);
    Onward(c, s, a, b);
    assert b.wokenSenders == s.wokenSenders;
    assert forall u, x :: u != t && Back(c, a, u, x) ==> Back(c, b, u, x);
  }

  /** Woken senders post, as long as there is room. */
  lemma {:induction false} SendersPost(c: Config, s: State)
    requires Between(c, s) && s.wokenReceivers == {} && s.q.count + |s.wokenSenders| <= c.length
    ensures exists s' :: && Reaches(c, s, s') && Quiescent(s') && s'.q == s.q.(count := s.q.count + |s.wokenSenders|)
    decreases |s.wokenSenders|
  {
    if s.wokenSenders == {} {
      Stays(c, s);
    } else {
      var t :| t in s.wokenSenders;
      var b := SenderPosts(c, s, t);
      SendersPost(c, b);
      var s' :| Reaches(c, b, s') && Quiescent(s') && s'.q == b.q.(count := b.q.count + |b.wokenSenders|);
      Onward(c, s, b, s');
    }
  }

  lemma SenderPosts(c: Config, s: State, t: nat) returns (b: State)
    requires Between(c, s) && s.wokenReceivers == {} && s.q.count < c.length && t in s.wokenSenders
    ensures Reaches(c, s, b) && Between(c, b) && b.q == s.q.(count := s.q.count + 1)
    ensures b.wokenReceivers == {} && b.wokenSenders == s.wokenSenders - {t}
  {
    assert Back(c, s, t, true);
    var a := Goto(s, t, Trying(s.phase[t].call));
    BackToTrying(c, s, t, true);
    b := Goto(Forgotten(a, t).(q := a.q.(count := a.q.count + 1)), t, Outside);
    OneStep(c, a, Run(t, false), b);
    Onward(c, s, a, b);
    assert forall u, x :: u != t && Back(c, a, u, x) ==> Back(c, b, u, x);
  }

  /** Nobody in the middle of anything but the take itself: the invariant without the cover. */
  ghost predicate Calm(c: Config, s: State) {
    && s.suspender == None && CallsInv(c, s.phase) && LockInv(c, s)
    && ListInv(c, s.phase, s.q.toReceive, s.wokenReceivers, false)
    && ListInv(c, s.phase, s.q.toSend, s.wokenSenders, true)
  }

  lemma CalmBetween(c: Config, s: State)
    requires Calm(c, s) && c.length > 1 && s.q.toReceive == []
    ensures Between(c, s)
  {
  }

  /** All receivers may time out. */
  lemma {:induction false} ReceiversExpire(c: Config, s: State)
    requires Calm(c, s)
    ensures Reaches(c, s, s.(q := s.q.(toReceive := []))) && Calm(c, s.(q := s.q.(toReceive := [])))
    decreases |s.q.toReceive|
  {
    var l, done := s.q.toReceive, s.(q := s.q.(toReceive := []));
    if l == [] {
      assert done == s;
      Stays(c, s);
    } else {
      var t := l[0].id;
      assert l[0] in l && Listed(l, t);
      ListExpired(l, t);
      WithoutMembers(l, t);
      NotASender(c, s, t);
      WithoutAbsent(s.q.toSend, t);
      var s1 := s.(q := s.q.(toReceive := Without(l, t)));
      OneStep(c, s, Expire(t), s1);
      WithoutShrinks(l);
      ReceiversExpire(c, s1);
      Onward(c, s, s1, done);
    }
  }

  lemma NotASender(c: Config, s: State, t: nat)
    requires Calm(c, s) && Listed(s.q.toReceive, t)
    ensures forall e :: e in s.q.toSend ==> e.id != t
  {
  }

  lemma WithoutShrinks(l: seq<Entry>)
    requires l != []
    ensures |Without(l, l[0].id)| < |l|
  {
    WithoutLength(l[1..], l[0].id);
  }

  lemma {:induction false} WithoutLength(l: seq<Entry>, t: nat)
    ensures |Without(l, t)| <= |l|
  {
    if l != [] {
      WithoutLength(l[1..], t);
    }
  }

  lemma ResetCalm(c: Config, s: State)
    requires c.Valid() && Inv(c, s) && s.suspender == None
    ensures Calm(c, Reset(s))
    ensures |Reset(s).wokenSenders| == |s.wokenSenders| + if s.q.toSend == [] then 0 else 1
  {
    hide ListInv;
    if s.q.toSend == [] {
      WokeNobody(s, Q.Reset(s.q));
    } else {
      WokeLists(c, s, Q.Reset(s.q), 0, 1);
    }
  }

  /** From a calm state with an empty queue: receivers time out or give up, woken senders post,
      and whoever else waits to send goes on waiting. */
  lemma Settles(c: Config, r: State)
    requires Calm(c, r) && c.length > 1 && r.q.count == 0 && |r.wokenSenders| <= c.length
    ensures exists s' :: Reaches(c, r, s') && Quiescent(s') && s'.q == r.q.(toReceive := [], count := |r.wokenSenders|)
  {
    hide Reaches, Between, Calm;
    ReceiversExpire(c, r);
    var a := r.(q := r.q.(toReceive := []));
    CalmBetween(c, a);
    ReceiversGiveUp(c, a);
    var b :| Reaches(c, a, b) && Between(c, b)
      && b.wokenReceivers == {} && b.q == a.q && b.wokenSenders == a.wokenSenders;
    Onward(c, r, a, b);
    SendersPost(c, b);
    var s' :| Reaches(c, b, s') && Quiescent(s') && s'.q == b.q.(count := b.q.count + |b.wokenSenders|);
    Onward(c, r, b, s');
  }

  /** The woken senders post and there is still room, but nobody is left to wake the next. */
  lemma ResetStrands(c: Config, s: State)
    requires c.Valid() && Inv(c, s) && s.suspender == None
    requires |s.q.toSend| >= 2 && c.length > |s.wokenSenders| + 1
    ensures exists s' :: Reaches(c, Reset(s), s') && Quiescent(s') && !NobodyStranded(c, s')
  {
    hide Reaches, Calm, Inv;
    var r := Reset(s);
    ResetCalm(c, s);
    Settles(c, r);
    var s' :| Reaches(c, r, s') && Quiescent(s') && s'.q == r.q.(toReceive := [], count := |r.wokenSenders|);
    assert s'.q.toSend == s.q.toSend[1..];
  }

  lemma ResetKeepsInv(c: Config, s: State)
    requires c.Valid() && Inv(c, s) && s.suspender == None
    requires |s.q.toSend| <= 1 || c.length <= |s.wokenSenders| + 1
    ensures Inv(c, Reset(s))
  {
    hide ListInv;
    ResetCalm(c, s);
    ResetCover(c, s);
  }

  /** Resetting a live queue leads, in some continuation, to a sender that sleeps although there is
      room and nobody is left to wake it, exactly when at least two senders wait and more slots
      become free than there are senders woken. */
  lemma {:induction false} ResetStrandsIff(c: Config, s: State)
    requires c.Valid() && c.Tasks() <= 127 && Inv(c, s) && s.suspender == None
    ensures (exists s' :: Reaches(c, Reset(s), s') && Quiescent(s') && !NobodyStranded(c, s'))
        <==> |s.q.toSend| >= 2 && c.length > |s.wokenSenders| + 1
  {
    hide Inv, Leads;
    if |s.q.toSend| >= 2 && c.length > |s.wokenSenders| + 1 {
      ResetStrands(c, s);
    } else {
      ResetKeepsInv(c, s);
      forall s' | Reaches(c, Reset(s), s') && Quiescent(s')
        ensures NobodyStranded(c, s')
      {
        var steps :| Leads(c, Reset(s), steps, s');
        LeadsKeepInv(c, Reset(s), steps, s');
        InvStrandsNobody(c, s');
      }
    }
  }

  lemma InvStrandsNobody(c: Config, s: State)
    requires c.Valid() && Inv(c, s) && Quiescent(s)
    ensures NobodyStranded(c, s)
  {
  }

  // Such a reset does happen

  /** The state with one task in a phase, perhaps holding the scheduler. */
  function Stands(s: State, t: nat, q: Q.State, phase: Phase, suspends: bool): State
    requires t < |s.phase|
  {
    s.(q := q, phase := s.phase[t := phase], suspender := if suspends then Some(t) else None)
  }

  /** One section by that task. */
  lemma Stood(c: Config, s: State, t: nat, q: Q.State, p: Phase, x: bool, choice: bool,
              q': Q.State, p': Phase, x': bool)
    requires t < |s.phase| == c.Tasks() && p != Outside && !p.Waiting?
    requires Next(c, Stands(s, t, q, p, x), Run(t, choice)) == Stands(s, t, q', p', x')
    requires Reaches(c, s, Stands(s, t, q, p, x))
    ensures Reaches(c, s, Stands(s, t, q', p', x'))
  {
    hide Reaches, RunTask;
    OneStep(c, Stands(s, t, q, p, x), Run(t, choice), Stands(s, t, q', p', x'));
    Onward(c, s, Stands(s, t, q, p, x), Stands(s, t, q', p', x'));
  }

  ghost predicate MayBlock(c: Config, s: State, t: nat) {
    && t < |s.phase| == c.Tasks() && s.phase[t] == Outside && s.suspender == None
    && s.q.count == c.length && s.q.txLock == Q.UNLOCKED && s.q.rxLock == Q.UNLOCKED
    && s.wokenReceivers == {} && s.wokenSenders == {}
  }

  lemma SenderLocks(c: Config, s: State, t: nat)
    requires MayBlock(c, s, t)
    ensures Reaches(c, s, Stands(s, t, s.q.(txLock := 0, rxLock := 0), Placing(Send(false)), true))
  {
    hide Reaches;
    var call, q := Send(false), s.q;
    var locked := q.(txLock := 0, rxLock := 0);
    assert Next(c, s, Begin(t, call)) == Stands(s, t, q, Trying(call), false);
    OneStep(c, s, Begin(t, call), Stands(s, t, q, Trying(call), false));
    Stood(c, s, t, q, Trying(call), false, true, q, Suspending(call), false);
    Stood(c, s, t, q, Suspending(call), false, true, q, Locking(call), true);
    Stood(c, s, t, q, Locking(call), true, true, locked, Timing(call), true);
    Stood(c, s, t, locked, Timing(call), true, false, locked, Checking(call), true);
    Stood(c, s, t, locked, Checking(call), true, true, locked, Placing(call), true);
  }

  function Listing(c: Config, q: Q.State, t: nat): Q.State
    requires t < c.Tasks()
  {
    q.(toSend := Insert(q.toSend, Entry(t, c.EventValue(t))))
  }

  /** A sender that finds the queue full runs through the sections of the loop until it sleeps. */
  lemma SenderBlocks(c: Config, s: State, t: nat)
    requires MayBlock(c, s, t)
    ensures Reaches(c, s, Stands(s, t, Listing(c, s.q, t), Waiting(Send(false)), false))
  {
    hide Reaches, Insert;
    SenderLocks(c, s, t);
    var call, q := Send(false), Listing(c, s.q, t);
    var both, half := q.(txLock := 0, rxLock := 0), q.(rxLock := 0);
    Stood(c, s, t, s.q.(txLock := 0, rxLock := 0), Placing(call), true, true, both, UnlockingTx(call, Block), true);
    assert q.toReceive[0..] == q.toReceive && q.toSend[0..] == q.toSend;
    WokeNobody(Stands(s, t, both, UnlockingTx(call, Block), true), half);
    Stood(c, s, t, both, UnlockingTx(call, Block), true, true, half, UnlockingRx(call, Block), true);
    WokeNobody(Stands(s, t, half, UnlockingRx(call, Block), true), q);
    Stood(c, s, t, half, UnlockingRx(call, Block), true, true, q, Resuming(call, Block), true);
    Stood(c, s, t, q, Resuming(call, Block), true, true, q, Waiting(call), false);
  }

  /** Two tasks of equal priority and a queue of two messages. */
  function Two(): Config {
    Config(2, [0, 0], 1)
  }

  function BothWait(): State {
    State(Q.State(2, Q.UNLOCKED, Q.UNLOCKED, [Entry(0, 1), Entry(1, 1)], []),
          [Waiting(Send(false)), Waiting(Send(false))], None, {}, {})
  }

  /** From the start, interrupts fill the queue and both tasks come to wait for room. */
  lemma BothComeToWait()
    ensures Reaches(Two(), Initial(Two()), BothWait())
  {
    hide Reaches;
    var c, s := Two(), Initial(Two());
    assert s.phase == [Outside, Outside];
    var s1, s2 := s.(q := s.q.(count := 1)), s.(q := s.q.(count := 2));
    WokeNobody(s, s1.q);
    OneStep(c, s, IsrPost(false), s1);
    WokeNobody(s1, s2.q);
    OneStep(c, s1, IsrPost(false), s2);
    Onward(c, s, s1, s2);
    SenderBlocks(c, s2, 0);
    var s3 := Stands(s2, 0, Listing(c, s2.q, 0), Waiting(Send(false)), false);
    Onward(c, s, s2, s3);
    SenderBlocks(c, s3, 1);
    assert s3.q.toSend == [Entry(0, 1)];
    assert [Entry(0, 1)][1..] == [] && Insert([], Entry(1, 1)) == [Entry(1, 1)];
    var s4 := Stands(s3, 1, Listing(c, s3.q, 1), Waiting(Send(false)), false);
    assert s4.q.toSend == [Entry(0, 1), Entry(1, 1)];
    assert s4.phase == BothWait().phase;
    Onward(c, s, s3, s4);
  }

  /** A run of the kernel, from its start, in which a reset strands a sender: a full queue of two, two
      senders, a reset, and the one that is woken posts. */
  lemma AResetStrands()
    ensures exists s, s' ::
      && Reaches(Two(), Initial(Two()), s) && s.suspender == None
      && Reaches(Two(), Reset(s), s') && Quiescent(s') && !NobodyStranded(Two(), s')
  {
    hide Reaches;
    var c, s := Two(), BothWait();
    BothComeToWait();
    assert Inv(c, s) by {
      InitialInv(c);
      Reached(c, Initial(c), s);
    }
    ResetStrands(c, s);
  }

  lemma InitialInv(c: Config)
    requires c.Valid()
    ensures Inv(c, Initial(c))
  {
    assert Ids([]) == {};
  }

  lemma Reached(c: Config, s: State, s': State)
    requires c.Valid() && c.Tasks() <= 127 && Inv(c, s) && Reaches(c, s, s')
    ensures Inv(c, s')
  {
    hide Leads, Inv;
    var steps :| Leads(c, s, steps, s');
    LeadsKeepInv(c, s, steps, s');
  }
}
