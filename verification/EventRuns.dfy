/** What an event group keeps over every run, whom it releases, and when a rendezvous completes. */
module EventRuns {
  import opened EventBits
  import opened EventSpec
  import opened Options

  /** `calls` holds the tasks between their block and the end of their call. */
  datatype State = State(g: Group, calls: map<nat, Call>)

  datatype Step =
    | Set(bits: Bits)
    | Clear(bits: Bits)
    | Wait(t: nat, call: Call, blocks: bool)
    | Meet(t: nat, bits: Bits, mask: Bits, blocks: bool)
    | Timeout(t: nat)
    | Finish(t: nat)

  predicate Listed(l: seq<Waiter>, t: nat) {
    exists w :: w in l && w.task == t
  }

  /** Callers use no control bits and wait for something; a task makes one call at a time. */
  ghost predicate Enabled(s: State, step: Step) {
    match step
    case Set(bits) => NoControl(bits)
    case Clear(bits) => NoControl(bits)
    case Wait(t, call, _) => t !in s.calls && NoControl(call.mask) && call.mask != 0
    case Meet(t, bits, mask, _) => t !in s.calls && NoControl(bits) && NoControl(mask) && mask != 0
    case Timeout(t) => t in s.calls && Listed(s.g.waiting, t)
    case Finish(t) => t in s.calls && !Listed(s.g.waiting, t) && t in s.g.values
  }

  function Entered(s: State, t: nat, call: Call, r: (Group, Option<Bits>)): State {
    State(r.0, if r.1.None? then s.calls[t := call] else s.calls)
  }

  ghost function Next(s: State, step: Step): State
    requires Enabled(s, step)
  {
    match step
    case Set(bits) => s.(g := SetBits(s.g, bits))
    case Clear(bits) => s.(g := ClearBits(s.g, bits))
    case Wait(t, call, blocks) => Entered(s, t, call, WaitBits(s.g, t, call, blocks))
    case Meet(t, bits, mask, blocks) => Entered(s, t, Call(mask, true, true), Sync(s.g, t, bits, mask, blocks))
    case Timeout(t) => s.(g := s.g.(waiting := Expire(s.g.waiting, t)))
    case Finish(t) => State(Resume(s.g, t, s.calls[t]).0, s.calls - {t})
  }

  ghost predicate IsRun(s: State, steps: seq<Step>)
    decreases |steps|
  {
    steps == [] || (Enabled(s, steps[0]) && IsRun(Next(s, steps[0]), steps[1..]))
  }

  ghost function Run(s: State, steps: seq<Step>): State
    requires IsRun(s, steps)
    decreases |steps|
  {
    if steps == [] then s else Run(Next(s, steps[0]), steps[1..])
  }

  // The invariant

  ghost predicate Distinct(l: seq<Waiter>) {
    forall i, j :: 0 <= i < j < |l| ==> l[i].task != l[j].task
  }

  /** A listed task waits for what it asked for, and that is not there. */
  ghost predicate WaiterOk(s: State, w: Waiter) {
    && w.task in s.calls && w.task in s.g.values
    && w.value == InUse(Wanted(s.calls[w.task])) && s.g.values[w.task] == w.value
    && !Met(s.g.bits, w.value)
  }

  /** A task in its call asked for bits that are not control bits.  Off the list it has either been
      released by bits that hold, or has timed out. */
  ghost predicate CallOk(s: State, t: nat)
    requires t in s.calls
  {
    var call := s.calls[t];
    && NoControl(call.mask) && call.mask != 0 && t in s.g.values
    && (!Listed(s.g.waiting, t) ==>
          if Touches(s.g.values[t], UNBLOCKED) then Holds(Mask(s.g.values[t]), call.mask, call.all)
          else s.g.values[t] == InUse(Wanted(call)))
  }

  ghost predicate Inv(s: State) {
    && NoControl(s.g.bits) && Distinct(s.g.waiting)
    && (forall w :: w in s.g.waiting ==> WaiterOk(s, w))
    && (forall t :: t in s.calls ==> CallOk(s, t))
  }

  // Lists of waiting tasks

  lemma {:induction false} RemainingMembers(l: seq<Waiter>, bits: Bits)
    ensures forall w :: w in Remaining(l, bits) <==> w in l && !Met(bits, w.value)
  {
    hide Join, Strip, Covers, Touches, Met;
    if l != [] {
      RemainingMembers(l[1..], bits);
    }
  }

  lemma {:induction false} RemainingDistinct(l: seq<Waiter>, bits: Bits)
    requires Distinct(l)
    ensures Distinct(Remaining(l, bits))
  {
    hide Join, Strip, Covers, Touches, Met;
    if l != [] {
      RemainingDistinct(l[1..], bits);
      RemainingMembers(l[1..], bits);
      assert forall w :: w in l[1..] ==> w.task != l[0].task;
      var r := Remaining(l[1..], bits);
      assert forall j :: 0 <= j < |r| ==> r[j] in r;
    }
  }

  lemma {:induction false} ReleasedMembers(l: seq<Waiter>, bits: Bits)
    ensures forall w :: w in l && Met(bits, w.value) ==> w.task in Released(l, bits)
    ensures forall t :: t in Released(l, bits) ==> exists w :: w in l && Met(bits, w.value) && w.task == t
  {
    hide Join, Strip, Covers, Touches, Met;
    if l != [] {
      ReleasedMembers(l[1..], bits);
      forall t | t in Released(l, bits)
        ensures exists w :: w in l && Met(bits, w.value) && w.task == t
      {
        if Met(bits, l[0].value) && t == l[0].task {
          assert l[0] in l;
        } else {
          assert t in Released(l[1..], bits);
          var w :| w in l[1..] && Met(bits, w.value) && w.task == t;
          assert w in l;
        }
      }
    }
  }

  lemma {:induction false} NothingMet(l: seq<Waiter>, bits: Bits)
    requires forall w :: w in l ==> !Met(bits, w.value)
    ensures Remaining(l, bits) == l && Released(l, bits) == [] && Cleared(l, bits) == 0
  {
    hide Join, Strip, Covers, Touches, Met;
    ZeroBits(0);
    if l != [] {
      NothingMet(l[1..], bits);
    }
  }

  lemma {:induction false} Delivered(values: map<nat, Bits>, tasks: seq<nat>, value: Bits)
    ensures forall t :: t in tasks ==> t in Deliver(values, tasks, value) && Deliver(values, tasks, value)[t] == value
    ensures forall t :: t !in tasks && t in values ==>
      t in Deliver(values, tasks, value) && Deliver(values, tasks, value)[t] == values[t]
    decreases |tasks|
  {
    if tasks != [] {
      var first, rest := values[tasks[0] := value], tasks[1..];
      Delivered(first, rest, value);
      forall t | t in tasks
        ensures t in Deliver(first, rest, value) && Deliver(first, rest, value)[t] == value
      {
        if t !in rest {
          assert t == tasks[0];
        }
      }
      assert forall t :: t !in tasks ==> t !in rest && t != tasks[0];
    }
  }

  lemma {:induction false} ExpireMembers(l: seq<Waiter>, t: nat)
    ensures forall w :: w in Expire(l, t) <==> w in l && w.task != t
    ensures Distinct(l) ==> Distinct(Expire(l, t))
  {
    if l != [] {
      ExpireMembers(l[1..], t);
      if Distinct(l) {
        var r := Expire(l[1..], t);
        assert forall w :: w in l[1..] ==> w.task != l[0].task;
        assert forall j :: 0 <= j < |r| ==> r[j] in r;
      }
    }
  }

  /** A bit is cleared exactly when some released task asked for it and for clearing. */
  lemma {:induction false} ClearedIff(l: seq<Waiter>, bits: Bits, b: Bits)
    ensures Touches(Cleared(l, bits), b) <==>
            exists w :: w in l && Met(bits, w.value) && Touches(w.value, CLEAR_ON_EXIT) && Touches(Mask(w.value), b)
  {
    hide Join, Strip, Covers, Touches, Met, Mask;
    ZeroBits(b);
    if l != [] {
      ClearedIff(l[1..], bits, b);
      assert forall w :: w in l <==> w == l[0] || w in l[1..];
      var own := if Met(bits, l[0].value) && Touches(l[0].value, CLEAR_ON_EXIT) then Mask(l[0].value) else 0;
      JoinTouches(own, Cleared(l[1..], bits), b);
      if exists w :: w in l && Met(bits, w.value) && Touches(w.value, CLEAR_ON_EXIT) && Touches(Mask(w.value), b) {
        var w :| w in l && Met(bits, w.value) && Touches(w.value, CLEAR_ON_EXIT) && Touches(Mask(w.value), b);
        assert w == l[0] || w in l[1..];
      }
    }
  }

  // Every step keeps the invariant

  /** One pass over the list releases exactly those whose condition holds of the old bits and the
      new together, all with that same value; the others wait on as before. */
  lemma OnePassReleasesExactly(g: Group, bits: Bits, w: Waiter)
    requires Distinct(g.waiting) && w in g.waiting && w.task in g.values
    ensures var now, g' := Join(g.bits, bits), SetBits(g, bits);
            && (Listed(g'.waiting, w.task) <==> !Met(now, w.value))
            && w.task in g'.values
            && g'.values[w.task] == if Met(now, w.value) then Delivery(now) else g.values[w.task]
  {
    hide Join, Strip, Covers, Touches, Met, Mask, Cleared;
    var now := Join(g.bits, bits);
    RemainingMembers(g.waiting, now);
    ReleasedMembers(g.waiting, now);
    Delivered(g.values, Released(g.waiting, now), Delivery(now));
    assert forall x :: x in g.waiting && x.task == w.task ==> x == w;
    if !Met(now, w.value) {
      assert w in Remaining(g.waiting, now);
    }
  }

  /** After the pass a bit is set exactly when it was set before or is now, unless some released task
      waited for it and wanted it cleared. */
  lemma OnePassClearsExactly(g: Group, bits: Bits, b: Bits)
    requires OneBit(b)
    ensures var now := Join(g.bits, bits);
            Touches(SetBits(g, bits).bits, b) <==>
            && (Touches(g.bits, b) || Touches(bits, b))
            && !exists x ::
                 x in g.waiting && Met(now, x.value) && Touches(x.value, CLEAR_ON_EXIT) && Touches(Mask(x.value), b)
  {
    hide Join, Strip, Covers, Touches, Met, Mask, Cleared, Remaining, Released, Deliver;
    var now := Join(g.bits, bits);
    JoinTouches(g.bits, bits, b);
    StripTouches(now, Cleared(g.waiting, now), b);
    ClearedIff(g.waiting, now, b);
  }

  lemma KeepsSet(s: State, bits: Bits)
    requires Inv(s) && NoControl(bits)
    ensures Inv(s.(g := SetBits(s.g, bits)))
  {
    hide Join, Strip, Covers, Touches, Met, Mask, Cleared, Wanted, Holds, Remaining, Released, Deliver;
    var g, s' := s.g, s.(g := SetBits(s.g, bits));
    var now := Join(g.bits, bits);
    JoinNoControl(g.bits, bits);
    DeliveryReadsBack(now);
    KeptBits(now, Cleared(g.waiting, now));
    RemainingDistinct(g.waiting, now);
    RemainingMembers(g.waiting, now);
    forall w | w in s'.g.waiting
      ensures WaiterOk(s', w)
    {
      assert WaiterOk(s, w);
      SetWaiter(s, bits, w);
    }
    forall t | t in s.calls
      ensures CallOk(s', t)
    {
      assert CallOk(s, t);
      SetCall(s, bits, t);
    }
  }

  lemma SetWaiter(s: State, bits: Bits, w: Waiter)
    requires Inv(s) && w in s.g.waiting && !Met(Join(s.g.bits, bits), w.value)
    ensures WaiterOk(s.(g := SetBits(s.g, bits)), w)
  {
    hide Join, Strip, Covers, Touches, Mask, Cleared, Wanted, Holds, Remaining, Released, Deliver;
    var now := Join(s.g.bits, bits);
    assert WaiterOk(s, w);
    OnePassReleasesExactly(s.g, bits, w);
    var g' := SetBits(s.g, bits);
    if Met(g'.bits, w.value) {
      LessHoldsLess(now, Cleared(s.g.waiting, now), Mask(w.value), Touches(w.value, WAIT_FOR_ALL));
    }
  }

  lemma SetCall(s: State, bits: Bits, t: nat)
    requires Inv(s) && NoControl(bits) && t in s.calls
    ensures CallOk(s.(g := SetBits(s.g, bits)), t)
  {
    hide Join, Strip, Covers, Touches, Met, Mask, Cleared, Wanted, Holds, Remaining, Released, Deliver;
    var g, now := s.g, Join(s.g.bits, bits);
    assert CallOk(s, t);
    JoinNoControl(g.bits, bits);
    DeliveryReadsBack(now);
    if Listed(g.waiting, t) {
      var w :| w in g.waiting && w.task == t;
      assert WaiterOk(s, w);
      OnePassReleasesExactly(g, bits, w);
      WantedMet(now, s.calls[t]);
    } else {
      ReleasedMembers(g.waiting, now);
      Delivered(g.values, Released(g.waiting, now), Delivery(now));
      RemainingMembers(g.waiting, now);
    }
  }

  /** Fewer bits, and nothing else changed. */
  lemma KeepsFewer(s: State, bits: Bits)
    requires Inv(s)
    ensures Inv(s.(g := ClearBits(s.g, bits)))
  {
    hide Join, Strip, Covers, Touches, Mask, Wanted, Holds, Distinct;
    var s' := s.(g := ClearBits(s.g, bits));
    KeptBits(s.g.bits, bits);
    forall w | w in s'.g.waiting
      ensures WaiterOk(s', w)
    {
      assert WaiterOk(s, w);
      if Met(s'.g.bits, w.value) {
        LessHoldsLess(s.g.bits, bits, Mask(w.value), Touches(w.value, WAIT_FOR_ALL));
      }
    }
    assert forall t :: t in s.calls ==> CallOk(s, t) && CallOk(s', t);
  }

  lemma KeepsBlock(s: State, t: nat, call: Call)
    requires Inv(s) && t !in s.calls && NoControl(call.mask) && call.mask != 0
    requires !Holds(s.g.bits, call.mask, call.all)
    ensures Inv(State(Block(s.g, t, Wanted(call)), s.calls[t := call]))
  {
    hide Join, Strip, Covers, Touches, Met, Mask, Wanted, Holds;
    var s' := State(Block(s.g, t, Wanted(call)), s.calls[t := call]);
    WantedMet(s.g.bits, call);
    forall w | w in s.g.waiting
      ensures w.task != t && WaiterOk(s', w)
    {
      assert WaiterOk(s, w);
    }
    var own := Waiter(t, InUse(Wanted(call)));
    assert s'.g.waiting == s.g.waiting + [own];
    assert WaiterOk(s', own);
    assert own in s'.g.waiting;
    forall u | u in s'.calls
      ensures CallOk(s', u)
    {
      if u != t {
        assert CallOk(s, u);
        if Listed(s.g.waiting, u) {
          var w :| w in s.g.waiting && w.task == u;
          assert w in s'.g.waiting;
        }
      }
    }
  }

  lemma KeepsWait(s: State, t: nat, call: Call, blocks: bool)
    requires Inv(s) && Enabled(s, Wait(t, call, blocks))
    ensures Inv(Next(s, Wait(t, call, blocks)))
  {
    hide Join, Strip, Covers, Touches, Inv, Wanted;
    if Holds(s.g.bits, call.mask, call.all) {
      KeepsFewer(s, call.mask);
    } else if blocks {
      KeepsBlock(s, t, call);
    }
  }

  lemma KeepsMeet(s: State, t: nat, bits: Bits, mask: Bits, blocks: bool)
    requires Inv(s) && Enabled(s, Meet(t, bits, mask, blocks))
    ensures Inv(Next(s, Meet(t, bits, mask, blocks)))
  {
    hide Join, Strip, Covers, Touches, Inv, Wanted, SetBits;
    var s1 := s.(g := SetBits(s.g, bits));
    KeepsSet(s, bits);
    if Covers(Join(s.g.bits, bits), mask) {
      KeepsFewer(s1, mask);
    } else if blocks {
      SetGivesFewer(s.g, bits, mask);
      KeepsBlock(s1, t, Call(mask, true, true));
    }
  }

  lemma SetGivesFewer(g: Group, bits: Bits, mask: Bits)
    requires !Covers(Join(g.bits, bits), mask)
    ensures !Holds(SetBits(g, bits).bits, mask, true)
  {
    hide Join, Strip, Covers, Touches;
    var now := Join(g.bits, bits);
    if Holds(SetBits(g, bits).bits, mask, true) {
      LessHoldsLess(now, Cleared(g.waiting, now), mask, true);
    }
  }

  lemma KeepsTimeout(s: State, t: nat)
    requires Inv(s) && Enabled(s, Timeout(t))
    ensures Inv(Next(s, Timeout(t)))
  {
    hide Join, Strip, Covers, Touches, Met, Mask, Wanted, Holds, Expire;
    var s' := Next(s, Timeout(t));
    ExpireMembers(s.g.waiting, t);
    assert forall w :: w in s'.g.waiting ==> WaiterOk(s, w) && WaiterOk(s', w);
    forall u | u in s.calls
      ensures CallOk(s', u)
    {
      assert CallOk(s, u);
      if Listed(s.g.waiting, u) {
        var w :| w in s.g.waiting && w.task == u;
        assert WaiterOk(s, w);
        WantedReadsBack(s.calls[u]);
        if u != t {
          assert w in s'.g.waiting;
        }
      }
    }
  }

  lemma KeepsFinish(s: State, t: nat)
    requires Inv(s) && Enabled(s, Finish(t))
    ensures Inv(Next(s, Finish(t)))
  {
    hide Join, Strip, Covers, Touches, Met, Mask, Wanted, Holds, Distinct;
    KeepsFewer(s, s.calls[t].mask);
    var g' := Resume(s.g, t, s.calls[t]).0;
    var s1 := s.(g := g');
    assert Inv(s1);
    var s' := Next(s, Finish(t));
    forall w | w in s'.g.waiting
      ensures WaiterOk(s', w)
    {
      assert WaiterOk(s1, w);
    }
    assert forall u :: u in s'.calls ==> CallOk(s1, u) && CallOk(s', u);
  }

  lemma KeepsStep(s: State, step: Step)
    requires Inv(s) && Enabled(s, step)
    ensures Inv(Next(s, step))
  {
    hide Join, Strip, Covers, Touches, Inv;
    match step
    case Set(bits) => KeepsSet(s, bits);
    case Clear(bits) => KeepsFewer(s, bits);
    case Wait(t, call, blocks) => KeepsWait(s, t, call, blocks);
    case Meet(t, bits, mask, blocks) => KeepsMeet(s, t, bits, mask, blocks);
    case Timeout(t) => KeepsTimeout(s, t);
    case Finish(t) => KeepsFinish(s, t);
  }

  lemma {:induction false} RunsKeepInv(s: State, steps: seq<Step>)
    requires Inv(s) && IsRun(s, steps)
    ensures Inv(Run(s, steps))
    decreases |steps|
  {
    hide Join, Strip, Covers, Touches, Inv, Enabled, Next;
    if steps != [] {
      KeepsStep(s, steps[0]);
      RunsKeepInv(Next(s, steps[0]), steps[1..]);
    }
  }

  function Created(): State {
    State(Group(0, [], map[]), map[])
  }

  lemma CreatedInv()
    ensures Inv(Created())
  {
    ZeroBits(CONTROL);
  }

  // The theorems

  /** After every run of sets, clears, waits, rendezvous and time-outs, no waiting task's condition
      holds of the current bits. */
  lemma NobodyWaitsInVain(steps: seq<Step>, w: Waiter)
    requires IsRun(Created(), steps) && w in Run(Created(), steps).g.waiting
    ensures var s := Run(Created(), steps);
            w.task in s.calls && !Holds(s.g.bits, s.calls[w.task].mask, s.calls[w.task].all)
  {
    hide Join, Strip, Covers, Touches, Run, IsRun, Wanted, Met, Holds, Mask;
    CreatedInv();
    RunsKeepInv(Created(), steps);
    var s := Run(Created(), steps);
    assert WaiterOk(s, w);
    assert CallOk(s, w.task);
    WantedMet(s.g.bits, s.calls[w.task]);
  }

  /** After every run, a task that returns because of bits that were set returns bits that satisfy
      what it asked for, whatever has been set or cleared since. */
  lemma ReleasedWithWhatItAskedFor(steps: seq<Step>, t: nat)
    requires IsRun(Created(), steps) && Enabled(Run(Created(), steps), Finish(t))
    requires Touches(Run(Created(), steps).g.values[t], UNBLOCKED)
    ensures var s := Run(Created(), steps);
            Holds(Resume(s.g, t, s.calls[t]).1, s.calls[t].mask, s.calls[t].all)
  {
    hide Join, Strip, Covers, Touches, Run, IsRun, Wanted, Met, Holds, Mask;
    CreatedInv();
    RunsKeepInv(Created(), steps);
    assert CallOk(Run(Created(), steps), t);
  }

  /** A task blocked in the rendezvous on the mask. */
  ghost predicate Participant(s: State, u: nat, mask: Bits) {
    u in s.calls && s.calls[u] == Call(mask, true, true) && Listed(s.g.waiting, u)
  }

  /** A released task that will return the whole mask, whenever it runs again. */
  ghost predicate HasMask(s: State, u: nat, mask: Bits) {
    && u in s.calls && !Listed(s.g.waiting, u) && u in s.g.values
    && Touches(s.g.values[u], UNBLOCKED) && Covers(Mask(s.g.values[u]), mask)
  }

  /** A pass over the list releases a participant exactly when the bits cover its mask. */
  lemma PassReleasesParticipant(s: State, bits: Bits, mask: Bits, u: nat)
    requires Inv(s) && NoControl(bits) && Participant(s, u, mask)
    ensures var s' := s.(g := SetBits(s.g, bits));
            if Covers(Join(s.g.bits, bits), mask) then HasMask(s', u, mask) else Participant(s', u, mask)
  {
    hide Join, Strip, Covers, Touches, Wanted, Mask, Cleared, Remaining, Released, Deliver, Met;
    var now := Join(s.g.bits, bits);
    var w :| w in s.g.waiting && w.task == u;
    assert WaiterOk(s, w) && CallOk(s, u);
    WantedMet(now, s.calls[u]);
    OnePassReleasesExactly(s.g, bits, w);
    JoinNoControl(s.g.bits, bits);
    DeliveryReadsBack(now);
  }

  /** When the bits of an arriving task complete the rendezvous, it returns the whole mask at once,
      every participant still blocked is released to return it too, and the bits are cleared.
      Otherwise all of them stay blocked, and the arriving task joins them if it has block time. */
  lemma RendezvousIff(s: State, t: nat, bits: Bits, mask: Bits, blocks: bool, u: nat)
    requires Inv(s) && Enabled(s, Meet(t, bits, mask, blocks)) && Participant(s, u, mask)
    ensures var s', answer := Next(s, Meet(t, bits, mask, blocks)), Sync(s.g, t, bits, mask, blocks).1;
            if Covers(Join(s.g.bits, bits), mask) then
              answer.Some? && Covers(answer.value, mask) && HasMask(s', u, mask) && !Touches(s'.g.bits, mask)
            else
              Participant(s', u, mask) && (blocks ==> answer.None? && Participant(s', t, mask))
  {
    hide Join, Strip, Covers, Touches, Wanted, Mask, SetBits, Met, Inv, Holds, Delivery;
    PassReleasesParticipant(s, bits, mask, u);
    var s1 := s.(g := SetBits(s.g, bits));
    if Covers(Join(s.g.bits, bits), mask) {
      StripAll(s1.g.bits, mask);
    } else if blocks {
      var s' := Next(s, Meet(t, bits, mask, blocks));
      var own := Waiter(t, InUse(Wanted(Call(mask, true, true))));
      assert own in s'.g.waiting;
      var w :| w in s1.g.waiting && w.task == u;
      assert w in s'.g.waiting;
    }
  }

  /** Nothing that happens before it runs again changes what a released task will return. */
  lemma {:induction false} ReleasedStaysReleased(s: State, steps: seq<Step>, u: nat, mask: Bits)
    requires Inv(s) && IsRun(s, steps) && HasMask(s, u, mask) && Finish(u) !in steps
    ensures HasMask(Run(s, steps), u, mask)
    decreases |steps|
  {
    hide Inv, Enabled, Next, HasMask;
    if steps != [] {
      KeepsStep(s, steps[0]);
      StepKeepsMask(s, steps[0], u, mask);
      ReleasedStaysReleased(Next(s, steps[0]), steps[1..], u, mask);
    }
  }

  lemma StepKeepsMask(s: State, step: Step, u: nat, mask: Bits)
    requires Inv(s) && Enabled(s, step) && HasMask(s, u, mask) && step != Finish(u)
    ensures HasMask(Next(s, step), u, mask)
  {
    hide Join, Strip, Covers, Touches, Wanted, Mask, SetBits, Met, Holds, Expire, Delivery, Inv;
    match step
    case Set(bits) => PassPassesBy(s, bits, u);
    case Clear(bits) =>
    case Wait(t, call, blocks) => AppendedNotListed(s.g.waiting, Waiter(t, InUse(Wanted(call))), u);
    case Meet(t, bits, mask', blocks) =>
      PassPassesBy(s, bits, u);
      AppendedNotListed(SetBits(s.g, bits).waiting, Waiter(t, InUse(Wanted(Call(mask', true, true)))), u);
    case Timeout(t) => ExpireMembers(s.g.waiting, t);
    case Finish(t) =>
  }

  lemma AppendedNotListed(l: seq<Waiter>, w: Waiter, u: nat)
    requires !Listed(l, u) && w.task != u
    ensures !Listed(l + [w], u)
  {
  }

  /** A pass over the list leaves alone a task that is not on it. */
  lemma PassPassesBy(s: State, bits: Bits, u: nat)
    requires u in s.g.values && !Listed(s.g.waiting, u)
    ensures var g' := SetBits(s.g, bits);
            !Listed(g'.waiting, u) && u in g'.values && g'.values[u] == s.g.values[u]
  {
    hide Join, Strip, Covers, Touches, Mask, Met, Cleared, Released, Remaining, Deliver, Delivery;
    var now := Join(s.g.bits, bits);
    ReleasedMembers(s.g.waiting, now);
    RemainingMembers(s.g.waiting, now);
    Delivered(s.g.values, Released(s.g.waiting, now), Delivery(now));
  }

  // A whole rendezvous

  /** Tasks arriving one after the other, each with its own bits. */
  datatype Arrival = Arrival(t: nat, bits: Bits)

  function Gathered(start: Bits, l: seq<Arrival>): Bits {
    if l == [] then start else Join(Gathered(start, l[..|l| - 1]), l[|l| - 1].bits)
  }

  function Meets(l: seq<Arrival>, mask: Bits): seq<Step> {
    if l == [] then [] else Meets(l[..|l| - 1], mask) + [Meet(l[|l| - 1].t, l[|l| - 1].bits, mask, true)]
  }

  lemma {:induction false} RunAppend(s: State, steps: seq<Step>, step: Step)
    requires IsRun(s, steps) && Enabled(Run(s, steps), step)
    ensures IsRun(s, steps + [step]) && Run(s, steps + [step]) == Next(Run(s, steps), step)
    decreases |steps|
  {
    hide Enabled, Next;
    if steps == [] {
      assert steps + [step] == [step];
      assert [step][1..] == [];
    } else {
      RunAppend(Next(s, steps[0]), steps[1..], step);
      assert (steps + [step])[1..] == steps[1..] + [step];
    }
  }

  ghost predicate Arrivals(l: seq<Arrival>) {
    && (forall i :: 0 <= i < |l| ==> NoControl(l[i].bits))
    && (forall i, j :: 0 <= i < j < |l| ==> l[i].t != l[j].t)
  }

  /** Until the mask is covered everybody who has arrived is blocked and no bit is lost. */
  lemma {:induction false} Gathering(start: Bits, l: seq<Arrival>, mask: Bits)
    requires NoControl(start) && NoControl(mask) && mask != 0 && Arrivals(l)
    requires forall k :: 0 <= k <= |l| ==> !Covers(Gathered(start, l[..k]), mask)
    ensures var s := State(Group(start, [], map[]), map[]);
            && Inv(s) && IsRun(s, Meets(l, mask))
            && var r := Run(s, Meets(l, mask));
               && r.g.bits == Gathered(start, l)
               && (forall w :: w in r.g.waiting ==> w.value == InUse(Wanted(Call(mask, true, true))))
               && (forall i :: 0 <= i < |l| ==> Participant(r, l[i].t, mask))
               && (forall t :: t in r.calls ==> exists i :: 0 <= i < |l| && l[i].t == t)
    decreases |l|
  {
    hide Join, Strip, Covers, Touches, Wanted, Run, IsRun, Participant, Inv, InUse;
    var s := State(Group(start, [], map[]), map[]);
    IdleInv(start);
    if l == [] {
      EmptyRun(s);
      assert l[..0] == l;
    } else {
      var n := |l| - 1;
      var before, a := l[..n], l[n];
      assert forall k :: 0 <= k <= n ==> before[..k] == l[..k];
      Gathering(start, before, mask);
      assert l[..|l|] == l;
      GatherOne(s, start, before, a, mask);
      assert l == before + [a];
    }
  }

  lemma IdleInv(start: Bits)
    requires NoControl(start)
    ensures Inv(State(Group(start, [], map[]), map[]))
  {
  }

  lemma EmptyRun(s: State)
    ensures IsRun(s, []) && Run(s, []) == s
  {
  }

  lemma GatherOne(s: State, start: Bits, before: seq<Arrival>, a: Arrival, mask: Bits)
    requires Inv(s) && IsRun(s, Meets(before, mask)) && NoControl(mask) && mask != 0 && NoControl(a.bits)
    requires forall i :: 0 <= i < |before| ==> before[i].t != a.t
    requires !Covers(Gathered(start, before + [a]), mask)
    requires var r := Run(s, Meets(before, mask));
             && r.g.bits == Gathered(start, before)
             && (forall w :: w in r.g.waiting ==> w.value == InUse(Wanted(Call(mask, true, true))))
             && (forall i :: 0 <= i < |before| ==> Participant(r, before[i].t, mask))
             && (forall t :: t in r.calls ==> exists i :: 0 <= i < |before| && before[i].t == t)
    ensures var l := before + [a];
            && IsRun(s, Meets(l, mask))
            && var r := Run(s, Meets(l, mask));
               && r.g.bits == Gathered(start, l)
               && (forall w :: w in r.g.waiting ==> w.value == InUse(Wanted(Call(mask, true, true))))
               && (forall i :: 0 <= i < |l| ==> Participant(r, l[i].t, mask))
               && (forall t :: t in r.calls ==> exists i :: 0 <= i < |l| && l[i].t == t)
  {
    hide Join, Strip, Covers, Touches, Wanted, Run, IsRun, Inv, Mask, Met, Holds, Participant;
    var l, step := before + [a], Meet(a.t, a.bits, mask, true);
    var r := Run(s, Meets(before, mask));
    assert l[..|l| - 1] == before;
    assert Enabled(r, step);
    RunAppend(s, Meets(before, mask), step);
    RunsKeepInv(s, Meets(before, mask));
    var call := Call(mask, true, true);
    var now := Join(r.g.bits, a.bits);
    assert Gathered(start, l) == now;
    WantedMet(now, call);
    assert !Holds(now, mask, true) by {
      CoversIsHolds(now, mask);
    }
    NothingMet(r.g.waiting, now);
    ZeroBits(now);
    var r' := Next(r, step);
    assert r' == State(Block(Group(now, r.g.waiting, r.g.values), a.t, Wanted(call)), r.calls[a.t := call]);
    assert a.t !in r.calls;
    forall i | 0 <= i < |l|
      ensures Participant(r', l[i].t, mask)
    {
      if i < |before| {
        StillParticipant(r, r', l[i].t, mask);
      } else {
        NewParticipant(r', a.t, mask);
      }
    }
    forall t | t in r'.calls
      ensures exists i :: 0 <= i < |l| && l[i].t == t
    {
      if t == a.t {
        assert l[|before|].t == t;
      } else {
        var i :| 0 <= i < |before| && before[i].t == t;
        assert l[i].t == t;
      }
    }
  }

  lemma CoversIsHolds(bits: Bits, mask: Bits)
    ensures Holds(bits, mask, true) <==> Covers(bits, mask)
  {
  }

  lemma StillParticipant(s: State, s': State, u: nat, mask: Bits)
    requires Participant(s, u, mask) && s.g.waiting <= s'.g.waiting
    requires forall t :: t in s.calls ==> t in s'.calls && s'.calls[t] == s.calls[t]
    ensures Participant(s', u, mask)
  {
    var w :| w in s.g.waiting && w.task == u;
    assert w in s'.g.waiting;
  }

  lemma NewParticipant(s: State, u: nat, mask: Bits)
    requires s.g.waiting != [] && s.g.waiting[|s.g.waiting| - 1].task == u
    requires u in s.calls && s.calls[u] == Call(mask, true, true)
    ensures Participant(s, u, mask)
  {
    assert s.g.waiting[|s.g.waiting| - 1] in s.g.waiting;
  }

  /** A whole rendezvous on an idle group: tasks arrive in any order, and until the bits are complete
      everybody blocks.  When the last one completes them it returns the whole mask, everybody who
      arrived before it is released to return the whole mask, and the bits are cleared. */
  lemma {:induction false} RendezvousOfAll(start: Bits, l: seq<Arrival>, last: Arrival, mask: Bits, i: nat)
    requires NoControl(start) && NoControl(mask) && mask != 0 && Arrivals(l + [last]) && i < |l|
    requires forall k :: 0 <= k <= |l| ==> !Covers(Gathered(start, l[..k]), mask)
    requires Covers(Gathered(start, l + [last]), mask)
    ensures var s := State(Group(start, [], map[]), map[]);
            var step := Meet(last.t, last.bits, mask, true);
            && IsRun(s, Meets(l, mask)) && Enabled(Run(s, Meets(l, mask)), step)
            && var r := Run(s, Meets(l, mask));
               var answer := Sync(r.g, last.t, last.bits, mask, true).1;
               && answer.Some? && Covers(answer.value, mask)
               && HasMask(Next(r, step), l[i].t, mask)
               && !Touches(Next(r, step).g.bits, mask)
  {
    hide Join, Strip, Covers, Touches, Run, IsRun, Inv, HasMask, Participant, Sync;
    var s := State(Group(start, [], map[]), map[]);
    var all := l + [last];
    assert forall k :: 0 <= k < |l| ==> all[k] == l[k];
    assert all[|l|] == last;
    assert all[..|all| - 1] == l;
    Gathering(start, l, mask);
    var r := Run(s, Meets(l, mask));
    RunsKeepInv(s, Meets(l, mask));
    assert last.t !in r.calls && NoControl(last.bits);
    assert Enabled(r, Meet(last.t, last.bits, mask, true));
    RendezvousIff(r, last.t, last.bits, mask, true, l[i].t);
  }
}
