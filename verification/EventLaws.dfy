/** What the calls of an event group do to every single bit, to every task on the list, and what they
    answer. */
module EventLaws {
  import opened EventBits
  import opened EventSpec
  import opened EventRuns
  import opened Options

  // The condition

  /** The lowest bit of a word. */
  function Lowest(a: Bits): Bits {
    a & (!a + 1)
  }

  predicate Inside(b: Bits, a: Bits) {
    b != 0 && b & a == b
  }

  lemma LowestIsThere(a: Bits)
    requires a != 0
    ensures Inside(Lowest(a), a)
  {
  }

  lemma LowestIsOne(a: Bits)
    ensures Lowest(a) & (Lowest(a) - 1) == 0
  {
  }

  lemma LowestIsBit(a: Bits)
    requires a != 0
    ensures OneBit(Lowest(a))
  {
    LowestIsThere(a);
    LowestIsOne(a);
    hide Lowest;
  }

  /** A task that waits for all its bits is satisfied by all of them, one that waits for any by any. */
  lemma HoldsMeans(bits: Bits, mask: Bits)
    ensures Holds(bits, mask, true) <==> forall b :: OneBit(b) && Touches(mask, b) ==> Touches(bits, b)
    ensures Holds(bits, mask, false) <==> exists b :: OneBit(b) && Touches(mask, b) && Touches(bits, b)
  {
    AllMeans(bits, mask);
    AnyMeans(bits, mask);
  }

  lemma MissingOne(bits: Bits, mask: Bits)
    requires !Covers(bits, mask)
    ensures mask & !bits != 0
    ensures Touches(mask, Lowest(mask & !bits)) && !Touches(bits, Lowest(mask & !bits))
  {
    hide Lowest, Covers, Touches, Inside;
    Missing(bits, mask);
    LowestIsThere(mask & !bits);
    MissingBit(bits, mask, Lowest(mask & !bits));
  }

  lemma AllMeans(bits: Bits, mask: Bits)
    ensures Covers(bits, mask) <==> forall b :: OneBit(b) && Touches(mask, b) ==> Touches(bits, b)
  {
    hide Covers, Touches, OneBit, Lowest;
    if Covers(bits, mask) {
      forall b | OneBit(b) && Touches(mask, b)
        ensures Touches(bits, b)
      {
        CoveredBit(bits, mask, b);
      }
    } else {
      MissingOne(bits, mask);
      LowestIsBit(mask & !bits);
    }
  }

  lemma CoveredBit(bits: Bits, mask: Bits, b: Bits)
    requires Covers(bits, mask) && Touches(mask, b)
    ensures Touches(bits, b)
  {
  }

  lemma Missing(bits: Bits, mask: Bits)
    requires !Covers(bits, mask)
    ensures mask & !bits != 0
  {
  }

  lemma MissingBit(bits: Bits, mask: Bits, b: Bits)
    requires Inside(b, mask & !bits)
    ensures Touches(mask, b) && !Touches(bits, b)
  {
  }

  lemma CommonOne(bits: Bits, mask: Bits)
    requires Touches(bits, mask)
    ensures bits & mask != 0
    ensures Touches(mask, Lowest(bits & mask)) && Touches(bits, Lowest(bits & mask))
  {
    Common(bits, mask);
    hide Lowest, Covers, Touches, Inside;
    LowestIsThere(bits & mask);
    CommonBit(bits, mask, Lowest(bits & mask));
  }

  lemma AnyMeans(bits: Bits, mask: Bits)
    ensures Touches(bits, mask) <==> exists b :: OneBit(b) && Touches(mask, b) && Touches(bits, b)
  {
    hide Covers, Touches, OneBit, Lowest;
    if Touches(bits, mask) {
      CommonOne(bits, mask);
      LowestIsBit(bits & mask);
    } else {
      forall b | OneBit(b) && Touches(mask, b)
        ensures !Touches(bits, b)
      {
        if Touches(bits, b) {
          NoCommonBit(bits, mask, b);
        }
      }
    }
  }

  lemma Common(bits: Bits, mask: Bits)
    requires Touches(bits, mask)
    ensures bits & mask != 0
  {
  }

  lemma CommonBit(bits: Bits, mask: Bits, b: Bits)
    requires Inside(b, bits & mask)
    ensures Touches(mask, b) && Touches(bits, b)
  {
  }

  lemma NoCommonBit(bits: Bits, mask: Bits, b: Bits)
    requires OneBit(b) && Touches(mask, b) && Touches(bits, b)
    ensures Touches(bits, mask)
  {
    InOrOut(bits, b);
    InOrOut(mask, b);
    BothHave(bits, mask, b);
  }

  lemma BothHave(bits: Bits, mask: Bits, b: Bits)
    requires bits & b == b && mask & b == b && b != 0
    ensures bits & mask != 0
  {
  }

  // Bit by bit

  /** Clearing takes away the given bits and no others, and changes nothing else. */
  lemma ClearsExactly(g: Group, bits: Bits, b: Bits)
    requires OneBit(b)
    ensures Touches(ClearBits(g, bits).bits, b) <==> Touches(g.bits, b) && !Touches(bits, b)
    ensures ClearBits(g, bits) == g.(bits := ClearBits(g, bits).bits)
  {
    hide Join, Strip, Covers, Touches, OneBit;
    StripTouches(g.bits, bits, b);
  }

  /** The item carries the request: what is waited for, all of it or any, and whether to clear it. */
  ghost predicate Asks(w: Waiter, t: nat, mask: Bits, clear: bool, all: bool) {
    && w.task == t && Mask(w.value) == mask
    && (Touches(w.value, CLEAR_ON_EXIT) <==> clear) && (Touches(w.value, WAIT_FOR_ALL) <==> all)
    && !Touches(w.value, UNBLOCKED)
  }

  /** The task has gone on the end of the list with its request, which it will find in its item. */
  ghost predicate WaitsBehind(g: Group, g': Group, t: nat, mask: Bits, clear: bool, all: bool) {
    && |g'.waiting| == |g.waiting| + 1 && g'.waiting[..|g.waiting|] == g.waiting
    && Asks(g'.waiting[|g.waiting|], t, mask, clear, all)
    && g' == g.(waiting := g'.waiting, values := g.values[t := g'.waiting[|g.waiting|].value])
  }

  lemma BlockWaits(g: Group, t: nat, call: Call)
    requires NoControl(call.mask)
    ensures WaitsBehind(g, Block(g, t, Wanted(call)), t, call.mask, call.clear, call.all)
  {
    hide Join, Strip, Covers, Touches, Wanted, InUse, Mask;
    WantedReadsBack(call);
  }

  /** A wait answers the bits as they were if they satisfy it, and takes away those that it waited for
      if asked to, and no others; otherwise it answers them unchanged, or blocks with its request. */
  lemma WaitAnswers(g: Group, t: nat, call: Call, blocks: bool, b: Bits)
    requires NoControl(call.mask) && OneBit(b)
    ensures var (g', answer) := WaitBits(g, t, call, blocks);
            if Holds(g.bits, call.mask, call.all) then
              && answer == Some(g.bits) && g' == g.(bits := g'.bits)
              && (Touches(g'.bits, b) <==> Touches(g.bits, b) && !(call.clear && Touches(call.mask, b)))
            else if !blocks then answer == Some(g.bits) && g' == g
            else answer == None && WaitsBehind(g, g', t, call.mask, call.clear, call.all)
  {
    hide Join, Strip, Covers, Touches, Wanted, InUse, Mask, OneBit, Block, Holds;
    ClearsExactly(g, call.mask, b);
    BlockWaits(g, t, call);
  }

  /** An arrival sets its bits.  If then they are all there it answers them and takes away those of the
      rendezvous, and no others; otherwise it answers what is left, or blocks with its request. */
  lemma SyncAnswers(g: Group, t: nat, bits: Bits, mask: Bits, blocks: bool, b: Bits)
    requires NoControl(mask) && OneBit(b)
    ensures var (g', answer) := Sync(g, t, bits, mask, blocks);
            var now, set' := Join(g.bits, bits), SetBits(g, bits);
            if Covers(now, mask) then
              && answer == Some(now) && g' == set'.(bits := g'.bits)
              && (Touches(g'.bits, b) <==> Touches(set'.bits, b) && !Touches(mask, b))
            else if !blocks then answer == Some(set'.bits) && g' == set'
            else answer == None && WaitsBehind(set', g', t, mask, true, true)
  {
    hide Join, Strip, Covers, Touches, Wanted, InUse, Mask, OneBit, Block, SetBits;
    ClearsExactly(SetBits(g, bits), mask, b);
    BlockWaits(SetBits(g, bits), t, Call(mask, true, true));
  }

  /** After a completed rendezvous a bit is left if it was there before or has just been set, unless it
      is one of the rendezvous or a task released by the arrival wanted it cleared. */
  lemma RendezvousLeaves(g: Group, t: nat, bits: Bits, mask: Bits, blocks: bool, b: Bits)
    requires NoControl(mask) && OneBit(b) && Covers(Join(g.bits, bits), mask)
    ensures var now := Join(g.bits, bits);
            Touches(Sync(g, t, bits, mask, blocks).0.bits, b) <==>
            && (Touches(g.bits, b) || Touches(bits, b)) && !Touches(mask, b)
            && !exists x ::
                 x in g.waiting && Met(now, x.value) && Touches(x.value, CLEAR_ON_EXIT) && Touches(Mask(x.value), b)
  {
    hide Join, Strip, Covers, Touches, Wanted, InUse, Mask, OneBit, Block, SetBits, Met;
    SyncAnswers(g, t, bits, mask, blocks, b);
    OnePassClearsExactly(g, bits, b);
  }

  /** A released task answers what it was released with, and changes nothing.  One that has timed out
      answers the present bits, and takes away those that it waited for, and no others, if they satisfy
      it after all and it was to clear them. */
  lemma ResumeAnswers(g: Group, t: nat, call: Call, b: Bits)
    requires t in g.values && OneBit(b)
    ensures var (g', answer) := Resume(g, t, call);
            if Touches(g.values[t], UNBLOCKED) then answer == Mask(g.values[t]) && g' == g
            else
              && answer == Mask(g.bits) && g' == g.(bits := g'.bits)
              && (Touches(g'.bits, b) <==>
                  Touches(g.bits, b) && !(Holds(g.bits, call.mask, call.all) && call.clear && Touches(call.mask, b)))
  {
    hide Join, Strip, Covers, Touches, Mask, OneBit, Holds;
    ClearsExactly(g, call.mask, b);
  }

  // Task by task

  /** A pass leaves alone what a task finds in its item if none of its conditions holds. */
  lemma PassLeavesOthers(g: Group, bits: Bits, t: nat)
    requires forall w :: w in g.waiting && w.task == t ==> !Met(Join(g.bits, bits), w.value)
    ensures var g' := SetBits(g, bits);
            && (t in g.values ==> t in g'.values && g'.values[t] == g.values[t])
            && (forall w: Waiter :: w.task == t ==> (w in g'.waiting <==> w in g.waiting))
  {
    hide Join, Strip, Covers, Touches, Met, Mask, Cleared;
    var now := Join(g.bits, bits);
    RemainingMembers(g.waiting, now);
    ReleasedMembers(g.waiting, now);
    Delivered(g.values, Released(g.waiting, now), Delivery(now));
  }

  /** A time-out takes the task off the list and does nothing else. */
  lemma TimeoutRemoves(s: EventRuns.State, t: nat)
    requires Enabled(s, Timeout(t))
    ensures var s' := Next(s, Timeout(t));
            && s' == s.(g := s.g.(waiting := s'.g.waiting))
            && forall w :: w in s'.g.waiting <==> w in s.g.waiting && w.task != t
  {
    ExpireMembers(s.g.waiting, t);
  }

  /** In every run a released task returns all the bits that it asked for, or one of them if any would
      do, whatever has been set or cleared since. */
  lemma AnswerSatisfies(steps: seq<Step>, t: nat)
    requires IsRun(Created(), steps) && Enabled(Run(Created(), steps), Finish(t))
    requires Touches(Run(Created(), steps).g.values[t], UNBLOCKED)
    ensures var s := Run(Created(), steps);
            var (call, answer) := (s.calls[t], Resume(s.g, t, s.calls[t]).1);
            if call.all then forall b :: OneBit(b) && Touches(call.mask, b) ==> Touches(answer, b)
            else exists b :: OneBit(b) && Touches(call.mask, b) && Touches(answer, b)
  {
    hide Join, Strip, Covers, Touches, Mask, OneBit, Run, IsRun, Resume, Holds;
    ReleasedWithWhatItAskedFor(steps, t);
    var s := Run(Created(), steps);
    HoldsMeans(Resume(s.g, t, s.calls[t]).1, s.calls[t].mask);
  }
}
