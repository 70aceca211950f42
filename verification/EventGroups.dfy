/** Event groups: a word of bits and the list of tasks that wait for some of them. */
module EventGroups {
  import opened EventBits
  import opened Options
  import S = EventSpec

  class EventGroup {
    var eventBits: Bits
    var waiting: seq<S.Waiter>
    /** The event list item values of the tasks that have used the group. */
    var itemValues: map<nat, Bits>

    function View(): S.Group
      reads this
    {
      S.Group(eventBits, waiting, itemValues)
    }

    constructor ()
      ensures View() == S.Group(0, [], map[])
    {
      eventBits, waiting, itemValues := 0, [], map[];
    }

    /** vTaskRemoveFromUnorderedEventList, for the item at a position of the list. */
    method RemoveFromUnorderedEventList(i: nat, value: Bits)
      requires i < |waiting|
      modifies `waiting, `itemValues
      ensures waiting == old(waiting)[..i] + old(waiting)[i + 1..]
      ensures itemValues == old(itemValues)[old(waiting)[i].task := InUse(value)]
    {
      itemValues := itemValues[waiting[i].task := InUse(value)];
      waiting := waiting[..i] + waiting[i + 1..];
    }

    /** xEventGroupSetBits: one walk over the list.  All items are tested against the same bits,
        which are cleared only after the walk.  What the call answers is read by `ReadBits`, once the
        scheduler runs again. */
    method SetBits(bits: Bits)
      modifies this
      ensures View() == S.SetBits(old(View()), bits)
    {
      hide Join, Strip, Covers, Touches, Mask, Walk;
      eventBits := Join(eventBits, bits);
      var toClear: Bits := 0;
      var i := 0;
      WalkStarts(old(View()), eventBits);
      while i < |waiting|
        invariant i <= |waiting| && eventBits == Join(old(eventBits), bits)
        invariant Walk(old(View()), View(), i, toClear)
        decreases |waiting| - i
      {
        var value := waiting[i].value;
        var waitedFor := Mask(value);
        var matched := false;
        if !Touches(value, WAIT_FOR_ALL) {
          if Touches(eventBits, waitedFor) {
            matched := true;
          }
        } else if Covers(eventBits, waitedFor) {
          matched := true;
        }
        ghost var cleared := toClear;
        if matched {
          if Touches(value, CLEAR_ON_EXIT) {
            toClear := Join(toClear, waitedFor);
          }
          WalkReleases(old(View()), View(), i, cleared, toClear);
          RemoveFromUnorderedEventList(i, Join(eventBits, UNBLOCKED));
        } else {
          WalkPasses(old(View()), View(), i, toClear);
          i := i + 1;
        }
      }
      WalkEnds(old(View()), View(), toClear);
      eventBits := Strip(eventBits, toClear);
    }

    /** The return statement of xEventGroupSetBits: other tasks may have come in between. */
    method ReadBits() returns (answer: Bits)
      ensures answer == eventBits
    {
      answer := eventBits;
    }

    /** xEventGroupClearBits: answers the bits before. */
    method ClearBits(bits: Bits) returns (before: Bits)
      modifies `eventBits
      ensures before == old(eventBits) && View() == S.ClearBits(old(View()), bits)
      ensures forall b :: OneBit(b) ==> (Touches(eventBits, b) <==> Touches(before, b) && !Touches(bits, b))
    {
      before := eventBits;
      eventBits := Strip(eventBits, bits);
      StripsExactly(before, bits);
    }

    /** vTaskPlaceOnUnorderedEventList for the calling task. */
    method PlaceOnUnorderedEventList(t: nat, value: Bits)
      modifies `waiting, `itemValues
      ensures View() == S.Block(old(View()), t, value)
    {
      var marked := InUse(value);
      itemValues := itemValues[t := marked];
      waiting := waiting + [S.Waiter(t, marked)];
    }

    /** xEventGroupWaitBits up to its block. */
    method WaitBits(t: nat, call: Call, blocks: bool) returns (answer: Option<Bits>)
      modifies this
      ensures (View(), answer) == S.WaitBits(old(View()), t, call, blocks)
    {
      hide Join, Strip, Covers, Touches;
      if Holds(eventBits, call.mask, call.all) {
        answer := Some(eventBits);
        if call.clear {
          var before := ClearBits(call.mask);
        }
      } else if !blocks {
        answer := Some(eventBits);
      } else {
        var value := call.mask;
        if call.clear {
          value := Join(value, CLEAR_ON_EXIT);
        }
        if call.all {
          value := Join(value, WAIT_FOR_ALL);
        }
        ZeroBits(call.mask);
        ZeroBits(Join(call.mask, CLEAR_ON_EXIT));
        PlaceOnUnorderedEventList(t, value);
        answer := None;
      }
    }

    /** xEventGroupSync up to its block. */
    method Sync(t: nat, bits: Bits, mask: Bits, blocks: bool) returns (answer: Option<Bits>)
      modifies this
      ensures (View(), answer) == S.Sync(old(View()), t, bits, mask, blocks)
    {
      hide Join, Strip, Covers, Touches, S.SetBits;
      var original := eventBits;
      SetBits(bits);
      var all := Join(original, bits);
      if Covers(all, mask) {
        answer := Some(all);
        var before := ClearBits(mask);
      } else if blocks {
        var value := Join(Join(mask, CLEAR_ON_EXIT), WAIT_FOR_ALL);
        PlaceOnUnorderedEventList(t, value);
        answer := None;
      } else {
        answer := Some(eventBits);
      }
    }

    /** The end of xEventGroupWaitBits and xEventGroupSync, once the task runs again: it was released
        with the bits in its item value, or it has timed out. */
    method Resume(t: nat, call: Call) returns (answer: Bits)
      requires t in itemValues
      modifies `eventBits
      ensures (View(), answer) == S.Resume(old(View()), t, call)
    {
      hide Join, Strip, Covers, Touches;
      answer := itemValues[t];
      if !Touches(answer, UNBLOCKED) {
        answer := eventBits;
        if Holds(answer, call.mask, call.all) {
          if call.clear {
            var before := ClearBits(call.mask);
          }
        }
      }
      answer := Strip(answer, CONTROL);
    }
  }

  /** Part of the list has been walked, up to position `i`: what is left to do on the rest gives
      what a whole pass over the original list gives. */
  ghost predicate Walk(g: S.Group, now: S.Group, i: nat, toClear: Bits)
    requires i <= |now.waiting|
  {
    var rest := now.waiting[i..];
    && S.Remaining(g.waiting, now.bits) == now.waiting[..i] + S.Remaining(rest, now.bits)
    && S.Cleared(g.waiting, now.bits) == Join(toClear, S.Cleared(rest, now.bits))
    && S.Deliver(g.values, S.Released(g.waiting, now.bits), Delivery(now.bits))
       == S.Deliver(now.values, S.Released(rest, now.bits), Delivery(now.bits))
  }

  lemma WalkStarts(g: S.Group, bits: Bits)
    ensures Walk(g, g.(bits := bits), 0, 0)
  {
    hide Join, Strip, Covers, Touches, Met;
    assert g.waiting[0..] == g.waiting;
    ZeroBits(S.Cleared(g.waiting, bits));
  }

  lemma WalkReleases(g: S.Group, now: S.Group, i: nat, toClear: Bits, toClear': Bits)
    requires i < |now.waiting| && Walk(g, now, i, toClear) && Met(now.bits, now.waiting[i].value)
    requires var v := now.waiting[i].value;
             toClear' == if Touches(v, CLEAR_ON_EXIT) then Join(toClear, Mask(v)) else toClear
    ensures Walk(g, now.(waiting := now.waiting[..i] + now.waiting[i + 1..],
                         values := now.values[now.waiting[i].task := Delivery(now.bits)]), i, toClear')
  {
    hide Join, Strip, Covers, Touches, Met, Mask, Delivery;
    var rest, after := now.waiting[i..], now.waiting[..i] + now.waiting[i + 1..];
    assert rest[0] == now.waiting[i] && rest[1..] == now.waiting[i + 1..] == after[i..];
    assert after[..i] == now.waiting[..i];
    var others := S.Cleared(rest[1..], now.bits);
    JoinAssociates(toClear, Mask(rest[0].value), others);
    ZeroBits(others);
  }

  lemma WalkPasses(g: S.Group, now: S.Group, i: nat, toClear: Bits)
    requires i < |now.waiting| && Walk(g, now, i, toClear) && !Met(now.bits, now.waiting[i].value)
    ensures Walk(g, now, i + 1, toClear)
  {
    hide Join, Strip, Covers, Touches, Met, Mask, Delivery;
    var rest := now.waiting[i..];
    assert rest[0] == now.waiting[i] && rest[1..] == now.waiting[i + 1..];
    assert now.waiting[..i + 1] == now.waiting[..i] + [rest[0]];
    ZeroBits(S.Cleared(rest[1..], now.bits));
  }

  lemma WalkEnds(g: S.Group, now: S.Group, toClear: Bits)
    requires Walk(g, now, |now.waiting|, toClear)
    ensures now.waiting == S.Remaining(g.waiting, now.bits)
    ensures toClear == S.Cleared(g.waiting, now.bits)
    ensures now.values == S.Deliver(g.values, S.Released(g.waiting, now.bits), Delivery(now.bits))
  {
    hide Join, Strip, Covers, Touches, Met, Mask, Delivery;
    assert now.waiting[|now.waiting|..] == [];
    ZeroBits(toClear);
  }

  lemma JoinAssociates(a: Bits, b: Bits, c: Bits)
    ensures Join(Join(a, b), c) == Join(a, Join(b, c))
  {
  }

  lemma StripsExactly(was: Bits, bits: Bits)
    ensures forall b :: OneBit(b) ==> (Touches(Strip(was, bits), b) <==> Touches(was, b) && !Touches(bits, b))
  {
    hide Join, Strip, Covers, Touches, OneBit;
    forall b | OneBit(b)
      ensures Touches(Strip(was, bits), b) <==> Touches(was, b) && !Touches(bits, b)
    {
      StripTouches(was, bits, b);
    }
  }
}
