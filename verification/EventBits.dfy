/** Words of event bits, and the event list item values that carry a task's request. */
module EventBits {
  import EventValues

  type Bits = bv32

  /** The control bits of an event list item value. */
  const CLEAR_ON_EXIT: Bits := 0x0100_0000
  const UNBLOCKED: Bits := 0x0200_0000
  const WAIT_FOR_ALL: Bits := 0x0400_0000
  const VALUE_IN_USE: Bits := EventValues.IN_USE_BIT
  const CONTROL: Bits := 0xff00_0000

  function Join(a: Bits, b: Bits): Bits {
    a | b
  }

  function Strip(a: Bits, b: Bits): Bits {
    a & !b
  }

  predicate Covers(a: Bits, b: Bits) {
    a & b == b
  }

  predicate Touches(a: Bits, b: Bits) {
    a & b != 0
  }

  predicate NoControl(a: Bits) {
    !Touches(a, CONTROL)
  }

  function Mask(value: Bits): Bits {
    Strip(value, CONTROL)
  }

  function InUse(value: Bits): Bits {
    Join(value, VALUE_IN_USE)
  }

  /** The value that a released task finds. */
  function Delivery(bits: Bits): Bits {
    InUse(Join(bits, UNBLOCKED))
  }

  /** What a task asks for. */
  datatype Call = Call(mask: Bits, clear: bool, all: bool)

  function Wanted(call: Call): Bits {
    Join(Join(call.mask, if call.clear then CLEAR_ON_EXIT else 0), if call.all then WAIT_FOR_ALL else 0)
  }

  /** prvTestWaitCondition */
  predicate Holds(bits: Bits, mask: Bits, all: bool) {
    if all then Covers(bits, mask) else Touches(bits, mask)
  }

  /** The same test on an event list item value. */
  predicate Met(bits: Bits, value: Bits) {
    Holds(bits, Mask(value), Touches(value, WAIT_FOR_ALL))
  }

  /** What a call puts into the item value is what is read back out of it. */
  lemma WantedReadsBack(call: Call)
    requires NoControl(call.mask)
    ensures var value := InUse(Wanted(call));
            && Mask(value) == call.mask
            && (Touches(value, CLEAR_ON_EXIT) <==> call.clear)
            && (Touches(value, WAIT_FOR_ALL) <==> call.all)
            && !Touches(value, UNBLOCKED)
  {
    var clear, all := if call.clear then CLEAR_ON_EXIT else 0, if call.all then WAIT_FOR_ALL else 0;
    MaskReadsBack(call.mask, clear, all);
    ClearReadsBack(call.mask, clear, all);
    AllReadsBack(call.mask, clear, all);
    NotUnblocked(call.mask, clear, all);
  }

  predicate Packs(mask: Bits, clear: Bits, all: Bits) {
    mask & CONTROL == 0 && (clear == 0 || clear == CLEAR_ON_EXIT) && (all == 0 || all == WAIT_FOR_ALL)
  }

  lemma MaskReadsBack(mask: Bits, clear: Bits, all: Bits)
    requires Packs(mask, clear, all)
    ensures (mask | clear | all | VALUE_IN_USE) & !CONTROL == mask
  {
  }

  lemma ClearReadsBack(mask: Bits, clear: Bits, all: Bits)
    requires Packs(mask, clear, all)
    ensures (mask | clear | all | VALUE_IN_USE) & CLEAR_ON_EXIT == clear
  {
  }

  lemma AllReadsBack(mask: Bits, clear: Bits, all: Bits)
    requires Packs(mask, clear, all)
    ensures (mask | clear | all | VALUE_IN_USE) & WAIT_FOR_ALL == all
  {
  }

  lemma NotUnblocked(mask: Bits, clear: Bits, all: Bits)
    requires Packs(mask, clear, all)
    ensures (mask | clear | all | VALUE_IN_USE) & UNBLOCKED == 0
  {
  }

  lemma WantedMet(bits: Bits, call: Call)
    requires NoControl(call.mask)
    ensures Met(bits, InUse(Wanted(call))) <==> Holds(bits, call.mask, call.all)
  {
    hide Join, Strip, Covers, Touches;
    WantedReadsBack(call);
  }

  /** Taking bits away satisfies nobody. */
  lemma LessHoldsLess(bits: Bits, cleared: Bits, mask: Bits, all: bool)
    requires Holds(Strip(bits, cleared), mask, all)
    ensures Holds(bits, mask, all)
  {
  }

  lemma KeptBits(bits: Bits, cleared: Bits)
    requires NoControl(bits)
    ensures NoControl(Strip(bits, cleared))
  {
  }

  lemma DeliveryReadsBack(bits: Bits)
    requires NoControl(bits)
    ensures Mask(Delivery(bits)) == bits && Touches(Delivery(bits), UNBLOCKED)
  {
  }

  lemma JoinNoControl(a: Bits, b: Bits)
    ensures NoControl(Join(a, b)) <==> NoControl(a) && NoControl(b)
  {
  }

  lemma JoinTouches(a: Bits, c: Bits, b: Bits)
    ensures Touches(Join(a, c), b) <==> Touches(a, b) || Touches(c, b)
  {
    Distributes(a, c, b);
    hide Covers, Strip;
    assert Join(a, c) == a | c;
    assert Touches(a | c, b) == ((a | c) & b != 0);
  }

  lemma Distributes(a: Bits, c: Bits, b: Bits)
    ensures (a | c) & b != 0 <==> a & b != 0 || c & b != 0
  {
  }

  lemma ZeroBits(a: Bits)
    ensures !Touches(0, a) && Join(a, 0) == a && Join(0, a) == a && Strip(a, 0) == a
  {
  }

  predicate OneBit(b: Bits) {
    b != 0 && b & (b - 1) == 0
  }

  /** A single bit is left after clearing if it was there and was not cleared. */
  lemma StripTouches(a: Bits, c: Bits, b: Bits)
    requires OneBit(b)
    ensures Touches(Strip(a, c), b) <==> Touches(a, b) && !Touches(c, b)
  {
    hide Join, Strip, Covers, Touches, OneBit;
    OneBitInOrOut(c, b);
    StripInOrOut(a, c, b);
  }

  lemma StripInOrOut(a: Bits, c: Bits, b: Bits)
    requires Covers(c, b) || !Touches(c, b)
    ensures Touches(Strip(a, c), b) <==> Touches(a, b) && !Touches(c, b)
  {
    Removes(a, c, b);
    hide Join;
    assert Strip(a, c) == a & !c;
    assert Touches(a & !c, b) == ((a & !c) & b != 0);
  }

  lemma OneBitInOrOut(c: Bits, b: Bits)
    requires OneBit(b)
    ensures Covers(c, b) || !Touches(c, b)
  {
    hide Join, Strip;
    InOrOut(c, b);
  }

  lemma InOrOut(c: Bits, b: Bits)
    requires b & (b - 1) == 0
    ensures c & b == b || c & b == 0
  {
  }

  lemma Removes(a: Bits, c: Bits, b: Bits)
    requires c & b == b || c & b == 0
    ensures (a & !c) & b != 0 <==> a & b != 0 && c & b == 0
  {
  }

  lemma StripAll(a: Bits, b: Bits)
    ensures !Touches(Strip(a, b), b)
  {
  }
}
