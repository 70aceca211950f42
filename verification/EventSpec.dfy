/** What the operations of an event group do to its bits, its waiting tasks and the event list item
    values of the tasks. */
module EventSpec {
  import opened EventBits
  import opened Options

  /** An event list item: its owner and its value. */
  datatype Waiter = Waiter(task: nat, value: Bits)

  /** `values` holds the event list item values that the tasks find when they run again. */
  datatype Group = Group(bits: Bits, waiting: seq<Waiter>, values: map<nat, Bits>)

  function Remaining(l: seq<Waiter>, bits: Bits): seq<Waiter> {
    if l == [] then []
    else if Met(bits, l[0].value) then Remaining(l[1..], bits)
    else [l[0]] + Remaining(l[1..], bits)
  }

  function Released(l: seq<Waiter>, bits: Bits): seq<nat> {
    if l == [] then []
    else if Met(bits, l[0].value) then [l[0].task] + Released(l[1..], bits)
    else Released(l[1..], bits)
  }

  /** The masks of the released tasks that asked for their bits to be cleared. */
  function Cleared(l: seq<Waiter>, bits: Bits): Bits {
    if l == [] then 0
    else Join(if Met(bits, l[0].value) && Touches(l[0].value, CLEAR_ON_EXIT) then Mask(l[0].value) else 0,
              Cleared(l[1..], bits))
  }

  function Deliver(values: map<nat, Bits>, tasks: seq<nat>, value: Bits): map<nat, Bits>
    decreases |tasks|
  {
    if tasks == [] then values else Deliver(values[tasks[0] := value], tasks[1..], value)
  }

  /** xEventGroupSetBits: everybody is judged by the same bits, which are cleared afterwards. */
  function SetBits(g: Group, bits: Bits): Group {
    var now := Join(g.bits, bits);
    Group(Strip(now, Cleared(g.waiting, now)), Remaining(g.waiting, now),
          Deliver(g.values, Released(g.waiting, now), Delivery(now)))
  }

  /** xEventGroupClearBits */
  function ClearBits(g: Group, bits: Bits): Group {
    g.(bits := Strip(g.bits, bits))
  }

  /** vTaskPlaceOnUnorderedEventList */
  function Block(g: Group, t: nat, value: Bits): Group {
    g.(waiting := g.waiting + [Waiter(t, InUse(value))], values := g.values[t := InUse(value)])
  }

  /** xEventGroupWaitBits up to its block; no answer means that the task is blocked. */
  function WaitBits(g: Group, t: nat, call: Call, blocks: bool): (Group, Option<Bits>) {
    if Holds(g.bits, call.mask, call.all) then
      (if call.clear then ClearBits(g, call.mask) else g, Some(g.bits))
    else if !blocks then (g, Some(g.bits))
    else (Block(g, t, Wanted(call)), None)
  }

  /** xEventGroupSync up to its block. */
  function Sync(g: Group, t: nat, bits: Bits, mask: Bits, blocks: bool): (Group, Option<Bits>) {
    var g' := SetBits(g, bits);
    if Covers(Join(g.bits, bits), mask) then (ClearBits(g', mask), Some(Join(g.bits, bits)))
    else if !blocks then (g', Some(g'.bits))
    else (Block(g', t, Wanted(Call(mask, true, true))), None)
  }

  /** The tick takes a task whose block time has expired off the list. */
  function Expire(l: seq<Waiter>, t: nat): seq<Waiter> {
    if l == [] then [] else if l[0].task == t then Expire(l[1..], t) else [l[0]] + Expire(l[1..], t)
  }

  /** The end of xEventGroupWaitBits and of xEventGroupSync, once the task runs again. */
  function Resume(g: Group, t: nat, call: Call): (Group, Bits)
    requires t in g.values
  {
    if Touches(g.values[t], UNBLOCKED) then (g, Mask(g.values[t]))
    else if Holds(g.bits, call.mask, call.all) && call.clear then (ClearBits(g, call.mask), Mask(g.bits))
    else (g, Mask(g.bits))
  }
}
