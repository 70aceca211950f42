/** The kernel's 32-bit tick counter and the unbounded time it stands for.

    The kernel stores times as `TickType_t`, which wraps to zero every `WORD` ticks.  The model
    pairs every stored tick with an unbounded time: the number of wraps so far (the epoch) times
    `WORD`, plus the stored tick. */
module Ticks {

  const WORD: nat := 0x1_0000_0000

  type Tick = t: nat | t < WORD

  /** `portMAX_DELAY`: as a block time it means "wait for ever". */
  const MAX_DELAY: Tick := 0xFFFF_FFFF

  /** The stored tick of an unbounded time. */
  function Low(time: nat): Tick {
    time % WORD
  }

  function Epoch(time: nat): nat {
    time / WORD
  }

  function At(epoch: nat, tick: Tick): (time: nat)
    ensures Epoch(time) == epoch && Low(time) == tick
  {
    epoch * WORD + tick
  }

  /** Unsigned 32-bit addition and subtraction. */
  function Plus(a: Tick, b: Tick): Tick {
    (a + b) % WORD
  }

  function Minus(a: Tick, b: Tick): Tick {
    (a - b) % WORD
  }

  lemma PlusAgrees(time: nat, delay: Tick)
    ensures Plus(Low(time), delay) == Low(time + delay)
  {
  }

  /** A wrapped difference is the true distance exactly when the two times are less than a full
      wrap apart. */
  lemma MinusAgrees(later: nat, earlier: nat)
    requires earlier <= later
    ensures Minus(Low(later), Low(earlier)) == later - earlier <==> later - earlier < WORD
  {
  }

  /** Less than a wrap ahead, a time is in the same epoch or the next one, and comparing the
      stored ticks tells which. */
  lemma EpochOfNear(time: nat, later: nat)
    requires time <= later < time + WORD
    ensures if Low(time) <= Low(later) then Epoch(later) == Epoch(time) else Epoch(later) == Epoch(time) + 1
  {
  }
}
