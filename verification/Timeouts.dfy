/** Block times measured on the wrapping tick counter: the remaining wait of a task that is woken
    early, and the fixed-rate delay. */
module Timeouts {
  import opened Ticks

  /** The outcome of one xTaskCheckForTimeOut call. */
  datatype Verdict = TimedOut | Remaining(ticks: Tick)

  /** The decision, from the stored overflow count and tick and the present ones. */
  function Judge(overflowsThen: Tick, tickThen: Tick, overflows: Tick, tick: Tick, wait: Tick): Verdict {
    if wait == MAX_DELAY then Remaining(wait)
    else if overflows != overflowsThen && tick >= tickThen then TimedOut
    else if Minus(tick, tickThen) < wait then Remaining(wait - Minus(tick, tickThen))
    else TimedOut
  }

  class TimeOut {
    var overflowCount: Tick
    var timeOnEntering: Tick

    ghost predicate SetAt(time: nat)
      reads this
    {
      overflowCount == Low(Epoch(time)) && timeOnEntering == Low(time)
    }

    constructor (overflows: Tick, tick: Tick)
      ensures overflowCount == overflows && timeOnEntering == tick
    {
      overflowCount, timeOnEntering := overflows, tick;
    }

    /** vTaskInternalSetTimeOutState */
    method Set(overflows: Tick, tick: Tick)
      modifies this
      ensures overflowCount == overflows && timeOnEntering == tick
    {
      overflowCount, timeOnEntering := overflows, tick;
    }

    /** xTaskCheckForTimeOut; `left` is what becomes of the caller's block time. */
    method Check(overflows: Tick, tick: Tick, wait: Tick) returns (timedOut: bool, left: Tick)
      modifies this
      ensures var v := Judge(old(overflowCount), old(timeOnEntering), overflows, tick, wait);
              && timedOut == v.TimedOut? && left == (if timedOut then 0 else v.ticks)
              && (timedOut || wait == MAX_DELAY ==>
                    overflowCount == old(overflowCount) && timeOnEntering == old(timeOnEntering))
              && (!timedOut && wait != MAX_DELAY ==> overflowCount == overflows && timeOnEntering == tick)
    {
      var elapsed := Minus(tick, timeOnEntering);
      left := wait;
      if wait == MAX_DELAY {
        timedOut := false;
      } else if overflows != overflowCount && tick >= timeOnEntering {
        timedOut, left := true, 0;
      } else if elapsed < wait {
        left := wait - elapsed;
        Set(overflows, tick);
        timedOut := false;
      } else {
        timedOut, left := true, 0;
      }
    }

    /** In unbounded time, for calls less than a wrap apart: the wait is over when as many ticks
        have gone by, and otherwise goes down by the ticks that have.  A wait for ever is neither. */
    method CheckAt(now: nat, ghost entered: nat, wait: Tick) returns (timedOut: bool, left: Tick)
      requires SetAt(entered) && entered <= now < entered + WORD
      modifies this
      ensures timedOut <==> wait != MAX_DELAY && now - entered >= wait
      ensures timedOut ==> SetAt(entered) && left == 0
      ensures !timedOut ==>
        if wait == MAX_DELAY then SetAt(entered) && left == MAX_DELAY
        else SetAt(now) && left == wait - (now - entered)
    {
      EpochOfNear(entered, now);
      MinusAgrees(now, entered);
      timedOut, left := Check(Low(Epoch(now)), Low(now), wait);
    }
  }

  function JudgeAt(entered: nat, now: nat, wait: Tick): Verdict {
    Judge(Low(Epoch(entered)), Low(entered), Low(Epoch(now)), Low(now), wait)
  }

  /** When the verdict on a finite wait is right, for any two times.  A full wrap late it is right
      only if the comparison of the wrapped values happens to show it. */
  lemma JudgedRightIff(entered: nat, now: nat, wait: Tick)
    requires entered <= now && wait != MAX_DELAY
    ensures (JudgeAt(entered, now, wait).TimedOut? <==> now - entered >= wait)
        <==> (|| now - entered < WORD
              || (Low(Epoch(now)) != Low(Epoch(entered)) && Low(now) >= Low(entered))
              || Minus(Low(now), Low(entered)) >= wait)
    ensures now - entered < WORD && JudgeAt(entered, now, wait).Remaining? ==>
      JudgeAt(entered, now, wait).ticks == wait - (now - entered)
  {
    MinusAgrees(now, entered);
    if now - entered < WORD {
      EpochOfNear(entered, now);
    }
  }

  /** The failing family is not empty: a wait entered at tick 5 is reported as still having a tick to
      go when it has long run out, at tick 2 two wraps later. */
  lemma JudgedWrongTwoWrapsLate()
    ensures JudgeAt(5, 2 * WORD + 2, WORD - 2) == Remaining(1)
  {
  }

  /** What repeated checks say: the index of the check that reports the timeout, or the wait left
      after the last one. */
  datatype Outcome = ReportedAt(index: nat) | Waiting(left: Tick)

  function Poll(entered: nat, times: seq<nat>, wait: Tick): Outcome
    decreases |times|
  {
    if times == [] then Waiting(wait)
    else match JudgeAt(entered, times[0], wait)
      case TimedOut => ReportedAt(0)
      case Remaining(left) =>
        match Poll(times[0], times[1..], left)
        case ReportedAt(i) => ReportedAt(i + 1)
        case Waiting(left) => Waiting(left)
  }

  ghost predicate Ticking(entered: nat, times: seq<nat>) {
    && (times != [] ==> entered <= times[0] < entered + WORD)
    && forall i :: 0 <= i < |times| - 1 ==> times[i] <= times[i + 1] < times[i] + WORD
  }

  /** Over any number of checks the waits telescope: the timeout is reported by the first check at
      which the total time reaches the wait, and before that the rest is exact. */
  lemma {:induction false} WaitsTelescope(entered: nat, times: seq<nat>, wait: Tick)
    requires Ticking(entered, times) && wait != MAX_DELAY
    ensures match Poll(entered, times, wait)
            case ReportedAt(i) =>
              && i < |times| && times[i] - entered >= wait
              && forall j :: 0 <= j < i ==> times[j] - entered < wait
            case Waiting(left) =>
              && (forall j :: 0 <= j < |times| ==> times[j] - entered < wait)
              && left == wait - (if times == [] then 0 else times[|times| - 1] - entered)
    decreases |times|
  {
    if times != [] {
      JudgedRightIff(entered, times[0], wait);
      match JudgeAt(entered, times[0], wait) {
        case TimedOut =>
        case Remaining(left) =>
          assert forall i :: 0 <= i < |times[1..]| ==> times[1..][i] == times[i + 1];
          WaitsTelescope(times[0], times[1..], left);
      }
    }
  }

  /** A wait for ever is never reported as over, by any number of checks at any times, and stays one. */
  lemma {:induction false} WaitsForEver(entered: nat, times: seq<nat>)
    ensures Poll(entered, times, MAX_DELAY) == Waiting(MAX_DELAY)
    decreases |times|
  {
    if times != [] {
      WaitsForEver(times[0], times[1..]);
    }
  }

  /** The decision of xTaskDelayUntil. */
  function ShouldDelay(previous: Tick, tick: Tick, wake: Tick): bool {
    if tick < previous then wake < previous && wake > tick else wake < previous || wake > tick
  }

  /** A task whose previous wake time was `previous` delays at `now` exactly when its next wake time
      is still to come, provided it is less than a wrap late; later than that it is right only if
      the lateness, with whole wraps taken off, is no less than the increment. */
  lemma DelaysRightIff(previous: nat, increment: Tick, now: nat)
    requires previous <= now
    ensures (ShouldDelay(Low(previous), Low(now), Plus(Low(previous), increment)) <==> now < previous + increment)
        <==> now - previous < WORD || (now - previous) % WORD >= increment
  {
    LateBy(previous, now);
    DecidesByLateness(Low(previous), increment, (now - previous) % WORD);
  }

  lemma LateBy(previous: nat, now: nat)
    requires previous <= now
    ensures Low(now) == Plus(Low(previous), (now - previous) % WORD)
  {
  }

  /** The decision compares the lateness, with whole wraps taken off, with the increment. */
  lemma DecidesByLateness(previous: Tick, increment: Tick, late: Tick)
    ensures ShouldDelay(previous, Plus(previous, late), Plus(previous, increment)) <==> late < increment
  {
  }

  /** The failing family is not empty: a task that is a wrap and five ticks late sleeps for another five. */
  lemma DelaysWrongAWrapLate()
    ensures Decides(Low(0), 10, Low(WORD + 5)) == Sleeps(5)
  {
  }

  /** A delay that is due is for exactly the ticks that are left. */
  lemma DelaysForTheRest(previous: nat, increment: Tick, now: nat)
    requires previous <= now < previous + increment
    ensures Minus(Plus(Low(previous), increment), Low(now)) == previous + increment - now
  {
    hide Plus, Minus;
    PlusAgrees(previous, increment);
    MinusAgrees(previous + increment, now);
  }

  /** xTaskDelayUntil up to the blocking: the new wake time, and the block time if it is to come.  `last`
      and `now` are the unbounded times of the previous wake time and of the tick. */
  method DelayUntil(previous: Tick, increment: Tick, tick: Tick, ghost last: nat, ghost now: nat)
    returns (wake: Tick, shouldDelay: bool, ticks: Tick)
    requires previous == Low(last) && tick == Low(now) && last <= now
    ensures wake == Low(last + increment)
    ensures (shouldDelay <==> now < last + increment) <==> now - last < WORD || (now - last) % WORD >= increment
    ensures shouldDelay && now < last + increment ==> ticks == last + increment - now
  {
    shouldDelay, ticks := false, 0;
    wake := Plus(previous, increment);
    if tick < previous {
      if wake < previous && wake > tick {
        shouldDelay := true;
      }
    } else {
      if wake < previous || wake > tick {
        shouldDelay := true;
      }
    }
    if shouldDelay {
      ticks := Minus(wake, tick);
    }
    DelayDecided(last, increment, now, wake, shouldDelay, ticks);
  }

  lemma DelayDecided(last: nat, increment: Tick, now: nat, wake: Tick, shouldDelay: bool, ticks: Tick)
    requires last <= now && wake == Plus(Low(last), increment)
    requires shouldDelay == ShouldDelay(Low(last), Low(now), wake)
    requires shouldDelay ==> ticks == Minus(wake, Low(now))
    ensures wake == Low(last + increment)
    ensures (shouldDelay <==> now < last + increment) <==> now - last < WORD || (now - last) % WORD >= increment
    ensures shouldDelay && now < last + increment ==> ticks == last + increment - now
  {
    hide ShouldDelay, Plus, Minus, Low;
    PlusAgrees(last, increment);
    DelaysRightIff(last, increment, now);
    if now < last + increment {
      DelaysForTheRest(last, increment, now);
    }
  }

  function Rounds(previous: Tick, increment: Tick, n: nat): Tick {
    if n == 0 then previous else Plus(Rounds(previous, increment, n - 1), increment)
  }

  /** The rate does not drift: the `n`-th wake time is `n` increments after the start, over any
      number of wraps, however late the calls. */
  lemma {:induction false} RateIsFixed(start: nat, increment: Tick, n: nat)
    ensures Rounds(Low(start), increment, n) == Low(start + n * increment)
  {
    hide Low, Plus;
    if n > 0 {
      RateIsFixed(start, increment, n - 1);
      assert n * increment == (n - 1) * increment + increment;
      PlusAgrees(start + (n - 1) * increment, increment);
    }
  }

  /** What one call of a periodic task decides, from its wrapped wake time. */
  datatype Decision = Runs | Sleeps(ticks: Tick)

  function Decides(previous: Tick, increment: Tick, tick: Tick): Decision {
    var wake := Plus(previous, increment);
    if ShouldDelay(previous, tick, wake) then Sleeps(Minus(wake, tick)) else Runs
  }

  /** A periodic task: one call of xTaskDelayUntil after the other, each from the wake time that the
      call before has left. */
  function Calls(previous: Tick, increment: Tick, ticks: seq<Tick>): seq<Decision>
    decreases |ticks|
  {
    if ticks == [] then []
    else [Decides(previous, increment, ticks[0])] + Calls(Plus(previous, increment), increment, ticks[1..])
  }

  function Lows(times: seq<nat>): (r: seq<Tick>)
    ensures |r| == |times| && forall i :: 0 <= i < |times| ==> r[i] == Low(times[i])
  {
    seq(|times|, i requires 0 <= i < |times| => Low(times[i]))
  }

  /** The `k`-th target of a task that started at `start`. */
  function Target(start: nat, increment: Tick, k: nat): nat {
    start + k * increment
  }

  lemma TargetNext(start: nat, increment: Tick, k: nat)
    ensures Target(start, increment, 0) == start
    ensures Target(start, increment, k + 1) == Target(start, increment, k) + increment
    ensures Target(start + increment, increment, k) == Target(start, increment, k + 1)
  {
  }

  /** Over any number of calls and wraps, as long as no call is a full wrap late: the `k`-th call blocks
      exactly when its target, `start` and `k` increments, is still to come, and then until just that. */
  lemma {:induction false} EveryCallKeepsTheRate(start: nat, increment: Tick, times: seq<nat>, k: nat)
    requires k < |times| && Target(start, increment, k) <= times[k] < Target(start, increment, k) + WORD
    ensures |Calls(Low(start), increment, Lows(times))| == |times|
    ensures var target := Target(start, increment, k) + increment;
            Calls(Low(start), increment, Lows(times))[k] ==
              if times[k] < target then Sleeps(target - times[k]) else Runs
    decreases |times|
  {
    hide Target, Low, Plus, Decides;
    TargetNext(start, increment, k);
    assert Lows(times)[1..] == Lows(times[1..]);
    PlusAgrees(start, increment);
    if k == 0 {
      DecidesRight(start, increment, times[0]);
      CallsLength(Plus(Low(start), increment), increment, Lows(times[1..]));
    } else {
      TargetNext(start, increment, k - 1);
      EveryCallKeepsTheRate(start + increment, increment, times[1..], k - 1);
    }
  }

  lemma {:induction false} CallsLength(previous: Tick, increment: Tick, ticks: seq<Tick>)
    ensures |Calls(previous, increment, ticks)| == |ticks|
    decreases |ticks|
  {
    if ticks != [] {
      CallsLength(Plus(previous, increment), increment, ticks[1..]);
    }
  }

  lemma DecidesRight(last: nat, increment: Tick, now: nat)
    requires last <= now < last + WORD
    ensures Decides(Low(last), increment, Low(now)) ==
      if now < last + increment then Sleeps(last + increment - now) else Runs
  {
    hide Plus, Minus, Low, ShouldDelay;
    DelaysRightIff(last, increment, now);
    if now < last + increment {
      DelaysForTheRest(last, increment, now);
    }
  }
}
