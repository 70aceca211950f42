/** The software-timer daemon: two lists of wrapped expiry times and the commands it is sent. */
module Timers {
  import opened Ticks
  import opened Wheel
  import opened TimerSpec
  import TimerRuns

  /** A command as it travels through the timer queue, with wrapped times. */
  datatype Message =
    | StartMessage(commandTime: Tick)
    | StopMessage
    | PeriodMessage(period: Tick)
    | DeleteMessage
    | FunctionMessage(fn: nat)

  /** A message, for timer `t` unless it is a pended function, and the tick count read when it is
      processed. */
  datatype Received = Received(t: nat, message: Message, tickCount: Tick)

  ghost predicate Encodes(message: Message, command: Command) {
    match message
    case StartMessage(commandTime) => command.Launch? && commandTime == Low(command.time)
    case StopMessage => command.Halt?
    case DeleteMessage => command.Delete?
    case PeriodMessage(period) => command.NewPeriod? && command.period == period && period > 0
    case FunctionMessage(_) => false
  }

  /** prvInsertTimerInActiveList's answer, from the wrapped times alone. */
  predicate ExpiredAlready(nextExpiry: Tick, timeNow: Tick, commandTime: Tick, period: Tick) {
    if nextExpiry <= timeNow then Minus(timeNow, commandTime) >= period
    else timeNow < commandTime && nextExpiry >= commandTime
  }

  /** What the wrapped answer means, for a command processed at any later time: it compares the
      period with the distance reduced to one wrap.  So it is right exactly when the command is
      less than a wrap old or the reduced distance covers the period too; and with a zero period it
      is always "already expired", so that reloading would not end. */
  lemma ExpiredAlreadyIff(command: nat, now: nat, period: Tick)
    requires command <= now
    ensures var answer := ExpiredAlready(Plus(Low(command), period), Low(now), Low(command), period);
            && (answer <==> period <= (now - command) % WORD)
            && ((answer <==> command + period <= now) <==>
                now - command < WORD || period <= (now - command) % WORD)
  {
    var d := (now - command) % WORD;
    assert Minus(Low(now), Low(command)) == d;
    assert Low(now) == Plus(Low(command), d);
  }

  /** A received message stands for a command of the unbounded model. */
  ghost predicate StandsFor(received: Received, a: TimerRuns.Action) {
    if received.message.FunctionMessage? then a.Call? && a.fn == received.message.fn
    else a.Serve? && a.t == received.t && Encodes(received.message, a.command) && received.tickCount == Low(a.time)
  }

  /** A timer is not named again once its memory is freed. */
  ghost predicate NotFreed(messages: seq<Received>, permanent: set<nat>) {
    forall i, j :: 0 <= i < j < |messages| && messages[i].message.DeleteMessage? && messages[i].t !in permanent ==>
      messages[j].message.FunctionMessage? || messages[i].t != messages[j].t
  }

  /** The daemon samples the time at least once in every wrap, and a start command is less than a
      wrap old when it is processed. */
  ghost predicate Prompt(s: Service, actions: seq<TimerRuns.Action>)
    decreases |actions|
  {
    actions != [] ==>
      var before, a := actions[..|actions| - 1], actions[|actions| - 1];
      && Prompt(s, before)
      && var now := TimerRuns.Run(s, before).now;
      && now <= a.time < now + WORD
      && (a.Serve? && a.command.Launch? ==> a.command.time <= a.time < a.command.time + WORD)
  }

  lemma {:induction false} PromptPrefix(s: Service, actions: seq<TimerRuns.Action>, n: nat)
    requires Prompt(s, actions) && n <= |actions|
    ensures Prompt(s, actions[..n])
    decreases |actions|
  {
    if n < |actions| {
      PromptPrefix(s, actions[..|actions| - 1], n);
      assert actions[..|actions| - 1][..n] == actions[..n];
    } else {
      assert actions[..n] == actions;
    }
  }

  /** The time that the daemon takes it to be when it reads the tick count. */
  function Seen(now: nat, tick: Tick): nat {
    At(if tick < Low(now) then Epoch(now) + 1 else Epoch(now), tick)
  }

  /** It is right exactly when less than a wrap has gone by since it last read it; beyond that it loses
      the whole wraps. */
  lemma SeenIff(now: nat, time: nat)
    requires now <= time
    ensures Seen(now, Low(time)) == time <==> time < now + WORD
    ensures Seen(now, Low(time)) == time - (time - now) / WORD * WORD
  {
    var wraps, rest := (time - now) / WORD, (time - now) % WORD;
    assert time == now + rest + wraps * WORD;
    assert Low(time) == Low(now + rest);
    EpochOfNear(now, now + rest);
    assert now + rest == At(Epoch(now + rest), Low(now + rest));
  }

  class TimerService {
    var current: seq<Entry>
    var overflow: seq<Entry>
    var period: map<nat, nat>
    var autoReload: set<nat>
    var permanent: set<nat>
    var active: set<nat>
    var lastTime: Tick
    ghost var epoch: nat
    ghost var calls: seq<nat>
    ghost var functions: seq<nat>
    ghost var starts: map<nat, Start>

    ghost predicate Valid()
      reads this
    {
      && Sorted(current) && Wrapped(current) && Sorted(overflow) && Wrapped(overflow)
      && (forall t :: t in period ==> 0 < period[t] < WORD)
      && (forall e :: e in current ==> e.id in period)
      && (forall e :: e in overflow ==> e.id in period)
    }

    ghost function Armed(): seq<Entry>
      reads `current, `overflow, `epoch
    {
      Merge(current, overflow, epoch)
    }

    /** The service in unbounded time. */
    ghost function View(): Service
      reads this
    {
      Service(At(epoch, lastTime), Armed(), period, autoReload, permanent, active, calls, functions, starts)
    }

    /** prvCheckForValidListAndQueue */
    constructor ()
      ensures Valid() && View() == TimerRuns.NoTimers(0)
    {
      current, overflow, active, lastTime := [], [], {}, 0;
      period, autoReload, permanent := map[], {}, {};
      epoch, calls, functions, starts := 0, [], [], map[];
    }

    /** prvInitialiseNewTimer */
    method CreateTimer(t: nat, newPeriod: Tick, isAutoReload: bool, isPermanent: bool)
      requires Valid() && t !in period && newPeriod > 0
      modifies `period, `autoReload, `permanent
      ensures Valid() && View() == TimerSpec.CreateTimer(old(View()), t, newPeriod, isAutoReload, isPermanent)
    {
      hide Merge, Sorted;
      period := period[t := newPeriod];
      autoReload, permanent := autoReload - {t}, permanent - {t};
      if isAutoReload {
        autoReload := autoReload + {t};
      }
      if isPermanent {
        permanent := permanent + {t};
      }
    }

    /** prvInsertTimerInActiveList. */
    method InsertTimerInActiveList(t: nat, nextExpiry: Tick, timeNow: Tick, commandTime: Tick,
                                   ghost now: nat, ghost command: nat)
      returns (processNow: bool)
      requires Valid() && t in period
      requires epoch == Epoch(now) && timeNow == Low(now) && commandTime == Low(command)
      requires command <= now < command + WORD
      requires nextExpiry == Low(command + period[t])
      modifies `current, `overflow
      ensures Valid()
      ensures processNow <==> command + period[t] <= now
      ensures processNow ==> current == old(current) && overflow == old(overflow)
      ensures !processNow ==> Armed() == Insert(old(Armed()), Entry(t, command + period[t]))
      ensures timeNow == WORD - 1 ==> current == old(current)
    {
      hide Insert, Sorted;
      ghost var expiry := command + period[t];
      ExpiredAlreadyIff(command, now, period[t]);
      PlusAgrees(command, period[t]);
      var e := Entry(t, nextExpiry);
      if nextExpiry <= timeNow {
        if Minus(timeNow, commandTime) >= period[t] {
          return true;
        }
        EpochOfNear(now, expiry);
        InsertMerged(current, overflow, epoch, t, expiry);
        InsertSorted(overflow, e);
        InsertMembers(overflow, e);
        overflow := Insert(overflow, e);
      } else {
        if timeNow < commandTime && nextExpiry >= commandTime {
          return true;
        }
        EpochOfNear(now, expiry);
        InsertMerged(current, overflow, epoch, t, expiry);
        InsertSorted(current, e);
        InsertMembers(current, e);
        current := Insert(current, e);
      }
      processNow := false;
    }

    /** prvReloadTimer. */
    method ReloadTimer(t: nat, expiredTime: Tick, timeNow: Tick, ghost expired: nat, ghost now: nat)
      requires Valid() && t in period
      requires epoch == Epoch(now) && timeNow == Low(now) && expiredTime == Low(expired)
      requires expired <= now < expired + WORD
      modifies `current, `overflow, `calls
      ensures Valid()
      ensures View() == Reload(old(View()), t, expired, now)
      ensures timeNow == WORD - 1 ==> current == old(current)
    {
      hide Insert, Multiple, Merge, Sorted;
      var last := expiredTime;
      ghost var at, k := expired, 0;
      TimerRuns.MultipleNext(expired, period[t], 0);
      TimerRuns.MultipleNext(expired, period[t], 1);
      PlusAgrees(at, period[t]);
      assert calls + [] == calls;
      var again := InsertTimerInActiveList(t, Plus(last, period[t]), timeNow, last, now, at);
      while again
        invariant Valid()
        invariant expired <= at <= now && last == Low(at)
        invariant at == Multiple(expired, period[t], k)
        invariant again <==> at + period[t] <= now
        invariant Backlog(expired, period[t], now) == k + Backlog(at, period[t], now)
        invariant calls == old(calls) + Repeated(t, k)
        invariant again ==> current == old(current) && overflow == old(overflow)
        invariant !again ==> Armed() == Insert(old(Armed()), Entry(t, at + period[t]))
        invariant timeNow == WORD - 1 ==> current == old(current)
        decreases now - at, again
      {
        last := Plus(last, period[t]);
        PlusAgrees(at, period[t]);
        TimerRuns.MultipleNext(expired, period[t], k);
        at, k := at + period[t], k + 1;
        calls := calls + [t];
        assert calls == old(calls) + Repeated(t, k);
        PlusAgrees(at, period[t]);
        again := InsertTimerInActiveList(t, Plus(last, period[t]), timeNow, last, now, at);
      }
      TimerRuns.MultipleNext(expired, period[t], k);
    }

    /** What prvProcessExpiredTimer and the start command do with a timer found expired. */
    method Expire(t: nat, expiredTime: Tick, timeNow: Tick, ghost expired: nat, ghost now: nat)
      requires Valid() && t in period
      requires epoch == Epoch(now) && timeNow == Low(now) && expiredTime == Low(expired)
      requires expired <= now < expired + WORD
      modifies `current, `overflow, `calls, `active
      ensures Valid()
      ensures View() == Expired(old(View()), t, expired, now)
      ensures timeNow == WORD - 1 ==> current == old(current)
    {
      hide Reload, Merge, Sorted;
      if t in autoReload {
        ReloadTimer(t, expiredTime, timeNow, expired, now);
      } else {
        active := active - {t};
      }
      calls := calls + [t];
    }

    /** prvProcessExpiredTimer. */
    method ProcessExpiredTimer(nextExpireTime: Tick, timeNow: Tick, ghost now: nat)
      requires Valid() && current != [] && nextExpireTime == current[0].time
      requires epoch == Epoch(now) && timeNow == Low(now) && nextExpireTime <= timeNow
      modifies `current, `overflow, `calls, `active
      ensures Valid()
      ensures old(View()).armed != [] && old(View()).armed[0].id in old(View()).period
      ensures View() == ProcessFirst(old(View()), now)
      ensures timeNow == WORD - 1 ==> current == old(current)[1..]
    {
      hide Expired, Merge, Sorted, Wrapped;
      var t := current[0].id;
      assert current[0] in current;
      MergeHead(current, overflow, epoch);
      RestInOrder(current);
      current := current[1..];
      Expire(t, nextExpireTime, timeNow, At(epoch, nextExpireTime), now);
    }

    /** prvSwitchTimerLists: what is left on the current list has expired; once it has been
        processed the overflow list becomes the current one.  Reloading at the last time of the
        epoch never arms a timer on the current list again, so the loop ends. */
    method SwitchTimerLists()
      requires Valid()
      modifies this
      ensures Valid() && lastTime == old(lastTime) && epoch == old(epoch) + 1
      ensures View() == ProcessAll(old(View()), EndOf(old(epoch)), |old(View()).armed|).(now := At(epoch, lastTime))
    {
      hide ProcessFirst, Merge, Sorted;
      ghost var end, n := EndOf(epoch), |Armed()|;
      MergeLength(current, overflow, epoch);
      while current != []
        invariant Valid() && lastTime == old(lastTime) && epoch == old(epoch)
        invariant n >= |current|
        invariant ProcessAll(View(), end, n) == ProcessAll(old(View()), end, |old(Armed())|)
        decreases |current|
      {
        assert current[0] in current;
        MergeHead(current, overflow, epoch);
        ProcessExpiredTimer(current[0].time, WORD - 1, end);
        n := n - 1;
      }
      OverflowLater(overflow, epoch);
      MergeSwapped(overflow, epoch);
      current, overflow := overflow, current;
      epoch := epoch + 1;
    }

    /** prvSampleTimeNow, with the tick count that it reads, however late. */
    method SampleTimeNow(tickCount: Tick) returns (switched: bool)
      requires Valid()
      modifies this
      ensures Valid() && lastTime == tickCount && epoch == Epoch(Seen(old(View()).now, tickCount))
      ensures View() == Sample(old(View()), Seen(old(View()).now, tickCount))
      ensures switched <==> epoch > old(epoch)
      ensures !switched ==> current == old(current)
    {
      hide ProcessAll, Merge, Sorted;
      switched := tickCount < lastTime;
      if switched {
        SwitchTimerLists();
      }
      lastTime := tickCount;
    }

    /** prvGetNextExpireTime. */
    method GetNextExpireTime() returns (nextExpireTime: Tick, listWasEmpty: bool)
      requires Valid()
      ensures listWasEmpty <==> current == []
      ensures nextExpireTime == if current == [] then 0 else current[0].time
    {
      listWasEmpty := current == [];
      if listWasEmpty {
        nextExpireTime := 0;
      } else {
        assert current[0] in current;
        nextExpireTime := current[0].time;
      }
    }

    /** One round of the daemon up to its block: prvGetNextExpireTime and prvProcessTimerOrBlockTask.
        If it blocks, nothing is due and it wakes no later than any armed timer expires; for ever
        only if no timer is armed. */
    method ProcessTimerOrBlock(tickCount: Tick, ghost time: nat)
      returns (blocks: bool, delay: Tick, indefinitely: bool)
      requires Valid() && tickCount == Low(time)
      requires View().now <= time < View().now + WORD
      modifies this
      ensures Valid() && View() == Round(old(View()), time)
      ensures blocks ==> Due(View().armed, time) == []
      ensures blocks ==> (indefinitely <==> View().armed == [])
      ensures blocks ==> forall e :: e in View().armed ==> time + delay <= e.time
      ensures blocks && current != [] ==> time + delay == View().armed[0].time
      ensures blocks && delay == 0 ==> current == [] && tickCount == 0
    {
      hide Sample, ProcessFirst, Due, Merge, Sorted, Wrapped;
      var nextExpireTime, listWasEmpty := GetNextExpireTime();
      blocks, delay, indefinitely := false, 0, false;
      SeenIff(View().now, time);
      var switched := SampleTimeNow(tickCount);
      if !switched {
        MergeFront(current, overflow, epoch);
        if !listWasEmpty && nextExpireTime <= tickCount {
          ProcessExpiredTimer(nextExpireTime, tickCount, time);
        } else {
          blocks := true;
          if listWasEmpty {
            indefinitely := overflow == [];
          }
          delay := Minus(nextExpireTime, tickCount);
          BlockTime(current, overflow, epoch, nextExpireTime, tickCount);
        }
      }
    }

    /** The start and reset commands. */
    method Restart(t: nat, commandTime: Tick, tickCount: Tick, ghost command: nat, ghost time: nat)
      requires Valid() && t in period && View().now == time && tickCount == Low(time)
      requires commandTime == Low(command) && command <= time < command + WORD
      modifies `current, `overflow, `calls, `active, `starts
      ensures Valid() && View() == StartTimer(old(View()), t, command)
    {
      hide Insert, Expired, Merge, Sorted;
      active := active + {t};
      starts := starts[t := Start(command, Count(calls, t))];
      var nextExpiry := Plus(commandTime, period[t]);
      PlusAgrees(command, period[t]);
      var processNow := InsertTimerInActiveList(t, nextExpiry, tickCount, commandTime, time, command);
      if processNow {
        Expire(t, nextExpiry, tickCount, command + period[t], time);
      }
    }

    /** The change-period commands. */
    method ChangePeriod(t: nat, newPeriod: Tick, tickCount: Tick, ghost time: nat)
      requires Valid() && t in period && newPeriod > 0 && View().now == time && tickCount == Low(time)
      modifies `current, `overflow, `period, `active, `starts
      ensures Valid() && View() == TimerSpec.ChangePeriod(old(View()), t, newPeriod)
      ensures period.Keys == old(period).Keys
    {
      hide Insert, Merge, Sorted;
      active := active + {t};
      period := period[t := newPeriod];
      starts := starts[t := Start(time, Count(calls, t))];
      PlusAgrees(time, newPeriod);
      var processNow := InsertTimerInActiveList(t, Plus(tickCount, newPeriod), tickCount, tickCount, time, time);
    }

    /** The delete command. */
    method Discard(t: nat)
      requires Valid() && (forall e :: e in current || e in overflow ==> e.id != t)
      modifies `period, `active, `autoReload, `starts
      ensures Valid() && View() == DeleteTimer(old(View()), t)
      ensures period.Keys == old(period).Keys - if t in permanent then {} else {t}
    {
      hide Merge, Sorted;
      active := active - {t};
      if t !in permanent {
        autoReload := autoReload - {t};
        period, starts := period - {t}, starts - {t};
      }
    }

    /** One timer command of prvProcessReceivedCommands. */
    method ProcessMessage(t: nat, message: Message, tickCount: Tick, ghost command: Command, ghost time: nat)
      requires Valid() && t in period && tickCount == Low(time)
      requires View().now <= time < View().now + WORD
      requires Encodes(message, command)
      requires command.Launch? ==> command.time <= time < command.time + WORD
      modifies this
      ensures Valid() && View() == Obey(old(View()), t, command, time)
      ensures permanent == old(permanent)
      ensures period.Keys == old(period).Keys - if message.DeleteMessage? && t !in permanent then {t} else {}
    {
      hide Insert, Expired, Merge, Sorted, Sample;
      RemoveTimer(t);
      WithoutMembers(old(Armed()), t);
      StaysAbsent(View(), t, time);
      SeenIff(View().now, time);
      var switched := SampleTimeNow(tickCount);
      AbsentFromBoth(current, overflow, epoch, t);
      match message
      case StartMessage(commandTime) =>
        Restart(t, commandTime, tickCount, command.time, time);
      case StopMessage =>
        active := active - {t};
      case DeleteMessage => Discard(t);
      case PeriodMessage(newPeriod) => ChangePeriod(t, newPeriod, tickCount, time);
    }

    /** prvProcessReceivedCommands on the messages found in the queue. */
    method ProcessReceivedCommands(messages: seq<Received>, ghost actions: seq<TimerRuns.Action>)
      requires Valid() && |actions| == |messages|
      requires forall i :: 0 <= i < |messages| ==> StandsFor(messages[i], actions[i])
      requires forall i :: 0 <= i < |messages| && !messages[i].message.FunctionMessage? ==> messages[i].t in period
      requires NotFreed(messages, permanent)
      requires Prompt(View(), actions)
      modifies this
      ensures Valid() && View() == TimerRuns.Run(old(View()), actions)
    {
      hide Obey, Merge, Sorted;
      for i := 0 to |messages|
        invariant Valid() && permanent == old(permanent)
        invariant forall j :: i <= j < |messages| && !messages[j].message.FunctionMessage? ==> messages[j].t in period
        invariant View() == TimerRuns.Run(old(View()), actions[..i])
      {
        PromptPrefix(old(View()), actions, i + 1);
        assert actions[..i + 1][..i] == actions[..i];
        assert StandsFor(messages[i], actions[i]);
        if messages[i].message.FunctionMessage? {
          functions := functions + [messages[i].message.fn];
        } else {
          ProcessMessage(messages[i].t, messages[i].message, messages[i].tickCount,
                         actions[i].command, actions[i].time);
        }
      }
      assert actions[..|messages|] == actions;
    }

    method RemoveTimer(t: nat)
      requires Valid()
      modifies `current, `overflow
      ensures Valid() && View() == Remove(old(View()), t)
    {
      hide Merge, Without, Sorted;
      WithoutMembers(current, t);
      WithoutMembers(overflow, t);
      MergeWithout(current, overflow, epoch, t);
      current, overflow := Without(current, t), Without(overflow, t);
    }
  }

  lemma MergeHead(current: seq<Entry>, overflow: seq<Entry>, epoch: nat)
    requires current != []
    ensures var m := Merge(current, overflow, epoch);
            m != [] && m[0] == Entry(current[0].id, epoch * WORD + current[0].time)
            && m[1..] == Merge(current[1..], overflow, epoch)
  {
    LiftHead(current, epoch);
    assert (Lift(current, epoch) + Lift(overflow, epoch + 1))[1..]
        == Lift(current, epoch)[1..] + Lift(overflow, epoch + 1);
  }

  /** Sampling the time puts no timer on the list that was not there. */
  lemma StaysAbsent(s: Service, t: nat, time: nat)
    requires forall e :: e in s.armed ==> e.id != t
    ensures forall e :: e in Sample(s, time).armed ==> e.id != t
  {
    AbsentThroughout(s, EndOf(Epoch(s.now)), |s.armed|, t);
  }

  lemma {:induction false} AbsentThroughout(s: Service, now: nat, n: nat, t: nat)
    requires forall e :: e in s.armed ==> e.id != t
    ensures forall e :: e in ProcessAll(s, now, n).armed ==> e.id != t
    decreases n
  {
    hide Insert, Backlog, Multiple;
    if n > 0 && s.armed != [] && s.armed[0].time <= now && s.armed[0].id in s.period {
      var first := s.armed[0];
      var p := s.period[first.id];
      InsertMembers(s.armed[1..], Entry(first.id, Multiple(first.time, p, Backlog(first.time, p, now) + 1)));
      AbsentThroughout(ProcessFirst(s, now), now, n - 1, t);
    }
  }

  lemma AbsentFromBoth(current: seq<Entry>, overflow: seq<Entry>, epoch: nat, t: nat)
    requires forall e :: e in Merge(current, overflow, epoch) ==> e.id != t
    ensures forall e :: e in current || e in overflow ==> e.id != t
  {
    var m := Merge(current, overflow, epoch);
    forall i | 0 <= i < |current|
      ensures current[i].id != t
    {
      assert m[i] in m && m[i].id == current[i].id;
    }
    forall i | 0 <= i < |overflow|
      ensures overflow[i].id != t
    {
      assert m[|current| + i] in m && m[|current| + i].id == overflow[i].id;
    }
  }

  lemma RestInOrder(l: seq<Entry>)
    requires l != [] && Sorted(l) && Wrapped(l)
    ensures Sorted(l[1..]) && Wrapped(l[1..]) && forall e :: e in l[1..] ==> e in l
  {
  }

  lemma MergeLength(current: seq<Entry>, overflow: seq<Entry>, epoch: nat)
    ensures |Merge(current, overflow, epoch)| == |current| + |overflow|
  {
  }

  lemma OverflowLater(overflow: seq<Entry>, epoch: nat)
    ensures forall e :: e in Merge([], overflow, epoch) ==> EndOf(epoch) < e.time
    ensures overflow != [] ==> EndOf(epoch) < Merge([], overflow, epoch)[0].time
  {
  }

  lemma MergeFront(current: seq<Entry>, overflow: seq<Entry>, epoch: nat)
    ensures var m := Merge(current, overflow, epoch);
            && (m == [] <==> current == [] && overflow == [])
            && (current != [] ==> m[0] == Entry(current[0].id, epoch * WORD + current[0].time))
            && (current == [] && overflow != [] ==>
                  m[0] == Entry(overflow[0].id, (epoch + 1) * WORD + overflow[0].time))
  {
    if current != [] {
      MergeHead(current, overflow, epoch);
    }
  }

  /** Blocking until the head of the current list, or until the wrap, oversleeps no timer. */
  lemma BlockTime(current: seq<Entry>, overflow: seq<Entry>, epoch: nat, nextExpireTime: Tick, tickCount: Tick)
    requires Sorted(current) && Wrapped(current) && Sorted(overflow) && Wrapped(overflow)
    requires nextExpireTime == if current == [] then 0 else current[0].time
    requires current != [] ==> tickCount < nextExpireTime
    ensures var m, now := Merge(current, overflow, epoch), At(epoch, tickCount);
            var delay := Minus(nextExpireTime, tickCount);
            && Due(m, now) == []
            && (forall e :: e in m ==> now + delay <= e.time)
            && (current != [] ==> now + delay == m[0].time)
            && (delay == 0 ==> current == [] && tickCount == 0)
  {
    hide Merge;
    var m, now, delay := Merge(current, overflow, epoch), At(epoch, tickCount), Minus(nextExpireTime, tickCount);
    MergeFront(current, overflow, epoch);
    FirstIsLeast(current, overflow, epoch);
    if m != [] {
      assert now < m[0].time && now + delay <= m[0].time;
    }
    NoneDue(m, now);
  }

  lemma FirstIsLeast(current: seq<Entry>, overflow: seq<Entry>, epoch: nat)
    requires Sorted(current) && Wrapped(current) && Sorted(overflow) && Wrapped(overflow)
    ensures var m := Merge(current, overflow, epoch);
            forall e :: e in m ==> m[0].time <= e.time
  {
    MergeSorted(current, overflow, epoch);
  }
}
