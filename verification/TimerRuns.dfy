/** What the daemon keeps over every run of wake-ups and commands, and how often timers are called. */
module TimerRuns {
  import opened Once
  import opened Ticks
  import opened Wheel
  import opened TimerSpec

  /** Callbacks made since the timer was last started. */
  function Fired(s: Service, t: nat): int
    requires t in s.starts
  {
    Count(s.calls, t) - s.starts[t].calls
  }

  /** The armed timer expires one period after the last expiry it has been called for, and that one
      is not later than `now`. */
  ghost predicate OnSchedule(s: Service, e: Entry, now: nat) {
    && e.id in s.period && s.period[e.id] > 0 && e.id in s.starts && e.id in s.active
    && Fired(s, e.id) >= 0 && (e.id !in s.autoReload ==> Fired(s, e.id) == 0)
    && e.time == Multiple(s.starts[e.id].time, s.period[e.id], Fired(s, e.id) + 1)
    && Multiple(s.starts[e.id].time, s.period[e.id], Fired(s, e.id)) <= now
  }

  ghost predicate InvAt(s: Service, now: nat) {
    && Sorted(s.armed) && NoDuplicates(s.armed)
    && (forall e :: e in s.armed ==> OnSchedule(s, e, now))
    && (forall t :: t in s.period ==> s.period[t] > 0)
  }

  // Arithmetic of multiples

  lemma MultipleNext(time: nat, period: nat, n: nat)
    ensures Multiple(time, period, n + 1) == Multiple(time, period, n) + period
    ensures Multiple(time, period, 0) == time
    ensures Multiple(time + period, period, n) == Multiple(time, period, n + 1)
  {
  }

  lemma {:induction false} MultipleAdd(time: nat, period: nat, m: nat, n: nat)
    ensures Multiple(Multiple(time, period, m), period, n) == Multiple(time, period, m + n)
    decreases n
  {
    hide Multiple;
    if n == 0 {
      MultipleNext(Multiple(time, period, m), period, 0);
    } else {
      MultipleAdd(time, period, m, n - 1);
      MultipleNext(Multiple(time, period, m), period, n - 1);
      MultipleNext(time, period, m + n - 1);
    }
  }

  /** The backlog ends with the first expiry after `now`. */
  lemma {:induction false} BacklogEnds(expired: nat, period: nat, now: nat)
    requires period > 0 && expired <= now
    ensures var n := Backlog(expired, period, now);
            Multiple(expired, period, n) <= now < Multiple(expired, period, n + 1)
    decreases now - expired
  {
    hide Multiple;
    MultipleNext(expired, period, 0);
    if expired + period <= now {
      BacklogEnds(expired + period, period, now);
      var n := Backlog(expired + period, period, now);
      MultipleNext(expired, period, n);
      MultipleNext(expired, period, n + 1);
    }
  }

  /** Between two consecutive multiples there is one quotient. */
  lemma Quotient(time: nat, period: nat, n: nat, now: nat)
    requires period > 0 && Multiple(time, period, n) <= now < Multiple(time, period, n + 1)
    ensures time <= now && n == (now - time) / period
  {
    assert (n + 1) * period == n * period + period;
    DivUnique(now - time, period, n, now - time - n * period);
  }

  lemma DivUnique(x: nat, p: nat, q: nat, r: nat)
    requires p > 0 && x == q * p + r && r < p
    ensures x / p == q
  {
    var d := x / p;
    assert x == d * p + x % p;
    if d < q {
      ProductGrows(d, q, p);
    } else if q < d {
      ProductGrows(q, d, p);
    }
  }

  lemma ProductGrows(a: nat, b: nat, p: nat)
    requires a < b
    ensures a * p + p <= b * p
  {
    assert b * p == (a + 1) * p + (b - a - 1) * p;
  }

  lemma CountOne(calls: seq<nat>, x: nat, t: nat)
    ensures Count(calls + [x], t) == Count(calls, t) + if x == t then 1 else 0
  {
    assert (calls + [x])[..|calls|] == calls;
  }

  lemma {:induction false} CountRepeated(calls: seq<nat>, x: nat, n: nat, t: nat)
    ensures Count(calls + Repeated(x, n), t) == Count(calls, t) + if x == t then n else 0
  {
    if n == 0 {
      assert calls + [] == calls;
    } else {
      CountRepeated(calls, x, n - 1, t);
      assert calls + Repeated(x, n) == (calls + Repeated(x, n - 1)) + [x];
      CountOne(calls + Repeated(x, n - 1), x, t);
    }
  }

  // What processing keeps

  lemma AtLaterTime(s: Service, now: nat, later: nat)
    requires InvAt(s, now) && now <= later
    ensures InvAt(s, later)
  {
    hide Multiple;
  }

  /** Calls and state changes of one timer do not disturb the schedule of another. */
  lemma OthersOnSchedule(s: Service, s': Service, t: nat, e: Entry, now: nat)
    requires OnSchedule(s, e, now) && e.id != t
    requires s'.period == s.period && s'.starts == s.starts && s'.autoReload == s.autoReload
    requires e.id in s'.active && Count(s'.calls, e.id) == Count(s.calls, e.id)
    ensures OnSchedule(s', e, now)
  {
  }

  /** A timer off the list, due at the expiry after those it has been called for. */
  ghost predicate Overdue(s: Service, t: nat, expired: nat, now: nat) {
    && t in s.period && s.period[t] > 0 && t in s.starts && t in s.active && Fired(s, t) >= 0
    && expired == Multiple(s.starts[t].time, s.period[t], Fired(s, t) + 1) && expired <= now
    && forall x :: x in s.armed ==> x.id != t
  }

  lemma ReloadOnSchedule(s: Service, t: nat, expired: nat, now: nat)
    requires Overdue(s, t, expired, now) && t in s.autoReload
    ensures var s' := Expired(s, t, expired, now);
            var n := Backlog(expired, s.period[t], now);
            && Fired(s', t) == Fired(s, t) + n + 1
            && now < Multiple(expired, s.period[t], n + 1)
            && OnSchedule(s', Entry(t, Multiple(expired, s.period[t], n + 1)), now)
            && forall x :: x != t ==> Count(s'.calls, x) == Count(s.calls, x)
  {
    hide Multiple, Insert, Backlog;
    var n, c, p := Backlog(expired, s.period[t], now), s.starts[t].time, s.period[t];
    BacklogEnds(expired, p, now);
    forall x
      ensures Count(Expired(s, t, expired, now).calls, x) == Count(s.calls, x) + if x == t then n + 1 else 0
    {
      CountRepeated(s.calls, t, n, x);
      CountOne(s.calls + Repeated(t, n), t, x);
    }
    MultipleAdd(c, p, Fired(s, t) + 1, n + 1);
    MultipleAdd(c, p, Fired(s, t) + 1, n);
  }

  lemma KeepsExpired(s: Service, t: nat, expired: nat, now: nat)
    requires InvAt(s, now) && Overdue(s, t, expired, now)
    ensures InvAt(Expired(s, t, expired, now), now)
  {
    hide Multiple, Insert, Backlog;
    var s' := Expired(s, t, expired, now);
    if t in s.autoReload {
      ReloadOnSchedule(s, t, expired, now);
      var e := Entry(t, Multiple(expired, s.period[t], Backlog(expired, s.period[t], now) + 1));
      InsertSorted(s.armed, e);
      InsertFresh(s.armed, e);
      InsertMembers(s.armed, e);
    } else {
      forall x | x != t
        ensures Count(s'.calls, x) == Count(s.calls, x)
      {
        CountOne(s.calls, t, x);
      }
    }
    forall x | x in s.armed
      ensures OnSchedule(s', x, now)
    {
      OthersOnSchedule(s, s', t, x, now);
    }
  }

  lemma KeepsProcessFirst(s: Service, now: nat)
    requires InvAt(s, now) && s.armed != [] && s.armed[0].time <= now
    ensures s.armed[0].id in s.period && InvAt(ProcessFirst(s, now), now)
  {
    hide Multiple, Expired;
    var first, rest := s.armed[0], s.(armed := s.armed[1..]);
    assert forall x :: x in rest.armed ==> x in s.armed && x.id != first.id;
    assert first in s.armed && OnSchedule(s, first, now);
    assert forall x :: x in rest.armed ==> OnSchedule(s, x, now) && OnSchedule(rest, x, now);
    assert InvAt(rest, now);
    hide OnSchedule;
    KeepsExpired(rest, first.id, first.time, now);
  }

  // Which timers are on a list

  /** The armed timers are the active ones, except those of `off`. */
  ghost predicate Armed(s: Service, off: set<nat>) {
    Ids(s.armed) == s.active - off
  }

  lemma IdsInsert(l: seq<Entry>, e: Entry)
    ensures Ids(Insert(l, e)) == Ids(l) + {e.id}
  {
    InsertMembers(l, e);
    assert e in Insert(l, e);
    forall x | x in Ids(l)
      ensures x in Ids(Insert(l, e))
    {
      var y :| y in l && y.id == x;
      assert y in Insert(l, e);
    }
  }

  lemma IdsWithout(l: seq<Entry>, t: nat)
    ensures Ids(Without(l, t)) == Ids(l) - {t}
  {
    WithoutMembers(l, t);
    forall x | x in Ids(l) && x != t
      ensures x in Ids(Without(l, t))
    {
      var y :| y in l && y.id == x;
      assert y in Without(l, t);
    }
  }

  lemma IdsRest(l: seq<Entry>)
    requires l != [] && NoDuplicates(l)
    ensures Ids(l[1..]) == Ids(l) - {l[0].id}
  {
    assert forall x :: x in l <==> x == l[0] || x in l[1..];
    forall x | x in Ids(l) && x != l[0].id
      ensures x in Ids(l[1..])
    {
      var y :| y in l && y.id == x;
      assert y in l[1..];
    }
    assert forall x :: x in l[1..] ==> x.id != l[0].id;
  }

  lemma ArmedExpired(s: Service, t: nat, expired: nat, now: nat, off: set<nat>)
    requires t in s.period && t in s.active && t !in off && Armed(s, off + {t})
    ensures Armed(Expired(s, t, expired, now), off)
  {
    hide Insert, Ids, Backlog, Multiple;
    if t in s.autoReload {
      IdsInsert(s.armed, Entry(t, Multiple(expired, s.period[t], Backlog(expired, s.period[t], now) + 1)));
    }
  }

  lemma ArmedProcessFirst(s: Service, now: nat, off: set<nat>)
    requires InvAt(s, now) && Armed(s, off) && s.armed != [] && s.armed[0].id in s.period
    ensures Armed(ProcessFirst(s, now), off)
  {
    hide Expired, OnSchedule;
    var t := s.armed[0].id;
    IdsRest(s.armed);
    assert s.armed[0] in s.armed;
    assert t in Ids(s.armed);
    ArmedExpired(s.(armed := s.armed[1..]), t, s.armed[0].time, now, off);
  }

  // Processing everything that is due

  lemma {:induction false} DueInsert(l: seq<Entry>, e: Entry, now: nat)
    requires Sorted(l) && now < e.time
    ensures Due(Insert(l, e), now) == Due(l, now)
  {
    if l != [] {
      if l[0].time <= e.time {
        DueInsert(l[1..], e, now);
      }
    }
  }

  /** Processing a timer takes exactly that timer off what is due. */
  lemma ProcessesDue(s: Service, now: nat)
    requires InvAt(s, now) && s.armed != [] && s.armed[0].time <= now && s.armed[0].id in s.period
    ensures Due(ProcessFirst(s, now).armed, now) == Due(s.armed, now)[1..]
  {
    hide Insert, Multiple, Backlog;
    var first := s.armed[0];
    assert first in s.armed && OnSchedule(s, first, now);
    if first.id in s.autoReload {
      var p := s.period[first.id];
      BacklogEnds(first.time, p, now);
      DueInsert(s.armed[1..], Entry(first.id, Multiple(first.time, p, Backlog(first.time, p, now) + 1)), now);
    }
  }

  /** Processing keeps the invariant and, with enough steps, leaves nothing that is due. */
  lemma {:induction false} KeepsProcessAll(s: Service, now: nat, n: nat, off: set<nat>)
    requires InvAt(s, now) && Armed(s, off)
    ensures var r := ProcessAll(s, now, n);
            && InvAt(r, now) && Armed(r, off)
            && (|Due(s.armed, now)| <= n ==> Due(r.armed, now) == [])
    decreases n
  {
    hide OnSchedule, ProcessFirst, Armed, Sorted, NoDuplicates;
    if s.armed != [] {
      var first := s.armed[0];
      HeadKnown(s, now);
      if first.time > now {
        HeadLater(s, now);
      } else if n > 0 {
        KeepsProcessFirst(s, now);
        ArmedProcessFirst(s, now, off);
        ProcessesDue(s, now);
        KeepsProcessAll(ProcessFirst(s, now), now, n - 1, off);
      }
    }
  }

  lemma HeadKnown(s: Service, now: nat)
    requires InvAt(s, now) && s.armed != []
    ensures s.armed[0].id in s.period
  {
    assert s.armed[0] in s.armed;
    assert OnSchedule(s, s.armed[0], now);
  }

  lemma HeadLater(s: Service, now: nat)
    requires InvAt(s, now) && s.armed != [] && s.armed[0].time > now
    ensures Due(s.armed, now) == []
  {
    NoneDue(s.armed, now);
  }

  lemma {:induction false} DueLength(l: seq<Entry>, now: nat)
    ensures |Due(l, now)| <= |l|
  {
    if l != [] {
      DueLength(l[1..], now);
    }
  }

  // Runs

  /** What the daemon does at a time, and the creation of a timer by any task. */
  datatype Action =
    | Wake(time: nat)
    | Serve(t: nat, command: Command, time: nat)
    | Call(fn: nat, time: nat)
    | Create(t: nat, period: nat, autoReload: bool, permanent: bool, time: nat)

  function Step(s: Service, a: Action): Service {
    match a
    case Wake(time) => Round(s, time)
    case Serve(t, command, time) => if t in s.period then Obey(s, t, command, time) else s
    case Call(fn, _) => s.(functions := s.functions + [fn])
    case Create(t, period, autoReload, permanent, _) => CreateTimer(s, t, period, autoReload, permanent)
  }

  /** Time does not go back, commands come from the past, periods are not zero, and timers are new. */
  ghost predicate Allowed(s: Service, a: Action) {
    && s.now <= a.time
    && (a.Serve? && a.command.Launch? ==> a.command.time <= a.time)
    && (a.Serve? && a.command.NewPeriod? ==> a.command.period > 0)
    && (a.Create? ==> a.t !in s.period && a.period > 0)
  }

  ghost predicate Ready(s: Service) {
    InvAt(s, s.now) && Armed(s, {})
  }

  /** A service that has just been set up, without timers. */
  function NoTimers(now: nat): Service {
    Service(now, [], map[], {}, {}, {}, [], [], map[])
  }

  lemma NoTimersReady(now: nat)
    ensures Ready(NoTimers(now))
  {
  }

  function Run(s: Service, actions: seq<Action>): Service
    decreases |actions|
  {
    if actions == [] then s
    else Step(Run(s, actions[..|actions| - 1]), actions[|actions| - 1])
  }

  ghost predicate Lawful(s: Service, actions: seq<Action>)
    decreases |actions|
  {
    actions != [] ==>
      && Lawful(s, actions[..|actions| - 1])
      && Allowed(Run(s, actions[..|actions| - 1]), actions[|actions| - 1])
  }

  lemma KeepsSample(s: Service, time: nat, off: set<nat>)
    requires InvAt(s, s.now) && Armed(s, off) && s.now <= time
    ensures InvAt(Sample(s, time), time) && Armed(Sample(s, time), off)
    ensures Sample(s, time).now == time
  {
    if Epoch(time) > Epoch(s.now) {
      var end := EndOf(Epoch(s.now));
      assert s.now <= end < time;
      AtLaterTime(s, s.now, end);
      KeepsProcessAll(s, end, |s.armed|, off);
      var r := ProcessAll(s, end, |s.armed|);
      AtLaterTime(r, end, time);
      SameTimers(r, r.(now := time), time);
    } else {
      AtLaterTime(s, s.now, time);
      SameTimers(s, s.(now := time), time);
    }
  }

  lemma SameTimers(s: Service, s': Service, time: nat)
    requires InvAt(s, time) && s' == s.(now := s'.now)
    ensures InvAt(s', time)
  {
    hide Multiple;
    assert forall e :: e in s'.armed ==> OnSchedule(s, e, time) && OnSchedule(s', e, time);
  }

  lemma KeepsRound(s: Service, time: nat)
    requires Ready(s) && s.now <= time
    ensures Ready(Round(s, time))
  {
    hide Sample, ProcessFirst, Sorted, NoDuplicates, OnSchedule, Armed;
    KeepsSample(s, time, {});
    var s' := Sample(s, time);
    if s'.armed != [] && s'.armed[0].time <= time {
      KeepsProcessFirst(s', time);
      ArmedProcessFirst(s', time, {});
      NowUnchanged(s', time);
    }
  }

  lemma NowUnchanged(s: Service, time: nat)
    requires s.armed != [] && s.armed[0].id in s.period
    ensures ProcessFirst(s, time).now == s.now
  {
  }

  /** Taking a timer off the list leaves the others as they were. */
  lemma KeepsRemove(s: Service, t: nat, now: nat)
    requires InvAt(s, now) && Armed(s, {})
    ensures InvAt(Remove(s, t), now) && Armed(Remove(s, t), {t})
  {
    hide Multiple;
    WithoutMembers(s.armed, t);
    IdsWithout(s.armed, t);
    WithoutNoDuplicates(s.armed, t);
    assert forall e :: e in Remove(s, t).armed ==> OnSchedule(s, e, now) && OnSchedule(Remove(s, t), e, now);
  }

  /** Restarting a timer that is off the list: the others keep their schedule. */
  lemma Restarted(s: Service, s': Service, t: nat, now: nat)
    requires InvAt(s, now) && t !in Ids(s.armed)
    requires s'.armed == s.armed && s'.calls == s.calls
    requires forall x :: x != t ==> (x in s'.autoReload <==> x in s.autoReload)
    requires forall x :: x != t ==> (x in s'.period <==> x in s.period) && (x in s'.starts <==> x in s.starts)
    requires forall x :: x != t && x in s.period ==> s'.period[x] == s.period[x]
    requires forall x :: x != t && x in s.starts ==> s'.starts[x] == s.starts[x]
    requires t in s'.period ==> s'.period[t] > 0
    requires s.active - {t} <= s'.active
    ensures InvAt(s', now)
  {
    hide Multiple;
    forall e | e in s.armed
      ensures OnSchedule(s', e, now)
    {
      assert e.id in Ids(s.armed);
      assert OnSchedule(s, e, now);
    }
    assert forall x :: x in s'.period && x != t ==> x in s.period;
  }

  lemma KeepsInsert(s: Service, e: Entry, now: nat)
    requires InvAt(s, now) && Armed(s, {e.id}) && OnSchedule(s, e, now)
    ensures InvAt(s.(armed := Insert(s.armed, e)), now) && Armed(s.(armed := Insert(s.armed, e)), {})
  {
    hide Insert, Multiple;
    var s' := s.(armed := Insert(s.armed, e));
    forall x | x in s.armed
      ensures x.id != e.id
    {
      assert x.id in Ids(s.armed);
    }
    InsertSorted(s.armed, e);
    InsertFresh(s.armed, e);
    InsertMembers(s.armed, e);
    IdsInsert(s.armed, e);
    assert forall x :: x in s'.armed ==> OnSchedule(s, x, now) && OnSchedule(s', x, now);
  }

  lemma KeepsStart(s: Service, t: nat, command: nat)
    requires InvAt(s, s.now) && Armed(s, {t}) && t in s.period && command <= s.now
    ensures Ready(StartTimer(s, t, command))
  {
    hide Insert, Multiple, Expired;
    var s' := s.(active := s.active + {t}, starts := s.starts[t := Start(command, Count(s.calls, t))]);
    var expiry := command + s.period[t];
    Restarted(s, s', t, s.now);
    MultipleNext(command, s.period[t], 0);
    assert Armed(s', {t});
    if expiry <= s.now {
      assert Overdue(s', t, expiry, s.now) by {
        assert forall x :: x in s'.armed ==> x.id in Ids(s'.armed);
      }
      KeepsExpired(s', t, expiry, s.now);
      assert {} + {t} == {t};
      ArmedExpired(s', t, expiry, s.now, {});
      assert Expired(s', t, expiry, s.now).now == s.now by {
        ExpiredNow(s', t, expiry, s.now);
      }
    } else {
      KeepsInsert(s', Entry(t, expiry), s.now);
    }
  }

  lemma ExpiredNow(s: Service, t: nat, expired: nat, now: nat)
    requires t in s.period
    ensures Expired(s, t, expired, now).now == s.now
  {
  }

  lemma KeepsChange(s: Service, t: nat, period: nat)
    requires InvAt(s, s.now) && Armed(s, {t}) && period > 0
    ensures Ready(ChangePeriod(s, t, period))
  {
    hide Insert, Multiple;
    var s' := s.(active := s.active + {t}, period := s.period[t := period],
                 starts := s.starts[t := Start(s.now, Count(s.calls, t))]);
    Restarted(s, s', t, s.now);
    MultipleNext(s.now, period, 0);
    KeepsInsert(s', Entry(t, s.now + period), s.now);
  }

  lemma KeepsStop(s: Service, t: nat)
    requires InvAt(s, s.now) && Armed(s, {t})
    ensures Ready(StopTimer(s, t))
  {
    Restarted(s, StopTimer(s, t), t, s.now);
  }

  lemma KeepsDelete(s: Service, t: nat)
    requires InvAt(s, s.now) && Armed(s, {t})
    ensures Ready(DeleteTimer(s, t))
  {
    Restarted(s, DeleteTimer(s, t), t, s.now);
  }

  lemma KeepsCreate(s: Service, t: nat, period: nat, autoReload: bool, permanent: bool)
    requires Ready(s) && t !in s.period && period > 0
    ensures Ready(CreateTimer(s, t, period, autoReload, permanent))
  {
    hide Multiple;
    forall e | e in s.armed
      ensures e.id != t
    {
      assert OnSchedule(s, e, s.now);
    }
    Restarted(s, CreateTimer(s, t, period, autoReload, permanent), t, s.now);
  }

  lemma KeepsObey(s: Service, t: nat, command: Command, time: nat)
    requires Ready(s) && t in s.period && Allowed(s, Serve(t, command, time))
    ensures Ready(Obey(s, t, command, time))
  {
    hide InvAt, Armed, Sample, StartTimer, ChangePeriod, StopTimer, DeleteTimer;
    KeepsRemove(s, t, s.now);
    KeepsSample(Remove(s, t), time, {t});
    var s' := Sample(Remove(s, t), time);
    match command
    case Launch(issued) => KeepsStart(s', t, issued);
    case Halt => KeepsStop(s', t);
    case NewPeriod(period) => KeepsChange(s', t, period);
    case Delete => KeepsDelete(s', t);
  }

  lemma KeepsCall(s: Service, fn: nat)
    requires Ready(s)
    ensures Ready(s.(functions := s.functions + [fn]))
  {
    hide Multiple;
    var s' := s.(functions := s.functions + [fn]);
    assert forall e :: e in s.armed ==> OnSchedule(s, e, s.now) && OnSchedule(s', e, s.now);
  }

  /** Every armed timer is on schedule, and the armed timers are the active ones, after every run of
      wake-ups, commands, pended functions and creations of timers. */
  lemma {:induction false} RunsKeepReady(s: Service, actions: seq<Action>)
    requires Ready(s) && Lawful(s, actions)
    ensures Ready(Run(s, actions))
    decreases |actions|
  {
    hide Ready, Round, Obey, CreateTimer;
    if actions != [] {
      var before, a := actions[..|actions| - 1], actions[|actions| - 1];
      RunsKeepReady(s, before);
      match a
      case Wake(time) => KeepsRound(Run(s, before), time);
      case Serve(t, command, time) =>
        if t in Run(s, before).period {
          KeepsObey(Run(s, before), t, command, time);
        }
      case Call(fn, _) => KeepsCall(Run(s, before), fn);
      case Create(t, period, autoReload, permanent, _) =>
        KeepsCreate(Run(s, before), t, period, autoReload, permanent);
    }
  }

  /** Whatever the run, once the daemon has caught up an armed timer has been called once for every
      whole period that has gone by since the time it was started at; a one-shot timer not at all. */
  lemma {:induction false} CallbackCount(s: Service, actions: seq<Action>, e: Entry)
    requires Ready(s) && Lawful(s, actions)
    requires e in Run(s, actions).armed && Due(Run(s, actions).armed, Run(s, actions).now) == []
    ensures var r := Run(s, actions);
            && e.id in r.starts && e.id in r.period && r.period[e.id] > 0
            && r.starts[e.id].time <= r.now
            && Fired(r, e.id) == (r.now - r.starts[e.id].time) / r.period[e.id]
            && (e.id !in r.autoReload ==> Fired(r, e.id) == 0)
  {
    hide Multiple, Run, Lawful;
    RunsKeepReady(s, actions);
    var r := Run(s, actions);
    assert OnSchedule(r, e, r.now);
    DueMembers(r.armed, r.now);
    Quotient(r.starts[e.id].time, r.period[e.id], Fired(r, e.id), r.now);
  }

  /** While no wrap is seen, each wake-up of the daemon settles the first overdue timer. */
  lemma EveryWakeSettlesOne(s: Service, time: nat)
    requires Ready(s) && s.now <= time && Epoch(time) == Epoch(s.now)
    requires Due(s.armed, time) != []
    ensures Due(Round(s, time).armed, time) == Due(s.armed, time)[1..] && Round(s, time).now == time
  {
    hide ProcessFirst, OnSchedule;
    KeepsSample(s, time, {});
    var s' := Sample(s, time);
    HeadKnown(s', time);
    if s'.armed[0].time > time {
      HeadLater(s', time);
    }
    ProcessesDue(s', time);
    NowUnchanged(s', time);
  }

  function Wakes(time: nat, n: nat): seq<Action> {
    if n == 0 then [] else Wakes(time, n - 1) + [Wake(time)]
  }

  lemma RunNone(s: Service)
    ensures Run(s, []) == s && Lawful(s, [])
  {
  }

  lemma RunSnoc(s: Service, actions: seq<Action>, a: Action)
    ensures Run(s, actions + [a]) == Step(Run(s, actions), a)
    ensures Lawful(s, actions + [a]) <==> Lawful(s, actions) && Allowed(Run(s, actions), a)
  {
    assert (actions + [a])[..|actions|] == actions;
  }

  lemma {:induction false} WakesSettle(s: Service, time: nat, n: nat)
    requires Ready(s) && s.now <= time && Epoch(time) == Epoch(s.now) && n <= |Due(s.armed, time)|
    ensures var r := Run(s, Wakes(time, n));
            && Lawful(s, Wakes(time, n)) && Ready(r) && r.now == (if n == 0 then s.now else time)
            && Due(r.armed, time) == Due(s.armed, time)[n..]
    decreases n
  {
    hide Ready, Round, Run, Lawful, Due, Epoch;
    if n == 0 {
      RunNone(s);
    } else {
      WakesSettle(s, time, n - 1);
      RunSnoc(s, Wakes(time, n - 1), Wake(time));
      var r := Run(s, Wakes(time, n - 1));
      EveryWakeSettlesOne(r, time);
      KeepsRound(r, time);
    }
  }

  /** The daemon catches up: as many wake-ups as there are overdue timers leave none overdue, and no
      fewer do; then every armed timer has been called once for each whole period gone by. */
  lemma CatchesUp(s: Service, time: nat, n: nat)
    requires Ready(s) && s.now <= time && Epoch(time) == Epoch(s.now) && n <= |Due(s.armed, time)|
    ensures var r := Run(s, Wakes(time, n));
            && (Due(r.armed, time) == [] <==> n == |Due(s.armed, time)|)
            && (Due(r.armed, time) == [] && r.now == time ==>
                  forall e :: e in r.armed ==>
                    e.id in r.starts && e.id in r.period && r.period[e.id] > 0
                    && Fired(r, e.id) == (time - r.starts[e.id].time) / r.period[e.id])
  {
    hide Ready, Run, Lawful, Fired;
    WakesSettle(s, time, n);
    var r := Run(s, Wakes(time, n));
    if Due(r.armed, time) == [] && r.now == time {
      forall e | e in r.armed
        ensures e.id in r.starts && e.id in r.period && r.period[e.id] > 0
        ensures Fired(r, e.id) == (time - r.starts[e.id].time) / r.period[e.id]
      {
        CallbackCount(s, Wakes(time, n), e);
      }
    }
  }

  /** At a wrap everything that expired in the old epoch has been processed, before the lists are
      switched. */
  lemma WrapSettlesTheEpoch(s: Service, time: nat)
    requires Ready(s) && Epoch(s.now) < Epoch(time)
    ensures forall e :: e in Round(s, time).armed ==> EndOf(Epoch(s.now)) < e.time
  {
    hide ProcessFirst, OnSchedule;
    var end := EndOf(Epoch(s.now));
    assert s.now <= end < time;
    AtLaterTime(s, s.now, end);
    KeepsProcessAll(s, end, |s.armed|, {});
    DueLength(s.armed, end);
    DueMembers(ProcessAll(s, end, |s.armed|).armed, end);
  }
}
