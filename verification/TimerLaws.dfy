/** What each command does to the timer that it names, what it leaves alone, and how often a one-shot
    timer is called. */
module TimerLaws {
  import opened Ticks
  import opened Wheel
  import opened TimerSpec
  import opened TimerRuns

  /** Nothing about the timer has changed: settings, state, expiry and number of calls. */
  ghost predicate Same(s: Service, s': Service, u: nat) {
    && (u in s'.period <==> u in s.period) && (u in s.period ==> s'.period[u] == s.period[u])
    && (u in s'.starts <==> u in s.starts) && (u in s.starts ==> s'.starts[u] == s.starts[u])
    && (u in s'.autoReload <==> u in s.autoReload) && (u in s'.permanent <==> u in s.permanent)
    && (u in s'.active <==> u in s.active) && Count(s'.calls, u) == Count(s.calls, u)
    && (forall time: nat :: Entry(u, time) in s'.armed <==> Entry(u, time) in s.armed)
  }

  lemma SameAgain(s: Service, a: Service, b: Service, u: nat)
    requires Same(s, a, u) && Same(a, b, u)
    ensures Same(s, b, u)
  {
  }

  // Processing

  lemma {:induction false} CallsOfOthers(calls: seq<nat>, t: nat, n: nat, u: nat)
    requires u != t
    ensures Count(calls + Repeated(t, n) + [t], u) == Count(calls, u)
    ensures Count(calls + [t], u) == Count(calls, u) && Count(calls + [t], t) == Count(calls, t) + 1
  {
    CountRepeated(calls, t, n, u);
    CountOne(calls + Repeated(t, n), t, u);
    CountOne(calls, t, u);
    CountOne(calls, t, t);
  }

  lemma ExpiredSame(s: Service, t: nat, expired: nat, now: nat, u: nat)
    requires t in s.period && u != t
    ensures Same(s, Expired(s, t, expired, now), u)
  {
    hide Insert, Multiple, Backlog, Count;
    var n := Backlog(expired, s.period[t], now);
    CallsOfOthers(s.calls, t, n, u);
    InsertMembers(s.armed, Entry(t, Multiple(expired, s.period[t], n + 1)));
  }

  lemma ProcessFirstSame(s: Service, now: nat, u: nat)
    requires s.armed != [] && s.armed[0].id in s.period && s.armed[0].id != u
    ensures Same(s, ProcessFirst(s, now), u)
  {
    hide Expired, Count;
    var rest := s.(armed := s.armed[1..]);
    assert s.armed == [s.armed[0]] + s.armed[1..];
    ExpiredSame(rest, s.armed[0].id, s.armed[0].time, now, u);
  }

  lemma {:induction false} ProcessAllSame(s: Service, now: nat, n: nat, u: nat)
    requires forall time: nat :: Entry(u, time) in s.armed ==> now < time
    ensures Same(s, ProcessAll(s, now, n), u)
    decreases n
  {
    hide ProcessFirst, Count;
    if n > 0 && s.armed != [] && s.armed[0].time <= now && s.armed[0].id in s.period {
      assert s.armed[0] in s.armed;
      assert s.armed[0] == Entry(s.armed[0].id, s.armed[0].time);
      ProcessFirstSame(s, now, u);
      ProcessAllSame(ProcessFirst(s, now), now, n - 1, u);
    }
  }

  /** Not due in what is left of the epoch, if the epoch ends by then. */
  ghost predicate NotYet(s: Service, time: nat, u: nat) {
    Epoch(time) > Epoch(s.now) ==> forall x: nat :: Entry(u, x) in s.armed ==> EndOf(Epoch(s.now)) < x
  }

  lemma SampleSame(s: Service, time: nat, u: nat)
    requires NotYet(s, time, u)
    ensures Same(s, Sample(s, time), u)
  {
    hide ProcessAll, Count;
    if Epoch(time) > Epoch(s.now) {
      ProcessAllSame(s, EndOf(Epoch(s.now)), |s.armed|, u);
    }
  }

  lemma RemoveSame(s: Service, t: nat, u: nat)
    requires u != t
    ensures Same(s, Remove(s, t), u)
  {
    WithoutMembers(s.armed, t);
  }

  // What a command does

  lemma NotArmedSampled(s: Service, t: nat, time: nat)
    ensures var s' := Sample(Remove(s, t), time);
            && (forall x: nat :: Entry(t, x) !in s'.armed) && Count(s'.calls, t) == Count(s.calls, t)
            && (t in s'.active <==> t in s.active) && s'.now == time
            && s'.period == s.period && s'.starts == s.starts && s'.autoReload == s.autoReload
            && s'.permanent == s.permanent
  {
    hide Count, ProcessAll;
    WithoutMembers(s.armed, t);
    SampleSame(Remove(s, t), time, t);
  }

  /** A timer that is started runs from the time of the command, however late the daemon sees it: it is
      armed for the first expiry that is still to come, and has been called for those gone by. */
  lemma StartCounts(s: Service, t: nat, issued: nat, time: nat)
    requires Ready(s) && t in s.period && Allowed(s, Serve(t, Launch(issued), time))
    ensures var s', p := Step(s, Serve(t, Launch(issued), time)), s.period[t];
            && t in s'.period && s'.period[t] == p > 0
            && t in s'.starts && s'.starts[t] == Start(issued, Count(s.calls, t))
            && (issued + p > time ==> t in s'.active && Entry(t, issued + p) in s'.armed && Fired(s', t) == 0)
            && (issued + p <= time ==>
                  if t in s.autoReload then t in s'.active && Fired(s', t) == (time - issued) / p
                  else t !in s'.active && Fired(s', t) == 1)
  {
    hide Count, Sample, Insert, Ready, StartTimer;
    var a := Serve(t, Launch(issued), time);
    KeepsObey(s, t, Launch(issued), time);
    NotArmedSampled(s, t, time);
    PeriodPositive(s, t);
    var s1, s' := Sample(Remove(s, t), time), Step(s, a);
    StartTimerCounts(s1, t, issued);
  }

  lemma PeriodPositive(s: Service, t: nat)
    requires Ready(s) && t in s.period
    ensures s.period[t] > 0
  {
  }

  lemma StartTimerCounts(s: Service, t: nat, issued: nat)
    requires t in s.period && s.period[t] > 0 && issued <= s.now
    ensures var s', p := StartTimer(s, t, issued), s.period[t];
            && s'.period == s.period && t in s'.starts && s'.starts[t] == Start(issued, Count(s.calls, t))
            && (issued + p > s.now ==> t in s'.active && Entry(t, issued + p) in s'.armed && Fired(s', t) == 0)
            && (issued + p <= s.now ==>
                  if t in s.autoReload then t in s'.active && Fired(s', t) == (s.now - issued) / p
                  else t !in s'.active && Fired(s', t) == 1)
  {
    hide Count, Insert, Backlog, Multiple;
    var p := s.period[t];
    var expiry := issued + p;
    if expiry <= s.now {
      if t in s.autoReload {
        var n := Backlog(expiry, p, s.now);
        CountRepeated(s.calls, t, n, t);
        CountOne(s.calls + Repeated(t, n), t, t);
        BacklogEnds(expiry, p, s.now);
        MultipleNext(issued, p, n);
        MultipleNext(issued, p, n + 1);
        Quotient(issued, p, n + 1, s.now);
      } else {
        CountOne(s.calls, t, t);
      }
    } else {
      InsertMembers(s.armed, Entry(t, expiry));
    }
  }

  /** A stopped timer is neither active nor armed, and is not called. */
  lemma HaltStops(s: Service, t: nat, time: nat)
    requires Ready(s) && t in s.period && s.now <= time
    ensures var s' := Step(s, Serve(t, Halt, time));
            && t !in s'.active && (forall x: nat :: Entry(t, x) !in s'.armed) && Count(s'.calls, t) == Count(s.calls, t)
            && s'.period == s.period && s'.starts == s.starts && s'.autoReload == s.autoReload
  {
    hide Count, Sample;
    NotArmedSampled(s, t, time);
  }

  /** A changed period counts from now on, and starts the timer. */
  lemma NewPeriodStarts(s: Service, t: nat, period: nat, time: nat)
    requires Ready(s) && t in s.period && s.now <= time && period > 0
    ensures var s' := Step(s, Serve(t, NewPeriod(period), time));
            && t in s'.period && s'.period[t] == period && t in s'.starts
            && s'.starts[t] == Start(time, Count(s.calls, t)) && Fired(s', t) == 0
            && t in s'.active && (forall x: nat :: Entry(t, x) in s'.armed <==> x == time + period)
            && (t in s'.autoReload <==> t in s.autoReload)
  {
    hide Count, Sample, Insert;
    NotArmedSampled(s, t, time);
    InsertMembers(Sample(Remove(s, t), time).armed, Entry(t, time + period));
  }

  /** A deleted timer is neither active nor armed, and forgotten unless its memory is permanent. */
  lemma DeleteForgets(s: Service, t: nat, time: nat)
    requires Ready(s) && t in s.period && s.now <= time
    ensures var s' := Step(s, Serve(t, Delete, time));
            && t !in s'.active && (forall x: nat :: Entry(t, x) !in s'.armed) && Count(s'.calls, t) == Count(s.calls, t)
            && (t in s'.period <==> t in s.permanent) && (t in s.permanent ==> s'.period[t] == s.period[t])
  {
    hide Count, Sample;
    NotArmedSampled(s, t, time);
  }

  /** A new timer has its settings and has not been started. */
  lemma CreateSets(s: Service, t: nat, period: nat, autoReload: bool, permanent: bool, time: nat)
    requires Ready(s) && Allowed(s, Create(t, period, autoReload, permanent, time))
    ensures var s' := Step(s, Create(t, period, autoReload, permanent, time));
            && t in s'.period && s'.period[t] == period
            && (t in s'.autoReload <==> autoReload) && (t in s'.permanent <==> permanent)
            && t !in s'.active && (forall x: nat :: Entry(t, x) !in s'.armed) && s'.calls == s.calls
  {
    hide Multiple, Count;
    assert forall e :: e in s.armed ==> OnSchedule(s, e, s.now) && e.id != t;
    assert s.active - {} == s.active;
  }

  // Who is left alone

  /** A command leaves every other timer alone that the end of the epoch does not find due. */
  lemma CommandsLeaveOthers(s: Service, t: nat, command: Command, time: nat, u: nat)
    requires Ready(s) && Allowed(s, Serve(t, command, time)) && u != t && NotYet(s, time, u)
    ensures Same(s, Step(s, Serve(t, command, time)), u)
  {
    hide Count, Same, Sample, StartTimer, ChangePeriod, Remove;
    SameTimer(s, u);
    if t in s.period {
      var r := Remove(s, t);
      var s1 := Sample(r, time);
      RemoveNow(s, t);
      RemoveSame(s, t, u);
      StillNotYet(s, t, time, u);
      SampleSame(r, time, u);
      SameAgain(s, r, s1, u);
      match command {
        case Launch(issued) => StartSame(s1, t, issued, u);
        case Halt => AfterSame(s1, StopTimer(s1, t), t, u);
        case NewPeriod(period) => ChangeSame(s1, t, period, u);
        case Delete => AfterSame(s1, DeleteTimer(s1, t), t, u);
      }
      SameAgain(s, s1, Step(s, Serve(t, command, time)), u);
    }
  }

  lemma SameTimer(s: Service, u: nat)
    ensures Same(s, s, u)
  {
  }

  lemma StillNotYet(s: Service, t: nat, time: nat, u: nat)
    requires NotYet(s, time, u)
    ensures NotYet(Remove(s, t), time, u)
  {
    WithoutMembers(s.armed, t);
  }

  lemma AfterSame(s: Service, s': Service, t: nat, u: nat)
    requires u != t && (s' == StopTimer(s, t) || s' == DeleteTimer(s, t))
    ensures Same(s, s', u)
  {
  }

  lemma ChangeSame(s: Service, t: nat, period: nat, u: nat)
    requires u != t
    ensures Same(s, ChangePeriod(s, t, period), u)
  {
    hide Insert, Count;
    InsertMembers(s.armed, Entry(t, s.now + period));
  }

  lemma StartSame(s: Service, t: nat, issued: nat, u: nat)
    requires u != t && t in s.period
    ensures Same(s, StartTimer(s, t, issued), u)
  {
    hide Insert, Count, Expired;
    var s1 := s.(active := s.active + {t}, starts := s.starts[t := Start(issued, Count(s.calls, t))]);
    var expiry := issued + s.period[t];
    if expiry <= s.now {
      ExpiredSame(s1, t, expiry, s.now, u);
    } else {
      InsertMembers(s.armed, Entry(t, expiry));
    }
  }

  // One-shot timers

  /** A one-shot timer that has been started: armed and not called yet, or past its expiry and called
      once. */
  ghost predicate OneShot(s: Service, t: nat, now: nat) {
    && t in s.period && t in s.starts && t !in s.autoReload
    && (t in s.active ==> Fired(s, t) == 0)
    && (t !in s.active ==> Fired(s, t) == 1 && s.starts[t].time + s.period[t] <= now)
  }

  lemma OneShotExpires(s: Service, t: nat, now: nat)
    requires InvAt(s, now) && OneShot(s, t, now) && s.armed != [] && s.armed[0].id == t && s.armed[0].time <= now
    ensures OneShot(ProcessFirst(s, now), t, now)
  {
    hide Count;
    assert s.armed[0] in s.armed && OnSchedule(s, s.armed[0], now);
    CountOne(s.calls, t, t);
    MultipleNext(s.starts[t].time, s.period[t], 0);
  }

  lemma OneShotSame(s: Service, s': Service, t: nat, now: nat)
    requires OneShot(s, t, now) && Same(s, s', t)
    ensures OneShot(s', t, now)
  {
  }

  lemma OneShotFirst(s: Service, t: nat, now: nat)
    requires InvAt(s, now) && OneShot(s, t, now) && s.armed != [] && s.armed[0].time <= now
    requires s.armed[0].id in s.period
    ensures OneShot(ProcessFirst(s, now), t, now)
  {
    hide InvAt, OneShot, Same, ProcessFirst;
    if s.armed[0].id == t {
      OneShotExpires(s, t, now);
    } else {
      ProcessFirstSame(s, now, t);
      OneShotSame(s, ProcessFirst(s, now), t, now);
    }
  }

  lemma {:induction false} OneShotAll(s: Service, t: nat, now: nat, n: nat)
    requires InvAt(s, now) && OneShot(s, t, now)
    ensures OneShot(ProcessAll(s, now, n), t, now)
    decreases n
  {
    hide InvAt, OneShot, ProcessFirst;
    if n > 0 && s.armed != [] && s.armed[0].time <= now && s.armed[0].id in s.period {
      OneShotFirst(s, t, now);
      KeepsProcessFirst(s, now);
      OneShotAll(ProcessFirst(s, now), t, now, n - 1);
    }
  }

  lemma OneShotLater(s: Service, t: nat, now: nat, later: nat)
    requires OneShot(s, t, now) && now <= later
    ensures OneShot(s, t, later) && OneShot(s.(now := later), t, later)
  {
  }

  lemma OneShotSample(s: Service, t: nat, time: nat)
    requires InvAt(s, s.now) && OneShot(s, t, s.now) && s.now <= time
    ensures OneShot(Sample(s, time), t, time)
  {
    hide InvAt, OneShot, ProcessAll;
    if Epoch(time) > Epoch(s.now) {
      var end := EndOf(Epoch(s.now));
      assert s.now <= end < time;
      AtLaterTime(s, s.now, end);
      OneShotLater(s, t, s.now, end);
      OneShotAll(s, t, end, |s.armed|);
      OneShotLater(ProcessAll(s, end, |s.armed|), t, end, time);
    } else {
      OneShotLater(s, t, s.now, time);
    }
  }

  ghost predicate Names(a: Action, t: nat) {
    (a.Serve? && a.t == t) || (a.Create? && a.t == t)
  }

  lemma OneShotStep(s: Service, t: nat, a: Action)
    requires Ready(s) && Allowed(s, a) && OneShot(s, t, s.now) && !Names(a, t)
    ensures OneShot(Step(s, a), t, Step(s, a).now)
  {
    hide InvAt, Sample, ProcessFirst, StartTimer, ChangePeriod, DeleteTimer, StopTimer, Remove, Same;
    match a {
      case Wake(time) => OneShotRound(s, t, time);
      case Serve(x, command, time) => if x in s.period { OneShotServe(s, t, x, command, time); }
      case _ =>
    }
  }

  lemma OneShotRound(s: Service, t: nat, time: nat)
    requires Ready(s) && s.now <= time && OneShot(s, t, s.now)
    ensures OneShot(Round(s, time), t, time) && Round(s, time).now == time
  {
    hide InvAt, Sample, ProcessFirst, OneShot, Armed;
    KeepsSample(s, time, {});
    OneShotSample(s, t, time);
    var s' := Sample(s, time);
    if s'.armed != [] && s'.armed[0].time <= time && s'.armed[0].id in s'.period {
      OneShotFirst(s', t, time);
      NowUnchanged(s', time);
    }
  }

  lemma OneShotServe(s: Service, t: nat, x: nat, command: Command, time: nat)
    requires Ready(s) && x in s.period && Allowed(s, Serve(x, command, time)) && OneShot(s, t, s.now) && x != t
    ensures OneShot(Obey(s, x, command, time), t, time) && Obey(s, x, command, time).now == time
  {
    hide InvAt, Sample, Remove, StartTimer, ChangePeriod, StopTimer, DeleteTimer, OneShot, Same, Armed;
    var r := Remove(s, x);
    KeepsRemove(s, x, s.now);
    RemoveSame(s, x, t);
    OneShotSame(s, r, t, s.now);
    RemoveNow(s, x);
    KeepsSample(r, time, {x});
    OneShotSample(r, t, time);
    var s1 := Sample(r, time);
    match command {
      case Launch(issued) => StartSame(s1, x, issued, t); StartNow(s1, x, issued);
      case Halt => AfterSame(s1, StopTimer(s1, x), x, t); StopNow(s1, x);
      case NewPeriod(period) => ChangeSame(s1, x, period, t); ChangeNow(s1, x, period);
      case Delete => AfterSame(s1, DeleteTimer(s1, x), x, t); StopNow(s1, x);
    }
    OneShotSame(s1, Obey(s, x, command, time), t, time);
  }

  lemma RemoveNow(s: Service, t: nat)
    ensures Remove(s, t).now == s.now && Remove(s, t).period == s.period
  {
  }

  lemma StartNow(s: Service, t: nat, issued: nat)
    requires t in s.period
    ensures StartTimer(s, t, issued).now == s.now
  {
    hide Insert, Count, Backlog, Multiple;
  }

  lemma StopNow(s: Service, t: nat)
    ensures StopTimer(s, t).now == s.now && DeleteTimer(s, t).now == s.now
  {
  }

  lemma ChangeNow(s: Service, t: nat, period: nat)
    ensures ChangePeriod(s, t, period).now == s.now
  {
    hide Insert, Count;
  }

  lemma {:induction false} OneShotRuns(s: Service, actions: seq<Action>, t: nat)
    requires Ready(s) && Lawful(s, actions) && OneShot(s, t, s.now)
    requires forall a :: a in actions ==> !Names(a, t)
    ensures OneShot(Run(s, actions), t, Run(s, actions).now) && Ready(Run(s, actions))
    decreases |actions|
  {
    hide Ready, OneShot, Step, Names, Allowed;
    RunsKeepReady(s, actions);
    if actions != [] {
      var before, a := actions[..|actions| - 1], actions[|actions| - 1];
      assert a in actions && forall x :: x in before ==> x in actions;
      OneShotRuns(s, before, t);
      OneShotStep(Run(s, before), t, a);
    }
  }

  lemma StepKeepsSettings(s: Service, a: Action, t: nat)
    requires !Names(a, t)
    ensures var s' := Step(s, a);
            && (t in s'.period <==> t in s.period) && (t in s.period ==> s'.period[t] == s.period[t])
            && (t in s'.starts <==> t in s.starts) && (t in s.starts ==> s'.starts[t] == s.starts[t])
  {
    hide Count, Insert, Backlog, Multiple, ProcessAll, Sample;
  }

  lemma {:induction false} SettingsStay(s: Service, actions: seq<Action>, t: nat)
    requires forall a :: a in actions ==> !Names(a, t)
    ensures var r := Run(s, actions);
            && (t in r.period <==> t in s.period) && (t in s.period ==> r.period[t] == s.period[t])
            && (t in r.starts <==> t in s.starts) && (t in s.starts ==> r.starts[t] == s.starts[t])
    decreases |actions|
  {
    hide Step, Names;
    if actions != [] {
      var before, a := actions[..|actions| - 1], actions[|actions| - 1];
      assert a in actions && forall x :: x in before ==> x in actions;
      SettingsStay(s, before, t);
      StepKeepsSettings(Run(s, before), a, t);
    }
  }

  /** Once the daemon has caught up, a one-shot timer that no further command names has been called
      exactly once if its period has gone by since it was started, and not at all before, in every
      run. */
  lemma OneShotOnce(s: Service, actions: seq<Action>, t: nat)
    requires Ready(s) && Lawful(s, actions)
    requires t in s.active && t in s.starts && t !in s.autoReload && Fired(s, t) == 0
    requires forall a :: a in actions ==> !Names(a, t)
    requires Due(Run(s, actions).armed, Run(s, actions).now) == []
    ensures var r := Run(s, actions);
            && t in r.starts && r.starts[t] == s.starts[t]
            && t in s.period && t in r.period && r.period[t] == s.period[t]
            && Fired(r, t) == (if r.starts[t].time + r.period[t] <= r.now then 1 else 0)
            && (t in r.active <==> Fired(r, t) == 0)
  {
    hide Run, Lawful, Count, Names;
    ActiveKnown(s, t);
    OneShotRuns(s, actions, t);
    SettingsStay(s, actions, t);
    var r := Run(s, actions);
    if t in r.active {
      assert r.active - {} == r.active && t in Ids(r.armed);
      var e :| e in r.armed && e.id == t;
      assert OnSchedule(r, e, r.now);
      MultipleNext(r.starts[t].time, r.period[t], 0);
      DueMembers(r.armed, r.now);
    }
  }

  lemma ActiveKnown(s: Service, t: nat)
    requires Ready(s) && t in s.active
    ensures t in s.period
  {
    hide Multiple, Count;
    assert t in Ids(s.armed);
    var e :| e in s.armed && e.id == t;
    assert OnSchedule(s, e, s.now);
  }

  // Pended functions

  function Functions(actions: seq<Action>): seq<nat> {
    if actions == [] then []
    else
      var before, last := Functions(actions[..|actions| - 1]), actions[|actions| - 1];
      if last.Call? then before + [last.fn] else before
  }

  lemma {:induction false} ProcessAllCallsNone(s: Service, now: nat, n: nat)
    ensures ProcessAll(s, now, n).functions == s.functions
    decreases n
  {
    hide Insert, Backlog, Multiple;
    if n > 0 && s.armed != [] && s.armed[0].time <= now && s.armed[0].id in s.period {
      ProcessAllCallsNone(ProcessFirst(s, now), now, n - 1);
    }
  }

  lemma StepCalls(s: Service, a: Action)
    ensures Step(s, a).functions == s.functions + (if a.Call? then [a.fn] else [])
  {
    hide Insert, Backlog, Multiple, ProcessAll, Count;
    ProcessAllCallsNone(s, EndOf(Epoch(s.now)), |s.armed|);
    if a.Serve? {
      var r := Remove(s, a.t);
      ProcessAllCallsNone(r, EndOf(Epoch(r.now)), |r.armed|);
    }
  }

  /** Every pended function is called once, in the order of the commands. */
  lemma {:induction false} FunctionsCalledInOrder(s: Service, actions: seq<Action>)
    ensures Run(s, actions).functions == s.functions + Functions(actions)
    decreases |actions|
  {
    hide Step;
    if actions != [] {
      FunctionsCalledInOrder(s, actions[..|actions| - 1]);
      StepCalls(Run(s, actions[..|actions| - 1]), actions[|actions| - 1]);
    }
  }
}
