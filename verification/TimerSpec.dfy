/** Software timers in unbounded time, with all armed timers on one sorted list. */
module TimerSpec {
  import opened Ticks
  import opened Wheel

  /** `now` is the time last sampled by the daemon, `calls` the callbacks made, in order, `functions` the
      pended functions called; the memory of a `permanent` timer is not freed.  `starts` is history:
      when a timer was last started, and how often it had been called until then. */
  datatype Start = Start(time: nat, calls: nat)

  datatype Service = Service(
    now: nat,
    armed: seq<Entry>,
    period: map<nat, nat>,
    autoReload: set<nat>,
    permanent: set<nat>,
    active: set<nat>,
    calls: seq<nat>,
    functions: seq<nat>,
    starts: map<nat, Start>)

  function Count(calls: seq<nat>, t: nat): nat {
    if calls == [] then 0
    else Count(calls[..|calls| - 1], t) + if calls[|calls| - 1] == t then 1 else 0
  }

  function Repeated(t: nat, n: nat): seq<nat> {
    if n == 0 then [] else Repeated(t, n - 1) + [t]
  }

  /** The `n`-th multiple of the period after a time. */
  function Multiple(time: nat, period: nat, n: nat): nat {
    time + n * period
  }

  /** How many further expiries of a timer that expired at `expired` have gone by at `now`. */
  function Backlog(expired: nat, period: nat, now: nat): nat
    decreases now - expired
  {
    if period == 0 || expired + period > now then 0 else 1 + Backlog(expired + period, period, now)
  }

  /** prvReloadTimer: calls back for the backlog and arms the timer for its first expiry after `now`. */
  function Reload(s: Service, t: nat, expired: nat, now: nat): Service
    requires t in s.period
  {
    var n := Backlog(expired, s.period[t], now);
    s.(armed := Insert(s.armed, Entry(t, Multiple(expired, s.period[t], n + 1))),
       calls := s.calls + Repeated(t, n))
  }

  /** What happens to a timer that is found expired, once it is off the list. */
  function Expired(s: Service, t: nat, expired: nat, now: nat): Service
    requires t in s.period
  {
    var s := if t in s.autoReload then Reload(s, t, expired, now) else s.(active := s.active - {t});
    s.(calls := s.calls + [t])
  }

  /** prvProcessExpiredTimer on the timer that expires first. */
  function ProcessFirst(s: Service, now: nat): Service
    requires s.armed != [] && s.armed[0].id in s.period
  {
    Expired(s.(armed := s.armed[1..]), s.armed[0].id, s.armed[0].time, now)
  }

  /** Processes, in order, everything that expires by `now`; `n` bounds the number of steps. */
  function ProcessAll(s: Service, now: nat, n: nat): (r: Service)
    ensures r.period == s.period && r.autoReload == s.autoReload && r.permanent == s.permanent && r.starts == s.starts
    decreases n
  {
    if n == 0 || s.armed == [] || s.armed[0].time > now || s.armed[0].id !in s.period then s
    else ProcessAll(ProcessFirst(s, now), now, n - 1)
  }

  function Remove(s: Service, t: nat): Service {
    s.(armed := Without(s.armed, t))
  }

  /** A start or reset command issued at `command` and processed at `s.now`. */
  function StartTimer(s: Service, t: nat, command: nat): Service
    requires t in s.period
  {
    var s := s.(active := s.active + {t}, starts := s.starts[t := Start(command, Count(s.calls, t))]);
    var expiry := command + s.period[t];
    if expiry <= s.now then Expired(s, t, expiry, s.now)
    else s.(armed := Insert(s.armed, Entry(t, expiry)))
  }

  function StopTimer(s: Service, t: nat): Service {
    s.(active := s.active - {t})
  }

  /** prvInitialiseNewTimer */
  function CreateTimer(s: Service, t: nat, period: nat, autoReload: bool, permanent: bool): Service {
    s.(period := s.period[t := period],
       autoReload := if autoReload then s.autoReload + {t} else s.autoReload - {t},
       permanent := if permanent then s.permanent + {t} else s.permanent - {t})
  }

  /** The delete command; once its memory is freed no command may name the timer. */
  function DeleteTimer(s: Service, t: nat): Service {
    if t in s.permanent then s.(active := s.active - {t})
    else s.(active := s.active - {t}, period := s.period - {t}, autoReload := s.autoReload - {t},
            starts := s.starts - {t})
  }

  function ChangePeriod(s: Service, t: nat, period: nat): Service {
    s.(active := s.active + {t}, period := s.period[t := period],
       starts := s.starts[t := Start(s.now, Count(s.calls, t))],
       armed := Insert(s.armed, Entry(t, s.now + period)))
  }

  /** The last time of an epoch. */
  function EndOf(epoch: nat): nat {
    At(epoch, WORD - 1)
  }

  /** prvSampleTimeNow: if the tick has wrapped, what expired before the wrap is processed first. */
  function Sample(s: Service, time: nat): (r: Service)
    ensures r.period == s.period && r.autoReload == s.autoReload && r.permanent == s.permanent && r.starts == s.starts
  {
    (if Epoch(time) > Epoch(s.now) then ProcessAll(s, EndOf(Epoch(s.now)), |s.armed|) else s).(now := time)
  }

  /** One round of the daemon: process the first timer if it has expired, unless the sampling has
      just processed a whole epoch. */
  function Round(s: Service, time: nat): Service {
    var s' := Sample(s, time);
    if Epoch(time) > Epoch(s.now) || s'.armed == [] || s'.armed[0].time > time || s'.armed[0].id !in s'.period then s'
    else ProcessFirst(s', time)
  }

  datatype Command = Launch(time: nat) | Halt | NewPeriod(period: nat) | Delete

  /** One command of prvProcessReceivedCommands, processed at `time`. */
  function Obey(s: Service, t: nat, command: Command, time: nat): Service
    requires t in s.period
  {
    var s' := Sample(Remove(s, t), time);
    match command
      case Launch(issued) => StartTimer(s', t, issued)
      case Halt => StopTimer(s', t)
      case NewPeriod(period) => ChangePeriod(s', t, period)
      case Delete => DeleteTimer(s', t)
  }
}
