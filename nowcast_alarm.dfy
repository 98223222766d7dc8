/**
 * The rain-warning rule: when the precipitation nowcast shows rain within the
 * look-ahead window and at least one door or window sensor is open, every
 * person with a notify channel gets one warning, at most once per cooldown.
 *
 * Times are whole seconds on the UTC time line. The host's state reads, the
 * clock and the notify service are inputs and outputs of the operations.
 */
module NowcastAlarm {

  import opened Wrappers

  /** The sensor state that means "open" (and the only new state that is not filtered out). */
  const OnState: string := "on"
  /** The look-ahead window: 30 minutes past `now`. */
  const LookAheadSeconds: int := 30 * 60
  /** Minimum time between two warnings. */
  const NotificationCooldown: int := 180
  /** Period of the recurring check. */
  const CheckIntervalSeconds: int := 5 * 60

  // ---------------------------------------------------------------------
  // Forecast and the rain-window scan
  // ---------------------------------------------------------------------

  /** One decoded entry of the `forecast_json` attribute. A missing or empty
      `datetime` is `None`; a missing `precipitation` key is `None`. */
  datatype ForecastPoint = ForecastPoint(datetime: Option<int>, precipitation: Option<real>)

  /** The precipitation of a point; a missing amount is 0. */
  function Precipitation(p: ForecastPoint): real
  {
    match p.precipitation
    case Some(amount) => amount
    case None => 0.0
  }

  /** A dated point later than `now` plus the window: the scan stops there. */
  predicate Beyond(p: ForecastPoint, now: int)
  {
    p.datetime.Some? && p.datetime.value > now + LookAheadSeconds
  }

  /** A dated point inside `[now, now + window]` with positive precipitation. */
  predicate Rainy(p: ForecastPoint, now: int)
  {
    p.datetime.Some? && now <= p.datetime.value <= now + LookAheadSeconds && Precipitation(p) > 0.0
  }

  /** The scan gets as far as index `k`: no point before it stopped the scan. */
  predicate ScanReaches(f: seq<ForecastPoint>, k: nat, now: int)
    requires k <= |f|
  {
    forall j :: 0 <= j < k ==> !Beyond(f[j], now)
  }

  /** `k` is the point the scan selects: rainy, reached, and no earlier point rainy. */
  predicate IsFirstRain(f: seq<ForecastPoint>, k: nat, now: int)
  {
    k < |f| && Rainy(f[k], now) && ScanReaches(f, k, now) &&
    forall j :: 0 <= j < k ==> !Rainy(f[j], now)
  }

  function Offset(r: Option<nat>, d: nat): Option<nat>
  {
    match r
    case None => None
    case Some(k) => Some(k + d)
  }

  /** The index of the forecast point the scan selects, if any. */
  function FirstRain(f: seq<ForecastPoint>, now: int): (r: Option<nat>)
    ensures r.Some? ==> IsFirstRain(f, r.value, now)
    ensures r.None? ==> forall k :: 0 <= k < |f| && Rainy(f[k], now) ==> !ScanReaches(f, k, now)
    decreases |f|
  {
    if f == [] then None
    else if f[0].datetime.None? then Offset(FirstRain(f[1..], now), 1)
    else if f[0].datetime.value > now + LookAheadSeconds then None
    else if f[0].datetime.value >= now && Precipitation(f[0]) > 0.0 then Some(0)
    else Offset(FirstRain(f[1..], now), 1)
  }

  /** The time of the selected rain point. */
  function RainTime(f: seq<ForecastPoint>, now: int): (t: Option<int>)
    ensures t.Some? ==> now <= t.value <= now + LookAheadSeconds
    ensures t.Some? <==> FirstRain(f, now).Some?
  {
    match FirstRain(f, now)
    case None => None
    case Some(k) => Some(f[k].datetime.value)
  }

  /** Whole minutes from `now` to `t`, rounded down; callers have `t >= now`. */
  function RainMinutes(t: int, now: int): int
  {
    (t - now) / 60
  }

  /** The `rain_minutes` the scan reports, if it found rain. */
  function MinutesUntilRain(f: seq<ForecastPoint>, now: int): (m: Option<int>)
    ensures m.Some? ==> 0 <= m.value <= 30
    ensures m.Some? <==> FirstRain(f, now).Some?
  {
    match RainTime(f, now)
    case None => None
    case Some(t) => Some(RainMinutes(t, now))
  }

  /** Scans the forecast in order: skips undated points, stops at the first
      point past the window, and stops at the first rainy point, reporting the
      whole minutes until it. */
  method ScanForecast(forecast: seq<ForecastPoint>, now: int) returns (rainFound: bool, rainMinutes: int)
    ensures rainFound <==> FirstRain(forecast, now).Some?
    ensures rainFound ==> rainMinutes == RainMinutes(forecast[FirstRain(forecast, now).value].datetime.value, now)
    ensures rainFound ==> 0 <= rainMinutes <= 30
    ensures !rainFound ==> rainMinutes == 0
  {
    rainFound, rainMinutes := false, 0;
    var thresholdTime := now + LookAheadSeconds;
    var i := 0;
    while i < |forecast|
      invariant 0 <= i <= |forecast|
      invariant FirstRain(forecast, now) == Offset(FirstRain(forecast[i..], now), i)
      invariant !rainFound && rainMinutes == 0
    {
      assert forecast[i..][1..] == forecast[i + 1..];
      var point := forecast[i];
      if point.datetime.None? {
        i := i + 1;
        continue;
      }
      var forecastTime := point.datetime.value;
      if forecastTime > thresholdTime {
        break;
      }
      if forecastTime >= now && Precipitation(point) > 0.0 {
        rainFound := true;
        rainMinutes := RainMinutes(forecastTime, now);
        break;
      }
      i := i + 1;
    }
  }

  /** `FirstRain` is exactly the point `IsFirstRain` describes. */
  lemma FirstRainCharacterized(f: seq<ForecastPoint>, k: nat, now: int)
    ensures FirstRain(f, now) == Some(k) <==> IsFirstRain(f, k, now)
  {
  }

  /** Nothing after the first point past the window matters to the scan. */
  lemma ScanStopsAtBeyond(f: seq<ForecastPoint>, b: nat, now: int)
    requires b < |f| && Beyond(f[b], now)
    ensures FirstRain(f, now) == FirstRain(f[..b], now)
  {
  }

  /** The points of a forecast that carry a datetime, in order. */
  function DatedOnly(f: seq<ForecastPoint>): (g: seq<ForecastPoint>)
  {
    if f == [] then []
    else if f[0].datetime.None? then DatedOnly(f[1..])
    else [f[0]] + DatedOnly(f[1..])
  }

  /** A head point that neither stops nor ends the scan leaves the result to the tail. */
  lemma RainTimeTail(f: seq<ForecastPoint>, now: int)
    requires f != []
    requires f[0].datetime.None? || (!Beyond(f[0], now) && !Rainy(f[0], now))
    ensures RainTime(f, now) == RainTime(f[1..], now)
  {
  }

  /** Points without a datetime never stop the scan and are never selected. */
  lemma {:induction false} UndatedPointsIgnored(f: seq<ForecastPoint>, now: int)
    ensures RainTime(DatedOnly(f), now) == RainTime(f, now)
  {
    if f != [] {
      UndatedPointsIgnored(f[1..], now);
      if f[0].datetime.None? {
        RainTimeTail(f, now);
      } else {
        var g := DatedOnly(f);
        assert g == [f[0]] + DatedOnly(f[1..]);
        assert g[0] == f[0] && g[1..] == DatedOnly(f[1..]);
        if !Beyond(f[0], now) && !Rainy(f[0], now) {
          RainTimeTail(f, now);
          RainTimeTail(g, now);
        }
      }
    }
  }

  // ---------------------------------------------------------------------
  // Door and window sensors
  // ---------------------------------------------------------------------

  /** Whether `sensor` reads `OnState`; a sensor missing from `states` does not. */
  predicate IsOn(states: map<string, string>, sensor: string)
  {
    sensor in states && states[sensor] == OnState
  }

  predicate AnyDoorOpen(doors: seq<string>, states: map<string, string>)
  {
    exists i :: 0 <= i < |doors| && IsOn(states, doors[i])
  }

  /** Whether any configured door or window sensor reads `OnState`, checked in order. */
  method CheckDoors(doors: seq<string>, states: map<string, string>) returns (open: bool)
    ensures open <==> AnyDoorOpen(doors, states)
  {
    for i := 0 to |doors|
      invariant forall j :: 0 <= j < i ==> !IsOn(states, doors[j])
    {
      if IsOn(states, doors[i]) {
        return true;
      }
    }
    return false;
  }

  // ---------------------------------------------------------------------
  // Dispatch
  // ---------------------------------------------------------------------

  /** A configured recipient; `notify` is the channel name, if any. */
  datatype Person = Person(notify: Option<string>)

  /** The warning text is fixed apart from the minutes it embeds. */
  datatype Message = RainMessage(minutes: int)

  /** One call of the host's notify service. */
  datatype ServiceCall = ServiceCall(service: string, message: Message)

  predicate HasChannel(p: Person)
  {
    p.notify.Some? && p.notify.value != ""
  }

  function NotifyService(channel: string): string
  {
    "notify/" + channel
  }

  /** The calls the dispatch loop makes, in person order. */
  function Dispatched(persons: seq<Person>, msg: Message): seq<ServiceCall>
  {
    if persons == [] then []
    else
      (if HasChannel(persons[0]) then [ServiceCall(NotifyService(persons[0].notify.value), msg)] else [])
      + Dispatched(persons[1..], msg)
  }

  /** Dispatching to two groups is dispatching to the first, then to the second. */
  lemma {:induction false} DispatchedAppend(a: seq<Person>, b: seq<Person>, msg: Message)
    ensures Dispatched(a + b, msg) == Dispatched(a, msg) + Dispatched(b, msg)
  {
    if a != [] {
      assert (a + b)[0] == a[0] && (a + b)[1..] == a[1..] + b;
      DispatchedAppend(a[1..], b, msg);
    } else {
      assert a + b == b;
    }
  }

  /** A call is made exactly when some person has that channel, and it carries the message. */
  lemma {:induction false} DispatchedCalls(persons: seq<Person>, msg: Message, c: ServiceCall)
    ensures c in Dispatched(persons, msg) <==>
      c.message == msg &&
      exists i :: 0 <= i < |persons| && HasChannel(persons[i]) && c.service == NotifyService(persons[i].notify.value)
  {
    if persons != [] {
      DispatchedCalls(persons[1..], msg, c);
      if c in Dispatched(persons[1..], msg) {
        var i :| 0 <= i < |persons[1..]| && HasChannel(persons[1..][i])
          && c.service == NotifyService(persons[1..][i].notify.value);
        assert persons[i + 1] == persons[1..][i];
      }
      if c.message == msg {
        if i :| 0 <= i < |persons| && HasChannel(persons[i]) && c.service == NotifyService(persons[i].notify.value) {
          if i > 0 {
            assert persons[1..][i - 1] == persons[i];
          }
        }
      }
    }
  }

  /** Builds in person order the calls that `Dispatched` describes. */
  method Dispatch(persons: seq<Person>, msg: Message) returns (calls: seq<ServiceCall>)
    ensures calls == Dispatched(persons, msg)
  {
    calls := [];
    for i := 0 to |persons|
      invariant calls == Dispatched(persons[..i], msg)
    {
      assert persons[..i + 1] == persons[..i] + [persons[i]];
      DispatchedAppend(persons[..i], [persons[i]], msg);
      var notifyService := persons[i].notify;
      if notifyService.Some? && notifyService.value != "" {
        calls := calls + [ServiceCall(NotifyService(notifyService.value), msg)];
      }
    }
    assert persons[..|persons|] == persons;
  }

  // ---------------------------------------------------------------------
  // One evaluation
  // ---------------------------------------------------------------------

  /** The cooldown gate: never notified, or at least `cooldown` seconds ago. */
  predicate CooldownElapsed(last: Option<int>, cooldown: int, now: int)
  {
    last.None? || now - last.value >= cooldown
  }

  /** A sensor-event call (non-empty entity) whose new state is not "on". */
  predicate IsCloseEvent(entity: Option<string>, newState: Option<string>)
  {
    entity.Some? && entity.value != "" && newState != Some(OnState)
  }

  /** What the host supplies to one call: the triggering event (both `None` for
      the timer), the decoded `forecast_json` attribute (`None` when absent or
      empty), the sensor states and the current time. */
  datatype Invocation = Invocation(
    entity: Option<string>,
    newState: Option<string>,
    forecast: Option<seq<ForecastPoint>>,
    states: map<string, string>,
    now: int)

  /** Where the evaluation stopped. `Error` is the missing cooldown state of an
      instance whose configuration was rejected, which the catch-all swallows. */
  datatype Outcome = Skipped | NoForecast | NoRain | NoDoorOpen | Error | Suppressed | Sent(minutes: int)

  datatype Evaluation = Evaluation(outcome: Outcome, calls: seq<ServiceCall>, last: Option<int>)

  /** The whole decision pipeline as a function of the configuration, the
      cooldown state and the invocation. */
  function Evaluate(doors: seq<string>, persons: seq<Person>, tracking: bool, last: Option<int>,
                    cooldown: int, inv: Invocation): Evaluation
  {
    if IsCloseEvent(inv.entity, inv.newState) then Evaluation(Skipped, [], last)
    else if inv.forecast.None? then Evaluation(NoForecast, [], last)
    else
      match MinutesUntilRain(inv.forecast.value, inv.now)
      case None => Evaluation(NoRain, [], last)
      case Some(m) =>
        if !AnyDoorOpen(doors, inv.states) then Evaluation(NoDoorOpen, [], last)
        else if !tracking then Evaluation(Error, [], last)
        else if !CooldownElapsed(last, cooldown, inv.now) then Evaluation(Suppressed, [], last)
        else Evaluation(Sent(m), Dispatched(persons, RainMessage(m)), Some(inv.now))
  }

  /** A close event ends the evaluation before anything else is looked at. */
  lemma CloseEventIgnored(doors: seq<string>, persons: seq<Person>, tracking: bool, last: Option<int>,
                          cooldown: int, inv: Invocation, other: Invocation)
    requires IsCloseEvent(inv.entity, inv.newState)
    requires other.entity == inv.entity && other.newState == inv.newState
    ensures Evaluate(doors, persons, tracking, last, cooldown, inv) == Evaluation(Skipped, [], last)
    ensures Evaluate(doors, persons, tracking, last, cooldown, other) == Evaluate(doors, persons, tracking, last, cooldown, inv)
  {
  }

  /** No rain in the window, or no open door: nothing is sent and the cooldown state stays. */
  lemma NothingSentWithoutRainAndOpenDoor(doors: seq<string>, persons: seq<Person>, tracking: bool,
                                          last: Option<int>, cooldown: int, inv: Invocation)
    requires inv.forecast.Some?
    requires FirstRain(inv.forecast.value, inv.now).None? || !AnyDoorOpen(doors, inv.states)
    ensures Evaluate(doors, persons, tracking, last, cooldown, inv).calls == []
    ensures Evaluate(doors, persons, tracking, last, cooldown, inv).last == last
  {
  }

  /** A warning goes out exactly when all gates pass; the cooldown state
      becomes `now` then and is unchanged otherwise. */
  lemma DispatchGate(doors: seq<string>, persons: seq<Person>, tracking: bool, last: Option<int>,
                     cooldown: int, inv: Invocation)
    ensures
      var e := Evaluate(doors, persons, tracking, last, cooldown, inv);
      && (e.outcome.Sent? <==>
            && !IsCloseEvent(inv.entity, inv.newState)
            && inv.forecast.Some?
            && FirstRain(inv.forecast.value, inv.now).Some?
            && AnyDoorOpen(doors, inv.states)
            && tracking
            && CooldownElapsed(last, cooldown, inv.now))
      && e.last == (if e.outcome.Sent? then Some(inv.now) else last)
      && (!e.outcome.Sent? ==> e.calls == [])
  {
  }

  /** What a warning says and to whom it goes. */
  lemma SentWarning(doors: seq<string>, persons: seq<Person>, tracking: bool, last: Option<int>,
                    cooldown: int, inv: Invocation)
    requires Evaluate(doors, persons, tracking, last, cooldown, inv).outcome.Sent?
    ensures
      var e := Evaluate(doors, persons, tracking, last, cooldown, inv);
      var k := FirstRain(inv.forecast.value, inv.now).value;
      && k < |inv.forecast.value| && IsFirstRain(inv.forecast.value, k, inv.now)
      && e.outcome.minutes == RainMinutes(inv.forecast.value[k].datetime.value, inv.now)
      && 0 <= e.outcome.minutes <= 30
      && e.calls == Dispatched(persons, RainMessage(e.outcome.minutes))
  {
  }

  /** After a warning at `first.now`, a later qualifying evaluation warns again
      exactly when the cooldown has passed. */
  lemma CooldownRearms(doors: seq<string>, persons: seq<Person>, last: Option<int>,
                       first: Invocation, second: Invocation)
    requires Evaluate(doors, persons, true, last, NotificationCooldown, first).outcome.Sent?
    requires !IsCloseEvent(second.entity, second.newState) && second.forecast.Some?
    requires FirstRain(second.forecast.value, second.now).Some? && AnyDoorOpen(doors, second.states)
    ensures
      var after := Evaluate(doors, persons, true, last, NotificationCooldown, first).last;
      var e := Evaluate(doors, persons, true, after, NotificationCooldown, second);
      && after == Some(first.now)
      && (e.outcome.Sent? <==> second.now - first.now >= NotificationCooldown)
      && (!e.outcome.Sent? ==> e.outcome == Suppressed && e.last == after)
  {
  }

  // ---------------------------------------------------------------------
  // The app
  // ---------------------------------------------------------------------

  /** The app's arguments; a missing `nowcast_sensor` is `None`. */
  datatype Args = Args(nowcastSensor: Option<string>, doorWindowSensors: seq<string>, persons: seq<Person>)

  /** Every required argument is present and non-empty. */
  predicate ConfigValid(args: Args)
  {
    args.nowcastSensor.Some? && args.nowcastSensor.value != "" &&
    args.doorWindowSensors != [] && args.persons != []
  }

  /** A callback registration handed to the host. */
  datatype Registration = ListenState(entity: string) | RunEveryFromNow(intervalSeconds: int)

  class RainWarning {
    var nowcastSensor: Option<string>
    var doorSensors: seq<string>
    var persons: seq<Person>
    /** Whether the cooldown fields below have been set up by a successful initialization. */
    var tracking: bool
    var lastNotificationTime: Option<int>
    var notificationCooldown: int

    ghost predicate Valid()
      reads this
    {
      tracking ==> notificationCooldown == NotificationCooldown
    }

    /** A fresh app before the host calls `Initialize`. */
    constructor ()
      ensures Valid() && !tracking
      ensures nowcastSensor == None && doorSensors == [] && persons == []
    {
      nowcastSensor, doorSensors, persons := None, [], [];
      tracking, lastNotificationTime, notificationCooldown := false, None, 0;
    }

    /** Reads the configuration; if it is complete, sets up the cooldown state and
        returns one state listener per door sensor and the recurring check. */
    method Initialize(args: Args) returns (regs: seq<Registration>)
      requires Valid()
      modifies this
      ensures Valid()
      ensures nowcastSensor == args.nowcastSensor && doorSensors == args.doorWindowSensors
      ensures persons == args.persons
      ensures ConfigValid(args) ==>
        && tracking && lastNotificationTime == None && notificationCooldown == NotificationCooldown
        && |regs| == |doorSensors| + 1
        && (forall j :: 0 <= j < |doorSensors| ==> regs[j] == ListenState(doorSensors[j]))
        && regs[|doorSensors|] == RunEveryFromNow(CheckIntervalSeconds)
      ensures !ConfigValid(args) ==>
        && regs == []
        && tracking == old(tracking) && lastNotificationTime == old(lastNotificationTime)
        && notificationCooldown == old(notificationCooldown)
    {
      nowcastSensor := args.nowcastSensor;
      doorSensors := args.doorWindowSensors;
      persons := args.persons;

      if !(nowcastSensor.Some? && nowcastSensor.value != "" && doorSensors != [] && persons != []) {
        return [];
      }

      tracking := true;
      lastNotificationTime := None;
      notificationCooldown := NotificationCooldown;

      regs := [];
      for i := 0 to |doorSensors|
        invariant |regs| == i
        invariant forall j :: 0 <= j < i ==> regs[j] == ListenState(doorSensors[j])
      {
        regs := regs + [ListenState(doorSensors[i])];
      }
      regs := regs + [RunEveryFromNow(CheckIntervalSeconds)];
    }

    /** One evaluation, from either trigger. */
    method CheckRainForecast(inv: Invocation) returns (outcome: Outcome, calls: seq<ServiceCall>)
      requires Valid()
      modifies this`lastNotificationTime
      ensures Valid()
      ensures Evaluation(outcome, calls, lastNotificationTime)
        == Evaluate(doorSensors, persons, tracking, old(lastNotificationTime), notificationCooldown, inv)
    {
      calls := [];
      if inv.entity.Some? && inv.entity.value != "" && inv.newState != Some(OnState) {
        return Skipped, [];
      }

      if inv.forecast.None? {
        return NoForecast, [];
      }

      var rainFound, rainMinutes := ScanForecast(inv.forecast.value, inv.now);
      if !rainFound {
        return NoRain, [];
      }

      var open := CheckDoors(doorSensors, inv.states);
      if !open {
        return NoDoorOpen, [];
      }

      if !tracking {
        return Error, [];
      }

      if lastNotificationTime.None? || inv.now - lastNotificationTime.value >= notificationCooldown {
        calls := Dispatch(persons, RainMessage(rainMinutes));
        lastNotificationTime := Some(inv.now);
        outcome := Sent(rainMinutes);
      } else {
        outcome := Suppressed;
      }
    }
  }
}
