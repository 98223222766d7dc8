# Rain warning for open doors: a Dafny model

This project models the AppDaemon app `RainWarning`. The app watches a MET.NO precipitation nowcast and a set
of door and window sensors. When rain is expected within the next 30 minutes and at least one opening is
open, it sends a push warning to every configured person. A 180-second cooldown stops it from sending
warnings too often.

The model has three files:

- `wrappers.dfy`: an `Option` datatype. `None` stands for Python's `None`, a missing key or an absent attribute.
- `nowcast_alarm.dfy`: module `NowcastAlarm`. It holds these parts:
  - the forecast records;
  - the rain-window scan, as the pure function `FirstRain` and as the loop `ScanForecast`;
  - the door check `CheckDoors` and the dispatch loop `Dispatch`, each proved against a function;
  - the whole decision pipeline as the function `Evaluate`;
  - the class `RainWarning`, with its fields and its two methods, `Initialize` and `CheckRainForecast`.
- `scenarios.dfy`: concrete evaluations of the rule.

Modelling choices:

- Times are whole seconds on the UTC time line.
- A forecast point has an optional datetime. A missing or empty `datetime` is `None`.
- A forecast point has an optional precipitation amount, as an exact real. A missing key counts as 0.
- Sensor states are a `map<string, string>`. A sensor missing from the map does not read `"on"`.
- The host API is replaced by inputs and outputs. An `Invocation` carries:
  - the triggering entity and its new state (both `None` for the timer);
  - the decoded `forecast_json` attribute (`None` when the attribute is absent or empty);
  - the sensor states;
  - the current time.
- Notify-service calls are returned as a sequence of `ServiceCall`s.
- Listener and timer registrations are returned as a sequence of `Registration`s.
- The warning text is represented by `RainMessage(minutes)`.

The look-ahead window is 30 minutes, as the code computes it (`i1_met_nowcast_alarm.py:53`). The docstring
of `check_rain_forecast` says 15 minutes (`i1_met_nowcast_alarm.py:40`). The model follows the code.

Validation can fail in `initialize`. In that case the Python object never gets `last_notification_time`
or `notification_cooldown`. The model records this with the field `tracking`. If an evaluation on such an
object got as far as the cooldown gate, Python would raise `AttributeError` at line 83 and the catch-all
handler would swallow it. The model returns outcome `Error` there and sends nothing. The host never calls
such an object anyway, because no listener or timer was registered for it.

## Model

| member | source | states |
|---|---|---|
| NowcastAlarm.FirstRain | i1_met_nowcast_alarm.py:56-70 | if the scan selects index k, then point k has a datetime in [now, now+30 min] and positive precipitation, no earlier point is past the window, and no earlier point is rainy; if the scan selects nothing, every rainy point comes after a point past the window |
| NowcastAlarm.FirstRainCharacterized | i1_met_nowcast_alarm.py:58-70 | the scan selects k if and only if k is the first rainy point and the scan reaches it |
| NowcastAlarm.ScanStopsAtBeyond | i1_met_nowcast_alarm.py:63-64 | the points after the first dated point past the window never change the scan's result, even if they have rain |
| NowcastAlarm.UndatedPointsIgnored | i1_met_nowcast_alarm.py:59-60 | dropping every point without a datetime leaves the selected rain time unchanged: such points neither stop the scan nor get selected |
| NowcastAlarm.RainTime | i1_met_nowcast_alarm.py:62-68 | the selected rain time exists exactly when the scan finds rain, and it lies within [now, now+30 min] |
| NowcastAlarm.MinutesUntilRain | i1_met_nowcast_alarm.py:53-69 | the reported minutes exist exactly when rain is found, and they lie between 0 and 30 |
| NowcastAlarm.ScanForecast | i1_met_nowcast_alarm.py:53-70 | the loop with `continue` and `break` finds rain exactly when `FirstRain` selects a point; rain_minutes is then (t - now) div 60 of that point and lies in 0..30, and otherwise stays 0 |
| NowcastAlarm.CheckDoors | i1_met_nowcast_alarm.py:76-80 | the `for ... else` loop reports open if and only if some configured sensor reads `"on"` |
| NowcastAlarm.DispatchedAppend | i1_met_nowcast_alarm.py:87-90 | dispatching to a list of persons is dispatching to its first part, then to its second part; calls keep person order and each person contributes once |
| NowcastAlarm.DispatchedCalls | i1_met_nowcast_alarm.py:87-90 | a call is made if and only if it carries the message and its service is `notify/<channel>` for a person whose non-empty channel is that channel |
| NowcastAlarm.Dispatch | i1_met_nowcast_alarm.py:86-90 | the dispatch loop makes exactly the calls `Dispatched` describes |
| NowcastAlarm.CloseEventIgnored | i1_met_nowcast_alarm.py:42-44 | a sensor event whose new state is not `"on"` ends the evaluation: nothing is sent, the cooldown state is kept, and the forecast, sensor states and time do not matter |
| NowcastAlarm.NothingSentWithoutRainAndOpenDoor | i1_met_nowcast_alarm.py:72-80 | when the scan finds no rain, or no configured sensor is open, nothing is sent and the cooldown state is kept |
| NowcastAlarm.DispatchGate | i1_met_nowcast_alarm.py:83-92 | a warning is sent if and only if every gate passes, including the cooldown (never notified, or at least the cooldown ago); after a warning the last-notification time is `now`, and otherwise it is unchanged and nothing is sent |
| NowcastAlarm.SentWarning | i1_met_nowcast_alarm.py:66-90 | a warning embeds the minutes of the first rainy point, which lie in 0..30, and goes exactly to the calls `Dispatched` describes |
| NowcastAlarm.CooldownRearms | i1_met_nowcast_alarm.py:30-92 | after a warning at time t1, a later evaluation with rain and an open door warns again if and only if it comes at least 180 s after t1; otherwise it is suppressed and the state is kept |
| NowcastAlarm.RainWarning.Initialize | i1_met_nowcast_alarm.py:16-37 | the configuration fields are always stored. If all three required arguments are non-empty: the cooldown state starts as `None` with a 180 s cooldown, and the method returns one state listener per door sensor, in order, then a 300 s timer. Otherwise: nothing is registered and the cooldown state is untouched |
| NowcastAlarm.RainWarning.CheckRainForecast | i1_met_nowcast_alarm.py:39-96 | the outcome, the calls made and the new `last_notification_time` are exactly those of `Evaluate` on the old state |
| Scenarios.RainInFiveMinutes | i1_met_nowcast_alarm.py:47-92 | rain 5 minutes ahead with the door open sends one warning with 5 minutes, only to the person with a channel, and records `now` |
| Scenarios.DoorClosingEventSkipped | i1_met_nowcast_alarm.py:42-44 | a door-closing event with rain ahead sends nothing |
| Scenarios.RainOutsideWindow | i1_met_nowcast_alarm.py:53-73 | rain 35 minutes ahead sends nothing |
| Scenarios.RainAtWindowEdge | i1_met_nowcast_alarm.py:53-69 | rain exactly 30 minutes ahead is reported as 30 minutes; one second later it is outside the window |

## Left out

- The AppDaemon host API (`listen_state`, `run_every`, `get_state`, `call_service`, `log`): state reads are inputs, and registrations and notify calls are outputs. Log lines are not modelled.
- Clock: `datetime.now` is the `now` field of the invocation.
- `json.loads` and `datetime.fromisoformat`, including the rewrite of `"Z"` to `"+00:00"`: the model receives already decoded points with integer timestamps. The claim that both suffixes give the same instant depends on library behaviour and is not made.
- Malformed input (invalid JSON, unparsable datetimes, a non-numeric or null precipitation, comparisons between naive and aware datetimes): in the source these raise exceptions before anything is sent, and the catch-all handler (lines 95-96) turns them into "nothing sent, state unchanged". The model has no such inputs.
- NowcastAlarm.RainWarning.CheckRainForecast: does not model a failing notify call, or a person entry that is not a mapping. In the source either one raises inside the dispatch loop (lines 87-90). The loop then stops after the calls already made, line 92 never runs, and `last_notification_time` keeps its old value, so the next evaluation can warn the same people again without a cooldown. In the model the notify service never fails and every person is a record, so dispatch always completes and the state always becomes `now`.
- Floating point: precipitation is an exact real, and times are whole seconds, so `int(total_seconds() / 60)` becomes the exact `(t - now) / 60`. This is the same value because `t >= now`. Sub-second timestamps are not modelled.
- The exact warning text with its emoji: the message is represented by the minutes it embeds.
- The timing of the recurring check (every 5 minutes, first run immediately) and the mechanics of listener delivery: these are host behaviour. Only the registrations themselves are modelled.
