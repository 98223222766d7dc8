/** Concrete evaluations of the rule. 2025-01-01T12:00:00Z is 1735732800 seconds after the epoch. */
module Scenarios {

  import opened Wrappers
  import opened NowcastAlarm

  const Noon: int := 1735732800
  const Doors: seq<string> := ["binary_sensor.back_door"]
  const Recipients: seq<Person> := [Person(Some("mobile_app_phone")), Person(None)]

  function Rain(at: int, amount: real): seq<ForecastPoint>
  {
    [ForecastPoint(Some(at), Some(amount))]
  }

  /** Rain at 12:05 with the door open: a five-minute warning to the one person with a channel. */
  lemma RainInFiveMinutes()
    ensures Evaluate(Doors, Recipients, true, None, NotificationCooldown,
                     Invocation(None, None, Some(Rain(Noon + 300, 0.5)), map[Doors[0] := OnState], Noon))
         == Evaluation(Sent(5), [ServiceCall("notify/mobile_app_phone", RainMessage(5))], Some(Noon))
  {
    var f := Rain(Noon + 300, 0.5);
    assert FirstRain(f, Noon) == Some(0);
    assert IsOn(map[Doors[0] := OnState], Doors[0]);
    assert RainTime(f, Noon) == Some(Noon + 300);
    assert MinutesUntilRain(f, Noon) == Some(5);
    assert AnyDoorOpen(Doors, map[Doors[0] := OnState]);
    assert Dispatched(Recipients[1..], RainMessage(5)) == [];
    assert NotifyService("mobile_app_phone") == "notify/mobile_app_phone";
    assert Dispatched(Recipients, RainMessage(5)) == [ServiceCall("notify/mobile_app_phone", RainMessage(5))];
  }

  /** The same forecast, but the call comes from the door closing: nothing happens. */
  lemma DoorClosingEventSkipped()
    ensures Evaluate(Doors, Recipients, true, None, NotificationCooldown,
                     Invocation(Some(Doors[0]), Some("off"), Some(Rain(Noon + 300, 0.5)), map[Doors[0] := OnState], Noon))
         == Evaluation(Skipped, [], None)
  {
  }

  /** Rain 35 minutes ahead lies outside the window. */
  lemma RainOutsideWindow()
    ensures Evaluate(Doors, Recipients, true, None, NotificationCooldown,
                     Invocation(None, None, Some(Rain(Noon + 35 * 60, 0.5)), map[Doors[0] := OnState], Noon))
         == Evaluation(NoRain, [], None)
  {
  }

  /** Rain 30 minutes ahead is the last point the window admits. */
  lemma RainAtWindowEdge()
    ensures MinutesUntilRain(Rain(Noon + 30 * 60, 0.1), Noon) == Some(30)
    ensures MinutesUntilRain(Rain(Noon + 30 * 60 + 1, 0.1), Noon) == None
  {
  }
}
