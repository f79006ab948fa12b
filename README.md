# Power and flow dashboard simulator, modelled in Dafny

The dashboard (`track.js`) is a browser page that refreshes once a second. Each
refresh (a *tick*, `updateAll`) reads the clock once, and then does four things:

- It sets the automatic transfer switch (ATS) indicator. During peak hours (10:00 to
  18:00 local time) the indicator shows "BESS Mode" (the battery supplies the
  load). At other times it shows "Grid Mode".
- It moves the simulated battery level. The level drops by 1 %/min during peak
  hours and rises by 0.5 %/min otherwise, in steps of 1/60 of that rate per
  tick. It is clamped to [0, 100].
- It re-renders the fixed motor speed, 120 × 50 Hz / 5 poles.
- It re-renders the fixed flow rate through a 5 cm pipe at 10 m/s. It sets the
  buzzer to the alert state when that rate is above 5 L/s.

The model has one module per part of the program:

- `PeakHours` (peak_hours.dfy): timestamps are local-time milliseconds.
  `Date.setHours` becomes `SetHours`. `IsPeakHours` builds the two boundary
  instants and compares them with `now`, as the program does.
- `ClassList` (class_list.dfy): a page element is an `Element` with a text
  and a set of class names. Its `Add`, `Remove` and `SetText` methods change it
  in place. `Select` is the class set after "add one, remove the other".
- `Ats` (ats.dfy): the indicator's class set and text as functions of the
  peak flag.
- `Battery` (battery.dfy): `Step` is the clamped one-tick update as a function.
  `Charge` runs it over a sequence of peak flags. `BatteryState` is the mutable
  `batteryLevel` variable, and its `Tick` method is the program's
  subtract-then-clamp code, proved equal to `Step`.
- `Readouts` (readouts.dfy): the motor speed constant, the flow rate formula,
  the alarm threshold and the buzzer's class set and text.
- `Dashboard` (dashboard.dfy): `Panel` is everything a tick writes or keeps.
  `Tick` and `RunTicks` are the pure meaning of one tick and of a run of ticks.
  The `Page` class owns the three page elements and the battery. Each of its
  update methods is proved to change the page exactly as the matching pure
  step function says.

The indicator, status and buzzer texts are the program's own strings. The
indicator texts include the prefix "ATS Switch is in: ". `Tick` composes the
steps in the program's order: indicator, then battery, then buzzer. The motor
speed update between battery and buzzer writes only formatted text, so it has
no step of its own.

## Model

| member | source | states |
|---|---|---|
| PeakHours.TimeOfDay | track.js:36-39 | the time of day of a timestamp is below one day, and the timestamp minus it is a day boundary |
| PeakHours.SetHours | track.js:36-39 | for a clock reading within one day, `setHours(h, m, s, ms)` keeps the calendar day of `now` and gives that clock reading |
| PeakHours.PeakHoursWindow | track.js:35-42 | `isPeakHours(now)` holds exactly when now's time of day lies in [10:00:00.000, 18:00:00.000) |
| PeakHours.PeakBoundaries | track.js:35-42 | on every day, 10:00:00.000 and 17:59:59.999 are peak; 09:59:59.999 and 18:00:00.000 are not |
| PeakHours.PeakHoursDaily | track.js:35-42 | the classification repeats every day: shifting now by whole days does not change it |
| ClassList.Select | track.js:51-52 | after `add(on)` then `remove(off)`, `on` is present (when on is not off), `off` is absent, and every other class is as before |
| ClassList.SelectIdempotent | track.js:51-52 | selecting the same class of a pair a second time changes nothing |
| ClassList.SelectLastWins | track.js:51-56 | selecting one class of a pair and then the other gives the same set as selecting only the second |
| Ats.AtsExactlyOne | track.js:48-58 | after the update exactly one of bess-mode and grid-mode is present, bess-mode exactly in peak hours; the text names the same mode; other classes are unchanged |
| Ats.AtsLastUpdateWins | track.js:48-58 | the indicator keeps no history: two updates in a row give the classes of the second alone |
| Battery.StepInRange | track.js:64-75 | one tick keeps a level in [0, 100] in [0, 100] |
| Battery.StepDirection | track.js:65-75 | a peak tick never raises the level, and lowers it exactly when it is above 0; an off-peak tick never lowers it, and raises it exactly when it is below 100 |
| Battery.LabelMatchesDirection | track.js:65-77 | the status text is "Battery Status: Discharging" iff the tick is peak and "Battery Status: Charging" otherwise, and a level that moved down (up) carries the discharging (charging) text |
| Battery.ChargeInRange | track.js:64-75 | from a level in [0, 100], any sequence of peak and off-peak ticks keeps it in [0, 100] |
| Battery.DrainClosedForm | track.js:67-68 | n peak ticks from a non-negative level give exactly max(0, level - n × DISCHARGE_RATE/60) |
| Battery.FillClosedForm | track.js:74-75 | n off-peak ticks from a level of at most 100 give exactly min(100, level + n × CHARGE_RATE/60) |
| Battery.DrainsToZero | track.js:67-68 | enough peak ticks bring any level in range to exactly 0 |
| Battery.FillsToMax | track.js:74-75 | enough off-peak ticks bring any level up to exactly MAX_BATTERY |
| Battery.SaturationIdempotent | track.js:67-75 | at 0 further peak ticks keep 0; at MAX_BATTERY further off-peak ticks keep MAX_BATTERY |
| Battery.FromInitialLevel | track.js:11-75 | from the initial 50 %: one peak tick gives exactly 50 - 1/60, one off-peak tick exactly 50 + 0.5/60; 3000 peak ticks empty the battery and 6000 off-peak ticks fill it |
| Battery.BatteryState.constructor | track.js:14 | the level starts at 50 % |
| Battery.BatteryState.Tick | track.js:65-75 | the subtract-or-add then clamp code leaves the level at `Step(old level, peak)` and keeps it in range |
| Readouts.RpmValue | track.js:17-19 | the motor speed for 50 Hz and 5 poles is exactly 1200 RPM |
| Readouts.FlowRateRaisesAlert | track.js:22-28 | for any value of pi in [3.14, 3.15] the flow rate lies in [19.625, 19.6875] L/s and is above the 5 L/s alarm limit |
| Readouts.BuzzerExactlyOne | track.js:98-106 | after the buzzer update exactly one of buzzer-status-alert and buzzer-status-safe is present, the alert class iff the flow is strictly above 5; the text agrees; other classes are unchanged |
| Dashboard.TickAgreement | track.js:112-119 | within one tick bess-mode is present iff the battery status says discharging; the level never rises in BESS mode nor falls in grid mode; other classes are untouched |
| Dashboard.TickConsistent | track.js:112-119 | one tick from a level in range leaves the whole panel consistent: one class of each pair, texts agreeing with classes, the buzzer matching the threshold, the level in range |
| Dashboard.RunTicksLevel | track.js:112-123 | the battery level after a run of ticks is the battery run over the peak classifications of the ticks' clock readings |
| Dashboard.RunTicksConsistent | track.js:112-123 | after any run of at least one tick from a level in range, the panel is consistent and the level stays in range |
| Dashboard.Page.constructor | track.js:1-28 | page load: three distinct page elements, a fresh battery at 50 %, the flow rate computed from the pipe constants |
| Dashboard.Page.UpdateATSStatus | track.js:48-58 | the indicator's text and classes become those of `AtsStep`; nothing else on the page changes |
| Dashboard.Page.UpdateBattery | track.js:64-83 | the level and the status text become those of `BatteryStep`; nothing else on the page changes |
| Dashboard.Page.UpdateFlowRate | track.js:95-107 | the buzzer's text and classes become those of `BuzzerStep`; nothing else on the page changes |
| Dashboard.Page.UpdateAll | track.js:112-119 | the page becomes `Tick` of its old state, with one clock reading shared by the indicator and the battery; from a level in range the page is then consistent |
| Dashboard.Page.Run | track.js:121-123 | the tick at load and the timer's ticks leave the page at `RunTicks` of its old state over the clock readings |

## Left out

- The element lookups (`getElementById`) are not modelled: the `Page` constructor receives the three elements it writes classes or status text to. The battery fill element and the percentage, motor and flow text elements are not modelled.
- The battery fill height, its gradient colour and the percentage text (`toFixed(1)`) are not modelled. They are presentation only and depend on number formatting.
- `updateMotorSpeed` and the flow-rate text in `updateFlowRate` only format fixed numbers into HTML. Only the numbers they format (`Rpm`, `FlowRateLps`) are modelled.
- The clock and the timer are not modelled. `new Date()` becomes the `now` parameter, and `setInterval` becomes the sequence of clock readings given to `Run`. Real elapsed time, timer drift and throttling are outside the model.
- Time zones and daylight-saving changes are not modelled. A timestamp counts local milliseconds, and every day has exactly 24 hours.
- Floating point is not modelled. The battery level uses exact real arithmetic, so the rounding drift of repeated `±rate/60` steps is not captured. `Math.PI` is a parameter of `FlowRateLps`.
- Readouts.FlowRateRaisesAlert: states the alert for every pi in [3.14, 3.15] and not for the exact double `Math.PI`, because floating point is not modelled.
