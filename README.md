# Time-clock components in Dafny

This project models the state logic behind six components of the time-clock
web app:

- the three timers: pomodoro, countdown and stopwatch;
- the three clocks: alarm clock, digital clock and world clock.

Five of the components become Dafny classes: `Pomodoro.PomodoroTimer`,
`Countdown.CountdownTimer`, `Stopwatch.Stopwatch`, `AlarmClock.AlarmClock`
and `WorldClock.WorldClock`. Their `useState` values become fields. The
digital clock keeps no state beyond the clock reading, so it is modelled by
functions of that reading (`DigitalClock.FormatTime` and its helpers), with
the reading and the one-second interval as parameters. Each handler becomes a `method` that performs the handler's state
updates and then the effects those updates set off. React skips a state
update whose new value equals the old one. The model does the same:

- `Pomodoro.PomodoroTimer.SwitchMode` to the current phase changes nothing.
- Saving an unedited pomodoro settings draft changes nothing.

The pure helpers each component defines become functions, with lemmas about
them. Examples are the time formatters, the best and worst lap and the list
filters.

Several things come from outside the components: the current instant
(`Date.now()`), the clock reading (`getHours`, `toLocaleTimeString`,
weekday), and the ids made from the creation instant. These are parameters
of the methods that use them. A firing of an interval is a call to the
component's `Tick` or check method.

Shared pieces, each in its own module:

- `Js`: the JavaScript string operations the components rely on:
  - `toString` of an integer;
  - the `%` operator, whose remainder takes the dividend's sign;
  - `padStart(2, '0')`;
  - `trim`, with ECMAScript white space;
  - `parseInt` in base 10.
- `JsArray`: `filter`, `map`, `some` and `find` on arrays.
- `Tick`: the once-a-second update `prev <= 1 ? 0 : prev - 1`, which the
  countdown and the pomodoro timer share.

Behaviours worth noting, as the code has them:

- **Countdown counting.** The countdown counts down by taking one second
  off a counter on each tick. It does not measure from a fixed end
  instant.
- **Alarm repeats.** An alarm sounds on every once-a-second check during
  its minute. Nothing records that it already sounded (see
  `AlarmClock.EveryCheckOfTheMinuteFires`).
- **Lap ties.** When two laps tie for best or worst lap, the lap nearer the
  head of the list wins, which is the more recent one. The earlier one does
  not.
- **Countdown reset during a run.** Resetting a countdown while it runs
  keeps the remaining time, not the duration first set. While running, the
  input already shows the remaining time, and reset reads the counter back
  from the input.

## Model

Each row names the member whose contract states the promise. A function that
models a source function without promising anything itself (a formatter such
as `Pomodoro.FormatTime`, `Js.ParseInt` or `AlarmClock.Fired`) appears through
the lemmas about it.

| member | source | states |
|---|---|---|
| Tick.StepBounds | src/components/timers/CountdownTimer.tsx:57-67 | a tick never leaves a negative counter, takes exactly one second from a positive one, and gives 0 exactly on the completing tick |
| Tick.CompletesOnLastTick | src/components/timers/PomodoroTimer.tsx:90-117 | a run started with `n >= 1` seconds shows `n - k` after `k` ticks, and only tick number `n` completes it |
| Js.DecimalString | src/components/timers/CountdownTimer.tsx:117 | `toString` of a non-negative integer is a non-empty string of decimal digits, one digit exactly below 10, at most two below 100, and without a leading zero |
| Js.DecimalStringRoundTrip | src/components/timers/CountdownTimer.tsx:117 | reading the digits of `n.toString()` gives `n` back |
| Js.LeadingZeroIgnored | src/components/timers/CountdownTimer.tsx:117 | a leading `'0'` does not change the value of a digit string |
| Js.PadStart | src/components/timers/CountdownTimer.tsx:117 | `padStart` gives the longer of the text's length and the target length, with the text as the suffix and only fill characters in front of it |
| Js.Pad2RoundTrip | src/components/clocks/DigitalClock.tsx:13-16 | a number below 100 padded to two digits is two decimal digits that read back as the number |
| Js.PadInt2Cases | src/components/timers/PomodoroTimer.tsx:154 | a non-negative field pads to the same two digits as `Pad2`; a negative field is its minus sign and digits, already two characters, so it is not padded |
| Js.JsRem | src/components/timers/PomodoroTimer.tsx:153 | `n % d` is what remains after taking away `d` times the quotient rounded toward zero, so it lies in `[0, d)` for non-negative `n` and in `(-d, 0]` for negative `n` |
| Js.SplitJoined | src/components/timers/Stopwatch.tsx:78 | three two-character fields joined by two separators are 8 characters, and each field and separator is found at its position |
| Js.SplitJoinedPair | src/components/timers/PomodoroTimer.tsx:154 | two two-character fields joined by a separator are 5 characters, and each field and the separator is found at its position |
| Js.TrimStart | src/components/timers/CountdownTimer.tsx:86 | trimming the front removes a prefix made only of white space and leaves no leading white space |
| Js.TrimEnd | src/components/timers/CountdownTimer.tsx:86 | trimming the end removes a suffix made only of white space and leaves no trailing white space |
| Js.TrimEmptyIffBlank | src/components/timers/CountdownTimer.tsx:86 | `trim()` is empty exactly when the text is entirely white space |
| Js.DigitPrefix | src/components/timers/CountdownTimer.tsx:121 | the leading digit run is a prefix made of digits only, and it ends at the first non-digit |
| Js.AllDigitsPrefix | src/components/timers/CountdownTimer.tsx:121 | the leading digit run of an all-digit text is the whole text |
| Js.LeadingNumberOfDigits | src/components/timers/CountdownTimer.tsx:121 | a non-empty digit string reads as its decimal value |
| Js.ParseIntOfDigits | src/components/timers/CountdownTimer.tsx:121 | `parseInt` of a non-empty digit string is its value |
| Js.ParseIntAfterMinus | src/components/timers/CountdownTimer.tsx:121 | `parseInt` of `-` followed by digits is the negated value |
| Js.ParseIntOfDecimal | src/components/timers/CountdownTimer.tsx:121 | `parseInt(n.toString())` is `n` |
| JsArray.Filter | src/components/clocks/AlarmClock.tsx:107 | `filter` keeps only elements that satisfy the test, drops none that do, and never grows the array |
| JsArray.FilterConcat | src/components/clocks/AlarmClock.tsx:107 | filtering a joined array gives the two parts filtered and joined |
| JsArray.FilterCount | src/components/clocks/AlarmClock.tsx:107 | each element is kept as often as it occurs when it passes the test, and dropped otherwise |
| JsArray.FilterAllKept | src/components/clocks/AlarmClock.tsx:112 | filtering with a test that every element passes changes nothing |
| JsArray.FilterUniqueKeys | src/components/clocks/WorldClock.tsx:74 | filtering keeps keys distinct |
| JsArray.FilterNoDuplicates | src/components/clocks/AlarmClock.tsx:112 | filtering an array without repeats gives an array without repeats |
| JsArray.Map | src/components/clocks/AlarmClock.tsx:101-103 | `map` keeps the length and applies the function at every position |
| JsArray.MapInvolution | src/components/clocks/AlarmClock.tsx:101-103 | mapping twice with a function that undoes itself gives the array back |
| JsArray.Find | src/components/clocks/WorldClock.tsx:148 | `find` returns an element of the array that passes the test, or nothing exactly when no element does |
| JsArray.RemoveByKeyExactly | src/components/clocks/WorldClock.tsx:74 | removal by key leaves no element with that key, keeps every other element as often as before, and changes nothing when no element has the key |
| JsArray.RemoveByKeyConcat | src/components/clocks/WorldClock.tsx:74 | removal by key from a joined array is removal from each part |
| JsArray.RemoveByKeyUniqueKeys | src/components/clocks/WorldClock.tsx:74 | removal by key keeps the keys distinct |
| Pomodoro.FieldValue | src/components/timers/PomodoroTimer.tsx:313 | `parseInt(value) \|\| fallback` is never 0 when the fallback is not 0 |
| Pomodoro.FieldValueOfTyped | src/components/timers/PomodoroTimer.tsx:313 | a typed positive number is taken as it is; a typed 0 or an empty field gives the fallback |
| Pomodoro.EditFieldExactly | src/components/timers/PomodoroTimer.tsx:313-355 | typing into a field changes that field only: it becomes the number `parseInt` reads when that is not 0, and otherwise (empty, unreadable or 0) the field's value in the default settings |
| Pomodoro.EditKeepsFieldsNonZero | src/components/timers/PomodoroTimer.tsx:313-355 | editing never puts a zero into a settings draft that has none |
| Pomodoro.NextModeAlternates | src/components/timers/PomodoroTimer.tsx:99-112 | work is followed by a break and a break by work; the break after work is long exactly when the completed-cycle count is a multiple of `cycles` |
| Pomodoro.Rounds | src/components/timers/PomodoroTimer.tsx:99-112 | after `n` rounds of work and break from a work phase, the timer is back at work with `n` more cycles and `n` work phases more of work time |
| Pomodoro.DefaultCycle | src/components/timers/PomodoroTimer.tsx:17-22 | with the default settings, breaks 1 to 3 are short, and the 4th is the first long break, after 4 cycles and 100 minutes of work |
| Pomodoro.FormatTimeReadsBack | src/components/timers/PomodoroTimer.tsx:150-154 | for a counter from 0 to 99:59 the display is `mm:ss` with seconds below 60, and it reads back as the seconds shown |
| Pomodoro.FormatTimeOfNegative | src/components/timers/PomodoroTimer.tsx:150-154 | a counter `k` seconds below zero shows as `-m:00` when `k` is a whole number `m` of minutes; otherwise the minutes shown are one more than the whole minutes in `k`, and the seconds field has its own minus sign (-301 shows as `-6:-1`) |
| Pomodoro.TotalTimeParts | src/components/timers/PomodoroTimer.tsx:156-160 | the hours shown are the total rounded down to whole hours; for a non-negative total the minutes are those of the hour begun, less than a minute below the total; for a negative total the minutes are between -60 and 0, the negative of the part of an hour rounded up to minutes |
| Pomodoro.PomodoroTimer.constructor | src/components/timers/PomodoroTimer.tsx:24-31 | starts stopped in work with 25 minutes, the default settings and zero statistics |
| Pomodoro.PomodoroTimer.ElapsedInPhase | src/components/timers/PomodoroTimer.tsx:163-175 | with positive settings, the elapsed part of the phase lies in `[0, duration)` |
| Pomodoro.PomodoroTimer.Start | src/components/timers/PomodoroTimer.tsx:84-89 | nothing changes while running; otherwise the timer runs, remembering the cycle count at start |
| Pomodoro.PomodoroTimer.Pause | src/components/timers/PomodoroTimer.tsx:121-127 | the timer is stopped |
| Pomodoro.PomodoroTimer.Tick | src/components/timers/PomodoroTimer.tsx:90-117 | one second off while more than one is left; otherwise the phase completes and the timer stops, re-armed to the next phase's full length, which is chosen from the cycle count captured at start; a completed work phase adds one cycle and the work time; with positive settings the counter stays between 1 and the phase length |
| Pomodoro.PomodoroTimer.Reset | src/components/timers/PomodoroTimer.tsx:129-139 | stops the timer and re-arms the current phase |
| Pomodoro.PomodoroTimer.SwitchMode | src/components/timers/PomodoroTimer.tsx:72-82 | choosing another phase stops the timer and arms that phase; choosing the current phase changes nothing |
| Pomodoro.PomodoroTimer.EditSetting | src/components/timers/PomodoroTimer.tsx:313-355 | the draft becomes the edited draft, which no longer counts as the current settings |
| Pomodoro.PomodoroTimer.SaveSettings | src/components/timers/PomodoroTimer.tsx:141-144 | an edited draft becomes the settings and stops and re-arms the timer; an unedited one changes nothing, since it already equals the settings |
| Pomodoro.PomodoroTimer.ResetStats | src/components/timers/PomodoroTimer.tsx:146-149 | the cycle count and the work time are 0 |
| Countdown.ClampInput | src/components/timers/CountdownTimer.tsx:120-129 | the field value is always in `[0, max]`; unreadable text gives 0; a number in range is kept; larger gives `max`; negative gives 0 |
| Countdown.ClampInputOfShown | src/components/timers/CountdownTimer.tsx:120-129 | a field that shows an in-range number reads back as that number |
| Countdown.Split | src/components/timers/CountdownTimer.tsx:102-104 | minutes and seconds are below 60, and the three parts add back up to the duration |
| Countdown.SplitOfTotal | src/components/timers/CountdownTimer.tsx:131-141 | splitting the total of an in-range input gives the input back |
| Countdown.FormatDurationReadsBack | src/components/timers/CountdownTimer.tsx:116-118 | under 100 hours a preset shows as `hh:mm:ss`, and the three fields read back as its duration |
| Countdown.DeletePresetExactly | src/components/timers/CountdownTimer.tsx:112-114 | deleting drops every preset with that id and keeps the others as often as before |
| Countdown.CountdownTimer.constructor | src/components/timers/CountdownTimer.tsx:13-19 | starts stopped at 0:00:00 with no presets |
| Countdown.CountdownTimer.Input | src/components/timers/CountdownTimer.tsx:120-178 | the fields are enabled only while stopped; only the typed field changes, to its clamped value, and the counter follows the input's total |
| Countdown.CountdownTimer.Start | src/components/timers/CountdownTimer.tsx:51-55 | nothing when the counter is 0 or the timer already runs; otherwise the timer runs with the input unchanged, which already shows the counter split into h:m:s |
| Countdown.CountdownTimer.Tick | src/components/timers/CountdownTimer.tsx:44-68 | one second off while more than one is left, with the input showing the rest; otherwise the timer stops, and the counter, re-read from the input, is 1 with the input at 0:00:01 |
| Countdown.CountdownTimer.TickClearingInput | src/components/timers/CountdownTimer.tsx:44-68 | the same tick, with the completion leaving 0 on the counter and 0:00:00 in the input |
| Countdown.CountdownTimer.Pause | src/components/timers/CountdownTimer.tsx:71-77 | stops with the counter at the input's total; a paused run keeps the seconds it had left |
| Countdown.CountdownTimer.Reset | src/components/timers/CountdownTimer.tsx:79-83 | stops with the counter at the input's total, which during a run is the remaining time |
| Countdown.CountdownTimer.SetTimerName | src/components/timers/CountdownTimer.tsx:231-232 | the preset name is the typed text |
| Countdown.CountdownTimer.SaveTimer | src/components/timers/CountdownTimer.tsx:85-97 | a blank name saves nothing; otherwise one preset with the input's total is appended and the name is cleared |
| Countdown.CountdownTimer.LoadTimer | src/components/timers/CountdownTimer.tsx:99-110 | the timer stops with the preset's duration on the counter and its split in the input |
| Countdown.CountdownTimer.DeleteTimer | src/components/timers/CountdownTimer.tsx:112-114 | the presets lose every entry with that id |
| Countdown.TypeTwoSecondsAndStart | src/components/timers/CountdownTimer.tsx:51-54 | typing 2 seconds and starting gives a run with 2 seconds on the counter |
| Countdown.TwoSecondRun | src/components/timers/CountdownTimer.tsx:44-68 | a 2-second run, as written, completes with 1 on the counter and 0:00:01 in the input |
| Countdown.TwoSecondRunClearingInput | src/components/timers/CountdownTimer.tsx:44-68 | the same run with the corrected completion ends at 0 and 0:00:00 |
| Stopwatch.SplitsSumToLastTotal | src/components/timers/Stopwatch.tsx:55-71 | the laps' splits add up to the total of the most recent lap |
| Stopwatch.IdsDecreasing | src/components/timers/Stopwatch.tsx:55-71 | lap numbers strictly decrease from the head and are at least 1, so no two laps share one |
| Stopwatch.BestLap | src/components/timers/Stopwatch.tsx:81-95 | no answer for fewer than two laps; otherwise the number of a lap with the smallest split, the one nearest the head among ties |
| Stopwatch.WorstLap | src/components/timers/Stopwatch.tsx:97-111 | no answer for fewer than two laps; otherwise the number of a lap with the largest split, the one nearest the head among ties |
| Stopwatch.TimeParts | src/components/timers/Stopwatch.tsx:74-76 | minutes, seconds below 60 and hundredths below 100, which together fall less than 10 ms short of the time |
| Stopwatch.FormatTimeReadsBack | src/components/timers/Stopwatch.tsx:73-79 | under 100 minutes the display is `mm:ss.cc`, and reading it back falls less than 10 ms short of the time |
| Stopwatch.Stopwatch.constructor | src/components/timers/Stopwatch.tsx:11-17 | starts stopped at 0 with no laps |
| Stopwatch.Stopwatch.Start | src/components/timers/Stopwatch.tsx:27-36 | nothing while running; otherwise the stopwatch runs, measuring from `now - time` |
| Stopwatch.Stopwatch.Pause | src/components/timers/Stopwatch.tsx:38-46 | the stopwatch is stopped and the time shown stays |
| Stopwatch.Stopwatch.Reset | src/components/timers/Stopwatch.tsx:48-53 | stopped, with time 0, no laps and the lap counter 0 |
| Stopwatch.Stopwatch.Tick | src/components/timers/Stopwatch.tsx:33-35 | while running, the time is the distance from the anchor instant |
| Stopwatch.Stopwatch.AddLap | src/components/timers/Stopwatch.tsx:55-71 | nothing while stopped; otherwise the next-numbered lap goes in front, its split the time since the last lap's total; the laps stay numbered and split as `addLap` builds them |
| Stopwatch.ResumeContinues | src/components/timers/Stopwatch.tsx:27-46 | pausing, restarting at `t0` and ticking at `t1` advances the time by exactly `t1 - t0` |
| AlarmClock.FiredConcat | src/components/clocks/AlarmClock.tsx:55-63 | the alarms a check sounds on a joined list are those of each part, in order |
| AlarmClock.FiredExactly | src/components/clocks/AlarmClock.tsx:55-63 | an alarm sounds exactly when it matches, once per copy in the list; a switched-off alarm never sounds |
| AlarmClock.EveryCheckOfTheMinuteFires | src/components/clocks/AlarmClock.tsx:45-67 | over `n` checks in the same minute and weekday, each matching alarm sounds `n` times |
| AlarmClock.NotificationBody | src/components/clocks/AlarmClock.tsx:75 | the notification text is never empty, and it is the label when there is one |
| AlarmClock.ToggledExactly | src/components/clocks/AlarmClock.tsx:100-104 | toggling flips the switch of exactly the alarms with that id, changes nothing else, and toggling twice restores the list |
| AlarmClock.DeletedExactly | src/components/clocks/AlarmClock.tsx:106-108 | deleting drops every alarm with that id and keeps every other alarm as often as before, in order |
| AlarmClock.ToggledDaysExactly | src/components/clocks/AlarmClock.tsx:110-116 | toggling a weekday flips whether it is chosen, keeps every other day as often as before, and keeps the choice free of repeats |
| AlarmClock.ToggledDaysTwice | src/components/clocks/AlarmClock.tsx:110-116 | toggling an unchosen day twice restores the choice |
| AlarmClock.AlarmClock.constructor | src/components/clocks/AlarmClock.tsx:15-19 | no alarms, the dialog closed and an empty draft |
| AlarmClock.AlarmClock.CheckAlarms | src/components/clocks/AlarmClock.tsx:45-67 | one check sounds exactly the matching alarms, in list order, and changes nothing |
| AlarmClock.AlarmClock.OpenAddModal | src/components/clocks/AlarmClock.tsx:126 | the dialog is open |
| AlarmClock.AlarmClock.CancelAddModal | src/components/clocks/AlarmClock.tsx:236 | the dialog is closed and the draft is kept |
| AlarmClock.AlarmClock.SetNewAlarmTime | src/components/clocks/AlarmClock.tsx:198 | the draft's time is the typed time |
| AlarmClock.AlarmClock.SetNewAlarmLabel | src/components/clocks/AlarmClock.tsx:208 | the draft's label is the typed label |
| AlarmClock.AlarmClock.ToggleDay | src/components/clocks/AlarmClock.tsx:110-116 | the draft's weekdays are toggled, and no weekday is listed twice |
| AlarmClock.AlarmClock.AddAlarm | src/components/clocks/AlarmClock.tsx:82-98 | nothing without a time; otherwise a switched-on alarm built from the draft is appended, the dialog closes and the draft is cleared |
| AlarmClock.AlarmClock.ToggleAlarm | src/components/clocks/AlarmClock.tsx:100-104 | the alarms are toggled by id |
| AlarmClock.AlarmClock.DeleteAlarm | src/components/clocks/AlarmClock.tsx:106-108 | the alarms lose every entry with that id |
| DigitalClock.DisplayHour | src/components/clocks/DigitalClock.tsx:12-14 | in 24-hour form the hour is shown as read; in 12-hour form the hour is between 1 and 12 and agrees with it modulo 12 |
| DigitalClock.FormatTimeReadsBack | src/components/clocks/DigitalClock.tsx:11-25 | every field is two digits; minutes and seconds read back; the 24-hour hour reads back; the 12-hour hour with its marker gives the hour of the day |
| DigitalClock.TwelveHourRoundTrip | src/components/clocks/DigitalClock.tsx:14-17 | the 12-hour hour and the AM/PM marker determine the hour of the day |
| DigitalClock.TwelveHourDistinct | src/components/clocks/DigitalClock.tsx:14-17 | no two hours of the day share a 12-hour display and AM/PM marker |
| WorldClock.SelectableExactly | src/components/clocks/WorldClock.tsx:153-154 | the dialog lists exactly the catalogue zones whose id is not shown |
| WorldClock.CityFor | src/components/clocks/WorldClock.tsx:147-150 | the choice is the catalogue zone with that id, or none exactly when the catalogue has no such id |
| WorldClock.WithoutZoneExactly | src/components/clocks/WorldClock.tsx:73-75 | removing drops every zone with that id and keeps every other zone as often as before, in order |
| WorldClock.InitialIdsUnique | src/components/clocks/WorldClock.tsx:14-21 | the six initial zones have distinct ids |
| WorldClock.WorldClock.constructor | src/components/clocks/WorldClock.tsx:14-24 | the six initial zones, the dialog closed and no choice; ids distinct |
| WorldClock.WorldClock.OpenAddModal | src/components/clocks/WorldClock.tsx:123 | the dialog is open |
| WorldClock.WorldClock.CloseAddModal | src/components/clocks/WorldClock.tsx:136 | the dialog is closed and the choice is kept |
| WorldClock.WorldClock.SelectCity | src/components/clocks/WorldClock.tsx:147-150 | the choice is the catalogue zone with the chosen id |
| WorldClock.WorldClock.AddTimeZone | src/components/clocks/WorldClock.tsx:65-71 | the chosen zone is appended unless its id is already shown; the dialog closes and the choice is cleared; the zone is shown afterwards and ids stay distinct |
| WorldClock.WorldClock.RemoveTimeZone | src/components/clocks/WorldClock.tsx:73-75 | the zones lose that id, and ids stay distinct |
| WorldClock.WorldClock.Refresh | src/components/clocks/WorldClock.tsx:77-83 | the refresh replaces the list with a copy holding the same zones in the same order |

## Left out

- Pomodoro.PomodoroTimer.Tick, Js.DecimalString, Js.ParseInt: JavaScript numbers are IEEE doubles, and the model uses unbounded integers. Numbers at or above 2^53 are not modelled. Only a typed pomodoro setting can reach them, because the settings fields have no upper bound. From 2^53 on, `prev - 1` is no longer exact: it rounds to an even number, so a tick may take two seconds off or none. From 2^54 on, `prev - 1` always equals `prev`, so the phase never counts down. From 10^21 on, `toString` also prints an exponent.
- Saved state in `localStorage` is not modelled, neither loading nor saving. This covers the pomodoro settings and statistics, the countdown presets and the alarms. It is browser I/O.
- Sounds (`Audio.play`) and the browser `Notification` are not modelled; they are I/O. A completing tick returns whether the sound plays, and the notification text is `AlarmClock.NotificationBody`.
- `setInterval` and `clearInterval` are not modelled. A firing is a method call, and a stopped component's tick does nothing. Re-entering the countdown's `startTimer` while it runs would start a second interval. The model leaves this out because that button is not shown during a run.
- `Date.now()`, `new Date()`, `toLocaleTimeString` and `toLocaleDateString` are given as parameters. The model does not check that the time text is `HH:MM` or that the weekday text is one of the weekday keys.
- The digital clock's `formatDate` and the world clock's per-zone time and date (`Intl.DateTimeFormat`) are left out. They are locale formatting done by the browser.
- The pomodoro `calculateProgress` percentage is floating point and is left out. `Pomodoro.PomodoroTimer.ElapsedInPhase` gives the integer numerator.
- The digital clock's two display switches (seconds on/off, 12/24 hours) are not modelled as state. The 12/24-hour choice is the `is24Hour` parameter of `DigitalClock.FormatTime`.
- Rendering, translations (i18n) and the settings and save dialogs' open/close flags are left out, except for the alarm and world-clock dialogs.
- `parseInt` of text with a `0x` prefix (read in radix 16) is left out. `Js.ParseInt` skips leading white space, reads an optional sign and then decimal digits.
- The analog clock, the time context and the app shell are not part of this model.
- Pomodoro.FormatTimeReadsBack: read-back is proved only for counters from 0 to 99:59. Longer phases print more than two minute digits. Negative counters (a phase length typed as a negative number) are covered by `Pomodoro.FormatTimeOfNegative` instead, which gives their exact display.
- Pomodoro.TotalTimeParts: the display of a negative total work time is stated through its parts, not as a read-back; it arises when negative work lengths are saved.
- Pomodoro.PomodoroTimer.Tick: the counter bound (between 1 and the phase length) is promised only for positive settings. With a phase length typed as a negative number, the counter starts below 0 and the first tick completes the phase. A typed 0 does not arise, because `parseInt(...) || default` turns it into the default (`Pomodoro.FieldValueOfTyped`). A length of 0 could come only from saved settings, which are left out with the rest of `localStorage`.
- Stopwatch.FormatTimeReadsBack: read-back is proved only under 100 minutes, for the same reason. A negative time, which a clock set back during a run could produce, is outside the model: `ms` is a `nat`.
- Countdown.FormatDurationReadsBack: read-back is proved only under 100 hours. The input caps hours at 23, so presets stay well below that.
- Countdown.CountdownTimer.Start: starting while already running changes nothing in the model. The source would start a second interval, the re-entry left out above.

## Findings

| source | as written | input that shows it | evidently intended | confidence | as-written member | corrected member |
|---|---|---|---|---|---|---|
| src/components/timers/CountdownTimer.tsx:44-68 | when a run completes, the stopped-counter effect re-reads the counter from the input. During the run the mirror effect (lines 131-141) set the input to the last displayed value, 0:00:01. So the counter is 1 again, and the Start button stays enabled | type 2 in the seconds field, start, and let two ticks pass | the counter reads 0 when the run completes | medium, not executed | Countdown.TwoSecondRun (with Countdown.CountdownTimer.Tick) | Countdown.TwoSecondRunClearingInput (with Countdown.CountdownTimer.TickClearingInput) |

`Countdown.CountdownTimer.Tick` keeps the behaviour as written. `Countdown.CountdownTimer.TickClearingInput` is the corrected completion: it also clears the input, so the counter reaches 0.
