# Stopwatch state machine (MVVMSample) in Dafny

This project is a model of the stopwatch in MVVMSample, with proofs about it.

- **`model.dfy`, module `StopwatchModel`**: the `Stopwatch` record. It holds three growing timestamp sequences (`startTimes`, `stopTimes`, `lapTimes`) and a `name`, with the same defaults as the source.
- **`view_model.dfy`, module `StopwatchViewModel`**: the view model's timing logic.
  - `runningState` is the function `StateOf`. Its three cases are empty, stop and running.
  - The two button handlers are `PrimaryTap` (`rightBtnTapped`) and `SecondaryTap` (`leftBtnTapped`). Each is a function from record to record.
  - The split and lap durations are the functions `SplitTime` and `LapTime`.
  - The class `ViewModel` holds the record and the published strings. It also has a boolean `timerActive` that stands for the scheduled ticker. Its methods change these fields in place, as the source's methods do. The object invariant `Valid()` has three parts:
    - the record is balanced: `|stopTimes| <= |startTimes| <= |stopTimes| + 1`, and there are no laps without a start;
    - the button titles match the running state;
    - the flag `timerActive` is set exactly when the stopwatch is running.
  - `CulcSplitTime` sums the completed start/stop pairs in a `for` loop, as the source does. Its result is proved equal to `SplitTime`.
- **`utility.dfy`, module `Utility`**: the pure helpers of the source's `Utility` namespace and `Array` extension.
  - The `safe:` subscript getter and setter.
  - `stringSlice`, `insertCharacter` and `removeCharacter`.
  - `makeCSVString`, a method with the source's nested loops. It is tied to the function `CsvOf`, and then to an independent definition of the CSV text, `CsvLines`.
  - `secToTime`.

Representation choices:

- A `Date` is an integer number of milliseconds. A duration (`timeIntervalSince`) is the integer difference of two dates. The source uses `Double` seconds.
- Reading the clock (`Date()`) is replaced by a `now` parameter of each button method and of `Update`.
- The duration-to-string step (`Utility.getTimeStringFromSeconds`) is a function parameter `format` of `Update`. The model does not interpret it.
- `String(lapTimes.count)` is `DecimalString`. Its inverse, `DecimalValue`, reads it back.
- Swift's `/` on `Int` rounds toward zero. `Utility.Quot` models that, so `SecToTime` is exact for negative durations too.

Two points of the code's behaviour that the model keeps:

- The handlers (ViewModel.swift:29-51) never call `update()`. So `LeftBtnTapped` and `RightBtnTapped` leave `splitTime`, `lapTime` and `lapNumber` as they were, and only `Update` (one tick) changes them.
- `startTimer` (ViewModel.swift:91-95) does not invalidate an earlier timer. See "Left out".

## Model

| member | source | states |
|---|---|---|
| StopwatchModel.NewStopwatch | MVVMSample/Model.swift:10-15 | a fresh record has empty start, stop and lap sequences and the name "Name" |
| StopwatchViewModel.StateOf | MVVMSample/ViewModel.swift:55-59 | empty iff there are no starts; stop iff there are starts and as many stops; running iff there are starts and the counts differ |
| StopwatchViewModel.RunningIsOneUnmatchedStart | MVVMSample/ViewModel.swift:55-59 | on a balanced record, running holds iff there is exactly one more start than stops; empty implies no stops and no laps |
| StopwatchViewModel.PrimaryTap | MVVMSample/ViewModel.swift:41-48 | when empty or stopped it appends `now` to the starts only; when running it appends `now` to the stops only; laps and name are unchanged; balance is kept; running and stopped swap, and empty becomes running |
| StopwatchViewModel.SecondaryTap | MVVMSample/ViewModel.swift:29-36 | when empty or stopped all three sequences become empty, whatever the lap count; when running `now` is appended to the laps only; the name is unchanged; balance is kept; the state afterwards is running or empty |
| StopwatchViewModel.ReplayKeepsBalance | MVVMSample/ViewModel.swift:29-51 | any sequence of presses keeps a balanced record balanced and keeps its name |
| StopwatchViewModel.ReachableIsBalanced | MVVMSample/ViewModel.swift:29-51 | from a fresh record, every sequence of presses gives stop count <= start count <= stop count + 1, laps only with starts (so the unwrap of the last start at line 126 is safe), and name "Name" |
| StopwatchViewModel.AppendStartKeepsRuns | MVVMSample/ViewModel.swift:44-45 | a start appended at a time no earlier than the last start and the last stop keeps every start no earlier than the first, every stop no earlier than its start and every resume no earlier than the stop before it |
| StopwatchViewModel.StopTapKeepsChronology | MVVMSample/ViewModel.swift:46-47 | a STOP press timed at or after every earlier event keeps the record chronological |
| StopwatchViewModel.StartTapKeepsChronology | MVVMSample/ViewModel.swift:44-45 | a START press timed at or after every earlier event keeps the record chronological |
| StopwatchViewModel.SecondaryKeepsChronology | MVVMSample/ViewModel.swift:29-36 | a LAP press keeps the laps in non-decreasing order, and a RESET gives an empty record: both stay chronological |
| StopwatchViewModel.TapKeepsChronology | MVVMSample/ViewModel.swift:29-51 | a press timed at or after every earlier event keeps the record chronological: starts and stops alternate in time, laps are in non-decreasing order and not before the first start, and every event is at or before the press |
| StopwatchViewModel.ReplayKeepsChronology | MVVMSample/ViewModel.swift:29-51 | presses at non-decreasing times keep a chronological record chronological, up to the time of the last press |
| StopwatchViewModel.PairedSumPrefix | MVVMSample/ViewModel.swift:104-107 | appending to the start and stop sequences does not change the sum over the earlier pairs |
| StopwatchViewModel.SplitFrozenWhileStopped | MVVMSample/ViewModel.swift:101-118 | when not running the split does not depend on the time asked, and it equals the sum of `stop[i]-start[i]` over all pairs |
| StopwatchViewModel.SplitAdvancesWhileRunning | MVVMSample/ViewModel.swift:108-114 | while running, from the last start on, the split grows by exactly the time elapsed; before the first stop, earlier times give the clamped value 0 |
| StopwatchViewModel.StopKeepsSplit | MVVMSample/ViewModel.swift:101-118 | stopping at `t` freezes the split at the value it had at `t`, for every later time |
| StopwatchViewModel.ResumeContinuesSplit | MVVMSample/ViewModel.swift:101-118 | resuming at `t` gives, at any later time, the split at `t` plus the time since the resume: paused time is not counted and the split is not reset |
| StopwatchViewModel.PairedSumBounds | MVVMSample/ViewModel.swift:104-107 | over chronological pairs the sum of the first `n` segments is between 0 and the `n`-th stop minus the first start |
| StopwatchViewModel.SplitBounds | MVVMSample/ViewModel.swift:101-118 | in a chronological record the split is at least 0 and at most the wall time since the first start |
| StopwatchViewModel.LapFrozenWhileStopped | MVVMSample/ViewModel.swift:122-125 | when not running the lap time does not depend on the time asked |
| StopwatchViewModel.StopKeepsLap | MVVMSample/ViewModel.swift:122-130 | stopping at `t` freezes the lap time at the value it had at `t`, for every later time: with laps it is measured up to the last stop |
| StopwatchViewModel.LapCountsFromLapMark | MVVMSample/ViewModel.swift:126-130 | after a lap recorded at `t` while running, the lap time at any later time is the time since `t` |
| StopwatchViewModel.LapRestartsOnResume | MVVMSample/ViewModel.swift:126-127 | a resume strictly after the last lap restarts the lap clock at the resume, not at the stale lap mark |
| StopwatchViewModel.LapWithinSplit | MVVMSample/ViewModel.swift:120-134 | in a chronological record the lap time is between 0 and the split time |
| StopwatchViewModel.DecimalString | MVVMSample/ViewModel.swift:151-153 | the lap count is written as a non-empty string of decimal digits with no leading zero |
| StopwatchViewModel.DecimalRoundTrip | MVVMSample/ViewModel.swift:152 | reading the decimal string of `n` back gives `n` |
| StopwatchViewModel.ViewModel.constructor | MVVMSample/ViewModel.swift:17-26 | the initial published values are "00:00:00", "00:00:00", "0", "Name", RESET and START; the record is fresh and the ticker is off |
| StopwatchViewModel.ViewModel.LeftBtnTapped | MVVMSample/ViewModel.swift:29-39 | the record becomes `SecondaryTap(old record, now)`; the titles are LAP/STOP and the ticker on when running, RESET/START and the ticker off otherwise; the invariant is kept; the displayed times and the lap count are not touched |
| StopwatchViewModel.ViewModel.RightBtnTapped | MVVMSample/ViewModel.swift:41-51 | the record becomes `PrimaryTap(old record, now)`; titles and ticker follow the new state as above; the invariant is kept |
| StopwatchViewModel.ViewModel.ResetTime | MVVMSample/ViewModel.swift:61-65 | the three sequences become empty and the name is kept; no other field changes |
| StopwatchViewModel.ViewModel.ResetName | MVVMSample/ViewModel.swift:67-69 | only the record's name changes, to "Name" |
| StopwatchViewModel.ViewModel.JudgeBtnTitle | MVVMSample/ViewModel.swift:71-80 | START/RESET when empty or stopped, STOP/LAP when running; only the two titles change |
| StopwatchViewModel.ViewModel.JudgeTimerState | MVVMSample/ViewModel.swift:82-89 | the ticker flag is on exactly when running; only the flag changes |
| StopwatchViewModel.ViewModel.StartTimer | MVVMSample/ViewModel.swift:91-95 | the ticker flag is on |
| StopwatchViewModel.ViewModel.StopTimer | MVVMSample/ViewModel.swift:97-99 | the ticker flag is off |
| StopwatchViewModel.ViewModel.CulcSplitTime | MVVMSample/ViewModel.swift:101-118 | the loop over the completed pairs returns `SplitTime(model, time)`, whose properties are the split lemmas above |
| StopwatchViewModel.ViewModel.CulcLapTime | MVVMSample/ViewModel.swift:120-134 | returns `LapTime(model, time)`: the split when there are no laps; otherwise measured up to the last stop when stopped, from the last start if it is strictly after the last lap, else from the last lap |
| StopwatchViewModel.ViewModel.Update | MVVMSample/ViewModel.swift:136-141 | one tick publishes the formatted split, the formatted lap time and the decimal lap count; no other field changes and the invariant is kept |
| StopwatchViewModel.ViewModel.UpdateSplit | MVVMSample/ViewModel.swift:143-145 | the split string is the formatted split time |
| StopwatchViewModel.ViewModel.UpdateLap | MVVMSample/ViewModel.swift:147-149 | the lap string is the formatted lap time |
| StopwatchViewModel.ViewModel.UpdateLapNumber | MVVMSample/ViewModel.swift:151-153 | the lap number string is the decimal count of laps and reads back as that count |
| Utility.SafeGet | MVVMSample/Utility.swift:13-16 | returns the element at `index` iff `index` is a valid index, and nothing otherwise |
| Utility.SafeSet | MVVMSample/Utility.swift:17-23 | writes the new value at `index` only when the index is valid and a value is given; every other element is unchanged, and otherwise the whole array is unchanged |
| Utility.StringSlice | MVVMSample/Utility.swift:169-175 | nothing iff either index is at or past the end; otherwise the characters from start to end inclusive, `end-start+1` of them |
| Utility.InsertCharacter | MVVMSample/Utility.swift:681-686 | the text unchanged when `index < 0` or `index > count`; otherwise one character longer, with the element at `index` and the prefix and suffix kept |
| Utility.RemoveCharacter | MVVMSample/Utility.swift:688-693 | the text unchanged when `index < 0` or `index >= count`; otherwise exactly the character at `index` is dropped |
| Utility.RemoveAfterInsert | MVVMSample/Utility.swift:681-693 | for every index, removing at the index just inserted at gives back the original text |
| Utility.InsertAfterRemove | MVVMSample/Utility.swift:681-693 | putting back the removed character at a valid index gives back the original text |
| Utility.MakeCSVString | MVVMSample/Utility.swift:653-665 | the nested loops build exactly `CsvOf(rows)`: each value quoted and followed by a comma, the last character dropped, then a newline |
| Utility.QuotedFieldsJoin | MVVMSample/Utility.swift:656-658 | the values a non-empty row appends are its quoted values joined by commas, plus one trailing comma |
| Utility.CsvOfNonEmptyRows | MVVMSample/Utility.swift:653-665 | when every row has a value, the text is each row's quoted values separated by commas and followed by a newline |
| Utility.EmptyRowAddsNothing | MVVMSample/Utility.swift:659-662 | an empty row after earlier output removes the previous newline and adds it back, so it adds nothing; an empty row alone gives one newline |
| Utility.Quot | MVVMSample/Utility.swift:866-870 | Swift integer division: rounds toward zero, so the remainder has the sign of the dividend and is smaller than the divisor |
| Utility.SecToTime | MVVMSample/Utility.swift:864-872 | `hour*3600 + min*60 + sec == duration`, with a missing part read as 0. For `duration >= 0`: `0 <= sec < 60`, `0 <= min < 60`, hour is missing iff `duration < 3600`, minutes are missing iff the minute component is 0. Negative durations give non-positive parts. |

## Left out

- MVVMSample/ViewController.swift is not part of this model. It holds view layout, subscriptions to the published values and button wiring, and its own `startTimes`/`stopTimes` fields are never used.
- Timer scheduling (ViewModel.swift:91-99) is only a boolean flag. The repeated firing every 0.08 s is a caller calling `Update` once per tick.
- `startTimer` does not invalidate an earlier timer, so each LAP press schedules one more ticker that keeps firing. The flag cannot show this, and the model makes no claim that only one ticker exists.
- The `@Published` publish/subscribe machinery is left out. Published values are plain fields.
- The published `name` is initialised and never written, as in the source. `resetName` writes only the record's name.
- `getTimeStringFromSeconds` and `getTimeStringFromSecondsDisplayInSeconds` are the `format` parameter of `Update`. They rest on Foundation's `DateComponentsFormatter` and on `Double` arithmetic (`truncatingRemainder`, `floor`).
- Durations are exact integer milliseconds, not `Double` seconds. Floating-point rounding is not modelled.
- Reading the clock is a parameter. Nothing makes successive presses carry non-decreasing times. The chronology lemmas take that as a hypothesis.
- Swift `String` counts grapheme clusters. The model counts `char`s of `seq<char>`.
- Swift arrays have value semantics. `SafeSet` works on a Dafny `array`, which is a reference.
- `StringSlice` requires `0 <= startIndex <= endIndex` when both indices are below the count. Swift traps on a negative offset or a reversed range, so callers must avoid those inputs.
- The other Utility members are not modelled. They are UIKit, CoreAnimation and AudioToolbox helpers, float and geometry helpers, shadow, gradient and animation builders, file, JSON and CSV I/O, sharing, `Calendar`/`DateFormatter` helpers (`calcWeekDay`, `makeDateString`, `createID()`), the random `createID(length:)`, and the parser wrappers `intMaker`, `doubleMaker`, `stringMaker`.
