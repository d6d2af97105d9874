# Tea timer: control loop and display formatting

This project models the MicroPython tea timer: a rotary encoder sets a
duration, a push button confirms it, the device counts down on a 128 x 32
OLED, and then it rings. It proves properties of that model in Dafny.

The control loop exists in three sibling variants: `main.py`, `main2.py` and
`test.py`. Each is a class of its own:

- `TimerMain.Controller` models `main.py`. It has Pushbutton gesture
  callbacks, a `Delay_ms` inactivity timer and a 50 ms settle before the
  countdown. Its alarm clears the flags and switches a vibration motor and
  display inversion on and off.
- `TimerMain2.Controller` models `main2.py`. It adds an encoder resync after
  snapping. Its `setTime` loop has no suspension before its first pass. Its
  alarm assigns `button_list` rather than the gesture flags.
- `TimerTest.Controller` models `test.py`. A falling-edge interrupt with a
  50 ms debounce replaces the gesture library, and a last-activity timestamp
  compared against the clock replaces the timer object. Its alarm has no
  repetition bound.

Each controller keeps the state the scripts keep as globals:

- the encoder position;
- the four gesture flags (press, release, double, long) as an `array<int>`;
- `alarm_trg`;
- the inactivity timer, as `timerArmed` in main.py and main2.py, or as the
  timestamps and the clock in test.py.

Ghost fields record three traces:

- `rendered`: every argument passed to `showTime`;
- `triggers` or `sleeps`: the number of timer restarts or of `go_to_sleep`
  calls;
- `phases`: the completed `setTime`, `countDown` and `alarm` phases of the
  main loop.

The environment is a finite sequence of event batches, one batch per
suspension point (`await asyncio.sleep_ms`, `soundAlarm`, or `sleep_ms` in
test.py). A batch holds the gestures or button edges, the encoder moves, the
inactivity timeouts, and in test.py the passing of time, that happen during
that wait. Pure functions (`Gestures.StepAll`, `TimerTest.StepAll`) give the
meaning of a batch, and the `Await` methods are proved against them.

Every stage takes only as many batches as it needs and returns how many it
used. When the batches run out, a stage returns `None`. Every loop therefore
terminates on the remaining input, and `Run` is the main `while True` loop
up to the end of the input.

The shared module `TimerCore` holds the parts common to all three variants:

- the flag patterns;
- encoder clamping;
- snapping to multiples of 5;
- the countdown's rendered run `Descend`;
- the protocol predicate over the phase trace, which is the main loop's
  transition rule.

Module `Oled` models `oled.py`:

- `convertToString`, with both round trips against a parser of `MM:SS`;
- the character-to-glyph mapping of `numbersToBitmap`, where a glyph is named
  by its symbol;
- the placement arithmetic of `displayFont`, as a list of draw operations;
- `showTime` as their composition.

The module `Stages` holds the `setTime`, `countDown` and `alarm` loops of
main.py and main2.py as functions of the state at a loop test: `SetLoop`,
`CountLoop` and `AlarmLoop`. Each takes the batches `env` and the index `k`
of the next batch. It gives the stage's result, the state it leaves, the
index of the first batch it did not wait through, and every value it showed.
test.py has its own versions of these functions in `TimerTest`, because its
interrupt, its debounce and its clock differ. Each controller module adds:

- `SetTimeSpec`, `CountDownSpec` and `AlarmSpec`: the whole stage from its
  entry, that is, the entry code followed by the loop;
- `MainLoop`: the phases the `while True` loop completes from a point of the
  loop. Each stage starts at the batch where the previous one stopped, and
  the loop ends when a stage runs out of batches. In main2.py every stage is
  a task that is created and then awaited, so `SetTask`, `CountTask` and
  `AlarmTask` add one suspension before each stage.

The controller methods are proved to do exactly what these functions say,
batch for batch. `Run` is proved to record the phases `MainLoop` gives for
the whole environment.

Three behaviours of the scripts shape the model:

- `alarm()` returns `True` on every path, including when all 11 rings run out
  unacknowledged (main.py:145, main2.py:133, test.py:140). The model
  therefore records every alarm outcome as `true` (`AlarmsReportTrue`).
- `setTime` forces the encoder to the carried value when that value is
  positive and `alarm_trg` is false (main.py:83). Since an alarm only
  follows a countdown that ended at a value of 0 or less, `alarm_trg` never
  changes the decision (`TimerCore.AlarmTrgNeverDecides`).
- main.py has no encoder resync after snapping. While the encoder rests
  off the grid of 5, every pass of its `setTime` loop counts as a
  change and re-arms the inactivity timer
  (`TimerCore.OffGridReadingKeepsDiffering`, `TimerMain.Controller.Poll`).

## Model

| member | source | states |
|---|---|---|
| TimerCore.Clamp | main.py:12-22 | the bounded encoder keeps positions in [0, 5999]: in-range positions unchanged, those below go to 0, those above go to 5999 |
| TimerCore.Snap | main.py:96-103 | after an increase the value is a multiple of 5 in [r-4, r]; after a decrease a multiple of 5 in [r, r+4]; an unchanged reading keeps the current value, even one that is not a multiple of 5 |
| TimerCore.SnapIsNearestMultiple | main.py:96-103 | snapping down gives the greatest multiple of 5 not above the reading, snapping up the least one not below it |
| TimerCore.SnapIdempotent | main2.py:81-95 | reading the same position again after a snap yields the same value |
| TimerCore.OffGridReadingKeepsDiffering | main.py:96-104 | without a resync, a reading off the grid of 5 differs from the value snapped from it, and snapping it again yields that same value |
| TimerCore.SnapExamples | main.py:96-103 | dialling up to 37 shows 35; dialling down to 33 from 35 or from 40 shows 35 |
| TimerCore.SnapInRange | main.py:96-103 | a bounded reading and a carried value in [-1, 5995] snap to a set time in [0, 5995] |
| TimerCore.Descend | main.py:122-126 | the countdown's rendered run has n values, the i-th being from - i |
| TimerCore.DescendSnoc | main.py:123-126 | one more countdown step appends the next lower value |
| TimerCore.DescendNonNegative | main.py:123-126 | a countdown that stops at -1 at the latest never renders a negative value |
| TimerCore.DescendDisplayable | main.py:123-126 | a countdown from a set time of at most 5999 renders only values in [0, 5999] |
| TimerCore.ProtocolSnoc | main.py:157-161 | appending a phase that follows the last one keeps the phase trace well-sequenced |
| TimerCore.SettingFollowsCarried | main.py:157-161 | the setter phase entered with the carried value and alarm_trg follows the previous phase |
| TimerCore.AlarmTrgNeverDecides | main.py:83-85 | in every well-sequenced run the encoder is forced on entry exactly when the carried value is positive |
| TimerCore.AfterCounting | main.py:157-161 | after a countdown the alarm runs iff its result is <= 0; a positive (interrupted) result re-enters the setter with that value, forcing the encoder |
| TimerCore.RingingOnlyAfterExpiry | main.py:159-161 | an alarm phase is always directly preceded by a countdown ending at <= 0, whose result it carries |
| Gestures.Slot | main.py:40-43 | press, release, double and long write slots 0, 1, 2, 3, and each slot belongs to exactly one gesture |
| Gestures.StepIo | main.py:33-56 | a gesture writes 1 into its slot and nothing else; an encoder move clamps; a timeout on the armed timer clears all flags and re-arms it; a timeout on a stopped timer changes nothing |
| Gestures.StepAll | main.py:33-56 | a batch of events keeps four flags and never changes whether the timer is armed |
| Gestures.GesturesCoalesce | main.py:33-43 | with the timer stopped, a batch sets to 1 exactly the slots its gestures name, however often, and leaves every other slot as it was |
| Gestures.StepAllKeepsEncInRange | main.py:12-22 | encoder events keep the position in [0, 5999] |
| Gestures.StepAllKeepsBinary | main.py:33-43 | the flags only ever hold 0 or 1 |
| Gestures.TimeoutDiscardsEarlierGestures | main.py:46-56 | after go_to_sleep the flags depend only on what happened after the timeout |
| Stages.SetLoop | main.py:93-111 | setTime's loop from a loop test waits only through batches from index k on, and keeps four flags |
| Stages.EnterIo | main.py:82-90 | setTime's entry (main2.py:72-78 alike): the encoder becomes the carried value exactly when that value is positive and alarm_trg is false and is untouched otherwise; the flags end cleared and the timer armed |
| Stages.PollIo | main.py:95-108 | one pass before the render: the new value is Snap(reading, current); the timer is armed afterwards iff it was or the reading differs; the hold pattern resets the encoder to 0 and clears the flags, any other pattern is kept; without a resync (main.py) the encoder is untouched, with it (main2.py:81-100) it holds the new value |
| Stages.CountLoop | main.py:123-126 | countDown's loop from a loop test waits only through batches from index k on |
| Stages.StepFrom | main.py:135-143 | the suspensions of the remaining batches keep four flags and never change whether the timer is armed |
| Stages.AlarmLoop | main.py:135-144 | alarm's loop from a loop test waits only through batches from index k on |
| Stages.SetLoopShape | main.py:93-113 | setTime's loop stops only at a test that sees exactly [1,1,0,0], or, with None, once every batch is used; one value is shown per pass; the result is the last value shown (the carried value when no pass ran), which is the carried value or a multiple of 5 |
| Stages.CountLoopShape | main.py:123-127 | countDown stops at the first test that sees t < 0 or a flag set, or, with None, once every batch is used; the result is t minus the batches used, at least -1 for t >= 0, and t itself for t < 0; it shows at least once and at most t + 1 times; the timer state is unchanged |
| Stages.CountLoopShows | main.py:123-126 | countDown shows exactly t, t-1, ..., one value per pass |
| Stages.AlarmLoopShape | main.py:135-145 | alarm shows only 0, once per ring, at most 11 - alarm_time more rings, three batches each; it stops with True only after the eleventh ring or at a test that sees a flag set, and with None only once every batch is used |
| Stages.SetLoopInRange | main.py:93-111 | from a bounded encoder and a carried value in [-1, 5995], setTime's loop shows only displayable values, keeps the encoder bounded and returns a value that may be carried again |
| Stages.CountLoopKeepsEncInRange | main.py:123-126 | countDown keeps the encoder in [0, 5999] |
| Stages.StepFromKeepsEncInRange | main.py:135-143 | the remaining suspensions keep the encoder in [0, 5999] |
| Stages.AlarmLoopKeepsEncInRange | main.py:135-144 | alarm keeps the encoder in [0, 5999] |
| TimerMain.SetTimeSpec | main.py:80-113 | setTime, from its entry and its first suspension, through the loop; once the tap is seen it uses at least one batch and the timer is stopped |
| TimerMain.SetTimeSpecInRange | main.py:80-113 | from a bounded encoder and a carried value in [-1, 5995], setTime shows only displayable values, keeps the encoder bounded and returns a value that may be carried again |
| TimerMain.CountDownSpec | main.py:116-127 | countDown: the 50 ms settle, the flags cleared, then the loop from set_time; a result uses at least the settle's batch |
| TimerMain.AlarmSpec | main.py:130-145 | alarm: the flags cleared, then the loop from alarm_time = 0 |
| TimerMain.MainLoop | main.py:157-161 | the phases the `while True` loop completes from a point of the loop over the batches from k on; the phases completed before stay a prefix |
| TimerMain.MainShown | main.py:157-161 | the values showTime is given while the loop runs from a point over the batches from k on, in order, after those shown before, which stay a prefix |
| TimerMain.MainLoopSet | main.py:157-158 | the main loop at setTime goes on to countDown, from the batch where setTime stopped, with alarm_trg false and a Setting phase recorded; when setTime runs out of batches the loop ends |
| TimerMain.MainLoopCount | main.py:159-161 | the main loop at countDown records a Counting phase and goes on to setTime with a positive result and to alarm otherwise; when countDown runs out of batches the loop ends |
| TimerMain.MainLoopAlarm | main.py:160-161 | the main loop at alarm stores alarm's result in alarm_trg, records a Ringing phase and goes on to setTime with the countdown's result |
| TimerMain.MainShownSet | main.py:157-158 | the loop at setTime shows what setTime shows, then what the loop shows from countDown at the batch where setTime stopped; nothing more once setTime runs out of batches |
| TimerMain.MainShownCount | main.py:159-161 | the loop at countDown shows what countDown shows, then what the loop shows from setTime (a positive result) or alarm (otherwise) |
| TimerMain.MainShownAlarm | main.py:160-161 | the loop at alarm shows alarm's zeros, then what the loop shows from setTime with alarm_trg set to alarm's result |
| TimerMain.Controller.constructor | main.py:28-30 | the module's initial state: flags cleared, alarm_trg false, timer stopped, empty traces |
| TimerMain.Controller.ClearFlags | main.py:88 | btn_state becomes [0, 0, 0, 0] |
| TimerMain.Controller.ButtonMonitor | main.py:33-36 | writes the value into the given slot and leaves the other three unchanged |
| TimerMain.Controller.Trigger | main.py:90 | the timer is armed and one restart is counted |
| TimerMain.Controller.GoToSleep | main.py:46-56 | all four flags are reset and the timer is re-armed |
| TimerMain.Controller.ShowTime | main.py:110 | the argument is appended to the rendered trace |
| TimerMain.Controller.Deliver | main.py:33-56 | the effect of one event is exactly Gestures.StepIo's; a restart is counted only for a timeout on an armed timer |
| TimerMain.Controller.Await | main.py:91 | a suspension applies Gestures.StepAll to the state; with the timer stopped there are no restarts; the encoder stays in range |
| TimerMain.Controller.Enter | main.py:82-90 | the state becomes Stages.EnterIo of the old one: the encoder is forced to the carried value iff it is positive and alarm_trg is false; afterwards alarm_trg is false, the flags are cleared and the timer is armed |
| TimerMain.Controller.Poll | main.py:95-110 | the state and the new value are Stages.PollIo's: the new value is Snap(reading, current); the timer is re-armed iff the reading differs; the hold pattern [1,0,0,1] resets encoder and flags, otherwise neither changes; the value is rendered |
| TimerMain.Controller.SetTime | main.py:80-113 | does exactly what SetTimeSpec says for the batches from k on; returns only on flags exactly [1,1,0,0], after at least one batch, with the timer stopped and alarm_trg false; None only once every batch is used; the result is the last value shown (or the carried value), a multiple of 5 or the carried value, in [-1, 5995]; every value shown is displayable |
| TimerMain.Controller.Adjust | main.py:93-111 | setTime's loop does exactly what Stages.SetLoop says and renders what it shows |
| TimerMain.Controller.CountDown | main.py:116-127 | does exactly what CountDownSpec says; renders set_time, set_time-1, ..., one per batch; None only once every batch is used; for set_time >= 0 it renders at least once and returns a value in [-1, set_time-1]; a result >= 0 means a flag was set |
| TimerMain.Controller.Tick | main.py:123-126 | countDown's loop does exactly what Stages.CountLoop says and renders t, t-1, ... |
| TimerMain.Controller.Alarm | main.py:130-145 | does exactly what AlarmSpec says; clears the flags and rings at most 11 times, three batches per ring, rendering 0 each time; it returns true only once the eleventh ring is done or a flag is set, and None only once every batch is used; ends with motor off and display un-inverted |
| TimerMain.Controller.Rings | main.py:135-145 | alarm's loop does exactly what Stages.AlarmLoop says and renders what it shows; when it returns after ringing, motor and inversion are off |
| TimerMain.Controller.RingOnce | main.py:136-144 | one ring waits through the next three batches, or through all that remain when fewer are left; a complete ring ends with motor off and display un-inverted |
| TimerMain.Controller.SetPhase | main.py:158 | setTime from the batch k, as SetTimeSpec says; on a result phases == old(phases) + [Setting(...)] and the rest of the main loop continues from the batch where it stopped; on None every batch is used and the phases are what MainLoop gives; the values it renders are those MainShown gives for the same stretch of the loop |
| TimerMain.Controller.CountStage | main.py:159 | countDown as CountDownSpec says; on a result phases == old(phases) + [Counting(start, result)] and MainLoop continues at setTime or alarm from where it stopped; the values it renders are those MainShown gives for the same stretch of the loop |
| TimerMain.Controller.AlarmPhase | main.py:160-161 | alarm as AlarmSpec says, its result stored in alarm_trg and phases == old(phases) + [Ringing(...)]; MainLoop continues at setTime with the countdown's result; it renders exactly the zeros the alarm shows |
| TimerMain.Controller.CountPhase | main.py:159-161 | countDown, then alarm iff the result is <= 0; the main loop from countDown is the main loop from the next setTime at the batch where they stopped; phases stay well-sequenced; the values it renders are those MainShown gives for the same stretch of the loop |
| TimerMain.Controller.Pass | main.py:158-161 | one pass of the while loop; after a result it has used at least one batch and MainLoop from the pass's start is MainLoop from the next pass; None only once every batch is used; the values it renders are those MainShown gives for the same stretch of the loop |
| TimerMain.Controller.Loop | main.py:157-161 | the while loop records exactly the phases MainLoop gives for the whole environment, well-sequenced, with at most 11 rings per alarm and only true alarm outcomes; it appends to the rendered trace exactly what MainShown gives for the whole environment |
| TimerMain.Controller.Run | main.py:148-161 | renders 5999 first, then the phases are exactly MainLoop of the environment from set_time = 0: well-sequenced, at most 11 rings per alarm, only true alarm outcomes, and only values in [0, 5999] rendered; the rendered trace is exactly 5999 followed by what MainShown gives for the whole environment |
| TimerMain2.SetTimeSpec | main2.py:70-105 | setTime from its entry, with no suspension before the first loop test and the encoder resynced on every pass; once the tap is seen the timer is stopped |
| TimerMain2.SetTimeSpecInRange | main2.py:70-105 | from a bounded encoder and a carried value in [-1, 5995], setTime shows only displayable values, keeps the encoder bounded and returns a value that may be carried again |
| TimerMain2.CountDownSpec | main2.py:108-118 | countDown: the flags cleared at once, then the loop from set_time |
| TimerMain2.AlarmSpec | main2.py:121-133 | alarm leaves the gesture flags as they are and runs the loop from alarm_time = 0 |
| TimerMain2.SetTask | main2.py:146-147 | setTime as a task: one suspension before its first line; with no batch left the stage never runs; a result uses at least two batches |
| TimerMain2.CountTask | main2.py:148-149 | countDown as a task: one suspension before its first line; a result uses at least one batch |
| TimerMain2.AlarmTask | main2.py:150-152 | alarm as a task: one suspension before its first line; a result uses at least one batch |
| TimerMain2.MainLoop | main2.py:145-152 | the phases the `while True` loop of tasks completes from a point of the loop over the batches from k on; the phases completed before stay a prefix |
| TimerMain2.MainShown | main2.py:145-152 | the values showTime is given while the loop of tasks runs from a point over the batches from k on, in order, after those shown before |
| TimerMain2.MainLoopSet | main2.py:146-147 | the main loop at setTime goes on to countDown from the batch where the setTime task stopped, with alarm_trg false and a Setting phase recorded; it ends when setTime runs out of batches |
| TimerMain2.MainLoopCount | main2.py:148-151 | the main loop at countDown records a Counting phase and goes on to setTime with a positive result and to alarm otherwise |
| TimerMain2.MainLoopAlarm | main2.py:151-152 | the main loop at alarm stores the alarm task's result in alarm_trg, records a Ringing phase and goes on to setTime with the countdown's result |
| TimerMain2.MainShownSet | main2.py:146-147 | the loop at setTime shows what the setTime task shows, then what the loop shows from countDown at the batch where it stopped |
| TimerMain2.MainShownCount | main2.py:148-151 | the loop at countDown shows what the countDown task shows, then what the loop shows from setTime or alarm |
| TimerMain2.MainShownAlarm | main2.py:150-152 | the loop at alarm shows the alarm task's zeros, then what the loop shows from setTime |
| TimerMain2.Controller.constructor | main2.py:28-31 | flags cleared, timer stopped, empty traces |
| TimerMain2.Controller.ClearFlags | main2.py:77 | btn_state becomes [0, 0, 0, 0] |
| TimerMain2.Controller.ButtonMonitor | main2.py:34-37 | writes the value into the given slot and leaves the other three unchanged |
| TimerMain2.Controller.Trigger | main2.py:78 | the timer is armed and one restart is counted |
| TimerMain2.Controller.GoToSleep | main2.py:47-55 | all four flags are reset and the timer is re-armed |
| TimerMain2.Controller.ShowTime | main2.py:102 | the argument is appended to the rendered trace |
| TimerMain2.Controller.Deliver | main2.py:34-55 | the effect of one event is exactly Gestures.StepIo's |
| TimerMain2.Controller.Await | main2.py:103 | a suspension applies Gestures.StepAll to the state |
| TimerMain2.Controller.Enter | main2.py:72-78 | the state becomes Stages.EnterIo of the old one: the encoder is forced iff the carried value is positive and alarm_trg is false; alarm_trg false, flags cleared, timer armed afterwards |
| TimerMain2.Controller.Poll | main2.py:81-102 | the state and new value are Stages.PollIo's with the resync: new value Snap(reading, current), timer re-armed iff the reading differs; unless the hold pattern resets it, the encoder equals the new value afterwards |
| TimerMain2.Controller.SetTime | main2.py:70-105 | does exactly what SetTimeSpec says; the body runs before the first suspension, so one value is shown per batch used; returns only on [1,1,0,0] with the timer stopped; None only once every batch is used; the result is the last value shown, a multiple of 5 or the carried value, in [-1, 5995] |
| TimerMain2.Controller.Adjust | main2.py:79-103 | setTime's loop does exactly what Stages.SetLoop says with the resync, and renders what it shows |
| TimerMain2.Controller.CountDown | main2.py:108-118 | does exactly what CountDownSpec says; clears the flags without a settle and renders set_time, set_time-1, ... one per batch; result in [-1, set_time-1] for set_time >= 0; a result >= 0 means a flag was set; None only once every batch is used |
| TimerMain2.Controller.Tick | main2.py:114-117 | countDown's loop does exactly what Stages.CountLoop says and renders t, t-1, ... |
| TimerMain2.Controller.Alarm | main2.py:121-133 | does exactly what AlarmSpec says; assigns button_list, not the flags: with a flag already set it rings zero times, uses no batch and leaves the flags alone; otherwise at most 11 rings of three batches; returns true only after the eleventh ring or once a flag is set |
| TimerMain2.Controller.Rings | main2.py:125-132 | alarm's loop does exactly what Stages.AlarmLoop says and renders what it shows |
| TimerMain2.Controller.RingOnce | main2.py:127-132 | one ring waits through the next three batches, or through all that remain when fewer are left |
| TimerMain2.Controller.SetPhase | main2.py:146-147 | the setTime task from batch k, as SetTask says; on a result phases == old(phases) + [Setting(...)] and MainLoop continues from where it stopped; on None every batch is used; the values it renders are those MainShown gives for the same stretch of the loop |
| TimerMain2.Controller.CountStage | main2.py:148-149 | the countDown task as CountTask says; on a result phases == old(phases) + [Counting(start, result)] and MainLoop continues at setTime or alarm; the values it renders are those MainShown gives for the same stretch of the loop |
| TimerMain2.Controller.AlarmPhase | main2.py:150-152 | the alarm task as AlarmTask says, its result stored in alarm_trg and phases == old(phases) + [Ringing(...)]; MainLoop continues at setTime; it renders exactly the zeros the alarm shows |
| TimerMain2.Controller.CountPhase | main2.py:148-152 | countDown, then alarm iff the result is <= 0; the main loop from countDown is the main loop from the next setTime at the batch where they stopped; the values it renders are those MainShown gives for the same stretch of the loop |
| TimerMain2.Controller.Pass | main2.py:146-152 | one pass of the while loop; after a result it has used at least one batch and MainLoop from the pass's start is MainLoop from the next pass; None only once every batch is used; the values it renders are those MainShown gives for the same stretch of the loop |
| TimerMain2.Controller.Loop | main2.py:145-152 | the while loop records exactly the phases MainLoop gives for the whole environment, well-sequenced, with at most 11 rings per alarm and only true alarm outcomes; it appends to the rendered trace exactly what MainShown gives for the whole environment |
| TimerMain2.Controller.Run | main2.py:136-152 | after alarm_trg := False, showTime(5999) and r.set(0), the phases are exactly MainLoop of the environment from set_time = 0 with the encoder at 0: well-sequenced, at most 11 rings per alarm, only true outcomes, only values in [0, 5999] rendered; the rendered trace is exactly 5999 followed by what MainShown gives for the whole environment |
| TimerTest.StepIo | test.py:32-38 | an edge is accepted iff more than 50 ms passed since the last accepted one, setting the flags to [1,1,0,0] and recording the time; otherwise nothing changes |
| TimerTest.StepAll | test.py:32-38 | the clock never goes backwards |
| TimerTest.StepAllKeepsShape | test.py:32-38 | the interrupt alone keeps the flags at [0,0,0,0] or [1,1,0,0] |
| TimerTest.DebounceSpacing | test.py:32-38 | the last accepted edge time stays or moves forward by more than 50 ms, never past the clock |
| TimerTest.StepAllKeepsEncInRange | test.py:13-23 | encoder events keep the position in [0, 5999] |
| TimerTest.SetLoop | test.py:84-112 | setTime's loop from a loop test waits only through batches from index k on |
| TimerTest.EnterIo | test.py:77-83 | setTime's entry: the encoder is forced to the carried value exactly when it is positive and alarm_trg is false; the flags end cleared; the clock and the last edge time are untouched |
| TimerTest.PollIo | test.py:86-109 | one pass before the render: the new value is Snap(reading, current) and, unless the hold pattern resets it to 0 with the flags cleared, the encoder is resynced to it; the flags are kept or cleared; the clock is untouched; the activity time becomes the clock on a change, is otherwise the old one or the clock, and never lags the clock by more than 10000 ms afterwards |
| TimerTest.SetTimeSpec | test.py:74-114 | setTime from its entry, the activity timestamp taken from the clock; a result uses at least one batch |
| TimerTest.CountLoop | test.py:123-126 | countDown's loop from a loop test waits only through batches from index k on |
| TimerTest.CountDownSpec | test.py:117-127 | countDown: the flags cleared, then the loop from set_time |
| TimerTest.AlarmLoop | test.py:133-139 | alarm's loop from a loop test waits only through batches from index k on |
| TimerTest.StepFrom | test.py:134-139 | the waits of the batches still left in a ring never set the clock back |
| TimerTest.AlarmSpec | test.py:130-140 | alarm leaves the flags as they are and runs its loop |
| TimerTest.MainLoop | test.py:151-155 | the phases the `while True` loop completes from a point of the loop over the batches from k on; the phases completed before stay a prefix |
| TimerTest.MainShown | test.py:151-155 | the values showTime is given while the loop runs from a point over the batches from k on, in order, after those shown before |
| TimerTest.SetLoopShape | test.py:84-114 | setTime's loop stops only at a test that sees exactly [1,1,0,0], or, with None, once every batch is used; one value per pass; the result is the last value shown (the carried value when no pass ran), the carried value or a multiple of 5 |
| TimerTest.CountLoopShape | test.py:123-127 | countDown stops at the first test that sees t < 0 or the flags set, or, with None, once every batch is used; the result is t minus the batches used, at least -1 for t >= 0 |
| TimerTest.CountLoopShows | test.py:123-126 | countDown shows exactly t, t-1, ..., one value per pass |
| TimerTest.AlarmLoopShape | test.py:133-140 | with no bound, alarm stops with True only at a test that sees the flags set, three batches per ring shown as 0, and with None only once every batch is used |
| TimerTest.SetLoopInRange | test.py:84-112 | from a bounded encoder and a carried value in [-1, 5995], setTime's loop shows only displayable values, keeps the encoder bounded and returns a value that may be carried again |
| TimerTest.CountLoopKeepsEncInRange | test.py:123-126 | countDown keeps the encoder in [0, 5999] |
| TimerTest.MainLoopSet | test.py:151-152 | the main loop at setTime goes on to countDown from the batch where setTime stopped, with alarm_trg false and a Setting phase recorded |
| TimerTest.MainLoopCount | test.py:153-155 | the main loop at countDown records a Counting phase and goes on to setTime with a positive result and to alarm otherwise |
| TimerTest.MainLoopAlarm | test.py:154-155 | the main loop at alarm stores alarm's result in alarm_trg, records a Ringing phase and goes on to setTime |
| TimerTest.MainShownSet | test.py:151-152 | the loop at setTime shows what setTime shows, then what the loop shows from countDown |
| TimerTest.MainShownCount | test.py:153-155 | the loop at countDown shows what countDown shows, then what the loop shows from setTime or alarm |
| TimerTest.MainShownAlarm | test.py:154-155 | the loop at alarm shows alarm's zeros, then what the loop shows from setTime |
| TimerTest.Controller.constructor | test.py:26-29 | flags cleared, alarm_trg false, last_time 0 |
| TimerTest.Controller.SetFlags | test.py:82 | the flags become the given pattern |
| TimerTest.Controller.ButtonMonitor | test.py:32-38 | behaves exactly as TimerTest.StepIo on an edge |
| TimerTest.Controller.GoToSleep | test.py:53-59 | all four flags are reset |
| TimerTest.Controller.ShowTime | test.py:111 | the argument is appended to the rendered trace |
| TimerTest.Controller.Deliver | test.py:32-38 | the effect of one event is exactly TimerTest.StepIo's; the flags stay [0,0,0,0] or [1,1,0,0] |
| TimerTest.Controller.Await | test.py:112 | a wait applies TimerTest.StepAll to the state; the clock never runs behind the last accepted edge |
| TimerTest.Controller.Enter | test.py:77-82 | the state becomes TimerTest.EnterIo of the old one: the encoder is forced iff the carried value is positive and alarm_trg is false; alarm_trg false and flags cleared afterwards |
| TimerTest.Controller.Poll | test.py:86-111 | the state, new value and activity time are TimerTest.PollIo's: new value Snap(reading, current) and the encoder resynced to it; the hold branch is unreachable; go_to_sleep runs iff the reading is unchanged and more than 10000 ms passed since the last activity, which is refreshed on a change or after sleeping |
| TimerTest.Controller.SetTime | test.py:74-114 | does exactly what SetTimeSpec says; returns only on [1,1,0,0]; the body runs before the first wait and shows one value per wait; None only once every batch is used; the result is the last value shown, a multiple of 5 or the carried value, in [-1, 5995] |
| TimerTest.Controller.Adjust | test.py:84-112 | setTime's loop does exactly what TimerTest.SetLoop says and renders what it shows |
| TimerTest.Controller.CountDown | test.py:117-127 | does exactly what CountDownSpec says; renders set_time, set_time-1, ...; result in [-1, set_time-1] for set_time >= 0; a result >= 0 means the interrupt set the flags to [1,1,0,0] |
| TimerTest.Controller.Tick | test.py:123-126 | countDown's loop does exactly what TimerTest.CountLoop says and renders t, t-1, ... |
| TimerTest.Controller.Alarm | test.py:130-140 | does exactly what AlarmSpec says; no repetition bound: rings until the flags are set and then returns true with flags [1,1,0,0]; rings zero times, using no batch, if they already were |
| TimerTest.Controller.RingOnce | test.py:134-139 | one ring waits through the next three batches, or through all that remain when fewer are left |
| TimerTest.Controller.SetPhase | test.py:152 | setTime from batch k as SetTimeSpec says; on a result phases == old(phases) + [Setting(...)] and MainLoop continues from where it stopped; on None every batch is used; the values it renders are those MainShown gives for the same stretch of the loop |
| TimerTest.Controller.CountStage | test.py:153 | countDown as CountDownSpec says; on a result phases == old(phases) + [Counting(start, result)] and MainLoop continues at setTime or alarm; the values it renders are those MainShown gives for the same stretch of the loop |
| TimerTest.Controller.AlarmPhase | test.py:154-155 | alarm as AlarmSpec says, its result stored in alarm_trg and phases == old(phases) + [Ringing(...)]; MainLoop continues at setTime; it renders exactly the zeros the alarm shows |
| TimerTest.Controller.CountPhase | test.py:153-155 | countDown, then alarm iff the result is <= 0; the main loop from countDown is the main loop from the next setTime at the batch where they stopped; the values it renders are those MainShown gives for the same stretch of the loop |
| TimerTest.Controller.Pass | test.py:152-155 | one pass of the while loop; after a result it has used at least one batch and MainLoop from the pass's start is MainLoop from the next pass; the values it renders are those MainShown gives for the same stretch of the loop |
| TimerTest.Controller.Loop | test.py:151-155 | the while loop records exactly the phases MainLoop gives for the whole environment, well-sequenced, with only true alarm outcomes; it appends to the rendered trace exactly what MainShown gives for the whole environment |
| TimerTest.Controller.Run | test.py:143-155 | after showTime(5999) and r.set(0), the phases are exactly MainLoop of the environment from set_time = 0 with the encoder at 0: well-sequenced, only true alarm outcomes, only values in [0, 5999] rendered; the rendered trace is exactly 5999 followed by what MainShown gives for the whole environment |
| Oled.DigitChar | oled.py:53 | the character of a decimal digit, which reads back as that digit |
| Oled.DecValueLeadingZero | oled.py:53 | a leading zero does not change the number a digit string denotes |
| Oled.Decimal | oled.py:53 | str(n): a non-empty string of digits that denotes n, with no leading zero, a single digit exactly for n < 10 |
| Oled.Pad2 | oled.py:53 | "{:02d}": for n >= 0 at least two digits that denote n, exactly the tens and units for 0..99 and more for 100 and up; a minus sign and the digits for negatives |
| Oled.ConvertToString | oled.py:50-54 | for t >= 0 the minutes' digits, ':' and two digits of seconds, which denote t // 60 and t % 60; five characters exactly when t < 6000; a leading minus for t < 0 |
| Oled.ConvertToStringExamples | oled.py:50-54 | 95 gives "01:35", 0 "00:00", 5999 "99:59", and -1 "-1:59" by floor division |
| Oled.ConvertToStringShape | oled.py:51-54 | for 0 <= t <= 5999 the string has length 5, ':' at index 2, digits elsewhere, and 60·MM + SS = t |
| Oled.ClockRoundTrip | oled.py:51-54 | reading back the string of t in [0, 5999] gives t |
| Oled.ClockRoundTripBack | oled.py:51-54 | every well-formed "MM:SS" string with SS < 60 reads as a t in [0, 5999] whose string it is |
| Oled.Known | oled.py:59-108 | no more glyphs than characters, each glyph one of the font's eleven symbols |
| Oled.KnownAllInFont | oled.py:59-105 | a string of font characters gives exactly one glyph per character, in order |
| Oled.KnownSkipsUnknown | oled.py:106-107 | a character outside the font is skipped, not an error |
| Oled.KnownConcat | oled.py:59-108 | the glyphs of a concatenation are the glyphs of its parts, so output follows input order |
| Oled.NumbersToBitmap | oled.py:59-108 | its loop yields exactly the glyphs of the known characters in order |
| Oled.StartX | oled.py:39 | twice the first x plus 16 n is 128, so the division is exact |
| Oled.Placed | oled.py:38-47 | one blit per glyph, in order, glyph i being the i-th given, all at y = 8; when the run fits the 128 px width every glyph lies wholly on screen |
| Oled.PlacedSpacing | oled.py:41-46 | glyph j sits 16 (j - i) px right of glyph i: no gaps and no overlaps |
| Oled.Frame | oled.py:38-47 | two more operations than glyphs: a fill with 0 first, show last, and between them a blit of each glyph in order |
| Oled.FrameLayout | oled.py:38-47 | the frame is a fill, then glyph i at (x0 + 16 i, 8), then show; the run of glyphs is centred on the 128 px width |
| Oled.DisplayFont | oled.py:38-47 | the startX loop draws exactly that frame |
| Oled.ShowTime | oled.py:13-16 | for 0 <= t <= 5999 five glyphs spelling convertToString(t), the colon in the middle, at x = 24, 40, 56, 72, 88 and y = 8 |

## Left out

- Foreign libraries are not modelled: `RotaryIRQ` decoding, `Pushbutton` gesture classification, `Delay_ms` internals, and the `buzzer_music` song parsing and `tick()` loop, including its double tick. Their effects enter as environment events: clamped encoder positions, gesture slot writes, timeouts and button edges. A whole `soundAlarm` is one suspension point.
- The direction setting `reverse=True` in test.py is the encoder library's concern. Only the clamped position it reports is modelled.
- Hardware output is not modelled: `Pin`, `I2C`, `ssd1306`, `fillDisplay`, `invertDisplay`, `powerDisplay`, `lowpower.dormant_until_pin`. main.py's motor and inversion are kept only as two booleans. `Oled.Frame` records the draw operations but not the pixels.
- The glyph bitmap byte table in oled.py:63-105 is data. A glyph is named by the character it draws.
- The asyncio scheduler and real delays are not modelled. Interrupts and callbacks take effect only at suspension points: `await asyncio.sleep_ms`, `soundAlarm`, in test.py `sleep_ms`, and in main2.py the `create_task` and `await` that start each stage (main2.py:146-152). A hardware interrupt between two statements is not modelled.
- The inactivity timer of main.py and main2.py: a timeout is an event the environment chooses to deliver while the timer is armed. The ten-second deadline itself is not modelled; `triggers` counts the restarts instead.
- main.py's `go_to_sleep` runs as a callback task of `Delay_ms`; its `sleep(1)` and its `await asyncio.sleep_ms(0)` (main.py:52, 56) are folded into the timeout event, which clears the flags and re-arms the timer in one step.
- main2.py's `go_to_sleep` awaits 20 ms before clearing the flags. Events in that wait are folded into the same batch as the timeout.
- test.py's `go_to_sleep` sleeps 20 ms, and interrupts during that sleep are not modelled. The clock is not advanced there.
- The `ticks_ms` and `ticks_diff` wrap-around is not modelled. Time is an unbounded integer advanced by `Elapse` events.
- test.py calls `utime.ticks_ms()` without importing `utime` (test.py:35) and `ticks.ms()` (test.py:109), which do not exist. The model reads the clock as `ticks_ms()` would.
- test.py calls `.stop()` on an integer at test.py:113. That call is not modelled.
- The prints are not modelled. Of the startup screen only `showTime(5999)` is modelled, as the first rendered value; the blocking `sleep(3)` (main.py:152) and `sleep(10)` (main2.py:142, test.py:148) are left out, so no events are delivered during them.
- TimerMain2.Controller.Run and TimerTest.Controller.Run start the encoder at 0 after the startup screen's `r.set(0)`. The RotaryIRQ's `set` is modelled as storing the value given, without clamping.
- TimerMain.Controller.SetTime, TimerMain2.Controller.SetTime and TimerTest.Controller.SetTime: an encoder move delivered in the last suspension before the tap can leave the encoder different from the returned value. The contracts therefore do not state that the encoder holds the result.
