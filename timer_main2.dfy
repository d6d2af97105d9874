/** The control loop of main2.py. It differs from main.py in five places:
    each stage runs as a task that the main loop creates and awaits, which
    adds one suspension before the stage's first line (main2.py:146-152);
    setTime has no suspension of its own before its loop and forces the
    encoder back to the snapped value on every pass (main2.py:94-95);
    countDown clears the flags without a settle delay; alarm resets
    `button_list` instead of the gesture flags (main2.py:123) and has no
    motor or inversion; main() clears alarm_trg and zeroes the encoder
    first (main2.py:138, 143). */
module TimerMain2 {
  import opened TimerCore
  import opened Gestures
  import opened Stages

  /** setTime as a function of the state at entry (main2.py:70-105): the
      entry, then setTime's loop with the encoder forced to the snapped value
      on every pass; there is no suspension before the first loop test. The
      timer is stopped once the tap is seen. */
  ghost function SetTimeSpec(io: Io, alarmTrg: bool, currentValue: int, env: seq<Batch>, k: nat): (o: Outcome<int, Io>)
    requires |io.flags| == 4 && k <= |env|
    ensures |o.state.flags| == 4 && k <= o.used <= |env|
    ensures o.result.Some? ==> o.used > k && !o.state.armed
  {
    var o := SetLoop(EnterIo(io, alarmTrg, currentValue), currentValue, env, k, [], true);
    Outcome(o.result, if o.result.Some? then o.state.(armed := false) else o.state, o.used, o.shown)
  }

  /** From a bounded encoder and a value the loop may carry, setTime shows
      only displayable values, keeps the encoder bounded and returns a value
      the loop may carry again. */
  lemma SetTimeSpecInRange(io: Io, alarmTrg: bool, currentValue: int, env: seq<Batch>, k: nat)
    requires |io.flags| == 4 && k <= |env| && EncInRange(io.enc) && Settled(currentValue)
    ensures var o := SetTimeSpec(io, alarmTrg, currentValue, env, k);
      EncInRange(o.state.enc) && Displayable(o.shown) && (o.result.Some? ==> Settled(o.result.value))
  {
    SetLoopInRange(EnterIo(io, alarmTrg, currentValue), currentValue, env, k, [], true);
  }

  /** countDown as a function of the state at entry (main2.py:108-118): the
      flags cleared at once, then the loop from set_time. */
  ghost function CountDownSpec(io: Io, setTime: int, env: seq<Batch>, k: nat): (o: Outcome<int, Io>)
    requires |io.flags| == 4 && k <= |env|
    ensures |o.state.flags| == 4 && k <= o.used <= |env|
  {
    CountLoop(io.(flags := Cleared), setTime, env, k, [])
  }

  /** alarm as a function of the state at entry (main2.py:121-133): it
      leaves the gesture flags as they are and runs the loop from
      alarm_time = 0. */
  ghost function AlarmSpec(io: Io, env: seq<Batch>, k: nat): (o: Outcome<bool, Io>)
    requires |io.flags| == 4 && k <= |env|
    ensures |o.state.flags| == 4 && k <= o.used <= |env|
  {
    AlarmLoop(io, 0, env, k, [])
  }

  /** A stage run as a task (main2.py:146-152): asyncio.create_task followed
      by an await lets the event loop run before the stage's first line, one
      suspension, after which the stage sees the remaining batches. With no
      batch left the stage never starts. */
  ghost function SetTask(io: Io, alarmTrg: bool, currentValue: int, env: seq<Batch>, k: nat): (o: Outcome<int, Io>)
    requires |io.flags| == 4 && k <= |env|
    ensures |o.state.flags| == 4 && k <= o.used <= |env|
    ensures o.result.Some? ==> o.used > k + 1 && !o.state.armed
  {
    if k == |env| then Outcome(None, io, k, [])
    else SetTimeSpec(StepAll(io, env[k]), alarmTrg, currentValue, env, k + 1)
  }

  ghost function CountTask(io: Io, setTime: int, env: seq<Batch>, k: nat): (o: Outcome<int, Io>)
    requires |io.flags| == 4 && k <= |env|
    ensures |o.state.flags| == 4 && k <= o.used <= |env|
    ensures o.result.Some? ==> o.used > k
  {
    if k == |env| then Outcome(None, io, k, [])
    else CountDownSpec(StepAll(io, env[k]), setTime, env, k + 1)
  }

  ghost function AlarmTask(io: Io, env: seq<Batch>, k: nat): (o: Outcome<bool, Io>)
    requires |io.flags| == 4 && k <= |env|
    ensures |o.state.flags| == 4 && k <= o.used <= |env|
    ensures o.result.Some? ==> o.used > k
  {
    if k == |env| then Outcome(None, io, k, [])
    else AlarmSpec(StepAll(io, env[k]), env, k + 1)
  }

  /** The phases main's `while True` (main2.py:145-152) completes from point `at`
      of the loop, with the state io and alarm_trg and the batches from index
      k on; `acc` holds the phases completed before. Each of the setTime, countDown and alarm tasks sees the
      batches from where the previous one stopped; alarm's result becomes
      alarm_trg, and the loop ends when a stage runs out of batches. */
  ghost function MainLoop(io: Io, alarmTrg: bool, at: Point, env: seq<Batch>, k: nat, acc: seq<Phase>): (r: seq<Phase>)
    requires |io.flags| == 4 && k <= |env|
    ensures acc <= r
    decreases |env| - k, Rank(at)
  {
    match at
    case AtSet(setTime) =>
      var s := SetTask(io, alarmTrg, setTime, env, k);
      if s.result.None? then acc
      else MainLoop(s.state, false, AtCount(s.result.value), env, s.used,
                    acc + [Setting(setTime, setTime > 0 && !alarmTrg, s.result.value)])
    case AtCount(start) =>
      var d := CountTask(io, start, env, k);
      if d.result.None? then acc
      else
        var r := d.result.value;
        MainLoop(d.state, alarmTrg, if r > 0 then AtSet(r) else AtAlarm(r), env, d.used, acc + [Counting(start, r)])
    case AtAlarm(after) =>
      var a := AlarmTask(io, env, k);
      if a.result.None? then acc
      else MainLoop(a.state, a.result.value, AtSet(after), env, a.used,
                    acc + [Ringing(after, |a.shown|, a.result.value)])
  }

  /** The loop at setTime: the phases of the loop from where setTime
      returned, or, when it ran out of batches, those completed before. */
  lemma MainLoopSet(io: Io, alarmTrg: bool, setTime: int, env: seq<Batch>, k: nat, acc: seq<Phase>)
    requires |io.flags| == 4 && k <= |env|
    ensures var s := SetTask(io, alarmTrg, setTime, env, k);
      MainLoop(io, alarmTrg, AtSet(setTime), env, k, acc) ==
        if s.result.None? then acc
        else MainLoop(s.state, false, AtCount(s.result.value), env, s.used,
                      acc + [Setting(setTime, setTime > 0 && !alarmTrg, s.result.value)])
  {
  }

  /** The loop at countDown: it goes on to setTime with a positive result
      and to alarm otherwise. */
  lemma MainLoopCount(io: Io, alarmTrg: bool, start: int, env: seq<Batch>, k: nat, acc: seq<Phase>)
    requires |io.flags| == 4 && k <= |env|
    ensures var d := CountTask(io, start, env, k);
      MainLoop(io, alarmTrg, AtCount(start), env, k, acc) ==
        if d.result.None? then acc
        else MainLoop(d.state, alarmTrg, if d.result.value > 0 then AtSet(d.result.value) else AtAlarm(d.result.value),
                      env, d.used, acc + [Counting(start, d.result.value)])
  {
  }

  /** The loop at alarm: it goes on to setTime with the countdown's result,
      alarm's result stored in alarm_trg. */
  lemma MainLoopAlarm(io: Io, alarmTrg: bool, after: int, env: seq<Batch>, k: nat, acc: seq<Phase>)
    requires |io.flags| == 4 && k <= |env|
    ensures var a := AlarmTask(io, env, k);
      MainLoop(io, alarmTrg, AtAlarm(after), env, k, acc) ==
        if a.result.None? then acc
        else MainLoop(a.state, a.result.value, AtSet(after), env, a.used,
                      acc + [Ringing(after, |a.shown|, a.result.value)])
  {
  }

  /** The values showTime is given while main's `while True` runs from
      point `at`, appended to `seen`: what each stage shows, in order, up to
      and including the stage that runs out of batches. */
  ghost function MainShown(io: Io, alarmTrg: bool, at: Point, env: seq<Batch>, k: nat, seen: seq<int>): (r: seq<int>)
    requires |io.flags| == 4 && k <= |env|
    ensures seen <= r
    decreases |env| - k, Rank(at)
  {
    match at
    case AtSet(setTime) =>
      var s := SetTask(io, alarmTrg, setTime, env, k);
      if s.result.None? then seen + s.shown
      else MainShown(s.state, false, AtCount(s.result.value), env, s.used, seen + s.shown)
    case AtCount(start) =>
      var d := CountTask(io, start, env, k);
      if d.result.None? then seen + d.shown
      else
        var r := d.result.value;
        MainShown(d.state, alarmTrg, if r > 0 then AtSet(r) else AtAlarm(r), env, d.used, seen + d.shown)
    case AtAlarm(after) =>
      var a := AlarmTask(io, env, k);
      if a.result.None? then seen + a.shown
      else MainShown(a.state, a.result.value, AtSet(after), env, a.used, seen + a.shown)
  }

  /** What the loop shows from setTime: what setTime shows, then what the
      loop shows from where setTime returned. */
  lemma MainShownSet(io: Io, alarmTrg: bool, setTime: int, env: seq<Batch>, k: nat, seen: seq<int>)
    requires |io.flags| == 4 && k <= |env|
    ensures var s := SetTask(io, alarmTrg, setTime, env, k);
      MainShown(io, alarmTrg, AtSet(setTime), env, k, seen) ==
        if s.result.None? then seen + s.shown
        else MainShown(s.state, false, AtCount(s.result.value), env, s.used, seen + s.shown)
  {
  }

  /** What the loop shows from countDown: what countDown shows, then what
      the loop shows from setTime or alarm. */
  lemma MainShownCount(io: Io, alarmTrg: bool, start: int, env: seq<Batch>, k: nat, seen: seq<int>)
    requires |io.flags| == 4 && k <= |env|
    ensures var d := CountTask(io, start, env, k);
      MainShown(io, alarmTrg, AtCount(start), env, k, seen) ==
        if d.result.None? then seen + d.shown
        else MainShown(d.state, alarmTrg, if d.result.value > 0 then AtSet(d.result.value) else AtAlarm(d.result.value),
                       env, d.used, seen + d.shown)
  {
  }

  /** What the loop shows from alarm: the rings' zeros, then what the loop
      shows from setTime. */
  lemma MainShownAlarm(io: Io, alarmTrg: bool, after: int, env: seq<Batch>, k: nat, seen: seq<int>)
    requires |io.flags| == 4 && k <= |env|
    ensures var a := AlarmTask(io, env, k);
      MainShown(io, alarmTrg, AtAlarm(after), env, k, seen) ==
        if a.result.None? then seen + a.shown
        else MainShown(a.state, a.result.value, AtSet(after), env, a.used, seen + a.shown)
  {
  }

  class Controller {
    /** Encoder position (RotaryIRQ value). */
    var enc: int
    /** btn_state: press, release, double, long. */
    var flags: array<int>
    var alarmTrg: bool
    /** Whether the inactivity timer (Delay_ms, 10 s) is running. */
    var timerArmed: bool
    /** The global `button_list` that alarm() assigns and nothing reads. */
    var buttonList: seq<int>
    /** Every argument passed to showTime, in order. */
    ghost var rendered: seq<int>
    /** Number of trigger() calls; each one restarts the 10 s deadline. */
    ghost var triggers: nat
    /** Completed phases of the main loop. */
    ghost var phases: seq<Phase>

    ghost predicate Valid()
      reads this
    {
      flags.Length == 4
    }

    ghost function IoState(): Io
      reads this, flags
    {
      Io(enc, flags[..], timerArmed)
    }

    /** The module-level state when main() starts (main2.py:12-31, 58);
        alarm_trg is only declared there, main() assigns it. */
    ghost predicate Initial()
      reads this, flags
    {
      Valid() && EncInRange(enc) && flags[..] == Cleared && !timerArmed &&
      rendered == [] && phases == []
    }

    constructor ()
      ensures Initial() && fresh(flags)
      ensures buttonList == [] && triggers == 0
    {
      enc := 0;
      flags := new int[4](_ => 0);
      alarmTrg := false;
      timerArmed := false;
      buttonList := [];
      rendered, triggers, phases := [], 0, [];
      new;
      assert flags[..] == Cleared;
    }

    /** btn_state = [0, 0, 0, 0]; the list is never aliased, so rebinding it
        and clearing it in place are the same. */
    method ClearFlags()
      requires Valid()
      modifies flags
      ensures flags[..] == Cleared
    {
      flags[0] := 0;
      flags[1] := 0;
      flags[2] := 0;
      flags[3] := 0;
    }

    /** buttonMonitor (main2.py:34-37): writes one slot, leaves the others. */
    method ButtonMonitor(newValue: int, index: int)
      requires Valid() && 0 <= index < 4
      modifies flags
      ensures flags[..] == old(flags[..])[index := newValue]
      ensures forall j :: 0 <= j < 4 && j != index ==> flags[j] == old(flags[j])
    {
      flags[index] := newValue;
    }

    /** sleep_timer.trigger(): (re)starts the 10 s deadline. */
    method Trigger()
      modifies this`timerArmed, this`triggers
      ensures timerArmed && triggers == old(triggers) + 1
    {
      timerArmed := true;
      triggers := triggers + 1;
    }

    /** go_to_sleep (main2.py:47-55), flag and timer effects only: the timer
        is stopped, the display blanked, the device sleeps until the button
        pin changes, the flags are reset and the timer is re-armed. */
    method GoToSleep()
      requires Valid()
      modifies this`timerArmed, this`triggers, flags
      ensures flags[..] == Cleared && timerArmed && triggers == old(triggers) + 1
    {
      timerArmed := false;
      ClearFlags();
      Trigger();
    }

    /** showTime(v): the pixels are Oled.ShowTime's business; here only the
        argument is recorded. */
    method ShowTime(v: int)
      modifies this`rendered
      ensures rendered == old(rendered) + [v]
    {
      rendered := rendered + [v];
    }

    /** One environment event at a suspension point. */
    method Deliver(e: Event)
      requires Valid()
      modifies this`enc, this`timerArmed, this`triggers, flags
      ensures IoState() == StepIo(old(IoState()), e)
      ensures triggers == old(triggers) + (if e.Timeout? && old(timerArmed) then 1 else 0)
    {
      match e
      case Gesture(g) => ButtonMonitor(1, Slot(g));
      case Turn(p) => enc := Clamp(p);
      case Timeout =>
        if timerArmed {
          GoToSleep();
        }
    }

    /** A suspension point: the events of one batch, in order. */
    method Await(batch: Batch)
      requires Valid()
      modifies this`enc, this`timerArmed, this`triggers, flags
      ensures IoState() == StepAll(old(IoState()), batch)
      ensures triggers >= old(triggers) && (!old(timerArmed) ==> triggers == old(triggers))
      ensures EncInRange(old(enc)) ==> EncInRange(enc)
    {
      var i := 0;
      while i < |batch|
        invariant 0 <= i <= |batch|
        invariant StepAll(old(IoState()), batch) == StepAll(IoState(), batch[i..])
        invariant timerArmed == old(timerArmed)
        invariant triggers >= old(triggers) && (!old(timerArmed) ==> triggers == old(triggers))
      {
        assert batch[i..][1..] == batch[i + 1..];
        Deliver(batch[i]);
        i := i + 1;
      }
      StepAllKeepsEncInRange(old(IoState()), batch);
    }

    /** Entry of setTime (main2.py:72-78): force the encoder to the carried
        value iff it is positive and alarm_trg is false, clear alarm_trg and
        the flags, start the inactivity timer. */
    method Enter(currentValue: int)
      requires Valid()
      modifies this`enc, this`alarmTrg, this`timerArmed, this`triggers, flags
      ensures enc == if currentValue > 0 && !old(alarmTrg) then currentValue else old(enc)
      ensures !alarmTrg && flags[..] == Cleared
      ensures timerArmed && triggers == old(triggers) + 1
      ensures IoState() == EnterIo(old(IoState()), old(alarmTrg), currentValue)
    {
      if currentValue > 0 && !alarmTrg {
        enc := currentValue;
      }
      alarmTrg := false;
      ClearFlags();
      Trigger();
    }

    /** One pass of setTime's loop body (main2.py:81-102): snap to the
        reading, re-arming the timer only when the reading differs; force the
        encoder to the snapped value; on the hold pattern reset the encoder
        and the flags; render the value. */
    method Poll(current: int) returns (next: int)
      requires Valid()
      modifies this`enc, this`timerArmed, this`triggers, this`rendered, flags
      ensures next == Snap(old(enc), current)
      ensures old(enc) != current ==> timerArmed && triggers == old(triggers) + 1
      ensures old(enc) == current ==> timerArmed == old(timerArmed) && triggers == old(triggers)
      ensures old(flags[..]) == Hold ==> enc == EncMin && flags[..] == Cleared
      ensures old(flags[..]) != Hold ==> enc == next && flags[..] == old(flags[..])
      ensures rendered == old(rendered) + [next]
      ensures (IoState(), next) == PollIo(old(IoState()), current, true)
    {
      var newValue := enc;
      next := current;
      if newValue > next {
        next := newValue;
        next := next - next % Step;
        Trigger();
      } else if newValue < next {
        next := newValue;
        next := (next + 4) / Step * Step;
        Trigger();
      }
      if enc != next {
        enc := next;
      }
      if flags[..] == Hold {
        enc := EncMin;
        ClearFlags();
      }
      ShowTime(next);
    }

    /** setTime (main2.py:70-105). There is no suspension between clearing
        the flags and the first loop test, so the loop body runs at least
        once. Returns the set time once the flags read exactly [1, 1, 0, 0],
        with the timer stopped; the result is the last value shown, which is
        the carried value or a multiple of 5. */
    method SetTime(currentValue: int, env: seq<Batch>, k: nat) returns (result: Option<int>, used: nat, ghost shown: seq<int>)
      requires Valid() && k <= |env|
      modifies this`enc, this`alarmTrg, this`timerArmed, this`triggers, this`rendered, flags
      ensures var o := SetTimeSpec(old(IoState()), old(alarmTrg), currentValue, env, k);
        result == o.result && used == o.used && shown == o.shown && IoState() == o.state
      ensures k <= used <= |env| && !alarmTrg
      ensures result.None? ==> used == |env|
      ensures rendered == old(rendered) + shown
      ensures result.Some? ==> used > k && |shown| == used - k && flags[..] == Tap && !timerArmed
      ensures result.Some? ==> result.value == shown[|shown| - 1]
      ensures result.Some? ==> result.value == currentValue || result.value % Step == 0
      ensures EncInRange(old(enc)) && Settled(currentValue) ==>
                EncInRange(enc) && Displayable(shown) && (result.Some? ==> Settled(result.value))
    {
      if EncInRange(enc) && Settled(currentValue) {
        SetTimeSpecInRange(IoState(), alarmTrg, currentValue, env, k);
      }
      Enter(currentValue);
      SetLoopShape(IoState(), currentValue, env, k, [], true);
      result, used, shown := Adjust(currentValue, env, k);
      if result.Some? {
        timerArmed := false;
      }
    }

    /** setTime's loop (main2.py:79-103) from the batch at index k: one pass
        of the body per batch until a loop test sees the tap. */
    method Adjust(currentValue: int, env: seq<Batch>, k: nat) returns (result: Option<int>, used: nat, ghost shown: seq<int>)
      requires Valid() && k <= |env|
      modifies this`enc, this`timerArmed, this`triggers, this`rendered, flags
      ensures var o := SetLoop(old(IoState()), currentValue, env, k, [], true);
        result == o.result && used == o.used && shown == o.shown && IoState() == o.state
      ensures rendered == old(rendered) + shown
    {
      var cv := currentValue;
      used, shown := k, [];
      ghost var total := SetLoop(IoState(), cv, env, k, [], true);
      while flags[..] != Tap
        invariant Valid() && k <= used <= |env|
        invariant rendered == old(rendered) + shown
        invariant total == SetLoop(IoState(), cv, env, used, shown, true)
        decreases |env| - used
      {
        cv := Poll(cv);
        shown := shown + [cv];
        if used == |env| {
          result := None;
          return;
        }
        Await(env[used]);
        used := used + 1;
      }
      result := Some(cv);
    }

    /** countDown (main2.py:108-118): the flags are cleared at once, then
        set_time, set_time - 1, ... are rendered until the value goes negative
        or a flag is set. */
    method CountDown(setTime: int, env: seq<Batch>, k: nat) returns (result: Option<int>, used: nat, ghost renders: nat)
      requires Valid() && k <= |env|
      modifies this`enc, this`timerArmed, this`triggers, this`rendered, flags
      ensures var o := CountDownSpec(old(IoState()), setTime, env, k);
        result == o.result && used == o.used && renders == |o.shown| && IoState() == o.state &&
        rendered == old(rendered) + o.shown
      ensures k <= used <= |env| && timerArmed == old(timerArmed)
      ensures result.None? ==> used == |env|
      ensures !old(timerArmed) ==> triggers == old(triggers)
      ensures rendered == old(rendered) + Descend(setTime, renders)
      ensures setTime >= 0 ==> renders <= setTime + 1
      ensures setTime < 0 ==> renders == 0
      ensures EncInRange(old(enc)) ==> EncInRange(enc)
      ensures result.Some? ==> used == k + renders && result.value == setTime - renders
      ensures result.Some? && setTime >= 0 ==> renders >= 1 && -1 <= result.value <= setTime - 1
      ensures result.Some? && setTime < 0 ==> result.value == setTime
      ensures result.Some? && result.value >= 0 ==> flags[..] != Cleared
    {
      ghost var inRange := EncInRange(enc);
      ClearFlags();
      CountLoopShape(IoState(), setTime, env, k, []);
      CountLoopShows(IoState(), setTime, env, k, []);
      if inRange {
        CountLoopKeepsEncInRange(IoState(), setTime, env, k, []);
      }
      result, used, renders := Tick(setTime, env, k);
    }

    /** countDown's loop (main2.py:114-117) from the batch at index k. */
    method Tick(setTime: int, env: seq<Batch>, k: nat) returns (result: Option<int>, used: nat, ghost renders: nat)
      requires Valid() && k <= |env|
      modifies this`enc, this`timerArmed, this`triggers, this`rendered, flags
      ensures var o := CountLoop(old(IoState()), setTime, env, k, []);
        result == o.result && used == o.used && renders == |o.shown| && IoState() == o.state
      ensures rendered == old(rendered) + Descend(setTime, renders)
      ensures timerArmed == old(timerArmed) && (!old(timerArmed) ==> triggers == old(triggers))
    {
      used, renders := k, 0;
      var t := setTime;
      ghost var total := CountLoop(IoState(), t, env, k, []);
      while t >= 0 && flags[..] == Cleared
        invariant Valid() && k <= used <= |env| && t == setTime - renders
        invariant timerArmed == old(timerArmed) && (!old(timerArmed) ==> triggers == old(triggers))
        invariant rendered == old(rendered) + Descend(setTime, renders)
        invariant total == CountLoop(IoState(), t, env, used, Descend(setTime, renders))
        decreases |env| - used
      {
        ShowTime(t);
        DescendSnoc(setTime, renders);
        renders := renders + 1;
        if used == |env| {
          result := None;
          return;
        }
        Await(env[used]);
        used := used + 1;
        t := t - 1;
      }
      result := Some(t);
    }

    /** alarm (main2.py:121-133): assigns `button_list`, not the gesture
        flags, so flags set before it are still seen; a set flag means no
        ring at all. Otherwise it rings at most 11 times, stopping at the top
        of an iteration once any flag is set. Each ring is one tone (one
        suspension) and two 500 ms waits. Always returns True. */
    method Alarm(env: seq<Batch>, k: nat) returns (result: Option<bool>, used: nat, ghost rings: nat)
      requires Valid() && k <= |env|
      modifies this`enc, this`timerArmed, this`triggers, this`rendered, this`buttonList, flags
      ensures var o := AlarmSpec(old(IoState()), env, k);
        result == o.result && used == o.used && rings == |o.shown| && IoState() == o.state &&
        rendered == old(rendered) + o.shown
      ensures k <= used <= |env| && rings <= 11 && timerArmed == old(timerArmed)
      ensures result.None? ==> used == |env|
      ensures buttonList == Cleared
      ensures !old(timerArmed) ==> triggers == old(triggers)
      ensures rendered == old(rendered) + seq(rings, _ => 0)
      ensures EncInRange(old(enc)) ==> EncInRange(enc)
      ensures old(flags[..]) != Cleared ==> rings == 0 && used == k && result == Some(true) && flags[..] == old(flags[..])
      ensures result.Some? ==> result.value && used == k + 3 * rings
      ensures result.Some? ==> rings == 11 || flags[..] != Cleared
    {
      buttonList := Cleared;
      AlarmLoopShape(IoState(), 0, env, k, []);
      if EncInRange(enc) {
        AlarmLoopKeepsEncInRange(IoState(), 0, env, k, []);
      }
      ghost var shown;
      result, used, shown := Rings(env, k);
      rings := |shown|;
      assert shown == seq(rings, _ => 0);
    }

    /** alarm's loop (main2.py:125-132): at most 11 rings, each showing 0
        first. */
    method Rings(env: seq<Batch>, k: nat) returns (result: Option<bool>, used: nat, ghost shown: seq<int>)
      requires Valid() && k <= |env|
      modifies this`enc, this`timerArmed, this`triggers, this`rendered, flags
      ensures var o := AlarmLoop(old(IoState()), 0, env, k, []);
        result == o.result && used == o.used && shown == o.shown && IoState() == o.state
      ensures rendered == old(rendered) + shown
      ensures timerArmed == old(timerArmed) && (!old(timerArmed) ==> triggers == old(triggers))
    {
      var alarmTime := 0;
      used, shown := k, [];
      ghost var total := AlarmLoop(IoState(), 0, env, k, []);
      while flags[..] == Cleared && alarmTime <= 10
        invariant Valid() && k <= used <= |env| && 0 <= alarmTime <= 11
        invariant timerArmed == old(timerArmed) && (!old(timerArmed) ==> triggers == old(triggers))
        invariant rendered == old(rendered) + shown
        invariant total == AlarmLoop(IoState(), alarmTime, env, used, shown)
        decreases 11 - alarmTime
      {
        ShowTime(0);
        shown := shown + [0];
        var before := used;
        used := RingOnce(env, used);
        if |env| - before < 3 {
          result := None;
          return;
        }
        alarmTime := alarmTime + 1;
      }
      result := Some(true);
    }

    /** One ring (main2.py:128-131): the tone (soundAlarm's tick loop, one
        opaque suspension), 500 ms, the display blanked, 500 ms; it stops
        early when the batches run out. */
    method RingOnce(env: seq<Batch>, k: nat) returns (used: nat)
      requires Valid() && k <= |env|
      modifies this`enc, this`timerArmed, this`triggers, flags
      ensures used == if |env| - k < 3 then |env| else k + 3
      ensures IoState() == if |env| - k < 3 then StepFrom(old(IoState()), env, k)
                           else StepAll(StepAll(StepAll(old(IoState()), env[k]), env[k + 1]), env[k + 2])
      ensures timerArmed == old(timerArmed) && (!old(timerArmed) ==> triggers == old(triggers))
    {
      ghost var io0 := IoState();
      used := k;
      if used == |env| {
        return;
      }
      Await(env[used]);
      used := used + 1;
      if used == |env| {
        assert StepFrom(io0, env, k) == StepFrom(IoState(), env, used);
        return;
      }
      Await(env[used]);
      used := used + 1;
      if used == |env| {
        assert StepFrom(io0, env, k) == StepFrom(StepAll(io0, env[k]), env, k + 1) == StepFrom(IoState(), env, used);
        return;
      }
      Await(env[used]);
      used := used + 1;
    }

    /** The state the main loop keeps between two cycles. */
    ghost predicate Looping(setTime: int)
      reads this, flags
    {
      Valid() && Protocol(phases) && Carried(phases, setTime, alarmTrg) &&
      RingsAtMost(phases, 11) && AlarmsReportTrue(phases) &&
      Settled(setTime) && EncInRange(enc) && !timerArmed && Displayable(rendered)
    }

    /** The first half of one pass of main's `while True` (main2.py:146-147):
        the setTime task with the carried value. */
    method SetPhase(setTime: int, env: seq<Batch>, k: nat) returns (next: Option<int>, used: nat)
      requires Looping(setTime) && k <= |env|
      modifies this`enc, this`alarmTrg, this`timerArmed, this`triggers, this`rendered, this`phases, flags
      ensures var s := SetTask(old(IoState()), old(alarmTrg), setTime, env, k);
        next == s.result && used == s.used && IoState() == s.state
      ensures k <= used <= |env|
      ensures next.None? ==>
        used == |env| && phases == old(phases) &&
        MainLoop(old(IoState()), old(alarmTrg), AtSet(setTime), env, k, old(phases)) == phases
      ensures next.Some? ==>
        phases == old(phases) + [Setting(setTime, setTime > 0 && !old(alarmTrg), next.value)] &&
        MainLoop(old(IoState()), old(alarmTrg), AtSet(setTime), env, k, old(phases)) ==
        MainLoop(IoState(), alarmTrg, AtCount(next.value), env, used, phases)
      ensures Valid() && Protocol(phases) && Displayable(rendered)
      ensures RingsAtMost(phases, 11) && AlarmsReportTrue(phases)
      ensures next.Some? ==> used > k + 1 && Counted(next.value)
      ensures old(rendered) <= rendered
      ensures next.None? ==> rendered == MainShown(old(IoState()), old(alarmTrg), AtSet(setTime), env, k, old(rendered))
      ensures next.Some? ==>
        MainShown(old(IoState()), old(alarmTrg), AtSet(setTime), env, k, old(rendered)) ==
        MainShown(IoState(), alarmTrg, AtCount(next.value), env, used, rendered)
    {
      ghost var io0, trg0, seen, done := IoState(), alarmTrg, rendered, phases;
      next, used := None, k;
      if k == |env| {
        MainLoopSet(io0, trg0, setTime, env, k, done);
        MainShownSet(io0, trg0, setTime, env, k, seen);
        return;
      }
      Await(env[k]);
      var before := rendered;
      ghost var trg := alarmTrg;
      var r1, u1, shown := SetTime(setTime, env, k + 1);
      DisplayableAppend(before, shown);
      used := u1;
      next := r1;
      if r1.Some? {
        SettingFollowsCarried(phases, setTime, trg, r1.value);
        phases := phases + [Setting(setTime, setTime > 0 && !trg, r1.value)];
      }
      MainLoopSet(io0, trg0, setTime, env, k, done);
      MainShownSet(io0, trg0, setTime, env, k, seen);
    }

    ghost predicate Counted(start: int)
      reads this, flags
    {
      Valid() && Protocol(phases) && phases != [] && phases[|phases| - 1].Setting? &&
      phases[|phases| - 1].result == start &&
      RingsAtMost(phases, 11) && AlarmsReportTrue(phases) &&
      Settled(start) && EncInRange(enc) && !timerArmed && !alarmTrg && Displayable(rendered)
    }

    /** The countDown task (main2.py:148-149), its result recorded as the
        next phase. */
    method CountStage(start: int, env: seq<Batch>, k: nat) returns (result: Option<int>, used: nat)
      requires Counted(start) && k <= |env|
      modifies this`enc, this`timerArmed, this`triggers, this`rendered, this`phases, flags
      ensures var d := CountTask(old(IoState()), start, env, k);
        result == d.result && used == d.used && IoState() == d.state
      ensures k <= used <= |env|
      ensures result.None? ==>
        used == |env| && phases == old(phases) &&
        MainLoop(old(IoState()), old(alarmTrg), AtCount(start), env, k, old(phases)) == phases
      ensures result.Some? ==>
        phases == old(phases) + [Counting(start, result.value)] && Settled(result.value) &&
        MainLoop(old(IoState()), old(alarmTrg), AtCount(start), env, k, old(phases)) ==
        MainLoop(IoState(), alarmTrg, if result.value > 0 then AtSet(result.value) else AtAlarm(result.value),
                 env, used, phases)
      ensures Valid() && Protocol(phases) && RingsAtMost(phases, 11) && AlarmsReportTrue(phases)
      ensures EncInRange(enc) && !timerArmed && Displayable(rendered) && old(rendered) <= rendered
      ensures result.None? ==> rendered == MainShown(old(IoState()), old(alarmTrg), AtCount(start), env, k, old(rendered))
      ensures result.Some? ==>
        MainShown(old(IoState()), old(alarmTrg), AtCount(start), env, k, old(rendered)) ==
        MainShown(IoState(), alarmTrg, if result.value > 0 then AtSet(result.value) else AtAlarm(result.value), env, used, rendered)
    {
      ghost var io0, trg0 := IoState(), alarmTrg;
      ghost var done := phases;
      ghost var seen := rendered;
      result, used := None, k;
      if k == |env| {
        MainLoopCount(io0, trg0, start, env, k, done);
        MainShownCount(io0, trg0, start, env, k, seen);
        return;
      }
      Await(env[k]);
      var before := rendered;
      var r2, u2, renders := CountDown(start, env, k + 1);
      DescendDisplayable(start, renders);
      DisplayableAppend(before, Descend(start, renders));
      result, used := r2, u2;
      if r2.Some? {
        ProtocolSnoc(phases, Counting(start, r2.value));
        phases := phases + [Counting(start, r2.value)];
      }
      MainLoopCount(io0, trg0, start, env, k, done);
      MainShownCount(io0, trg0, start, env, k, seen);
    }

    /** The alarm task after a countdown that reached `after` <= 0
        (main2.py:150-152), its result stored in alarm_trg and recorded as
        the next phase. */
    method AlarmPhase(after: int, env: seq<Batch>, k: nat) returns (outcome: Option<bool>, used: nat)
      requires Valid() && Protocol(phases) && phases != [] && after <= 0 && k <= |env|
      requires phases[|phases| - 1].Counting? && phases[|phases| - 1].result == after
      requires RingsAtMost(phases, 11) && AlarmsReportTrue(phases)
      requires EncInRange(enc) && !timerArmed && Displayable(rendered)
      modifies this`enc, this`alarmTrg, this`timerArmed, this`triggers, this`rendered
      modifies this`buttonList, this`phases, flags
      ensures var a := AlarmTask(old(IoState()), env, k);
        outcome == a.result && used == a.used && IoState() == a.state && rendered == old(rendered) + a.shown &&
        (outcome.Some? ==> alarmTrg == outcome.value &&
                           phases == old(phases) + [Ringing(after, |a.shown|, outcome.value)])
      ensures k <= used <= |env|
      ensures outcome.None? ==>
        used == |env| && phases == old(phases) && alarmTrg == old(alarmTrg) &&
        MainLoop(old(IoState()), old(alarmTrg), AtAlarm(after), env, k, old(phases)) == phases
      ensures outcome.Some? ==>
        MainLoop(old(IoState()), old(alarmTrg), AtAlarm(after), env, k, old(phases)) ==
        MainLoop(IoState(), alarmTrg, AtSet(after), env, used, phases)
      ensures Valid() && Protocol(phases) && RingsAtMost(phases, 11) && AlarmsReportTrue(phases)
      ensures EncInRange(enc) && !timerArmed && Displayable(rendered) && old(rendered) <= rendered
    {
      ghost var io0, trg0 := IoState(), alarmTrg;
      ghost var done := phases;
      outcome, used := None, k;
      if k == |env| {
        MainLoopAlarm(io0, trg0, after, env, k, done);
        return;
      }
      Await(env[k]);
      ghost var a := AlarmSpec(IoState(), env, k + 1);
      assert a == AlarmTask(io0, env, k);
      var before := rendered;
      var r3, u3, rings := Alarm(env, k + 1);
      assert rendered == before + a.shown;
      DisplayableAppend(before, seq(rings, _ => 0));
      outcome, used := r3, u3;
      if r3.Some? {
        alarmTrg := r3.value;
        ProtocolSnoc(phases, Ringing(after, rings, r3.value));
        phases := phases + [Ringing(after, rings, r3.value)];
      }
      MainLoopAlarm(io0, trg0, after, env, k, done);
    }

    /** The second half (main2.py:148-152): the countDown task, and the alarm
        task when its result is <= 0. */
    method CountPhase(start: int, env: seq<Batch>, k: nat) returns (next: Option<int>, used: nat)
      requires Counted(start) && k <= |env|
      modifies this`enc, this`alarmTrg, this`timerArmed, this`triggers, this`rendered
      modifies this`buttonList, this`phases, flags
      ensures k <= used <= |env|
      ensures next.None? ==>
        used == |env| && MainLoop(old(IoState()), old(alarmTrg), AtCount(start), env, k, old(phases)) == phases
      ensures next.Some? ==>
        MainLoop(old(IoState()), old(alarmTrg), AtCount(start), env, k, old(phases)) ==
        MainLoop(IoState(), alarmTrg, AtSet(next.value), env, used, phases)
      ensures Valid() && Protocol(phases) && Displayable(rendered)
      ensures RingsAtMost(phases, 11) && AlarmsReportTrue(phases)
      ensures next.Some? ==> Looping(next.value)
      ensures old(rendered) <= rendered
      ensures next.None? ==> rendered == MainShown(old(IoState()), old(alarmTrg), AtCount(start), env, k, old(rendered))
      ensures next.Some? ==>
        MainShown(old(IoState()), old(alarmTrg), AtCount(start), env, k, old(rendered)) ==
        MainShown(IoState(), alarmTrg, AtSet(next.value), env, used, rendered)
    {
      next := None;
      var r2, u2 := CountStage(start, env, k);
      used := u2;
      if r2.None? {
        return;
      }
      if r2.value <= 0 {
        ghost var io1, trg1, u1, seen := IoState(), alarmTrg, used, rendered;
        var r3, u3 := AlarmPhase(r2.value, env, used);
        used := u3;
        MainShownAlarm(io1, trg1, r2.value, env, u1, seen);
        if r3.None? {
          return;
        }
      }
      next := Some(r2.value);
    }

    /** One pass of main's `while True` (main2.py:146-152); it ends early, with
        None, when the batches run out. */
    method Pass(setTime: int, env: seq<Batch>, k: nat) returns (next: Option<int>, used: nat)
      requires Looping(setTime) && k <= |env|
      modifies this`enc, this`alarmTrg, this`timerArmed, this`triggers, this`rendered
      modifies this`buttonList, this`phases, flags
      ensures k <= used <= |env|
      ensures next.None? ==>
        used == |env| && MainLoop(old(IoState()), old(alarmTrg), AtSet(setTime), env, k, old(phases)) == phases
      ensures next.Some? ==>
        MainLoop(old(IoState()), old(alarmTrg), AtSet(setTime), env, k, old(phases)) ==
        MainLoop(IoState(), alarmTrg, AtSet(next.value), env, used, phases)
      ensures Valid() && Protocol(phases) && RingsAtMost(phases, 11) && AlarmsReportTrue(phases)
      ensures Displayable(rendered) && old(rendered) <= rendered
      ensures next.Some? ==> used > k && Looping(next.value)
      ensures next.None? ==> rendered == MainShown(old(IoState()), old(alarmTrg), AtSet(setTime), env, k, old(rendered))
      ensures next.Some? ==>
        MainShown(old(IoState()), old(alarmTrg), AtSet(setTime), env, k, old(rendered)) ==
        MainShown(IoState(), alarmTrg, AtSet(next.value), env, used, rendered)
    {
      next := None;
      var entered, u1 := SetPhase(setTime, env, k);
      used := u1;
      if entered.Some? {
        var r, u2 := CountPhase(entered.value, env, u1);
        used := u2;
        next := r;
      }
    }

    /** main (main2.py:136-152) from the module's initial state, until the
        environment's batches run out: alarm_trg is cleared, the startup
        screen shown and the encoder zeroed, then passes of the main loop
        from set_time = 0. */
    method Run(env: seq<Batch>)
      requires Initial()
      modifies this`enc, this`alarmTrg, this`timerArmed, this`triggers, this`rendered
      modifies this`buttonList, this`phases, flags
      ensures phases == MainLoop(old(IoState()).(enc := 0), false, AtSet(0), env, 0, [])
      ensures rendered == MainShown(old(IoState()).(enc := 0), false, AtSet(0), env, 0, [EncMax])
      ensures Valid() && Protocol(phases) && RingsAtMost(phases, 11) && AlarmsReportTrue(phases)
      ensures [EncMax] <= rendered && Displayable(rendered)
    {
      alarmTrg := false;
      ShowTime(5999);
      assert rendered == [EncMax];
      enc := 0;
      Loop(env);
    }

    /** main's `while True` (main2.py:145-152) from set_time = 0. */
    method Loop(env: seq<Batch>)
      requires Looping(0) && phases == []
      modifies this`enc, this`alarmTrg, this`timerArmed, this`triggers, this`rendered
      modifies this`buttonList, this`phases, flags
      ensures phases == MainLoop(old(IoState()), false, AtSet(0), env, 0, [])
      ensures rendered == MainShown(old(IoState()), false, AtSet(0), env, 0, old(rendered))
      ensures Valid() && Protocol(phases) && RingsAtMost(phases, 11) && AlarmsReportTrue(phases)
      ensures old(rendered) <= rendered && Displayable(rendered)
    {
      var setTime, k, running := 0, 0, true;
      ghost var total := MainLoop(IoState(), alarmTrg, AtSet(setTime), env, k, phases);
      ghost var screen := MainShown(IoState(), alarmTrg, AtSet(setTime), env, k, rendered);
      while running
        invariant k <= |env| && Valid() && Protocol(phases) && RingsAtMost(phases, 11) && AlarmsReportTrue(phases)
        invariant old(rendered) <= rendered && Displayable(rendered)
        invariant running ==> Looping(setTime) && total == MainLoop(IoState(), alarmTrg, AtSet(setTime), env, k, phases)
        invariant running ==> screen == MainShown(IoState(), alarmTrg, AtSet(setTime), env, k, rendered)
        invariant !running ==> total == phases && screen == rendered
        decreases |env| - k + (if running then 1 else 0)
      {
        var next, used := Pass(setTime, env, k);
        if next.Some? {
          setTime, k := next.value, used;
        } else {
          running := false;
        }
      }
    }
  }
}
