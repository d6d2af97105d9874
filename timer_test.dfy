/** The control loop of test.py, which replaces the Pushbutton library by a
    falling-edge interrupt with a 50 ms debounce and the inactivity timer by
    a timestamp that setTime compares against the clock. Its stages are
    plain functions that block in sleep_ms, and its alarm has no repetition
    bound. The clock is a field that the environment advances. */
module TimerTest {
  import opened TimerCore

  datatype IrqEvent =
    | Edge                  // falling edge on the button pin: buttonMonitor runs
    | Turn(position: int)   // encoder interrupt; the collaborator clamps the position
    | Elapse(ms: nat)       // time passes

  type Batch = seq<IrqEvent>

  /** The only two values the flags ever hold in test.py. */
  ghost predicate Shaped(flags: seq<int>) {
    flags == Cleared || flags == Tap
  }

  /** The state the environment acts on. */
  datatype Io = Io(enc: int, flags: seq<int>, lastTime: int, now: int)

  /** The effect of one event. An edge is accepted only when more than 50 ms
      have passed since the last accepted one (test.py:32-38). */
  function StepIo(io: Io, e: IrqEvent): (r: Io)
    ensures e.Edge? && io.now - io.lastTime > 50 ==> r == io.(flags := Tap, lastTime := io.now)
    ensures e.Edge? && io.now - io.lastTime <= 50 ==> r == io
    ensures e.Turn? ==> r == io.(enc := Clamp(e.position))
    ensures e.Elapse? ==> r == io.(now := io.now + e.ms)
  {
    match e
    case Edge => if io.now - io.lastTime > 50 then io.(flags := Tap, lastTime := io.now) else io
    case Turn(p) => io.(enc := Clamp(p))
    case Elapse(ms) => io.(now := io.now + ms)
  }

  function StepAll(io: Io, batch: Batch): (r: Io)
    ensures r.now >= io.now
    decreases |batch|
  {
    if batch == [] then io else StepAll(StepIo(io, batch[0]), batch[1..])
  }

  /** The interrupt only ever writes [1, 1, 0, 0], so the flags stay Shaped. */
  lemma {:induction false} StepAllKeepsShape(io: Io, batch: Batch)
    requires Shaped(io.flags)
    ensures Shaped(StepAll(io, batch).flags)
    decreases |batch|
  {
    if batch != [] {
      StepAllKeepsShape(StepIo(io, batch[0]), batch[1..]);
    }
  }

  /** Debounce: the timestamp of the last accepted edge either stays or moves
      more than 50 ms forward, and never past the clock. */
  lemma {:induction false} DebounceSpacing(io: Io, batch: Batch)
    requires io.lastTime <= io.now
    ensures var r := StepAll(io, batch);
      r.lastTime <= r.now && (r.lastTime == io.lastTime || r.lastTime > io.lastTime + 50)
    decreases |batch|
  {
    if batch != [] {
      DebounceSpacing(StepIo(io, batch[0]), batch[1..]);
    }
  }

  lemma {:induction false} StepAllKeepsEncInRange(io: Io, batch: Batch)
    ensures EncInRange(io.enc) ==> EncInRange(StepAll(io, batch).enc)
    decreases |batch|
  {
    if batch != [] {
      StepAllKeepsEncInRange(StepIo(io, batch[0]), batch[1..]);
    }
  }

  /** The state after the waits of the batches from index k on. */
  function StepFrom(io: Io, env: seq<Batch>, k: nat): (r: Io)
    requires k <= |env|
    ensures r.now >= io.now
    decreases |env| - k
  {
    if k == |env| then io else StepFrom(StepAll(io, env[k]), env, k + 1)
  }

  /** Milliseconds of inactivity after which setTime calls go_to_sleep. */
  const SleepAfter: int := 10000

  // The three stages as functions of the state at entry, over the batches
  // env from index k on: what each returns, the state it leaves, the index
  // of the first batch it did not wait through, and everything it showed.

  /** Entry of setTime (test.py:77-82): force the encoder to the carried
      value iff it is positive and alarm_trg is false, clear the flags. */
  function EnterIo(io: Io, alarmTrg: bool, currentValue: int): (r: Io)
    ensures currentValue > 0 && !alarmTrg ==> r.enc == currentValue
    ensures !(currentValue > 0 && !alarmTrg) ==> r.enc == io.enc
    ensures r.flags == Cleared && r.lastTime == io.lastTime && r.now == io.now
  {
    io.(enc := if currentValue > 0 && !alarmTrg then currentValue else io.enc, flags := Cleared)
  }

  /** One pass of setTime's loop body before showTime (test.py:86-109): the
      value snapped from the reading, a new activity timestamp when the
      reading differs, the encoder forced to the snapped value, on the hold
      pattern the encoder and flags reset, and after more than 10 s without
      activity go_to_sleep, which clears the flags, and a new timestamp. */
  function PollIo(io: Io, current: int, activity: int): (r: (Io, int, int))
    ensures r.1 == Snap(io.enc, current)
    ensures io.flags != Hold ==> r.0.enc == r.1
    ensures io.flags == Hold ==> r.0.enc == EncMin && r.0.flags == Cleared
    ensures r.0.flags == io.flags || r.0.flags == Cleared
    ensures r.0.now == io.now && r.0.lastTime == io.lastTime
    ensures io.enc != current ==> r.2 == io.now
    ensures r.2 == activity || r.2 == io.now
    ensures r.0.now - r.2 <= SleepAfter
  {
    var next := Snap(io.enc, current);
    var act := if io.enc != current then io.now else activity;
    var io1 := if io.flags == Hold then io.(enc := EncMin, flags := Cleared) else io.(enc := next);
    if io1.now - act > SleepAfter then (io1.(flags := Cleared), next, io1.now) else (io1, next, act)
  }

  /** setTime's loop from a loop test (test.py:84-112): on flags exactly
      [1, 1, 0, 0] it returns the value carried; otherwise one pass of the
      body shows the snapped value, the 50 ms wait follows, and the loop
      tests again. */
  ghost function SetLoop(io: Io, cv: int, activity: int, env: seq<Batch>, k: nat, acc: seq<int>): (o: Outcome<int, Io>)
    requires k <= |env|
    ensures k <= o.used <= |env|
    decreases |env| - k
  {
    if io.flags == Tap then Outcome(Some(cv), io, k, acc)
    else
      var (io1, next, act) := PollIo(io, cv, activity);
      if k == |env| then Outcome(None, io1, k, acc + [next])
      else
        SetLoop(StepAll(io1, env[k]), next, act, env, k + 1, acc + [next])
  }

  /** setTime (test.py:74-114): the entry, then the loop with the activity
      timestamp taken from the clock. */
  ghost function SetTimeSpec(io: Io, alarmTrg: bool, currentValue: int, env: seq<Batch>, k: nat): (o: Outcome<int, Io>)
    requires k <= |env|
    ensures k <= o.used <= |env|
    ensures o.result.Some? ==> o.used > k
  {
    var entered := EnterIo(io, alarmTrg, currentValue);
    SetLoop(entered, currentValue, entered.now, env, k, [])
  }

  /** countDown's loop from a loop test (test.py:123-126): while t >= 0 and
      the flags are clear, t is shown, one second passes and t goes down by
      one. */
  ghost function CountLoop(io: Io, t: int, env: seq<Batch>, k: nat, acc: seq<int>): (o: Outcome<int, Io>)
    requires k <= |env|
    ensures k <= o.used <= |env|
    decreases |env| - k
  {
    if !(t >= 0 && io.flags == Cleared) then Outcome(Some(t), io, k, acc)
    else if k == |env| then Outcome(None, io, k, acc + [t])
    else
      CountLoop(StepAll(io, env[k]), t - 1, env, k + 1, acc + [t])
  }

  /** countDown (test.py:117-127): the flags cleared, then the loop from
      set_time. */
  ghost function CountDownSpec(io: Io, setTime: int, env: seq<Batch>, k: nat): (o: Outcome<int, Io>)
    requires k <= |env|
    ensures k <= o.used <= |env|
  {
    CountLoop(io.(flags := Cleared), setTime, env, k, [])
  }

  /** alarm's loop from a loop test (test.py:133-139): while the flags are
      clear it shows 0 and waits through the tone and the two 500 ms halves
      of the blink, three waits; there is no bound on the rings. */
  ghost function AlarmLoop(io: Io, env: seq<Batch>, k: nat, acc: seq<int>): (o: Outcome<bool, Io>)
    requires k <= |env|
    ensures k <= o.used <= |env|
    decreases |env| - k
  {
    if io.flags != Cleared then Outcome(Some(true), io, k, acc)
    else if |env| - k < 3 then Outcome(None, StepFrom(io, env, k), |env|, acc + [0])
    else
      var rung := StepAll(StepAll(StepAll(io, env[k]), env[k + 1]), env[k + 2]);
      AlarmLoop(rung, env, k + 3, acc + [0])
  }

  /** alarm (test.py:130-140): `button_list` is assigned, the gesture flags
      are left as they are, and the loop runs. */
  ghost function AlarmSpec(io: Io, env: seq<Batch>, k: nat): (o: Outcome<bool, Io>)
    requires k <= |env|
    ensures k <= o.used <= |env|
  {
    AlarmLoop(io, env, k, [])
  }

  /** setTime stops only on a loop test that sees [1, 1, 0, 0], or when the
      batches run out after a pass; it shows one value per pass and returns
      the last value shown, which is the carried value or a multiple of 5. */
  lemma {:induction false} SetLoopShape(io: Io, cv: int, activity: int, env: seq<Batch>, k: nat, acc: seq<int>)
    requires k <= |env|
    ensures var o := SetLoop(io, cv, activity, env, k, acc);
      acc <= o.shown &&
      (o.result.None? ==> o.used == |env| && |o.shown| == |acc| + (o.used - k) + 1) &&
      (o.result.Some? ==> o.state.flags == Tap && |o.shown| == |acc| + (o.used - k)) &&
      (o.result.Some? ==> o.result.value == if |o.shown| == |acc| then cv else o.shown[|o.shown| - 1]) &&
      (o.result.Some? ==> o.result.value == cv || o.result.value % Step == 0)
    decreases |env| - k
  {
    if io.flags != Tap {
      var (io1, next, act) := PollIo(io, cv, activity);
      if k < |env| {
        var o := SetLoop(StepAll(io1, env[k]), next, act, env, k + 1, acc + [next]);
        SetLoopShape(StepAll(io1, env[k]), next, act, env, k + 1, acc + [next]);
        assert o.shown[|acc|] == (acc + [next])[|acc|];
      }
    }
  }

  /** countDown's loop stops at the first loop test that sees a flag set or
      t below 0, or when the batches run out after a render; its result is
      the value at that test, one second less per batch used. */
  lemma {:induction false} CountLoopShape(io: Io, t: int, env: seq<Batch>, k: nat, acc: seq<int>)
    requires k <= |env|
    ensures var o := CountLoop(io, t, env, k, acc);
      |acc| <= |o.shown| &&
      (o.result.None? ==> o.used == |env| && |o.shown| == |acc| + (o.used - k) + 1) &&
      (o.result.Some? ==> |o.shown| == |acc| + (o.used - k) && o.result.value == t - (o.used - k)) &&
      (o.result.Some? ==> o.result.value < 0 || o.state.flags != Cleared) &&
      (o.result.Some? && t >= 0 ==> o.result.value >= -1) &&
      (t >= 0 ==> |o.shown| - |acc| <= t + 1) &&
      (t >= 0 && io.flags == Cleared ==> |o.shown| > |acc|) &&
      (t < 0 ==> o == Outcome(Some(t), io, k, acc))
    decreases |env| - k
  {
    if t >= 0 && io.flags == Cleared && k < |env| {
      CountLoopShape(StepAll(io, env[k]), t - 1, env, k + 1, acc + [t]);
    }
  }

  /** What countDown's loop shows: t, t - 1, ..., one value per pass. */
  lemma {:induction false} CountLoopShows(io: Io, t: int, env: seq<Batch>, k: nat, acc: seq<int>)
    requires k <= |env|
    ensures var o := CountLoop(io, t, env, k, acc);
      |acc| <= |o.shown| && o.shown == acc + Descend(t, |o.shown| - |acc|)
    decreases |env| - k
  {
    if t >= 0 && io.flags == Cleared {
      if k == |env| {
        assert Descend(t, 1) == [t];
      } else {
        var o := CountLoop(StepAll(io, env[k]), t - 1, env, k + 1, acc + [t]);
        CountLoopShows(StepAll(io, env[k]), t - 1, env, k + 1, acc + [t]);
        var n := |o.shown| - |acc|;
        assert Descend(t, n) == [t] + Descend(t - 1, n - 1);
        assert (acc + [t]) + Descend(t - 1, n - 1) == acc + ([t] + Descend(t - 1, n - 1));
      }
    } else {
      assert acc + Descend(t, 0) == acc;
    }
  }

  /** alarm's loop shows 0 once per ring, three waits each, and stops at the
      first loop test that sees a flag set; it then reports True. */
  lemma {:induction false} AlarmLoopShape(io: Io, env: seq<Batch>, k: nat, acc: seq<int>)
    requires k <= |env|
    ensures var o := AlarmLoop(io, env, k, acc);
      acc <= o.shown && (forall i :: |acc| <= i < |o.shown| ==> o.shown[i] == 0) &&
      (o.result.None? ==> o.used == |env| && |o.shown| > |acc|) &&
      (o.result.Some? ==> o.result.value && o.state.flags != Cleared && o.used - k == 3 * (|o.shown| - |acc|))
    decreases |env| - k
  {
    if io.flags == Cleared && |env| - k >= 3 {
      var rung := StepAll(StepAll(StepAll(io, env[k]), env[k + 1]), env[k + 2]);
      var o := AlarmLoop(rung, env, k + 3, acc + [0]);
      AlarmLoopShape(rung, env, k + 3, acc + [0]);
      assert forall i :: |acc| <= i < |o.shown| ==> o.shown[i] == 0 by {
        forall i | |acc| <= i < |o.shown|
          ensures o.shown[i] == 0
        {
          if i == |acc| {
            assert o.shown[i] == (acc + [0])[i];
          }
        }
      }
    }
  }

  // What the loops keep: from a bounded encoder and a carried value the
  // main loop may hold, every value shown is displayable, the encoder stays
  // in bounds, the value returned may be carried again, and the last
  // accepted edge is never later than the clock.

  lemma {:induction false} SetLoopInRange(io: Io, cv: int, activity: int, env: seq<Batch>, k: nat, acc: seq<int>)
    requires k <= |env| && EncInRange(io.enc) && Settled(cv) && Displayable(acc)
    ensures var o := SetLoop(io, cv, activity, env, k, acc);
      EncInRange(o.state.enc) && Displayable(o.shown) && (o.result.Some? ==> Settled(o.result.value))
    decreases |env| - k
  {
    if io.flags != Tap {
      var (io1, next, act) := PollIo(io, cv, activity);
      SnapInRange(io.enc, cv);
      DisplayableAppend(acc, [next]);
      if k < |env| {
        StepAllKeepsEncInRange(io1, env[k]);
        SetLoopInRange(StepAll(io1, env[k]), next, act, env, k + 1, acc + [next]);
      }
    }
  }

  lemma {:induction false} CountLoopKeepsEncInRange(io: Io, t: int, env: seq<Batch>, k: nat, acc: seq<int>)
    requires k <= |env| && EncInRange(io.enc)
    ensures EncInRange(CountLoop(io, t, env, k, acc).state.enc)
    decreases |env| - k
  {
    if t >= 0 && io.flags == Cleared && k < |env| {
      StepAllKeepsEncInRange(io, env[k]);
      CountLoopKeepsEncInRange(StepAll(io, env[k]), t - 1, env, k + 1, acc + [t]);
    }
  }

  /** The phases main's `while True` (test.py:151-155) completes from point
      `at` of the loop, with the state io and alarm_trg and the batches from
      index k on; `acc` holds the phases completed before. Each of setTime,
      countDown and alarm sees the batches from where the previous one
      stopped; alarm's result becomes alarm_trg, and the loop ends when a
      stage runs out of batches. */
  ghost function MainLoop(io: Io, alarmTrg: bool, at: Point, env: seq<Batch>, k: nat, acc: seq<Phase>): (r: seq<Phase>)
    requires k <= |env|
    ensures acc <= r
    decreases |env| - k, Rank(at)
  {
    match at
    case AtSet(setTime) =>
      var s := SetTimeSpec(io, alarmTrg, setTime, env, k);
      if s.result.None? then acc
      else MainLoop(s.state, false, AtCount(s.result.value), env, s.used,
                    acc + [Setting(setTime, setTime > 0 && !alarmTrg, s.result.value)])
    case AtCount(start) =>
      var d := CountDownSpec(io, start, env, k);
      if d.result.None? then acc
      else
        var r := d.result.value;
        MainLoop(d.state, alarmTrg, if r > 0 then AtSet(r) else AtAlarm(r), env, d.used, acc + [Counting(start, r)])
    case AtAlarm(after) =>
      var a := AlarmSpec(io, env, k);
      if a.result.None? then acc
      else MainLoop(a.state, a.result.value, AtSet(after), env, a.used,
                    acc + [Ringing(after, |a.shown|, a.result.value)])
  }

  /** The loop at setTime: the phases of the loop from where setTime
      returned, or, when it ran out of batches, those completed before. */
  lemma MainLoopSet(io: Io, alarmTrg: bool, setTime: int, env: seq<Batch>, k: nat, acc: seq<Phase>)
    requires k <= |env|
    ensures var s := SetTimeSpec(io, alarmTrg, setTime, env, k);
      MainLoop(io, alarmTrg, AtSet(setTime), env, k, acc) ==
        if s.result.None? then acc
        else MainLoop(s.state, false, AtCount(s.result.value), env, s.used,
                      acc + [Setting(setTime, setTime > 0 && !alarmTrg, s.result.value)])
  {
  }

  /** The loop at countDown: it goes on to setTime with a positive result
      and to alarm otherwise. */
  lemma MainLoopCount(io: Io, alarmTrg: bool, start: int, env: seq<Batch>, k: nat, acc: seq<Phase>)
    requires k <= |env|
    ensures var d := CountDownSpec(io, start, env, k);
      MainLoop(io, alarmTrg, AtCount(start), env, k, acc) ==
        if d.result.None? then acc
        else MainLoop(d.state, alarmTrg, if d.result.value > 0 then AtSet(d.result.value) else AtAlarm(d.result.value),
                      env, d.used, acc + [Counting(start, d.result.value)])
  {
  }

  /** The loop at alarm: it goes on to setTime with the countdown's result,
      alarm's result stored in alarm_trg. */
  lemma MainLoopAlarm(io: Io, alarmTrg: bool, after: int, env: seq<Batch>, k: nat, acc: seq<Phase>)
    requires k <= |env|
    ensures var a := AlarmSpec(io, env, k);
      MainLoop(io, alarmTrg, AtAlarm(after), env, k, acc) ==
        if a.result.None? then acc
        else MainLoop(a.state, a.result.value, AtSet(after), env, a.used,
                      acc + [Ringing(after, |a.shown|, a.result.value)])
  {
  }

  /** The values showTime is given while main's `while True` runs from
      point `at`, appended to `seen`: what each stage shows, in order, up to
      and including the stage that runs out of batches. */
  ghost function MainShown(io: Io, alarmTrg: bool, at: Point, env: seq<Batch>, k: nat, seen: seq<int>): (r: seq<int>)
    requires k <= |env|
    ensures seen <= r
    decreases |env| - k, Rank(at)
  {
    match at
    case AtSet(setTime) =>
      var s := SetTimeSpec(io, alarmTrg, setTime, env, k);
      if s.result.None? then seen + s.shown
      else MainShown(s.state, false, AtCount(s.result.value), env, s.used, seen + s.shown)
    case AtCount(start) =>
      var d := CountDownSpec(io, start, env, k);
      if d.result.None? then seen + d.shown
      else
        var r := d.result.value;
        MainShown(d.state, alarmTrg, if r > 0 then AtSet(r) else AtAlarm(r), env, d.used, seen + d.shown)
    case AtAlarm(after) =>
      var a := AlarmSpec(io, env, k);
      if a.result.None? then seen + a.shown
      else MainShown(a.state, a.result.value, AtSet(after), env, a.used, seen + a.shown)
  }

  /** What the loop shows from setTime: what setTime shows, then what the
      loop shows from where setTime returned. */
  lemma MainShownSet(io: Io, alarmTrg: bool, setTime: int, env: seq<Batch>, k: nat, seen: seq<int>)
    requires k <= |env|
    ensures var s := SetTimeSpec(io, alarmTrg, setTime, env, k);
      MainShown(io, alarmTrg, AtSet(setTime), env, k, seen) ==
        if s.result.None? then seen + s.shown
        else MainShown(s.state, false, AtCount(s.result.value), env, s.used, seen + s.shown)
  {
  }

  /** What the loop shows from countDown: what countDown shows, then what
      the loop shows from setTime or alarm. */
  lemma MainShownCount(io: Io, alarmTrg: bool, start: int, env: seq<Batch>, k: nat, seen: seq<int>)
    requires k <= |env|
    ensures var d := CountDownSpec(io, start, env, k);
      MainShown(io, alarmTrg, AtCount(start), env, k, seen) ==
        if d.result.None? then seen + d.shown
        else MainShown(d.state, alarmTrg, if d.result.value > 0 then AtSet(d.result.value) else AtAlarm(d.result.value),
                       env, d.used, seen + d.shown)
  {
  }

  /** What the loop shows from alarm: the rings' zeros, then what the loop
      shows from setTime. */
  lemma MainShownAlarm(io: Io, alarmTrg: bool, after: int, env: seq<Batch>, k: nat, seen: seq<int>)
    requires k <= |env|
    ensures var a := AlarmSpec(io, env, k);
      MainShown(io, alarmTrg, AtAlarm(after), env, k, seen) ==
        if a.result.None? then seen + a.shown
        else MainShown(a.state, a.result.value, AtSet(after), env, a.used, seen + a.shown)
  {
  }

  class Controller {
    var enc: int
    /** btn_state: press, release, double, long. */
    var flags: array<int>
    var alarmTrg: bool
    /** last_time: when the interrupt last accepted an edge. */
    var lastTime: int
    /** ticks_ms(), without wrap-around. */
    var now: int
    /** The global `button_list` that alarm() assigns and nothing reads. */
    var buttonList: seq<int>
    ghost var rendered: seq<int>
    /** Number of go_to_sleep calls. */
    ghost var sleeps: nat
    ghost var phases: seq<Phase>

    ghost predicate Valid()
      reads this, flags
    {
      flags.Length == 4 && Shaped(flags[..])
    }

    ghost function IoState(): Io
      reads this, flags
    {
      Io(enc, flags[..], lastTime, now)
    }

    /** The module-level state when main() starts (test.py:13-29). */
    ghost predicate Initial()
      reads this, flags
    {
      Valid() && EncInRange(enc) && flags[..] == Cleared && !alarmTrg && lastTime <= now &&
      rendered == [] && phases == []
    }

    constructor (start: nat)
      ensures Initial() && fresh(flags) && enc == 0 && lastTime == 0 && now == start
      ensures buttonList == [] && sleeps == 0
    {
      enc := 0;
      flags := new int[4](_ => 0);
      alarmTrg := false;
      lastTime, now := 0, start;
      buttonList := [];
      rendered, sleeps, phases := [], 0, [];
      new;
      assert flags[..] == Cleared;
    }

    method SetFlags(v: seq<int>)
      requires Valid() && Shaped(v)
      modifies flags
      ensures flags[..] == v
    {
      flags[0] := v[0];
      flags[1] := v[1];
      flags[2] := v[2];
      flags[3] := v[3];
    }

    /** buttonMonitor (test.py:32-38), reading the clock with ticks_ms(). */
    method ButtonMonitor()
      requires Valid()
      modifies this`lastTime, flags
      ensures IoState() == StepIo(old(IoState()), Edge)
    {
      var newTime := now;
      if newTime - lastTime > 50 {
        SetFlags(Tap);
        lastTime := newTime;
      }
    }

    /** go_to_sleep (test.py:53-59), flag effect only: blank the display,
        sleep until the button pin changes, reset the flags. */
    method GoToSleep()
      requires Valid()
      modifies this`sleeps, flags
      ensures flags[..] == Cleared && sleeps == old(sleeps) + 1
    {
      SetFlags(Cleared);
      sleeps := sleeps + 1;
    }

    method ShowTime(v: int)
      modifies this`rendered
      ensures rendered == old(rendered) + [v]
    {
      rendered := rendered + [v];
    }

    method Deliver(e: IrqEvent)
      requires Valid()
      modifies this`enc, this`lastTime, this`now, flags
      ensures Valid() && IoState() == StepIo(old(IoState()), e)
    {
      match e
      case Edge => ButtonMonitor();
      case Turn(p) => enc := Clamp(p);
      case Elapse(ms) => now := now + ms;
    }

    /** A sleep_ms wait: the interrupts and the time of one batch, in order. */
    method Await(batch: Batch)
      requires Valid()
      modifies this`enc, this`lastTime, this`now, flags
      ensures Valid() && IoState() == StepAll(old(IoState()), batch)
      ensures EncInRange(old(enc)) ==> EncInRange(enc)
      ensures old(lastTime) <= old(now) ==> lastTime <= now
    {
      var i := 0;
      while i < |batch|
        invariant 0 <= i <= |batch| && Valid()
        invariant StepAll(old(IoState()), batch) == StepAll(IoState(), batch[i..])
      {
        assert batch[i..][1..] == batch[i + 1..];
        Deliver(batch[i]);
        i := i + 1;
      }
      StepAllKeepsEncInRange(old(IoState()), batch);
      if old(lastTime) <= old(now) {
        DebounceSpacing(old(IoState()), batch);
      }
    }

    /** Entry of setTime (test.py:77-82). */
    method Enter(currentValue: int)
      requires Valid()
      modifies this`enc, this`alarmTrg, flags
      ensures Valid() && !alarmTrg
      ensures IoState() == EnterIo(old(IoState()), old(alarmTrg), currentValue)
    {
      if currentValue > 0 && !alarmTrg {
        enc := currentValue;
      }
      alarmTrg := false;
      SetFlags(Cleared);
    }

    /** One pass of setTime's loop body (test.py:86-111): snap to the
        reading, taking a new activity timestamp when the reading differs;
        force the encoder to the snapped value; the hold pattern cannot occur,
        since the interrupt writes only [1, 1, 0, 0]; go to sleep when more
        than 10 s passed since the last activity, then restart from the
        clock; render the value. */
    method Poll(current: int, activity: int) returns (next: int, activity': int, ghost slept: bool)
      requires Valid()
      modifies this`enc, this`sleeps, this`rendered, flags
      ensures Valid() && (IoState(), next, activity') == PollIo(old(IoState()), current, activity)
      ensures next == Snap(old(enc), current) && enc == next
      ensures slept == (old(enc) == current && now - activity > SleepAfter)
      ensures slept ==> flags[..] == Cleared && sleeps == old(sleeps) + 1
      ensures !slept ==> flags[..] == old(flags[..]) && sleeps == old(sleeps)
      ensures rendered == old(rendered) + [next]
    {
      activity' := activity;
      var newValue := enc;
      next := current;
      if newValue > next {
        next := newValue;
        next := next - next % Step;
        activity' := now;
      } else if newValue < next {
        next := newValue;
        next := (next + 4) / Step * Step;
        activity' := now;
      }
      if enc != next {
        enc := next;
      }
      if flags[..] == Hold {
        assert false;
      }
      var idle := now - activity' > SleepAfter;
      if idle {
        GoToSleep();
        activity' := now;
      }
      slept := idle;
      ShowTime(next);
    }

    /** setTime (test.py:74-114) from the batch at index k. The loop body
        runs at least once; the result is the last value shown, the carried
        value or a multiple of 5. */
    method SetTime(currentValue: int, env: seq<Batch>, k: nat) returns (result: Option<int>, used: nat, ghost shown: seq<int>)
      requires Valid() && k <= |env|
      modifies this`enc, this`alarmTrg, this`lastTime, this`now, this`sleeps, this`rendered, flags
      ensures var o := SetTimeSpec(old(IoState()), old(alarmTrg), currentValue, env, k);
        result == o.result && used == o.used && shown == o.shown && IoState() == o.state
      ensures Valid() && k <= used <= |env| && !alarmTrg
      ensures result.None? ==> used == |env|
      ensures rendered == old(rendered) + shown
      ensures result.Some? ==> used > k && |shown| == used - k && flags[..] == Tap
      ensures result.Some? ==> result.value == shown[|shown| - 1]
      ensures result.Some? ==> result.value == currentValue || result.value % Step == 0
      ensures old(lastTime) <= old(now) ==> lastTime <= now
      ensures EncInRange(old(enc)) && Settled(currentValue) ==>
                EncInRange(enc) && Displayable(shown) && (result.Some? ==> Settled(result.value))
    {
      ghost var inRange := EncInRange(enc) && Settled(currentValue);
      Enter(currentValue);
      var activity := now;
      SetLoopShape(IoState(), currentValue, activity, env, k, []);
      if inRange {
        SetLoopInRange(IoState(), currentValue, activity, env, k, []);
      }
      result, used, shown := Adjust(currentValue, activity, env, k);
    }

    /** setTime's loop (test.py:84-112) from the batch at index k, with the
        activity timestamp `activity`: one pass of the body per batch until a
        loop test sees the tap. */
    method Adjust(currentValue: int, activity: int, env: seq<Batch>, k: nat) returns (result: Option<int>, used: nat, ghost shown: seq<int>)
      requires Valid() && k <= |env|
      modifies this`enc, this`lastTime, this`now, this`sleeps, this`rendered, flags
      ensures var o := SetLoop(old(IoState()), currentValue, activity, env, k, []);
        result == o.result && used == o.used && shown == o.shown && IoState() == o.state
      ensures Valid() && rendered == old(rendered) + shown
      ensures old(lastTime) <= old(now) ==> lastTime <= now
    {
      var cv, act := currentValue, activity;
      used, shown := k, [];
      ghost var total := SetLoop(IoState(), cv, act, env, k, []);
      while flags[..] != Tap
        invariant Valid() && k <= used <= |env|
        invariant rendered == old(rendered) + shown
        invariant old(lastTime) <= old(now) ==> lastTime <= now
        invariant total == SetLoop(IoState(), cv, act, env, used, shown)
        decreases |env| - used
      {
        ghost var slept;
        cv, act, slept := Poll(cv, act);
        shown := shown + [cv];
        if used == |env| {
          result := None;
          return;
        }
        Await(env[used]);
        used := used + 1;
      }
      result := Some(cv);
    }

    /** countDown (test.py:117-127) from the batch at index k: the flags are
        cleared at once, then set_time, set_time - 1, ... are rendered, one
        second apart, until the value goes negative or a flag is set. */
    method CountDown(setTime: int, env: seq<Batch>, k: nat) returns (result: Option<int>, used: nat, ghost renders: nat)
      requires Valid() && k <= |env|
      modifies this`enc, this`lastTime, this`now, this`rendered, flags
      ensures var o := CountDownSpec(old(IoState()), setTime, env, k);
        result == o.result && used == o.used && renders == |o.shown| && IoState() == o.state &&
        rendered == old(rendered) + o.shown
      ensures Valid() && k <= used <= |env|
      ensures result.None? ==> used == |env|
      ensures rendered == old(rendered) + Descend(setTime, renders)
      ensures setTime >= 0 ==> renders <= setTime + 1
      ensures setTime < 0 ==> renders == 0
      ensures EncInRange(old(enc)) ==> EncInRange(enc)
      ensures old(lastTime) <= old(now) ==> lastTime <= now
      ensures result.Some? ==> used == k + renders && result.value == setTime - renders
      ensures result.Some? && setTime >= 0 ==> renders >= 1 && -1 <= result.value <= setTime - 1
      ensures result.Some? && setTime < 0 ==> result.value == setTime
      ensures result.Some? && result.value >= 0 ==> flags[..] == Tap
    {
      ghost var inRange := EncInRange(enc);
      SetFlags(Cleared);
      CountLoopShape(IoState(), setTime, env, k, []);
      CountLoopShows(IoState(), setTime, env, k, []);
      if inRange {
        CountLoopKeepsEncInRange(IoState(), setTime, env, k, []);
      }
      result, used, renders := Tick(setTime, env, k);
    }

    /** countDown's loop (test.py:123-126) from the batch at index k. */
    method Tick(setTime: int, env: seq<Batch>, k: nat) returns (result: Option<int>, used: nat, ghost renders: nat)
      requires Valid() && k <= |env|
      modifies this`enc, this`lastTime, this`now, this`rendered, flags
      ensures var o := CountLoop(old(IoState()), setTime, env, k, []);
        result == o.result && used == o.used && renders == |o.shown| && IoState() == o.state
      ensures Valid() && rendered == old(rendered) + Descend(setTime, renders)
      ensures old(lastTime) <= old(now) ==> lastTime <= now
    {
      used, renders := k, 0;
      var t := setTime;
      ghost var total := CountLoop(IoState(), t, env, k, []);
      while t >= 0 && flags[..] == Cleared
        invariant Valid() && k <= used <= |env| && t == setTime - renders
        invariant old(lastTime) <= old(now) ==> lastTime <= now
        invariant rendered == old(rendered) + Descend(setTime, renders)
        invariant total == CountLoop(IoState(), t, env, used, Descend(setTime, renders))
        decreases |env| - used
      {
        ShowTime(t);
        DescendSnoc(setTime, renders);
        renders := renders + 1;
        if used == |env| {
          result := None;
          return;
        }
        Await(env[used]);
        used := used + 1;
        t := t - 1;
      }
      result := Some(t);
    }

    /** alarm (test.py:130-140) from the batch at index k: assigns
        `button_list`, not the gesture flags, so a flag set before it means
        no ring at all; otherwise it rings until the interrupt has set them,
        with no repetition bound. Always returns True. */
    method Alarm(env: seq<Batch>, k: nat) returns (result: Option<bool>, used: nat, ghost rings: nat)
      requires Valid() && k <= |env|
      modifies this`enc, this`lastTime, this`now, this`rendered, this`buttonList, flags
      ensures var o := AlarmSpec(old(IoState()), env, k);
        result == o.result && used == o.used && rings == |o.shown| && IoState() == o.state &&
        rendered == old(rendered) + o.shown
      ensures Valid() && k <= used <= |env| && buttonList == Cleared
      ensures result.None? ==> used == |env|
      ensures rendered == old(rendered) + seq(rings, _ => 0)
      ensures EncInRange(old(enc)) ==> EncInRange(enc)
      ensures old(lastTime) <= old(now) ==> lastTime <= now
      ensures old(flags[..]) != Cleared ==> rings == 0 && used == k && result == Some(true) && flags[..] == old(flags[..])
      ensures result.Some? ==> result.value && used == k + 3 * rings && flags[..] == Tap
    {
      buttonList := Cleared;
      used, rings := k, 0;
      ghost var total := AlarmLoop(IoState(), env, k, []);
      while flags[..] == Cleared
        invariant Valid() && k <= used <= |env| && used == k + 3 * rings && buttonList == Cleared
        invariant old(flags[..]) != Cleared ==> rings == 0 && flags[..] == old(flags[..])
        invariant rendered == old(rendered) + seq(rings, _ => 0)
        invariant EncInRange(old(enc)) ==> EncInRange(enc)
        invariant old(lastTime) <= old(now) ==> lastTime <= now
        invariant total == AlarmLoop(IoState(), env, used, seq(rings, _ => 0))
        decreases |env| - used
      {
        ShowTime(0);
        assert seq(rings + 1, _ => 0) == seq(rings, _ => 0) + [0];
        rings := rings + 1;
        var before := used;
        used := RingOnce(env, used);
        if |env| - before < 3 {
          result := None;
          return;
        }
      }
      result := Some(true);
    }

    /** One ring (test.py:135-139): the tone (soundAlarm's tick loop, one
        opaque wait), 500 ms, the display blanked, 500 ms; it stops early
        when the batches run out. */
    method RingOnce(env: seq<Batch>, k: nat) returns (used: nat)
      requires Valid() && k <= |env|
      modifies this`enc, this`lastTime, this`now, flags
      ensures Valid() && used == if |env| - k < 3 then |env| else k + 3
      ensures IoState() == if |env| - k < 3 then StepFrom(old(IoState()), env, k)
                           else StepAll(StepAll(StepAll(old(IoState()), env[k]), env[k + 1]), env[k + 2])
      ensures EncInRange(old(enc)) ==> EncInRange(enc)
      ensures old(lastTime) <= old(now) ==> lastTime <= now
    {
      ghost var io0 := IoState();
      used := k;
      if used == |env| {
        return;
      }
      Await(env[used]);
      used := used + 1;
      if used == |env| {
        assert StepFrom(io0, env, k) == StepFrom(IoState(), env, used);
        return;
      }
      Await(env[used]);
      used := used + 1;
      if used == |env| {
        assert StepFrom(io0, env, k) == StepFrom(StepAll(io0, env[k]), env, k + 1) == StepFrom(IoState(), env, used);
        return;
      }
      Await(env[used]);
      used := used + 1;
    }

    /** The state the main loop keeps between two cycles. */
    ghost predicate Looping(setTime: int)
      reads this, flags
    {
      Valid() && Protocol(phases) && Carried(phases, setTime, alarmTrg) &&
      AlarmsReportTrue(phases) && lastTime <= now &&
      Settled(setTime) && EncInRange(enc) && Displayable(rendered)
    }

    /** The first half of one pass of main's `while True` (test.py:152):
        setTime with the carried value. */
    method SetPhase(setTime: int, env: seq<Batch>, k: nat) returns (next: Option<int>, used: nat)
      requires Looping(setTime) && k <= |env|
      modifies this`enc, this`alarmTrg, this`lastTime, this`now, this`sleeps, this`rendered, this`phases, flags
      ensures var s := SetTimeSpec(old(IoState()), old(alarmTrg), setTime, env, k);
        next == s.result && used == s.used && IoState() == s.state
      ensures k <= used <= |env|
      ensures next.None? ==>
        used == |env| && phases == old(phases) &&
        MainLoop(old(IoState()), old(alarmTrg), AtSet(setTime), env, k, old(phases)) == phases
      ensures next.Some? ==>
        phases == old(phases) + [Setting(setTime, setTime > 0 && !old(alarmTrg), next.value)] &&
        MainLoop(old(IoState()), old(alarmTrg), AtSet(setTime), env, k, old(phases)) ==
        MainLoop(IoState(), alarmTrg, AtCount(next.value), env, used, phases)
      ensures Valid() && Protocol(phases) && Displayable(rendered) && AlarmsReportTrue(phases)
      ensures next.Some? ==> used > k && Counted(next.value)
      ensures old(rendered) <= rendered
      ensures next.None? ==> rendered == MainShown(old(IoState()), old(alarmTrg), AtSet(setTime), env, k, old(rendered))
      ensures next.Some? ==>
        MainShown(old(IoState()), old(alarmTrg), AtSet(setTime), env, k, old(rendered)) ==
        MainShown(IoState(), alarmTrg, AtCount(next.value), env, used, rendered)
    {
      ghost var io0, trg0 := IoState(), alarmTrg;
      ghost var done := phases;
      ghost var seen := rendered;
      var before := rendered;
      ghost var trg := alarmTrg;
      var r1, u1, shown := SetTime(setTime, env, k);
      DisplayableAppend(before, shown);
      used := u1;
      next := r1;
      if r1.Some? {
        SettingFollowsCarried(phases, setTime, trg, r1.value);
        phases := phases + [Setting(setTime, setTime > 0 && !trg, r1.value)];
      }
      MainLoopSet(io0, trg0, setTime, env, k, done);
      MainShownSet(io0, trg0, setTime, env, k, seen);
    }

    /** The state between setTime and countDown: the last phase is the
        setter's, which returned `start`. */
    ghost predicate Counted(start: int)
      reads this, flags
    {
      Valid() && Protocol(phases) && phases != [] && phases[|phases| - 1].Setting? &&
      phases[|phases| - 1].result == start && AlarmsReportTrue(phases) && lastTime <= now &&
      Settled(start) && EncInRange(enc) && !alarmTrg && Displayable(rendered)
    }

    /** countDown from the value setTime returned (test.py:153), its result
        recorded as the next phase. */
    method CountStage(start: int, env: seq<Batch>, k: nat) returns (result: Option<int>, used: nat)
      requires Counted(start) && k <= |env|
      modifies this`enc, this`lastTime, this`now, this`rendered, this`phases, flags
      ensures var d := CountDownSpec(old(IoState()), start, env, k);
        result == d.result && used == d.used && IoState() == d.state
      ensures k <= used <= |env|
      ensures result.None? ==>
        used == |env| && phases == old(phases) &&
        MainLoop(old(IoState()), old(alarmTrg), AtCount(start), env, k, old(phases)) == phases
      ensures result.Some? ==>
        phases == old(phases) + [Counting(start, result.value)] && Settled(result.value) &&
        MainLoop(old(IoState()), old(alarmTrg), AtCount(start), env, k, old(phases)) ==
        MainLoop(IoState(), alarmTrg, if result.value > 0 then AtSet(result.value) else AtAlarm(result.value),
                 env, used, phases)
      ensures Valid() && Protocol(phases) && AlarmsReportTrue(phases) && lastTime <= now
      ensures EncInRange(enc) && Displayable(rendered) && old(rendered) <= rendered
      ensures result.None? ==> rendered == MainShown(old(IoState()), old(alarmTrg), AtCount(start), env, k, old(rendered))
      ensures result.Some? ==>
        MainShown(old(IoState()), old(alarmTrg), AtCount(start), env, k, old(rendered)) ==
        MainShown(IoState(), alarmTrg, if result.value > 0 then AtSet(result.value) else AtAlarm(result.value), env, used, rendered)
    {
      ghost var io0, trg0 := IoState(), alarmTrg;
      ghost var done := phases;
      ghost var seen := rendered;
      var before := rendered;
      var r2, u2, renders := CountDown(start, env, k);
      DescendDisplayable(start, renders);
      DisplayableAppend(before, Descend(start, renders));
      result, used := r2, u2;
      if r2.Some? {
        ProtocolSnoc(phases, Counting(start, r2.value));
        phases := phases + [Counting(start, r2.value)];
      }
      MainLoopCount(io0, trg0, start, env, k, done);
      MainShownCount(io0, trg0, start, env, k, seen);
    }

    /** alarm after a countdown that reached `after` <= 0 (test.py:154-155),
        its result stored in alarm_trg and recorded as the next phase. */
    method AlarmPhase(after: int, env: seq<Batch>, k: nat) returns (outcome: Option<bool>, used: nat)
      requires Valid() && Protocol(phases) && phases != [] && after <= 0 && k <= |env|
      requires phases[|phases| - 1].Counting? && phases[|phases| - 1].result == after
      requires AlarmsReportTrue(phases) && lastTime <= now
      requires EncInRange(enc) && Displayable(rendered)
      modifies this`enc, this`alarmTrg, this`lastTime, this`now, this`rendered
      modifies this`buttonList, this`phases, flags
      ensures var a := AlarmSpec(old(IoState()), env, k);
        outcome == a.result && used == a.used && IoState() == a.state && rendered == old(rendered) + a.shown &&
        (outcome.Some? ==> alarmTrg == outcome.value &&
                           phases == old(phases) + [Ringing(after, |a.shown|, outcome.value)])
      ensures k <= used <= |env|
      ensures outcome.None? ==>
        used == |env| && phases == old(phases) && alarmTrg == old(alarmTrg) &&
        MainLoop(old(IoState()), old(alarmTrg), AtAlarm(after), env, k, old(phases)) == phases
      ensures outcome.Some? ==>
        MainLoop(old(IoState()), old(alarmTrg), AtAlarm(after), env, k, old(phases)) ==
        MainLoop(IoState(), alarmTrg, AtSet(after), env, used, phases)
      ensures Valid() && Protocol(phases) && AlarmsReportTrue(phases) && lastTime <= now
      ensures EncInRange(enc) && Displayable(rendered) && old(rendered) <= rendered
    {
      ghost var io0, trg0 := IoState(), alarmTrg;
      ghost var done := phases;
      var before := rendered;
      var r3, u3, rings := Alarm(env, k);
      DisplayableAppend(before, seq(rings, _ => 0));
      outcome, used := r3, u3;
      if r3.Some? {
        alarmTrg := r3.value;
        ProtocolSnoc(phases, Ringing(after, rings, r3.value));
        phases := phases + [Ringing(after, rings, r3.value)];
      }
      MainLoopAlarm(io0, trg0, after, env, k, done);
    }

    /** The second half (test.py:153-155): countDown, and alarm when its
        result is <= 0. */
    method CountPhase(start: int, env: seq<Batch>, k: nat) returns (next: Option<int>, used: nat)
      requires Counted(start) && k <= |env|
      modifies this`enc, this`alarmTrg, this`lastTime, this`now, this`rendered
      modifies this`buttonList, this`phases, flags
      ensures k <= used <= |env|
      ensures next.None? ==>
        used == |env| && MainLoop(old(IoState()), old(alarmTrg), AtCount(start), env, k, old(phases)) == phases
      ensures next.Some? ==>
        MainLoop(old(IoState()), old(alarmTrg), AtCount(start), env, k, old(phases)) ==
        MainLoop(IoState(), alarmTrg, AtSet(next.value), env, used, phases)
      ensures Valid() && Protocol(phases) && Displayable(rendered) && AlarmsReportTrue(phases)
      ensures next.Some? ==> Looping(next.value)
      ensures old(rendered) <= rendered
      ensures next.None? ==> rendered == MainShown(old(IoState()), old(alarmTrg), AtCount(start), env, k, old(rendered))
      ensures next.Some? ==>
        MainShown(old(IoState()), old(alarmTrg), AtCount(start), env, k, old(rendered)) ==
        MainShown(IoState(), alarmTrg, AtSet(next.value), env, used, rendered)
    {
      next := None;
      var r2, u2 := CountStage(start, env, k);
      used := u2;
      if r2.None? {
        return;
      }
      if r2.value <= 0 {
        ghost var io1, trg1, u1, seen := IoState(), alarmTrg, used, rendered;
        var r3, u3 := AlarmPhase(r2.value, env, used);
        used := u3;
        MainShownAlarm(io1, trg1, r2.value, env, u1, seen);
        if r3.None? {
          return;
        }
      }
      next := Some(r2.value);
    }

    /** One pass of main's `while True` (test.py:152-155); it ends early,
        with None, when the batches run out. */
    method Pass(setTime: int, env: seq<Batch>, k: nat) returns (next: Option<int>, used: nat)
      requires Looping(setTime) && k <= |env|
      modifies this`enc, this`alarmTrg, this`lastTime, this`now, this`sleeps, this`rendered
      modifies this`buttonList, this`phases, flags
      ensures k <= used <= |env|
      ensures next.None? ==>
        used == |env| && MainLoop(old(IoState()), old(alarmTrg), AtSet(setTime), env, k, old(phases)) == phases
      ensures next.Some? ==>
        MainLoop(old(IoState()), old(alarmTrg), AtSet(setTime), env, k, old(phases)) ==
        MainLoop(IoState(), alarmTrg, AtSet(next.value), env, used, phases)
      ensures Valid() && Protocol(phases) && AlarmsReportTrue(phases)
      ensures Displayable(rendered) && old(rendered) <= rendered
      ensures next.Some? ==> used > k && Looping(next.value)
      ensures next.None? ==> rendered == MainShown(old(IoState()), old(alarmTrg), AtSet(setTime), env, k, old(rendered))
      ensures next.Some? ==>
        MainShown(old(IoState()), old(alarmTrg), AtSet(setTime), env, k, old(rendered)) ==
        MainShown(IoState(), alarmTrg, AtSet(next.value), env, used, rendered)
    {
      next := None;
      var entered, u1 := SetPhase(setTime, env, k);
      used := u1;
      if entered.Some? {
        var r, u2 := CountPhase(entered.value, env, u1);
        used := u2;
        next := r;
      }
    }

    /** main (test.py:143-155) from the module's initial state, until the
        environment's batches run out: the startup screen, the encoder
        zeroed, then passes of the main loop from set_time = 0. */
    method Run(env: seq<Batch>)
      requires Initial()
      modifies this`enc, this`alarmTrg, this`lastTime, this`now, this`sleeps, this`rendered
      modifies this`buttonList, this`phases, flags
      ensures phases == MainLoop(old(IoState()).(enc := 0), false, AtSet(0), env, 0, [])
      ensures rendered == MainShown(old(IoState()).(enc := 0), false, AtSet(0), env, 0, [EncMax])
      ensures Valid() && Protocol(phases) && AlarmsReportTrue(phases)
      ensures [EncMax] <= rendered && Displayable(rendered)
    {
      ShowTime(5999);
      assert rendered == [EncMax];
      enc := 0;
      Loop(env);
    }

    /** main's `while True` (test.py:151-155) from set_time = 0. */
    method Loop(env: seq<Batch>)
      requires Looping(0) && phases == []
      modifies this`enc, this`alarmTrg, this`lastTime, this`now, this`sleeps, this`rendered
      modifies this`buttonList, this`phases, flags
      ensures phases == MainLoop(old(IoState()), false, AtSet(0), env, 0, [])
      ensures rendered == MainShown(old(IoState()), false, AtSet(0), env, 0, old(rendered))
      ensures Valid() && Protocol(phases) && AlarmsReportTrue(phases)
      ensures old(rendered) <= rendered && Displayable(rendered)
    {
      var setTime, k, running := 0, 0, true;
      ghost var total := MainLoop(IoState(), alarmTrg, AtSet(setTime), env, k, phases);
      ghost var screen := MainShown(IoState(), alarmTrg, AtSet(setTime), env, k, rendered);
      while running
        invariant k <= |env| && Valid() && Protocol(phases) && AlarmsReportTrue(phases)
        invariant old(rendered) <= rendered && Displayable(rendered)
        invariant running ==> Looping(setTime) && total == MainLoop(IoState(), alarmTrg, AtSet(setTime), env, k, phases)
        invariant running ==> screen == MainShown(IoState(), alarmTrg, AtSet(setTime), env, k, rendered)
        invariant !running ==> total == phases && screen == rendered
        decreases |env| - k + (if running then 1 else 0)
      {
        var next, used := Pass(setTime, env, k);
        if next.Some? {
          setTime, k := next.value, used;
        } else {
          running := false;
        }
      }
    }
  }
}
