/** The setTime, countDown and alarm loops that main.py and main2.py share,
    as functions of the state at a loop test: the batches env, the index k
    of the next one, and what the stage has shown so far. Each says what the
    loop returns, the state it leaves, the index of the first batch it did
    not wait through and everything shown. The controller methods of
    TimerMain and TimerMain2 are proved to do exactly what these say. */
module Stages {
  import opened TimerCore
  import opened Gestures

  type Batch = seq<Event>

  /** Entry of setTime: force the encoder to the carried value iff it is
      positive and alarm_trg is false, clear the flags, arm the timer. */
  function EnterIo(io: Io, alarmTrg: bool, currentValue: int): (r: Io)
    ensures currentValue > 0 && !alarmTrg ==> r.enc == currentValue
    ensures !(currentValue > 0 && !alarmTrg) ==> r.enc == io.enc
    ensures r.flags == Cleared && r.armed
  {
    Io(if currentValue > 0 && !alarmTrg then currentValue else io.enc, Cleared, true)
  }

  /** One pass of setTime's loop body before showTime: the value snapped
      from the reading, the timer re-armed when the reading differs, with
      `resync` (main2.py) the encoder forced to the snapped value, and on the
      hold pattern the encoder and flags reset. */
  function PollIo(io: Io, current: int, resync: bool): (r: (Io, int))
    ensures r.1 == Snap(io.enc, current)
    ensures r.0.armed <==> io.armed || io.enc != current
    ensures io.flags == Hold ==> r.0.enc == EncMin && r.0.flags == Cleared
    ensures io.flags != Hold ==> r.0.flags == io.flags
    ensures io.flags != Hold && !resync ==> r.0.enc == io.enc
    ensures io.flags != Hold && resync ==> r.0.enc == r.1
  {
    var next := Snap(io.enc, current);
    var armed := io.armed || io.enc != current;
    if io.flags == Hold then (Io(EncMin, Cleared, armed), next)
    else (Io(if resync then next else io.enc, io.flags, armed), next)
  }

  /** setTime's loop from a loop test: on flags exactly [1, 1, 0, 0] it
      returns the value carried; otherwise one pass of the body shows the
      snapped value, one suspension follows, and the loop tests again. */
  ghost function SetLoop(io: Io, cv: int, env: seq<Batch>, k: nat, acc: seq<int>, resync: bool): (o: Outcome<int, Io>)
    requires |io.flags| == 4 && k <= |env|
    ensures |o.state.flags| == 4 && k <= o.used <= |env|
    decreases |env| - k
  {
    if io.flags == Tap then Outcome(Some(cv), io, k, acc)
    else
      var (io1, next) := PollIo(io, cv, resync);
      if k == |env| then Outcome(None, io1, k, acc + [next])
      else
        SetLoop(StepAll(io1, env[k]), next, env, k + 1, acc + [next], resync)
  }

  /** countDown's loop from a loop test: while t >= 0 and no flag is set, t
      is shown, one second passes and t goes down by one. It stops at the
      first test that sees a flag set, or when t has gone below 0. */
  ghost function CountLoop(io: Io, t: int, env: seq<Batch>, k: nat, acc: seq<int>): (o: Outcome<int, Io>)
    requires |io.flags| == 4 && k <= |env|
    ensures |o.state.flags| == 4 && k <= o.used <= |env|
    decreases |env| - k
  {
    if !(t >= 0 && io.flags == Cleared) then Outcome(Some(t), io, k, acc)
    else if k == |env| then Outcome(None, io, k, acc + [t])
    else
      CountLoop(StepAll(io, env[k]), t - 1, env, k + 1, acc + [t])
  }

  /** The state after the suspensions of the batches from index k on. */
  function StepFrom(io: Io, env: seq<Batch>, k: nat): (r: Io)
    requires |io.flags| == 4 && k <= |env|
    ensures |r.flags| == 4 && r.armed == io.armed
    decreases |env| - k
  {
    if k == |env| then io else StepFrom(StepAll(io, env[k]), env, k + 1)
  }

  /** alarm's loop from a loop test, alarm_time rings having been done: while
      no flag is set and alarm_time <= 10 it shows 0 and waits through the
      tone and the two 500 ms halves of the blink, three suspensions. When
      the batches run out inside a ring, the state is the one the batches
      that were left produce. */
  ghost function AlarmLoop(io: Io, alarmTime: int, env: seq<Batch>, k: nat, acc: seq<int>): (o: Outcome<bool, Io>)
    requires |io.flags| == 4 && 0 <= alarmTime <= 11 && k <= |env|
    ensures |o.state.flags| == 4 && k <= o.used <= |env|
    decreases |env| - k
  {
    if !(io.flags == Cleared && alarmTime <= 10) then Outcome(Some(true), io, k, acc)
    else if |env| - k < 3 then Outcome(None, StepFrom(io, env, k), |env|, acc + [0])
    else
      var rung := StepAll(StepAll(StepAll(io, env[k]), env[k + 1]), env[k + 2]);
      AlarmLoop(rung, alarmTime + 1, env, k + 3, acc + [0])
  }

  // What each loop's result means: where it stops, what it has shown, what
  // it returns.

  /** setTime's loop stops only on a loop test that sees [1, 1, 0, 0], or
      when the batches run out after a pass; it shows one value per pass and
      returns the last value shown (the carried value when no pass ran),
      which is the carried value or a multiple of 5. */
  lemma {:induction false} SetLoopShape(io: Io, cv: int, env: seq<Batch>, k: nat, acc: seq<int>, resync: bool)
    requires |io.flags| == 4 && k <= |env|
    ensures var o := SetLoop(io, cv, env, k, acc, resync);
      acc <= o.shown &&
      (o.result.None? ==> o.used == |env| && |o.shown| == |acc| + (o.used - k) + 1) &&
      (o.result.Some? ==> o.state.flags == Tap && |o.shown| == |acc| + (o.used - k)) &&
      (o.result.Some? ==> o.result.value == if |o.shown| == |acc| then cv else o.shown[|o.shown| - 1]) &&
      (o.result.Some? ==> o.result.value == cv || o.result.value % Step == 0)
    decreases |env| - k
  {
    if io.flags != Tap {
      var (io1, next) := PollIo(io, cv, resync);
      if k < |env| {
        var o := SetLoop(StepAll(io1, env[k]), next, env, k + 1, acc + [next], resync);
        SetLoopShape(StepAll(io1, env[k]), next, env, k + 1, acc + [next], resync);
        assert o.shown[|acc|] == (acc + [next])[|acc|];
      }
    }
  }

  /** countDown's loop stops at the first loop test that sees a flag set or
      t below 0, or when the batches run out after a render; its result is
      the value at that test, one second less per batch used. */
  lemma {:induction false} CountLoopShape(io: Io, t: int, env: seq<Batch>, k: nat, acc: seq<int>)
    requires |io.flags| == 4 && k <= |env|
    ensures var o := CountLoop(io, t, env, k, acc);
      o.state.armed == io.armed && |acc| <= |o.shown| &&
      (o.result.None? ==> o.used == |env| && |o.shown| == |acc| + (o.used - k) + 1) &&
      (o.result.Some? ==> |o.shown| == |acc| + (o.used - k) && o.result.value == t - (o.used - k)) &&
      (o.result.Some? ==> o.result.value < 0 || o.state.flags != Cleared) &&
      (o.result.Some? && t >= 0 ==> o.result.value >= -1) &&
      (t >= 0 ==> |o.shown| - |acc| <= t + 1) &&
      (t >= 0 && io.flags == Cleared ==> |o.shown| > |acc|) &&
      (t < 0 ==> o == Outcome(Some(t), io, k, acc))
    decreases |env| - k
  {
    if t >= 0 && io.flags == Cleared && k < |env| {
      CountLoopShape(StepAll(io, env[k]), t - 1, env, k + 1, acc + [t]);
    }
  }

  /** What countDown's loop shows: t, t - 1, ..., one value per pass. */
  lemma {:induction false} CountLoopShows(io: Io, t: int, env: seq<Batch>, k: nat, acc: seq<int>)
    requires |io.flags| == 4 && k <= |env|
    ensures var o := CountLoop(io, t, env, k, acc);
      |acc| <= |o.shown| && o.shown == acc + Descend(t, |o.shown| - |acc|)
    decreases |env| - k
  {
    if t >= 0 && io.flags == Cleared {
      if k == |env| {
        assert Descend(t, 1) == [t];
      } else {
        var o := CountLoop(StepAll(io, env[k]), t - 1, env, k + 1, acc + [t]);
        CountLoopShows(StepAll(io, env[k]), t - 1, env, k + 1, acc + [t]);
        var n := |o.shown| - |acc|;
        assert Descend(t, n) == [t] + Descend(t - 1, n - 1);
        assert (acc + [t]) + Descend(t - 1, n - 1) == acc + ([t] + Descend(t - 1, n - 1));
      }
    } else {
      assert acc + Descend(t, 0) == acc;
    }
  }

  /** alarm's loop shows 0 once per ring, rings at most 11 - alarm_time more
      times, three suspensions each, and stops at the first loop test that
      sees a flag set or the eleventh ring done; it then reports True. */
  lemma {:induction false} AlarmLoopShape(io: Io, alarmTime: int, env: seq<Batch>, k: nat, acc: seq<int>)
    requires |io.flags| == 4 && 0 <= alarmTime <= 11 && k <= |env|
    ensures var o := AlarmLoop(io, alarmTime, env, k, acc);
      o.state.armed == io.armed &&
      |o.shown| <= |acc| + 11 - alarmTime && acc <= o.shown &&
      (forall i :: |acc| <= i < |o.shown| ==> o.shown[i] == 0) &&
      (o.result.None? ==> o.used == |env| && |o.shown| > |acc|) &&
      (o.result.Some? ==> o.result.value && o.used - k == 3 * (|o.shown| - |acc|)) &&
      (o.result.Some? ==> alarmTime + (|o.shown| - |acc|) == 11 || o.state.flags != Cleared)
    decreases |env| - k
  {
    if io.flags == Cleared && alarmTime <= 10 && |env| - k >= 3 {
      var rung := StepAll(StepAll(StepAll(io, env[k]), env[k + 1]), env[k + 2]);
      var o := AlarmLoop(rung, alarmTime + 1, env, k + 3, acc + [0]);
      AlarmLoopShape(rung, alarmTime + 1, env, k + 3, acc + [0]);
      assert forall i :: |acc| <= i < |o.shown| ==> o.shown[i] == 0 by {
        forall i | |acc| <= i < |o.shown|
          ensures o.shown[i] == 0
        {
          if i == |acc| {
            assert o.shown[i] == (acc + [0])[i];
          }
        }
      }
    }
  }

  // What the loops keep: from a bounded encoder and a carried value the
  // main loop may hold, every value shown is displayable, the encoder stays
  // in bounds, and the value returned may be carried again.

  lemma {:induction false} SetLoopInRange(io: Io, cv: int, env: seq<Batch>, k: nat, acc: seq<int>, resync: bool)
    requires |io.flags| == 4 && k <= |env| && EncInRange(io.enc) && Settled(cv) && Displayable(acc)
    ensures var o := SetLoop(io, cv, env, k, acc, resync);
      EncInRange(o.state.enc) && Displayable(o.shown) && (o.result.Some? ==> Settled(o.result.value))
    decreases |env| - k
  {
    if io.flags != Tap {
      var (io1, next) := PollIo(io, cv, resync);
      SnapInRange(io.enc, cv);
      DisplayableAppend(acc, [next]);
      if k < |env| {
        StepAllKeepsEncInRange(io1, env[k]);
        SetLoopInRange(StepAll(io1, env[k]), next, env, k + 1, acc + [next], resync);
      }
    }
  }

  lemma {:induction false} CountLoopKeepsEncInRange(io: Io, t: int, env: seq<Batch>, k: nat, acc: seq<int>)
    requires |io.flags| == 4 && k <= |env| && EncInRange(io.enc)
    ensures EncInRange(CountLoop(io, t, env, k, acc).state.enc)
    decreases |env| - k
  {
    if t >= 0 && io.flags == Cleared && k < |env| {
      StepAllKeepsEncInRange(io, env[k]);
      CountLoopKeepsEncInRange(StepAll(io, env[k]), t - 1, env, k + 1, acc + [t]);
    }
  }

  lemma {:induction false} StepFromKeepsEncInRange(io: Io, env: seq<Batch>, k: nat)
    requires |io.flags| == 4 && k <= |env| && EncInRange(io.enc)
    ensures EncInRange(StepFrom(io, env, k).enc)
    decreases |env| - k
  {
    if k < |env| {
      StepAllKeepsEncInRange(io, env[k]);
      StepFromKeepsEncInRange(StepAll(io, env[k]), env, k + 1);
    }
  }

  lemma {:induction false} AlarmLoopKeepsEncInRange(io: Io, alarmTime: int, env: seq<Batch>, k: nat, acc: seq<int>)
    requires |io.flags| == 4 && 0 <= alarmTime <= 11 && k <= |env| && EncInRange(io.enc)
    ensures EncInRange(AlarmLoop(io, alarmTime, env, k, acc).state.enc)
    decreases |env| - k
  {
    if io.flags == Cleared && alarmTime <= 10 {
      if |env| - k < 3 {
        StepFromKeepsEncInRange(io, env, k);
      } else {
        var io1 := StepAll(io, env[k]);
        var io2 := StepAll(io1, env[k + 1]);
        StepAllKeepsEncInRange(io, env[k]);
        StepAllKeepsEncInRange(io1, env[k + 1]);
        StepAllKeepsEncInRange(io2, env[k + 2]);
        AlarmLoopKeepsEncInRange(StepAll(io2, env[k + 2]), alarmTime + 1, env, k + 3, acc + [0]);
      }
    }
  }
}
