/** Definitions shared by the three controller scripts: the gesture-flag
    patterns, encoder snapping, the countdown's rendered run, and the trace of
    phases the main loop goes through. */
module TimerCore {

  datatype Option<T> = None | Some(value: T)

  /** What one stage of the main loop does with the environment: its result,
      or None when the batches ran out first; the state it leaves (when the
      batches ran out, the state at the last loop test); how many batches it
      waited through; the values it passed to showTime. */
  datatype Outcome<T, S> = Outcome(result: Option<T>, state: S, used: nat, shown: seq<int>)

  /** Bounds of the rotary encoder (RANGE_BOUNDED, min_val=0, max_val=5999). */
  const EncMin: int := 0
  const EncMax: int := 5999

  /** Detent step the setter snaps to. */
  const Step: int := 5

  /** The four gesture slots: press, release, double, long. */
  const Cleared: seq<int> := [0, 0, 0, 0]
  /** A plain tap (press and release): confirms the set time. */
  const Tap: seq<int> := [1, 1, 0, 0]
  /** Press held until the long-press fires: resets the encoder. */
  const Hold: seq<int> := [1, 0, 0, 1]

  /** What the bounded encoder collaborator does with a physical position. */
  function Clamp(p: int): (r: int)
    ensures EncMin <= r <= EncMax
    ensures EncMin <= p <= EncMax ==> r == p
    ensures p < EncMin ==> r == EncMin
    ensures p > EncMax ==> r == EncMax
  {
    if p < EncMin then EncMin else if p > EncMax then EncMax else p
  }

  /** The setter's response to an encoder reading: snap down to a multiple of
      5 after an increase, snap up after a decrease, keep the value otherwise.
      Python's `%` and `//` floor, which agrees with Dafny for divisor 5. */
  function Snap(reading: int, current: int): (r: int)
    ensures reading > current ==> r % Step == 0 && reading - (Step - 1) <= r <= reading
    ensures reading < current ==> r % Step == 0 && reading <= r <= reading + (Step - 1)
    ensures reading == current ==> r == current
  {
    if reading > current then reading - reading % Step
    else if reading < current then (reading + 4) / Step * Step
    else current
  }

  /** Snapping down is the greatest multiple of 5 not above the reading,
      snapping up the least multiple of 5 not below it. */
  lemma SnapIsNearestMultiple(reading: int, current: int, m: int)
    requires m % Step == 0
    ensures reading > current && m <= reading ==> m <= Snap(reading, current)
    ensures reading < current && m >= reading ==> m >= Snap(reading, current)
  {
  }

  /** Reading the same position again after a snap changes nothing: the second
      reading lies on the same side of the snapped value as the first one lay
      of the old value, so it snaps to the same multiple of 5. */
  lemma SnapIdempotent(reading: int, current: int)
    ensures Snap(reading, Snap(reading, current)) == Snap(reading, current)
  {
  }

  /** Without the encoder resync of main2.py and test.py, an encoder resting
      off the grid of 5 keeps differing from the value snapped from it, so
      every later pass snaps to that same value again and counts as a change
      (main.py re-arms the inactivity timer on each of them). */
  lemma OffGridReadingKeepsDiffering(reading: int, before: int)
    requires reading % Step != 0 && reading != before
    ensures var v := Snap(reading, before); v != reading && Snap(reading, v) == v
  {
  }

  /** Dialling up to 37 shows 35; dialling back down to 33 also shows 35. */
  lemma SnapExamples()
    ensures Snap(37, 0) == 35
    ensures Snap(33, 35) == 35
    ensures Snap(33, 40) == 35
  {
  }

  /** The largest value the setter can produce from a bounded encoder. */
  const MaxSetting: int := 5995

  /** An encoder position inside the collaborator's bounds. */
  ghost predicate EncInRange(enc: int) {
    EncMin <= enc <= EncMax
  }

  /** A value the main loop may carry into setTime: a set time, or the -1 an
      expired countdown leaves behind. */
  ghost predicate Settled(v: int) {
    -1 <= v <= MaxSetting
  }

  /** Every value rendered is a duration the display can show as MM:SS. */
  ghost predicate Displayable(s: seq<int>) {
    forall i :: 0 <= i < |s| ==> 0 <= s[i] <= EncMax
  }

  /** From a bounded reading and a carried value, snapping stays a
      displayable set time. */
  lemma SnapInRange(reading: int, current: int)
    requires EncInRange(reading) && Settled(current)
    ensures 0 <= Snap(reading, current) <= MaxSetting
  {
  }

  lemma DisplayableAppend(a: seq<int>, b: seq<int>)
    requires Displayable(a) && Displayable(b)
    ensures Displayable(a + b)
  {
  }

  /** The values a countdown renders: from, from - 1, ..., n of them. */
  function Descend(from: int, n: nat): (r: seq<int>)
    ensures |r| == n
    ensures forall i :: 0 <= i < n ==> r[i] == from - i
    decreases n
  {
    if n == 0 then [] else [from] + Descend(from - 1, n - 1)
  }

  /** One more step of the countdown appends the next lower value. */
  lemma DescendSnoc(from: int, n: nat)
    ensures Descend(from, n + 1) == Descend(from, n) + [from - n]
  {
  }

  /** A countdown from a non-negative start that stops at -1 at the latest
      never shows a negative value. */
  lemma DescendNonNegative(from: int, n: nat)
    requires n <= from + 1
    ensures forall i :: 0 <= i < n ==> Descend(from, n)[i] >= 0
  {
  }

  /** A countdown from a set time renders only displayable values. */
  lemma DescendDisplayable(from: int, n: nat)
    requires n <= from + 1 && from <= EncMax
    ensures Displayable(Descend(from, n))
  {
  }

  /** One completed state of the main loop, as the main loop sees it. */
  datatype Phase =
    | Setting(entry: int, forced: bool, result: int)   // setTime(entry); forced: encoder set to entry
    | Counting(start: int, result: int)                 // countDown(start)
    | Ringing(after: int, rings: nat, outcome: bool)    // alarm() after countDown returned `after`

  /** The transition rules of the main loop between two consecutive phases:
      the countdown starts from the set time; the alarm runs only when the
      countdown result is <= 0; the next setter entry receives the countdown
      result and forces the encoder iff that value is positive and the
      stored alarm outcome is false. */
  ghost predicate Follows(a: Phase, b: Phase) {
    match a
    case Setting(_, _, r) => b.Counting? && b.start == r
    case Counting(_, r) =>
      if r <= 0 then b.Ringing? && b.after == r
      else b.Setting? && b.entry == r && b.forced == (r > 0)
    case Ringing(after, _, outcome) =>
      b.Setting? && b.entry == after && b.forced == (after > 0 && !outcome)
  }

  /** A well-sequenced run of the main loop: it starts with setTime(0), which
      does not force the encoder, and every phase follows its predecessor. */
  ghost predicate Protocol(ps: seq<Phase>) {
    (|ps| > 0 ==> ps[0].Setting? && ps[0].entry == 0 && !ps[0].forced) &&
    forall i :: 0 <= i < |ps| - 1 ==> Follows(ps[i], ps[i + 1])
  }

  /** Every alarm in the run rang at most `bound` times. */
  ghost predicate RingsAtMost(ps: seq<Phase>, bound: nat) {
    forall i :: 0 <= i < |ps| && ps[i].Ringing? ==> ps[i].rings <= bound
  }

  /** Every alarm in the run reported `true`. */
  ghost predicate AlarmsReportTrue(ps: seq<Phase>) {
    forall i :: 0 <= i < |ps| && ps[i].Ringing? ==> ps[i].outcome
  }

  /** Where a controller's main loop stands between two stages: about to
      call setTime with the carried value, countDown with the value setTime
      returned, or alarm after a countdown that ended at `after`. */
  datatype Point = AtSet(setTime: int) | AtCount(start: int) | AtAlarm(after: int)

  /** Orders the stages within one pass of the loop: countDown comes first
      among those that may use no input, then alarm, then setTime. */
  function Rank(at: Point): (r: nat)
    ensures at.AtSet? <==> r == 0
  {
    match at
    case AtSet(_) => 0
    case AtAlarm(_) => 1
    case AtCount(_) => 2
  }

  /** The loop state that the next phase is appended against: the value that
      the main loop will pass to setTime and the stored alarm outcome. */
  ghost predicate Carried(ps: seq<Phase>, setTime: int, alarmTrg: bool) {
    if ps == [] then setTime == 0 && !alarmTrg
    else match ps[|ps| - 1]
      case Setting(_, _, _) => false
      case Counting(_, r) => r > 0 && setTime == r && !alarmTrg
      case Ringing(after, _, outcome) => setTime == after && alarmTrg == outcome
  }

  /** Appending a phase that follows the last one keeps the run well-sequenced. */
  lemma ProtocolSnoc(ps: seq<Phase>, p: Phase)
    requires Protocol(ps)
    requires ps == [] ==> p.Setting? && p.entry == 0 && !p.forced
    requires ps != [] ==> Follows(ps[|ps| - 1], p)
    ensures Protocol(ps + [p])
  {
  }

  /** Appending setTime's phase to a run whose carried state is (v, trg). */
  lemma SettingFollowsCarried(ps: seq<Phase>, v: int, trg: bool, result: int)
    requires Protocol(ps) && Carried(ps, v, trg)
    ensures Protocol(ps + [Setting(v, v > 0 && !trg, result)])
  {
  }

  /** alarm_trg never decides whether the encoder is forced: after an alarm
      the carried value is the countdown result, which is <= 0, so the
      encoder is forced exactly when the carried value is positive. */
  lemma {:induction false} AlarmTrgNeverDecides(ps: seq<Phase>)
    requires Protocol(ps)
    ensures forall i :: 0 <= i < |ps| && ps[i].Setting? ==> (ps[i].forced <==> ps[i].entry > 0)
  {
    forall i | 0 <= i < |ps| && ps[i].Setting? ensures ps[i].forced <==> ps[i].entry > 0 {
      if i > 0 {
        assert Follows(ps[i - 1], ps[i]);
        if ps[i - 1].Ringing? {
          assert i - 1 > 0;
          assert Follows(ps[i - 2], ps[i - 1]);
          assert ps[i - 2].Counting?;
        }
      }
    }
  }

  /** After a countdown that ended at a positive value (interrupted), the
      entry of the next setter equals that remaining time and forces the
      encoder; after a countdown that ended at <= 0, the alarm runs next. */
  lemma AfterCounting(ps: seq<Phase>, i: nat)
    requires Protocol(ps) && i + 1 < |ps| && ps[i].Counting?
    ensures ps[i].result > 0 ==> ps[i + 1] == Setting(ps[i].result, true, ps[i + 1].result)
    ensures ps[i].result <= 0 <==> ps[i + 1].Ringing?
  {
  }

  /** An alarm in a well-sequenced run is always directly preceded by a
      countdown whose result is <= 0. */
  lemma RingingOnlyAfterExpiry(ps: seq<Phase>, i: nat)
    requires Protocol(ps) && i < |ps| && ps[i].Ringing?
    ensures i >= 1 && ps[i - 1].Counting? && ps[i - 1].result <= 0
    ensures ps[i].after == ps[i - 1].result
  {
  }
}
