/** What the environment can do at a suspension point of main.py and
    main2.py: the Pushbutton library calls buttonMonitor(1, slot) for a
    classified gesture, the encoder interrupt moves the bounded position, and
    the inactivity timer (Delay_ms) runs go_to_sleep when its deadline passes
    while it is armed. */
module Gestures {
  import opened TimerCore

  /** The four gestures the Pushbutton library reports. */
  datatype Gesture = Press | Release | Double | Long

  /** The flag slot each gesture's callback writes (main.py:40-43). */
  function Slot(g: Gesture): (i: int)
    ensures 0 <= i < 4
    ensures (i == 0 <==> g == Press) && (i == 1 <==> g == Release)
    ensures (i == 2 <==> g == Double) && (i == 3 <==> g == Long)
  {
    match g
    case Press => 0
    case Release => 1
    case Double => 2
    case Long => 3
  }

  datatype Event =
    | Gesture(g: Gesture)     // Pushbutton callback: buttonMonitor(1, Slot(g))
    | Turn(position: int)     // encoder interrupt; the collaborator clamps the position
    | Timeout                 // the inactivity timer's deadline has passed

  /** The state the environment acts on: the encoder position, the gesture
      flags and whether the inactivity timer is armed. */
  datatype Io = Io(enc: int, flags: seq<int>, armed: bool)

  /** The effect of one event. A timeout only has an effect on an armed timer;
      go_to_sleep then stops the timer, sleeps, clears the flags and re-arms. */
  function StepIo(io: Io, e: Event): (r: Io)
    requires |io.flags| == 4
    ensures |r.flags| == 4 && r.armed == io.armed
    ensures e.Gesture? ==> r.enc == io.enc && r.flags == io.flags[Slot(e.g) := 1]
    ensures e.Turn? ==> r.enc == Clamp(e.position) && r.flags == io.flags
    ensures e.Timeout? && io.armed ==> r.enc == io.enc && r.flags == Cleared
    ensures e.Timeout? && !io.armed ==> r == io
  {
    match e
    case Gesture(g) => io.(flags := io.flags[Slot(g) := 1])
    case Turn(p) => io.(enc := Clamp(p))
    case Timeout => if io.armed then io.(flags := Cleared, armed := true) else io
  }

  /** The effect of the events of one suspension point, in order. No event
      changes whether the timer is armed: a firing timer re-arms itself. */
  function StepAll(io: Io, batch: seq<Event>): (r: Io)
    requires |io.flags| == 4
    ensures |r.flags| == 4 && r.armed == io.armed
    decreases |batch|
  {
    if batch == [] then io else StepAll(StepIo(io, batch[0]), batch[1..])
  }

  /** The slots some gesture event of the batch writes. */
  function SlotsHit(batch: seq<Event>): (s: set<int>)
    ensures forall i :: i in s ==> 0 <= i < 4
    decreases |batch|
  {
    if batch == [] then {}
    else (if batch[0].Gesture? then {Slot(batch[0].g)} else {}) + SlotsHit(batch[1..])
  }

  /** Gestures are not queued: while the timer is disarmed (countdown and
      alarm), a batch sets to 1 exactly the slots its gestures name, however
      often each is named, and leaves every other slot as it was. */
  lemma {:induction false} GesturesCoalesce(io: Io, batch: seq<Event>, i: int)
    requires |io.flags| == 4 && !io.armed && 0 <= i < 4
    ensures StepAll(io, batch).flags[i] == if i in SlotsHit(batch) then 1 else io.flags[i]
    decreases |batch|
  {
    if batch != [] {
      GesturesCoalesce(StepIo(io, batch[0]), batch[1..], i);
    }
  }

  /** The encoder collaborator keeps its position inside its bounds. */
  lemma {:induction false} StepAllKeepsEncInRange(io: Io, batch: seq<Event>)
    requires |io.flags| == 4
    ensures EncInRange(io.enc) ==> EncInRange(StepAll(io, batch).enc)
    decreases |batch|
  {
    if batch != [] {
      StepAllKeepsEncInRange(StepIo(io, batch[0]), batch[1..]);
    }
  }

  /** Flags only ever hold 0 or 1. */
  ghost predicate Binary(flags: seq<int>) {
    forall i :: 0 <= i < |flags| ==> flags[i] == 0 || flags[i] == 1
  }

  lemma {:induction false} StepAllKeepsBinary(io: Io, batch: seq<Event>)
    requires |io.flags| == 4 && Binary(io.flags)
    ensures Binary(StepAll(io, batch).flags)
    decreases |batch|
  {
    if batch != [] {
      StepAllKeepsBinary(StepIo(io, batch[0]), batch[1..]);
    }
  }

  /** A go_to_sleep discards every gesture that arrived before it: what the
      flags hold after the batch depends only on what follows the timeout. */
  lemma {:induction false} TimeoutDiscardsEarlierGestures(io: Io, before: seq<Event>, after: seq<Event>)
    requires |io.flags| == 4 && io.armed
    ensures StepAll(io, before + [Timeout] + after).flags
         == StepAll(StepAll(io, before).(flags := Cleared), after).flags
    decreases |before|
  {
    if before == [] {
      assert before + [Timeout] + after == [Timeout] + after;
      assert ([Timeout] + after)[1..] == after;
    } else {
      assert (before + [Timeout] + after)[1..] == before[1..] + [Timeout] + after;
      TimeoutDiscardsEarlierGestures(StepIo(io, before[0]), before[1..], after);
    }
  }
}
