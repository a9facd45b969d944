/** Post-processing of the generated melody: every note's start and end are
    snapped to the sixteenth-note grid with `round(t * 4) / 4`, and its
    velocity is replaced by a random value in [80, 127]. The notes are
    rewritten in place. */
module Melody {

  /** A note of the generated sequence: MIDI pitch, MIDI velocity, start and
      end time in beats. */
  datatype MelodyNote = MelodyNote(pitch: int, velocity: int, startTime: real, endTime: real)

  /** The bounds of the random velocity (both inclusive, as `random.randint`). */
  const MinVelocity: int := 80
  const MaxVelocity: int := 127

  /** The grid has four steps per beat. */
  const StepsPerBeat: real := 4.0

  /** Python's `round` of a float to an int: to the nearest integer, ties to
      the even one. */
  function RoundHalfEven(x: real): (n: int)
    ensures -0.5 <= n as real - x <= 0.5
    ensures (n as real - x == 0.5 || x - n as real == 0.5) ==> n % 2 == 0
  {
    var f := x.Floor;
    var frac := x - f as real;
    if frac < 0.5 then f
    else if frac > 0.5 then f + 1
    else if f % 2 == 0 then f
    else f + 1
  }

  /** The two properties of `RoundHalfEven` pin down its value. */
  lemma RoundHalfEvenUnique(x: real, m: int)
    requires -0.5 <= m as real - x <= 0.5
    requires (m as real - x == 0.5 || x - m as real == 0.5) ==> m % 2 == 0
    ensures m == RoundHalfEven(x)
  {
  }

  /** Rounding never moves a smaller number above a larger one. */
  lemma RoundHalfEvenMonotone(x: real, y: real)
    requires x <= y
    ensures RoundHalfEven(x) <= RoundHalfEven(y)
  {
  }

  /** `round(t * 4) / 4`: the time snapped to the sixteenth-note grid. */
  function Quantise(t: real): (q: real)
    ensures -0.125 <= q - t <= 0.125
  {
    RoundHalfEven(t * StepsPerBeat) as real / StepsPerBeat
  }

  /** A time on the sixteenth-note grid: a whole number of steps. */
  predicate OnGrid(t: real)
  {
    (t * StepsPerBeat).Floor as real == t * StepsPerBeat
  }

  /** Snapping lands on the grid. */
  lemma QuantiseOnGrid(t: real)
    ensures OnGrid(Quantise(t))
  {
    var n := RoundHalfEven(t * StepsPerBeat);
    assert Quantise(t) * StepsPerBeat == n as real;
  }

  /** A time already on the grid is left where it is. */
  lemma QuantiseKeepsGrid(t: real)
    requires OnGrid(t)
    ensures Quantise(t) == t
  {
    var k := (t * StepsPerBeat).Floor;
    RoundHalfEvenUnique(t * StepsPerBeat, k);
  }

  /** Snapping twice is snapping once. */
  lemma QuantiseIdempotent(t: real)
    ensures Quantise(Quantise(t)) == Quantise(t)
  {
    QuantiseOnGrid(t);
    QuantiseKeepsGrid(Quantise(t));
  }

  /** Snapping keeps times in order: a note never ends before it starts. */
  lemma QuantiseMonotone(s: real, t: real)
    requires s <= t
    ensures Quantise(s) <= Quantise(t)
  {
    RoundHalfEvenMonotone(s * StepsPerBeat, t * StepsPerBeat);
  }

  /** Every time within an eighth of a beat of 0 snaps to 0 (both ends of
      that window are ties, rounded to the even 0): a note that starts and
      ends inside it is left with no length at all. */
  lemma QuantiseCollapsesShortNote(start: real, end: real)
    requires -0.125 <= start <= 0.125 && -0.125 <= end <= 0.125
    ensures Quantise(start) == Quantise(end) == 0.0
  {
    RoundHalfEvenUnique(start * StepsPerBeat, 0);
    RoundHalfEvenUnique(end * StepsPerBeat, 0);
  }

  /** How one note looks after post-processing, given how it looked before:
      same pitch, times snapped to the grid, a velocity in [80, 127]. */
  predicate PostProcessed(before: MelodyNote, after: MelodyNote)
  {
    after.pitch == before.pitch
    && after.startTime == Quantise(before.startTime)
    && after.endTime == Quantise(before.endTime)
    && MinVelocity <= after.velocity <= MaxVelocity
  }

  /** The post-processing loop, rewriting every note in place. The random
      velocity is any value in [80, 127]. */
  method PostProcess(notes: array<MelodyNote>)
    modifies notes
    ensures forall i :: 0 <= i < notes.Length ==> PostProcessed(old(notes[i]), notes[i])
  {
    for i := 0 to notes.Length
      invariant forall j :: 0 <= j < i ==> PostProcessed(old(notes[j]), notes[j])
      invariant forall j :: i <= j < notes.Length ==> notes[j] == old(notes[j])
    {
      var note := notes[i];
      var start := RoundHalfEven(note.startTime * 4.0) as real / 4.0;
      var end := RoundHalfEven(note.endTime * 4.0) as real / 4.0;
      var velocity :| MinVelocity <= velocity <= MaxVelocity;
      notes[i] := note.(startTime := start, endTime := end, velocity := velocity);
    }
  }

  /** A post-processed note that started no later than it ended still does. */
  lemma PostProcessKeepsOrder(before: MelodyNote, after: MelodyNote)
    requires PostProcessed(before, after)
    requires before.startTime <= before.endTime
    ensures after.startTime <= after.endTime
  {
    QuantiseMonotone(before.startTime, before.endTime);
  }

  /** Post-processing an already post-processed note is indistinguishable
      from post-processing it once. */
  lemma PostProcessTwice(first: MelodyNote, second: MelodyNote, third: MelodyNote)
    requires PostProcessed(first, second) && PostProcessed(second, third)
    ensures PostProcessed(first, third)
  {
    QuantiseIdempotent(first.startTime);
    QuantiseIdempotent(first.endTime);
  }
}
