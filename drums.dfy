/** Conversion of the drums model's output into the drum part of the score:
    each drum note is mapped onto a canonical General MIDI percussion key
    and appended as a sixteenth note that keeps the note's velocity. */
module Drums {

  /** A drum note from the generated sequence; only its pitch and velocity
      reach the score. */
  datatype DrumHit = DrumHit(pitch: int, velocity: int)

  /** A note appended to a score part: MIDI pitch, duration in quarter
      lengths, MIDI velocity. */
  datatype PartNote = PartNote(pitch: int, duration: real, velocity: int)

  /** Every converted drum note lasts a sixteenth (a quarter of a beat). */
  const HitDuration: real := 0.25

  /** The drum families that the conversion collapses. */
  datatype Family = Kick | Snare | HiHat | OtherPercussion

  /** The family of a key in the General MIDI level 1 percussion key map:
      35 Acoustic Bass Drum, 36 Bass Drum 1; 38 Acoustic Snare,
      40 Electric Snare; 42 Closed Hi-Hat, 44 Pedal Hi-Hat, 46 Open Hi-Hat. */
  function FamilyOf(key: int): Family
  {
    if key == 35 || key == 36 then Kick
    else if key == 38 || key == 40 then Snare
    else if key == 42 || key == 44 || key == 46 then HiHat
    else OtherPercussion
  }

  /** The one key each collapsed family is written with. */
  function CanonicalKey(f: Family): int
    requires f != OtherPercussion
  {
    match f
    case Kick => 36
    case Snare => 38
    case HiHat => 42
  }

  /** The key a drum note is written with in the drum part. */
  function CanonDrum(pitch: int): (key: int)
    ensures FamilyOf(key) == FamilyOf(pitch)
    ensures FamilyOf(pitch) == OtherPercussion ==> key == pitch
    ensures FamilyOf(pitch) != OtherPercussion ==> key == CanonicalKey(FamilyOf(pitch))
  {
    if pitch in {36, 35} then 36
    else if pitch in {38, 40} then 38
    else if pitch in {42, 44, 46} then 42
    else pitch
  }

  /** Kicks, snares and hi-hats land on 36, 38 and 42. */
  lemma CanonDrumTable(pitch: int)
    ensures pitch == 35 || pitch == 36 ==> CanonDrum(pitch) == 36
    ensures pitch == 38 || pitch == 40 ==> CanonDrum(pitch) == 38
    ensures pitch == 42 || pitch == 44 || pitch == 46 ==> CanonDrum(pitch) == 42
    ensures CanonDrum(pitch) in {36, 38, 42} <==> pitch in {35, 36, 38, 40, 42, 44, 46}
  {
  }

  /** A key is written unchanged exactly when it is not an alias that the
      conversion folds onto another key. */
  lemma CanonDrumFixedPoints(pitch: int)
    ensures CanonDrum(pitch) == pitch <==> pitch !in {35, 40, 44, 46}
  {
  }

  /** Remapping a remapped key changes nothing. */
  lemma CanonDrumIdempotent(pitch: int)
    ensures CanonDrum(CanonDrum(pitch)) == CanonDrum(pitch)
  {
  }

  /** The part note written for one drum note. */
  function Strike(hit: DrumHit): (note: PartNote)
    ensures note.pitch == CanonDrum(hit.pitch)
    ensures FamilyOf(note.pitch) == FamilyOf(hit.pitch)
    ensures CanonDrum(note.pitch) == note.pitch
    ensures note.duration == HitDuration && note.velocity == hit.velocity
  {
    CanonDrumIdempotent(hit.pitch);
    PartNote(CanonDrum(hit.pitch), HitDuration, hit.velocity)
  }

  /** The drum part written for a sequence of drum notes, note by note in
      input order. */
  function DrumPart(hits: seq<DrumHit>): (part: seq<PartNote>)
    ensures |part| == |hits|
    ensures forall i :: 0 <= i < |hits| ==>
      part[i].pitch == CanonDrum(hits[i].pitch)
      && part[i].duration == HitDuration
      && part[i].velocity == hits[i].velocity
  {
    if |hits| == 0 then [] else DrumPart(hits[..|hits| - 1]) + [Strike(hits[|hits| - 1])]
  }

  /** The conversion loop: appends one part note per drum note. */
  method ConvertDrums(hits: seq<DrumHit>) returns (part: seq<PartNote>)
    ensures part == DrumPart(hits)
    ensures |part| == |hits|
    ensures forall i :: 0 <= i < |hits| ==>
      part[i].pitch == CanonDrum(hits[i].pitch)
      && part[i].duration == HitDuration
      && part[i].velocity == hits[i].velocity
  {
    part := [];
    for i := 0 to |hits|
      invariant part == DrumPart(hits[..i])
    {
      var hit := hits[i];
      var n: PartNote;
      if hit.pitch in [36, 35] {
        n := PartNote(36, HitDuration, hit.velocity);
      } else if hit.pitch in [38, 40] {
        n := PartNote(38, HitDuration, hit.velocity);
      } else if hit.pitch in [42, 44, 46] {
        n := PartNote(42, HitDuration, hit.velocity);
      } else {
        n := PartNote(hit.pitch, HitDuration, hit.velocity);
      }
      assert hits[..i + 1][..i] == hits[..i];
      part := part + [n];
    }
    assert hits[..|hits|] == hits;
  }

  /** Reads a part back as drum notes: each note's pitch and velocity. */
  function AsHits(part: seq<PartNote>): (hits: seq<DrumHit>)
    ensures |hits| == |part|
    ensures forall i :: 0 <= i < |part| ==>
      hits[i].pitch == part[i].pitch && hits[i].velocity == part[i].velocity
  {
    seq(|part|, i requires 0 <= i < |part| => DrumHit(part[i].pitch, part[i].velocity))
  }

  /** Converting a converted drum part again changes nothing. */
  lemma DrumPartIdempotent(hits: seq<DrumHit>)
    ensures DrumPart(AsHits(DrumPart(hits))) == DrumPart(hits)
  {
    var once := DrumPart(hits);
    var twice := DrumPart(AsHits(once));
    forall i | 0 <= i < |hits|
      ensures twice[i] == once[i]
    {
      CanonDrumIdempotent(hits[i].pitch);
    }
  }

  /** The conversion works note by note: converting two runs of drum notes
      one after the other gives the two parts one after the other. */
  lemma {:induction false} DrumPartAppend(a: seq<DrumHit>, b: seq<DrumHit>)
    ensures DrumPart(a + b) == DrumPart(a) + DrumPart(b)
    decreases |b|
  {
    if |b| == 0 {
      assert a + b == a;
    } else {
      var c := b[..|b| - 1];
      assert (a + b)[..|a + b| - 1] == a + c;
      assert (a + b)[|a + b| - 1] == b[|b| - 1];
      DrumPartAppend(a, c);
    }
  }

  /** The total length of a part whose notes are appended one after another. */
  function TotalDuration(part: seq<PartNote>): real
  {
    if |part| == 0 then 0.0 else TotalDuration(part[..|part| - 1]) + part[|part| - 1].duration
  }

  /** The drum part lasts a sixteenth per drum note, whatever the onsets of
      the generated notes were. */
  lemma {:induction false} DrumPartDuration(hits: seq<DrumHit>)
    ensures TotalDuration(DrumPart(hits)) == HitDuration * |hits| as real
  {
    if |hits| > 0 {
      var init := hits[..|hits| - 1];
      DrumPartDuration(init);
      assert DrumPart(hits)[..|hits| - 1] == DrumPart(init);
    }
  }
}
