/** Notes, rests and chords (MultiNote) of the music model. */
module Notes {

  /** Pitch value of a rest: far above any MIDI pitch. */
  const R: int := 20000
  /** Any pitch above this is treated as a rest, so rests survive transposition. */
  const RestTest: int := 2000
  const PitchHigh: int := 128
  const PitchLow: int := 21
  const DefaultVelocity: int := 64

  /** A single note; the source's default velocity is DefaultVelocity. */
  datatype Note = Note(pitch: int, duration: int, velocity: int)

  /** Several notes sounding together, for example a chord. */
  datatype MultiNote = MultiNote(notes: seq<Note>)

  /** `Int.isRest()`: a pitch is a rest when it is above RestTest. */
  predicate IsRestPitch(p: int) {
    p > RestTest
  }

  /** `Note.isRest()`. */
  predicate IsRest(n: Note) {
    IsRestPitch(n.pitch)
  }

  /** `Note.rest(dur)`: a rest of the given duration with the default velocity. */
  function Rest(dur: int): (n: Note)
    ensures IsRest(n)
    ensures n.pitch == R && n.duration == dur && n.velocity == DefaultVelocity
  {
    Note(R, dur, DefaultVelocity)
  }

  lemma RestTransposed(t: int)
    requires t > -18000
    ensures IsRestPitch(R + t)
  {
  }

  /** `MultiNote(p, d, v)`: one note per pitch, each with duration d and velocity v. */
  function Chord(p: seq<int>, d: int, v: int): (m: MultiNote)
    ensures |m.notes| == |p|
    ensures forall k :: 0 <= k < |p| ==> m.notes[k] == Note(p[k], d, v)
  {
    if p == [] then MultiNote([])
    else MultiNote([Note(p[0], d, v)] + Chord(p[1..], d, v).notes)
  }

  /** `MultiNote(p, d)`: as Chord with the default velocity. */
  function ChordDefaultVelocity(p: seq<int>, d: int): (m: MultiNote)
    ensures |m.notes| == |p|
    ensures forall k :: 0 <= k < |p| ==> m.notes[k] == Note(p[k], d, DefaultVelocity)
  {
    Chord(p, d, DefaultVelocity)
  }

  /** The largest duration among the notes (Kotlin `maxOf`, which fails on an empty list). */
  function MaxDuration(ns: seq<Note>): (r: int)
    requires |ns| > 0
    ensures forall k :: 0 <= k < |ns| ==> ns[k].duration <= r
    ensures exists k :: 0 <= k < |ns| && ns[k].duration == r
  {
    if |ns| == 1 then ns[0].duration
    else
      var rest := MaxDuration(ns[1..]);
      assert forall k :: 1 <= k < |ns| ==> ns[k] == ns[1..][k - 1];
      if ns[0].duration >= rest then ns[0].duration else rest
  }

  /** `MultiNote.duration()`: the duration of the longest note. */
  function Duration(m: MultiNote): int
    requires |m.notes| > 0
  {
    MaxDuration(m.notes)
  }

  /** Every note with its duration replaced by d, pitch and velocity kept, in order. */
  function WithDuration(ns: seq<Note>, d: int): (r: seq<Note>)
    ensures |r| == |ns|
    ensures forall k :: 0 <= k < |ns| ==> r[k] == Note(ns[k].pitch, d, ns[k].velocity)
  {
    if ns == [] then []
    else [Note(ns[0].pitch, d, ns[0].velocity)] + WithDuration(ns[1..], d)
  }

  /**
   * `MultiNote.normalizeDur()`: every note gets the chord's longest duration.
   * The duration is computed inside the mapping lambda, so an empty chord maps
   * to an empty chord without ever asking for the maximum.
   */
  function NormalizeDur(m: MultiNote): (r: MultiNote)
    ensures |r.notes| == |m.notes|
    ensures forall k :: 0 <= k < |m.notes| ==>
      r.notes[k].pitch == m.notes[k].pitch && r.notes[k].velocity == m.notes[k].velocity
    ensures forall k :: 0 <= k < |m.notes| ==> r.notes[k].duration == Duration(m)
  {
    if m.notes == [] then m else MultiNote(WithDuration(m.notes, Duration(m)))
  }

  /** A chord whose notes all last d has duration d. */
  lemma {:induction false} MaxDurationUniform(ns: seq<Note>, d: int)
    requires |ns| > 0
    requires forall k :: 0 <= k < |ns| ==> ns[k].duration == d
    ensures MaxDuration(ns) == d
  {
    var r := MaxDuration(ns);
    var k :| 0 <= k < |ns| && ns[k].duration == r;
  }

  /** Normalizing keeps the chord's duration. */
  lemma NormalizeDurKeepsDuration(m: MultiNote)
    requires |m.notes| > 0
    ensures |NormalizeDur(m).notes| > 0
    ensures Duration(NormalizeDur(m)) == Duration(m)
  {
    MaxDurationUniform(NormalizeDur(m).notes, Duration(m));
  }

  /** Normalizing twice is the same as normalizing once. */
  lemma NormalizeDurIdempotent(m: MultiNote)
    ensures NormalizeDur(NormalizeDur(m)) == NormalizeDur(m)
  {
    if m.notes != [] {
      var n := NormalizeDur(m);
      NormalizeDurKeepsDuration(m);
      assert NormalizeDur(n).notes == n.notes;
    }
  }

  /** Sum of the durations of ns, accumulated from the first note to the last. */
  function TotalDuration(ns: seq<Note>): int
  {
    if ns == [] then 0 else TotalDuration(ns[..|ns| - 1]) + ns[|ns| - 1].duration
  }

  /** The tick at which note j of ns starts when the line starts at t. */
  function StartTick(t: int, ns: seq<Note>, j: nat): int
    requires j <= |ns|
  {
    t + TotalDuration(ns[..j])
  }

  /** With positive durations, every note starts strictly before the line ends. */
  lemma {:induction false} StartTickBeforeEnd(t: int, ns: seq<Note>, j: nat)
    requires j < |ns|
    requires forall k :: 0 <= k < |ns| ==> ns[k].duration > 0
    ensures StartTick(t, ns, j) + ns[j].duration <= t + TotalDuration(ns)
  {
    var init := ns[..|ns| - 1];
    if j < |ns| - 1 {
      assert init[..j] == ns[..j];
      assert init[j] == ns[j];
      StartTickBeforeEnd(t, init, j);
    } else {
      assert ns[..j] == init;
    }
  }

  /** With positive durations, start ticks strictly increase along the line. */
  lemma StartTickIncreasing(t: int, ns: seq<Note>, i: nat, j: nat)
    requires i < j < |ns|
    requires forall k :: 0 <= k < |ns| ==> ns[k].duration > 0
    ensures StartTick(t, ns, i) + ns[i].duration <= StartTick(t, ns, j)
  {
    var pre := ns[..j];
    assert pre[..i] == ns[..i];
    assert pre[i] == ns[i];
    StartTickBeforeEnd(t, pre, i);
  }
}
