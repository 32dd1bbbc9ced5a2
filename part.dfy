/**
 * `Part`: a musical part, notes and chords keyed by the tick at which they
 * start, and a cursor `ticks` that moves on by each added note's or chord's
 * duration. The source keeps the two collections in sorted maps; only the
 * key-to-value content matters to the operations modelled here.
 */
module Parts {
  import opened Notes

  /**
   * Notes ns written one after the other into m, the first at tick t and
   * each next one where the previous one ends; a later note at the same tick
   * replaces the earlier entry.
   */
  function PlaceNotes(m: map<int, Note>, t: int, ns: seq<Note>): map<int, Note>
  {
    if ns == [] then m
    else PlaceNotes(m, t, ns[..|ns| - 1])[StartTick(t, ns, |ns| - 1) := ns[|ns| - 1]]
  }

  /** The start ticks of a prefix are the start ticks of the whole line. */
  lemma StartTickOfPrefix(t: int, ns: seq<Note>, j: nat, i: nat)
    requires i <= j <= |ns|
    ensures StartTick(t, ns[..j], i) == StartTick(t, ns, i)
  {
    assert ns[..j][..i] == ns[..i];
  }

  /** The next note starts where the previous one ends. */
  lemma StartTickNext(t: int, ns: seq<Note>, j: nat)
    requires j < |ns|
    ensures StartTick(t, ns, j + 1) == StartTick(t, ns, j) + ns[j].duration
  {
    assert ns[..j + 1][..j] == ns[..j];
  }

  /** Placing notes adds exactly their start ticks to the keys. */
  lemma {:induction false} PlaceNotesKeys(m: map<int, Note>, t: int, ns: seq<Note>, k: int)
    ensures k in PlaceNotes(m, t, ns) <==> k in m || exists j :: 0 <= j < |ns| && k == StartTick(t, ns, j)
  {
    if ns != [] {
      var init := ns[..|ns| - 1];
      PlaceNotesKeys(m, t, init, k);
      if exists j :: 0 <= j < |init| && k == StartTick(t, init, j) {
        var j :| 0 <= j < |init| && k == StartTick(t, init, j);
        StartTickOfPrefix(t, ns, |ns| - 1, j);
      }
      if exists j :: 0 <= j < |ns| && k == StartTick(t, ns, j) {
        var j :| 0 <= j < |ns| && k == StartTick(t, ns, j);
        if j < |init| {
          StartTickOfPrefix(t, ns, |ns| - 1, j);
        }
      }
    }
  }

  /** An entry at a tick where no note starts keeps its old note. */
  lemma {:induction false} PlaceNotesKeepsOthers(m: map<int, Note>, t: int, ns: seq<Note>, k: int)
    requires k in m
    requires forall j :: 0 <= j < |ns| ==> StartTick(t, ns, j) != k
    ensures k in PlaceNotes(m, t, ns) && PlaceNotes(m, t, ns)[k] == m[k]
  {
    if ns != [] {
      var init := ns[..|ns| - 1];
      forall j | 0 <= j < |init|
        ensures StartTick(t, init, j) != k
      {
        StartTickOfPrefix(t, ns, |ns| - 1, j);
      }
      PlaceNotesKeepsOthers(m, t, init, k);
    }
  }

  /**
   * Note j sits at its start tick unless a later note of the line starts at
   * the same tick and replaces it.
   */
  lemma {:induction false} PlaceNotesAt(m: map<int, Note>, t: int, ns: seq<Note>, j: nat)
    requires j < |ns|
    requires forall i :: j < i < |ns| ==> StartTick(t, ns, i) != StartTick(t, ns, j)
    ensures StartTick(t, ns, j) in PlaceNotes(m, t, ns)
    ensures PlaceNotes(m, t, ns)[StartTick(t, ns, j)] == ns[j]
  {
    if j < |ns| - 1 {
      var init := ns[..|ns| - 1];
      StartTickOfPrefix(t, ns, |ns| - 1, j);
      forall i | j < i < |init|
        ensures StartTick(t, init, i) != StartTick(t, init, j)
      {
        StartTickOfPrefix(t, ns, |ns| - 1, i);
      }
      PlaceNotesAt(m, t, init, j);
    }
  }

  /** With positive durations no note replaces another: every note sits at its own start tick. */
  lemma PlaceNotesAllKept(m: map<int, Note>, t: int, ns: seq<Note>, j: nat)
    requires j < |ns|
    requires forall k :: 0 <= k < |ns| ==> ns[k].duration > 0
    ensures StartTick(t, ns, j) in PlaceNotes(m, t, ns)
    ensures PlaceNotes(m, t, ns)[StartTick(t, ns, j)] == ns[j]
  {
    forall i | j < i < |ns|
      ensures StartTick(t, ns, i) != StartTick(t, ns, j)
    {
      StartTickIncreasing(t, ns, j, i);
    }
    PlaceNotesAt(m, t, ns, j);
  }

  /** `concurrentNotes`: the entries whose note has started at the tick and not yet ended. */
  function Sounding(m: map<int, Note>, tick: int): (r: map<int, Note>)
    ensures forall k :: k in r <==> k in m && k <= tick < k + m[k].duration
    ensures forall k :: k in r ==> r[k] == m[k]
  {
    map k | k in m && k <= tick && k + m[k].duration > tick :: m[k]
  }

  /**
   * On a line of notes with positive durations placed into an empty part,
   * the note sounding at a tick inside note j is note j alone.
   */
  lemma SoundingOnLine(t: int, ns: seq<Note>, j: nat, tick: int)
    requires j < |ns|
    requires forall k :: 0 <= k < |ns| ==> ns[k].duration > 0
    requires StartTick(t, ns, j) <= tick < StartTick(t, ns, j) + ns[j].duration
    ensures Sounding(PlaceNotes(map[], t, ns), tick) == map[StartTick(t, ns, j) := ns[j]]
  {
    var placed := PlaceNotes(map[], t, ns);
    var s := StartTick(t, ns, j);
    PlaceNotesAllKept(map[], t, ns, j);
    forall k | k in Sounding(placed, tick)
      ensures k == s
    {
      PlaceNotesKeys(map[], t, ns, k);
      var i :| 0 <= i < |ns| && k == StartTick(t, ns, i);
      PlaceNotesAllKept(map[], t, ns, i);
      if i < j {
        StartTickIncreasing(t, ns, i, j);
      } else if j < i {
        StartTickIncreasing(t, ns, j, i);
      }
    }
  }

  /** How far items xs move a cursor, each by its len. */
  function Span<T>(xs: seq<T>, len: T -> int): int
  {
    if xs == [] then 0 else Span(xs[..|xs| - 1], len) + len(xs[|xs| - 1])
  }

  /**
   * Items xs written one after the other into m, the first at tick t and each
   * next one where the previous one ends; each is stored as val of it.
   */
  function Laid<T, U>(m: map<int, U>, t: int, xs: seq<T>, len: T -> int, val: T -> U): map<int, U>
  {
    if xs == [] then m
    else
      var j := |xs| - 1;
      Laid(m, t, xs[..j], len, val)[t + Span(xs[..j], len) := val(xs[j])]
  }

  /** One more item is stored where the items before it end. */
  lemma LaidAppend<T, U>(m: map<int, U>, t: int, xs: seq<T>, x: T, len: T -> int, val: T -> U)
    ensures Span(xs + [x], len) == Span(xs, len) + len(x)
    ensures Laid(m, t, xs + [x], len, val) == Laid(m, t, xs, len, val)[t + Span(xs, len) := val(x)]
  {
    assert (xs + [x])[..|xs|] == xs;
  }

  /**
   * Writing a list of items and then a second list is writing both at once:
   * the second list starts where the first one ended.
   */
  lemma {:induction false} LaidConcat<T, U>(m: map<int, U>, t: int, a: seq<T>, b: seq<T>, len: T -> int, val: T -> U)
    ensures Span(a + b, len) == Span(a, len) + Span(b, len)
    ensures Laid(m, t, a + b, len, val) == Laid(Laid(m, t, a, len, val), t + Span(a, len), b, len, val)
  {
    if b == [] {
      assert a + b == a;
    } else {
      var j := |b| - 1;
      var init := b[..j];
      assert b == init + [b[j]];
      assert a + b == (a + init) + [b[j]];
      LaidConcat(m, t, a, init, len, val);
      LaidAppend(m, t, a + init, b[j], len, val);
      LaidAppend(Laid(m, t, a, len, val), t + Span(a, len), init, b[j], len, val);
    }
  }

  /**
   * How far `add(mn)` moves the cursor: the chord's longest note. An empty
   * chord has no duration and `add` fails on it; it is given length 0 here
   * only so that the functions over lists of chords need no precondition.
   */
  function ChordLength(c: MultiNote): int
  {
    if |c.notes| > 0 then Duration(c) else 0
  }

  /** How far the cursor moves when the chords are added one after the other. */
  function ChordsDuration(cs: seq<MultiNote>): int
  {
    Span(cs, ChordLength)
  }

  /**
   * Chords cs added one after the other with `add(mn)` into m, the first at
   * tick t: each chord is normalized and stored where the previous one ends.
   */
  function PlaceChords(m: map<int, MultiNote>, t: int, cs: seq<MultiNote>): map<int, MultiNote>
  {
    Laid(m, t, cs, ChordLength, NormalizeDur)
  }

  /** `add(mn)` after a list of chords: the chord, normalized, where the list ends. */
  lemma PlaceChordsAppend(m: map<int, MultiNote>, t: int, cs: seq<MultiNote>, c: MultiNote)
    requires |c.notes| > 0
    ensures ChordsDuration(cs + [c]) == ChordsDuration(cs) + Duration(c)
    ensures PlaceChords(m, t, cs + [c]) == PlaceChords(m, t, cs)[t + ChordsDuration(cs) := NormalizeDur(c)]
  {
    LaidAppend(m, t, cs, c, ChordLength, NormalizeDur);
  }

  /** Adding a list of chords and then a second list is adding both at once. */
  lemma PlaceChordsConcat(m: map<int, MultiNote>, t: int, a: seq<MultiNote>, b: seq<MultiNote>)
    ensures ChordsDuration(a + b) == ChordsDuration(a) + ChordsDuration(b)
    ensures PlaceChords(m, t, a + b) == PlaceChords(PlaceChords(m, t, a), t + ChordsDuration(a), b)
  {
    var len, val := ChordLength, NormalizeDur;
    LaidConcat(m, t, a, b, len, val);
    assert ChordsDuration(a + b) == Span(a + b, len);
    assert PlaceChords(m, t, a + b) == Laid(m, t, a + b, len, val);
  }

  /**
   * A part that held the chords cs added from tick t0 onto c0 and then had
   * the chords added appended from its cursor holds cs + added.
   */
  lemma PlaceChordsStep(now: map<int, MultiNote>, t2: int, before: map<int, MultiNote>, t1: int,
                        c0: map<int, MultiNote>, t0: int, cs: seq<MultiNote>, added: seq<MultiNote>)
    requires before == PlaceChords(c0, t0, cs) && t1 == t0 + ChordsDuration(cs)
    requires now == PlaceChords(before, t1, added) && t2 == t1 + ChordsDuration(added)
    ensures now == PlaceChords(c0, t0, cs + added) && t2 == t0 + ChordsDuration(cs + added)
  {
    PlaceChordsConcat(c0, t0, cs, added);
  }

  class Part {
    const channel: int
    const instr: int
    var ticksPerMeas: int
    /** Where the next note or chord goes when no tick is given. */
    var ticks: int
    /** Offset applied when the part is turned into MIDI events. */
    var tickOffset: int
    var notes: map<int, Note>
    var chords: map<int, MultiNote>

    /** `Part(channel, instr, ticksPerMeas = 16)`: empty, with its cursor at tick 0. */
    constructor (channel: int, instr: int, ticksPerMeas: int := 16)
      ensures this.channel == channel && this.instr == instr && this.ticksPerMeas == ticksPerMeas
      ensures ticks == 0 && tickOffset == 0 && notes == map[] && chords == map[]
    {
      this.channel := channel;
      this.instr := instr;
      this.ticksPerMeas := ticksPerMeas;
      ticks := 0;
      tickOffset := 0;
      notes := map[];
      chords := map[];
    }

    /** `add(t, n)`: the notes one after the other from tick t; the cursor ends after the last one. */
    method AddNotesAt(t: int, ns: seq<Note>)
      modifies this
      ensures notes == PlaceNotes(old(notes), t, ns)
      ensures ticks == t + TotalDuration(ns)
      ensures chords == old(chords) && tickOffset == old(tickOffset) && ticksPerMeas == old(ticksPerMeas)
    {
      ticks := t;
      for j := 0 to |ns|
        invariant ticks == StartTick(t, ns, j)
        invariant notes == PlaceNotes(old(notes), t, ns[..j])
        invariant chords == old(chords) && tickOffset == old(tickOffset) && ticksPerMeas == old(ticksPerMeas)
      {
        assert ns[..j + 1][..j] == ns[..j];
        StartTickOfPrefix(t, ns, j + 1, j);
        notes := notes[ticks := ns[j]];
        StartTickNext(t, ns, j);
        ticks := ticks + ns[j].duration;
      }
      assert ns[..|ns|] == ns;
    }

    /** `add(n)`: the notes from the current cursor. */
    method AddNotes(ns: seq<Note>)
      modifies this
      ensures notes == PlaceNotes(old(notes), old(ticks), ns)
      ensures ticks == old(ticks) + TotalDuration(ns)
      ensures chords == old(chords) && tickOffset == old(tickOffset) && ticksPerMeas == old(ticksPerMeas)
    {
      AddNotesAt(ticks, ns);
    }

    /** `add(t, n: Note)`: one note at tick t, replacing whatever note started there. */
    method AddNoteAt(t: int, n: Note)
      modifies this
      ensures notes == old(notes)[t := n]
      ensures ticks == t + n.duration
      ensures chords == old(chords) && tickOffset == old(tickOffset) && ticksPerMeas == old(ticksPerMeas)
    {
      AddNotesAt(t, [n]);
      assert [n][..0] == [];
    }

    /** `add(n: Note)`: one note at the current cursor. */
    method AddNote(n: Note)
      modifies this
      ensures notes == old(notes)[old(ticks) := n]
      ensures ticks == old(ticks) + n.duration
      ensures chords == old(chords) && tickOffset == old(tickOffset) && ticksPerMeas == old(ticksPerMeas)
    {
      AddNoteAt(ticks, n);
    }

    /**
     * `add(tick, mn, normalizeDur = true)`: the chord, normalized unless asked
     * otherwise, at the tick; the cursor moves on by the chord's longest note
     * either way. An empty chord has no duration (Kotlin `maxOf` fails).
     */
    method AddChordAt(tick: int, mn: MultiNote, normalize: bool := true)
      requires |mn.notes| > 0
      modifies this
      ensures chords == old(chords)[tick := if normalize then NormalizeDur(mn) else mn]
      ensures ticks == tick + Duration(mn)
      ensures notes == old(notes) && tickOffset == old(tickOffset) && ticksPerMeas == old(ticksPerMeas)
    {
      var multiNote := if normalize then NormalizeDur(mn) else mn;
      NormalizeDurKeepsDuration(mn);
      ticks := tick;
      chords := chords[ticks := multiNote];
      ticks := ticks + Duration(multiNote);
    }

    /** `add(mn, normalizeDur = true)`: the chord at the current cursor. */
    method AddChord(mn: MultiNote, normalize: bool := true)
      requires |mn.notes| > 0
      modifies this
      ensures chords == old(chords)[old(ticks) := if normalize then NormalizeDur(mn) else mn]
      ensures ticks == old(ticks) + Duration(mn)
      ensures notes == old(notes) && tickOffset == old(tickOffset) && ticksPerMeas == old(ticksPerMeas)
    {
      AddChordAt(ticks, mn, normalize);
    }

    /** `addAtMeas(meas, n)`: the notes from the first tick of measure meas. */
    method AddAtMeas(meas: int, ns: seq<Note>)
      modifies this
      ensures notes == PlaceNotes(old(notes), meas * ticksPerMeas, ns)
      ensures ticks == meas * ticksPerMeas + TotalDuration(ns)
      ensures chords == old(chords) && tickOffset == old(tickOffset) && ticksPerMeas == old(ticksPerMeas)
    {
      AddNotesAt(meas * ticksPerMeas, ns);
    }

    /** `concurrentNotes(tick)`: the notes sounding at the tick; the part is not changed. */
    function ConcurrentNotes(tick: int): map<int, Note>
      reads this
    {
      Sounding(notes, tick)
    }
  }

  /**
   * Two lines added one after the other from the cursor continue each other:
   * the second starts where the first ended.
   */
  method TwoLines(a: seq<Note>, b: seq<Note>) returns (p: Part)
    ensures p.notes == PlaceNotes(PlaceNotes(map[], 0, a), TotalDuration(a), b)
    ensures p.ticks == TotalDuration(a) + TotalDuration(b)
    ensures p.chords == map[]
  {
    p := new Part(0, 0);
    p.AddNotes(a);
    p.AddNotes(b);
  }

  /**
   * Two notes of 4 ticks added from tick 0: at tick 5 only the second one,
   * which starts at tick 4, is sounding.
   */
  method SecondNoteSounding() returns (r: map<int, Note>)
    ensures r == map[4 := Note(62, 4, 64)]
  {
    var p := new Part(0, 0);
    var line := [Note(60, 4, 64), Note(62, 4, 64)];
    p.AddNotes(line);
    r := p.ConcurrentNotes(5);
    SecondNoteSoundingOnLine(line);
  }

  /** The placement behind `SecondNoteSounding`: at tick 5 only the note placed at 4 sounds. */
  lemma SecondNoteSoundingOnLine(line: seq<Note>)
    requires line == [Note(60, 4, 64), Note(62, 4, 64)]
    ensures Sounding(PlaceNotes(map[], 0, line), 5) == map[4 := Note(62, 4, 64)]
  {
    assert StartTick(0, line, 1) == 4 by {
      var first := line[..1];
      assert first[..0] == [] && first[0] == Note(60, 4, 64);
      assert TotalDuration(first) == TotalDuration(first[..0]) + 4;
    }
    SoundingOnLine(0, line, 1, 5);
  }
}
