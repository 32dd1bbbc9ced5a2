/**
 * Chord assembly shared by the two example compositions (`createNotes` in
 * Complex1 and `PartA.toNotes` in EdgeRock1): every result point of the
 * complex-plane walk gives a pitch from a transposed scale and a duration,
 * and a note is kept only when it is more than a semitone away from every
 * note already kept. The walk itself (`algoACircle`) and the float
 * computations on its points are not modelled: a point arrives as the two
 * integers the program derives from it.
 */
module Chords {
  import opened Notes
  import Integers
  import opened Parts

  /**
   * One result point, reduced to the scale sector (`modPhase(range)`) and the
   * duration (`ceilAbs`) the program computes from it.
   */
  datatype Sample = Sample(sector: int, duration: int)

  /** `scale.transpose(root).wrapped(sector, true)`: the sample's pitch. */
  function SamplePitch(scale: seq<int>, root: int, s: Sample): int
    requires |scale| > 0
  {
    Integers.Wrapped(Integers.Transpose(scale, root), s.sector, true, 0)
  }

  /** `Note(pitch, duration)`: the sample's note, at the default velocity. */
  function NoteOf(scale: seq<int>, root: int, s: Sample): Note
    requires |scale| > 0
  {
    Note(SamplePitch(scale, root, s), s.duration, DefaultVelocity)
  }

  /**
   * The sample's pitch is the root plus the scale degree the sector names,
   * one octave higher for every time the sector wraps past the scale.
   */
  lemma SamplePitchIsDegree(scale: seq<int>, root: int, s: Sample)
    requires |scale| > 0
    ensures SamplePitch(scale, root, s) == 12 * (s.sector / |scale|) + root + scale[s.sector % |scale|]
    ensures SamplePitch(scale, root, Sample(s.sector + |scale|, s.duration)) == SamplePitch(scale, root, s) + 12
  {
    Integers.WrappedOctavePeriodic(Integers.Transpose(scale, root), s.sector, 0);
  }

  function Distance(a: int, b: int): nat
  {
    if a < b then b - a else a - b
  }

  /** `notes.minOf { abs(it.pitch - p) }`: the distance from p to the nearest kept pitch. */
  function MinDistance(ns: seq<Note>, p: int): (d: nat)
    requires |ns| > 0
    ensures forall k :: 0 <= k < |ns| ==> d <= Distance(ns[k].pitch, p)
    ensures exists k :: 0 <= k < |ns| && d == Distance(ns[k].pitch, p)
  {
    if |ns| == 1 then Distance(ns[0].pitch, p)
    else
      var rest := MinDistance(ns[1..], p);
      assert forall k :: 1 <= k < |ns| ==> ns[1..][k - 1] == ns[k];
      if Distance(ns[0].pitch, p) <= rest then Distance(ns[0].pitch, p) else rest
  }

  /** The program's test: an empty chord takes any pitch; otherwise the nearest kept pitch must be more than a semitone away. */
  predicate Admits(ns: seq<Note>, p: int)
  {
    ns == [] || MinDistance(ns, p) > 1
  }

  /** Every note of ns is more than a semitone away from p. */
  predicate FarFromAll(ns: seq<Note>, p: int)
  {
    forall k :: 0 <= k < |ns| ==> Distance(ns[k].pitch, p) > 1
  }

  /** Testing the minimum distance is testing every kept note. */
  lemma AdmitsMeansFar(ns: seq<Note>, p: int)
    ensures Admits(ns, p) <==> FarFromAll(ns, p)
  {
    if ns != [] && FarFromAll(ns, p) {
      var k :| 0 <= k < |ns| && MinDistance(ns, p) == Distance(ns[k].pitch, p);
    }
  }

  /** Any two notes are more than a semitone apart. */
  predicate Spaced(ns: seq<Note>)
  {
    forall a, b :: 0 <= a < b < |ns| ==> Distance(ns[a].pitch, ns[b].pitch) > 1
  }

  /** The notes of one result: each sample in turn, kept when the chord so far admits its pitch. */
  function Assemble(scale: seq<int>, root: int, samples: seq<Sample>): seq<Note>
    requires |scale| > 0
  {
    if samples == [] then []
    else
      var prev := Assemble(scale, root, samples[..|samples| - 1]);
      var s := samples[|samples| - 1];
      if Admits(prev, SamplePitch(scale, root, s)) then prev + [NoteOf(scale, root, s)] else prev
  }

  /**
   * One more sample adds its note exactly when its pitch is more than a
   * semitone away from every note kept so far; otherwise the sample, and its
   * duration with it, is dropped.
   */
  lemma AssembleAppend(scale: seq<int>, root: int, samples: seq<Sample>, s: Sample)
    requires |scale| > 0
    ensures var prev := Assemble(scale, root, samples);
      Assemble(scale, root, samples + [s]) ==
        if FarFromAll(prev, SamplePitch(scale, root, s)) then prev + [NoteOf(scale, root, s)] else prev
  {
    assert (samples + [s])[..|samples|] == samples;
    AdmitsMeansFar(Assemble(scale, root, samples), SamplePitch(scale, root, s));
  }

  /** The indices of the samples whose notes are kept. */
  function Kept(scale: seq<int>, root: int, samples: seq<Sample>): seq<nat>
    requires |scale| > 0
  {
    if samples == [] then []
    else
      var j := |samples| - 1;
      var prev := Kept(scale, root, samples[..j]);
      if Admits(Assemble(scale, root, samples[..j]), SamplePitch(scale, root, samples[j])) then prev + [j] else prev
  }

  /** The kept notes are pairwise more than a semitone apart. */
  lemma {:induction false} AssembleSpaced(scale: seq<int>, root: int, samples: seq<Sample>)
    requires |scale| > 0
    ensures Spaced(Assemble(scale, root, samples))
  {
    if samples != [] {
      var prev := Assemble(scale, root, samples[..|samples| - 1]);
      var p := SamplePitch(scale, root, samples[|samples| - 1]);
      AssembleSpaced(scale, root, samples[..|samples| - 1]);
      AdmitsMeansFar(prev, p);
    }
  }

  /**
   * A result with samples always gives a note, the first sample's; a result
   * without samples gives none.
   */
  lemma {:induction false} AssembleFirst(scale: seq<int>, root: int, samples: seq<Sample>)
    requires |scale| > 0
    ensures Assemble(scale, root, samples) != [] <==> samples != []
    ensures samples != [] ==> Assemble(scale, root, samples)[0] == NoteOf(scale, root, samples[0])
  {
    if |samples| > 1 {
      var init := samples[..|samples| - 1];
      AssembleFirst(scale, root, init);
      assert init[0] == samples[0];
    }
  }

  /**
   * ns is the selection of the samples' notes at the increasing indices idx:
   * the k-th note is the note of sample idx[k], with that sample's duration.
   */
  predicate Selects(scale: seq<int>, root: int, samples: seq<Sample>, idx: seq<nat>, ns: seq<Note>)
    requires |scale| > 0
  {
    |idx| == |ns| <= |samples| &&
    (forall k :: 0 <= k < |idx| ==> idx[k] < |samples| && ns[k] == NoteOf(scale, root, samples[idx[k]])) &&
    (forall a, b :: 0 <= a < b < |idx| ==> idx[a] < idx[b])
  }

  /** A selection from a prefix is a selection from the whole, and the next sample's index may follow it. */
  lemma SelectsExtend(scale: seq<int>, root: int, samples: seq<Sample>, idx: seq<nat>, ns: seq<Note>, keep: bool)
    requires |scale| > 0 && |samples| > 0
    requires Selects(scale, root, samples[..|samples| - 1], idx, ns)
    ensures var j := |samples| - 1;
      if keep then Selects(scale, root, samples, idx + [j], ns + [NoteOf(scale, root, samples[j])])
      else Selects(scale, root, samples, idx, ns)
  {
    var j := |samples| - 1;
    assert forall k :: 0 <= k < |idx| ==> samples[..j][idx[k]] == samples[idx[k]];
  }

  /**
   * The kept notes are an order-preserving selection of the samples' notes,
   * at the indices Kept gives; hence there are at most as many notes as samples.
   */
  lemma {:induction false} AssembleKept(scale: seq<int>, root: int, samples: seq<Sample>)
    requires |scale| > 0
    ensures Selects(scale, root, samples, Kept(scale, root, samples), Assemble(scale, root, samples))
  {
    if samples != [] {
      var j := |samples| - 1;
      var init := samples[..j];
      AssembleKept(scale, root, init);
      var keep := Admits(Assemble(scale, root, init), SamplePitch(scale, root, samples[j]));
      SelectsExtend(scale, root, samples, Kept(scale, root, init), Assemble(scale, root, init), keep);
    }
  }

  /**
   * Sample i is kept exactly when the notes kept before it admit its pitch;
   * a dropped sample's duration is lost, not added to another note.
   */
  lemma {:induction false} KeptDecision(scale: seq<int>, root: int, samples: seq<Sample>, i: nat)
    requires |scale| > 0 && i < |samples|
    ensures i in Kept(scale, root, samples) <==>
      Admits(Assemble(scale, root, samples[..i]), SamplePitch(scale, root, samples[i]))
  {
    var j := |samples| - 1;
    var init := samples[..j];
    var prev := Kept(scale, root, init);
    var keep := Admits(Assemble(scale, root, init), SamplePitch(scale, root, samples[j]));
    assert Kept(scale, root, samples) == if keep then prev + [j] else prev;
    if i == j {
      AssembleKept(scale, root, init);
      assert j !in prev by {
        forall k | 0 <= k < |prev| ensures prev[k] != j {
        }
      }
    } else {
      KeptDecision(scale, root, init, i);
      assert init[..i] == samples[..i] && init[i] == samples[i];
    }
  }

  /**
   * `createNotes` / `toNotes`: walks the samples in order, computing each
   * pitch and keeping the note when the chord so far is empty or its nearest
   * pitch is more than a semitone away.
   */
  method AssembleNotes(scale: seq<int>, root: int, samples: seq<Sample>) returns (notes: seq<Note>)
    requires |scale| > 0
    ensures notes == Assemble(scale, root, samples)
  {
    notes := [];
    for i := 0 to |samples|
      invariant notes == Assemble(scale, root, samples[..i])
    {
      assert samples[..i + 1][..i] == samples[..i];
      var pitch := Integers.Wrapped(Integers.Transpose(scale, root), samples[i].sector, true, 0);
      var duration := samples[i].duration;
      if notes == [] || MinDistance(notes, pitch) > 1 {
        notes := notes + [Note(pitch, duration, DefaultVelocity)];
      }
    }
    assert samples[..|samples|] == samples;
  }

  /** `MultiNote(notes)` of a result's notes, or nothing when it has none. */
  function ChordOf(scale: seq<int>, root: int, r: seq<Sample>): seq<MultiNote>
    requires |scale| > 0
  {
    var ns := Assemble(scale, root, r);
    if ns == [] then [] else [MultiNote(ns)]
  }

  /** The chords of a list of results: `MultiNote(notes)` for every result whose notes are not empty, in order. */
  function ResultChords(scale: seq<int>, root: int, results: seq<seq<Sample>>): seq<MultiNote>
    requires |scale| > 0
  {
    if results == [] then []
    else ResultChords(scale, root, results[..|results| - 1]) + ChordOf(scale, root, results[|results| - 1])
  }

  /**
   * Every chord comes from a result with samples, has at least one note and
   * has its notes pairwise more than a semitone apart.
   */
  lemma {:induction false} ResultChordsSpaced(scale: seq<int>, root: int, results: seq<seq<Sample>>, c: MultiNote)
    requires |scale| > 0
    requires c in ResultChords(scale, root, results)
    ensures |c.notes| > 0 && Spaced(c.notes)
    ensures exists r :: r in results && r != [] && c.notes == Assemble(scale, root, r)
  {
    var j := |results| - 1;
    var init := results[..j];
    if c in ResultChords(scale, root, init) {
      ResultChordsSpaced(scale, root, init, c);
      var r :| r in init && r != [] && c.notes == Assemble(scale, root, r);
      assert r in results;
    } else {
      AssembleFirst(scale, root, results[j]);
      AssembleSpaced(scale, root, results[j]);
    }
  }

  /** One more result adds its chord when it has notes. */
  lemma ResultChordsAppend(scale: seq<int>, root: int, results: seq<seq<Sample>>, r: seq<Sample>)
    requires |scale| > 0
    ensures ResultChords(scale, root, results + [r]) == ResultChords(scale, root, results) + ChordOf(scale, root, r)
  {
    assert (results + [r])[..|results|] == results;
  }

  /** The chords of the first k + 1 results are those of the first k and the chord of result k. */
  lemma ResultChordsStep(scale: seq<int>, root: int, results: seq<seq<Sample>>, k: nat, cs: seq<MultiNote>)
    requires |scale| > 0 && k < |results|
    requires cs == ResultChords(scale, root, results[..k])
    ensures cs + ChordOf(scale, root, results[k]) == ResultChords(scale, root, results[..k + 1])
  {
    assert results[..k + 1] == results[..k] + [results[k]];
    ResultChordsAppend(scale, root, results[..k], results[k]);
  }

  /** One index list combined with every depth, in order. */
  function Row(indices: seq<int>, maxes: seq<int>): seq<(seq<int>, int)>
  {
    seq(|maxes|, j requires 0 <= j < |maxes| => (indices, maxes[j]))
  }

  /** The nested `forEach` order: every index list with every depth, index lists outermost. */
  function Combinations(lists: seq<seq<int>>, maxes: seq<int>): seq<(seq<int>, int)>
  {
    if lists == [] then [] else Combinations(lists[..|lists| - 1], maxes) + Row(lists[|lists| - 1], maxes)
  }

  /** There is one combination per index list and depth. */
  lemma {:induction false} CombinationsSize(lists: seq<seq<int>>, maxes: seq<int>)
    ensures |Combinations(lists, maxes)| == |lists| * |maxes|
  {
    if lists != [] {
      var n := |lists| - 1;
      CombinationsSize(lists[..n], maxes);
      assert |lists| * |maxes| == n * |maxes| + |maxes|;
    }
  }

  /** The combination at position i * |maxes| + j pairs index list i with depth j. */
  lemma {:induction false} CombinationAt(lists: seq<seq<int>>, maxes: seq<int>, i: nat, j: nat)
    requires i < |lists| && j < |maxes|
    ensures i * |maxes| + j < |Combinations(lists, maxes)|
    ensures Combinations(lists, maxes)[i * |maxes| + j] == (lists[i], maxes[j])
  {
    var n := |lists| - 1;
    var m := |maxes|;
    var init := lists[..n];
    CombinationsSize(init, maxes);
    if i < n {
      CombinationAt(init, maxes, i, j);
    } else {
      assert i * m == n * m;
    }
  }

  /**
   * What the walk hands back for one index list and one depth: the list of
   * results, each a list of sample points. The walk, its float arithmetic
   * and its other parameters (the number of points, the start point, the
   * radius, the complex function) live in this function value.
   */
  type Walk = (seq<int>, int) -> seq<seq<Sample>>

  /** All results of the walk over the combinations, in order. */
  function WalkResults(walk: Walk, combos: seq<(seq<int>, int)>): seq<seq<Sample>>
  {
    if combos == [] then []
    else
      var c := combos[|combos| - 1];
      WalkResults(walk, combos[..|combos| - 1]) + walk(c.0, c.1)
  }

  /** The chords the nested loops add for one block, in the order they are added. */
  function BlockChords(scale: seq<int>, root: int, lists: seq<seq<int>>, maxes: seq<int>, walk: Walk): seq<MultiNote>
    requires |scale| > 0
  {
    ResultChords(scale, root, WalkResults(walk, Combinations(lists, maxes)))
  }

  /** The chords of two lists of results one after the other are the chords of each, in turn. */
  lemma {:induction false} ResultChordsConcat(scale: seq<int>, root: int, a: seq<seq<Sample>>, b: seq<seq<Sample>>)
    requires |scale| > 0
    ensures ResultChords(scale, root, a + b) == ResultChords(scale, root, a) + ResultChords(scale, root, b)
  {
    if b == [] {
      assert a + b == a;
    } else {
      var init := b[..|b| - 1];
      var r := b[|b| - 1];
      assert b == init + [r];
      assert a + b == (a + init) + [r];
      ResultChordsConcat(scale, root, a, init);
      ResultChordsAppend(scale, root, a + init, r);
      ResultChordsAppend(scale, root, init, r);
    }
  }

  /** The results of two runs of combinations one after the other are the results of each, in turn. */
  lemma {:induction false} WalkResultsConcat(walk: Walk, a: seq<(seq<int>, int)>, b: seq<(seq<int>, int)>)
    ensures WalkResults(walk, a + b) == WalkResults(walk, a) + WalkResults(walk, b)
  {
    if b != [] {
      var init := b[..|b| - 1];
      var c := b[|b| - 1];
      assert b == init + [c];
      assert (a + b)[..|a + b| - 1] == a + init;
      WalkResultsConcat(walk, a, init);
    } else {
      assert a + b == a;
    }
  }

  /**
   * The chords cs of the combinations done so far, followed by the chords of
   * the next combinations, are the chords of all of them.
   */
  lemma WalkChordsStep(scale: seq<int>, root: int, walk: Walk, combos: seq<(seq<int>, int)>, more: seq<(seq<int>, int)>, cs: seq<MultiNote>)
    requires |scale| > 0
    requires cs == ResultChords(scale, root, WalkResults(walk, combos))
    ensures cs + ResultChords(scale, root, WalkResults(walk, more)) == ResultChords(scale, root, WalkResults(walk, combos + more))
  {
    WalkResultsConcat(walk, combos, more);
    ResultChordsConcat(scale, root, WalkResults(walk, combos), WalkResults(walk, more));
  }

  /** A row over one more depth ends with that depth's combination. */
  lemma RowAppend(indices: seq<int>, maxes: seq<int>, j: nat)
    requires j < |maxes|
    ensures Row(indices, maxes[..j + 1]) == Row(indices, maxes[..j]) + [(indices, maxes[j])]
  {
    var a, b := Row(indices, maxes[..j + 1]), Row(indices, maxes[..j]) + [(indices, maxes[j])];
    assert |a| == |b|;
    forall k | 0 <= k < |a| ensures a[k] == b[k] {
      assert maxes[..j + 1][k] == maxes[k];
    }
  }

  /** The results of one combination are what the walk returns for it. */
  lemma WalkResultsOne(walk: Walk, c: (seq<int>, int))
    ensures WalkResults(walk, [c]) == walk(c.0, c.1)
  {
    var one := [c];
    assert one[..0] == [];
  }

  /** A row over one more depth adds the chords of the walk at that depth. */
  lemma RowChordsStep(scale: seq<int>, root: int, walk: Walk, indices: seq<int>, maxes: seq<int>, j: nat, cs: seq<MultiNote>)
    requires |scale| > 0 && j < |maxes|
    requires cs == ResultChords(scale, root, WalkResults(walk, Row(indices, maxes[..j])))
    ensures cs + ResultChords(scale, root, walk(indices, maxes[j])) ==
      ResultChords(scale, root, WalkResults(walk, Row(indices, maxes[..j + 1])))
  {
    RowAppend(indices, maxes, j);
    WalkResultsOne(walk, (indices, maxes[j]));
    WalkChordsStep(scale, root, walk, Row(indices, maxes[..j]), [(indices, maxes[j])], cs);
  }

  /**
   * The body of the innermost `forEach`: the result's notes are assembled
   * and, when there are any, added to the part as a chord at its cursor.
   */
  method AddResult(part: Part, scale: seq<int>, root: int, r: seq<Sample>)
    requires |scale| > 0
    modifies part
    ensures part.chords == PlaceChords(old(part.chords), old(part.ticks), ChordOf(scale, root, r))
    ensures part.ticks == old(part.ticks) + ChordsDuration(ChordOf(scale, root, r))
    ensures part.notes == old(part.notes) && part.tickOffset == old(part.tickOffset) && part.ticksPerMeas == old(part.ticksPerMeas)
  {
    var notes := AssembleNotes(scale, root, r);
    if notes != [] {
      var chord := MultiNote(notes);
      PlaceChordsAppend(part.chords, part.ticks, [], chord);
      assert [] + [chord] == [chord];
      part.AddChord(chord);
    }
  }

  /** The innermost `forEach` over the walk's results, one chord per result with notes. */
  method AddResults(part: Part, scale: seq<int>, root: int, results: seq<seq<Sample>>)
    requires |scale| > 0
    modifies part
    ensures part.chords == PlaceChords(old(part.chords), old(part.ticks), ResultChords(scale, root, results))
    ensures part.ticks == old(part.ticks) + ChordsDuration(ResultChords(scale, root, results))
    ensures part.notes == old(part.notes) && part.tickOffset == old(part.tickOffset) && part.ticksPerMeas == old(part.ticksPerMeas)
  {
    ghost var c0, t0 := part.chords, part.ticks;
    ghost var cs: seq<MultiNote> := [];
    for k := 0 to |results|
      invariant cs == ResultChords(scale, root, results[..k])
      invariant part.chords == PlaceChords(c0, t0, cs) && part.ticks == t0 + ChordsDuration(cs)
      invariant part.notes == old(part.notes) && part.tickOffset == old(part.tickOffset) && part.ticksPerMeas == old(part.ticksPerMeas)
    {
      ResultChordsStep(scale, root, results, k, cs);
      ghost var added := ChordOf(scale, root, results[k]);
      ghost var before, t1 := part.chords, part.ticks;
      AddResult(part, scale, root, results[k]);
      PlaceChordsStep(part.chords, part.ticks, before, t1, c0, t0, cs, added);
      cs := cs + added;
    }
    assert results[..|results|] == results;
  }

  /**
   * The middle `forEach` of `processBlock` and of the `PartA` initializer:
   * for one index list and every depth, the walk's results are added as
   * chords. Returns how many depths were visited.
   */
  method AddRow(part: Part, scale: seq<int>, root: int, indices: seq<int>, maxes: seq<int>, walk: Walk) returns (count: nat)
    requires |scale| > 0
    modifies part
    ensures count == |maxes|
    ensures part.chords == PlaceChords(old(part.chords), old(part.ticks), ResultChords(scale, root, WalkResults(walk, Row(indices, maxes))))
    ensures part.ticks == old(part.ticks) + ChordsDuration(ResultChords(scale, root, WalkResults(walk, Row(indices, maxes))))
    ensures part.notes == old(part.notes) && part.tickOffset == old(part.tickOffset) && part.ticksPerMeas == old(part.ticksPerMeas)
  {
    ghost var c0, t0 := part.chords, part.ticks;
    ghost var cs: seq<MultiNote> := [];
    count := 0;
    for j := 0 to |maxes|
      invariant count == j
      invariant cs == ResultChords(scale, root, WalkResults(walk, Row(indices, maxes[..j])))
      invariant part.chords == PlaceChords(c0, t0, cs) && part.ticks == t0 + ChordsDuration(cs)
      invariant part.notes == old(part.notes) && part.tickOffset == old(part.tickOffset) && part.ticksPerMeas == old(part.ticksPerMeas)
    {
      count := count + 1;
      var results := walk(indices, maxes[j]);
      RowChordsStep(scale, root, walk, indices, maxes, j, cs);
      ghost var added := ResultChords(scale, root, results);
      ghost var before, t1 := part.chords, part.ticks;
      AddResults(part, scale, root, results);
      PlaceChordsStep(part.chords, part.ticks, before, t1, c0, t0, cs, added);
      cs := cs + added;
    }
    assert maxes[..|maxes|] == maxes;
  }

  /**
   * The two outer `forEach` loops of `processBlock` and of the `PartA`
   * initializer for one block: for every index list and every depth, the
   * walk's results are added as chords. Returns how many (index list, depth)
   * pairs were visited.
   */
  method AddBlock(part: Part, scale: seq<int>, root: int, lists: seq<seq<int>>, maxes: seq<int>, walk: Walk) returns (count: nat)
    requires |scale| > 0
    modifies part
    ensures count == |lists| * |maxes|
    ensures part.chords == PlaceChords(old(part.chords), old(part.ticks), BlockChords(scale, root, lists, maxes, walk))
    ensures part.ticks == old(part.ticks) + ChordsDuration(BlockChords(scale, root, lists, maxes, walk))
    ensures part.notes == old(part.notes) && part.tickOffset == old(part.tickOffset) && part.ticksPerMeas == old(part.ticksPerMeas)
  {
    ghost var c0, t0 := part.chords, part.ticks;
    ghost var cs: seq<MultiNote> := [];
    count := 0;
    for i := 0 to |lists|
      invariant count == |Combinations(lists[..i], maxes)|
      invariant cs == ResultChords(scale, root, WalkResults(walk, Combinations(lists[..i], maxes)))
      invariant part.chords == PlaceChords(c0, t0, cs) && part.ticks == t0 + ChordsDuration(cs)
      invariant part.notes == old(part.notes) && part.tickOffset == old(part.tickOffset) && part.ticksPerMeas == old(part.ticksPerMeas)
    {
      ghost var done := Combinations(lists[..i], maxes);
      ghost var row := Row(lists[i], maxes);
      assert lists[..i + 1][..i] == lists[..i];
      assert Combinations(lists[..i + 1], maxes) == done + row;
      WalkChordsStep(scale, root, walk, done, row, cs);
      ghost var added := ResultChords(scale, root, WalkResults(walk, row));
      ghost var before, t1 := part.chords, part.ticks;
      var n := AddRow(part, scale, root, lists[i], maxes, walk);
      PlaceChordsStep(part.chords, part.ticks, before, t1, c0, t0, cs, added);
      count := count + n;
      cs := cs + added;
    }
    assert lists[..|lists|] == lists;
    CombinationsSize(lists, maxes);
  }
}
