/**
 * The `Complex1` example composition: for a block of material, a walk around
 * a circle in the complex plane is run for every index list and depth, and
 * every result with notes becomes a chord of the part. A block's complex
 * function, its number of points and its range only shape what the walk
 * returns, so here they live inside the block's `walk`.
 */
module Complex1 {
  import opened Notes
  import opened Parts
  import opened Chords

  /** The indexes of notes to select from the results. */
  const IndicesLists: seq<seq<int>> := [[4], [5, 7], [2, 9]]
  /** The walk depths. */
  const MaxIterations: seq<int> := [10, 20]
  /** `createNotes` transposes the block's scale to this root. */
  const PitchRoot: int := 40

  /**
   * `Block(scale, range, num, function)`: the scale, and what the walk gives
   * back for an index list and a depth (`algoACircle(num, z, 0.7885, max,
   * indices, null, function)`, each point reduced with `modPhase(range)` and
   * `ceilAbs(3.5, 16.0)`).
   */
  datatype Block = Block(scale: seq<int>, walk: Walk)

  /**
   * `createNotes(result, block)`: the result's notes, each from its own point
   * and kept only when more than a semitone away from the notes kept before.
   * The chord's notes are pairwise spaced, a non-empty result always gives
   * a first note from its first point, and no point gives more than one note.
   */
  method CreateNotes(result: seq<Sample>, block: Block) returns (notes: seq<Note>)
    requires |block.scale| > 0
    ensures notes == Assemble(block.scale, PitchRoot, result)
    ensures Spaced(notes) && |notes| <= |result|
    ensures notes != [] <==> result != []
    ensures result != [] ==> notes[0] == NoteOf(block.scale, PitchRoot, result[0])
  {
    notes := AssembleNotes(block.scale, PitchRoot, result);
    AssembleSpaced(block.scale, PitchRoot, result);
    AssembleFirst(block.scale, PitchRoot, result);
    AssembleKept(block.scale, PitchRoot, result);
  }

  /** The chords `processBlock` adds for a block, in order. */
  function ProcessedChords(block: Block): seq<MultiNote>
    requires |block.scale| > 0
  {
    BlockChords(block.scale, PitchRoot, IndicesLists, MaxIterations, block.walk)
  }

  /**
   * `processBlock(block, z, part)`: 3 index lists times 2 depths, so the
   * counter ends at 6; the part receives the block's chords one after the
   * other from its cursor, and nothing else of it changes. The counter is
   * returned instead of printed.
   */
  method ProcessBlock(block: Block, part: Part) returns (count: nat)
    requires |block.scale| > 0
    modifies part
    ensures count == 6
    ensures part.chords == PlaceChords(old(part.chords), old(part.ticks), ProcessedChords(block))
    ensures part.ticks == old(part.ticks) + ChordsDuration(ProcessedChords(block))
    ensures part.notes == old(part.notes) && part.tickOffset == old(part.tickOffset) && part.ticksPerMeas == old(part.ticksPerMeas)
  {
    count := AddBlock(part, block.scale, PitchRoot, IndicesLists, MaxIterations, block.walk);
  }

  /**
   * Every chord `processBlock` adds has notes, pairwise more than a semitone
   * apart, and is the chord of one result the walk returned for one of the
   * six (index list, depth) pairs.
   */
  lemma ProcessedChordsSpaced(block: Block, c: MultiNote)
    requires |block.scale| > 0
    requires c in ProcessedChords(block)
    ensures |c.notes| > 0 && Spaced(c.notes)
    ensures exists i, j, r ::
      && 0 <= i < |IndicesLists| && 0 <= j < |MaxIterations|
      && r in block.walk(IndicesLists[i], MaxIterations[j]) && r != []
      && c.notes == Assemble(block.scale, PitchRoot, r)
  {
    var combos := Combinations(IndicesLists, MaxIterations);
    ResultChordsSpaced(block.scale, PitchRoot, WalkResults(block.walk, combos), c);
    var r :| r in WalkResults(block.walk, combos) && r != [] && c.notes == Assemble(block.scale, PitchRoot, r);
    var k := WalkResultsFrom(block.walk, combos, r);
    CombinationsFrom(IndicesLists, MaxIterations, k);
  }

  /** A result of the walk over some combinations comes from one of them. */
  lemma {:induction false} WalkResultsFrom(walk: Walk, combos: seq<(seq<int>, int)>, r: seq<Sample>) returns (k: nat)
    requires r in WalkResults(walk, combos)
    ensures k < |combos| && r in walk(combos[k].0, combos[k].1)
  {
    var n := |combos| - 1;
    if r in WalkResults(walk, combos[..n]) {
      k := WalkResultsFrom(walk, combos[..n], r);
    } else {
      k := n;
    }
  }

  /** Every combination pairs one of the index lists with one of the depths. */
  lemma {:induction false} CombinationsFrom(lists: seq<seq<int>>, maxes: seq<int>, k: nat)
    requires k < |Combinations(lists, maxes)|
    ensures exists i, j :: 0 <= i < |lists| && 0 <= j < |maxes| && Combinations(lists, maxes)[k] == (lists[i], maxes[j])
  {
    var n := |lists| - 1;
    var init := Combinations(lists[..n], maxes);
    if k < |init| {
      CombinationsFrom(lists[..n], maxes, k);
      var i, j :| 0 <= i < n && 0 <= j < |maxes| && init[k] == (lists[..n][i], maxes[j]);
      assert lists[..n][i] == lists[i];
    } else {
      var j := k - |init|;
      assert Combinations(lists, maxes)[k] == (lists[n], maxes[j]);
    }
  }
}
