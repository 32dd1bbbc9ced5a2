/**
 * The `EdgeRock1` example composition: part A's lead line is built, block by
 * block, from walks around a circle in the complex plane; every result with
 * notes becomes one chord of the lead part.
 */
module EdgeRock1 {
  import opened Notes
  import opened Parts
  import opened Chords

  /** The indexes of notes to select from the results. */
  const NoteIndexes: seq<seq<int>> := [[4], [5, 7], [2, 9]]
  /** The walk depths. */
  const MaxDepths: seq<int> := [10, 50]

  /**
   * `C1Block(scale, range, num, radius, f)`: the scale, and what the walk
   * gives back for an index list and a depth (`algoACircle(num, z, radius,
   * max, noteIndexes, null, f)`, each point reduced with `modPhase(range)` and
   * `ceilAbs(newMax = 16.0)`).
   */
  datatype C1Block = C1Block(scale: seq<int>, walk: Walk)

  /** Every block has a scale to take pitches from. */
  predicate Scaled(blocks: seq<C1Block>)
  {
    forall k :: 0 <= k < |blocks| ==> |blocks[k].scale| > 0
  }

  /** The chords one block adds to the lead part, in order. */
  function BlockLead(b: C1Block, scaleRoot: int): seq<MultiNote>
    requires |b.scale| > 0
  {
    BlockChords(b.scale, scaleRoot, NoteIndexes, MaxDepths, b.walk)
  }

  /** The chords the blocks add to the lead part: each block's in turn. */
  function LeadChords(blocks: seq<C1Block>, scaleRoot: int): seq<MultiNote>
    requires Scaled(blocks)
  {
    if blocks == [] then []
    else
      var n := |blocks| - 1;
      assert Scaled(blocks[..n]) by {
        forall k | 0 <= k < n ensures |blocks[..n][k].scale| > 0 {
          assert blocks[..n][k] == blocks[k];
        }
      }
      LeadChords(blocks[..n], scaleRoot) + BlockLead(blocks[n], scaleRoot)
  }

  /** The chords of the first k + 1 blocks are those of the first k and then block k's. */
  lemma LeadChordsStep(blocks: seq<C1Block>, scaleRoot: int, k: nat, cs: seq<MultiNote>)
    requires Scaled(blocks) && k < |blocks|
    requires Scaled(blocks[..k]) && cs == LeadChords(blocks[..k], scaleRoot)
    ensures Scaled(blocks[..k + 1])
    ensures cs + BlockLead(blocks[k], scaleRoot) == LeadChords(blocks[..k + 1], scaleRoot)
  {
    assert blocks[..k + 1][..k] == blocks[..k];
  }

  /**
   * Every chord of the lead part has notes, pairwise more than a semitone
   * apart, and is the chord of one result of one block's walk.
   */
  lemma {:induction false} LeadChordsSpaced(blocks: seq<C1Block>, scaleRoot: int, c: MultiNote)
    requires Scaled(blocks)
    requires c in LeadChords(blocks, scaleRoot)
    ensures |c.notes| > 0 && Spaced(c.notes)
    ensures exists k, r :: 0 <= k < |blocks| && r != [] && c.notes == Assemble(blocks[k].scale, scaleRoot, r)
  {
    var n := |blocks| - 1;
    var init := blocks[..n];
    if c in LeadChords(init, scaleRoot) {
      LeadChordsSpaced(init, scaleRoot, c);
      var k, r :| 0 <= k < n && r != [] && c.notes == Assemble(init[k].scale, scaleRoot, r);
      assert init[k] == blocks[k];
    } else {
      var b := blocks[n];
      ResultChordsSpaced(b.scale, scaleRoot, WalkResults(b.walk, Combinations(NoteIndexes, MaxDepths)), c);
    }
  }

  /**
   * `PartA(blocks, z, scaleRoot)`: the lead part, on channel 0 with the piano
   * patch, and the root its scales are transposed to. The starting point `z`
   * of the walks is inside each block's walk.
   */
  class PartA {
    const leadA: Part
    const scaleRoot: int

    /**
     * The initializer: for every block in order, every index list and every
     * depth, the walk's results are added to the lead part as chords. The
     * lead part then holds the blocks' chords one after the other from tick
     * 0, its cursor is at their total length, and it has no single notes.
     * `piano` is the General MIDI patch the program looks up for "piano".
     */
    constructor (blocks: seq<C1Block>, scaleRoot: int, piano: int)
      requires Scaled(blocks)
      ensures fresh(leadA) && this.scaleRoot == scaleRoot
      ensures leadA.channel == 0 && leadA.instr == piano
      ensures leadA.chords == PlaceChords(map[], 0, LeadChords(blocks, scaleRoot))
      ensures leadA.ticks == ChordsDuration(LeadChords(blocks, scaleRoot))
      ensures leadA.notes == map[] && leadA.tickOffset == 0
    {
      leadA := new Part(0, piano);
      this.scaleRoot := scaleRoot;
      new;
      ghost var cs: seq<MultiNote> := [];
      assert blocks[..0] == [];
      for k := 0 to |blocks|
        invariant Scaled(blocks[..k]) && cs == LeadChords(blocks[..k], scaleRoot)
        invariant leadA.chords == PlaceChords(map[], 0, cs) && leadA.ticks == ChordsDuration(cs)
        invariant leadA.notes == map[] && leadA.tickOffset == 0
      {
        LeadChordsStep(blocks, scaleRoot, k, cs);
        var b := blocks[k];
        ghost var added := BlockLead(b, scaleRoot);
        ghost var before, t1 := leadA.chords, leadA.ticks;
        var _ := AddBlock(leadA, b.scale, scaleRoot, NoteIndexes, MaxDepths, b.walk);
        PlaceChordsStep(leadA.chords, leadA.ticks, before, t1, map[], 0, cs, added);
        cs := cs + added;
      }
      assert blocks[..|blocks|] == blocks;
    }

    /**
     * `toNotes(res, block)`: the result's notes, each from its own point with
     * the block's scale transposed to the part's root, and kept only when
     * more than a semitone away from the notes kept before.
     */
    method ToNotes(res: seq<Sample>, block: C1Block) returns (leadNotes: seq<Note>)
      requires |block.scale| > 0
      ensures leadNotes == Assemble(block.scale, scaleRoot, res)
      ensures Spaced(leadNotes) && |leadNotes| <= |res|
      ensures leadNotes != [] <==> res != []
      ensures res != [] ==> leadNotes[0] == NoteOf(block.scale, scaleRoot, res[0])
    {
      leadNotes := AssembleNotes(block.scale, scaleRoot, res);
      AssembleSpaced(block.scale, scaleRoot, res);
      AssembleFirst(block.scale, scaleRoot, res);
      AssembleKept(block.scale, scaleRoot, res);
    }
  }
}
