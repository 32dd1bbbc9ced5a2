/**
 * Zipping integer patterns into notes (`NoteBuilder`) and note streams into
 * chords (`MultiNoteBuilder`). A builder stores the iterators it was given,
 * so it can be iterated through once only: a second `iterator()` continues
 * where the first stopped. The state of a builder is therefore the state of
 * its sources, and `Next`/`Take` here stand for the calls made through any of
 * its iterators.
 */
module NoteBuilders {
  import opened Notes
  import opened CycPattern
  import opened Iterators

  /** How many values each of a builder's three sources has given. */
  datatype Cursor = Cursor(p: nat, d: nat, v: nat)
  {
    function Plus(k: nat): Cursor
    {
      Cursor(p + k, d + k, v + k)
    }
  }

  /** Every cursor moved on by k. */
  function Shifted(cs: seq<Cursor>, k: nat): (r: seq<Cursor>)
    ensures |r| == |cs| && forall i :: 0 <= i < |cs| ==> r[i] == cs[i].Plus(k)
  {
    seq(|cs|, i requires 0 <= i < |cs| => cs[i].Plus(k))
  }

  lemma ShiftedZero(cs: seq<Cursor>)
    ensures Shifted(cs, 0) == cs
  {
  }

  lemma ShiftedTwice(cs: seq<Cursor>, a: nat, b: nat)
    ensures Shifted(Shifted(cs, a), b) == Shifted(cs, a + b)
  {
  }

  /** Three sources whose states live in different objects. */
  predicate Separate(p: IntIter, d: IntIter, v: IntIter)
  {
    p.holder != d.holder && p.holder != v.holder && d.holder != v.holder
  }

  class NoteBuilder {
    const p: IntIter
    const d: IntIter
    const v: IntIter

    /** `NoteBuilder(p, d, v)` over three iterators. */
    constructor (p: IntIter, d: IntIter, v: IntIter)
      requires p.Valid() && d.Valid() && v.Valid() && Separate(p, d, v)
      ensures this.p == p && this.d == d && this.v == v && Valid()
    {
      this.p := p;
      this.d := d;
      this.v := v;
    }

    /** `NoteBuilder(p, d)`: the velocity source defaults to `Cyc(64)`. */
    constructor WithDefaultVelocity(p: IntIter, d: IntIter)
      requires p.Valid() && d.Valid() && p.holder != d.holder
      ensures this.p == p && this.d == d && fresh(v.holder) && Valid()
      ensures v.Valid() && v.Drawable() && v.Size().Infinite?
      ensures forall k: nat :: v.ValueAt(k) == DefaultVelocity
    {
      var vs := Constant(DefaultVelocity);
      this.p := p;
      this.d := d;
      this.v := vs;
    }

    /** `NoteBuilder(p, d: Int)`: duration `Cyc(d)`, velocity `Cyc(64)`. */
    constructor ConstantDuration(p: IntIter, dur: int)
      requires p.Valid()
      ensures this.p == p && fresh(d.holder) && fresh(v.holder) && Valid()
      ensures d.Valid() && d.Drawable() && d.Size().Infinite? && forall k: nat :: d.ValueAt(k) == dur
      ensures v.Valid() && v.Drawable() && v.Size().Infinite? && forall k: nat :: v.ValueAt(k) == DefaultVelocity
    {
      var ds := Constant(dur);
      var vs := Constant(DefaultVelocity);
      this.p := p;
      this.d := ds;
      this.v := vs;
    }

    /** `NoteBuilder(p, d: Int, v: Int)`: duration `Cyc(d)`, velocity `Cyc(v)`. */
    constructor ConstantDurationVelocity(p: IntIter, dur: int, vel: int)
      requires p.Valid()
      ensures this.p == p && fresh(d.holder) && fresh(v.holder) && Valid()
      ensures d.Valid() && d.Drawable() && d.Size().Infinite? && forall k: nat :: d.ValueAt(k) == dur
      ensures v.Valid() && v.Drawable() && v.Size().Infinite? && forall k: nat :: v.ValueAt(k) == vel
    {
      var ds := Constant(dur);
      var vs := Constant(vel);
      this.p := p;
      this.d := ds;
      this.v := vs;
    }

    /** `NoteBuilder(p, d, v: Int)`: velocity `Cyc(v)`. */
    constructor ConstantVelocity(p: IntIter, d: IntIter, vel: int)
      requires p.Valid() && d.Valid() && p.holder != d.holder
      ensures this.p == p && this.d == d && fresh(v.holder) && Valid()
      ensures v.Valid() && v.Drawable() && v.Size().Infinite? && forall k: nat :: v.ValueAt(k) == vel
    {
      var vs := Constant(vel);
      this.p := p;
      this.d := d;
      this.v := vs;
    }

    /** The objects holding the three sources' states. */
    function Objects(): set<object>
    {
      {p.holder, d.holder, v.holder}
    }

    /** The three sources keep their states in three different objects. */
    predicate Valid()
    {
      p.Valid() && d.Valid() && v.Valid() && Separate(p, d, v)
    }

    /** None of the three sources ever runs out. */
    predicate Endless()
    {
      p.Size().Infinite? && d.Size().Infinite? && v.Size().Infinite?
    }

    /** None of the three sources is a Cyc without elements. */
    predicate Drawable()
    {
      p.Drawable() && d.Drawable() && v.Drawable()
    }

    /** How far each source has been drawn. */
    function Pos(): Cursor
      requires Valid()
      reads Objects()
    {
      Cursor(p.Drawn(), d.Drawn(), v.Drawn())
    }

    /** Whether every source has a value at the given counts. */
    predicate Within(c: Cursor)
    {
      p.Within(c.p) && d.Within(c.d) && v.Within(c.v)
    }

    /** The note built from the sources' values at the given counts. */
    function NoteAt(c: Cursor): Note
      requires Within(c) && Drawable()
    {
      Note(p.ValueAt(c.p), d.ValueAt(c.d), v.ValueAt(c.v))
    }

    /** How many notes are still to come: as many as the shortest source has values. */
    function Remaining(): Length
      requires Valid()
      reads Objects()
    {
      Shorter(p.Remaining(), Shorter(d.Remaining(), v.Remaining()))
    }

    /** `hasNext()`: every one of the three sources has a next value. */
    predicate HasNext()
      requires Valid()
      reads Objects()
      ensures HasNext() <==> Within(Pos())
    {
      p.HasNext() && d.HasNext() && v.HasNext()
    }

    /** `next()`: one value from each source, in the order pitch, duration, velocity. */
    method Next() returns (n: Note)
      requires Valid() && HasNext() && Drawable()
      modifies Objects()
      ensures n == NoteAt(old(Pos()))
      ensures Pos() == old(Pos()).Plus(1)
    {
      var pitch := p.Next();
      var duration := d.Next();
      var velocity := v.Next();
      n := Note(pitch, duration, velocity);
    }

    /**
     * Kotlin `take(n)`: notes until n are taken or a source runs out, so as many
     * notes as the shortest source still has, at most n; the k-th note is built
     * from the k-th values still to come of the three sources.
     */
    method Take(n: nat) returns (r: seq<Note>)
      requires Valid() && Drawable()
      modifies Objects()
      ensures |r| == AtMost(n, old(Remaining()))
      ensures forall k :: 0 <= k < |r| ==> Within(old(Pos()).Plus(k)) && r[k] == NoteAt(old(Pos()).Plus(k))
      ensures Pos() == old(Pos()).Plus(|r|)
    {
      ghost var start, rem := Pos(), Remaining();
      RemainingMeansWithin();
      r := [];
      if n == 0 {
        return;
      }
      while |r| < n && HasNext()
        invariant |r| <= n && |r| <= AtMost(n, rem)
        invariant Pos() == start.Plus(|r|)
        invariant forall k :: 0 <= k < |r| ==> Within(start.Plus(k)) && r[k] == NoteAt(start.Plus(k))
        decreases n - |r|
      {
        var note := Next();
        r := r + [note];
      }
    }

    /**
     * The builder has a note k places ahead exactly when k is below the
     * remaining count: the shortest source decides.
     */
    lemma RemainingMeansWithin()
      requires Valid()
      ensures forall k: nat :: Within(Pos().Plus(k)) <==> Remaining().Infinite? || k < Remaining().n
    {
      forall k: nat
        ensures Within(Pos().Plus(k)) <==> Remaining().Infinite? || k < Remaining().n
      {
        assert p.HasAhead(k) == p.Within(Pos().Plus(k).p);
        assert d.HasAhead(k) == d.Within(Pos().Plus(k).d);
        assert v.HasAhead(k) == v.Within(Pos().Plus(k).v);
      }
    }
  }

  /** A builder none of whose state objects changed is where it was. */
  twostate lemma PosUnchanged(b: NoteBuilder)
    requires b.Valid() && unchanged(b.Objects())
    ensures b.Pos() == old(b.Pos())
  {
  }

  /** The objects holding the states of all the builders. */
  ghost function AllObjects(builders: seq<NoteBuilder>): set<object>
  {
    if builders == [] then {}
    else AllObjects(builders[..|builders| - 1]) + builders[|builders| - 1].Objects()
  }

  lemma {:induction false} AllObjectsHas(builders: seq<NoteBuilder>, i: nat)
    requires i < |builders|
    ensures builders[i].Objects() <= AllObjects(builders)
  {
    if i < |builders| - 1 {
      AllObjectsHas(builders[..|builders| - 1], i);
    }
  }

  /** Builders whose states live in different objects. */
  predicate Disjoint(builders: seq<NoteBuilder>)
  {
    forall i, j :: 0 <= i < j < |builders| ==> builders[i].Objects() !! builders[j].Objects()
  }

  class MultiNoteBuilder {
    const builders: seq<NoteBuilder>
    /** The objects holding all the builders' states. */
    ghost const objects: set<object>

    /** `MultiNoteBuilder(iters)`: one note stream per builder, in order. */
    constructor (builders: seq<NoteBuilder>)
      requires (forall i :: 0 <= i < |builders| ==> builders[i].Valid()) && Disjoint(builders)
      ensures this.builders == builders && objects == AllObjects(builders) && Valid()
    {
      this.builders := builders;
      objects := AllObjects(builders);
      new;
      forall i | 0 <= i < |builders|
        ensures builders[i].Objects() <= objects
      {
        AllObjectsHas(builders, i);
      }
    }

    ghost function Objects(): set<object>
    {
      objects
    }

    /** Every builder's sources, and different builders, keep their states apart. */
    ghost predicate Valid()
    {
      (forall i :: 0 <= i < |builders| ==> builders[i].Valid() && builders[i].Objects() <= objects) &&
      Disjoint(builders)
    }

    predicate Drawable()
    {
      forall i :: 0 <= i < |builders| ==> builders[i].Drawable()
    }

    /** `hasNext()`: every builder has a next note. */
    predicate HasNext()
      requires Valid()
      reads Objects()
    {
      forall i :: 0 <= i < |builders| ==> builders[i].HasNext()
    }

    /** No builder ever runs out. */
    predicate Endless()
    {
      forall i :: 0 <= i < |builders| ==> builders[i].Endless()
    }

    /** Builders that never run out always have a next chord. */
    lemma EndlessHasNext()
      requires Valid() && Endless()
      ensures HasNext()
    {
    }

    /** Where every builder is, in the builders' order. */
    function Positions(): (r: seq<Cursor>)
      requires Valid()
      reads Objects()
      ensures |r| == |builders| && forall i :: 0 <= i < |builders| ==> r[i] == builders[i].Pos()
    {
      seq(|builders|, i requires 0 <= i < |builders| && Valid() reads Objects() => builders[i].Pos())
    }

    /** Draws the next note of builder j; the other builders stay where they were. */
    method NextOf(j: nat) returns (n: Note)
      requires Valid() && j < |builders| && builders[j].Within(builders[j].Pos()) && builders[j].Drawable()
      modifies Objects()
      ensures n == builders[j].NoteAt(old(builders[j].Pos()))
      ensures builders[j].Pos() == old(builders[j].Pos()).Plus(1)
      ensures forall i :: 0 <= i < |builders| && i != j ==> builders[i].Pos() == old(builders[i].Pos())
    {
      n := builders[j].Next();
      forall i | 0 <= i < |builders| && i != j
        ensures builders[i].Pos() == old(builders[i].Pos())
      {
        assert builders[i].Objects() !! builders[j].Objects();
        PosUnchanged(builders[i]);
      }
    }

    /** Whether every builder has a note at the given cursors. */
    predicate WithinAll(at: seq<Cursor>)
      requires |at| == |builders|
    {
      forall i :: 0 <= i < |builders| ==> builders[i].Within(at[i])
    }

    /** m is the chord made of every builder's note at the given cursors, in the builders' order. */
    predicate IsChordAt(m: MultiNote, at: seq<Cursor>)
      requires |at| == |builders| && Drawable()
    {
      WithinAll(at) && |m.notes| == |builders| &&
      forall i :: 0 <= i < |builders| ==> m.notes[i] == builders[i].NoteAt(at[i])
    }

    /** `next()`: the next note of every builder, in the builders' order, as one chord. */
    method Next() returns (m: MultiNote)
      requires Valid() && HasNext() && Drawable()
      modifies Objects()
      ensures IsChordAt(m, old(Positions()))
      ensures Positions() == Shifted(old(Positions()), 1)
    {
      ghost var start := Positions();
      var notes := [];
      for j := 0 to |builders|
        invariant |notes| == j
        invariant forall i :: 0 <= i < j ==>
          notes[i] == builders[i].NoteAt(start[i]) && builders[i].Pos() == start[i].Plus(1)
        invariant forall i :: j <= i < |builders| ==> builders[i].Pos() == start[i]
      {
        var n := NextOf(j);
        notes := notes + [n];
      }
      m := MultiNote(notes);
      assert Positions() == Shifted(start, 1);
    }

    /** Chord k of rs is made of the notes k places after the given cursors. */
    predicate ChordsFrom(rs: seq<MultiNote>, start: seq<Cursor>)
      requires |start| == |builders| && Drawable()
    {
      forall k :: 0 <= k < |rs| ==> IsChordAt(rs[k], Shifted(start, k))
    }

    /** A run of chords extends by the chord at the next cursors. */
    lemma ChordsFromExtend(rs: seq<MultiNote>, start: seq<Cursor>, m: MultiNote)
      requires |start| == |builders| && Drawable()
      requires ChordsFrom(rs, start) && IsChordAt(m, Shifted(start, |rs|))
      ensures ChordsFrom(rs + [m], start)
    {
      forall k | 0 <= k < |rs| + 1
        ensures IsChordAt((rs + [m])[k], Shifted(start, k))
      {
        if k < |rs| {
          assert (rs + [m])[k] == rs[k];
        }
      }
    }

    /**
     * Kotlin `take(n)`: chords until n are taken or some builder runs out;
     * chord k is made of the k-th notes still to come from every builder.
     */
    method Take(n: nat) returns (r: seq<MultiNote>)
      requires Valid() && Drawable()
      modifies Objects()
      ensures |r| <= n && (|r| < n ==> !HasNext())
      ensures ChordsFrom(r, old(Positions()))
      ensures Positions() == Shifted(old(Positions()), |r|)
    {
      ghost var start := Positions();
      r := [];
      ShiftedZero(start);
      if n == 0 {
        return;
      }
      while |r| < n && HasNext()
        invariant |r| <= n
        invariant ChordsFrom(r, start)
        invariant Positions() == Shifted(start, |r|)
        decreases n - |r|
      {
        var chord := Next();
        ChordsFromExtend(r, start, chord);
        ShiftedTwice(start, |r|, 1);
        r := r + [chord];
      }
    }
  }

  /** `NoteBuilder(Cyc(40, 44), 200).take(4)`: the pitches alternate, duration and velocity stay. */
  method FourNotesOfTwoPitches() returns (notes: seq<Note>)
    ensures |notes| == 4
    ensures notes[0] == Note(40, 200, 64) && notes[1] == Note(44, 200, 64)
    ensures notes[2] == Note(40, 200, 64) && notes[3] == Note(44, 200, 64)
  {
    var p := CycleOf([40, 44], 0);
    var nb := new NoteBuilder.ConstantDuration(p, 200);
    notes := nb.Take(4);
  }

  /** `NoteBuilder(Cyc(40, 44), Cyc(200, 300), Cyc(90, 100)).take(3)`: the three cycles run side by side. */
  method ThreeNotesOfThreeCycles() returns (notes: seq<Note>)
    ensures |notes| == 3
    ensures notes[0] == Note(40, 200, 90) && notes[1] == Note(44, 300, 100) && notes[2] == Note(40, 200, 90)
  {
    var p := CycleOf([40, 44], 0);
    var d := CycleOf([200, 300], 0);
    var v := CycleOf([90, 100], 0);
    var nb := new NoteBuilder(p, d, v);
    notes := nb.Take(3);
  }

  /** A builder over a finite list of pitches stops with the list, however many notes are asked for. */
  method FiniteListStops() returns (notes: seq<Note>)
    ensures |notes| == 3
    ensures notes[0] == Note(60, 100, 64) && notes[1] == Note(62, 100, 64) && notes[2] == Note(64, 100, 64)
  {
    var p := new IntIter.OfList([60, 62, 64]);
    var nb := new NoteBuilder.ConstantDuration(p, 100);
    notes := nb.Take(5);
  }

  /**
   * A builder is iterated through once only: after `take(1)` on
   * `NoteBuilder(Cyc(45, 47), 100, 90)`, `take(2)` goes on from the second note.
   */
  method TakeContinues() returns (first: seq<Note>, next: seq<Note>)
    ensures |first| == 1 && first[0] == Note(45, 100, 90)
    ensures |next| == 2 && next[0] == Note(47, 100, 90) && next[1] == Note(45, 100, 90)
  {
    var p := CycleOf([45, 47], 0);
    var nb := new NoteBuilder.ConstantDurationVelocity(p, 100, 90);
    first := nb.Take(1);
    next := nb.Take(2);
  }

  /**
   * The same with the durations cycling as well, `NoteBuilder(Cyc(45, 47), Cyc(100, 70), 90)`:
   * the first note agrees with the builder above, the second one does not.
   */
  method TakeContinuesWithDurations() returns (first: seq<Note>, next: seq<Note>)
    ensures |first| == 1 && first[0] == Note(45, 100, 90)
    ensures |next| == 2 && next[0] == Note(47, 70, 90) && next[1] == Note(45, 100, 90)
  {
    var p := CycleOf([45, 47], 0);
    var d := CycleOf([100, 70], 0);
    var nb := new NoteBuilder.ConstantVelocity(p, d, 90);
    first := nb.Take(1);
    next := nb.Take(2);
  }

  /**
   * `NoteBuilder(Cyc(ps), Cyc(ds), vel)` on fresh Cycs, which is `NoteBuilder(Cyc(ps), Cyc(ds), Cyc(vel))`:
   * pitches and durations cycle, the velocity stays.
   */
  method CycleBuilder(ps: seq<int>, ds: seq<int>, vel: int) returns (nb: NoteBuilder)
    requires |ps| > 0 && |ds| > 0
    ensures fresh(nb.Objects()) && nb.Valid() && nb.Drawable() && nb.Endless()
    ensures nb.Pos() == Cursor(0, 0, 0)
    ensures forall k: nat :: nb.NoteAt(Cursor(k, k, k)) == Note(ps[k % |ps|], ds[k % |ds|], vel)
  {
    var p := CycleOf(ps, 0);
    var d := CycleOf(ds, 0);
    var v := CycleOf([vel], 0);
    nb := new NoteBuilder(p, d, v);
  }

  /**
   * `MultiNoteBuilder(NoteBuilder(Cyc(45, 47), 100, 90), NoteBuilder(Cyc(45, 49), Cyc(100, 70), 90)).take(4)`:
   * every chord holds one note of each builder, in the builders' order.
   */
  method FourChordsOfTwoBuilders() returns (r: seq<MultiNote>)
    ensures |r| == 4 && forall k :: 0 <= k < 4 ==> |r[k].notes| == 2
    ensures r[0].notes[0] == Note(45, 100, 90) && r[0].notes[1] == Note(45, 100, 90)
    ensures r[1].notes[0] == Note(47, 100, 90) && r[1].notes[1] == Note(49, 70, 90)
    ensures r[2].notes[0] == Note(45, 100, 90) && r[2].notes[1] == Note(45, 100, 90)
    ensures r[3].notes[0] == Note(47, 100, 90) && r[3].notes[1] == Note(49, 70, 90)
  {
    var nb1 := CycleBuilder([45, 47], [100], 90);
    var nb2 := CycleBuilder([45, 49], [100, 70], 90);
    var mb := new MultiNoteBuilder([nb1, nb2]);
    assert AllObjects([nb1]) == nb1.Objects() by {
      assert [nb1][..0] == [];
    }
    assert mb.Objects() == nb1.Objects() + nb2.Objects() by {
      assert [nb1, nb2][..1] == [nb1];
    }
    assert mb.Valid() && mb.Endless();
    ghost var at := mb.Positions();
    assert |at| == 2 && at[0] == Cursor(0, 0, 0) && at[1] == Cursor(0, 0, 0);
    r := mb.Take(4);
    mb.EndlessHasNext();
    forall k | 0 <= k < 4
      ensures r[k].notes[0] == nb1.NoteAt(Cursor(k, k, k)) && r[k].notes[1] == nb2.NoteAt(Cursor(k, k, k))
    {
      assert mb.IsChordAt(r[k], Shifted(at, k));
      assert Shifted(at, k)[0] == Cursor(k, k, k) && Shifted(at, k)[1] == Cursor(k, k, k);
    }
  }
}
