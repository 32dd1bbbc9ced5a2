/**
 * `Iter`, the program's name for a Kotlin `Iterator<Int>`. The iterators that
 * feed the note builders come either from a list (a position of their own) or
 * from a Cyc (the Cyc's shared counter). Either way the iterator's state is one
 * number, how many values have been drawn so far, and the value drawn next is
 * a fixed function of that number.
 */
module Iterators {
  import opened CycPattern

  /** Where an iterator's values come from. */
  datatype Source = Items(items: seq<int>) | Cycle(it: CycIterator)

  /** How many values a source can give in all. */
  datatype Length = Finite(n: nat) | Infinite

  /** The smaller of n and a length. */
  function AtMost(n: nat, len: Length): (m: nat)
    ensures m <= n
    ensures len.Finite? ==> m <= len.n && (m == n || m == len.n)
    ensures len.Infinite? ==> m == n
  {
    if len.Finite? && len.n < n then len.n else n
  }

  /** The shorter of two lengths. */
  function Shorter(a: Length, b: Length): (m: Length)
    ensures m.Infinite? <==> a.Infinite? && b.Infinite?
    ensures m.Finite? ==> (a.Finite? ==> m.n <= a.n) && (b.Finite? ==> m.n <= b.n)
    ensures m == a || m == b
  {
    if a.Infinite? then b
    else if b.Infinite? then a
    else if a.n <= b.n then a
    else b
  }

  /** `Cyc(elements, root).iterator()` on a fresh Cyc: root plus the elements, round and round. */
  method CycleOf(elements: seq<int>, root: int) returns (it: IntIter)
    requires |elements| > 0
    ensures fresh(it.holder) && it.Valid() && it.Drawable() && it.Size().Infinite? && it.Drawn() == 0
    ensures forall k: nat :: it.ValueAt(k) == root + elements[k % |elements|]
  {
    var c := new Cyc(elements, root);
    it := new IntIter.OfCyc(c);
  }

  /** `Cyc(x).iterator()`: a fresh source that gives x forever. */
  method Constant(x: int) returns (it: IntIter)
    ensures fresh(it.holder) && it.Valid() && it.Drawable() && it.Size().Infinite? && it.Drawn() == 0
    ensures forall k: nat :: it.ValueAt(k) == x
  {
    it := CycleOf([x], 0);
  }

  class IntIter {
    const source: Source
    /** Index of the next list element (a list iterator's own position). */
    var pos: nat
    /**
     * The object that holds this iterator's state: the iterator itself for a
     * list, the shared Cyc for a cycle.
     */
    const holder: object

    /** `list.iterator()`: starts at the first element. */
    constructor OfList(items: seq<int>)
      ensures source == Items(items) && Valid() && holder == this && Drawn() == 0
    {
      source := Items(items);
      pos := 0;
      holder := this;
    }

    /** `cyc.iterator()`: a new iterator on the Cyc's shared counter. */
    constructor OfCyc(c: Cyc)
      ensures source.Cycle? && source.it.cyc == c && Valid() && holder == c && Drawn() == c.i
    {
      var it := c.Iterator();
      source := Cycle(it);
      pos := 0;
      holder := c;
    }

    predicate Valid()
    {
      holder == (if source.Cycle? then source.it.cyc else this)
    }

    /** How many values have been drawn so far (for a Cyc, by all its iterators). */
    function Drawn(): nat
      requires Valid()
      reads holder
    {
      if source.Items? then pos else source.it.cyc.i
    }

    /** How many values the source gives in all. */
    function Size(): Length
    {
      if source.Items? then Finite(|source.items|) else Infinite
    }

    /** Whether the source has a value k places after the next one. */
    predicate HasAhead(k: nat)
      requires Valid()
      reads holder
    {
      Within(Drawn() + k)
    }

    /** How many values are still to come: exactly those the source has beyond the drawn ones. */
    function Remaining(): (len: Length)
      requires Valid()
      reads holder
      ensures len.Finite? <==> source.Items?
      ensures forall k: nat :: HasAhead(k) <==> len.Infinite? || k < len.n
    {
      if source.Cycle? then Infinite
      else if pos <= |source.items| then Finite(|source.items| - pos)
      else Finite(0)
    }

    /** Whether the source has an n-th value (counting from 0 over its lifetime). */
    predicate Within(n: nat)
    {
      Size().Infinite? || n < Size().n
    }

    /** A Cyc with no elements fails on `next`; a list never does while it has a next value. */
    predicate Drawable()
    {
      source.Cycle? ==> |source.it.cyc.elements| > 0
    }

    /** The n-th value the source gives over its lifetime. */
    function ValueAt(n: nat): int
      requires Within(n) && Drawable()
    {
      if source.Items? then source.items[n] else source.it.cyc.Nth(n)
    }

    /** `hasNext()`: a list has a next element until its end; a Cyc always has one. */
    predicate HasNext()
      requires Valid()
      reads holder
    {
      Within(Drawn())
    }

    /** `next()`: the value at the current count, then the count moves on by one. */
    method Next() returns (x: int)
      requires Valid() && HasNext() && Drawable()
      modifies holder
      ensures x == ValueAt(old(Drawn()))
      ensures Drawn() == old(Drawn()) + 1
    {
      if source.Items? {
        x := source.items[pos];
        pos := pos + 1;
      } else {
        x := source.it.Next();
      }
    }
  }
}
