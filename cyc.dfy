/**
 * `Cyc`: an endless cycle over a list of integers, each value offset by a root.
 * The position counter `i` belongs to the Cyc object itself, so every iterator
 * it hands out continues where the previous one stopped.
 */
module CycPattern {
  import Integers

  class Cyc {
    const elements: seq<int>
    const root: int
    /** Number of values handed out so far, by all iterators together. */
    var i: nat

    /** `Cyc(elements, root)`; the vararg and Iterable constructors build the same list. */
    constructor (elements: seq<int>, root: int)
      ensures this.elements == elements && this.root == root && i == 0
    {
      this.elements := elements;
      this.root := root;
      i := 0;
    }

    /**
     * The value handed out by the n-th call to `next` over the object's
     * lifetime: the n-th element plus the root during the first round.
     */
    function Nth(n: nat): (x: int)
      requires |elements| > 0
      ensures n < |elements| ==> x == root + elements[n]
    {
      root + elements[n % |elements|]
    }

    /** `iterator()`: a new iterator over this object's shared counter. */
    method Iterator() returns (it: CycIterator)
      ensures fresh(it) && it.cyc == this
    {
      it := new CycIterator(this);
    }

    /**
     * Kotlin `take(n)` on the Cyc: asks a fresh iterator for n values (none,
     * and no division, when n is 0). Fails on an empty list otherwise.
     */
    method Take(n: nat) returns (r: seq<int>)
      requires |elements| > 0 || n == 0
      modifies this
      ensures i == old(i) + n
      ensures |r| == n && forall k :: 0 <= k < n ==> r[k] == Nth(old(i) + k)
    {
      r := [];
      if n == 0 {
        return;
      }
      var it := Iterator();
      while |r| < n && it.HasNext()
        invariant |r| <= n && i == old(i) + |r|
        invariant forall k :: 0 <= k < |r| ==> r[k] == Nth(old(i) + k)
        decreases n - |r|
      {
        var x := it.Next();
        r := r + [x];
      }
    }
  }

  /** The iterator a Cyc hands out: it keeps no position of its own. */
  class CycIterator {
    const cyc: Cyc

    constructor (cyc: Cyc)
      ensures this.cyc == cyc
    {
      this.cyc := cyc;
    }

    /** `hasNext()`: the cycle never ends. */
    function HasNext(): (b: bool)
      ensures b
    {
      true
    }

    /**
     * `next()`: root plus the element at the shared counter modulo the size,
     * then the counter moves on by one. Fails (division by zero) on an empty list.
     */
    method Next() returns (x: int)
      requires |cyc.elements| > 0
      modifies cyc
      ensures x == cyc.Nth(old(cyc.i))
      ensures cyc.i == old(cyc.i) + 1
    {
      x := cyc.root + cyc.elements[cyc.i % |cyc.elements|];
      cyc.i := cyc.i + 1;
    }
  }

  /** After every element has been handed out once, the cycle starts again. */
  lemma NthPeriodic(c: Cyc, n: nat)
    requires |c.elements| > 0
    ensures c.Nth(n + |c.elements|) == c.Nth(n)
  {
    var m := |c.elements|;
    Integers.DivModUnique(n + m, m, n / m + 1, n % m);
  }

  /** Every value handed out is the root plus one of the elements. */
  lemma NthInElements(c: Cyc, n: nat)
    requires |c.elements| > 0
    ensures c.Nth(n) - c.root in c.elements
  {
  }

  /** `Cyc(0, 1, …, 8).take(10)` gives 0 to 8 and then 0 again. */
  method TakeTenOfNine() returns (r: seq<int>)
    ensures r == [0, 1, 2, 3, 4, 5, 6, 7, 8, 0]
  {
    var c := new Cyc([0, 1, 2, 3, 4, 5, 6, 7, 8], 0);
    r := c.Take(10);
    assert r[9] == c.Nth(9) == c.Nth(0) by {
      NthPeriodic(c, 0);
    }
  }

  /** `Cyc(0, 1, 2, 3, root = 48).take(10)`: the root is added to every element. */
  method TakeTenWithRoot() returns (r: seq<int>)
    ensures r == [48, 49, 50, 51, 48, 49, 50, 51, 48, 49]
  {
    var c := new Cyc([0, 1, 2, 3], 48);
    r := c.Take(10);
    NthPeriodic(c, 0);
    NthPeriodic(c, 1);
    NthPeriodic(c, 2);
    NthPeriodic(c, 3);
    NthPeriodic(c, 4);
    NthPeriodic(c, 5);
  }

  /**
   * Two iterators of one Cyc share its counter: the first hands out 40 to 43
   * and wraps to 40, still claiming a next value; a second iterator created
   * afterwards goes on with 41 rather than starting again at 40.
   */
  method SharedCounter() returns (first: seq<int>, second: int)
    ensures first == [40, 41, 42, 43, 40]
    ensures second == 41
  {
    var c := new Cyc([0, 1, 2, 3], 40);
    var it := c.Iterator();
    var a := it.Next();
    var b := it.Next();
    var x := it.Next();
    var y := it.Next();
    assert it.HasNext();
    var z := it.Next();
    NthPeriodic(c, 0);
    first := [a, b, x, y, z];
    var again := c.Iterator();
    second := again.Next();
    NthPeriodic(c, 1);
  }
}
