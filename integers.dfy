/**
 * Integer encoding of musical material: indexing into scales with wraparound,
 * relative steps, transposition, modes, arithmetic modulo 12 and MIDI pitch names.
 *
 * Kotlin's `/` and `%` on Int truncate toward zero, while Dafny's are Euclidean;
 * TruncDiv and TruncRem model the Kotlin operators. The divisor is always a
 * positive size or 12 here.
 */
module Integers {
  import opened Wrappers
  import opened Notes

  // ---------------------------------------------------------------------------
  // Kotlin integer division
  // ---------------------------------------------------------------------------

  /** Kotlin `a / b` for b > 0: the quotient truncated toward zero. */
  function TruncDiv(a: int, b: int): (q: int)
    requires b > 0
    ensures a >= 0 ==> q >= 0
    ensures a <= 0 ==> q <= 0
  {
    if a >= 0 then a / b else -((-a) / b)
  }

  /** Kotlin `a % b` for b > 0: the remainder takes the sign of a. */
  function TruncRem(a: int, b: int): (r: int)
    requires b > 0
    ensures a == b * TruncDiv(a, b) + r
    ensures -b < r < b
    ensures a >= 0 ==> r >= 0
    ensures a <= 0 ==> r <= 0
  {
    if a >= 0 then a % b else -((-a) % b)
  }

  /** A non-zero multiple of b is at least b away from zero. */
  lemma {:induction false} MulBound(b: int, d: int)
    requires b > 0
    ensures d >= 1 ==> b * d >= b
    ensures d <= -1 ==> b * d <= -b
    decreases if d >= 0 then d else -d
  {
    if d > 1 {
      MulBound(b, d - 1);
      assert b * d == b * (d - 1) + b;
    } else if d < -1 {
      MulBound(b, d + 1);
      assert b * d == b * (d + 1) - b;
    }
  }

  /** Euclidean division is determined by its defining equation. */
  lemma DivModUnique(a: int, b: int, q: int, r: int)
    requires b > 0
    requires a == b * q + r && 0 <= r < b
    ensures q == a / b && r == a % b
  {
    var q0, r0 := a / b, a % b;
    var d := q - q0;
    assert b * q == b * q0 + b * d;
    MulBound(b, d);
  }

  /** Floor division and remainder recovered from the truncating ones. */
  lemma FloorFromTrunc(a: int, b: int)
    requires b > 0
    ensures a / b == (if TruncRem(a, b) < 0 then TruncDiv(a, b) - 1 else TruncDiv(a, b))
    ensures a % b == (if TruncRem(a, b) < 0 then TruncRem(a, b) + b else TruncRem(a, b))
  {
    var q, r := TruncDiv(a, b), TruncRem(a, b);
    if r < 0 {
      assert a == b * (q - 1) + (r + b);
      DivModUnique(a, b, q - 1, r + b);
    } else {
      DivModUnique(a, b, q, r);
    }
  }

  /** A truncating remainder is zero exactly when the floor remainder is. */
  lemma TruncRemZero(a: int, b: int)
    requires b > 0
    ensures TruncRem(a, b) == 0 <==> a % b == 0
  {
    FloorFromTrunc(a, b);
  }

  // ---------------------------------------------------------------------------
  // Indexing into a scale
  // ---------------------------------------------------------------------------

  /**
   * `Collection<Int>.wrapped(idx, octaves, root)`: index into s with wraparound
   * in both directions. The truncated quotient and remainder are corrected for
   * negative indices, so the element index always lies in [0, |s|) and the octave
   * count is the floor quotient; in octave-aware mode each wrap adds 12.
   * An empty collection fails with a division by zero: |s| > 0 is required.
   */
  function Wrapped(s: seq<int>, idx: int, octaves: bool, root: int): (r: int)
    requires |s| > 0
    ensures r == (if octaves then 12 * (idx / |s|) else 0) + root + s[idx % |s|]
  {
    var size := |s|;
    var newIdx := TruncRem(idx, size);
    var octave := TruncDiv(idx, size);
    var octave := if idx < 0 && newIdx < 0 then octave - 1 else octave;
    var newIdx := if newIdx < 0 then newIdx + size else newIdx;
    FloorFromTrunc(idx, size);
    if octaves then 12 * octave + root + s[newIdx] else root + s[newIdx]
  }

  /** Moving the index by k whole scales moves the result by k octaves (or not at all). */
  lemma WrappedShift(s: seq<int>, idx: int, k: int, root: int)
    requires |s| > 0
    ensures Wrapped(s, idx + k * |s|, true, root) == Wrapped(s, idx, true, root) + 12 * k
    ensures Wrapped(s, idx + k * |s|, false, root) == Wrapped(s, idx, false, root)
  {
    var n := |s|;
    assert idx + k * n == n * (idx / n + k) + idx % n;
    DivModUnique(idx + k * n, n, idx / n + k, idx % n);
  }

  /** Octave-aware periodicity: one scale further is one octave (12) higher. */
  lemma WrappedOctavePeriodic(s: seq<int>, idx: int, root: int)
    requires |s| > 0
    ensures Wrapped(s, idx + |s|, true, root) == Wrapped(s, idx, true, root) + 12
  {
    WrappedShift(s, idx, 1, root);
  }

  /** Without octaves, wrapped is periodic with period |s|. */
  lemma WrappedPeriodic(s: seq<int>, idx: int, root: int)
    requires |s| > 0
    ensures Wrapped(s, idx + |s|, false, root) == Wrapped(s, idx, false, root)
  {
    WrappedShift(s, idx, 1, root);
  }

  /** Inside the collection, wrapped is plain indexing plus the root. */
  lemma WrappedInRange(s: seq<int>, idx: int, octaves: bool, root: int)
    requires 0 <= idx < |s|
    ensures Wrapped(s, idx, octaves, root) == root + s[idx]
  {
    DivModUnique(idx, |s|, 0, idx);
  }

  // ---------------------------------------------------------------------------
  // Relative steps
  // ---------------------------------------------------------------------------

  /** Sum of the entries of xs that are not rests. */
  function NonRestSum(xs: seq<int>): int
  {
    if xs == [] then 0
    else NonRestSum(xs[..|xs| - 1]) + (if IsRestPitch(xs[|xs| - 1]) then 0 else xs[|xs| - 1])
  }

  /**
   * The absolute index skipStep's first pass produces for skip k: a rest stays
   * R and does not move the running total; any other skip is added to it.
   */
  function AbsoluteIndex(skips: seq<int>, k: nat): int
    requires k < |skips|
  {
    if IsRestPitch(skips[k]) then R else NonRestSum(skips[..k + 1])
  }

  /**
   * `Iterable<Int>.skipStep(skips, octaves)`: turn relative steps into pitches of s.
   * The first pass accumulates the non-rest skips into absolute indices; the second
   * wraps each absolute index into s, except that an absolute index that is itself
   * above RestTest (a rest skip, or a running total above 2000) becomes R.
   * Only the indices that reach `wrapped` need a non-empty s.
   */
  method SkipStep(s: seq<int>, skips: seq<int>, octaves: bool) returns (r: seq<int>)
    requires |s| > 0 || forall k :: 0 <= k < |skips| && !IsRestPitch(skips[k]) ==> IsRestPitch(NonRestSum(skips[..k + 1]))
    ensures |r| == |skips|
    ensures forall k :: 0 <= k < |skips| && IsRestPitch(skips[k]) ==> r[k] == R
    ensures forall k :: 0 <= k < |skips| && !IsRestPitch(skips[k]) ==>
      r[k] == (var a := NonRestSum(skips[..k + 1]);
               if IsRestPitch(a) then R else Wrapped(s, a, octaves, 0))
  {
    var accumulate := 0;
    var absIdxs: seq<int> := [];
    for j := 0 to |skips|
      invariant |absIdxs| == j
      invariant accumulate == NonRestSum(skips[..j])
      invariant forall k :: 0 <= k < j ==> absIdxs[k] == AbsoluteIndex(skips, k)
    {
      assert skips[..j + 1][..j] == skips[..j];
      if IsRestPitch(skips[j]) {
        absIdxs := absIdxs + [R];
      } else {
        accumulate := accumulate + skips[j];
        absIdxs := absIdxs + [accumulate];
      }
    }
    r := [];
    for j := 0 to |absIdxs|
      invariant |r| == j
      invariant forall k :: 0 <= k < j ==>
        r[k] == if IsRestPitch(absIdxs[k]) then R else Wrapped(s, absIdxs[k], octaves, 0)
    {
      if IsRestPitch(absIdxs[j]) {
        r := r + [R];
      } else {
        assert !IsRestPitch(skips[j]);
        r := r + [Wrapped(s, absIdxs[j], octaves, 0)];
      }
    }
  }

  /** Where every skip is a rest, nothing is added to the running total. */
  lemma {:induction false} NonRestSumOfRests(xs: seq<int>)
    requires forall k :: 0 <= k < |xs| ==> IsRestPitch(xs[k])
    ensures NonRestSum(xs) == 0
  {
    if xs != [] {
      NonRestSumOfRests(xs[..|xs| - 1]);
    }
  }

  /**
   * On an empty collection skipStep only avoids `wrapped` (and its division by
   * zero) when every absolute index is a rest, and that happens exactly when
   * every skip is a rest: the first skip that is not a rest is its own running
   * total, at most 2000.
   */
  lemma {:induction false} EmptyScaleOnlyRests(skips: seq<int>)
    ensures (forall k :: 0 <= k < |skips| && !IsRestPitch(skips[k]) ==> IsRestPitch(NonRestSum(skips[..k + 1])))
        <==> (forall k :: 0 <= k < |skips| ==> IsRestPitch(skips[k]))
  {
    if skips != [] && forall k :: 0 <= k < |skips| && !IsRestPitch(skips[k]) ==> IsRestPitch(NonRestSum(skips[..k + 1])) {
      var n := |skips| - 1;
      var init := skips[..n];
      forall k | 0 <= k < n && !IsRestPitch(init[k])
        ensures IsRestPitch(NonRestSum(init[..k + 1]))
      {
        assert init[..k + 1] == skips[..k + 1];
      }
      EmptyScaleOnlyRests(init);
      NonRestSumOfRests(init);
      assert skips[..n + 1] == skips;
    }
  }

  // ---------------------------------------------------------------------------
  // Transposition and arithmetic modulo 12
  // ---------------------------------------------------------------------------

  /** `Iterable<Int>.transpose(t)`: move every element by t semitones, in order. */
  function Transpose(s: seq<int>, t: int): (r: seq<int>)
    ensures |r| == |s|
    ensures forall k :: 0 <= k < |s| ==> r[k] == t + s[k]
  {
    if s == [] then [] else [t + s[0]] + Transpose(s[1..], t)
  }

  lemma TransposeByZero(s: seq<int>)
    ensures Transpose(s, 0) == s
  {
  }

  /** Transposing by a and then by b is transposing by a + b; by -t undoes t. */
  lemma TransposeCompose(s: seq<int>, a: int, b: int)
    ensures Transpose(Transpose(s, a), b) == Transpose(s, a + b)
    ensures Transpose(Transpose(s, a), -a) == s
  {
  }

  /** A rest (pitch R) in a pitch list is still a rest after any transposition above -18000. */
  lemma TransposeKeepsRests(s: seq<int>, t: int)
    requires t > -18000
    ensures forall k :: 0 <= k < |s| && s[k] == R ==> IsRestPitch(Transpose(s, t)[k])
  {
  }

  /** `Int.addMod12(x)`: the Kotlin remainder (a + x) % 12, negative when a + x is. */
  function AddMod12(a: int, x: int): (r: int)
    ensures r % 12 == (a + x) % 12
    ensures a + x >= 0 ==> 0 <= r < 12
    ensures a + x < 0 ==> -12 < r <= 0
  {
    FloorFromTrunc(a + x, 12);
    TruncRem(a + x, 12)
  }

  /** `Int.invMod12()`: the pitch class that brings a back to 0 modulo 12. */
  function InvMod12(a: int): (r: int)
    ensures 0 <= r < 12
    ensures (a + r) % 12 == 0
    ensures 0 <= a < 12 ==> r == (12 - a) % 12
  {
    var c := 12 - TruncRem(a, 12);
    var r := TruncRem(c, 12);
    assert a + r == 12 * (TruncDiv(a, 12) + 1 - TruncDiv(c, 12));
    DivModUnique(a + r, 12, TruncDiv(a, 12) + 1 - TruncDiv(c, 12), 0);
    r
  }

  /** Adding the inverse always gives 0, for every integer, not only pitch classes. */
  lemma AddInvMod12(a: int)
    ensures AddMod12(a, InvMod12(a)) == 0
  {
    TruncRemZero(a + InvMod12(a), 12);
  }

  /** Add x (mod 12, Kotlin remainder) to every element. */
  function AddMod12All(s: seq<int>, x: int): (r: seq<int>)
    ensures |r| == |s|
    ensures forall k :: 0 <= k < |s| ==> r[k] == AddMod12(s[k], x)
  {
    if s == [] then [] else [AddMod12(s[0], x)] + AddMod12All(s[1..], x)
  }

  /**
   * `Iterable<Int>.transposeToZero()`: pitch classes relative to the first element,
   * in the original order. The first element is read inside the mapping lambda,
   * so the empty list maps to the empty list.
   */
  function TransposeToZero(s: seq<int>): (r: seq<int>)
    ensures |r| == |s|
    ensures |s| > 0 ==> r[0] == 0
    ensures forall k :: 0 <= k < |s| ==> r[k] % 12 == (s[k] - s[0]) % 12 && -12 < r[k] < 12
    ensures forall k :: 0 <= k < |s| && s[k] >= s[0] - 12 ==> 0 <= r[k] < 12
    ensures forall k :: 0 <= k < |s| && s[k] < s[0] - 12 ==> -12 < r[k] <= 0
  {
    if s == [] then []
    else
      var r := AddMod12All(s, 12 - s[0]);
      assert forall k :: 0 <= k < |s| ==> (s[k] + (12 - s[0])) % 12 == (s[k] - s[0]) % 12 by {
        forall k | 0 <= k < |s| ensures (s[k] + (12 - s[0])) % 12 == (s[k] - s[0]) % 12 {
          DivModUnique(s[k] + 12 - s[0], 12, (s[k] - s[0]) / 12 + 1, (s[k] - s[0]) % 12);
        }
      }
      r
  }

  /** An element more than an octave below the first keeps the sign of Kotlin's remainder. */
  lemma TransposeToZeroFarBelow()
    ensures TransposeToZero([60, 40]) == [0, -8]
  {
    var r := TransposeToZero([60, 40]);
    assert r[1] % 12 == 4 && -12 < r[1] <= 0;
  }

  // ---------------------------------------------------------------------------
  // Modes
  // ---------------------------------------------------------------------------

  /**
   * `Iterable<Int>.mode(m, octaves)`: element i is the scale read from degree m
   * (1 is the root mode) and i steps on, wrapping with or without octaves.
   */
  function Mode(s: seq<int>, m: int, octaves: bool): (r: seq<int>)
    ensures |r| == |s|
  {
    seq(|s|, i requires 0 <= i < |s| => Wrapped(s, (m - 1) + i, octaves, 0))
  }

  /** The first mode is the collection itself, with or without octaves. */
  lemma ModeOne(s: seq<int>, octaves: bool)
    ensures Mode(s, 1, octaves) == s
  {
    forall i | 0 <= i < |s| ensures Mode(s, 1, octaves)[i] == s[i] {
      WrappedInRange(s, i, octaves, 0);
    }
  }

  /** Without octaves, mode m is the rotation of s that starts at degree m. */
  lemma ModeRotation(s: seq<int>, m: int)
    requires |s| > 0
    ensures Mode(s, m, false) == s[(m - 1) % |s|..] + s[..(m - 1) % |s|]
  {
    var n := |s|;
    var j := (m - 1) % n;
    var rot := s[j..] + s[..j];
    forall i | 0 <= i < n ensures Mode(s, m, false)[i] == rot[i] {
      assert m - 1 + i == (j + i) + ((m - 1) / n) * n;
      WrappedShift(s, j + i, (m - 1) / n, 0);
      if j + i < n {
        WrappedInRange(s, j + i, false, 0);
      } else {
        WrappedShift(s, j + i - n, 1, 0);
        WrappedInRange(s, j + i - n, false, 0);
      }
    }
  }

  /** With octaves, the mode |s| degrees higher is the same mode an octave up. */
  lemma ModeOctaveUp(s: seq<int>, m: int)
    ensures Mode(s, m + |s|, true) == Transpose(Mode(s, m, true), 12)
  {
    forall i | 0 <= i < |s| ensures Mode(s, m + |s|, true)[i] == Mode(s, m, true)[i] + 12 {
      assert (m + |s| - 1) + i == ((m - 1) + i) + |s|;
      WrappedOctavePeriodic(s, (m - 1) + i, 0);
    }
  }

  /** `Iterable<Int>.modesAll(octaves)`: the modes numbered 1 to |s|, in order. */
  function ModesAll(s: seq<int>, octaves: bool): (r: seq<seq<int>>)
    ensures |r| == |s|
  {
    seq(|s|, k requires 0 <= k < |s| => Mode(s, k + 1, octaves))
  }

  /** Without octaves, the k-th entry of modesAll is the rotation starting at s[k]. */
  lemma ModesAllRotations(s: seq<int>)
    ensures forall k :: 0 <= k < |s| ==> ModesAll(s, false)[k] == s[k..] + s[..k]
  {
    forall k | 0 <= k < |s| ensures ModesAll(s, false)[k] == s[k..] + s[..k] {
      ModeRotation(s, k + 1);
      DivModUnique(k, |s|, 0, k);
    }
  }

  // ---------------------------------------------------------------------------
  // MIDI pitch numbers and names
  // ---------------------------------------------------------------------------

  const NamesSharp: seq<string> := ["C", "C#", "D", "D#", "E", "F", "F#", "G", "G#", "A", "A#", "B"]
  const NamesFlat: seq<string> := ["C", "Db", "D", "Eb", "E", "F", "Gb", "G", "Ab", "A", "Bb", "B"]

  /** `Int.midiOctave()`: truncating p / 12, minus one (60 is in octave 4). */
  function MidiOctave(p: int): int
  {
    TruncDiv(p, 12) - 1
  }

  /** `Int.midiPitchClass()`: the Kotlin remainder p % 12 (negative for most negative p). */
  function MidiPitchClass(p: int): int
  {
    TruncRem(p, 12)
  }

  /** Octave and pitch class together determine the pitch number. */
  lemma MidiOctaveAndClass(p: int)
    ensures p == 12 * (MidiOctave(p) + 1) + MidiPitchClass(p)
    ensures 0 <= MidiPitchClass(p) < 12 <==> p >= 0 || p % 12 == 0
  {
    TruncRemZero(p, 12);
  }

  /** An ASCII decimal digit (Kotlin's isDigit restricted to ASCII). */
  predicate IsDigit(c: char) {
    '0' <= c <= '9'
  }

  function DigitChar(d: int): (c: char)
    requires 0 <= d < 10
    ensures IsDigit(c)
  {
    (48 + d) as char
  }

  function DigitValue(c: char): nat
    requires IsDigit(c)
  {
    c as int - 48
  }

  /** Decimal representation of n, most significant digit first. */
  function NatToString(n: nat): (s: string)
    ensures |s| > 0
    ensures forall k :: 0 <= k < |s| ==> IsDigit(s[k])
  {
    if n < 10 then [DigitChar(n)] else NatToString(n / 10) + [DigitChar(n % 10)]
  }

  /** Kotlin's Int.toString: a minus sign before negative numbers. */
  function IntToString(i: int): string
  {
    if i < 0 then "-" + NatToString(-i) else NatToString(i)
  }

  /** `Int.midiPitchNameAndOctave()`: sharp name of the pitch class, then the octave. */
  function MidiPitchNameAndOctave(p: int): string
    requires 0 <= MidiPitchClass(p)
  {
    NamesSharp[MidiPitchClass(p)] + IntToString(MidiOctave(p))
  }

  /** Kotlin `indexOfFirst`: the first position satisfying f, or -1. */
  function IndexOfFirst(s: string, f: char -> bool): (i: int)
    ensures -1 <= i < |s|
    ensures i == -1 ==> forall k :: 0 <= k < |s| ==> !f(s[k])
    ensures i >= 0 ==> f(s[i]) && forall k :: 0 <= k < i ==> !f(s[k])
  {
    if s == [] then -1
    else if f(s[0]) then 0
    else
      var j := IndexOfFirst(s[1..], f);
      if j == -1 then -1 else j + 1
  }

  /** Value of a non-empty run of digits, most significant first. */
  function DigitsValue(s: string): nat
    requires forall k :: 0 <= k < |s| ==> IsDigit(s[k])
  {
    if s == [] then 0 else DigitsValue(s[..|s| - 1]) * 10 + DigitValue(s[|s| - 1])
  }

  /**
   * Kotlin `String.toInt()` on a string that starts with a digit: the value when
   * every character is a digit, None where Kotlin throws NumberFormatException.
   */
  function ParseDigits(s: string): (r: Option<int>)
    ensures r.Some? ==> r.value >= 0
  {
    if s != [] && forall k :: 0 <= k < |s| ==> IsDigit(s[k]) then Some(DigitsValue(s)) else None
  }

  /**
   * `String.midiOctave()`: parse from the first digit to the end. None where
   * Kotlin throws (no digit at all, or a non-digit after the first digit).
   */
  function StringMidiOctave(s: string): Option<int>
  {
    var i := IndexOfFirst(s, IsDigit);
    if i < 0 then None else ParseDigits(s[i..])
  }

  /** ASCII upper-casing (the source's locale-dependent uppercase, restricted to ASCII). */
  function ToUpper(c: char): char
  {
    if 'a' <= c <= 'z' then (c as int - 32) as char else c
  }

  function Upper(s: string): (r: string)
    ensures |r| == |s|
    ensures forall k :: 0 <= k < |s| ==> r[k] == ToUpper(s[k])
  {
    if s == [] then [] else [ToUpper(s[0])] + Upper(s[1..])
  }

  /** Kotlin `List.indexOf`: the first position holding x, or -1. */
  function IndexOf(names: seq<string>, x: string): (i: int)
    ensures -1 <= i < |names|
    ensures i == -1 <==> x !in names
    ensures i >= 0 ==> names[i] == x && forall k :: 0 <= k < i ==> names[k] != x
  {
    if names == [] then -1
    else if names[0] == x then 0
    else
      var j := IndexOf(names[1..], x);
      assert x in names[1..] ==> x in names;
      if j == -1 then -1 else j + 1
  }

  /**
   * `String.midiPitchClass()`: a name containing 'b' is looked up as a flat,
   * from its first letter upper-cased; anything else as an upper-cased sharp name.
   * An unknown name gives -1.
   */
  function StringMidiPitchClass(s: string): int
  {
    if 'b' in s then IndexOf(NamesFlat, [ToUpper(s[0]), 'b'])
    else IndexOf(NamesSharp, Upper(s))
  }

  /**
   * `String.midiPitch()`: the name before the first digit gives the pitch class,
   * the digits from there on give the octave. None where Kotlin throws.
   */
  function StringMidiPitch(s: string): Option<int>
  {
    var i := IndexOfFirst(s, IsDigit);
    if i < 0 then None
    else
      var pitchClass := StringMidiPitchClass(s[..i]);
      match StringMidiOctave(s)
      case None => None
      case Some(octave) => Some((octave + 1) * 12 + pitchClass)
  }

  /** Parsing the decimal representation of n gives back n. */
  lemma {:induction false} DigitsValueOfNatToString(n: nat)
    ensures DigitsValue(NatToString(n)) == n
  {
    var s := NatToString(n);
    if n >= 10 {
      assert s[..|s| - 1] == NatToString(n / 10);
      DigitsValueOfNatToString(n / 10);
    }
  }

  /** The first position satisfying f in a + b is |a| when a has none and b starts with one. */
  lemma {:induction false} IndexOfFirstAfter(a: string, b: string, f: char -> bool)
    requires forall k :: 0 <= k < |a| ==> !f(a[k])
    requires |b| > 0 && f(b[0])
    ensures IndexOfFirst(a + b, f) == |a|
  {
    if a != [] {
      assert (a + b)[1..] == a[1..] + b;
      IndexOfFirstAfter(a[1..], b, f);
    }
  }

  /** In a list of distinct names, each name's first position is its own index. */
  lemma IndexOfDistinct(names: seq<string>, k: nat)
    requires k < |names|
    requires forall i, j :: 0 <= i < j < |names| ==> names[i] != names[j]
    ensures IndexOf(names, names[k]) == k
  {
  }

  /** The facts about the sharp names that the round trip relies on. */
  lemma SharpNamesFacts()
    ensures forall i, j :: 0 <= i < j < |NamesSharp| ==> NamesSharp[i] != NamesSharp[j]
    ensures forall i :: 0 <= i < |NamesSharp| ==> Upper(NamesSharp[i]) == NamesSharp[i]
    ensures forall i :: 0 <= i < |NamesSharp| ==> 'b' !in NamesSharp[i] && '-' !in NamesSharp[i]
    ensures forall i, k :: 0 <= i < |NamesSharp| && 0 <= k < |NamesSharp[i]| ==> !IsDigit(NamesSharp[i][k])
  {
  }

  /** Parsing a digit-free name followed by the decimal octave n gives the pitch p it names. */
  lemma ParseNameThenOctave(a: string, n: nat, p: int)
    requires forall k :: 0 <= k < |a| ==> !IsDigit(a[k])
    requires p == (n + 1) * 12 + StringMidiPitchClass(a)
    ensures StringMidiPitch(a + NatToString(n)) == Some(p)
  {
    var b := NatToString(n);
    var name := a + b;
    IndexOfFirstAfter(a, b, IsDigit);
    assert name[..|a|] == a;
    assert name[|a|..] == b;
    DigitsValueOfNatToString(n);
    assert ParseDigits(b) == Some(n);
  }

  /** The sharp name of pitch class pc reads back as pc. */
  lemma SharpNameClass(pc: int)
    requires 0 <= pc < 12
    ensures forall k :: 0 <= k < |NamesSharp[pc]| ==> !IsDigit(NamesSharp[pc][k])
    ensures StringMidiPitchClass(NamesSharp[pc]) == pc
  {
    SharpNamesFacts();
    IndexOfDistinct(NamesSharp, pc);
  }

  /** A sharp name followed by a non-negative octave parses to the pitch p it names. */
  lemma SharpNameThenOctave(pc: int, oct: nat, p: int)
    requires 0 <= pc < 12
    requires p == (oct + 1) * 12 + pc
    ensures StringMidiPitch(NamesSharp[pc] + NatToString(oct)) == Some(p)
  {
    SharpNameClass(pc);
    ParseNameThenOctave(NamesSharp[pc], oct, p);
  }

  /** From octave 0 up, the printed name is the sharp name followed by the octave's digits. */
  lemma PrintedName(p: int)
    requires p >= 12
    ensures 0 <= MidiPitchClass(p) < 12 && MidiOctave(p) >= 0
    ensures p == (MidiOctave(p) + 1) * 12 + MidiPitchClass(p)
    ensures MidiPitchNameAndOctave(p) == NamesSharp[MidiPitchClass(p)] + NatToString(MidiOctave(p))
  {
    MidiOctaveAndClass(p);
  }

  /**
   * Printing a pitch name and parsing it back is the identity for every pitch
   * from 12 up (octave 0 and above).
   */
  lemma MidiNameRoundTrip(p: int)
    requires p >= 12
    ensures 0 <= MidiPitchClass(p)
    ensures StringMidiPitch(MidiPitchNameAndOctave(p)) == Some(p)
  {
    PrintedName(p);
    SharpNameThenOctave(MidiPitchClass(p), MidiOctave(p), p);
  }

  /**
   * As written, the round trip fails below 12: every pitch p of octave -1
   * prints as its name followed by "-1"; the text before the first digit
   * then ends in '-', which is no note name (class -1), and the octave is
   * read as +1, so every such name parses as 23. Pitch 0 prints as "C-1".
   */
  lemma MidiNameRoundTripFailsBelowTwelve(p: int)
    requires 0 <= p < 12
    ensures 0 <= MidiPitchClass(p)
    ensures p == 0 ==> MidiPitchNameAndOctave(p) == "C-1"
    ensures StringMidiPitch(MidiPitchNameAndOctave(p)) == Some(23)
  {
    var name := NamesSharp[p] + "-";
    LowPitchName(p);
    NameWithMinusHasNoClass(name);
    ParseNameThenOctave(name, 1, 23);
  }

  /** Below 12 the printed name is the sharp name, a minus sign and the digit 1. */
  lemma LowPitchName(p: int)
    requires 0 <= p < 12
    ensures 0 <= MidiPitchClass(p) == p && MidiOctave(p) == -1
    ensures MidiPitchNameAndOctave(p) == NamesSharp[p] + "-" + NatToString(1)
    ensures p == 0 ==> MidiPitchNameAndOctave(p) == "C-1"
  {
    assert NatToString(1) == "1";
    assert IntToString(-1) == "-" + NatToString(1);
  }

  /** A sharp name followed by a minus sign has no digit and is no note name. */
  lemma NameWithMinusHasNoClass(name: string)
    requires exists p :: 0 <= p < 12 && name == NamesSharp[p] + "-"
    ensures forall k :: 0 <= k < |name| ==> !IsDigit(name[k])
    ensures StringMidiPitchClass(name) == -1
  {
    var p :| 0 <= p < 12 && name == NamesSharp[p] + "-";
    SharpNamesFacts();
    assert name[|name| - 1] == '-';
    assert 'b' !in name;
    assert Upper(name) == name;
    assert name !in NamesSharp;
  }

  /** Where the corrected parse starts the octave: a digit or a minus sign. */
  predicate IsOctaveStart(c: char) {
    IsDigit(c) || c == '-'
  }

  /** Kotlin `String.toInt()` on a string of digits with an optional leading minus sign. */
  function ParseSigned(s: string): (r: Option<int>)
    ensures r.Some? && |s| > 0 && s[0] == '-' ==> r.value <= 0
  {
    if |s| > 0 && s[0] == '-' then
      match ParseDigits(s[1..])
      case None => None
      case Some(v) => Some(-v)
    else ParseDigits(s)
  }

  /** The octave of a printed name, read from the first digit or minus sign on. */
  function StringMidiOctaveCorrected(s: string): Option<int>
  {
    var i := IndexOfFirst(s, IsOctaveStart);
    if i < 0 then None else ParseSigned(s[i..])
  }

  /**
   * `String.midiPitch()` as evidently intended: the name ends where the
   * octave starts, and the octave may be negative.
   */
  function StringMidiPitchCorrected(s: string): Option<int>
  {
    var i := IndexOfFirst(s, IsOctaveStart);
    if i < 0 then None
    else
      var pitchClass := StringMidiPitchClass(s[..i]);
      match StringMidiOctaveCorrected(s)
      case None => None
      case Some(octave) => Some((octave + 1) * 12 + pitchClass)
  }

  /** Parsing Kotlin's decimal representation of i gives back i. */
  lemma ParseSignedOfIntToString(i: int)
    ensures |IntToString(i)| > 0 && IsOctaveStart(IntToString(i)[0])
    ensures ParseSigned(IntToString(i)) == Some(i)
  {
    if i < 0 {
      var s := IntToString(i);
      assert s[1..] == NatToString(-i);
      DigitsValueOfNatToString(-i);
    } else {
      DigitsValueOfNatToString(i);
    }
  }

  /** Parsing a name free of digits and minus signs followed by the octave i gives the pitch p it names. */
  lemma ParseNameThenSignedOctave(a: string, i: int, p: int)
    requires forall k :: 0 <= k < |a| ==> !IsOctaveStart(a[k])
    requires p == (i + 1) * 12 + StringMidiPitchClass(a)
    ensures StringMidiPitchCorrected(a + IntToString(i)) == Some(p)
  {
    ParseSignedOfIntToString(i);
    ParseNameThenOctaveText(a, IntToString(i), i);
  }

  /** The same for any octave text b that starts the octave and reads as i. */
  lemma ParseNameThenOctaveText(a: string, b: string, i: int)
    requires forall k :: 0 <= k < |a| ==> !IsOctaveStart(a[k])
    requires |b| > 0 && IsOctaveStart(b[0]) && ParseSigned(b) == Some(i)
    ensures StringMidiPitchCorrected(a + b) == Some((i + 1) * 12 + StringMidiPitchClass(a))
  {
    var s := a + b;
    IndexOfFirstAfter(a, b, IsOctaveStart);
    assert s[|a|..] == b;
    assert s[..|a|] == a;
  }

  /** The octave read after a name free of digits and minus signs is the printed octave. */
  lemma SignedOctaveAfterName(a: string, i: int)
    requires forall k :: 0 <= k < |a| ==> !IsOctaveStart(a[k])
    ensures IndexOfFirst(a + IntToString(i), IsOctaveStart) == |a|
    ensures StringMidiOctaveCorrected(a + IntToString(i)) == Some(i)
  {
    var b := IntToString(i);
    ParseSignedOfIntToString(i);
    IndexOfFirstAfter(a, b, IsOctaveStart);
    assert (a + b)[|a|..] == b;
  }

  /**
   * With the corrected parse, printing a pitch name and parsing it back is the
   * identity for every pitch that has a name, negative octaves included.
   */
  lemma MidiNameRoundTripCorrected(p: int)
    requires 0 <= MidiPitchClass(p)
    ensures StringMidiPitchCorrected(MidiPitchNameAndOctave(p)) == Some(p)
  {
    var pc, oct := MidiPitchClass(p), MidiOctave(p);
    MidiOctaveAndClass(p);
    SharpNamesFacts();
    SharpNameClass(pc);
    ParseNameThenSignedOctave(NamesSharp[pc], oct, p);
  }

  /** The first position satisfying f equals the first satisfying g when f and g agree on s. */
  lemma {:induction false} IndexOfFirstSame(s: string, f: char -> bool, g: char -> bool)
    requires forall k :: 0 <= k < |s| ==> f(s[k]) == g(s[k])
    ensures IndexOfFirst(s, f) == IndexOfFirst(s, g)
  {
    if s != [] {
      IndexOfFirstSame(s[1..], f, g);
    }
  }

  /** On names without a minus sign, the corrected parse agrees with the source's. */
  lemma CorrectedAgreesWithoutMinus(s: string)
    requires '-' !in s
    ensures StringMidiPitchCorrected(s) == StringMidiPitch(s)
  {
    IndexOfFirstSame(s, IsOctaveStart, IsDigit);
    var i := IndexOfFirst(s, IsDigit);
    if i >= 0 {
      assert s[i..][0] == s[i];
    }
  }

  /** The examples of the source's tests: "C4" is 60 and 60 is "C4". */
  lemma MiddleC()
    ensures MidiPitchNameAndOctave(60) == "C4"
    ensures MidiPitchNameAndOctave(61) == "C#4"
    ensures StringMidiPitch("C4") == Some(60)
  {
    assert NatToString(4) == "4";
    assert IndexOfFirst("C4", IsDigit) == 1;
    assert Upper("C") == "C";
  }

  // ---------------------------------------------------------------------------
  // Pitch range tests
  // ---------------------------------------------------------------------------

  /** Kotlin `maxOrNull()!!`: the largest element (the `!!` fails on an empty list). */
  function MaxOf(s: seq<int>): (r: int)
    requires |s| > 0
    ensures forall k :: 0 <= k < |s| ==> s[k] <= r
    ensures exists k :: 0 <= k < |s| && s[k] == r
  {
    if |s| == 1 then s[0]
    else
      var m := MaxOf(s[1..]);
      assert forall k :: 1 <= k < |s| ==> s[k] == s[1..][k - 1];
      if s[0] >= m then s[0] else m
  }

  /** Kotlin `minOf` / `minOrNull()!!`: the smallest element of a non-empty list. */
  function MinOf(s: seq<int>): (r: int)
    requires |s| > 0
    ensures forall k :: 0 <= k < |s| ==> r <= s[k]
    ensures exists k :: 0 <= k < |s| && s[k] == r
  {
    if |s| == 1 then s[0]
    else
      var m := MinOf(s[1..]);
      assert forall k :: 1 <= k < |s| ==> s[k] == s[1..][k - 1];
      if s[0] <= m then s[0] else m
  }

  /** `belowHighMidi()`: the largest pitch is at most PitchHigh. */
  predicate BelowHighMidi(s: seq<int>)
    requires |s| > 0
  {
    MaxOf(s) <= PitchHigh
  }

  /** `aboveLowMidi()` as written: it tests the LARGEST pitch against PitchLow. */
  predicate AboveLowMidi(s: seq<int>)
    requires |s| > 0
  {
    MaxOf(s) >= PitchLow
  }

  /** `validMidiPitches()` as written. */
  predicate ValidMidiPitches(s: seq<int>)
    requires |s| > 0
  {
    BelowHighMidi(s) && AboveLowMidi(s)
  }

  /** What the range test as written accepts: all pitches at most 128 and SOME pitch at least 21. */
  lemma ValidMidiPitchesMeaning(s: seq<int>)
    requires |s| > 0
    ensures ValidMidiPitches(s) <==>
      (forall k :: 0 <= k < |s| ==> s[k] <= PitchHigh) && exists k :: 0 <= k < |s| && s[k] >= PitchLow
  {
  }

  /** A list holding pitch 0, below the MIDI range, passes the range test as written. */
  lemma ValidMidiPitchesAcceptsLowPitch()
    ensures ValidMidiPitches([0, 60])
    ensures !(PitchLow <= 0)
  {
    assert MaxOf([0, 60]) == 60;
  }

  /** The evidently intended range test: the smallest pitch is tested against PitchLow. */
  predicate ValidMidiPitchesCorrected(s: seq<int>)
    requires |s| > 0
  {
    BelowHighMidi(s) && MinOf(s) >= PitchLow
  }

  /** The corrected range test accepts exactly the lists whose every pitch is in [21, 128]. */
  lemma ValidMidiPitchesCorrectedMeaning(s: seq<int>)
    requires |s| > 0
    ensures ValidMidiPitchesCorrected(s) <==> forall k :: 0 <= k < |s| ==> PitchLow <= s[k] <= PitchHigh
  {
  }
}
