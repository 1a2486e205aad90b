/** A soroban: a fixed-width row of rods, most significant rod first, read
    as a big-endian base-10 number. */
module Soroban {
  import opened Rods

  /** The width of `Abacus()` when no size is given. */
  const DefaultSize: int := 5

  /** An abacus as the sequence of its rods' bead states, index 0 being the
      most significant rod. */
  datatype Abacus = Abacus(rods: seq<RodState>)

  function Pow10(n: nat): (p: nat)
    ensures p >= 1
  {
    if n == 0 then 1 else 10 * Pow10(n - 1)
  }

  /** `int(abacus)`: the rods' digits read left to right as a base-10
      number, accumulated from the least significant rod. */
  function Value(rods: seq<RodState>): (v: nat)
    ensures v < Pow10(|rods|)
  {
    if rods == [] then 0
    else Value(rods[..|rods| - 1]) * 10 + Digit(rods[|rods| - 1])
  }

  /** The positional reading `sum of digit(i) * 10^(n-1-i)`, as an
      independent definition of the same number. */
  function PositionalSum(rods: seq<RodState>): nat
  {
    if rods == [] then 0
    else Digit(rods[0]) * Pow10(|rods| - 1) + PositionalSum(rods[1..])
  }

  /** Putting rods side by side shifts the left group by the width of the
      right one. */
  lemma {:induction false} ValueAppend(s: seq<RodState>, t: seq<RodState>)
    ensures Value(s + t) == Value(s) * Pow10(|t|) + Value(t)
  {
    if t == [] {
      assert s + t == s;
    } else {
      var t' := t[..|t| - 1];
      assert (s + t)[..|s + t| - 1] == s + t';
      assert (s + t)[|s + t| - 1] == t[|t| - 1];
      ValueAppend(s, t');
      ShiftStep(Value(s), Pow10(|t'|), Value(t'), Digit(t[|t| - 1]));
    }
  }

  lemma ShiftStep(a: int, p: int, b: int, d: int)
    ensures (a * p + b) * 10 + d == a * (10 * p) + (b * 10 + d)
  {
  }

  /** The most significant rod contributes its digit times 10^(n-1). */
  lemma {:induction false} ValueCons(x: RodState, t: seq<RodState>)
    ensures Value([x] + t) == Digit(x) * Pow10(|t|) + Value(t)
  {
    assert [x][..0] == [];
    assert Value([x]) == Digit(x);
    ValueAppend([x], t);
  }

  /** The accumulating reading and the positional reading agree. */
  lemma {:induction false} ValueIsPositionalSum(rods: seq<RodState>)
    ensures Value(rods) == PositionalSum(rods)
  {
    if rods != [] {
      ValueIsPositionalSum(rods[1..]);
      ValueCons(rods[0], rods[1..]);
      assert [rods[0]] + rods[1..] == rods;
    }
  }

  /** The `n` rods that show `v`, most significant first: the inverse of
      Value on numbers below 10^n. */
  function Digits(v: nat, n: nat): (rods: seq<RodState>)
    requires v < Pow10(n)
    ensures |rods| == n
  {
    if n == 0 then []
    else
      TensBound(v, Pow10(n - 1));
      Digits(v / 10, n - 1) + [CanonicalRod(v % 10)]
  }

  lemma TensBound(v: nat, p: nat)
    requires v < 10 * p
    ensures v / 10 < p
    ensures v == v / 10 * 10 + v % 10 && 0 <= v % 10 <= 9
  {
  }

  /** Writing a number on rods and reading it back gives the number. */
  lemma {:induction false} ValueOfDigits(v: nat, n: nat)
    requires v < Pow10(n)
    ensures Value(Digits(v, n)) == v
  {
    if n > 0 {
      TensBound(v, Pow10(n - 1));
      var rods := Digits(v, n);
      ValueOfDigits(v / 10, n - 1);
      assert rods[..n - 1] == Digits(v / 10, n - 1);
      assert Digit(rods[n - 1]) == v % 10;
    }
  }

  /** Reading rods as a number and writing it back on as many rods gives
      the same rods: the reading loses nothing. */
  lemma {:induction false} DigitsOfValue(rods: seq<RodState>)
    ensures Digits(Value(rods), |rods|) == rods
  {
    ValueOfDigits(Value(rods), |rods|);
    ValueInjective(Digits(Value(rods), |rods|), rods);
  }

  /** `k` rods in the default (digit 0) state. */
  function Zeros(k: nat): (z: seq<RodState>)
  {
    seq(k, _ => ZeroRod)
  }

  lemma {:induction false} ZerosValue(k: nat)
    ensures Value(Zeros(k)) == 0
  {
    if k > 0 {
      ZerosValue(k - 1);
      assert Zeros(k)[..k - 1] == Zeros(k - 1);
    }
  }

  /** Leading default rods do not change the number an abacus reads as. */
  lemma {:induction false} LeadingZeros(k: nat, s: seq<RodState>)
    ensures Value(Zeros(k) + s) == Value(s)
  {
    ValueAppend(Zeros(k), s);
    ZerosValue(k);
  }

  /** Rods of one width that read as the same number are the same rods:
      the digit reading is a normal form. */
  lemma {:induction false} ValueInjective(s: seq<RodState>, t: seq<RodState>)
    requires |s| == |t|
    requires Value(s) == Value(t)
    ensures s == t
  {
    if s != [] {
      var n := |s| - 1;
      assert Digit(s[n]) == Digit(t[n]);
      DigitInjective(s[n], t[n]);
      ValueInjective(s[..n], t[..n]);
      assert s == s[..n] + [s[n]];
      assert t == t[..n] + [t[n]];
    }
  }

  /** The effective width `max(size, count)`. */
  function Width(count: nat, size: int): (w: nat)
    ensures w >= count && w >= size
    ensures w == count || w == size
  {
    if size > count then size else count
  }

  /** The abacus `Abacus(initial, size)` builds: default rods, then the
      supplied rods pushed to the right. */
  function Pushed(initial: seq<RodState>, size: int): (ab: Abacus)
    ensures |ab.rods| == Width(|initial|, size)
    ensures ab.rods[|ab.rods| - |initial|..] == initial
    ensures forall i :: 0 <= i < |ab.rods| - |initial| ==> ab.rods[i] == ZeroRod
  {
    Abacus(Zeros(Width(|initial|, size) - |initial|) + initial)
  }

  /** The pushed-right construction reads as the number the supplied rods
      read as. */
  lemma {:induction false} PushedValue(initial: seq<RodState>, size: int)
    ensures Value(Pushed(initial, size).rods) == Value(initial)
  {
    LeadingZeros(Width(|initial|, size) - |initial|, initial);
  }

  /** `Abacus(initial, size)`: allocates `max(size, len(initial))` default
      rods, then overwrites the trailing slots with the supplied rods,
      starting from the last one. */
  method NewAbacus(initial: seq<RodState>, size: int) returns (ab: Abacus)
    ensures |ab.rods| == Width(|initial|, size)
    ensures ab.rods[|ab.rods| - |initial|..] == initial
    ensures forall i :: 0 <= i < |ab.rods| - |initial| ==> ab.rods[i] == ZeroRod
    ensures ab == Pushed(initial, size)
  {
    var width := Width(|initial|, size);
    var slots := new RodState[width](_ => ZeroRod);
    var i := 0;
    while i < |initial|
      invariant 0 <= i <= |initial|
      invariant forall k :: 0 <= k < width - i ==> slots[k] == ZeroRod
      invariant forall k :: width - i <= k < width ==>
                  slots[k] == initial[|initial| - width + k]
    {
      slots[width - 1 - i] := initial[|initial| - 1 - i];
      i := i + 1;
    }
    ab := Abacus(slots[..]);
    assert ab.rods == Zeros(width - |initial|) + initial;
  }
}
