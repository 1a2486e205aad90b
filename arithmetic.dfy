/** Rod-by-rod addition with carries and subtraction with borrows, working
    from the least significant (rightmost) rod to the most significant.

    In the loop invariants a pending carry or borrow is counted as one more
    rod standing to the left of the rods already handled, which is where
    the abacus user would push it. */
module Arithmetic {
  import opened Rods
  import opened Soroban

  /** The arithmetic of one column of addition. `p` is the weight of the
      column, `vw` the reading of the rods written to its right, and `va`,
      `vb` the readings of the operands' rods to its right. Writing digit
      `d` and carrying `cout` keeps the carried reading equal to the sum. */
  lemma CarryArithmetic(cin: int, cout: int, d: int, p: int, vw: int,
                        da: int, va: int, db: int, vb: int)
    requires cin * p + vw == va + vb
    requires da + db + cin == 10 * cout + d
    ensures cout * (10 * p) + (d * p + vw) == (da * p + va) + (db * p + vb)
  {
    calc {
      cout * (10 * p) + (d * p + vw);
      (10 * cout + d) * p + vw;
      (da + db + cin) * p + vw;
      (da * p + va) + (db * p + vb);
    }
  }

  /** The arithmetic of one column of subtraction, in the same terms as
      CarryArithmetic: the borrowed reading of the minuend stays equal to
      the rods written plus the subtrahend. */
  lemma BorrowArithmetic(bin: int, bout: int, d: int, p: int, vw: int,
                         da: int, va: int, db: int, vb: int)
    requires vw + vb == bin * p + va
    requires d == da - db - bin + 10 * bout
    ensures (d * p + vw) + (db * p + vb) == bout * (10 * p) + (da * p + va)
  {
    calc {
      (d * p + vw) + (db * p + vb);
      (d + db) * p + (vw + vb);
      (da - bin + 10 * bout) * p + (bin * p + va);
      bout * (10 * p) + (da * p + va);
    }
  }

  /** A column total of at most 19 splits into a carry of 0 or 1 and a
      digit. */
  lemma TensAndUnits(s: int)
    requires 0 <= s <= 19
    ensures s / 10 == 0 || s / 10 == 1
    ensures 0 <= s % 10 <= 9
    ensures s == 10 * (s / 10) + s % 10
  {
  }

  /** A reading `t == d * p + v` with `d` a carry or borrow of 0 or 1. */
  lemma UnitMultiple(d: int, p: int, v: int, t: int)
    requires d == 0 || d == 1
    requires t == d * p + v
    ensures v == t || v == t - p
  {
  }

  /** Splitting off the leftmost rod of the suffix that starts at `i`. */
  lemma {:induction false} ValueOfSuffix(rods: seq<RodState>, i: nat)
    requires i < |rods|
    ensures Value(rods[i..]) == Digit(rods[i]) * Pow10(|rods| - i - 1) + Value(rods[i + 1..])
  {
    assert rods[i..] == [rods[i]] + rods[i + 1..];
    ValueCons(rods[i], rods[i + 1..]);
  }

  /** A single rod reads as its digit. */
  lemma ValueOfOne(x: RodState)
    ensures Value([x]) == Digit(x)
  {
    assert [x][..0] == [];
  }

  /** Adding column `i`: if the rods written so far, with the incoming
      carry as a rod to their left, read as the sum of the operands' rods
      right of `i`, then after writing the column's digit and carrying its
      tens the same holds one column further left. */
  lemma {:induction false} AddColumn(written: seq<RodState>, a: seq<RodState>, b: seq<RodState>, i: nat,
                  cin: int, cout: int, d: int)
    requires |a| == |b| && i < |a| && |written| == |a| - i - 1
    requires cin == 0 || cin == 1
    requires cout == 0 || cout == 1
    requires 0 <= d <= 9
    requires Digit(a[i]) + Digit(b[i]) + cin == 10 * cout + d
    requires Value([CanonicalRod(cin)] + written) == Value(a[i + 1..]) + Value(b[i + 1..])
    ensures Value([CanonicalRod(cout)] + ([CanonicalRod(d)] + written))
            == Value(a[i..]) + Value(b[i..])
  {
    var x, y, z := CanonicalRod(cin), CanonicalRod(d), CanonicalRod(cout);
    assert Pow10(|[y] + written|) == 10 * Pow10(|written|);
    ValueCons(x, written);
    ValueCons(y, written);
    ValueCons(z, [y] + written);
    ValueOfSuffix(a, i);
    ValueOfSuffix(b, i);
    assert Pow10(|a| - i - 1) == Pow10(|written|) && Pow10(|b| - i - 1) == Pow10(|written|);
    CarryArithmetic(Digit(x), Digit(z), Digit(y), Pow10(|written|), Value(written),
                    Digit(a[i]), Value(a[i + 1..]), Digit(b[i]), Value(b[i + 1..]));
  }

  /** Subtracting column `i`: if the rods written so far plus the
      subtrahend's rods right of `i` read as the minuend's rods right of
      `i` with the outstanding borrow as a rod to their left, then after
      writing the column's digit the same holds one column further left. */
  lemma {:induction false} SubColumn(written: seq<RodState>, a: seq<RodState>, b: seq<RodState>, i: nat,
                  bin: int, bout: int, d: int)
    requires |a| == |b| && i < |a| && |written| == |a| - i - 1
    requires bin == 0 || bin == 1
    requires bout == 0 || bout == 1
    requires 0 <= d <= 9
    requires d == Digit(a[i]) - Digit(b[i]) - bin + 10 * bout
    requires Value(written) + Value(b[i + 1..]) == Value([CanonicalRod(bin)] + a[i + 1..])
    ensures Value([CanonicalRod(d)] + written) + Value(b[i..])
            == Value([CanonicalRod(bout)] + a[i..])
  {
    var x, y, z := CanonicalRod(bin), CanonicalRod(bout), CanonicalRod(d);
    assert |a[i + 1..]| == |written| && |a[i..]| == |written| + 1;
    assert Pow10(|a[i..]|) == 10 * Pow10(|a[i + 1..]|);
    ValueCons(x, a[i + 1..]);
    ValueCons(y, a[i..]);
    ValueCons(z, written);
    ValueOfSuffix(a, i);
    ValueOfSuffix(b, i);
    assert Pow10(|a| - i - 1) == Pow10(|written|) && Pow10(|b| - i - 1) == Pow10(|written|);
    assert Pow10(|a[i + 1..]|) == Pow10(|written|);
    BorrowArithmetic(Digit(x), Digit(y), Digit(z), Pow10(|written|), Value(written),
                     Digit(a[i]), Value(a[i + 1..]), Digit(b[i]), Value(b[i + 1..]));
  }

  /** Dropping a carry or borrow of 10^m from a reading in [0, 10^m)
      leaves the residue modulo 10^m, as Dafny's Euclidean `%` computes it. */
  lemma DroppedIsResidue(v: int, x: int, m: int)
    requires 0 <= v < m
    requires v == x || v == x - m || v == x + m
    ensures v == x % m
  {
    if v == x - m {
      assert x == v + m;
    } else if v == x + m {
      assert x == v - m;
    }
  }

  /** The carry left over after the last column is a rod that does not
      exist: the rods written read as the sum, or as the sum less 10^width
      when that carry is 1. */
  lemma {:induction false} DropCarry(written: seq<RodState>, carry: int, total: int)
    requires carry == 0 || carry == 1
    requires Value([CanonicalRod(carry)] + written) == total
    ensures Value(written) == total || Value(written) == total - Pow10(|written|)
    ensures Value(written) == total % Pow10(|written|)
  {
    var x := CanonicalRod(carry);
    ValueCons(x, written);
    UnitMultiple(Digit(x), Pow10(|written|), Value(written), Value([x] + written));
    DroppedIsResidue(Value(written), total, Pow10(|written|));
  }

  /** The borrow left over after the last column is taken from a rod that
      does not exist: the rods written read as the difference, or as the
      difference plus 10^width when that borrow is 1. */
  lemma {:induction false} DropBorrow(written: seq<RodState>, a: seq<RodState>, vb: int, borrow: int)
    requires borrow == 0 || borrow == 1
    requires |a| == |written|
    requires Value(written) + vb == Value([CanonicalRod(borrow)] + a)
    ensures Value(written) == Value(a) - vb || Value(written) == Value(a) - vb + Pow10(|written|)
    ensures Value(written) == (Value(a) - vb) % Pow10(|written|)
  {
    var x := CanonicalRod(borrow);
    ValueCons(x, a);
    UnitMultiple(Digit(x), Pow10(|a|), Value(a), Value([x] + a));
    DroppedIsResidue(Value(written), Value(a) - vb, Pow10(|written|));
  }

  /** `add_abacus(a, b)`: for each rod from the right, the digit written is
      `(da + db + carry) mod 10` in its canonical bead state and the carry
      passed left is `(da + db + carry) div 10`. A carry out of the leftmost
      rod is dropped: the result reads as the sum, or as the sum less
      10^width, which is the sum modulo 10^width (DroppedIsResidue). */
  method AddAbacus(a: Abacus, b: Abacus) returns (sum: Abacus)
    requires |a.rods| == |b.rods|
    ensures |sum.rods| == |a.rods|
    ensures Value(sum.rods) == Value(a.rods) + Value(b.rods)
            || Value(sum.rods) == Value(a.rods) + Value(b.rods) - Pow10(|a.rods|)
    ensures Value(a.rods) + Value(b.rods) < Pow10(|a.rods|) ==>
              Value(sum.rods) == Value(a.rods) + Value(b.rods)
    ensures Value(sum.rods) == (Value(a.rods) + Value(b.rods)) % Pow10(|a.rods|)
  {
    var n := |a.rods|;
    var written: seq<RodState> := [];
    var carry := 0;
    var i := n;
    ValueOfOne(CanonicalRod(0));
    while i > 0
      invariant 0 <= i <= n
      invariant |written| == n - i
      invariant carry == 0 || carry == 1
      invariant Value([CanonicalRod(carry)] + written)
                == Value(a.rods[i..]) + Value(b.rods[i..])
    {
      i := i - 1;
      var s := Digit(a.rods[i]) + Digit(b.rods[i]) + carry;
      TensAndUnits(s);
      AddColumn(written, a.rods, b.rods, i, carry, s / 10, s % 10);
      written := [CanonicalRod(s % 10)] + written;
      carry := s / 10;
    }
    assert a.rods[0..] == a.rods && b.rods[0..] == b.rods;
    DropCarry(written, carry, Value(a.rods) + Value(b.rods));
    sum := Abacus(written);
  }

  /** `sub_abacus(a, b)`: for each rod from the right, `da - db - borrow`
      is written, raised by 10 with a borrow of 1 passed left when it is
      negative. A borrow out of the leftmost rod is dropped: the result
      reads as the difference, or as the difference plus 10^width, which is
      the difference modulo 10^width (DroppedIsResidue), and exactly `a - b`
      when `a >= b`. */
  method SubAbacus(a: Abacus, b: Abacus) returns (diff: Abacus)
    requires |a.rods| == |b.rods|
    ensures |diff.rods| == |a.rods|
    ensures Value(diff.rods) == Value(a.rods) - Value(b.rods)
            || Value(diff.rods) == Value(a.rods) - Value(b.rods) + Pow10(|a.rods|)
    ensures Value(a.rods) >= Value(b.rods) ==>
              Value(diff.rods) == Value(a.rods) - Value(b.rods)
    ensures Value(diff.rods) == (Value(a.rods) - Value(b.rods)) % Pow10(|a.rods|)
  {
    var n := |a.rods|;
    var written: seq<RodState> := [];
    var borrow := 0;
    var i := n;
    ValueOfOne(CanonicalRod(0));
    while i > 0
      invariant 0 <= i <= n
      invariant |written| == n - i
      invariant borrow == 0 || borrow == 1
      invariant Value(written) + Value(b.rods[i..])
                == Value([CanonicalRod(borrow)] + a.rods[i..])
    {
      i := i - 1;
      var d := Digit(a.rods[i]) - Digit(b.rods[i]) - borrow;
      var borrowIn := borrow;
      if d < 0 {
        d := d + 10;
        borrow := 1;
      } else {
        borrow := 0;
      }
      SubColumn(written, a.rods, b.rods, i, borrowIn, borrow, d);
      written := [CanonicalRod(d)] + written;
    }
    assert a.rods[0..] == a.rods && b.rods[0..] == b.rods;
    DropBorrow(written, a.rods, Value(b.rods), borrow);
    diff := Abacus(written);
  }
}
