/** The worked examples from the documentation of the rods, the abacus and
    the two arithmetic operations, stated over the model. */
module Examples {
  import opened Rods
  import opened Soroban
  import opened Arithmetic
  import opened Rendering

  /** Reads three rods left to right as a three-digit number. */
  lemma ValueOfThree(x: RodState, y: RodState, z: RodState)
    ensures Value([x, y, z]) == 100 * Digit(x) + 10 * Digit(y) + Digit(z)
  {
    assert [x][..0] == [];
    assert Value([x]) == Digit(x);
    assert [x, y][..1] == [x];
    assert Value([x, y]) == 10 * Digit(x) + Digit(y);
    assert [x, y, z][..2] == [x, y];
  }

  /** `Rod(u, l)` accepts the bead counts of the examples and rejects the
      out-of-range ones with the error of the first bad count. */
  lemma RodExamples()
    ensures MakeRod(0, 1) == Ok(Beads(0, 1))
    ensures MakeRod(1, 3) == Ok(Beads(1, 3))
    ensures MakeRod(2, 1) == Err(UpperBeadsOutOfRange)
    ensures MakeRod(-1, 1) == Err(UpperBeadsOutOfRange)
    ensures MakeRod(0, 5) == Err(LowerBeadsOutOfRange)
    ensures MakeRod(0, -1) == Err(LowerBeadsOutOfRange)
    ensures Digit(ZeroRod) == 0 && Digit(Beads(1, 1)) == 1
    ensures Digit(Beads(0, 3)) == 8 && Digit(Beads(1, 4)) == 4
  {
  }

  /** `int(Abacus([Rod(1, 1)]))` is 1 and `int(Abacus([Rod(1, 1), Rod(1, 1)]))`
      is 11. */
  lemma OnesValueExamples()
    ensures Value(Pushed([Beads(1, 1)], DefaultSize).rods) == 1
    ensures Value(Pushed([Beads(1, 1), Beads(1, 1)], DefaultSize).rods) == 11
  {
    PushedValue([Beads(1, 1)], DefaultSize);
    ValueOfOne(Beads(1, 1));
    PushedValue([Beads(1, 1), Beads(1, 1)], DefaultSize);
    ValueOfThree(ZeroRod, Beads(1, 1), Beads(1, 1));
    LeadingZeros(1, [Beads(1, 1), Beads(1, 1)]);
    assert Zeros(1) + [Beads(1, 1), Beads(1, 1)] == [ZeroRod, Beads(1, 1), Beads(1, 1)];
  }

  /** `int(Abacus([Rod(0, 1), Rod(0, 3), Rod(0, 2)]))` is 687,
      `int(Abacus([Rod(0, 1), Rod(1, 1)]))` is 61, and the default abacus
      reads as 0. */
  lemma AbacusValueExamples()
    ensures Value(Pushed([Beads(0, 1), Beads(0, 3), Beads(0, 2)], DefaultSize).rods) == 687
    ensures Value(Pushed([Beads(0, 1), Beads(1, 1)], DefaultSize).rods) == 61
    ensures Value(Pushed([], DefaultSize).rods) == 0
  {
    var zero := ZeroRod;
    PushedValue([Beads(0, 1), Beads(0, 3), Beads(0, 2)], DefaultSize);
    ValueOfThree(Beads(0, 1), Beads(0, 3), Beads(0, 2));
    PushedValue([Beads(0, 1), Beads(1, 1)], DefaultSize);
    ValueOfThree(zero, Beads(0, 1), Beads(1, 1));
    LeadingZeros(1, [Beads(0, 1), Beads(1, 1)]);
    assert Zeros(1) + [Beads(0, 1), Beads(1, 1)] == [zero, Beads(0, 1), Beads(1, 1)];
    PushedValue([], DefaultSize);
    assert Value([]) == 0;
  }

  /** `Abacus()` is five default rods, and `Abacus([Rod(1, 1)])` ends with
      the supplied rod. */
  method ConstructionExamples() returns (empty: Abacus, one: Abacus)
    ensures empty.rods == [Beads(1, 0), Beads(1, 0), Beads(1, 0), Beads(1, 0), Beads(1, 0)]
    ensures |one.rods| == 5 && one.rods[|one.rods| - 1] == Beads(1, 1)
  {
    empty := NewAbacus([], DefaultSize);
    one := NewAbacus([Beads(1, 1)], DefaultSize);
    assert one.rods[4..] == [Beads(1, 1)];
  }

  /** The readings of the operands and results of the arithmetic
      examples. */
  lemma ArithmeticOperands()
    ensures Value(Pushed([Beads(0, 4), Beads(0, 4)], DefaultSize).rods) == 99
    ensures Value(Pushed([Beads(1, 1)], DefaultSize).rods) == 1
    ensures Value(Pushed([Beads(1, 1), ZeroRod, ZeroRod], DefaultSize).rods) == 100
  {
    PushedValue([Beads(0, 4), Beads(0, 4)], DefaultSize);
    LeadingZeros(1, [Beads(0, 4), Beads(0, 4)]);
    assert Zeros(1) + [Beads(0, 4), Beads(0, 4)] == [ZeroRod, Beads(0, 4), Beads(0, 4)];
    ValueOfThree(ZeroRod, Beads(0, 4), Beads(0, 4));
    PushedValue([Beads(1, 1)], DefaultSize);
    LeadingZeros(2, [Beads(1, 1)]);
    assert Zeros(2) + [Beads(1, 1)] == [ZeroRod, ZeroRod, Beads(1, 1)];
    ValueOfThree(ZeroRod, ZeroRod, Beads(1, 1));
    PushedValue([Beads(1, 1), ZeroRod, ZeroRod], DefaultSize);
    ValueOfThree(Beads(1, 1), ZeroRod, ZeroRod);
  }

  lemma Hundred()
    ensures Value([ZeroRod, ZeroRod, Beads(1, 1), ZeroRod, ZeroRod]) == 100
  {
    ValueAppend([ZeroRod, ZeroRod, Beads(1, 1)], [ZeroRod, ZeroRod]);
    assert [ZeroRod, ZeroRod, Beads(1, 1)] + [ZeroRod, ZeroRod]
           == [ZeroRod, ZeroRod, Beads(1, 1), ZeroRod, ZeroRod];
    ValueOfThree(ZeroRod, ZeroRod, Beads(1, 1));
    LeadingZeros(2, []);
    assert Zeros(2) + [] == [ZeroRod, ZeroRod];
    assert Pow10(2) == 100;
  }

  lemma NinetyNine()
    ensures Value([ZeroRod, ZeroRod, ZeroRod, Beads(0, 4), Beads(0, 4)]) == 99
  {
    LeadingZeros(2, [ZeroRod, Beads(0, 4), Beads(0, 4)]);
    assert Zeros(2) + [ZeroRod, Beads(0, 4), Beads(0, 4)]
           == [ZeroRod, ZeroRod, ZeroRod, Beads(0, 4), Beads(0, 4)];
    ValueOfThree(ZeroRod, Beads(0, 4), Beads(0, 4));
  }

  /** `add_abacus(Abacus([Rod(0, 4), Rod(0, 4)]), Abacus([Rod(1, 1)]))`,
      that is 99 + 1, gives the five rods of 100. */
  method AddExample() returns (sum: Abacus)
    ensures sum.rods == [ZeroRod, ZeroRod, Beads(1, 1), ZeroRod, ZeroRod]
  {
    var a := NewAbacus([Beads(0, 4), Beads(0, 4)], DefaultSize);
    var b := NewAbacus([Beads(1, 1)], DefaultSize);
    ArithmeticOperands();
    sum := AddAbacus(a, b);
    assert Pow10(5) == 100000;
    Hundred();
    ValueInjective(sum.rods, [ZeroRod, ZeroRod, Beads(1, 1), ZeroRod, ZeroRod]);
  }

  /** `sub_abacus(Abacus([Rod(1, 1), Rod(1, 0), Rod(1, 0)]), Abacus([Rod(1, 1)]))`,
      that is 100 - 1, gives the five rods of 99. */
  method SubExample() returns (diff: Abacus)
    ensures diff.rods == [ZeroRod, ZeroRod, ZeroRod, Beads(0, 4), Beads(0, 4)]
  {
    var a := NewAbacus([Beads(1, 1), ZeroRod, ZeroRod], DefaultSize);
    var b := NewAbacus([Beads(1, 1)], DefaultSize);
    ArithmeticOperands();
    diff := SubAbacus(a, b);
    NinetyNine();
    ValueInjective(diff.rods, [ZeroRod, ZeroRod, ZeroRod, Beads(0, 4), Beads(0, 4)]);
  }

  lemma Four()
    ensures Value([ZeroRod, ZeroRod, ZeroRod, ZeroRod, Beads(1, 4)]) == 4
  {
    LeadingZeros(4, [Beads(1, 4)]);
    ValueOfOne(Beads(1, 4));
    assert Zeros(4) + [Beads(1, 4)] == [ZeroRod, ZeroRod, ZeroRod, ZeroRod, Beads(1, 4)];
  }

  lemma Ten()
    ensures Value([ZeroRod, ZeroRod, ZeroRod, Beads(1, 1), ZeroRod]) == 10
  {
    LeadingZeros(2, [ZeroRod, Beads(1, 1), ZeroRod]);
    ValueOfThree(ZeroRod, Beads(1, 1), ZeroRod);
    assert Zeros(2) + [ZeroRod, Beads(1, 1), ZeroRod]
           == [ZeroRod, ZeroRod, ZeroRod, Beads(1, 1), ZeroRod];
  }

  /** 2 + 2 writes 4 on the last rod. */
  method AddTwoExample() returns (four: Abacus)
    ensures |four.rods| == 5 && Digit(four.rods[4]) == 4
  {
    var two := NewAbacus([Beads(1, 2)], DefaultSize);
    PushedValue([Beads(1, 2)], DefaultSize);
    ValueOfOne(Beads(1, 2));
    assert Value(two.rods) == 2 && |two.rods| == 5;
    assert Pow10(5) == 100000;
    four := AddAbacus(two, two);
    assert Value(four.rods) == 4;
    Four();
    ValueInjective(four.rods, [ZeroRod, ZeroRod, ZeroRod, ZeroRod, Beads(1, 4)]);
  }

  /** 5 + 5 carries 1 onto the second rod from the right. */
  method AddFiveExample() returns (ten: Abacus)
    ensures |ten.rods| == 5 && Digit(ten.rods[3]) == 1
  {
    var five := NewAbacus([Beads(0, 0)], DefaultSize);
    PushedValue([Beads(0, 0)], DefaultSize);
    ValueOfOne(Beads(0, 0));
    assert Value(five.rods) == 5 && |five.rods| == 5;
    assert Pow10(5) == 100000;
    ten := AddAbacus(five, five);
    assert Value(ten.rods) == 10;
    Ten();
    ValueInjective(ten.rods, [ZeroRod, ZeroRod, ZeroRod, Beads(1, 1), ZeroRod]);
  }

  /** 5 - 2 reads as 3. */
  method SubTwoExample() returns (three: Abacus)
    ensures Value(three.rods) == 3
  {
    var five := NewAbacus([Beads(0, 0)], DefaultSize);
    var two := NewAbacus([Beads(1, 2)], DefaultSize);
    PushedValue([Beads(0, 0)], DefaultSize);
    PushedValue([Beads(1, 2)], DefaultSize);
    ValueOfOne(Beads(0, 0));
    ValueOfOne(Beads(1, 2));
    three := SubAbacus(five, two);
  }

  /** 10 - 1 reads as 9. */
  method SubOneExample() returns (nine: Abacus)
    ensures Value(nine.rods) == 9
  {
    var ten := NewAbacus([Beads(1, 1), ZeroRod], DefaultSize);
    var one := NewAbacus([Beads(1, 1)], DefaultSize);
    PushedValue([Beads(1, 1), ZeroRod], DefaultSize);
    PushedValue([Beads(1, 1)], DefaultSize);
    ValueOfOne(Beads(1, 1));
    ValueOfThree(ZeroRod, Beads(1, 1), ZeroRod);
    LeadingZeros(1, [Beads(1, 1), ZeroRod]);
    assert Zeros(1) + [Beads(1, 1), ZeroRod] == [ZeroRod, Beads(1, 1), ZeroRod];
    nine := SubAbacus(ten, one);
  }

  lemma {:induction false} JoinedFive(s: seq<char>)
    requires |s| == 5
    ensures Joined(s) == [s[0], ' ', s[1], ' ', s[2], ' ', s[3], ' ', s[4]]
  {
    var line := Joined(s);
    JoinedSpaces(s);
    assert line[0] == s[0];
    assert line[2] == s[1] && line[1] == ' ';
    assert line[4] == s[2] && line[3] == ' ';
    assert line[6] == s[3] && line[5] == ' ';
    assert line[8] == s[4] && line[7] == ' ';
  }

  /** A bead row of a five-rod picture, cell by cell. */
  function FiveCells(rods: seq<RodState>, row: nat): (line: seq<char>)
    requires |rods| == 5 && row < LineCount && row != BeamRow
    ensures |line| == LineWidth(|rods|)
  {
    [Cell(rods[0], row), ' ', Cell(rods[1], row), ' ', Cell(rods[2], row), ' ',
     Cell(rods[3], row), ' ', Cell(rods[4], row)]
  }

  /** The picture of a five-rod abacus: the eight lines, the bead rows
      spelled out cell by cell. */
  lemma {:induction false} FiveRodPicture(rods: seq<RodState>)
    requires |rods| == 5
    ensures SplitLines(Render(Abacus(rods)))
            == [FiveCells(rods, 0), FiveCells(rods, 1), "---------", FiveCells(rods, 3),
                FiveCells(rods, 4), FiveCells(rods, 5), FiveCells(rods, 6), FiveCells(rods, 7)]
  {
    RenderLines(Abacus(rods));
    forall row | 0 <= row < LineCount && row != BeamRow
      ensures Lines(rods)[row] == FiveCells(rods, row)
    {
      BeadRow(rods, row);
      JoinedFive(RowSymbols(rods, row));
    }
    assert Beam(5) == "---------";
  }

  /** `print(Abacus())`: the gap among the lower beads of a digit-0 rod is
      in the first lower row. */
  lemma DefaultRenderExample()
    ensures SplitLines(Render(Pushed([], DefaultSize)))
            == ["O O O O O", "| | | | |", "---------", "| | | | |",
                "O O O O O", "O O O O O", "O O O O O", "O O O O O"]
  {
    var rods := [ZeroRod, ZeroRod, ZeroRod, ZeroRod, ZeroRod];
    assert Pushed([], DefaultSize).rods == rods;
    FiveRodPicture(rods);
  }

  /** `print(Abacus([Rod(1, 1)]))` shows these eight lines. */
  lemma OneRodRenderExample()
    ensures SplitLines(Render(Pushed([Beads(1, 1)], DefaultSize)))
            == ["O O O O O", "| | | | |", "---------", "| | | | O",
                "O O O O |", "O O O O O", "O O O O O", "O O O O O"]
  {
    var rods := [ZeroRod, ZeroRod, ZeroRod, ZeroRod, Beads(1, 1)];
    assert Pushed([Beads(1, 1)], DefaultSize).rods == rods;
    FiveRodPicture(rods);
  }

  /** `print(Abacus([Rod(0, 1), Rod(1, 3)]))` shows these eight lines. */
  lemma RenderExample()
    ensures SplitLines(Render(Pushed([Beads(0, 1), Beads(1, 3)], DefaultSize)))
            == ["O O O | O", "| | | O |", "---------", "| | | O O",
                "O O O | O", "O O O O O", "O O O O |", "O O O O O"]
  {
    var rods := [ZeroRod, ZeroRod, ZeroRod, Beads(0, 1), Beads(1, 3)];
    assert Pushed([Beads(0, 1), Beads(1, 3)], DefaultSize).rods == rods;
    FiveRodPicture(rods);
  }

  /** `print(Abacus([Rod(0, 1), Rod(1, 4)]))` shows these eight lines. */
  lemma FourRenderExample()
    ensures SplitLines(Render(Pushed([Beads(0, 1), Beads(1, 4)], DefaultSize)))
            == ["O O O | O", "| | | O |", "---------", "| | | O O",
                "O O O | O", "O O O O O", "O O O O O", "O O O O |"]
  {
    var rods := [ZeroRod, ZeroRod, ZeroRod, Beads(0, 1), Beads(1, 4)];
    assert Pushed([Beads(0, 1), Beads(1, 4)], DefaultSize).rods == rods;
    FiveRodPicture(rods);
  }
}
