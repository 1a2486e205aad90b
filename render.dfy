/** The ASCII picture `str(abacus)`: eight text lines joined by newlines.
    Row 0 shows the upper beads that are up, row 1 the upper beads that are
    down, row 2 is the beam, and rows 3 to 7 show the lower beads, the gap
    on each rod sitting in the row numbered by that rod's lower count.
    Columns are separated by single spaces. */
module Rendering {
  import opened Rods
  import opened Soroban

  /** The number of text lines in every picture. */
  const LineCount: nat := 8

  /** The row that holds the beam rather than beads. */
  const BeamRow: nat := 2

  /** The symbol rod `r` shows in a bead row: 'O' for a bead, '|' for the
      bare rod. */
  function Cell(r: RodState, row: nat): (c: char)
    requires row < LineCount && row != BeamRow
    ensures c == 'O' || c == '|'
    ensures row == 0 ==> (c == 'O' <==> r.upperBeadsUp == 1)
    ensures row == 1 ==> (c == 'O' <==> r.upperBeadsUp == 0)
    ensures row >= 3 ==> (c == '|' <==> row - 3 == r.lowerBeadsUp)
  {
    if row == 0 then (if r.upperBeadsUp == 1 then 'O' else '|')
    else if row == 1 then (if r.upperBeadsUp == 1 then '|' else 'O')
    else if row - 3 == r.lowerBeadsUp then '|' else 'O'
  }

  /** One bead row, one symbol per rod, left to right. */
  function RowSymbols(rods: seq<RodState>, row: nat): (symbols: seq<char>)
    requires row < LineCount && row != BeamRow
    ensures |symbols| == |rods|
    ensures forall j :: 0 <= j < |rods| ==> symbols[j] == Cell(rods[j], row)
  {
    seq(|rods|, j requires 0 <= j < |rods| => Cell(rods[j], row))
  }

  /** The width of a picture of `n` rods: `2n - 1` characters, none when
      there are no rods. */
  function LineWidth(n: nat): nat
  {
    if n == 0 then 0 else 2 * n - 1
  }

  /** `" ".join(symbols)`: the symbols at the even positions, each but the
      first preceded by a space (JoinedSpaces), and no other character
      (JoinedChars). */
  function Joined(symbols: seq<char>): (line: seq<char>)
    ensures |line| == LineWidth(|symbols|)
    ensures forall j :: 0 <= j < |symbols| ==> line[2 * j] == symbols[j]
  {
    if |symbols| <= 1 then symbols
    else [symbols[0], ' '] + Joined(symbols[1..])
  }

  /** Between each two symbols of a joined line stands one space. */
  lemma {:induction false} JoinedSpaces(symbols: seq<char>)
    ensures forall j :: 0 < j < |symbols| ==>
              Joined(symbols)[2 * j - 1] == ' ' && Joined(symbols)[2 * j] == symbols[j]
  {
    if |symbols| > 1 {
      var rest := Joined(symbols[1..]);
      JoinedSpaces(symbols[1..]);
      var line := Joined(symbols);
      assert line == [symbols[0], ' '] + rest;
      forall j | 0 < j < |symbols|
        ensures line[2 * j - 1] == ' ' && line[2 * j] == symbols[j]
      {
        if j > 1 {
          assert symbols[1..][j - 1] == symbols[j];
          assert line[2 * j - 1] == rest[2 * (j - 1) - 1];
        }
      }
    }
  }

  /** A joined line holds no character but the symbols and spaces. */
  lemma {:induction false} JoinedChars(symbols: seq<char>)
    ensures forall c :: c in Joined(symbols) ==> c == ' ' || c in symbols
  {
    if |symbols| > 1 {
      JoinedChars(symbols[1..]);
      var line := Joined(symbols);
      assert line == [symbols[0], ' '] + Joined(symbols[1..]);
      forall c | c in line
        ensures c == ' ' || c in symbols
      {
        if c in Joined(symbols[1..]) && c != ' ' {
          assert c in symbols[1..];
        }
      }
    }
  }

  /** `c * count`: `count` copies of `c`, and none when `count` is not
      positive. */
  function Repeat(c: char, count: int): (s: seq<char>)
    ensures |s| == if count <= 0 then 0 else count
    ensures forall k :: 0 <= k < |s| ==> s[k] == c
  {
    if count <= 0 then [] else [c] + Repeat(c, count - 1)
  }

  /** The beam: `2n - 1` dashes, which is no dash at all for an abacus
      without rods. */
  function Beam(n: nat): (beam: seq<char>)
    ensures |beam| == LineWidth(n)
    ensures forall k :: 0 <= k < |beam| ==> beam[k] == '-'
  {
    Repeat('-', 2 * n - 1)
  }

  /** The eight lines of the picture, top to bottom, all as wide as the
      beam. */
  function Lines(rods: seq<RodState>): (lines: seq<seq<char>>)
    ensures |lines| == LineCount
    ensures forall row :: 0 <= row < LineCount ==> |lines[row]| == LineWidth(|rods|)
  {
    [ Joined(RowSymbols(rods, 0)),
      Joined(RowSymbols(rods, 1)),
      Beam(|rods|),
      Joined(RowSymbols(rods, 3)),
      Joined(RowSymbols(rods, 4)),
      Joined(RowSymbols(rods, 5)),
      Joined(RowSymbols(rods, 6)),
      Joined(RowSymbols(rods, 7)) ]
  }

  /** `"\n".join(lines)`. */
  function JoinLines(lines: seq<seq<char>>): seq<char>
    requires |lines| >= 1
  {
    if |lines| == 1 then lines[0] else lines[0] + ['\n'] + JoinLines(lines[1..])
  }

  /** `str(abacus)`. */
  function Render(ab: Abacus): seq<char>
  {
    JoinLines(Lines(ab.rods))
  }

  /** `text.split("\n")`: the pieces between newlines, one more piece than
      there are newlines. */
  function SplitLines(text: seq<char>): (lines: seq<seq<char>>)
    ensures |lines| >= 1
  {
    if text == [] then [[]]
    else if text[0] == '\n' then [[]] + SplitLines(text[1..])
    else
      var rest := SplitLines(text[1..]);
      [[text[0]] + rest[0]] + rest[1..]
  }

  predicate NoNewline(line: seq<char>)
  {
    forall k :: 0 <= k < |line| ==> line[k] != '\n'
  }

  /** A newline-free piece in front of a text extends the first line the
      text splits into. */
  lemma {:induction false} SplitAfterPiece(piece: seq<char>, text: seq<char>)
    requires NoNewline(piece)
    ensures SplitLines(piece + text)
            == [piece + SplitLines(text)[0]] + SplitLines(text)[1..]
  {
    var lines := SplitLines(text);
    if piece != [] {
      var whole := piece + text;
      assert whole[0] == piece[0] && whole[0] != '\n';
      assert whole[1..] == piece[1..] + text;
      var tail := SplitLines(whole[1..]);
      assert SplitLines(whole) == [[whole[0]] + tail[0]] + tail[1..];
      SplitAfterPiece(piece[1..], text);
      assert tail[0] == piece[1..] + lines[0] && tail[1..] == lines[1..];
      assert [piece[0]] + (piece[1..] + lines[0]) == piece + lines[0];
    } else {
      assert piece + text == text;
      assert piece + lines[0] == lines[0];
      assert [lines[0]] + lines[1..] == lines;
    }
  }

  /** Splitting undoes joining when no line holds a newline. */
  lemma {:induction false} SplitJoin(lines: seq<seq<char>>)
    requires |lines| >= 1
    requires forall i :: 0 <= i < |lines| ==> NoNewline(lines[i])
    ensures SplitLines(JoinLines(lines)) == lines
  {
    if |lines| == 1 {
      SplitAfterPiece(lines[0], []);
      assert lines[0] + [] == lines[0];
    } else {
      var rest := JoinLines(lines[1..]);
      SplitJoin(lines[1..]);
      assert SplitLines(['\n'] + rest) == [[]] + lines[1..];
      assert lines[0] + ['\n'] + rest == lines[0] + (['\n'] + rest);
      SplitAfterPiece(lines[0], ['\n'] + rest);
      assert lines[0] + [] == lines[0];
      assert [lines[0]] + lines[1..] == lines;
    }
  }

  /** A bead row of the picture is the row's symbols joined by spaces, and
      holds no newline. */
  lemma {:induction false} BeadRow(rods: seq<RodState>, row: nat)
    requires row < LineCount && row != BeamRow
    ensures Lines(rods)[row] == Joined(RowSymbols(rods, row))
    ensures NoNewline(Lines(rods)[row])
  {
    var symbols := RowSymbols(rods, row);
    forall c | c in symbols
      ensures c != '\n'
    {
      var j :| 0 <= j < |symbols| && symbols[j] == c;
      assert c == Cell(rods[j], row);
    }
    var line := Joined(symbols);
    JoinedChars(symbols);
    forall k | 0 <= k < |line|
      ensures line[k] != '\n'
    {
      assert line[k] in line;
    }
  }

  /** The shape of the picture: eight newline-free lines of the same width
      `2n - 1`, dashes across the beam, and in column `2j` of each bead row
      the symbol of rod `j`. */
  lemma {:induction false} LinesShape(rods: seq<RodState>)
    ensures |Lines(rods)| == LineCount
    ensures forall row :: 0 <= row < LineCount ==>
              |Lines(rods)[row]| == LineWidth(|rods|) && NoNewline(Lines(rods)[row])
    ensures forall k :: 0 <= k < LineWidth(|rods|) ==> Lines(rods)[BeamRow][k] == '-'
    ensures forall row, j :: 0 <= row < LineCount && row != BeamRow && 0 <= j < |rods| ==>
              Lines(rods)[row][2 * j] == Cell(rods[j], row)
  {
    forall row | 0 <= row < LineCount && row != BeamRow
      ensures Lines(rods)[row] == Joined(RowSymbols(rods, row))
      ensures NoNewline(Lines(rods)[row])
    {
      BeadRow(rods, row);
    }
  }

  /** The printed picture splits back into its eight lines. */
  lemma {:induction false} RenderLines(ab: Abacus)
    ensures SplitLines(Render(ab)) == Lines(ab.rods)
    ensures |SplitLines(Render(ab))| == LineCount
  {
    LinesShape(ab.rods);
    SplitJoin(Lines(ab.rods));
  }

  /** What the picture shows about rod `j`: the upper bead is up exactly
      when row 0 shows 'O' in the rod's column (and row 1 then shows '|'),
      and the gap among the lower beads is in row `3 + lowerBeadsUp`. */
  lemma {:induction false} RodInPicture(ab: Abacus, j: nat)
    requires j < |ab.rods|
    ensures var lines := SplitLines(Render(ab));
            |lines| == LineCount
            && (forall row :: 0 <= row < LineCount ==> 2 * j < |lines[row]|)
            && (lines[0][2 * j] == 'O' <==> ab.rods[j].upperBeadsUp == 1)
            && (lines[1][2 * j] == 'O' <==> ab.rods[j].upperBeadsUp == 0)
            && (forall row :: 3 <= row < LineCount ==>
                  (lines[row][2 * j] == '|' <==> row - 3 == ab.rods[j].lowerBeadsUp))
  {
    RenderLines(ab);
    LinesShape(ab.rods);
    var lines := Lines(ab.rods);
    forall row | 3 <= row < LineCount
      ensures lines[row][2 * j] == '|' <==> row - 3 == ab.rods[j].lowerBeadsUp
    {
      assert lines[row][2 * j] == Cell(ab.rods[j], row);
    }
  }

  /** The picture determines the abacus: two abaci that print the same
      are the same rods. */
  lemma {:induction false} RenderInjective(a: Abacus, b: Abacus)
    requires Render(a) == Render(b)
    ensures a == b
  {
    RenderLines(a);
    RenderLines(b);
    LinesShape(a.rods);
    LinesShape(b.rods);
    assert LineWidth(|a.rods|) == LineWidth(|b.rods|);
    assert |a.rods| == |b.rods|;
    forall j | 0 <= j < |a.rods|
      ensures a.rods[j] == b.rods[j]
    {
      RodInPicture(a, j);
      RodInPicture(b, j);
      var la := a.rods[j].lowerBeadsUp;
      assert SplitLines(Render(a))[3 + la][2 * j] == '|';
    }
  }
}
