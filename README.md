# Soroban abacus, modelled in Dafny

This project models `abacus.py`, a small simulation of a soroban (Japanese
abacus), and proves properties of the model.

- A **rod** holds one base-10 digit as two bead counts.
  - `upperBeadsUp` is 0 or 1. The single upper bead is worth 5 when it is *down*.
  - `lowerBeadsUp` is 0 to 4. Each raised lower bead is worth 1.
  - Both counts are assigned through validating setters.
- An **abacus** is a fixed-width row of rods, most significant first.
  - Construction right-aligns the supplied rods and pads on the left with
    digit-0 rods.
  - It reads as a base-10 number.
  - It prints as an eight-line ASCII picture. Each rod's column shows one
    gap among its lower beads, in the lower row numbered by `lowerBeadsUp`,
    so a digit-0 rod shows '|' in the first lower row (abacus.py:96-104).
- **`add_abacus` / `sub_abacus`** add and subtract two abaci rod by rod,
  from the right, passing a carry or a borrow leftwards.

In the source, `Rod.__int__`, `Abacus.__int__`, `add_abacus` and `sub_abacus`
have docstrings with doctests but **no bodies**. Their models here
(`Digit`, `Value`, `AddAbacus`, `SubAbacus`) implement what those doctests
show and what the documentation describes:
- the digit is `(5 if upperBeadsUp == 0 else 0) + lowerBeadsUp`;
- the rods are read left to right as a base-10 number;
- each result digit is written in its canonical bead state;
- the carry or borrow is passed from right to left.

## Modules

| file | module | contents |
|---|---|---|
| `rod.dfy` | `Rods` | The bead pair `Beads` and the subtype `RodState` of valid pairs. `Digit`, and its inverse `CanonicalRod`. `MakeRod`, the value a constructor call yields. The class `Rod`, whose two setters validate and then assign, or leave the rod unchanged and report the error. |
| `abacus.dfy` | `Soroban` | The datatype `Abacus` over a sequence of rod states. `Value` (`int(abacus)`) and an independent positional definition of it. `Digits`, the inverse of `Value`. `NewAbacus`, the constructor's allocate-then-overwrite loop over an array. |
| `render.dfy` | `Rendering` | `Render` (`str(abacus)`), built from `Joined` (`" ".join`), `Repeat` (`"-" * k`) and `JoinLines` (`"\n".join`). `SplitLines` (`split("\n")`) reads the picture back, so properties can be stated line by line and cell by cell. |
| `arithmetic.dfy` | `Arithmetic` | `AddAbacus` and `SubAbacus`: right-to-left loops that thread a carry or borrow of 0 or 1. Their invariants count a pending carry or borrow as one more rod to the left. Per-column lemmas keep the loop proofs small. |
| `doctests.dfy` | `Examples` | The doctests of the source, stated over the model and proved. |

Errors are values. A setter returns `Pass` or `Fail(error)`. Construction
returns `Ok(rod)` or `Err(error)`. `BeadError` has one variant for each of the
two messages the source raises.

The width `max(size, len(rods))` is modelled as written, for every `size`, including a negative one: `Width` then takes the number of supplied rods.

## Model

| member | source | states |
|---|---|---|
| `Rods.Rod.SetUpperBeadsUp` | abacus.py:44-48 | Succeeds exactly when the value is 0 or 1, and then stores it. Otherwise it reports `UpperBeadsOutOfRange` and leaves the field unchanged. The lower count never changes, and the rod stays valid. |
| `Rods.Rod.SetLowerBeadsUp` | abacus.py:54-58 | Succeeds exactly when the value is in 0..4, and then stores it. Otherwise it reports `LowerBeadsOutOfRange` and leaves the field unchanged. The upper count never changes. |
| `Rods.Rod.constructor` | abacus.py:36-38 | `Rod()` is valid, in the default state (1, 0). |
| `Rods.Rod.New` | abacus.py:36-38 | `Rod(u, l)` runs the two setters in order. It succeeds exactly when `MakeRod` does, with a fresh valid rod holding exactly (u, l). Otherwise it fails with `MakeRod`'s error. |
| `Rods.MakeRod` | abacus.py:36-58 | Succeeds iff both counts are in range, and then holds exactly (u, l). Fails with `UpperBeadsOutOfRange` iff u is not 0 or 1. Fails with `LowerBeadsOutOfRange` iff u is valid and l is out of range, because the upper count is checked first. |
| `Rods.Digit` | abacus.py:63-81 | Every valid rod reads as a digit in 0..9. |
| `Rods.CanonicalRod` | abacus.py:1-7 | Every digit 0..9 has a bead state that reads as it, so no digit is unreachable. |
| `Rods.CanonicalOfDigit` | abacus.py:63-81 | Every valid bead state is the canonical state of its own digit, so `Digit` is a bijection on the ten valid states. |
| `Rods.DigitInjective` | abacus.py:63-81 | Two rods that read as the same digit are in the same bead state. |
| `Soroban.Value` | abacus.py:172-189 | The reading of n rods is a natural number below 10^n. |
| `Soroban.ValueIsPositionalSum` | abacus.py:172-189 | The reading equals the independent positional sum of `digit_i * 10^(n-1-i)`. |
| `Soroban.ValueAppend` | abacus.py:172-189 | Rods placed side by side read as the left group shifted by the width of the right group, plus the right group. |
| `Soroban.LeadingZeros` | abacus.py:172-189 | Leading default rods do not change the reading. |
| `Soroban.ValueInjective` | abacus.py:172-189 | Two rod sequences of one width with the same reading are equal, so the reading is a normal form. |
| `Soroban.ValueOfDigits` | abacus.py:172-189 | Writing a number below 10^n onto n rods and reading it back gives the number. |
| `Soroban.DigitsOfValue` | abacus.py:172-189 | Reading rods and writing the number back onto as many rods gives the same rods. |
| `Soroban.Width` | abacus.py:137-144 | The effective width is `max(size, len(rods))`: at least each of the two, and equal to one of them. |
| `Soroban.NewAbacus` | abacus.py:137-151 | The width is `max(size, len(rods))`. The trailing slots are the supplied rods, in order. Every earlier slot is the default rod. |
| `Soroban.Pushed` | abacus.py:137-151 | The abacus `Abacus(rods, size)` builds: `max(size, len(rods))` rods, the supplied rods in order at the right end, and default rods in every earlier slot. `NewAbacus` computes exactly this value. |
| `Soroban.PushedValue` | abacus.py:137-151 | The constructed abacus reads as the number the supplied rods read as. |
| `Rendering.Cell` | abacus.py:159-165 | Each bead-row cell is 'O' or '\|'. In row 0 it is 'O' iff the upper bead is up. In row 1 it is 'O' iff the upper bead is down. In lower row i it is '\|' iff i equals the lower count. |
| `Rendering.RowSymbols` | abacus.py:159-165 | A bead row has one symbol per rod, in rod order. |
| `Rendering.Joined` | abacus.py:159-164 | `" ".join(symbols)` has length 2n-1 (0 when n = 0), with symbol j at position 2j. |
| `Rendering.JoinedSpaces` | abacus.py:159-164 | In a joined row, a single space precedes every symbol but the first. |
| `Rendering.JoinedChars` | abacus.py:159-164 | A joined row contains only the symbols and spaces. |
| `Rendering.Repeat` | abacus.py:161 | `c * k` is k copies of c, and is empty when k is not positive. |
| `Rendering.Beam` | abacus.py:161 | The beam `"-" * (2n - 1)` is all dashes and as wide as a bead row, so an abacus without rods has an empty beam. |
| `Rendering.Lines` | abacus.py:158-166 | The list of lines has eight entries, all of width 2n-1. |
| `Rendering.SplitJoin` | abacus.py:157 | Splitting on newlines undoes `"\n".join` (`JoinLines`) of newline-free lines. |
| `Rendering.LinesShape` | abacus.py:157-167 | The picture has eight newline-free lines, all of width 2n-1. The beam is all dashes. Column 2j of each bead row shows rod j's symbol. |
| `Rendering.RenderLines` | abacus.py:153-167 | `str(abacus)` (`Render`, which is `JoinLines` of `Lines`) splits back into exactly its eight lines. |
| `Rendering.RodInPicture` | abacus.py:157-167 | Rod j's column shows 'O' in line 0 iff the upper bead is up, and 'O' in line 1 iff it is down. Across lower rows 3..7, '\|' appears exactly in row 3 + lowerBeadsUp, so each rod shows one gap. |
| `Rendering.RenderInjective` | abacus.py:153-167 | Two abaci that print the same picture are equal, so the picture determines every bead. |
| `Arithmetic.AddColumn` | abacus.py:192-210 | One step of addition: writing `(da + db + carry) mod 10` and carrying `div 10` preserves "written rods, with the carry rod on their left, read as the sum of the operands' suffixes". |
| `Arithmetic.DropCarry` | abacus.py:192-210 | Dropping the final carry leaves either the sum, or the sum less 10^n: the sum modulo 10^n. |
| `Arithmetic.AddAbacus` | abacus.py:192-210 | For equal widths, the result keeps the width. It reads as `int(a) + int(b)`, or that less 10^n. It is exactly `int(a) + int(b)` when the sum fits in n rods, and in every case `(int(a) + int(b)) mod 10^n`. |
| `Arithmetic.SubColumn` | abacus.py:213-231 | One step of subtraction: writing `da - db - borrow`, plus 10 when it is negative with a borrow of 1, preserves "written rods plus the subtrahend's suffix read as the minuend's suffix with the borrow rod on its left". |
| `Arithmetic.DropBorrow` | abacus.py:213-231 | Dropping the final borrow leaves either the difference, or the difference plus 10^n: the difference modulo 10^n. |
| `Arithmetic.SubAbacus` | abacus.py:213-231 | For equal widths, the result keeps the width. It reads as `int(a) - int(b)`, or that plus 10^n. It is exactly `int(a) - int(b)` when `int(a) >= int(b)`, and in every case `(int(a) - int(b)) mod 10^n`. |
| `Arithmetic.DroppedIsResidue` | abacus.py:192-231 | A reading in [0, 10^n) that differs from x by at most one 10^n is x mod 10^n. `DropCarry` and `DropBorrow` use it to give the modulo form of the two results. |
| `Examples.RodExamples` | abacus.py:9-33 | Construction accepts or rejects exactly the doctest examples, with the documented errors. The doctest digits hold. |
| `Examples.AbacusValueExamples` | abacus.py:172-189 | `Abacus([Rod(0,1), Rod(0,3), Rod(0,2)])` reads 687, `Abacus([Rod(0,1), Rod(1,1)])` reads 61, and `Abacus()` reads 0. |
| `Examples.OnesValueExamples` | abacus.py:178-182 | `Abacus([Rod(1,1)])` reads 1 and `Abacus([Rod(1,1), Rod(1,1)])` reads 11. |
| `Examples.ConstructionExamples` | abacus.py:90-94 | `Abacus()` is five rods in state (1, 0). `Abacus([Rod(1,1)])` has five rods, and its last rod is (1, 1). |
| `Examples.AddTwoExample` | abacus.py:196-198 | 2 + 2 leaves digit 4 on the last rod. |
| `Examples.AddFiveExample` | abacus.py:200-202 | 5 + 5 carries digit 1 onto the second rod from the right. |
| `Examples.AddExample` | abacus.py:204-209 | 99 + 1 gives the rods `[(1,0), (1,0), (1,1), (1,0), (1,0)]`. |
| `Examples.SubTwoExample` | abacus.py:217-219 | 5 - 2 reads 3. |
| `Examples.SubOneExample` | abacus.py:221-223 | 10 - 1 reads 9. |
| `Examples.SubExample` | abacus.py:225-230 | 100 - 1 gives the rods `[(1,0), (1,0), (1,0), (0,4), (0,4)]`. |
| `Examples.OneRodRenderExample` | abacus.py:106-114 | `print(Abacus([Rod(1,1)]))` shows the documented eight lines. |
| `Examples.RenderExample` | abacus.py:116-124 | `print(Abacus([Rod(0,1), Rod(1,3)]))` shows the documented eight lines. |
| `Examples.DefaultRenderExample` | abacus.py:96-104 | `print(Abacus())` shows the documented eight lines. The first lower row is all '\|', the gaps of the digit-0 rods. |
| `Examples.FourRenderExample` | abacus.py:126-134 | `print(Abacus([Rod(0,1), Rod(1,4)]))` shows the documented eight lines. |

## Left out

- The doctest runner under `__main__` (abacus.py:234-237): test harness and I/O.
- `Rod.__repr__` and `Abacus.__repr__` (abacus.py:60-61, 169-170): exact tuple and list formatting. A rod is modelled as the pair `Beads(upperBeadsUp, lowerBeadsUp)`.
- The texts of the `ValueError` messages: they are modelled as the two variants of `BeadError`.
- Python object identity and aliasing:
  - `Abacus.__init__` stores the caller's `Rod` objects by reference;
  - the default argument `rods=[]` is shared between calls, though never mutated.
  - The abacus holds rod values (`RodState`), so sharing a rod between abaci, or changing one after construction, is not modelled.
- Bead counts that are not integers but pass the setters' checks, such as `Rod(1, 2.5)` (2.5 lies between 0 and 4) or `Rod(True, 1)` (`True` equals 1). The source stores them as given. The model's bead counts are `int`.
- Arithmetic on operands of different widths: the source does not define it, so `AddAbacus` and `SubAbacus` require equal widths.
- `AddAbacus`: a carry out of the most significant rod is dropped. This is a modelling choice, because the source has no body for `add_abacus`. The contract states the result as the sum modulo 10^n.
- `SubAbacus`: a borrow out of the most significant rod is dropped, which the source leaves undefined for `a < b`. The contract states the result as the difference modulo 10^n, which is exact when `int(a) >= int(b)`.
- `AddAbacus` and `SubAbacus` build the result by putting each new rod in front of a sequence, rather than writing slots of a preallocated list. No source body exists to fix that choice, and the result is the same list of rods.
