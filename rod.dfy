/** One rod of a soroban: a base-10 digit held as two bead counts.
    The single upper ("heaven") bead is worth 5 when it is DOWN, that is when
    upperBeadsUp is 0; each of the four lower ("earth") beads that is UP is
    worth 1. */
module Rods {

  /** The two validation failures of the rod setters. */
  datatype BeadError = UpperBeadsOutOfRange | LowerBeadsOutOfRange

  /** A value or the validation failure that prevented it. */
  datatype Result<+T> = Ok(value: T) | Err(error: BeadError)

  /** The outcome of a setter that returns nothing on success. */
  datatype Outcome = Pass | Fail(error: BeadError)

  /** The bead pair `(upperBeadsUp, lowerBeadsUp)` a rod displays. */
  datatype Beads = Beads(upperBeadsUp: int, lowerBeadsUp: int)

  predicate ValidUpper(value: int) { value == 0 || value == 1 }

  predicate ValidLower(value: int) { 0 <= value <= 4 }

  /** The bead state of a rod that passed validation. */
  type RodState = b: Beads | ValidUpper(b.upperBeadsUp) && ValidLower(b.lowerBeadsUp)
    witness Beads(1, 0)

  /** The resting state `Rod()`: upper bead up, no lower bead up, digit 0. */
  const ZeroRod: RodState := Beads(1, 0)

  /** The digit a rod stands for (`int(rod)`). */
  function Digit(r: RodState): (d: int)
    ensures 0 <= d <= 9
  {
    (if r.upperBeadsUp == 0 then 5 else 0) + r.lowerBeadsUp
  }

  /** The bead state that shows digit `d`: the inverse of Digit. */
  function CanonicalRod(d: int): (r: RodState)
    requires 0 <= d <= 9
    ensures Digit(r) == d
  {
    Beads(if d >= 5 then 0 else 1, d % 5)
  }

  /** Every valid bead state is the canonical one for its digit, so Digit is
      a bijection between the ten bead states and the digits 0..9. */
  lemma CanonicalOfDigit(r: RodState)
    ensures CanonicalRod(Digit(r)) == r
  {
  }

  /** Two rods that read as the same digit are in the same bead state. */
  lemma DigitInjective(r: RodState, s: RodState)
    requires Digit(r) == Digit(s)
    ensures r == s
  {
    CanonicalOfDigit(r);
    CanonicalOfDigit(s);
  }

  /** What constructing `Rod(upperBeadsUp, lowerBeadsUp)` yields: the upper
      count is validated first, then the lower count. */
  function MakeRod(upperBeadsUp: int, lowerBeadsUp: int): (r: Result<RodState>)
    ensures r.Ok? <==> ValidUpper(upperBeadsUp) && ValidLower(lowerBeadsUp)
    ensures r.Ok? ==> r.value == Beads(upperBeadsUp, lowerBeadsUp)
    ensures r == Err(UpperBeadsOutOfRange) <==> !ValidUpper(upperBeadsUp)
    ensures r == Err(LowerBeadsOutOfRange) <==> ValidUpper(upperBeadsUp) && !ValidLower(lowerBeadsUp)
  {
    if !ValidUpper(upperBeadsUp) then Err(UpperBeadsOutOfRange)
    else if !ValidLower(lowerBeadsUp) then Err(LowerBeadsOutOfRange)
    else Ok(Beads(upperBeadsUp, lowerBeadsUp))
  }

  /** A rod object whose two bead counts are assigned through validating
      setters; a rejected assignment leaves the rod as it was. */
  class Rod {
    var upperBeadsUp: int
    var lowerBeadsUp: int

    ghost predicate Valid()
      reads this
    {
      ValidUpper(upperBeadsUp) && ValidLower(lowerBeadsUp)
    }

    /** The rod's current bead state as a value. */
    function State(): (s: RodState)
      reads this
      requires Valid()
      ensures s.upperBeadsUp == upperBeadsUp && s.lowerBeadsUp == lowerBeadsUp
    {
      Beads(upperBeadsUp, lowerBeadsUp)
    }

    /** `Rod()`: the default bead state, digit 0. */
    constructor ()
      ensures Valid() && State() == ZeroRod
    {
      upperBeadsUp := 1;
      lowerBeadsUp := 0;
    }

    /** `Rod(upperBeadsUp, lowerBeadsUp)`: the two setters run in order, so
        an invalid upper count is reported even when the lower one is
        invalid too. */
    static method New(upperBeadsUp: int, lowerBeadsUp: int) returns (r: Result<Rod>)
      ensures r.Ok? <==> MakeRod(upperBeadsUp, lowerBeadsUp).Ok?
      ensures r.Err? ==> r.error == MakeRod(upperBeadsUp, lowerBeadsUp).error
      ensures r.Ok? ==> fresh(r.value) && r.value.Valid()
                        && r.value.State() == MakeRod(upperBeadsUp, lowerBeadsUp).value
    {
      var rod := new Rod();
      var outcome := rod.SetUpperBeadsUp(upperBeadsUp);
      if outcome.Fail? {
        return Err(outcome.error);
      }
      outcome := rod.SetLowerBeadsUp(lowerBeadsUp);
      if outcome.Fail? {
        return Err(outcome.error);
      }
      return Ok(rod);
    }

    /** The `upperBeadsUp` setter: accepts exactly 0 and 1. */
    method SetUpperBeadsUp(value: int) returns (outcome: Outcome)
      requires Valid()
      modifies this
      ensures Valid()
      ensures outcome.Pass? <==> ValidUpper(value)
      ensures outcome.Fail? ==> outcome.error == UpperBeadsOutOfRange
      ensures upperBeadsUp == (if outcome.Pass? then value else old(upperBeadsUp))
      ensures lowerBeadsUp == old(lowerBeadsUp)
    {
      if !ValidUpper(value) {
        return Fail(UpperBeadsOutOfRange);
      }
      upperBeadsUp := value;
      return Pass;
    }

    /** The `lowerBeadsUp` setter: accepts exactly 0 through 4. */
    method SetLowerBeadsUp(value: int) returns (outcome: Outcome)
      requires Valid()
      modifies this
      ensures Valid()
      ensures outcome.Pass? <==> ValidLower(value)
      ensures outcome.Fail? ==> outcome.error == LowerBeadsOutOfRange
      ensures lowerBeadsUp == (if outcome.Pass? then value else old(lowerBeadsUp))
      ensures upperBeadsUp == old(upperBeadsUp)
    {
      if !ValidLower(value) {
        return Fail(LowerBeadsOutOfRange);
      }
      lowerBeadsUp := value;
      return Pass;
    }
  }
}
