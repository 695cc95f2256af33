/** Math.random as an explicit, fixed stream of draws in [0, 1).
    Every call of Math.random in the game takes the next element of the
    stream, so the model can say exactly which draw feeds which field. */
module Randomness {

  ghost predicate IsUnitStream(roll: nat -> real) {
    forall k: nat :: 0.0 <= roll(k) < 1.0
  }

  class RandomSource {
    const roll: nat -> real
    var drawn: nat

    ghost predicate Valid() reads this {
      IsUnitStream(roll)
    }

    constructor (roll: nat -> real)
      requires IsUnitStream(roll)
      ensures Valid() && this.roll == roll && drawn == 0
    {
      this.roll := roll;
      drawn := 0;
    }

    /** One call of Math.random. */
    method Next() returns (r: real)
      requires Valid()
      modifies this`drawn
      ensures r == roll(old(drawn)) && 0.0 <= r < 1.0
      ensures drawn == old(drawn) + 1
    {
      r := roll(drawn);
      drawn := drawn + 1;
    }
  }
}
