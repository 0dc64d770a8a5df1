/**
 * The die, and the random source it draws from.
 *
 * The process-wide `random` state is modelled as the sequence of outcomes
 * `random.randint` will hand out next, in order; the test suite replaces
 * `randint` by such a list in the same way. Seeding is not modelled.
 */
module Dices {
  import opened Wrappers

  /** The outcomes `random.randint` is going to return, in order. */
  class RandomSource {
    var draws: seq<int>

    constructor (draws: seq<int>)
      ensures this.draws == draws
    {
      this.draws := draws;
    }

    /** `random.randint(lo, hi)`: hands out the next outcome. That the outcome
        lies in [lo, hi] is randint's own guarantee, so the source must hold
        such an outcome. */
    method RandInt(lo: int, hi: int) returns (r: int)
      requires |draws| > 0 && lo <= draws[0] <= hi
      modifies this
      ensures lo <= r <= hi
      ensures r == old(draws[0]) && draws == old(draws[1..])
    {
      r := draws[0];
      draws := draws[1..];
    }
  }

  /** A die with a fixed number of sides. */
  class Dice {
    const sidesCount: int

    constructor (sidesCount: int)
      requires sidesCount > 1
      ensures this.sidesCount == sidesCount
    {
      this.sidesCount := sidesCount;
    }

    /** `Dice(sides_count)`: refuses a die with fewer than two sides. */
    static method New(sidesCount: int) returns (r: Result<Dice>)
      ensures r.Ok? <==> sidesCount > 1
      ensures r.Ok? ==> r.value.sidesCount == sidesCount
      ensures r.Err? ==> r.error == InvalidDie
    {
      if sidesCount <= 1 {
        return Err(InvalidDie);
      }
      var d := new Dice(sidesCount);
      return Ok(d);
    }

    /** `Dice.roll`: one outcome in [1, sides_count], taken from the random
        source; the die itself does not change (its side count is constant). */
    method Roll(rng: RandomSource) returns (r: int)
      requires |rng.draws| > 0 && 1 <= rng.draws[0] <= sidesCount
      modifies rng
      ensures 1 <= r <= sidesCount
      ensures r == old(rng.draws[0]) && rng.draws == old(rng.draws[1..])
    {
      r := rng.RandInt(1, sidesCount);
    }
  }

  /** The cases of the die's test suite: side counts 0 and 1 are refused,
      every side count of the roll pattern is accepted and kept. */
  method DiceExamples()
  {
    var zero := Dice.New(0);
    assert zero == Err(InvalidDie);
    var one := Dice.New(1);
    assert one == Err(InvalidDie);
    var sides := [4, 6, 8, 10, 12, 20];
    for i := 0 to |sides| {
      var d := Dice.New(sides[i]);
      assert d.Ok? && d.value.sidesCount == sides[i];
    }
  }
}
