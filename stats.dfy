/**
 * `DiceRollStats` and the statistics `Roller.roll` attaches to every result:
 * the smallest, the largest and the (rounded-up) average total the roll
 * expression can produce. They depend on the number of dice, their side
 * count and the addition only, never on the outcomes of a throw.
 */
module RollStats {

  datatype DiceRollStats = DiceRollStats(min: int, max: int, avg: int)

  /** `math.ceil`, on an exact real. */
  function Ceiling(x: real): (c: int)
    ensures c as real - 1.0 < x <= c as real
  {
    -((-x).Floor)
  }

  /** The statistics of `count` dice of `sides` sides plus `addition`, as the
      source writes them: `min = count + addition`, `max = count * sides +
      addition`, `avg = ceil(count * (sides / 2 + 0.5)) + addition`, the average
      taken in exact real arithmetic. That average is an integer formula. */
  function StatsOf(count: nat, sides: nat, addition: int): (s: DiceRollStats)
    ensures s.avg == (count * (sides + 1) + 1) / 2 + addition
  {
    AverageIsIntegerCeiling(count, sides);
    DiceRollStats(
      count + addition,
      count * sides + addition,
      Ceiling(count as real * (sides as real / 2.0 + 0.5)) + addition)
  }

  /** `sum()` of a list of integers, added from the left as Python does;
      adding from the right gives the same total. */
  function Sum(s: seq<int>): (r: int)
    ensures r == SumRight(s)
  {
    if s == [] then 0
    else
      SumRightSnoc(s);
      Sum(s[..|s| - 1]) + s[|s| - 1]
  }

  /** The total of a list added from the right. */
  function SumRight(s: seq<int>): int
  {
    if s == [] then 0 else s[0] + SumRight(s[1..])
  }

  lemma {:induction false} SumRightSnoc(s: seq<int>)
    requires |s| > 0
    ensures SumRight(s) == SumRight(s[..|s| - 1]) + s[|s| - 1]
  {
    if |s| > 1 {
      SumRightSnoc(s[1..]);
      assert s[1..][..|s| - 2] == s[..|s| - 1][1..];
    }
  }

  lemma HalfCeiling(n: int)
    ensures Ceiling(n as real / 2.0) == (n + 1) / 2
  {
    var q := (n + 1) / 2;
    var c := Ceiling(n as real / 2.0);
    if n == 2 * q {
      assert n as real / 2.0 == q as real;
    } else {
      assert n == 2 * q - 1;
      assert n as real / 2.0 == q as real - 0.5;
    }
  }

  /** The real-valued average of the source equals an integer formula: the
      ceiling of count * (sides + 1) / 2. */
  lemma AverageIsIntegerCeiling(count: nat, sides: nat)
    ensures Ceiling(count as real * (sides as real / 2.0 + 0.5)) == (count * (sides + 1) + 1) / 2
  {
    var n := count * (sides + 1);
    assert sides as real / 2.0 + 0.5 == (sides + 1) as real / 2.0;
    assert count as real * (sides + 1) as real == n as real;
    HalfCeiling(n);
  }

  /** Every statistic in integer closed form: the modifier shifts each of the
      three by exactly `addition`. */
  lemma StatsClosedForm(count: nat, sides: nat, addition: int)
    ensures StatsOf(count, sides, addition) ==
      DiceRollStats(count + addition, count * sides + addition, (count * (sides + 1) + 1) / 2 + addition)
  {
    AverageIsIntegerCeiling(count, sides);
  }

  /** The average lies between the minimum and the maximum. */
  lemma AverageWithinBounds(count: nat, sides: nat, addition: int)
    requires count >= 1 && sides >= 1
    ensures StatsOf(count, sides, addition).min <= StatsOf(count, sides, addition).avg
    ensures StatsOf(count, sides, addition).avg <= StatsOf(count, sides, addition).max
  {
    StatsClosedForm(count, sides, addition);
    assert count * (sides + 1) == count * sides + count;
    assert count * sides >= count;
  }

  /** The examples of the documentation: 1k20, 3k6 and 2k20+16. */
  lemma AverageExamples()
    ensures StatsOf(1, 20, 0) == DiceRollStats(1, 20, 11)
    ensures StatsOf(3, 6, 0) == DiceRollStats(3, 18, 11)
    ensures StatsOf(2, 20, 16) == DiceRollStats(18, 56, 37)
  {
    StatsClosedForm(1, 20, 0);
    StatsClosedForm(3, 6, 0);
    StatsClosedForm(2, 20, 16);
  }

  /** With every outcome in [1, sides], the sum of `n` outcomes lies in
      [n, n * sides]. */
  lemma {:induction false} SumWithinBounds(outcomes: seq<int>, sides: nat)
    requires forall k :: 0 <= k < |outcomes| ==> 1 <= outcomes[k] <= sides
    ensures |outcomes| <= Sum(outcomes) <= |outcomes| * sides
  {
    if outcomes != [] {
      var init := outcomes[..|outcomes| - 1];
      SumWithinBounds(init, sides);
      assert |outcomes| * sides == |init| * sides + sides;
    }
  }

  /** With every outcome in [1, sides], the total of a throw lies between the
      minimum and the maximum of its statistics. */
  lemma TotalWithinBounds(outcomes: seq<int>, sides: nat, addition: int)
    requires forall k :: 0 <= k < |outcomes| ==> 1 <= outcomes[k] <= sides
    ensures StatsOf(|outcomes|, sides, addition).min <= Sum(outcomes) + addition
    ensures Sum(outcomes) + addition <= StatsOf(|outcomes|, sides, addition).max
  {
    SumWithinBounds(outcomes, sides);
  }
}
