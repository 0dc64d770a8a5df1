/**
 * The roll executor: `Roller`, its pending rolls (`DiceRollToExecute`) and
 * the results it hands back (`DiceRoll`).
 *
 * `ParseAll` and `RollAll` are the specification: what the constructor
 * builds from a batch of roll strings, and what `roll()` returns for a given
 * sequence of die outcomes. The class's methods are proved against them,
 * and the lemmas below say what the source promises about them.
 */
module Rolling {
  import opened Wrappers
  import opened RollPattern
  import opened RollStats
  import opened Dices

  /** A thrown dice roll: the roll string, its total, the outcome of every
      die, and the statistics of the expression. */
  datatype DiceRoll = DiceRoll(diceRoll: string, result: int, subsequentRolls: seq<int>, rollStats: DiceRollStats)

  /** Building a `DiceRoll` validates its roll string against the pattern. */
  function NewDiceRoll(diceRoll: string, result: int, subsequentRolls: seq<int>, rollStats: DiceRollStats): (r: Result<DiceRoll>)
    ensures r.Ok? <==> Matches(diceRoll)
    ensures r.Ok? ==> r.value.diceRoll == diceRoll && r.value.result == result
    ensures r.Ok? ==> r.value.subsequentRolls == subsequentRolls && r.value.rollStats == rollStats
    ensures r.Err? ==> r.error == UnknownPattern
  {
    if Matches(diceRoll) then Ok(DiceRoll(diceRoll, result, subsequentRolls, rollStats))
    else Err(UnknownPattern)
  }

  /** A roll string after parsing: the string itself and what it decodes to. */
  datatype Expression = Expression(raw: string, spec: RollSpec)

  // ---------------------------------------------------------------------
  // Specification of the constructor

  /** The constructor's loop for a given per-string parser: the strings
      decoded in order; the first one the parser refuses stops the batch with
      the parser's error. (The lemmas about it hold for every parser, so their
      proofs never look inside the pattern.) */
  function ParseAllWith(parse: string -> Result<RollSpec>, throws: seq<string>): (r: Result<seq<Expression>>)
    ensures r.Ok? ==> |r.value| == |throws|
  {
    if throws == [] then Ok([])
    else
      var last := throws[|throws| - 1];
      match ParseAllWith(parse, throws[..|throws| - 1])
      case Err(e) => Err(e)
      case Ok(es) =>
        match parse(last)
        case Err(e) => Err(e)
        case Ok(spec) => Ok(es + [Expression(last, spec)])
  }

  /** What `Roller(dices)` builds, or the error it raises. */
  function ParseAll(throws: seq<string>): (r: Result<seq<Expression>>)
    ensures r.Ok? ==> |r.value| == |throws| && forall i :: 0 <= i < |throws| ==> r.value[i].raw == throws[i]
  {
    ParseAllWithOk(Convert, throws);
    ParseAllWith(Convert, throws)
  }

  lemma {:induction false} ParseAllWithOk(parse: string -> Result<RollSpec>, throws: seq<string>)
    ensures ParseAllWith(parse, throws).Ok? <==> forall i :: 0 <= i < |throws| ==> parse(throws[i]).Ok?
    ensures ParseAllWith(parse, throws).Ok? ==> forall i :: 0 <= i < |throws| ==>
              ParseAllWith(parse, throws).value[i] == Expression(throws[i], parse(throws[i]).value)
  {
    if throws != [] {
      var init := throws[..|throws| - 1];
      ParseAllWithOk(parse, init);
      assert forall i :: 0 <= i < |init| ==> init[i] == throws[i];
    }
  }

  lemma {:induction false} ParseAllWithErr(parse: string -> Result<RollSpec>, throws: seq<string>)
    requires ParseAllWith(parse, throws).Err?
    ensures exists i :: 0 <= i < |throws| && parse(throws[i]).Err? && ParseAllWith(parse, throws).error == parse(throws[i]).error
              && forall j :: 0 <= j < i ==> parse(throws[j]).Ok?
  {
    var init := throws[..|throws| - 1];
    assert forall i :: 0 <= i < |init| ==> init[i] == throws[i];
    if ParseAllWith(parse, init).Err? {
      ParseAllWithErr(parse, init);
    } else {
      ParseAllWithOk(parse, init);
    }
  }

  lemma {:induction false} ParseAllWithStops(parse: string -> Result<RollSpec>, throws: seq<string>, n: nat)
    requires n <= |throws| && ParseAllWith(parse, throws[..n]).Err?
    ensures ParseAllWith(parse, throws) == ParseAllWith(parse, throws[..n])
  {
    if n < |throws| {
      var m := |throws| - 1;
      assert throws[..m][..n] == throws[..n];
      ParseAllWithStops(parse, throws[..m], n);
    } else {
      assert throws[..n] == throws;
    }
  }

  /** One more string: the batch so far extended by that string's expression,
      or the error it raises. */
  lemma ParseAllWithSnoc(parse: string -> Result<RollSpec>, throws: seq<string>, i: nat)
    requires i < |throws| && ParseAllWith(parse, throws[..i]).Ok?
    ensures parse(throws[i]).Err? ==> ParseAllWith(parse, throws[..i + 1]) == Err(parse(throws[i]).error)
    ensures parse(throws[i]).Ok? ==>
              ParseAllWith(parse, throws[..i + 1]) ==
              Ok(ParseAllWith(parse, throws[..i]).value + [Expression(throws[i], parse(throws[i]).value)])
  {
    assert throws[..i + 1][..i] == throws[..i];
  }

  /** Every expression a successful batch holds decodes from its own string. */
  lemma ParseAllParsed(throws: seq<string>)
    requires ParseAll(throws).Ok?
    ensures AllParsed(ParseAll(throws).value)
  {
    ParseAllOk(throws);
  }

  /** The constructor succeeds exactly when every string matches the pattern
      with its numbers within `int()`'s digit limit, and then it holds one
      decoded expression per string, in order. */
  lemma ParseAllOk(throws: seq<string>)
    ensures ParseAll(throws).Ok? <==>
              forall i :: 0 <= i < |throws| ==> Matches(throws[i]) && WithinDigitLimit(Match(throws[i]).value)
    ensures ParseAll(throws).Ok? ==> forall i :: 0 <= i < |throws| ==>
              ParseAll(throws).value[i] == Expression(throws[i], Parse(throws[i]).value)
  {
    ParseAllWithOk(Convert, throws);
  }

  /** A failing batch fails on its first string that the constructor cannot
      convert: every string before it matches within the digit limit, and the
      error is `InvalidPattern` of that string when it does not match, the
      digit-limit error otherwise. */
  lemma ParseAllErr(throws: seq<string>)
    requires ParseAll(throws).Err?
    ensures exists i :: 0 <= i < |throws|
              && (forall j :: 0 <= j < i ==> Matches(throws[j]) && WithinDigitLimit(Match(throws[j]).value))
              && (if Matches(throws[i])
                  then !WithinDigitLimit(Match(throws[i]).value) && ParseAll(throws).error.DigitLimitExceeded?
                       && ParseAll(throws).error.digits > IntMaxStrDigits
                  else ParseAll(throws).error == InvalidPattern(throws[i]))
  {
    var i := FirstUnconverted(throws);
    assert forall j :: 0 <= j < i ==> Matches(throws[j]) && WithinDigitLimit(Match(throws[j]).value) by {
      assert forall j :: 0 <= j < i ==> Convert(throws[j]).Ok?;
    }
    ConvertFailure(throws[i]);
  }

  /** The index of the first string of a failing batch that `Convert`
      rejects, whose error the batch reports. */
  lemma FirstUnconverted(throws: seq<string>) returns (i: nat)
    requires ParseAll(throws).Err?
    ensures i < |throws| && Convert(throws[i]).Err? && ParseAll(throws).error == Convert(throws[i]).error
    ensures forall j :: 0 <= j < i ==> Convert(throws[j]).Ok?
  {
    ParseAllWithErr(Convert, throws);
    i :| 0 <= i < |throws| && Convert(throws[i]).Err? && ParseAll(throws).error == Convert(throws[i]).error
         && forall j :: 0 <= j < i ==> Convert(throws[j]).Ok?;
  }

  /** Why one string fails to convert: it does not match, or one of its
      numbers is past the digit limit. */
  lemma ConvertFailure(s: string)
    requires Convert(s).Err?
    ensures if Matches(s)
            then !WithinDigitLimit(Match(s).value) && Convert(s).error.DigitLimitExceeded?
                 && Convert(s).error.digits > IntMaxStrDigits
            else Convert(s).error == InvalidPattern(s)
  {
  }

  // ---------------------------------------------------------------------
  // Specification of roll()

  /** The number of dice a batch throws. */
  function TotalDice(es: seq<Expression>): nat
  {
    if es == [] then 0 else es[0].spec.count + TotalDice(es[1..])
  }

  /** The outcomes suit the batch: there are enough of them, and each lies
      in [1, sides] for the die that receives it. */
  predicate DrawsFit(es: seq<Expression>, draws: seq<int>)
    ensures DrawsFit(es, draws) ==> |draws| >= TotalDice(es)
  {
    if es == [] then true
    else
      var c := es[0].spec.count;
      && |draws| >= c
      && (forall k :: 0 <= k < c ==> 1 <= draws[k] <= es[0].spec.sides)
      && DrawsFit(es[1..], draws[c..])
  }

  /** The result of one expression thrown with the given outcomes: it names
      its roll string and keeps the outcomes, and when the outcomes suit a
      valid expression its total and its average lie between its minimum
      and its maximum. */
  function Executed(e: Expression, outcomes: seq<int>): (r: DiceRoll)
    ensures r.diceRoll == e.raw && r.subsequentRolls == outcomes
    ensures ValidSpec(e.spec) && |outcomes| == e.spec.count
            && (forall k :: 0 <= k < |outcomes| ==> 1 <= outcomes[k] <= e.spec.sides)
            ==> r.rollStats.min <= r.result <= r.rollStats.max
                && r.rollStats.min <= r.rollStats.avg <= r.rollStats.max
  {
    var d := DiceRoll(e.raw, Sum(outcomes) + e.spec.addition, outcomes,
                      StatsOf(e.spec.count, e.spec.sides, e.spec.addition));
    if ValidSpec(e.spec) && |outcomes| == e.spec.count
       && (forall k :: 0 <= k < |outcomes| ==> 1 <= outcomes[k] <= e.spec.sides)
    then
      TotalWithinBounds(outcomes, e.spec.sides, e.spec.addition);
      AverageWithinBounds(e.spec.count, e.spec.sides, e.spec.addition);
      d
    else d
  }

  /** `roll()`'s loop for a given way of throwing one expression: every
      expression in order, each taking the next `count` outcomes. (The lemmas
      about it hold for every `exec`, so their proofs never look inside the
      statistics.) */
  function RollAllWith(exec: (Expression, seq<int>) -> DiceRoll, es: seq<Expression>, draws: seq<int>): (r: seq<DiceRoll>)
    requires |draws| >= TotalDice(es)
    ensures |r| == |es|
  {
    if es == [] then []
    else
      var c := es[0].spec.count;
      [exec(es[0], draws[..c])] + RollAllWith(exec, es[1..], draws[c..])
  }

  /** What `roll()` returns for the given outcomes: one result per
      expression, naming its roll string and holding one outcome per die. */
  function RollAll(es: seq<Expression>, draws: seq<int>): (r: seq<DiceRoll>)
    requires |draws| >= TotalDice(es)
    ensures |r| == |es|
    ensures forall i :: 0 <= i < |es| ==> r[i].diceRoll == es[i].raw && |r[i].subsequentRolls| == es[i].spec.count
  {
    RollAllWithEcho(Executed, es, draws);
    RollAllWith(Executed, es, draws)
  }

  /** With a way of throwing that echoes its expression and its outcomes,
      the loop's results echo the batch's strings and die counts. */
  lemma {:induction false} RollAllWithEcho(exec: (Expression, seq<int>) -> DiceRoll, es: seq<Expression>, draws: seq<int>)
    requires |draws| >= TotalDice(es)
    requires forall e, o :: exec(e, o).diceRoll == e.raw && exec(e, o).subsequentRolls == o
    ensures forall i :: 0 <= i < |es| ==>
      RollAllWith(exec, es, draws)[i].diceRoll == es[i].raw
      && |RollAllWith(exec, es, draws)[i].subsequentRolls| == es[i].spec.count
  {
    if es != [] {
      var c := es[0].spec.count;
      RollAllWithEcho(exec, es[1..], draws[c..]);
      assert forall i :: 1 <= i < |es| ==> es[1..][i - 1] == es[i];
    }
  }

  /** Index of the first outcome the `i`-th expression takes. */
  function Offset(es: seq<Expression>, i: nat): nat
    requires i <= |es|
  {
    TotalDice(es[..i])
  }

  lemma {:induction false} OffsetStep(es: seq<Expression>, i: nat)
    requires 0 < i <= |es|
    ensures Offset(es, i) == es[0].spec.count + Offset(es[1..], i - 1)
  {
    assert es[..i][1..] == es[1..][..i - 1];
  }

  /** The `i`-th expression takes the outcomes right after those of the
      expressions before it, and they are part of the batch's outcomes. */
  lemma {:induction false} OffsetNext(es: seq<Expression>, i: nat)
    requires i < |es|
    ensures Offset(es, i + 1) == Offset(es, i) + es[i].spec.count
    ensures Offset(es, i + 1) <= TotalDice(es)
  {
    if i > 0 {
      OffsetStep(es, i);
      OffsetStep(es, i + 1);
      OffsetNext(es[1..], i - 1);
      assert es[1..][i - 1] == es[i];
    } else {
      assert es[..1][1..] == [];
      assert TotalDice(es) == es[0].spec.count + TotalDice(es[1..]);
    }
  }

  lemma OffsetAll(es: seq<Expression>)
    ensures Offset(es, |es|) == TotalDice(es)
  {
    assert es[..|es|] == es;
  }

  /** The `i`-th result is the `i`-th expression thrown with its own slice
      of the outcomes: the `count` outcomes that follow those of the
      expressions before it. */
  lemma {:induction false} RollAllWithAt(exec: (Expression, seq<int>) -> DiceRoll, es: seq<Expression>, draws: seq<int>, i: nat)
    requires |draws| >= TotalDice(es) && i < |es|
    ensures Offset(es, i) + es[i].spec.count <= |draws|
    ensures RollAllWith(exec, es, draws)[i] == exec(es[i], draws[Offset(es, i)..Offset(es, i) + es[i].spec.count])
  {
    OffsetNext(es, i);
    if i > 0 {
      var c := es[0].spec.count;
      OffsetStep(es, i);
      RollAllWithAt(exec, es[1..], draws[c..], i - 1);
      assert es[1..][i - 1] == es[i];
      var lo := Offset(es[1..], i - 1);
      assert draws[c..][lo..lo + es[i].spec.count] == draws[c + lo..c + lo + es[i].spec.count];
    }
  }

  lemma RollAllAt(es: seq<Expression>, draws: seq<int>, i: nat)
    requires |draws| >= TotalDice(es) && i < |es|
    ensures Offset(es, i) + es[i].spec.count <= |draws|
    ensures RollAll(es, draws)[i] == Executed(es[i], draws[Offset(es, i)..Offset(es, i) + es[i].spec.count])
  {
    RollAllWithAt(Executed, es, draws, i);
  }

  /** One result per expression, in order: it echoes the raw string, holds
      exactly `count` outcomes, totals them plus the addition, and carries
      statistics computed from the expression alone. */
  lemma RollAllShape(es: seq<Expression>, draws: seq<int>, i: nat)
    requires |draws| >= TotalDice(es) && i < |es|
    ensures RollAll(es, draws)[i].diceRoll == es[i].raw
    ensures |RollAll(es, draws)[i].subsequentRolls| == es[i].spec.count
    ensures RollAll(es, draws)[i].result == Sum(RollAll(es, draws)[i].subsequentRolls) + es[i].spec.addition
    ensures RollAll(es, draws)[i].rollStats == StatsOf(es[i].spec.count, es[i].spec.sides, es[i].spec.addition)
  {
    RollAllAt(es, draws, i);
  }

  /** Statistics never depend on the outcomes. */
  lemma StatsIndependentOfOutcomes(es: seq<Expression>, draws1: seq<int>, draws2: seq<int>, i: nat)
    requires |draws1| >= TotalDice(es) && |draws2| >= TotalDice(es) && i < |es|
    ensures RollAll(es, draws1)[i].rollStats == RollAll(es, draws2)[i].rollStats
  {
    RollAllShape(es, draws1, i);
    RollAllShape(es, draws2, i);
  }

  /** Outcomes that suit the batch give each expression outcomes in
      [1, sides] for its own dice. */
  lemma {:induction false} DrawsFitAt(es: seq<Expression>, draws: seq<int>, i: nat)
    requires DrawsFit(es, draws) && i < |es|
    ensures Offset(es, i) + es[i].spec.count <= |draws|
    ensures forall k :: 0 <= k < es[i].spec.count ==> 1 <= draws[Offset(es, i)..][k] <= es[i].spec.sides
  {
    OffsetNext(es, i);
    if i > 0 {
      var c := es[0].spec.count;
      OffsetStep(es, i);
      DrawsFitAt(es[1..], draws[c..], i - 1);
      assert es[1..][i - 1] == es[i];
      assert draws[c..][Offset(es[1..], i - 1)..] == draws[Offset(es, i)..];
    }
  }

  predicate AllValid(es: seq<Expression>)
  {
    forall i :: 0 <= i < |es| ==> ValidSpec(es[i].spec)
  }

  /** With outcomes that suit the batch, every outcome of a result lies in
      [1, sides], and its total and its average lie between its minimum and
      its maximum. */
  lemma ResultWithinStats(es: seq<Expression>, draws: seq<int>, i: nat)
    requires AllValid(es) && DrawsFit(es, draws) && i < |es|
    ensures forall k :: 0 <= k < |RollAll(es, draws)[i].subsequentRolls| ==>
      1 <= RollAll(es, draws)[i].subsequentRolls[k] <= es[i].spec.sides
    ensures RollAll(es, draws)[i].rollStats.min <= RollAll(es, draws)[i].result <= RollAll(es, draws)[i].rollStats.max
    ensures RollAll(es, draws)[i].rollStats.min <= RollAll(es, draws)[i].rollStats.avg <= RollAll(es, draws)[i].rollStats.max
  {
    var outcomes := OutcomesAt(es, draws, i);
    assert ValidSpec(es[i].spec);
  }

  /** The outcomes the `i`-th expression of a batch takes, when they suit
      the batch: one per die, each in [1, sides]. */
  lemma OutcomesAt(es: seq<Expression>, draws: seq<int>, i: nat) returns (outcomes: seq<int>)
    requires DrawsFit(es, draws) && i < |es|
    ensures RollAll(es, draws)[i] == Executed(es[i], outcomes) && |outcomes| == es[i].spec.count
    ensures forall k :: 0 <= k < |outcomes| ==> 1 <= outcomes[k] <= es[i].spec.sides
  {
    var e, lo := es[i], Offset(es, i);
    assert lo + e.spec.count <= |draws| && RollAll(es, draws)[i] == Executed(e, draws[lo..lo + e.spec.count]) by {
      RollAllAt(es, draws, i);
    }
    outcomes := draws[lo..lo + e.spec.count];
    assert forall k :: 0 <= k < |outcomes| ==> 1 <= outcomes[k] <= e.spec.sides by {
      DrawsFitAt(es, draws, i);
      assert forall k :: 0 <= k < |outcomes| ==> outcomes[k] == draws[lo..][k];
    }
  }

  // ---------------------------------------------------------------------
  // The roller

  /** `Roller.DiceRollToExecute`: a roll string, the dice to throw for it,
      and the addition (0 when the string has no modifier). */
  datatype DiceRollToExecute = DiceRollToExecute(diceRoll: string, dices: seq<Dice>, addition: int)

  /** A pending roll's dice: at least one, all of the same side count. */
  predicate Shaped(p: DiceRollToExecute)
  {
    && |p.dices| >= 1
    && (forall k :: 0 <= k < |p.dices| ==> p.dices[k].sidesCount == p.dices[0].sidesCount)
    && p.dices[0].sidesCount >= 0
  }

  /** The expression a pending roll stands for: its string, `len(dices)`
      dice of `dices[0].sides_count` sides, and its addition. */
  function View(p: DiceRollToExecute): Expression
    requires Shaped(p)
  {
    Expression(p.diceRoll, RollSpec(|p.dices|, p.dices[0].sidesCount, p.addition))
  }

  function Views(ps: seq<DiceRollToExecute>): (es: seq<Expression>)
    requires forall k :: 0 <= k < |ps| ==> Shaped(ps[k])
    ensures |es| == |ps|
  {
    if ps == [] then [] else Views(ps[..|ps| - 1]) + [View(ps[|ps| - 1])]
  }

  lemma ViewsSnoc(ps: seq<DiceRollToExecute>, p: DiceRollToExecute)
    requires forall k :: 0 <= k < |ps| ==> Shaped(ps[k])
    requires Shaped(p)
    ensures Views(ps + [p]) == Views(ps) + [View(p)]
  {
    assert (ps + [p])[..|ps|] == ps;
  }

  lemma {:induction false} ViewsAt(ps: seq<DiceRollToExecute>, i: nat)
    requires forall k :: 0 <= k < |ps| ==> Shaped(ps[k])
    requires i < |ps|
    ensures Views(ps)[i] == View(ps[i])
  {
    if i < |ps| - 1 {
      ViewsAt(ps[..|ps| - 1], i);
    }
  }

  /** Every expression's string decodes to that very expression. */
  predicate AllParsed(es: seq<Expression>)
  {
    forall i {:trigger Parse(es[i].raw)} :: 0 <= i < |es| ==> Parse(es[i].raw) == Some(es[i].spec)
  }

  /** `[Dice(sides) for _ in range(count)]`: `count` dice of `sides` sides;
      fails like `Dice(sides)` does when `sides` is below 2 and a die is made. */
  method MakeDice(count: nat, sides: int) returns (r: Result<seq<Dice>>)
    ensures r.Ok? <==> count == 0 || sides > 1
    ensures r.Err? ==> r.error == InvalidDie
    ensures r.Ok? ==> |r.value| == count && forall k :: 0 <= k < count ==> r.value[k].sidesCount == sides
  {
    var dices: seq<Dice> := [];
    for i := 0 to count
      invariant |dices| == i
      invariant forall k :: 0 <= k < i ==> dices[k].sidesCount == sides
      invariant i > 0 ==> sides > 1
    {
      var d := Dice.New(sides);
      if d.Err? {
        return Err(d.error);
      }
      dices := dices + [d.value];
    }
    return Ok(dices);
  }

  /** A string the parser refuses, after a prefix it accepts, fails the
      whole batch with that string. */
  lemma BatchFails(parse: string -> Result<RollSpec>, throws: seq<string>, i: nat)
    requires i < |throws| && ParseAllWith(parse, throws[..i]).Ok? && parse(throws[i]).Err?
    ensures ParseAllWith(parse, throws) == Err(parse(throws[i]).error)
  {
    ParseAllWithSnoc(parse, throws, i);
    ParseAllWithStops(parse, throws, i + 1);
  }

  /** A string the parser accepts extends the batch by the pending roll made
      from it. */
  lemma BatchExtends(parse: string -> Result<RollSpec>, ps: seq<DiceRollToExecute>, p: DiceRollToExecute,
                     throws: seq<string>, i: nat)
    requires (forall k :: 0 <= k < |ps| ==> Shaped(ps[k])) && Shaped(p)
    requires i < |throws| && ParseAllWith(parse, throws[..i]) == Ok(Views(ps))
    requires parse(throws[i]).Ok? && View(p) == Expression(throws[i], parse(throws[i]).value)
    ensures ParseAllWith(parse, throws[..i + 1]) == Ok(Views(ps + [p]))
  {
    ParseAllWithSnoc(parse, throws, i);
    ViewsSnoc(ps, p);
  }

  /** One iteration of the constructor's loop: match the string, convert its
      groups, make its dice, and record the addition (0 when group 3 is
      absent). */
  method ToExecute(throw: string) returns (r: Result<DiceRollToExecute>)
    ensures r.Ok? <==> Convert(throw).Ok?
    ensures r.Err? ==> r.error == Convert(throw).error
    ensures r.Ok? ==> Shaped(r.value) && View(r.value) == Expression(throw, Convert(throw).value)
  {
    var spec := Convert(throw);
    if spec.Err? {
      return Err(spec.error);
    }
    assert spec.value.sides > 1 by {
      assert Parse(throw) == Some(spec.value);
      assert ValidSpec(spec.value);
    }
    var made := MakeDice(spec.value.count, spec.value.sides);
    return Ok(DiceRollToExecute(throw, made.value, spec.value.addition));
  }

  class Roller {
    var rollsToExecute: seq<DiceRollToExecute>

    /** Every pending roll has its dice, and its string decodes to them. */
    ghost predicate Valid()
      reads this
    {
      && (forall k :: 0 <= k < |rollsToExecute| ==> Shaped(rollsToExecute[k]))
      && AllParsed(Views(rollsToExecute))
    }

    /** The pending rolls as expressions. */
    function Pending(): seq<Expression>
      reads this
      requires forall k :: 0 <= k < |rollsToExecute| ==> Shaped(rollsToExecute[k])
    {
      Views(rollsToExecute)
    }

    constructor Empty()
      ensures Valid() && rollsToExecute == []
    {
      rollsToExecute := [];
    }

    /** `Roller(dices)`: one pending roll per string, in order; the first
        string that does not match the pattern fails the whole batch. */
    static method Create(throws: seq<string>) returns (r: Result<Roller>)
      ensures r.Ok? <==> ParseAll(throws).Ok?
      ensures r.Err? ==> r.error == ParseAll(throws).error
      ensures r.Ok? ==> r.value.Valid() && r.value.Pending() == ParseAll(throws).value
    {
      var roller := new Roller.Empty();
      for i := 0 to |throws|
        invariant forall k :: 0 <= k < |roller.rollsToExecute| ==> Shaped(roller.rollsToExecute[k])
        invariant ParseAll(throws[..i]) == Ok(roller.Pending())
      {
        var failure := roller.Append(throws, i);
        if failure.Some? {
          return Err(failure.value);
        }
      }
      assert throws[..|throws|] == throws;
      assert roller.Valid() by {
        ParseAllParsed(throws);
      }
      return Ok(roller);
    }

    /** The body of the constructor's loop for the `i`-th string: either
        records its pending roll, or reports that the batch fails on it. */
    method Append(throws: seq<string>, i: nat) returns (failure: Option<RollError>)
      requires forall k :: 0 <= k < |rollsToExecute| ==> Shaped(rollsToExecute[k])
      requires i < |throws| && ParseAll(throws[..i]) == Ok(Pending())
      modifies this
      ensures forall k :: 0 <= k < |rollsToExecute| ==> Shaped(rollsToExecute[k])
      ensures failure.None? ==> ParseAll(throws[..i + 1]) == Ok(Pending())
      ensures failure.Some? ==> ParseAll(throws) == Err(failure.value) && rollsToExecute == old(rollsToExecute)
    {
      var pending := ToExecute(throws[i]);
      if pending.Err? {
        BatchFails(Convert, throws, i);
        return Some(pending.error);
      }
      BatchExtends(Convert, rollsToExecute, pending.value, throws, i);
      rollsToExecute := rollsToExecute + [pending.value];
      return None;
    }

    /** `roll()`: throws every pending roll in order, each die taking the next
        outcome of the random source. */
    method Roll(rng: RandomSource) returns (executed: seq<DiceRoll>)
      requires Valid()
      requires DrawsFit(Pending(), rng.draws)
      modifies rng
      ensures executed == RollAll(Pending(), old(rng.draws))
      ensures rng.draws == old(rng.draws)[TotalDice(Pending())..]
    {
      ghost var es := Pending();
      ghost var initial := rng.draws;
      ghost var all := RollAll(es, initial);
      executed := [];
      for i := 0 to |rollsToExecute|
        invariant executed == all[..i]
        invariant Offset(es, i) <= |initial| && rng.draws == initial[Offset(es, i)..]
      {
        var made := ExecuteAt(rollsToExecute, i, rng, initial);
        executed := executed + [made];
        assert all[..i + 1] == all[..i] + [all[i]];
      }
      assert all[..|es|] == all;
      OffsetAll(es);
    }
  }

  /** What one iteration of `roll()` relies on, for a pending roll `p` that
      stands for the `i`-th expression (`StepOffset`, `StepFits`,
      `StepResult`): its dice take the next outcomes, which suit them, and the
      `i`-th result is `p` thrown with them. */
  lemma StepOffset(es: seq<Expression>, p: DiceRollToExecute, draws: seq<int>, i: nat)
    requires Shaped(p) && DrawsFit(es, draws) && i < |es| && es[i] == View(p)
    ensures Offset(es, i + 1) == Offset(es, i) + |p.dices| <= |draws|
  {
    OffsetNext(es, i);
  }

  lemma StepFits(es: seq<Expression>, p: DiceRollToExecute, draws: seq<int>, i: nat)
    requires Shaped(p) && DrawsFit(es, draws) && i < |es| && es[i] == View(p)
    requires Offset(es, i) + |p.dices| <= |draws|
    ensures forall k :: 0 <= k < |p.dices| ==> 1 <= draws[Offset(es, i)..][k] <= p.dices[0].sidesCount
  {
    DrawsFitAt(es, draws, i);
  }

  lemma StepResult(es: seq<Expression>, p: DiceRollToExecute, draws: seq<int>, i: nat)
    requires Shaped(p) && DrawsFit(es, draws) && i < |es| && es[i] == View(p)
    requires Offset(es, i) + |p.dices| <= |draws|
    ensures RollAll(es, draws)[i] == Executed(View(p), draws[Offset(es, i)..Offset(es, i) + |p.dices|])
  {
    RollAllAt(es, draws, i);
  }

  /** The `i`-th iteration of `roll()`, with the random source positioned
      after the outcomes the earlier pending rolls took: it yields the
      `i`-th result of the batch and moves the source past its own outcomes. */
  method ExecuteAt(ps: seq<DiceRollToExecute>, i: nat, rng: RandomSource, ghost draws: seq<int>) returns (d: DiceRoll)
    requires forall k :: 0 <= k < |ps| ==> Shaped(ps[k])
    requires AllParsed(Views(ps)) && DrawsFit(Views(ps), draws) && i < |ps|
    requires Offset(Views(ps), i) <= |draws| && rng.draws == draws[Offset(Views(ps), i)..]
    modifies rng
    ensures Offset(Views(ps), i + 1) <= |draws|
    ensures d == RollAll(Views(ps), draws)[i]
    ensures rng.draws == draws[Offset(Views(ps), i + 1)..]
  {
    ghost var es, lo, n := Views(ps), Offset(Views(ps), i), |ps[i].dices|;
    assert es[i] == View(ps[i]) by { ViewsAt(ps, i); }
    StepOffset(es, ps[i], draws, i);
    StepFits(es, ps[i], draws, i);
    StepResult(es, ps[i], draws, i);
    SliceAfter(draws, lo, n);
    d := Execute(ps[i], rng, es, i);
  }

  /** Taking `n` items from the `lo`-th on, and dropping them. */
  lemma SliceAfter(draws: seq<int>, lo: nat, n: nat)
    requires lo + n <= |draws|
    ensures draws[lo..][..n] == draws[lo..lo + n] && draws[lo..][n..] == draws[lo + n..]
  {
  }

  /** One iteration of `roll()`: throws the dice of a pending roll and
      records the result, whose string is validated against the pattern. */
  method Execute(p: DiceRollToExecute, rng: RandomSource, ghost es: seq<Expression>, ghost i: nat) returns (d: DiceRoll)
    requires Shaped(p) && AllParsed(es) && i < |es| && es[i] == View(p)
    requires |rng.draws| >= |p.dices|
    requires forall k :: 0 <= k < |p.dices| ==> 1 <= rng.draws[k] <= p.dices[0].sidesCount
    modifies rng
    ensures d == Executed(View(p), old(rng.draws)[..|p.dices|])
    ensures rng.draws == old(rng.draws)[|p.dices|..]
  {
    assert Parse(es[i].raw) == Some(es[i].spec);
    var outcomes := ThrowAll(p.dices, rng);
    var stats := StatsOf(|p.dices|, p.dices[0].sidesCount, p.addition);
    var made := NewDiceRoll(p.diceRoll, Sum(outcomes) + p.addition, outcomes, stats);
    d := made.value;
  }

  /** `[dice.roll() for dice in dices]`: one outcome per die, in order, each
      the next outcome of the random source. */
  method ThrowAll(dices: seq<Dice>, rng: RandomSource) returns (outcomes: seq<int>)
    requires |rng.draws| >= |dices|
    requires forall k :: 0 <= k < |dices| ==> 1 <= rng.draws[k] <= dices[k].sidesCount
    modifies rng
    ensures outcomes == old(rng.draws)[..|dices|]
    ensures rng.draws == old(rng.draws)[|dices|..]
  {
    outcomes := [];
    for j := 0 to |dices|
      invariant outcomes == old(rng.draws)[..j] && rng.draws == old(rng.draws)[j..]
    {
      var o := dices[j].Roll(rng);
      outcomes := outcomes + [o];
    }
  }

  // ---------------------------------------------------------------------
  // The whole pipeline

  /** A batch that constructs is rolled into one result per input string, in
      input order (duplicates included); each result echoes its string, which
      matches the pattern again and decodes to as many dice as the result
      holds outcomes. */
  lemma BatchEchoesInput(throws: seq<string>, draws: seq<int>, i: nat)
    requires ParseAll(throws).Ok? && |draws| >= TotalDice(ParseAll(throws).value) && i < |throws|
    ensures |RollAll(ParseAll(throws).value, draws)| == |throws|
    ensures RollAll(ParseAll(throws).value, draws)[i].diceRoll == throws[i]
    ensures Matches(throws[i])
    ensures Parse(throws[i]).value.count == |RollAll(ParseAll(throws).value, draws)[i].subsequentRolls|
  {
    ParseAllOk(throws);
    RollAllShape(ParseAll(throws).value, draws, i);
  }

  /** The roller's first test, `1k20`: the batch constructs... */
  lemma SingleDiceParsed()
    ensures ParseAll(["1k20"]) == Ok([Expression("1k20", RollSpec(1, 20, 0))])
  {
    assert ["1k20"][..0] == [] && ["1k20"][..1] == ["1k20"];
    assert ParseAllWith(Convert, []) == Ok([]);
    AcceptsTwentySides();
    ParseAllWithSnoc(Convert, ["1k20"], 0);
    assert [] + [Expression("1k20", RollSpec(1, 20, 0))] == [Expression("1k20", RollSpec(1, 20, 0))];
  }

  /** ...and thrown with outcome 3 gives one result that echoes the string,
      totals 3 and holds that single outcome. */
  lemma SingleDiceRolled()
    ensures RollAll([Expression("1k20", RollSpec(1, 20, 0))], [3]) == [DiceRoll("1k20", 3, [3], StatsOf(1, 20, 0))]
  {
    var es := [Expression("1k20", RollSpec(1, 20, 0))];
    assert [3][..1] == [3] && [3][1..] == [] && es[1..] == [];
    assert Sum([3]) == 3 by {
      assert [3][..0] == [];
    }
  }

  lemma ParseAllWithPair(parse: string -> Result<RollSpec>, a: string, b: string)
    requires parse(a).Ok? && parse(b).Ok?
    ensures ParseAllWith(parse, [a, b]) == Ok([Expression(a, parse(a).value), Expression(b, parse(b).value)])
  {
    assert [a, b][..0] == [] && [a, b][..1] == [a] && [a, b][..2] == [a, b];
    var ea, eb := Expression(a, parse(a).value), Expression(b, parse(b).value);
    assert ParseAllWith(parse, []) == Ok([]);
    ParseAllWithSnoc(parse, [a, b], 0);
    assert ParseAllWith(parse, [a]) == Ok([] + [ea]);
    ParseAllWithSnoc(parse, [a, b], 1);
    assert [] + [ea] + [eb] == [ea, eb];
  }

  /** The roller's second test, `1k10` and `3k6`: the batch constructs... */
  lemma MultipleDicesParsed()
    ensures ParseAll(["1k10", "3k6"]) == Ok([Expression("1k10", RollSpec(1, 10, 0)), Expression("3k6", RollSpec(3, 6, 0))])
  {
    AcceptsTenSides();
    AcceptsThreeDice();
    ParseAllWithPair(Convert, "1k10", "3k6");
  }

  /** ...and thrown with outcomes 8, 3, 5, 4 gives 8 for the first string and
      3 + 5 + 4 = 12 for the second. */
  lemma RollingMultipleDices()
    ensures RollAll([Expression("1k10", RollSpec(1, 10, 0)), Expression("3k6", RollSpec(3, 6, 0))], [8, 3, 5, 4]) ==
      [DiceRoll("1k10", 8, [8], StatsOf(1, 10, 0)), DiceRoll("3k6", 12, [3, 5, 4], StatsOf(3, 6, 0))]
  {
    var es := [Expression("1k10", RollSpec(1, 10, 0)), Expression("3k6", RollSpec(3, 6, 0))];
    var draws := [8, 3, 5, 4];
    assert draws[..1] == [8] && draws[1..] == [3, 5, 4] && draws[1..][..3] == [3, 5, 4];
    assert Sum([8]) == 8 && Sum([3, 5, 4]) == 12 by {
      assert [8][..0] == [] && [3, 5, 4][..2] == [3, 5] && [3, 5][..1] == [3];
    }
    assert es[1..][1..] == [];
  }
}
