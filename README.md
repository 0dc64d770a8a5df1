# dice-roller, modelled in Dafny

`dice-roller` rolls tabletop dice written as roll strings such as `3k6`,
`1d20` or `12k4+2`: a count of dice, the separator `k` or `d`, a side count
from the fixed set 4, 6, 8, 10, 12, 20, and an optional signed modifier.
`Roller(dices)` validates every string against one regular expression and
turns each into a pending roll (a list of `Dice` and an addition);
`Roller.roll()` throws every pending roll in order and returns one
`DiceRoll` per string. Each result carries the string, the total (the sum of
the outcomes plus the addition), the outcome of every die, and
`DiceRollStats`: the minimum, the maximum and the rounded-up average the
expression can produce.

The model has five modules:

- `Wrappers` (`wrappers.dfy`): `Option`, `Result` and the four `ValueError`s
  the core can raise: an invalid roll string, an unknown pattern in
  `DiceRoll`, a die with fewer than two sides, and `int()` refusing a numeral
  longer than its digit limit.
- `RollPattern` (`pattern.dfy`): the roll pattern under Python's `re.match`
  semantics. `Match` scans a string left to right into its capture groups.
  `WellFormed`/`Text` describe the same language declaratively, and
  `MatchIff` proves the two agree. `Parse` decodes the groups into
  unbounded integers. `Convert` is what the constructor does with one string:
  it also refuses, as `int()` does since Python 3.11, a numeral of more than
  4300 digits (the package requires Python 3.12 or later).
- `RollStats` (`stats.dfy`): `DiceRollStats` and the statistics formula. The
  average is taken in exact real arithmetic and proved equal to an integer
  closed form.
- `Dices` (`dice.dfy`): the `Dice` class, and `RandomSource`, which stands for
  `random.randint`. `RandomSource` is the sequence of outcomes `randint` will
  hand out next, which is how the test suite replaces it as well.
- `Rolling` (`rolling.dfy`): `DiceRoll`, `DiceRollToExecute` and the `Roller`
  class. `ParseAll` specifies what the constructor builds from a batch of
  strings. `RollAll` specifies what `roll()` returns for a given sequence of
  outcomes. `Roller.Create` and `Roller.Roll` are loops proved against these
  two functions.

The pattern is applied with `re.match` and ends in `$`, and Python's `$`
also matches just before one final newline. So `"1k20\n"` is accepted and
decodes like `"1k20"`, while `"1k20\n\n"` is not: `$` does not reject a
single trailing newline (`TrailingNewline`, `SecondNewlineRejected`,
`AcceptsTrailingNewline`).

## Model

| member | source | states |
|---|---|---|
| RollPattern.Match | dice_roller/roller.py:17 | a match yields well-formed groups: a count without leading zero, `k` or `d`, a side count from the alternation, and optionally a sign followed by a numeral without leading zero. The groups spell exactly the matched string, with at most one final newline after `$` |
| RollPattern.MatchComplete | dice_roller/roller.py:17 | every well-formed set of groups is matched in its own text and recovered exactly |
| RollPattern.MatchIff | dice_roller/roller.py:17 | a string matches with groups `g` if and only if `g` is well-formed and spells the string, so the groups of a match are unique |
| RollPattern.Decode | dice_roller/roller.py:55-62 | the decoded count is at least 1 and the side count is one of 4, 6, 8, 10, 12, 20; the addition is 0 exactly when group 3 is absent, and positive exactly when its sign is `+` |
| RollPattern.Parse | dice_roller/roller.py:50-55 | decoding with unbounded integers succeeds exactly when the pattern matches, and a decoded expression is always valid |
| RollPattern.Value | dice_roller/roller.py:55-62 | `int()` of a string of decimal digits is below 10 to the number of digits, and at least 10 to one less when there is no leading zero |
| RollPattern.Convert | dice_roller/roller.py:50-62 | one string is converted exactly when it matches and neither its count nor its modifier has more than 4300 digits; then it gives the decoded expression. A non-matching string gives the invalid-pattern error carrying the string, and a too-long numeral the digit-limit error with its digit count above 4300 |
| RollPattern.ConvertFormat | dice_roller/roller.py:50-62 | round trip: the canonical spelling of a valid expression whose count and addition are below 10^4300 in magnitude converts back to that expression |
| RollPattern.FormatWithinLimit | dice_roller/roller.py:55-62 | numbers below 10^4300 in magnitude are spelt with at most 4300 digits |
| RollPattern.ShortDigits | dice_roller/roller.py:55 | a number below 10^k is spelt with at most `k` digits |
| RollPattern.Pow10Monotone | dice_roller/roller.py:55 | powers of ten grow with the exponent |
| RollPattern.LongCountRejected | dice_roller/roller.py:55 | a count of 4301 ones followed by `k6` matches the pattern, yet conversion fails with the digit-limit error for 4301 digits |
| RollPattern.ValueOfDigits | dice_roller/roller.py:55 | `int()` of the decimal spelling of `n` is `n` |
| RollPattern.DigitsOfSides | dice_roller/roller.py:17 | every allowed side count is spelt by one of the alternatives of group 2, which reads back as that count |
| RollPattern.FormatGroups | dice_roller/roller.py:17 | every valid expression has well-formed groups that decode to it |
| RollPattern.ParseFormat | dice_roller/roller.py:17 | round trip: parsing the canonical spelling of a valid expression gives that expression back |
| RollPattern.SeparatorsInterchangeable | dice_roller/roller.py:17 | replacing a `k` by a `d`, or a `d` by a `k`, changes neither whether the string matches nor what it decodes to |
| RollPattern.OnlySeparator | dice_roller/roller.py:17 | in a matching string the only `k` or `d` is the separator, right after the count |
| RollPattern.OnlySign | dice_roller/roller.py:17 | in a matching string a `+` or `-` occurs only as the sign of group 3, right after the side count |
| RollPattern.TrailingNewline | dice_roller/roller.py:17 | one final newline after a matching string is accepted and changes nothing in the decoding |
| RollPattern.SecondNewlineRejected | dice_roller/roller.py:17 | no string followed by two newlines matches |
| RollPattern.AcceptsSingleDie | dice_roller/roller.py:17 | `1k4` decodes to one 4-sided die, no addition (both as a pattern decode and through `Convert`) |
| RollPattern.AcceptsTenSides | dice_roller/roller.py:17 | `1k10` decodes to one 10-sided die (both as a pattern decode and through `Convert`) |
| RollPattern.AcceptsTwentySides | dice_roller/roller.py:17 | `1k20` decodes to one 20-sided die (both as a pattern decode and through `Convert`) |
| RollPattern.AcceptsThreeDice | dice_roller/roller.py:17 | `3k6` decodes to three 6-sided dice (both as a pattern decode and through `Convert`) |
| RollPattern.AcceptsDSeparator | dice_roller/roller.py:17 | `1d20` decodes like `1k20` (both as a pattern decode and through `Convert`) |
| RollPattern.AcceptsMultiDigitCount | dice_roller/roller.py:17 | `34k6` decodes to 34 dice (both as a pattern decode and through `Convert`) |
| RollPattern.AcceptsPlusModifier | dice_roller/roller.py:17 | `12k4+2` decodes to addition +2 (both as a pattern decode and through `Convert`) |
| RollPattern.AcceptsMinusModifier | dice_roller/roller.py:17 | `15k4-45` decodes to addition -45 (both as a pattern decode and through `Convert`) |
| RollPattern.AcceptsTrailingNewline | dice_roller/roller.py:17 | `1k20` followed by a newline is accepted as `1k20` (both as a pattern decode and through `Convert`) |
| RollPattern.RejectedMissingCount | dice_roller/roller.py:17 | `k10` does not match |
| RollPattern.RejectedSides | dice_roller/roller.py:17 | `1k3` does not match |
| RollPattern.RejectedLeadingZero | dice_roller/roller.py:17 | `01k6` does not match |
| RollPattern.RejectedDoubleSign | dice_roller/roller.py:17 | no well-formed groups spell `1k20++1`, so by `MatchIff` it does not match |
| RollPattern.RejectedChainedSeparator | dice_roller/roller.py:17 | no well-formed groups spell `1k20k6` |
| RollPattern.RejectedTwoModifiers | dice_roller/roller.py:17 | no well-formed groups spell `1k20+10+12` |
| RollStats.Ceiling | dice_roller/roller.py:86 | `math.ceil`: the least integer not below `x` |
| RollStats.AverageIsIntegerCeiling | dice_roller/roller.py:86-90 | the real-valued average before the addition equals the integer `ceil(count * (sides + 1) / 2)` |
| RollStats.StatsClosedForm | dice_roller/roller.py:83-91 | min, max and average in integer closed form; the addition shifts each of the three by exactly the addition |
| RollStats.AverageWithinBounds | dice_roller/roller.py:83-91 | for at least one die with at least one side, the average lies between the minimum and the maximum |
| RollStats.AverageExamples | dice_roller/roller.py:83-91 | `1k20` has average 11, `3k6` has 11, `2k20+16` has 37 (with their minima and maxima) |
| RollStats.StatsOf | dice_roller/roller.py:83-91 | the average is `(count * (sides + 1) + 1) / 2` (integer division) plus the addition |
| RollStats.Sum | dice_roller/roller.py:81 | `sum()` added from the left equals the total added from the right |
| RollStats.SumRightSnoc | dice_roller/roller.py:81 | adding from the right, the last item can be split off |
| RollStats.SumWithinBounds | dice_roller/roller.py:81-85 | with every outcome in [1, sides], the sum lies between the number of outcomes and that number times `sides` |
| RollStats.TotalWithinBounds | dice_roller/roller.py:81-85 | with every outcome in [1, sides], the total plus the addition lies between the minimum and the maximum |
| Dices.RandomSource.RandInt | dice_roller/dice.py:20 | `randint(lo, hi)` returns the next outcome, which lies in [lo, hi], and consumes it |
| Dices.Dice.constructor | dice_roller/dice.py:12-16 | a die keeps the side count it was made with |
| Dices.Dice.New | dice_roller/dice.py:12-16 | a die is made exactly when the side count exceeds 1; otherwise the error is the one the source raises, which carries no data |
| Dices.Dice.Roll | dice_roller/dice.py:18-20 | the outcome lies in [1, sides_count] and is the next outcome of the random source, which it consumes |
| Dices.DiceExamples | dice_roller/dice_test.py:12-36 | side counts 0 and 1 are refused; 4, 6, 8, 10, 12 and 20 are accepted and kept |
| Rolling.NewDiceRoll | dice_roller/roller.py:36-39 | a `DiceRoll` is built, unchanged, exactly when its string matches the pattern; otherwise the error is the unknown-pattern error |
| Rolling.MakeDice | dice_roller/roller.py:55 | `count` dice, each with the given side count; fails exactly when a die is made with fewer than two sides |
| Rolling.ToExecute | dice_roller/roller.py:50-71 | a pending roll is made exactly when the string converts (it matches, within the digit limit). It has `count` dice of `sides` sides, all alike, and the decoded addition (0 without group 3). Otherwise the error is the conversion's: invalid pattern with the string, or the digit limit |
| Rolling.ParseAll | dice_roller/roller.py:45-71 | a successful batch holds one expression per string, in order, each carrying its own string |
| Rolling.ParseAllOk | dice_roller/roller.py:45-71 | the constructor succeeds exactly when every string matches with its numbers within the digit limit, and then it holds one decoded expression per string, in order |
| Rolling.ParseAllErr | dice_roller/roller.py:49-62 | a failing batch fails on its first string that does not convert; every earlier string matches within the limit, and the error is the invalid-pattern error with that string when it does not match, the digit-limit error otherwise |
| Rolling.FirstUnconverted | dice_roller/roller.py:49-62 | a failing batch reports the error of its first string that does not convert |
| Rolling.ConvertFailure | dice_roller/roller.py:50-62 | a string fails to convert either because it does not match (invalid pattern, with the string) or because a numeral of a match is past the digit limit |
| Rolling.ParseAllParsed | dice_roller/roller.py:49-55 | every expression of a successful batch decodes from its own string |
| Rolling.ParseAllWithSnoc | dice_roller/roller.py:49-71 | one more string extends the batch by that string's expression, or fails it with that string's conversion error |
| Rolling.BatchFails | dice_roller/roller.py:50-62 | a string that does not convert after an accepted prefix fails the whole batch with its error |
| Rolling.BatchExtends | dice_roller/roller.py:57-71 | an accepted string extends the pending rolls by the roll made from it |
| Rolling.Roller.Empty | dice_roller/roller.py:48 | a roller starts with no pending roll |
| Rolling.Roller.Create | dice_roller/roller.py:45-71 | the constructor succeeds exactly when the specification batch does, with the same error otherwise (invalid pattern or digit limit). On success every pending roll is well-shaped and decodes from its string, and the pending rolls are the specification batch |
| Rolling.Roller.Append | dice_roller/roller.py:49-71 | one iteration of the constructor's loop keeps the pending rolls equal to the specification of the strings read so far, or reports that the whole batch fails on this string and leaves the pending rolls unchanged |
| Rolling.Roller.Roll | dice_roller/roller.py:73-96 | `roll()` returns exactly the specification's results for the outcomes the random source holds, and consumes one outcome per die thrown |
| Rolling.ThrowAll | dice_roller/roller.py:77 | one outcome per die, in order: the next outcomes of the random source, which are consumed |
| Rolling.Execute | dice_roller/roller.py:77-94 | one pending roll thrown gives the result of its expression with the outcomes it takes |
| Rolling.ExecuteAt | dice_roller/roller.py:76-94 | the `i`-th iteration of `roll()` yields the `i`-th specified result and leaves the source just past that roll's outcomes |
| Rolling.StepOffset | dice_roller/roller.py:76-77 | the `i`-th pending roll takes the outcomes right after those of the rolls before it, and there are enough of them |
| Rolling.StepFits | dice_roller/roller.py:77 | the outcomes the `i`-th pending roll takes suit its dice |
| Rolling.StepResult | dice_roller/roller.py:78-94 | the `i`-th result is the `i`-th pending roll thrown with its own outcomes |
| Rolling.OffsetNext | dice_roller/roller.py:76-77 | each expression's outcomes start where the previous expression's end, within the batch's outcomes |
| Rolling.RollAllAt | dice_roller/roller.py:76-94 | the `i`-th result is the `i`-th expression thrown with the `count` outcomes after those of the expressions before it |
| Rolling.RollAllShape | dice_roller/roller.py:78-94 | each result echoes its string and holds exactly `count` outcomes. Its total is their sum plus the addition, and its statistics come from the expression |
| Rolling.StatsIndependentOfOutcomes | dice_roller/roller.py:83-91 | the statistics of a result do not depend on the outcomes thrown |
| Rolling.DrawsFitAt | dice_roller/roller.py:77 | outcomes that suit the batch give each expression outcomes in [1, sides] |
| Rolling.ResultWithinStats | dice_roller/roller.py:77-91 | with outcomes that randint can give, every outcome lies in [1, sides], and the total and the average lie between the minimum and the maximum |
| Rolling.Executed | dice_roller/roller.py:77-94 | a result names its roll string and keeps its outcomes; thrown with one outcome in [1, sides] per die of a valid expression, its total and its average lie between its minimum and its maximum |
| Rolling.RollAll | dice_roller/roller.py:73-96 | one result per pending roll, in order, each naming its roll string and holding one outcome per die |
| Rolling.RollAllWithEcho | dice_roller/roller.py:75-96 | when each throw echoes its expression and outcomes, the loop's results echo the batch's strings and die counts |
| Rolling.OutcomesAt | dice_roller/roller.py:76-77 | with outcomes that suit the batch, the `i`-th result is its expression thrown with one outcome per die, each in [1, sides] |
| Rolling.SliceAfter | dice_roller/roller.py:77 | the outcomes a roll takes from the source, and those it leaves, are the matching slices of the whole sequence |
| Rolling.BatchEchoesInput | dice_roller/roller.py:75-96 | a batch that constructs rolls into one result per input string, in input order. Each result echoes its string, which matches the pattern, and holds as many outcomes as the string has dice |
| Rolling.SingleDiceParsed | dice_roller/roller_test.py:13-19 | the batch `1k20` constructs into one 20-sided die |
| Rolling.SingleDiceRolled | dice_roller/roller_test.py:19-25 | `1k20` thrown with outcome 3 gives one result echoing `1k20`, total 3, outcomes `[3]` |
| Rolling.MultipleDicesParsed | dice_roller/roller_test.py:27-33 | the batch `1k10`, `3k6` constructs into one 10-sided die and three 6-sided dice |
| Rolling.RollingMultipleDices | dice_roller/roller_test.py:29-45 | thrown with outcomes 8, 3, 5, 4: the first result is 8 with outcomes `[8]`, the second is 12 with outcomes `[3, 5, 4]` |

## Left out

- `Roller._init_randomness` (dice_roller/roller.py:98-115) is not modelled: seeding `random` from `os.urandom`, the time-based fallback and its printed warning. The random state is the explicit outcome sequence of `RandomSource`.
- Dices.RandomSource.RandInt: uniformity of `random.randint` is not modelled. That its outcome lies in [lo, hi] is stated as a precondition on the outcome sequence rather than derived.
- RollStats.StatsOf: the average is computed in exact real arithmetic. Python's floating point gives the same value for all realistic counts, but is not modelled.
- Rolling.RollAll and Rolling.Roller.Roll: the outcomes are taken from an explicit sequence given in advance. A roll with too few outcomes, or with outcomes outside [1, sides], is excluded by `DrawsFit` rather than modelled.
- Rolling.Execute: `DiceRoll.__post_init__` cannot fail inside `roll()`, because every pending string already matched. The method builds the result through `NewDiceRoll` and proves that it succeeds.
- RollPattern.Convert: `int()`'s digit limit is modelled at its default of 4300. Python lets a program or the environment change it (`sys.set_int_max_str_digits`, `PYTHONINTMAXSTRDIGITS`), which is not modelled. Apart from that limit the integers are unbounded, as in Python, and nothing in the core wraps around.
- Rolling.ToExecute: a count within the digit limit can still be too large to allocate its list of dice. Running out of memory is not modelled.
- `dice_roller/__main__.py`, the command-line front end (argument parsing, help text, output formatting, exit codes), is not part of this model; nor are `setup.py` or the package metadata in `dice_roller/__init__.py`.
- RollPattern.RejectedDoubleSign, RollPattern.RejectedChainedSeparator, RollPattern.RejectedTwoModifiers: the rejection is stated on the groups ("no well-formed groups spell the string") rather than as `!Matches(s)`. The two are equivalent by `MatchIff`.
