/**
 * The roll-expression pattern
 *
 *     ^([1-9][0-9]*)[kd](4|6|8|10|12|20)([+-][1-9]+[0-9]*)?$
 *
 * matched with Python's `re.match`: anchored at the start, and `$` matches
 * either at the very end or just before one final newline character.
 *
 * `WellFormed` and `Text` describe the language declaratively (a string
 * matches exactly when it is the text of some well-formed set of groups);
 * `Match` is a left-to-right scanner, proved sound by its contract and
 * complete by `MatchComplete`. `Parse` decodes the groups into
 * (count, sides, addition) the way `int(match.group(n))` does.
 */
module RollPattern {
  import opened Wrappers

  /** The side counts the pattern's alternation `(4|6|8|10|12|20)` admits. */
  predicate AllowedSides(n: int) { n == 4 || n == 6 || n == 8 || n == 10 || n == 12 || n == 20 }
  const SidesAlternatives: seq<string> := ["4", "6", "8", "10", "12", "20"]

  predicate IsDigit(c: char) { '0' <= c <= '9' }
  predicate IsNonZeroDigit(c: char) { '1' <= c <= '9' }
  predicate IsSeparator(c: char) { c == 'k' || c == 'd' }
  predicate IsSign(c: char) { c == '+' || c == '-' }

  predicate AllDigits(s: string) { forall i :: 0 <= i < |s| ==> IsDigit(s[i]) }

  /** `[1-9][0-9]*`, and equally `[1-9]+[0-9]*`: a decimal without leading zero. */
  predicate IsNumeral(s: string) { |s| >= 1 && IsNonZeroDigit(s[0]) && AllDigits(s) }

  /** Group 3 split into its sign and its digits. */
  datatype Modifier = Modifier(sign: char, digits: string)

  /** What a successful match captures: group 1, the separator, group 2,
      the optional group 3, and whether `$` matched before a final newline. */
  datatype Groups = Groups(count: string, separator: char, sides: string, modifier: Option<Modifier>, newline: bool)

  predicate WellFormed(g: Groups) {
    && IsNumeral(g.count)
    && IsSeparator(g.separator)
    && g.sides in SidesAlternatives
    && (g.modifier.Some? ==> IsSign(g.modifier.value.sign) && IsNumeral(g.modifier.value.digits))
  }

  function ModifierText(m: Option<Modifier>): string {
    match m
    case None => ""
    case Some(Modifier(sign, digits)) => [sign] + digits
  }

  /** The part of the string the pattern consumes before `$`. */
  function BodyText(g: Groups): string {
    g.count + [g.separator] + g.sides + ModifierText(g.modifier)
  }

  /** The whole string a match with these groups was made on. */
  function Text(g: Groups): string {
    BodyText(g) + (if g.newline then "\n" else "")
  }

  /** Index of the first `k` or `d` in `s`, or `|s|` when there is none. */
  function SeparatorIndex(s: string): (j: nat)
    ensures j <= |s|
    ensures j < |s| ==> IsSeparator(s[j])
    ensures forall k :: 0 <= k < j ==> !IsSeparator(s[k])
  {
    if s == [] then 0
    else if IsSeparator(s[0]) then 0
    else 1 + SeparatorIndex(s[1..])
  }

  /** Length of the alternative of `(4|6|8|10|12|20)` that `rest` starts with;
      0 when it starts with none of them. */
  function SidesLength(rest: string): (n: nat)
    ensures n <= |rest|
    ensures n != 0 ==> rest[..n] in SidesAlternatives
  {
    if |rest| >= 1 && (rest[0] == '4' || rest[0] == '6' || rest[0] == '8') then
      assert rest[..1] == [rest[0]];
      1
    else if |rest| >= 2 && ((rest[0] == '1' && (rest[1] == '0' || rest[1] == '2')) || (rest[0] == '2' && rest[1] == '0')) then
      assert rest[..2] == [rest[0], rest[1]];
      2
    else 0
  }

  /** The optional group 3, `([+-][1-9]+[0-9]*)?`, which must use up the
      rest of the string: `tail` is empty or a sign followed by a numeral. */
  function MatchModifier(count: string, separator: char, sides: string, tail: string): (r: Option<Groups>)
    requires IsNumeral(count) && IsSeparator(separator) && sides in SidesAlternatives
    ensures r.Some? <==> tail == [] || (IsSign(tail[0]) && IsNumeral(tail[1..]))
    ensures r.Some? ==> WellFormed(r.value) && !r.value.newline
    ensures r.Some? ==> r.value.count == count && r.value.separator == separator && r.value.sides == sides
    ensures r.Some? ==> ModifierText(r.value.modifier) == tail
    ensures r.Some? ==> BodyText(r.value) == count + [separator] + sides + tail
  {
    if tail == [] then Some(Groups(count, separator, sides, None, false))
    else if IsSign(tail[0]) && IsNumeral(tail[1..]) then
      assert tail == [tail[0]] + tail[1..];
      Some(Groups(count, separator, sides, Some(Modifier(tail[0], tail[1..])), false))
    else None
  }

  /** Everything after the separator: group 2, `(4|6|8|10|12|20)`, then group 3. */
  function MatchSides(count: string, separator: char, rest: string): (r: Option<Groups>)
    requires IsNumeral(count) && IsSeparator(separator)
    ensures r.Some? ==> WellFormed(r.value) && !r.value.newline
    ensures r.Some? ==> r.value.count == count && r.value.separator == separator
    ensures r.Some? ==> BodyText(r.value) == count + [separator] + rest
  {
    var n := SidesLength(rest);
    if n == 0 then None
    else
      assert count + [separator] + rest == count + [separator] + rest[..n] + rest[n..];
      MatchModifier(count, separator, rest[..n], rest[n..])
  }

  /** The pattern up to (not including) `$`, scanned left to right: group 1
      runs up to the first `k` or `d`. */
  function MatchBody(s: string): (r: Option<Groups>)
    ensures r.Some? ==> WellFormed(r.value) && !r.value.newline && BodyText(r.value) == s
  {
    var j := SeparatorIndex(s);
    if j == |s| || !IsNumeral(s[..j]) then None
    else
      assert s == s[..j] + [s[j]] + s[j + 1..];
      MatchSides(s[..j], s[j], s[j + 1..])
  }

  /** `ROLL_PATTERN.match(s)`: the groups of the match, or None. */
  function Match(s: string): (r: Option<Groups>)
    ensures r.Some? ==> WellFormed(r.value) && Text(r.value) == s
  {
    if |s| > 0 && s[|s| - 1] == '\n' then
      match MatchBody(s[..|s| - 1])
      case None => None
      case Some(g) =>
        assert s == s[..|s| - 1] + "\n";
        Some(g.(newline := true))
    else MatchBody(s)
  }

  predicate Matches(s: string) { Match(s).Some? }

  function Pow10(n: nat): (p: nat)
    ensures p >= 1
  {
    if n == 0 then 1 else 10 * Pow10(n - 1)
  }

  /** The value `int()` gives a string of decimal digits: below 10 to the
      number of digits and, without a leading zero, at least 10 to one less. */
  function Value(ds: string): (v: nat)
    requires AllDigits(ds)
    ensures v < Pow10(|ds|)
    ensures |ds| >= 1 && IsNonZeroDigit(ds[0]) ==> Pow10(|ds| - 1) <= v
  {
    if ds == [] then 0
    else
      var init := ds[..|ds| - 1];
      assert init == [] || init[0] == ds[0];
      Value(init) * 10 + (ds[|ds| - 1] as int - '0' as int)
  }

  /** The decimal spelling of `n` without leading zeros. */
  function Digits(n: nat): (s: string)
    ensures |s| >= 1 && AllDigits(s)
    ensures n >= 1 ==> IsNonZeroDigit(s[0])
  {
    if n < 10 then [('0' as int + n) as char]
    else Digits(n / 10) + [('0' as int + n % 10) as char]
  }

  /** The decoded roll expression: `count` dice of `sides` sides, plus `addition`. */
  datatype RollSpec = RollSpec(count: nat, sides: nat, addition: int)

  predicate ValidSpec(e: RollSpec) { e.count >= 1 && AllowedSides(e.sides) }

  lemma SidesValue(s: string)
    requires s in SidesAlternatives
    ensures AllDigits(s) && AllowedSides(Value(s))
  {
    if |s| == 2 {
      assert s[..1] == [s[0]];
      assert Value([s[0]]) == s[0] as int - '0' as int;
    }
  }

  /** `int(group(1))`, `int(group(2))`, and `int(group(3))` or the default 0. */
  function Decode(g: Groups): (e: RollSpec)
    requires WellFormed(g)
    ensures ValidSpec(e)
    ensures e.addition == 0 <==> g.modifier.None?
    ensures g.modifier.Some? ==> (e.addition > 0 <==> g.modifier.value.sign == '+')
  {
    SidesValue(g.sides);
    var addition: int := (
      match g.modifier
      case None => 0
      case Some(m) =>
        if m.sign == '+' then Value(m.digits) else -(Value(m.digits) as int));
    RollSpec(Value(g.count), Value(g.sides), addition)
  }

  /** Match and decode one roll string; None where `ROLL_PATTERN.match` gives None. */
  function Parse(s: string): (r: Option<RollSpec>)
    ensures r.Some? <==> Matches(s)
    ensures r.Some? ==> ValidSpec(r.value)
  {
    match Match(s)
    case None => None
    case Some(g) => Some(Decode(g))
  }

  /** Python's default `sys.get_int_max_str_digits()`: since Python 3.11,
      `int()` of a decimal string with more digits than this raises
      ValueError. The sign does not count as a digit. */
  const IntMaxStrDigits: nat := 4300

  predicate WithinDigitLimit(g: Groups)
  {
    && |g.count| <= IntMaxStrDigits
    && (g.modifier.Some? ==> |g.modifier.value.digits| <= IntMaxStrDigits)
  }

  /** What the constructor makes of one string: `ROLL_PATTERN.match`, then
      `int(group(1))`, `int(group(2))` and, when group 3 is present,
      `int(group(3))`; the first conversion over the digit limit raises. */
  function Convert(s: string): (r: Result<RollSpec>)
    ensures r.Ok? <==> Matches(s) && WithinDigitLimit(Match(s).value)
    ensures r.Ok? ==> Parse(s) == Some(r.value)
    ensures !Matches(s) ==> r == Err(InvalidPattern(s))
    ensures r.Err? && Matches(s) ==> r.error.DigitLimitExceeded? && r.error.digits > IntMaxStrDigits
  {
    match Match(s)
    case None => Err(InvalidPattern(s))
    case Some(g) =>
      if |g.count| > IntMaxStrDigits then Err(DigitLimitExceeded(|g.count|))
      else if g.modifier.Some? && |g.modifier.value.digits| > IntMaxStrDigits then
        Err(DigitLimitExceeded(|g.modifier.value.digits|))
      else Ok(Decode(g))
  }

  // ---------------------------------------------------------------------
  // Completeness: every well-formed set of groups is found by the scanner.

  lemma SeparatorAfterCount(g: Groups)
    requires WellFormed(g)
    ensures SeparatorIndex(BodyText(g)) == |g.count|
  {
    var s := BodyText(g);
    var j := SeparatorIndex(s);
    assert s[|g.count|] == g.separator;
  }

  lemma BodyEndsInDigit(g: Groups)
    requires WellFormed(g)
    ensures |BodyText(g)| > 0 && IsDigit(BodyText(g)[|BodyText(g)| - 1])
  {
    var s := BodyText(g);
    var mt := ModifierText(g.modifier);
    SidesValue(g.sides);
    if mt == [] {
      assert s[|s| - 1] == g.sides[|g.sides| - 1];
    } else {
      assert s[|s| - 1] == mt[|mt| - 1] == g.modifier.value.digits[|g.modifier.value.digits| - 1];
    }
  }

  /** Group 1 runs exactly up to the separator that follows it. */
  lemma MatchBodySplit(count: string, separator: char, rest: string)
    requires IsNumeral(count) && IsSeparator(separator)
    ensures MatchBody(count + [separator] + rest) == MatchSides(count, separator, rest)
  {
    var s := count + [separator] + rest;
    assert s[|count|] == separator;
    assert forall k :: 0 <= k < |count| ==> s[k] == count[k];
    assert SeparatorIndex(s) == |count|;
    assert s[..|count|] == count && s[|count| + 1..] == rest;
  }

  lemma MatchSidesComplete(g: Groups)
    requires WellFormed(g) && !g.newline
    ensures MatchSides(g.count, g.separator, g.sides + ModifierText(g.modifier)) == Some(g)
  {
    var mt := ModifierText(g.modifier);
    var rest := g.sides + mt;
    assert SidesLength(rest) == |g.sides| by {
      SidesValue(g.sides);
      assert rest[..|g.sides|] == g.sides;
    }
    assert rest[..|g.sides|] == g.sides && rest[|g.sides|..] == mt;
    if g.modifier.Some? {
      assert mt[0] == g.modifier.value.sign && mt[1..] == g.modifier.value.digits;
    }
  }

  lemma MatchBodyComplete(g: Groups)
    requires WellFormed(g) && !g.newline
    ensures MatchBody(BodyText(g)) == Some(g)
  {
    var rest := g.sides + ModifierText(g.modifier);
    assert BodyText(g) == g.count + [g.separator] + rest;
    MatchBodySplit(g.count, g.separator, rest);
    MatchSidesComplete(g);
  }

  lemma MatchComplete(g: Groups)
    requires WellFormed(g)
    ensures Match(Text(g)) == Some(g)
  {
    var b := BodyText(g);
    var g0 := g.(newline := false);
    assert BodyText(g0) == b;
    MatchBodyComplete(g0);
    BodyEndsInDigit(g);
    if g.newline {
      var s := b + "\n";
      assert Text(g) == s;
      assert s[..|s| - 1] == b;
      assert g0.(newline := true) == g;
    } else {
      assert Text(g) == b;
    }
  }

  /** The regular language of the pattern: a string matches exactly when it is
      the text of some well-formed groups, and then those groups are unique. */
  lemma MatchIff(s: string, g: Groups)
    ensures Match(s) == Some(g) <==> WellFormed(g) && Text(g) == s
  {
    if WellFormed(g) && Text(g) == s {
      MatchComplete(g);
    }
  }

  // ---------------------------------------------------------------------
  // Round trip: printing a valid roll expression and parsing it back.

  lemma {:induction false} ValueOfDigits(n: nat)
    ensures Value(Digits(n)) == n
  {
    var s := Digits(n);
    if n >= 10 {
      ValueOfDigits(n / 10);
      assert s[..|s| - 1] == Digits(n / 10);
    }
  }

  lemma DigitsOfSides(n: nat)
    requires AllowedSides(n)
    ensures Digits(n) in SidesAlternatives && Value(Digits(n)) == n
  {
    ValueOfDigits(n);
    if n == 10 {
      assert Digits(1) == ['1'] && Digits(n) == ['1', '0'];
    } else if n == 12 {
      assert Digits(1) == ['1'] && Digits(n) == ['1', '2'];
    } else if n == 20 {
      assert Digits(2) == ['2'] && Digits(n) == ['2', '0'];
    } else {
      assert Digits(n) == [('0' as int + n) as char];
    }
  }

  function FormatGroups(e: RollSpec): (g: Groups)
    requires ValidSpec(e)
    ensures WellFormed(g) && Decode(g) == e
  {
    var sides := Digits(e.sides);
    DigitsOfSides(e.sides);
    var magnitude: nat := if e.addition >= 0 then e.addition else -e.addition;
    var modifier :=
      if e.addition == 0 then None
      else Some(Modifier(if e.addition > 0 then '+' else '-', Digits(magnitude)));
    ValueOfDigits(e.count);
    ValueOfDigits(magnitude);
    Groups(Digits(e.count), 'k', sides, modifier, false)
  }

  /** A canonical spelling of a roll expression, `NkM`, `NkM+X` or `NkM-X`. */
  function Format(e: RollSpec): string
    requires ValidSpec(e)
  {
    Text(FormatGroups(e))
  }

  lemma ParseFormat(e: RollSpec)
    requires ValidSpec(e)
    ensures Parse(Format(e)) == Some(e)
  {
    MatchComplete(FormatGroups(e));
  }

  lemma {:induction false} Pow10Monotone(a: nat, b: nat)
    requires a <= b
    ensures Pow10(a) <= Pow10(b)
  {
    if a < b {
      Pow10Monotone(a, b - 1);
    }
  }

  /** A number below 10^k is spelt with at most `k` digits. */
  lemma ShortDigits(n: nat, k: nat)
    requires k >= 1 && n < Pow10(k)
    ensures |Digits(n)| <= k
  {
    var d := Digits(n);
    if n >= 1 && |d| > k {
      ValueOfDigits(n);
      Pow10Monotone(k, |d| - 1);
    }
  }

  /** The round trip through the constructor's conversion: a valid expression
      whose count and addition are below 10^4300 in magnitude is spelt within
      the digit limit, so it converts back to itself. */
  lemma ConvertFormat(e: RollSpec)
    requires ValidSpec(e) && e.count < Pow10(IntMaxStrDigits)
    requires -(Pow10(IntMaxStrDigits) as int) < e.addition < Pow10(IntMaxStrDigits)
    ensures Convert(Format(e)) == Ok(e)
  {
    var g := FormatGroups(e);
    assert Match(Format(e)) == Some(g) by {
      MatchComplete(g);
    }
    FormatWithinLimit(e);
  }

  /** The canonical spelling of numbers below 10^4300 in magnitude is within
      the digit limit. */
  lemma FormatWithinLimit(e: RollSpec)
    requires ValidSpec(e) && e.count < Pow10(IntMaxStrDigits)
    requires -(Pow10(IntMaxStrDigits) as int) < e.addition < Pow10(IntMaxStrDigits)
    ensures WithinDigitLimit(FormatGroups(e))
  {
    var g := FormatGroups(e);
    assert |g.count| <= IntMaxStrDigits by {
      ShortDigits(e.count, IntMaxStrDigits);
    }
    assert g.modifier.Some? ==> |g.modifier.value.digits| <= IntMaxStrDigits by {
      if e.addition != 0 {
        ShortDigits(if e.addition > 0 then e.addition else -e.addition, IntMaxStrDigits);
      }
    }
  }

  /** `k` and `d` mean the same thing: swapping one for the other anywhere in
      the string changes neither whether it matches nor what it decodes to. */
  lemma SeparatorsInterchangeable(s: string, i: nat)
    requires i < |s| && IsSeparator(s[i])
    ensures Parse(s[i := 'k']) == Parse(s[i := 'd'])
  {
    var sk, sd := s[i := 'k'], s[i := 'd'];
    assert sk[i := 'd'] == sd && sd[i := 'k'] == sk;
    var mk, md := Match(sk), Match(sd);
    if mk.Some? {
      SwapSeparator(mk.value, i, 'd');
    } else if md.Some? {
      SwapSeparator(md.value, i, 'k');
    }
  }

  predicate NoSeparator(s: string) { forall k :: 0 <= k < |s| ==> !IsSeparator(s[k]) }

  lemma NoSeparatorConcat(x: string, y: string)
    requires NoSeparator(x) && NoSeparator(y)
    ensures NoSeparator(x + y)
  {
    forall k | 0 <= k < |x + y| ensures !IsSeparator((x + y)[k]) {
      if k >= |x| { assert (x + y)[k] == y[k - |x|]; }
    }
  }

  /** In a matching string the separator is the only `k` or `d`. */
  lemma OnlySeparator(g: Groups, i: nat)
    requires WellFormed(g) && i < |Text(g)| && IsSeparator(Text(g)[i])
    ensures i == |g.count|
  {
    SidesValue(g.sides);
    var mt := ModifierText(g.modifier);
    var nl := if g.newline then "\n" else "";
    var after := g.sides + mt + nl;
    assert NoSeparator(mt) by {
      if g.modifier.Some? {
        assert mt == [g.modifier.value.sign] + g.modifier.value.digits;
        NoSeparatorConcat([g.modifier.value.sign], g.modifier.value.digits);
      }
    }
    NoSeparatorConcat(g.sides, mt);
    NoSeparatorConcat(g.sides + mt, nl);
    assert Text(g) == g.count + [g.separator] + after;
  }

  predicate NoSign(s: string) { forall k :: 0 <= k < |s| ==> !IsSign(s[k]) }

  lemma NoSignConcat(x: string, y: string)
    requires NoSign(x) && NoSign(y)
    ensures NoSign(x + y)
  {
    forall k | 0 <= k < |x + y| ensures !IsSign((x + y)[k]) {
      if k >= |x| { assert (x + y)[k] == y[k - |x|]; }
    }
  }

  /** In a matching string a `+` or `-` occurs at most once: as the sign of
      group 3, right after group 2. */
  lemma OnlySign(g: Groups, i: nat)
    requires WellFormed(g) && i < |Text(g)| && IsSign(Text(g)[i])
    ensures g.modifier.Some? && i == |g.count| + 1 + |g.sides|
  {
    SidesValue(g.sides);
    var nl := if g.newline then "\n" else "";
    var pre := g.count + [g.separator] + g.sides;
    NoSignConcat(g.count, [g.separator]);
    NoSignConcat(g.count + [g.separator], g.sides);
    if g.modifier.Some? {
      var m := g.modifier.value;
      NoSignConcat(m.digits, nl);
      assert Text(g) == pre + [m.sign] + (m.digits + nl);
    }
  }

  lemma ReplaceAt<T>(x: seq<T>, a: T, b: T, y: seq<T>)
    ensures (x + [a] + y)[|x| := b] == x + [b] + y
  {
    var l, r := (x + [a] + y)[|x| := b], x + [b] + y;
    assert forall k :: 0 <= k < |l| ==> l[k] == r[k];
  }

  /** Replacing the separator in the text is replacing it in the groups. */
  lemma SwapText(g: Groups, i: nat, c: char)
    requires WellFormed(g) && i < |Text(g)| && IsSeparator(Text(g)[i]) && IsSeparator(c)
    ensures WellFormed(g.(separator := c)) && Text(g)[i := c] == Text(g.(separator := c))
  {
    var g' := g.(separator := c);
    var after := g.sides + ModifierText(g.modifier) + (if g.newline then "\n" else "");
    assert i == |g.count| by {
      OnlySeparator(g, i);
    }
    assert Text(g) == g.count + [g.separator] + after && Text(g') == g.count + [c] + after;
    ReplaceAt(g.count, g.separator, c, after);
  }

  lemma SwapSeparator(g: Groups, i: nat, c: char)
    requires WellFormed(g) && i < |Text(g)| && IsSeparator(Text(g)[i]) && IsSeparator(c)
    ensures Match(Text(g)[i := c]) == Some(g.(separator := c))
  {
    SwapText(g, i, c);
    MatchComplete(g.(separator := c));
  }

  /** Python's `$` also matches before a single final newline, and the
      newline changes nothing in what the string decodes to... */
  lemma TrailingNewline(s: string)
    requires Matches(s) && !Match(s).value.newline
    ensures Parse(s + "\n") == Parse(s)
  {
    var g := Match(s).value;
    var g1 := g.(newline := true);
    assert Text(g1) == BodyText(g) + "\n" && Text(g) == BodyText(g);
    MatchComplete(g1);
    assert Decode(g1) == Decode(g);
  }

  /** ...but only one: the part before `$` always ends in a digit. */
  lemma SecondNewlineRejected(s: string)
    ensures !Matches(s + "\n\n")
  {
    var t := s + "\n\n";
    assert t[..|t| - 1] == s + "\n";
    var r := MatchBody(s + "\n");
    if r.Some? {
      BodyEndsInDigit(r.value);
    }
  }

  // ---------------------------------------------------------------------
  // The strings the test suite and the usage text use.

  /** A string is accepted with a given decoding once it is the text of
      well-formed groups, within the digit limit, that decode to it. */
  lemma AcceptedAs(g: Groups, s: string, e: RollSpec)
    requires WellFormed(g) && WithinDigitLimit(g) && Text(g) == s && Decode(g) == e
    ensures Convert(s) == Ok(e) && Parse(s) == Some(e)
  {
    MatchComplete(g);
  }

  lemma AcceptsSingleDie()
    ensures Convert("1k4") == Ok(RollSpec(1, 4, 0))
  {
    AcceptedAs(Groups("1", 'k', "4", None, false), "1k4", RollSpec(1, 4, 0));
  }

  lemma AcceptsTenSides()
    ensures Convert("1k10") == Ok(RollSpec(1, 10, 0))
  {
    assert "10"[..1] == "1";
    AcceptedAs(Groups("1", 'k', "10", None, false), "1k10", RollSpec(1, 10, 0));
  }

  lemma AcceptsThreeDice()
    ensures Convert("3k6") == Ok(RollSpec(3, 6, 0))
  {
    AcceptedAs(Groups("3", 'k', "6", None, false), "3k6", RollSpec(3, 6, 0));
  }

  lemma AcceptsTwentySides()
    ensures Convert("1k20") == Ok(RollSpec(1, 20, 0))
  {
    assert "20"[..1] == "2";
    AcceptedAs(Groups("1", 'k', "20", None, false), "1k20", RollSpec(1, 20, 0));
  }

  lemma AcceptsDSeparator()
    ensures Convert("1d20") == Ok(RollSpec(1, 20, 0))
  {
    assert "20"[..1] == "2";
    AcceptedAs(Groups("1", 'd', "20", None, false), "1d20", RollSpec(1, 20, 0));
  }

  lemma AcceptsMultiDigitCount()
    ensures Convert("34k6") == Ok(RollSpec(34, 6, 0))
  {
    assert "34"[..1] == "3";
    AcceptedAs(Groups("34", 'k', "6", None, false), "34k6", RollSpec(34, 6, 0));
  }

  lemma AcceptsPlusModifier()
    ensures Convert("12k4+2") == Ok(RollSpec(12, 4, 2))
  {
    assert "12"[..1] == "1";
    AcceptedAs(Groups("12", 'k', "4", Some(Modifier('+', "2")), false), "12k4+2", RollSpec(12, 4, 2));
  }

  lemma AcceptsMinusModifier()
    ensures Convert("15k4-45") == Ok(RollSpec(15, 4, -45))
  {
    assert "15"[..1] == "1" && "45"[..1] == "4";
    AcceptedAs(Groups("15", 'k', "4", Some(Modifier('-', "45")), false), "15k4-45", RollSpec(15, 4, -45));
  }

  /** Python's `$` lets one final newline through. */
  lemma AcceptsTrailingNewline()
    ensures Convert("1k20\n") == Ok(RollSpec(1, 20, 0))
  {
    assert "20"[..1] == "2";
    AcceptedAs(Groups("1", 'k', "20", None, true), "1k20\n", RollSpec(1, 20, 0));
  }

  /** A count of 4301 digits matches the pattern, but `int()` refuses it. */
  lemma LongCountRejected()
    ensures Matches(seq(4301, _ => '1') + "k6")
    ensures Convert(seq(4301, _ => '1') + "k6") == Err(DigitLimitExceeded(4301))
  {
    var ones := seq(4301, _ => '1');
    var g := Groups(ones, 'k', "6", None, false);
    assert Text(g) == ones + "k6";
    MatchComplete(g);
  }

  lemma RejectedMissingCount() ensures !Matches("k10") { }
  lemma RejectedSides() ensures !Matches("1k3") { }
  /** For the longer strings the rejection is stated on the groups: no
      well-formed groups spell them, so by `MatchIff` `Match` gives None. */
  lemma RejectedDoubleSign(g: Groups) ensures !(WellFormed(g) && Text(g) == "1k20++1") {
    if WellFormed(g) && Text(g) == "1k20++1" {
      OnlySign(g, 4);
      OnlySign(g, 5);
    }
  }
  lemma RejectedChainedSeparator(g: Groups) ensures !(WellFormed(g) && Text(g) == "1k20k6") {
    if WellFormed(g) && Text(g) == "1k20k6" {
      OnlySeparator(g, 1);
      OnlySeparator(g, 4);
    }
  }
  lemma RejectedTwoModifiers(g: Groups) ensures !(WellFormed(g) && Text(g) == "1k20+10+12") {
    if WellFormed(g) && Text(g) == "1k20+10+12" {
      OnlySign(g, 4);
      OnlySign(g, 7);
    }
  }
  lemma RejectedLeadingZero() ensures !Matches("01k6") { }
}
