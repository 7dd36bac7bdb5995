/** The lexical check on a typed quantity or price
    (apps/web/lib/paper-operation-intent.ts:39-46) and the numbers it stands for. */
module PaperNumeral {
  import opened Outcomes

  predicate IsDigit(c: char) { '0' <= c <= '9' }

  predicate AllDigits(s: string) { forall i :: 0 <= i < |s| ==> IsDigit(s[i]) }

  function Digit(c: char): (d: nat)
    requires IsDigit(c)
    ensures d <= 9 && (d == 0 <==> c == '0')
  {
    (c as int) - ('0' as int)
  }

  function DigitRun(s: string): (n: nat)
    ensures n <= |s| && AllDigits(s[..n]) && (n < |s| ==> !IsDigit(s[n]))
  {
    if s == "" || !IsDigit(s[0]) then 0
    else
      assert s[1..][..DigitRun(s[1..])] == s[1..1 + DigitRun(s[1..])];
      1 + DigitRun(s[1..])
  }

  /** Digits, and optionally a point with digits after it, and nothing else. */
  function MatchDigits(body: string): (m: Option<(string, string)>)
    ensures m.Some? ==> AllDigits(m.value.0) && AllDigits(m.value.1)
  {
    var n := DigitRun(body);
    if n == 0 then None
    else if n == |body| then Some((body, ""))
    else if body[n] == '.' && n + 1 < |body| && AllDigits(body[n + 1..]) then Some((body[..n], body[n + 1..]))
    else None
  }

  /** The numeral's digits before and after the point, after an optional plus sign. */
  function Match(value: string): (m: Option<(string, string)>)
    ensures m.Some? ==> AllDigits(m.value.0) && AllDigits(m.value.1)
  {
    MatchDigits(if value != "" && value[0] == '+' then value[1..] else value)
  }

  /** The text a sign, digits and optional fraction digits are written as. */
  function Written(plus: bool, whole: string, fraction: string): string {
    (if plus then "+" else "") + whole + (if fraction == "" then "" else "." + fraction)
  }

  lemma {:induction false} DigitRunOf(whole: string, rest: string)
    requires AllDigits(whole) && (rest == "" || !IsDigit(rest[0]))
    ensures DigitRun(whole + rest) == |whole|
  {
    if whole != "" {
      assert (whole + rest)[1..] == whole[1..] + rest;
      DigitRunOf(whole[1..], rest);
    } else {
      assert whole + rest == rest;
    }
  }

  lemma DigitsAreMatched(whole: string, fraction: string)
    requires whole != "" && AllDigits(whole) && AllDigits(fraction)
    ensures MatchDigits(whole + (if fraction == "" then "" else "." + fraction)) == Some((whole, fraction))
  {
    hide DigitRun;
    if fraction == "" {
      assert whole + "" == whole;
      DigitRunOf(whole, "");
    } else {
      var body := whole + ("." + fraction);
      DigitRunOf(whole, "." + fraction);
      assert body[..|whole|] == whole && body[|whole|] == '.' && body[|whole| + 1..] == fraction;
    }
  }

  /** The pattern finds the digits of everything so written... */
  lemma WrittenIsMatched(plus: bool, whole: string, fraction: string)
    requires whole != "" && AllDigits(whole) && AllDigits(fraction)
    ensures Match(Written(plus, whole, fraction)) == Some((whole, fraction))
  {
    hide MatchDigits;
    var body := whole + (if fraction == "" then "" else "." + fraction);
    DigitsAreMatched(whole, fraction);
    assert Written(plus, whole, fraction) == (if plus then "+" + body else body);
    assert body[0] == whole[0] && ("+" + body)[1..] == body;
    assert IsDigit(whole[0]);
  }

  /** ...and nothing else. */
  lemma MatchedIsWritten(value: string)
    requires Match(value).Some?
    ensures var (whole, fraction) := Match(value).value;
            whole != "" && value == Written(value != "" && value[0] == '+', whole, fraction)
  {
    var plus := value != "" && value[0] == '+';
    var body := if plus then value[1..] else value;
    var n := DigitRun(body);
    assert plus ==> value == "+" + body;
    if n < |body| {
      assert body == body[..n] + ("." + body[n + 1..]);
    }
  }

  function StripLeft(s: string): string {
    if s != "" && s[0] == '0' then StripLeft(s[1..]) else s
  }

  function StripRight(s: string): string {
    if s != "" && s[|s| - 1] == '0' then StripRight(s[..|s| - 1]) else s
  }

  predicate HasNonZero(s: string) { exists i :: 0 <= i < |s| && '1' <= s[i] <= '9' }

  predicate PositivePaperDecimal(value: string) {
    var m := Match(value);
    m.Some?
    && var whole := StripLeft(m.value.0);
       var fraction := StripRight(m.value.1);
       |whole| <= 12 && |fraction| <= 8 && HasNonZero(whole + fraction)
  }

  // ---------------------------------------------------------------- what the digits mean

  function Whole(s: string): nat
    requires AllDigits(s)
  {
    if s == "" then 0 else 10 * Whole(s[..|s| - 1]) + Digit(s[|s| - 1])
  }

  function Fraction(s: string): (f: real)
    requires AllDigits(s)
    ensures 0.0 <= f < 1.0
  {
    if s == "" then 0.0 else (Digit(s[0]) as real + Fraction(s[1..])) / 10.0
  }

  function Value(m: (string, string)): real
    requires AllDigits(m.0) && AllDigits(m.1)
  {
    Whole(m.0) as real + Fraction(m.1)
  }

  predicate IsWhole(x: real) { x == x.Floor as real }

  /** x moved n decimal places. */
  function Shift(x: real, n: nat): real
    decreases n
  {
    if n == 0 then x else Shift(10.0 * x, n - 1)
  }

  function Pow10(n: nat): nat {
    if n == 0 then 1 else 10 * Pow10(n - 1)
  }

  // ---------------------------------------------------------------- the whole part

  lemma {:induction false} StripLeftKeepsValue(s: string)
    requires AllDigits(s)
    ensures AllDigits(StripLeft(s)) && Whole(StripLeft(s)) == Whole(s)
    ensures StripLeft(s) == "" || StripLeft(s)[0] != '0'
  {
    if s != "" && s[0] == '0' {
      StripLeftKeepsValue(s[1..]);
      DropZero(s);
    }
  }

  lemma {:induction false} DropZero(s: string)
    requires AllDigits(s) && s != "" && s[0] == '0'
    ensures Whole(s[1..]) == Whole(s)
  {
    if |s| > 1 {
      var init := s[..|s| - 1];
      DropZero(init);
      assert s[1..][..|s| - 2] == init[1..];
    }
  }

  lemma {:induction false} DigitCountBounds(s: string)
    requires AllDigits(s)
    ensures Whole(s) < Pow10(|s|)
    ensures s != "" && s[0] != '0' ==> Pow10(|s| - 1) <= Whole(s)
  {
    if s != "" {
      DigitCountBounds(s[..|s| - 1]);
      assert Pow10(|s|) == 10 * Pow10(|s| - 1);
      if |s| > 1 {
        assert s[..|s| - 1][0] == s[0];
        assert Pow10(|s| - 1) == 10 * Pow10(|s| - 2);
      }
    }
  }

  lemma {:induction false} Pow10Grows(m: nat, n: nat)
    requires m <= n
    ensures Pow10(m) <= Pow10(n)
  {
    if m < n {
      Pow10Grows(m, n - 1);
    }
  }

  lemma WholeFits(s: string, n: nat)
    requires AllDigits(s)
    ensures |StripLeft(s)| <= n <==> Whole(s) < Pow10(n)
  {
    StripLeftKeepsValue(s);
    var t := StripLeft(s);
    DigitCountBounds(t);
    if |t| <= n {
      Pow10Grows(|t|, n);
    } else {
      Pow10Grows(n, |t| - 1);
    }
  }

  // ---------------------------------------------------------------- the fraction

  predicate Zeros(s: string) { forall i :: 0 <= i < |s| ==> s[i] == '0' }

  lemma {:induction false} StripRightSplits(s: string)
    ensures |StripRight(s)| <= |s| && StripRight(s) == s[..|StripRight(s)|]
    ensures Zeros(s) <==> StripRight(s) == ""
  {
    if s != "" && s[|s| - 1] == '0' {
      var init := s[..|s| - 1];
      StripRightSplits(init);
    }
  }

  /** Stripping from the right sees one digit more on the left only when something is left. */
  lemma {:induction false} StripRightOfCons(s: string)
    requires s != ""
    ensures StripRight(s) == if Zeros(s) then "" else [s[0]] + StripRight(s[1..])
  {
    StripRightSplits(s);
    if s[|s| - 1] == '0' && |s| > 1 {
      var init := s[..|s| - 1];
      StripRightOfCons(init);
      assert s[1..][..|s| - 2] == init[1..];
      assert s == init + ['0'];
    } else if |s| > 1 {
      assert s[1..][|s| - 2] == s[|s| - 1];
      assert [s[0]] + s[1..] == s;
    } else {
      assert s[1..] == "";
      assert s == [s[0]];
    }
  }

  lemma {:induction false} ZeroFraction(s: string)
    requires AllDigits(s)
    ensures Fraction(s) == 0.0 <==> Zeros(s)
  {
    if s != "" {
      ZeroFraction(s[1..]);
      if Zeros(s[1..]) && s[0] == '0' {
        assert forall i :: 1 <= i < |s| ==> s[i] == s[1..][i - 1];
      }
      if Zeros(s) {
        assert Zeros(s[1..]);
      }
    }
  }

  lemma {:induction false} ShiftAdds(d: int, x: real, n: nat)
    ensures IsWhole(Shift(d as real + x, n)) <==> IsWhole(Shift(x, n))
    decreases n
  {
    if n > 0 {
      ShiftAdds(10 * d, 10.0 * x, n - 1);
      assert 10.0 * (d as real + x) == (10 * d) as real + 10.0 * x;
    } else {
      assert (d as real + x).Floor == d + x.Floor;
    }
  }

  /** The fraction needs at most n places exactly when at most n digits are left of it. */
  lemma {:induction false} FractionFits(s: string, n: nat)
    requires AllDigits(s)
    ensures |StripRight(s)| <= n <==> IsWhole(Shift(Fraction(s), n))
  {
    StripRightSplits(s);
    ZeroFraction(s);
    if n == 0 {
    } else if s == "" {
      ShiftOfZero(n);
    } else {
      StripRightOfCons(s);
      StripRightSplits(s[1..]);
      FractionFits(s[1..], n - 1);
      ShiftAdds(Digit(s[0]), Fraction(s[1..]), n - 1);
      if Zeros(s) {
        ShiftOfZero(n);
      }
    }
  }

  lemma {:induction false} ShiftOfZero(n: nat)
    ensures Shift(0.0, n) == 0.0
  {
    if n > 0 {
      ShiftOfZero(n - 1);
    }
  }

  // ---------------------------------------------------------------- main result

  lemma EightPlaces(x: real)
    ensures Shift(x, 8) == x * 100000000.0
  {
    assert Shift(x, 8) == Shift(100.0 * x, 6);
    assert Shift(100.0 * x, 6) == Shift(10000.0 * x, 4);
    assert Shift(10000.0 * x, 4) == Shift(1000000.0 * x, 2);
    assert Shift(1000000.0 * x, 2) == Shift(10000000.0 * x, 1);
    assert Shift(10000000.0 * x, 1) == Shift(100000000.0 * x, 0);
  }

  lemma TwelveDigits()
    ensures Pow10(12) == 1000000000000
  {
    assert Pow10(3) == 1000;
    assert Pow10(6) == 1000000;
    assert Pow10(9) == 1000000000;
  }

  lemma NonZeroInEither(w: string, f: string)
    ensures HasNonZero(w + f) <==> HasNonZero(w) || HasNonZero(f)
  {
    if HasNonZero(w) {
      var i :| 0 <= i < |w| && '1' <= w[i] <= '9';
      assert (w + f)[i] == w[i];
    }
    if HasNonZero(f) {
      var i :| 0 <= i < |f| && '1' <= f[i] <= '9';
      assert (w + f)[|w| + i] == f[i];
    }
  }

  lemma NonZeroWhole(s: string)
    requires AllDigits(s)
    ensures HasNonZero(StripLeft(s)) <==> Whole(s) > 0
  {
    StripLeftKeepsValue(s);
    var w := StripLeft(s);
    DigitCountBounds(w);
    if w != "" {
      Pow10Grows(0, |w| - 1);
      assert IsDigit(w[0]);
    }
  }

  lemma NonZeroFraction(s: string)
    requires AllDigits(s)
    ensures HasNonZero(StripRight(s)) <==> Fraction(s) > 0.0
  {
    StripRightSplits(s);
    ZeroFraction(s);
    var f := StripRight(s);
    if f != "" {
      StripRightEndsInDigit(s);
      assert IsDigit(s[|f| - 1]) && f[|f| - 1] == s[|f| - 1];
    }
  }

  lemma {:induction false} StripRightEndsInDigit(s: string)
    requires StripRight(s) != ""
    ensures StripRight(s)[|StripRight(s)| - 1] != '0'
  {
    if s[|s| - 1] == '0' {
      StripRightEndsInDigit(s[..|s| - 1]);
    }
  }

  /** A numeral is accepted exactly when its value is positive, below ten to the twelfth, and a
      multiple of 0.00000001: what the server's Decimal(20, 8) field holds. Anything that is
      not a plain numeral is refused. */
  lemma AcceptedExactlyWhenStorable(value: string)
    ensures PositivePaperDecimal(value) <==>
              && Match(value).Some?
              && var v := Value(Match(value).value);
                 0.0 < v < 1000000000000.0 && IsWhole(v * 100000000.0)
  {
    var m := Match(value);
    if m.Some? {
      var (whole, fraction) := m.value;
      WholeFits(whole, 12);
      TwelveDigits();
      FractionFits(fraction, 8);
      EightPlaces(Fraction(fraction));
      EightPlaces(Value(m.value));
      ShiftAdds(Whole(whole), Fraction(fraction), 8);
      NonZeroInEither(StripLeft(whole), StripRight(fraction));
      NonZeroWhole(whole);
      NonZeroFraction(fraction);
    }
  }
}
