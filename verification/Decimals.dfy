/** Decimal arithmetic as the platform uses it: values are exact reals, and every
    `quantize` of the source is one explicit rounding function.  */
module Decimals {

  const HALF_QUANTUM: real := 0.000000005
  const QUANTUM: real := 0.00000001

  function Min(a: real, b: real): real { if b < a then b else a }

  function Max(a: real, b: real): real { if b > a then b else a }

  /** A product of two figures. It is a function so that a proof that needs no fact about
      multiplication can hide it and treat the product as one figure. */
  function Times(a: real, b: real): real { a * b }

  function Abs(a: real): real { if a < 0.0 then -a else a }

  /** ROUND_HALF_EVEN, the default rounding of Decimal.quantize. */
  function HalfEven(x: real): (n: int)
    ensures -0.5 <= n as real - x <= 0.5
  {
    var f := x.Floor;
    var d := x - f as real;
    if d < 0.5 || (d == 0.5 && f % 2 == 0) then f else f + 1
  }

  /** ROUND_DOWN: toward zero. */
  function TowardZero(x: real): (n: int)
    ensures x >= 0.0 ==> n >= 0 && x - 1.0 < n as real <= x
    ensures x < 0.0 ==> n <= 0 && x <= n as real < x + 1.0
  {
    if x >= 0.0 then x.Floor else -((-x).Floor)
  }

  function Round8(x: real): (r: real)
    ensures -HALF_QUANTUM <= r - x <= HALF_QUANTUM
  {
    HalfEven(x * 100000000.0) as real / 100000000.0
  }

  function Round2(x: real): (r: real)
    ensures -0.005 <= r - x <= 0.005
  {
    HalfEven(x * 100.0) as real / 100.0
  }

  function Trunc8(x: real): (r: real)
    ensures x >= 0.0 ==> 0.0 <= r <= x < r + QUANTUM
    ensures x < 0.0 ==> r <= 0.0
  {
    TowardZero(x * 100000000.0) as real / 100000000.0
  }

  /** A multiple of 0.00000001. */
  ghost predicate OnGrid8(x: real) {
    exists n: int :: x == Units8(n)
  }

  function Units8(n: int): real { n as real / 100000000.0 }

  lemma RoundingLandsOnGrid(x: real)
    ensures OnGrid8(Round8(x)) && OnGrid8(Trunc8(x))
  {
    assert Round8(x) == Units8(HalfEven(x * 100000000.0));
    assert Trunc8(x) == Units8(TowardZero(x * 100000000.0));
  }

  lemma RoundingFixesGrid(x: real)
    requires OnGrid8(x)
    ensures Round8(x) == x && Trunc8(x) == x
  {
    var n :| x == Units8(n);
    assert x * 100000000.0 == n as real;
  }

  lemma HalfEvenMonotone(x: real, y: real)
    requires x <= y
    ensures HalfEven(x) <= HalfEven(y)
  {
    assert x.Floor <= y.Floor;
  }

  lemma Round8Monotone(x: real, y: real)
    requires x <= y
    ensures Round8(x) <= Round8(y)
  {
    HalfEvenMonotone(x * 100000000.0, y * 100000000.0);
  }

  lemma GridSum(a: real, b: real)
    requires OnGrid8(a) && OnGrid8(b)
    ensures OnGrid8(a + b) && OnGrid8(a - b)
  {
    var m :| a == Units8(m);
    var n :| b == Units8(n);
    assert a + b == Units8(m + n) && a - b == Units8(m - n);
  }

  /** Half-even rounding is odd, and shifting by a whole number can move it only on a tie:
      the rounded difference and the difference of the rounded agree exactly when the
      argument is not a tie or the shift is even. */
  lemma HalfEvenShift(c: int, x: real)
    ensures var taken := c - HalfEven(c as real - x);
            && -1 <= taken - HalfEven(x) <= 1
            && (taken == HalfEven(x) <==> (x - x.Floor as real != 0.5 || c % 2 == 0))
  {
    var f := x.Floor;
    var d := x - f as real;
    var y := c as real - x;
    if d == 0.0 {
      assert y == (c - f) as real;
    } else {
      assert y == (c - f - 1) as real + (1.0 - d);
      assert y.Floor == c - f - 1;
    }
  }

  /** Adding whole quanta before rounding or after it is the same exactly when the argument is
      not a tie or the quanta are even. */
  lemma HalfEvenRaise(c: int, x: real)
    ensures HalfEven(c as real + x) == c + HalfEven(x) <==> (x - x.Floor as real != 0.5 || c % 2 == 0)
  {
    assert (c as real + x).Floor == c + x.Floor;
  }
}
