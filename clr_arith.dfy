/**
 * The parts of .NET integer and rounding semantics the model depends on:
 * C#'s truncating `/`, the unchecked `(short)` cast, and the round-half-to-even
 * rule of `Convert.ToInt32`, `Convert.ToByte` and `Math.Round`.
 */
module ClrArith {

  /** The values of C#'s `short`. */
  type Int16 = x: int | -32768 <= x <= 32767

  /** The values of C#'s `byte`. */
  type Byte = x: int | 0 <= x < 256

  function Abs(x: int): nat {
    if x < 0 then -x else x
  }

  /** C# `a / b` on `int`: the quotient is truncated toward zero (Dafny's `/` is Euclidean). */
  function TruncDiv(a: int, b: int): (q: int)
    requires b != 0
    ensures Abs(q) == Abs(a) / Abs(b)
    ensures q > 0 ==> (a > 0) == (b > 0)
    ensures q < 0 ==> (a > 0) != (b > 0)
  {
    var m := Abs(a) / Abs(b);
    assert a == 0 ==> m == 0;
    if (a >= 0) == (b > 0) then m else -m
  }

  /** Truncating division is odd in its dividend: C#'s `-a / b == -(a / b)`. */
  lemma TruncDivNeg(a: int, b: int)
    requires b != 0
    ensures TruncDiv(-a, b) == -TruncDiv(a, b)
  {
  }

  /** Multiplying by a positive number keeps the order. */
  lemma MulMonotone(a: int, b: int, d: int)
    requires d > 0
    ensures a * d <= b * d <==> a <= b
  {
    if a <= b {
      assert b * d - a * d == (b - a) * d;
    } else {
      assert a * d - b * d == (a - b) * d;
    }
  }

  /** The unchecked C# cast `(short)x`: the Int16 congruent to x modulo 2^16. */
  function Wrap16(x: int): (r: Int16)
    ensures (x - r) % 65536 == 0
    ensures -32768 <= x <= 32767 ==> r == x
  {
    (x + 32768) % 65536 - 32768
  }

  /** `Math.Min` and `Math.Max` on integers. */
  function Min(a: int, b: int): int {
    if a <= b then a else b
  }

  function Max(a: int, b: int): int {
    if a <= b then b else a
  }

  /** Nearest integer to n/d, ties to the even neighbour (.NET's default rounding). */
  function RoundHalfEven(n: int, d: int): int
    requires d > 0
  {
    var q := n / d;
    var rem := n % d;
    if 2 * rem > d then q + 1
    else if 2 * rem < d then q
    else if q % 2 == 0 then q else q + 1
  }

  /** The rounded quotient is within half a unit of n/d, and a tie goes to the even neighbour. */
  lemma RoundHalfEvenNearest(n: int, d: int)
    requires d > 0
    ensures var r := RoundHalfEven(n, d);
      Abs(2 * (r * d - n)) <= d && (2 * Abs(r * d - n) == d ==> r % 2 == 0)
  {
    var q := n / d;
    var rem := n % d;
    assert n == q * d + rem;
    assert (q + 1) * d - n == d - rem;
  }

  /** Nearest integer to the real x, ties to the even neighbour (`Convert.ToInt32(double)`). */
  function RealRoundHalfEven(x: real): (r: int)
    ensures -(1.0 / 2.0) <= r as real - x <= 1.0 / 2.0
    ensures (r as real - x == 1.0 / 2.0 || x - r as real == 1.0 / 2.0) ==> r % 2 == 0
  {
    var f := x.Floor;
    var diff := x - f as real;
    if diff > 1.0 / 2.0 then f + 1
    else if diff < 1.0 / 2.0 then f
    else if f % 2 == 0 then f else f + 1
  }

  /** Rounding never leaves an interval with integer end points. */
  lemma RealRoundWithin(x: real, lo: int, hi: int)
    requires lo as real <= x <= hi as real
    ensures lo <= RealRoundHalfEven(x) <= hi
  {
  }
}
