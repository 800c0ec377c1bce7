/**
 * Numeric conversions used by the curve engine. Floating-point values are
 * modelled as `real`; these functions give the exact meaning of the .NET
 * operations the engine applies to them.
 */
module Numeric {

  function Abs(r: real): real { if r < 0.0 then -r else r }

  function AbsInt(i: int): nat { if i < 0 then -i else i }

  function Min(a: int, b: int): int { if a <= b then a else b }

  function Max(a: int, b: int): int { if a <= b then b else a }

  /** Math.Floor: the largest integer not above `r`. */
  function Floor(r: real): (f: int)
    ensures f as real <= r < f as real + 1.0
  {
    r.Floor
  }

  /** Math.Ceiling: the smallest integer not below `r`. */
  function Ceil(r: real): (c: int)
    ensures c as real - 1.0 < r <= c as real
  {
    -((-r).Floor)
  }

  /** The C# cast `(int)x` of a floating-point value: truncation toward zero. */
  function Trunc(r: real): (t: int)
    ensures 0.0 <= r ==> 0 <= t && t as real <= r < t as real + 1.0
    ensures r < 0.0 ==> t <= 0 && t as real - 1.0 < r <= t as real
  {
    if r < 0.0 then -((-r).Floor) else r.Floor
  }

  /** `(int)Math.Ceiling(n * 1.0f / d)`: the ceiling of an exact quotient. */
  function CeilDiv(n: int, d: int): int
    requires d > 0
  {
    Ceil(n as real / d as real)
  }

  const ULongModulus: int := 0x1_0000_0000_0000_0000

  /** The C# cast `(ulong)i`: the value modulo 2^64, so negative ints wrap around. */
  function ULong(i: int): (u: nat)
    ensures u < ULongModulus
    ensures 0 <= i < ULongModulus ==> u == i
    ensures -ULongModulus <= i < 0 ==> u == i + ULongModulus
  {
    i % ULongModulus
  }

  /** Within the 64-bit range only zero converts to a zero divisor. */
  lemma ULongZero(i: int)
    requires -ULongModulus < i < ULongModulus
    ensures ULong(i) == 0 <==> i == 0
  {
  }

  /** Dividing a product by one of its non-zero factors gives back the other. */
  lemma DivCancel(y: real, h: real)
    requires h != 0.0
    ensures (y * h) / h == y
  {
  }

  /** A non-zero value divided by itself is one. */
  lemma DivSelf(d: real)
    requires d != 0.0
    ensures d / d == 1.0
  {
  }

  /** A positive divisor is zero only at zero: the stride test never divides by zero otherwise. */
  lemma CeilDivZero(n: int, d: int)
    requires d > 0
    ensures CeilDiv(n, d) == 0 <==> -d < n <= 0
  {
    var q := n as real / d as real;
    QuotientSign(n as real, d as real);
    assert CeilDiv(n, d) == -((-q).Floor);
    assert CeilDiv(n, d) == 0 <==> (-q).Floor == 0;
    assert (-q).Floor == 0 <==> 0.0 <= -q < 1.0;
  }

  /** Sign and magnitude tests on a quotient by a positive divisor move to the dividend. */
  lemma QuotientSign(x: real, d: real)
    requires d > 0.0
    ensures x / d <= 0.0 <==> x <= 0.0
    ensures -1.0 < x / d <==> -d < x
  {
    var q := x / d;
    assert q * d == x;
    if q <= 0.0 { assert q * d <= 0.0; } else { assert q * d > 0.0; }
    if -1.0 < q { assert (q + 1.0) * d > 0.0; } else { assert (q + 1.0) * d <= 0.0; }
  }
}
