/**
 * Java's fixed-width integer operations, written out over Dafny's unbounded
 * integers: truncating division and remainder, the narrowing cast from a
 * floating-point value to `int`, and two's-complement wrap-around.
 */
module JavaInt {

  const IntMin: int := -0x8000_0000
  const IntMax: int := 0x7fff_ffff

  predicate IsInt32(x: int) {
    IntMin <= x <= IntMax
  }

  function Abs(x: int): nat {
    if x < 0 then -x else x
  }

  /** Java's `/` on integers: the quotient rounded toward zero. */
  function Quot(n: int, d: int): (q: int)
    requires d != 0
    ensures Abs(n - q * d) < Abs(d)
    ensures n - q * d == 0 || (n - q * d < 0 <==> n < 0)
    ensures n >= 0 && d > 0 ==> q == n / d
  {
    var m := Abs(n) / Abs(d);
    var q := if (n < 0) == (d < 0) then m else -m;
    QuotRemainder(n, d, q);
    q
  }

  lemma QuotRemainder(n: int, d: int, q: int)
    requires d != 0
    requires q == if (n < 0) == (d < 0) then Abs(n) / Abs(d) else -(Abs(n) / Abs(d))
    ensures n - q * d == if n < 0 then -(Abs(n) % Abs(d)) else Abs(n) % Abs(d)
    ensures Abs(n - q * d) < Abs(d)
    ensures n - q * d == 0 || (n - q * d < 0 <==> n < 0)
  {
    var a, b := Abs(n), Abs(d);
    var q0: int := a / b;
    assert a == q0 * b + a % b;
    if d < 0 {
      assert q * d == (-q) * b;
    }
    assert q * d == if n < 0 then -(q0 * b) else q0 * b;
  }

  /** Java's `%` on integers: the remainder takes the sign of the dividend. */
  function Rem(n: int, d: int): (r: int)
    requires d != 0
    ensures n == Quot(n, d) * d + r
    ensures Abs(r) < Abs(d)
    ensures r == 0 || (r < 0 <==> n < 0)
  {
    n - Quot(n, d) * d
  }

  /** Java's `(int)` cast of a float or double: toward zero, saturating at the int range. */
  function CastToInt(x: real): (r: int)
    ensures IsInt32(r)
  {
    var t := if x >= 0.0 then x.Floor else -((-x).Floor);
    if t < IntMin then IntMin else if t > IntMax then IntMax else t
  }

  /** The cast truncates toward zero and, inside the int range, loses less than one. */
  lemma CastTowardZero(x: real)
    ensures IntMin as real <= x <= IntMax as real ==> -1.0 < x - CastToInt(x) as real < 1.0
    ensures x >= 0.0 ==> 0 <= CastToInt(x) && CastToInt(x) as real <= x
    ensures x <= 0.0 ==> CastToInt(x) <= 0 && x <= CastToInt(x) as real
  {
  }

  /** Two's-complement wrap-around of an exact result into the 32-bit int range. */
  function Wrap32(x: int): (r: int)
    ensures IsInt32(r)
    ensures (r - x) % 0x1_0000_0000 == 0
    ensures IsInt32(x) ==> r == x
  {
    var m := x % 0x1_0000_0000;
    if m > IntMax then m - 0x1_0000_0000 else m
  }
}
