/** C integer semantics the driver relies on: truncating signed division,
    conversion to unsigned 8-bit, wrap-around of 32-bit signed products. */
module CInt {

  type u8 = x: int | 0 <= x < 0x100
  type u16 = x: int | 0 <= x < 0x1_0000

  function Abs(x: int): nat { if x < 0 then -x else x }

  /** C's `/` on signed operands: the quotient is truncated toward zero. */
  function Div(a: int, b: int): int
    requires b != 0
  {
    if (a < 0) == (b < 0) then Abs(a) / Abs(b) else -(Abs(a) / Abs(b))
  }

  /** C's `%` on signed operands. */
  function Rem(a: int, b: int): int
    requires b != 0
  {
    if a < 0 then -(Abs(a) % Abs(b)) else Abs(a) % Abs(b)
  }

  /** The C99 division rules: `a == b * (a / b) + a % b`, the quotient is
      truncated toward zero and the remainder takes the sign of the
      dividend. */
  lemma DivRem(a: int, b: int)
    requires b != 0
    ensures Abs(b) * Abs(Div(a, b)) <= Abs(a) < Abs(b) * (Abs(Div(a, b)) + 1)
    ensures Div(a, b) == 0 || (Div(a, b) < 0 <==> (a < 0) != (b < 0))
    ensures a == b * Div(a, b) + Rem(a, b)
    ensures Abs(Rem(a, b)) < Abs(b)
    ensures Rem(a, b) == 0 || (Rem(a, b) < 0 <==> a < 0)
  {
    var m := Abs(a) / Abs(b);
    NatDivBounds(Abs(a), Abs(b));
    assert Abs(Div(a, b)) == m;
  }

  lemma NatDivBounds(n: nat, d: nat)
    requires d > 0
    ensures d * (n / d) <= n < d * (n / d + 1)
    ensures n == d * (n / d) + n % d
  {
  }

  /** `DIV_ROUND_CLOSEST(x, d)` as the no-OS utility defines it:
      `(x + d / 2) / d`, with C's truncating division. */
  function DivRoundClosest(x: int, d: int): int
    requires d > 0
  {
    Div(x + Div(d, 2), d)
  }

  /** For a non-negative numerator the result is the quotient rounded to
      the nearest integer, halves rounded up. */
  lemma DivRoundClosestNearest(x: int, d: int)
    requires d > 0
    ensures var q := DivRoundClosest(x, d);
      x >= 0 ==> d * q <= x + d / 2 < d * (q + 1)
  {
    DivRem(d, 2);
    DivRem(x + Div(d, 2), d);
  }

  /** Assignment of an `int` to a `uint8_t`: reduction modulo 2^8. */
  function ToU8(x: int): u8
  {
    x % 0x100
  }

  /** The value a 32-bit two's-complement `int` holds after an operation
      whose mathematical result is `x`. */
  function Wrap32(x: int): (r: int)
    ensures -0x8000_0000 <= r < 0x8000_0000
    ensures (r - x) % 0x1_0000_0000 == 0
    ensures -0x8000_0000 <= x < 0x8000_0000 ==> r == x
  {
    (x + 0x8000_0000) % 0x1_0000_0000 - 0x8000_0000
  }

  lemma DivRemExamples()
    ensures Div(-7, 2) == -3 && Rem(-7, 2) == -1
    ensures Div(7, -2) == -3 && Rem(7, -2) == 1
    ensures Rem(-6, 4) == -2 && Div(-6, 4) == -1
  {
  }
}
