// C integer semantics shared by the models of the C, C++ and embedded sources:
// fixed-width wrap-around and division that truncates toward zero.
module CInt {
  /** Values an unsigned 8-bit variable can hold. */
  type U8 = x: int | 0 <= x < 256

  /** Values an unsigned 32-bit variable can hold. */
  type U32 = x: int | 0 <= x < 0x1_0000_0000

  datatype Option<T> = None | Some(value: T)

  /** Conversion of any integer to uint8_t (reduction modulo 2^8). */
  function Wrap8(x: int): (r: U8)
    ensures (r - x) % 256 == 0
    ensures 0 <= x < 256 ==> r == x
  {
    x % 256
  }

  /** Conversion of any integer to uint32_t (reduction modulo 2^32). */
  function Wrap32(x: int): (r: U32)
    ensures (r - x) % 0x1_0000_0000 == 0
    ensures 0 <= x < 0x1_0000_0000 ==> r == x
  {
    x % 0x1_0000_0000
  }

  function Abs(x: int): (r: nat)
    ensures r == x || r == -x
  {
    if x < 0 then -x else x
  }

  /** C's `/` on signed operands: the quotient truncated toward zero. */
  function CDiv(a: int, b: int): (q: int)
    requires b != 0
    ensures Abs(q) == Abs(a) / Abs(b)
    ensures q == 0 || (q < 0) == ((a < 0) != (b < 0))
  {
    var q := Abs(a) / Abs(b);
    if (a < 0) != (b < 0) then -q else q
  }

  /** C's `%` on signed operands: the remainder takes the sign of the dividend. */
  function CMod(a: int, b: int): (m: int)
    requires b != 0
    ensures Abs(m) == Abs(a) % Abs(b)
    ensures m == 0 || (m < 0) == (a < 0)
  {
    if a >= 0 then a % Abs(b) else -(-a % Abs(b))
  }

  /** On a non-negative dividend and a positive divisor C and Dafny agree. */
  lemma CDivNonNegative(a: int, b: int)
    requires a >= 0 && b > 0
    ensures CDiv(a, b) == a / b && CMod(a, b) == a % b
  {
  }

  /** Division truncating toward zero by a positive divisor is monotone. */
  lemma CDivMonotone(a: int, b: int, d: int)
    requires a <= b && d > 0
    ensures CDiv(a, d) <= CDiv(b, d)
  {
    if a >= 0 {
      DivMonotone(a, b, d);
    } else if b <= 0 {
      DivMonotone(-b, -a, d);
    }
  }

  lemma DivMonotone(a: int, b: int, d: int)
    requires 0 <= a <= b && d > 0
    ensures a / d <= b / d
  {
    assert (a / d) * d <= a;
    assert b < (b / d + 1) * d;
    MulCancel(a / d, b / d + 1, d);
  }

  /** Multiplying and then dividing by the same positive number is the identity. */
  lemma DivExact(k: int, d: int)
    requires d > 0
    ensures (d * k) / d == k
  {
    var q, r := (d * k) / d, (d * k) % d;
    assert d * k == d * q + r && 0 <= r < d;
    assert d * (k - q) == r;
    MulCancel(q, k + 1, d);
    MulCancel(k - 1, q, d);
  }

  lemma MulCancel(x: int, y: int, d: int)
    requires d > 0 && x * d < y * d
    ensures x < y
  {
    assert (y - x) * d > 0;
  }
}
