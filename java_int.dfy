/**
 * The few pieces of Java `int` arithmetic the program depends on: the 32-bit
 * range, `++` with wrap-around, the truncating `/` and `%`, and the decimal
 * text that string concatenation (`"" + n`) produces.
 */
module JavaInt {

  const MinInt32: int := -0x8000_0000
  const MaxInt32: int := 0x7fff_ffff

  /** A Java `int`. */
  type Int32 = n: int | MinInt32 <= n <= MaxInt32

  /** Java's `n++` on an `int`: wraps from the largest value to the smallest. */
  function Inc(n: Int32): (r: Int32)
    ensures r == Wrap32(n + 1)
  {
    if n == MaxInt32 then MinInt32 else n + 1
  }

  /** The Java `int` that an exact result `n` wraps to: equal to `n` modulo 2^32. */
  function Wrap32(n: int): (r: Int32)
    ensures MinInt32 <= n <= MaxInt32 ==> r == n
    ensures (r - n) % 0x1_0000_0000 == 0
  {
    (n - MinInt32) % 0x1_0000_0000 + MinInt32
  }

  /** `(char) code`: the low 16 bits of the code, as a UTF-16 unit. */
  function CharOf(code: int): (unit: int)
    ensures 0 <= unit < 0x1_0000
    ensures 0 <= code < 0x1_0000 ==> unit == code
    ensures (unit - code) % 0x1_0000 == 0
  {
    code % 0x1_0000
  }

  /**
   * Java's `a / b`: the quotient is truncated toward zero, so what is left
   * over is smaller than `b` and has the sign of `a`.
   */
  function Div(a: int, b: int): (q: int)
    requires b > 0
    ensures a >= 0 ==> 0 <= a - q * b < b
    ensures a < 0 ==> -b < a - q * b <= 0
  {
    if a >= 0 then a / b else -((-a) / b)
  }

  /** Java's `a % b`: the remainder takes the sign of the dividend. */
  function Rem(a: int, b: int): (r: int)
    requires b > 0
    ensures a == Div(a, b) * b + r
    ensures a >= 0 ==> 0 <= r < b
    ensures a < 0 ==> -b < r <= 0
  {
    if a >= 0 then a % b else -((-a) % b)
  }

  function DigitChar(d: int): (c: char)
    requires 0 <= d < 10
    ensures '0' <= c <= '9'
  {
    ('0' as int + d) as char
  }

  /** The decimal digits of a natural number, most significant first, no leading zeros. */
  function NatToString(n: nat): (s: string)
    ensures |s| >= 1
    ensures forall i :: 0 <= i < |s| ==> '0' <= s[i] <= '9'
    ensures n >= 10 ==> s[0] != '0'
  {
    if n < 10 then [DigitChar(n)] else NatToString(n / 10) + [DigitChar(n % 10)]
  }

  /** `Integer.toString(n)`: the digits of |n|, preceded by '-' when n is negative. */
  function IntToString(n: int): (s: string)
    ensures |s| >= 1
    ensures '\n' !in s
    ensures (s[0] == '-') <==> n < 0
  {
    if n < 0 then "-" + NatToString(-n) else NatToString(n)
  }

  /** The number a string of decimal digits denotes, most significant digit first. */
  function DigitsValue(s: string): nat
    requires forall i :: 0 <= i < |s| ==> '0' <= s[i] <= '9'
  {
    if |s| == 0 then 0 else DigitsValue(s[..|s| - 1]) * 10 + (s[|s| - 1] as int - '0' as int)
  }

  /** The digits `NatToString` writes denote the number written. */
  lemma {:induction false} NatToStringValue(n: nat)
    ensures DigitsValue(NatToString(n)) == n
  {
    var s := NatToString(n);
    if n >= 10 {
      NatToStringValue(n / 10);
      assert s[..|s| - 1] == NatToString(n / 10);
    }
  }

  /**
   * The text `IntToString` writes denotes the number: its digits give |n|
   * and the sign is there exactly for negative numbers.
   */
  lemma IntToStringValue(n: int)
    ensures n < 0 ==> IntToString(n)[0] == '-' && IntToString(n)[1..] == NatToString(-n)
    ensures n < 0 ==> DigitsValue(IntToString(n)[1..]) == -n
    ensures n >= 0 ==> DigitsValue(IntToString(n)) == n
  {
    if n < 0 {
      assert IntToString(n)[1..] == NatToString(-n);
      NatToStringValue(-n);
    } else {
      NatToStringValue(n);
    }
  }

  /** Different numbers are written differently. */
  lemma IntToStringInjective(a: int, b: int)
    ensures IntToString(a) == IntToString(b) ==> a == b
  {
    IntToStringValue(a);
    IntToStringValue(b);
  }
}
