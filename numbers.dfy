/** Option, for lookups and reads that the source answers with an exception or a miss. */
module Wrappers {
  datatype Option<+T> = None | Some(value: T)
}

/**
 * The integer semantics of C#'s `int` as the tutorial program uses it:
 * 32-bit two's-complement values whose unchecked arithmetic wraps around,
 * division that truncates toward zero, and the decimal text `int.ToString()`
 * produces (with `-` as the negative sign).
 */
module Numbers {
  import opened Wrappers

  const TwoTo31: int := 0x8000_0000
  const TwoTo32: int := 0x1_0000_0000

  /** C#'s `int`. */
  newtype int32 = x: int | -0x8000_0000 <= x < 0x8000_0000

  function Min(a: int, b: int): (m: int)
    ensures m <= a && m <= b && (m == a || m == b)
  {
    if a <= b then a else b
  }

  /** The value unchecked C# arithmetic stores for the mathematical result x. */
  function Wrap(x: int): (r: int32)
    ensures -TwoTo31 <= x < TwoTo31 ==> r as int == x
    ensures (x - r as int) % TwoTo32 == 0
  {
    ((x + TwoTo31) % TwoTo32 - TwoTo31) as int32
  }

  /** Two integers wrap to the same int32 exactly when they are congruent modulo 2^32. */
  lemma WrapCongruent(x: int, y: int)
    requires (x - y) % TwoTo32 == 0
    ensures Wrap(x) == Wrap(y)
  {
    var k := (x - y) / TwoTo32;
    assert x == y + k * TwoTo32;
    assert (x + TwoTo31) % TwoTo32 == (y + TwoTo31) % TwoTo32 by {
      ModShift(y + TwoTo31, k);
    }
  }

  lemma ModShift(a: int, k: int)
    ensures (a + k * TwoTo32) % TwoTo32 == a % TwoTo32
  {
    var q := a / TwoTo32;
    var r := a % TwoTo32;
    assert a + k * TwoTo32 == (q + k) * TwoTo32 + r;
  }

  /** Adding onto a wrapped value wraps like adding onto the exact one. */
  lemma WrapAdd(x: int, n: int)
    ensures Wrap(Wrap(x) as int + n) == Wrap(x + n)
  {
    WrapCongruent(Wrap(x) as int + n, x + n);
  }

  /** Subtracting n after adding n, both with wrap-around, gives back the starting value. */
  lemma WrapAddSub(s: int32, n: int32)
    ensures Wrap(Wrap(s as int + n as int) as int - n as int) == s
  {
    WrapAdd(s as int + n as int, -(n as int));
  }

  /** C#'s `a / 2` on int: the quotient truncated toward zero. */
  function HalfTruncated(a: int): (h: int)
    ensures a >= 0 ==> 0 <= 2 * h <= a < 2 * h + 2
    ensures a < 0 ==> 2 * h - 2 < a <= 2 * h <= 0
  {
    if a >= 0 then a / 2 else -((-a) / 2)
  }

  predicate IsDigit(c: char) {
    '0' <= c <= '9'
  }

  predicate AllDigits(s: string) {
    forall i :: 0 <= i < |s| ==> IsDigit(s[i])
  }

  function DigitChar(d: nat): (c: char)
    requires d < 10
    ensures IsDigit(c) && c as int - '0' as int == d
  {
    ('0' as int + d) as char
  }

  function DigitValue(c: char): (d: nat)
    requires IsDigit(c)
    ensures d < 10
  {
    c as int - '0' as int
  }

  /** The decimal digits of n, most significant first, without leading zeros. */
  function NatToString(n: nat): (s: string)
    ensures 0 < |s| && AllDigits(s)
    ensures |s| > 1 ==> s[0] != '0'
  {
    if n < 10 then [DigitChar(n)] else NatToString(n / 10) + [DigitChar(n % 10)]
  }

  /** `int.ToString()`: a minus sign for negative numbers, then the decimal digits. */
  function IntToString(n: int): (s: string)
    ensures 0 < |s| && ' ' !in s
    ensures (n < 0) == (s[0] == '-')
  {
    if n < 0 then "-" + NatToString(-n) else NatToString(n)
  }

  /** The number a nonempty string of decimal digits denotes. */
  function DigitsValue(s: string): nat
    requires AllDigits(s)
  {
    if s == [] then 0 else DigitsValue(s[..|s| - 1]) * 10 + DigitValue(s[|s| - 1])
  }

  /** Reads an optionally negative decimal integer; None for any other text. */
  function ParseInt(s: string): Option<int> {
    if 1 < |s| && s[0] == '-' && AllDigits(s[1..]) then Some(-(DigitsValue(s[1..]) as int))
    else if 0 < |s| && AllDigits(s) then Some(DigitsValue(s))
    else None
  }

  lemma {:induction false} NatToStringValue(n: nat)
    ensures DigitsValue(NatToString(n)) == n
  {
    var s := NatToString(n);
    if n >= 10 {
      NatToStringValue(n / 10);
      assert s[..|s| - 1] == NatToString(n / 10);
    }
  }

  /** The text int.ToString() gives is read back as the same number. */
  lemma IntToStringRoundTrip(n: int)
    ensures ParseInt(IntToString(n)) == Some(n)
  {
    if n < 0 {
      NatToStringValue(-n);
      assert IntToString(n)[1..] == NatToString(-n);
    } else {
      NatToStringValue(n);
    }
  }

  /** So two different numbers never print alike. */
  lemma IntToStringInjective(a: int, b: int)
    requires IntToString(a) == IntToString(b)
    ensures a == b
  {
    IntToStringRoundTrip(a);
    IntToStringRoundTrip(b);
  }
}
