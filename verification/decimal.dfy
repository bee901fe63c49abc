/**
  Canonical text of the scalar values the serialisers render: Rust's
  `to_string` for `i64` (optional minus sign, decimal digits, no leading
  zeros) and for `bool` ("true" / "false"), with readers that invert them.
*/
module Decimal {
  import opened Wrappers

  /** Rust's `i64`. */
  newtype I64 = x: int | -0x8000_0000_0000_0000 <= x < 0x8000_0000_0000_0000

  predicate IsDigit(c: char)
  {
    '0' <= c <= '9'
  }

  predicate AllDigits(s: string)
  {
    forall i :: 0 <= i < |s| ==> IsDigit(s[i])
  }

  function DigitValue(c: char): nat
    requires IsDigit(c)
  {
    c as int - '0' as int
  }

  function DigitChar(d: nat): (c: char)
    requires d < 10
    ensures IsDigit(c) && DigitValue(c) == d
  {
    ('0' as int + d) as char
  }

  /** Decimal digits of `n`, most significant first, with no leading zero. */
  function NatText(n: nat): (s: string)
    ensures |s| > 0 && AllDigits(s)
    ensures s[0] == '0' ==> n == 0
    decreases n
  {
    if n < 10 then [DigitChar(n)] else NatText(n / 10) + [DigitChar(n % 10)]
  }

  /** The value of a string of decimal digits. */
  function DigitsValue(s: string): nat
    requires AllDigits(s)
    decreases |s|
  {
    if s == [] then 0 else DigitsValue(s[..|s| - 1]) * 10 + DigitValue(s[|s| - 1])
  }

  /** Rust's `to_string` on an integer. */
  function IntText(i: int): string
  {
    if i < 0 then "-" + NatText(-i) else NatText(i)
  }

  function I64Text(x: I64): string
  {
    IntText(x as int)
  }

  /** Reads an optional minus sign followed by one or more decimal digits. */
  function ParseInt(s: string): Option<int>
  {
    if |s| > 1 && s[0] == '-' && AllDigits(s[1..]) then Some(-(DigitsValue(s[1..]) as int))
    else if |s| > 0 && AllDigits(s) then Some(DigitsValue(s))
    else None
  }

  function ParseI64(s: string): Option<I64>
  {
    match ParseInt(s)
    case Some(i) => if -0x8000_0000_0000_0000 <= i < 0x8000_0000_0000_0000 then Some(i as I64) else None
    case None => None
  }

  /** Rust's `to_string` on a `bool`. */
  function BoolText(b: bool): string
  {
    if b then "true" else "false"
  }

  function ParseBool(s: string): Option<bool>
  {
    if s == "true" then Some(true) else if s == "false" then Some(false) else None
  }

  lemma {:induction false} NatTextRoundTrip(n: nat)
    ensures DigitsValue(NatText(n)) == n
    decreases n
  {
    if n >= 10 {
      var s := NatText(n);
      assert s[..|s| - 1] == NatText(n / 10);
      NatTextRoundTrip(n / 10);
    }
  }

  /** Reading the text of an integer gives the integer back. */
  lemma IntTextRoundTrip(i: int)
    ensures ParseInt(IntText(i)) == Some(i)
  {
    var s := IntText(i);
    if i < 0 {
      var t := NatText(-i);
      assert s == "-" + t && s[0] == '-' && s[1..] == t;
      NatTextRoundTrip(-i);
    } else {
      var t := NatText(i);
      assert s == t && IsDigit(s[0]);
      NatTextRoundTrip(i);
    }
  }

  lemma I64TextRoundTrip(x: I64)
    ensures ParseI64(I64Text(x)) == Some(x)
  {
    IntTextRoundTrip(x as int);
  }

  /** Distinct integers render as distinct texts. */
  lemma IntTextInjective(i: int, j: int)
    requires IntText(i) == IntText(j)
    ensures i == j
  {
    IntTextRoundTrip(i);
    IntTextRoundTrip(j);
  }

  lemma BoolTextRoundTrip(b: bool)
    ensures ParseBool(BoolText(b)) == Some(b)
  {
  }
}
