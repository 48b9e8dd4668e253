/** Base-10 rendering and parsing of 64-bit signed integers, as done by Go's
    `strconv.FormatInt(n, 10)` and `strconv.ParseInt(s, 10, 64)`. */
module Decimal {
  import opened Wrappers

  const MinInt64: int := -0x8000_0000_0000_0000
  const MaxInt64: int := 0x7FFF_FFFF_FFFF_FFFF

  /** Go's `int64`. */
  type Int64 = n: int | MinInt64 <= n <= MaxInt64

  predicate IsDigit(c: char)
  {
    '0' <= c <= '9'
  }

  function DigitChar(d: int): (c: char)
    requires 0 <= d < 10
    ensures IsDigit(c)
  {
    (('0' as int) + d) as char
  }

  function DigitValue(c: char): (d: int)
    requires IsDigit(c)
    ensures 0 <= d < 10
  {
    (c as int) - ('0' as int)
  }

  predicate AllDigits(s: string)
  {
    forall i :: 0 <= i < |s| ==> IsDigit(s[i])
  }

  /** The decimal digits of `n`, most significant first, without leading
      zeros. */
  function FormatNat(n: nat): (s: string)
    ensures |s| >= 1 && AllDigits(s)
    ensures |s| > 1 ==> s[0] != '0'
  {
    if n < 10 then [DigitChar(n)]
    else FormatNat(n / 10) + [DigitChar(n % 10)]
  }

  /** `strconv.FormatInt(n, 10)`: a minus sign for negatives, then the
      digits of the magnitude. */
  function FormatInt(n: Int64): string
  {
    if n < 0 then "-" + FormatNat(-(n as int)) else FormatNat(n)
  }

  /** The value of a non-empty digit string read most significant first. */
  function DigitsValue(s: string): nat
    requires |s| >= 1 && AllDigits(s)
  {
    if |s| == 1 then DigitValue(s[0])
    else DigitsValue(s[..|s| - 1]) * 10 + DigitValue(s[|s| - 1])
  }

  /** `strconv.ParseInt(s, 10, 64)`: an optional sign followed by at least
      one decimal digit, and a value inside the `int64` range; anything
      else is a syntax or range error (`None`). */
  function ParseInt(s: string): (r: Option<Int64>)
    ensures r.Some? ==> |s| >= 1
  {
    var neg := |s| >= 1 && s[0] == '-';
    var digits := if |s| >= 1 && (s[0] == '-' || s[0] == '+') then s[1..] else s;
    if |digits| == 0 || !AllDigits(digits) then None
    else
      var v: int := if neg then -(DigitsValue(digits) as int) else DigitsValue(digits);
      if MinInt64 <= v <= MaxInt64 then Some(v) else None
  }

  lemma {:induction false} DigitsValueFormat(n: nat)
    ensures DigitsValue(FormatNat(n)) == n
  {
    if n >= 10 {
      var s := FormatNat(n);
      assert s[..|s| - 1] == FormatNat(n / 10);
      DigitsValueFormat(n / 10);
    }
  }

  /** Parsing the rendered decimal gives back the original integer, for
      every `int64`, negatives and both extremes included. */
  lemma ParseFormatInt(n: Int64)
    ensures ParseInt(FormatInt(n)) == Some(n)
  {
    DigitsValueFormat(if n < 0 then -(n as int) else n);
    if n < 0 {
      assert FormatInt(n)[1..] == FormatNat(-(n as int));
    }
  }

  /** Distinct integers render to distinct strings. */
  lemma FormatIntInjective(a: Int64, b: Int64)
    requires FormatInt(a) == FormatInt(b)
    ensures a == b
  {
    ParseFormatInt(a);
    ParseFormatInt(b);
  }
}
