/**
 * Swift's fixed-width integers as the application uses them: parsing text
 * with `Int(_:)` and `Int32(_:)` (both fail on anything but an optional sign
 * followed by decimal digits, or on a value out of range) and printing an
 * `Int32` with `description` / `String(_:)`.
 */
module Integers {
  import opened Wrappers

  const INT32_MIN: int := -0x8000_0000
  const INT32_MAX: int := 0x7FFF_FFFF
  const INT64_MIN: int := -0x8000_0000_0000_0000
  const INT64_MAX: int := 0x7FFF_FFFF_FFFF_FFFF

  predicate IsInt32(n: int) { INT32_MIN <= n <= INT32_MAX }

  predicate IsDigit(c: char) { '0' <= c <= '9' }

  predicate AllDigits(s: string) { forall i :: 0 <= i < |s| ==> IsDigit(s[i]) }

  function DigitValue(c: char): nat
    requires IsDigit(c)
  {
    (c as int) - ('0' as int)
  }

  function DigitChar(d: nat): (c: char)
    requires d < 10
    ensures IsDigit(c) && DigitValue(c) == d
  {
    ('0' as int + d) as char
  }

  /** The value of a string of decimal digits, most significant first. */
  function DigitsValue(s: string): nat
    requires AllDigits(s)
  {
    if s == [] then 0 else 10 * DigitsValue(s[..|s| - 1]) + DigitValue(s[|s| - 1])
  }

  /** Decimal text of a natural number, without leading zeros. */
  function NatText(n: nat): (r: string)
    ensures |r| >= 1 && AllDigits(r)
  {
    if n < 10 then [DigitChar(n)] else NatText(n / 10) + [DigitChar(n % 10)]
  }

  /** `Int32.description` and `String(_: Int32)`: a minus sign for negatives, then the digits. */
  function IntText(n: int): (r: string)
    ensures |r| >= 1
    ensures forall i :: 0 <= i < |r| ==> IsDigit(r[i]) || r[i] == '-'
  {
    if n < 0 then "-" + NatText(-n) else NatText(n)
  }

  /**
   * `FixedWidthInteger.init?(_ text:)` in base 10 for a type whose range is
   * lo..hi: an optional leading '+' or '-', then at least one ASCII digit and
   * nothing else; a value outside the range is a failure too.
   */
  function ParseInteger(s: string, lo: int, hi: int): (r: Option<int>)
    ensures r.Some? ==> lo <= r.value <= hi
    ensures s == [] ==> r == None
    ensures r.Some? ==> forall i :: 0 <= i < |s| ==> IsDigit(s[i]) || (i == 0 && (s[i] == '-' || s[i] == '+'))
  {
    var signed := |s| > 0 && (s[0] == '-' || s[0] == '+');
    var digits := if signed then s[1..] else s;
    if digits == [] || !AllDigits(digits) then None
    else
      var v: int := if signed && s[0] == '-' then -(DigitsValue(digits) as int) else DigitsValue(digits);
      if lo <= v <= hi then Some(v) else None
  }

  /** Swift `Int32(text)`. */
  function ParseInt32(s: string): (r: Option<int>)
    ensures r.Some? ==> IsInt32(r.value)
  {
    ParseInteger(s, INT32_MIN, INT32_MAX)
  }

  /** Swift `Int(text)` on a 64-bit platform. */
  function ParseInt(s: string): (r: Option<int>)
    ensures r.Some? ==> INT64_MIN <= r.value <= INT64_MAX
  {
    ParseInteger(s, INT64_MIN, INT64_MAX)
  }

  /** Swift `Int32(text) ?? fallback`. */
  function ParseInt32Or(s: string, fallback: int): (r: int)
    ensures IsInt32(fallback) ==> IsInt32(r)
    ensures ParseInt32(s).None? ==> r == fallback
    ensures ParseInt32(s).Some? ==> r == ParseInt32(s).value
  {
    ParseInt32(s).GetOr(fallback)
  }

  lemma {:induction false} NatTextValue(n: nat)
    ensures DigitsValue(NatText(n)) == n
    decreases n
  {
    if n >= 10 {
      var s := NatText(n);
      NatTextValue(n / 10);
      assert s[..|s| - 1] == NatText(n / 10);
    }
  }

  /** Printing then parsing gives the number back, for every number the type can hold. */
  lemma ParseIntTextRoundTrip(n: int, lo: int, hi: int)
    requires lo <= n <= hi
    ensures ParseInteger(IntText(n), lo, hi) == Some(n)
  {
    var t := IntText(n);
    if n < 0 {
      NatTextValue(-n);
      assert t[1..] == NatText(-n);
    } else {
      NatTextValue(n);
      assert IsDigit(t[0]);
    }
  }

  lemma Int32TextRoundTrip(n: int)
    requires IsInt32(n)
    ensures ParseInt32(IntText(n)) == Some(n)
  {
    ParseIntTextRoundTrip(n, INT32_MIN, INT32_MAX);
  }

  /** Different numbers print differently. */
  lemma IntTextInjective(m: int, n: int)
    requires IntText(m) == IntText(n)
    ensures m == n
  {
    var lo := if m < n then m else n;
    var hi := if m < n then n else m;
    ParseIntTextRoundTrip(m, lo, hi);
    ParseIntTextRoundTrip(n, lo, hi);
  }
}
