/** Decimal rendering of integers, as Python's `str(i)` and `f'{i}'` do it:
    an optional minus sign followed by the digits, with no leading zeros. */
module Decimal {

  import opened Wrappers

  predicate IsDigit(c: char) { '0' <= c <= '9' }

  predicate AllDigits(s: string) { forall k :: 0 <= k < |s| ==> IsDigit(s[k]) }

  function DigitChar(d: nat): (c: char)
    requires d < 10
    ensures IsDigit(c) && c as int - '0' as int == d
  {
    "0123456789"[d]
  }

  /** The canonical decimal numeral of a natural number. */
  function NatToString(n: nat): (s: string)
    ensures |s| >= 1 && AllDigits(s)
    ensures |s| > 1 ==> s[0] != '0'
    ensures s[0] == '0' ==> n == 0
    decreases n
  {
    if n < 10 then [DigitChar(n)]
    else NatToString(n / 10) + [DigitChar(n % 10)]
  }

  /** `str(n)` for a Python int: a minus sign only for negative values. */
  function IntToString(n: int): (s: string)
    ensures |s| >= 1
    ensures s[0] == '-' <==> n < 0
    ensures ' ' !in s
  {
    if n < 0 then "-" + NatToString(-n) else NatToString(n)
  }

  /** The value of a string of decimal digits (most significant first). */
  function DigitsValue(s: string): nat
    requires AllDigits(s)
    decreases |s|
  {
    if s == [] then 0
    else DigitsValue(s[..|s| - 1]) * 10 + (s[|s| - 1] as int - '0' as int)
  }

  /** Reads back a numeral: an optional minus sign and at least one digit. */
  function ParseInt(s: string): Option<int>
  {
    if s == [] then None
    else if s[0] == '-' then
      (if |s| >= 2 && AllDigits(s[1..]) then Some(0 - DigitsValue(s[1..]) as int) else None)
    else if AllDigits(s) then Some(DigitsValue(s))
    else None
  }

  lemma {:induction false} NatToStringRoundTrip(n: nat)
    ensures DigitsValue(NatToString(n)) == n
    decreases n
  {
    var s := NatToString(n);
    if n >= 10 {
      var p := NatToString(n / 10);
      assert s == p + [DigitChar(n % 10)];
      assert s[..|s| - 1] == p;
      NatToStringRoundTrip(n / 10);
    }
  }

  /** Parsing the rendering of any integer gives the integer back. */
  lemma IntToStringRoundTrip(n: int)
    ensures ParseInt(IntToString(n)) == Some(n)
  {
    var s := IntToString(n);
    if n < 0 {
      var m: nat := -n;
      var d := NatToString(m);
      assert s == "-" + d;
      assert s[1..] == d;
      assert |s| >= 2 && s[0] == '-' && AllDigits(s[1..]);
      NatToStringRoundTrip(m);
      var v := DigitsValue(d);
      assert v == m;
      assert ParseInt(s) == Some(0 - v as int);
    } else {
      assert !(s[0] == '-');
      NatToStringRoundTrip(n);
    }
  }

  /** Distinct integers have distinct renderings. */
  lemma IntToStringInjective(a: int, b: int)
    requires IntToString(a) == IntToString(b)
    ensures a == b
  {
    IntToStringRoundTrip(a);
    IntToStringRoundTrip(b);
  }
}
