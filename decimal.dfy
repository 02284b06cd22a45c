/**
  Decimal rendering of integers, as Java's String.valueOf(long) and
  String.format("%s", aLong) produce it, with leading-zero padding for the
  timestamp fields, and the parser that inverts both.
*/
module Decimal {
  import opened Wrappers

  predicate IsDigit(c: char) { '0' <= c <= '9' }

  predicate AllDigits(s: string) { forall i :: 0 <= i < |s| ==> IsDigit(s[i]) }

  function DigitChar(d: nat): (c: char)
    requires d < 10
    ensures IsDigit(c)
  {
    (d + '0' as int) as char
  }

  function DigitValue(c: char): (d: nat)
    requires IsDigit(c)
    ensures d < 10
  {
    c as int - '0' as int
  }

  /** The shortest decimal numeral of n (no sign, no leading zero). */
  function NatToString(n: nat): (s: string)
    ensures |s| > 0 && AllDigits(s)
    ensures |s| > 1 ==> s[0] != '0'
  {
    if n < 10 then [DigitChar(n)] else NatToString(n / 10) + [DigitChar(n % 10)]
  }

  /** The value of a numeral, read most significant digit first. */
  function DigitsValue(s: string): nat
    requires AllDigits(s)
  {
    if s == [] then 0 else DigitsValue(s[..|s| - 1]) * 10 + DigitValue(s[|s| - 1])
  }

  lemma {:induction false} NatToStringRoundTrip(n: nat)
    ensures DigitsValue(NatToString(n)) == n
  {
    var s := NatToString(n);
    if n >= 10 {
      assert s[..|s| - 1] == NatToString(n / 10);
      NatToStringRoundTrip(n / 10);
    }
  }

  /** String.valueOf(long): a minus sign for negative values, then the numeral of the magnitude. */
  function LongToString(n: int): (s: string)
  {
    if n < 0 then "-" + NatToString(-n) else NatToString(n)
  }

  /** Reads an optionally signed numeral; None for anything else. */
  function ParseLong(s: string): Option<int>
  {
    if |s| > 1 && s[0] == '-' && AllDigits(s[1..]) then Some(0 - DigitsValue(s[1..]) as int)
    else if |s| > 0 && AllDigits(s) then Some(DigitsValue(s))
    else None
  }

  /** Parsing inverts rendering, so the rendering of an id loses nothing. */
  lemma LongToStringRoundTrip(n: int)
    ensures ParseLong(LongToString(n)) == Some(n)
  {
    if n < 0 {
      NatToStringRoundTrip(-n);
      ParseNegative(NatToString(-n));
    } else {
      NatToStringRoundTrip(n);
      ParseNonNegative(NatToString(n));
    }
  }

  lemma ParseNegative(t: string)
    requires |t| > 0 && AllDigits(t)
    ensures ParseLong("-" + t) == Some(0 - DigitsValue(t) as int)
  {
    assert ("-" + t)[1..] == t;
  }

  lemma ParseNonNegative(t: string)
    requires |t| > 0 && AllDigits(t)
    ensures ParseLong(t) == Some(DigitsValue(t))
  {
    assert IsDigit(t[0]);
  }

  lemma LongToStringInjective(a: int, b: int)
    ensures LongToString(a) == LongToString(b) <==> a == b
  {
    LongToStringRoundTrip(a);
    LongToStringRoundTrip(b);
  }

  function Zeros(k: nat): (s: string)
    ensures |s| == k && AllDigits(s)
  {
    seq(k, _ => '0')
  }

  /** The numeral of n, left-padded with zeros to at least `width` characters (SimpleDateFormat's "yyyy", "MM", ...). */
  function ZeroPad(n: nat, width: nat): (s: string)
    ensures AllDigits(s) && |s| >= width && |s| >= |NatToString(n)|
  {
    var t := NatToString(n);
    if |t| >= width then t else Zeros(width - |t|) + t
  }

  lemma {:induction false} ZerosValue(k: nat)
    ensures DigitsValue(Zeros(k)) == 0
  {
    if k > 0 {
      assert Zeros(k)[..k - 1] == Zeros(k - 1);
      ZerosValue(k - 1);
    }
  }

  lemma {:induction false} LeadingZerosValue(k: nat, t: string)
    requires AllDigits(t)
    ensures DigitsValue(Zeros(k) + t) == DigitsValue(t)
    decreases |t|
  {
    if t == [] {
      assert Zeros(k) + t == Zeros(k);
      ZerosValue(k);
    } else {
      var u := Zeros(k) + t;
      assert u[..|u| - 1] == Zeros(k) + t[..|t| - 1];
      LeadingZerosValue(k, t[..|t| - 1]);
    }
  }

  /** Padding does not change the value of the numeral. */
  lemma ZeroPadValue(n: nat, width: nat)
    ensures DigitsValue(ZeroPad(n, width)) == n
  {
    var t := NatToString(n);
    NatToStringRoundTrip(n);
    if |t| < width {
      var u := Zeros(width - |t|) + t;
      assert ZeroPad(n, width) == u;
      LeadingZerosValue(width - |t|, t);
      assert DigitsValue(u) == n;
    } else {
      assert ZeroPad(n, width) == t;
    }
  }

  function Pow10(k: nat): (p: nat)
    ensures p >= 1
  {
    if k == 0 then 1 else 10 * Pow10(k - 1)
  }

  lemma {:induction false} NatToStringLength(n: nat, k: nat)
    requires 1 <= k && n < Pow10(k)
    ensures |NatToString(n)| <= k
  {
    if n >= 10 {
      assert k >= 2;
      assert n / 10 < Pow10(k - 1);
      NatToStringLength(n / 10, k - 1);
    }
  }

  /** A value below 10^width pads to exactly `width` characters. */
  lemma ZeroPadLength(n: nat, width: nat)
    requires 1 <= width && n < Pow10(width)
    ensures |ZeroPad(n, width)| == width
  {
    NatToStringLength(n, width);
  }
}
