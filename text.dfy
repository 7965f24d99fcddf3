/**
 * The few JUCE String operations the core relies on: decimal rendering of
 * integers (String(int)), left padding (String::paddedLeft) and reading
 * the leading integer of a text (the integral part of String::getFloatValue).
 */
module Text {

  predicate IsDigit(c: char)
  {
    '0' <= c <= '9'
  }

  predicate AllDigits(s: string)
  {
    forall i :: 0 <= i < |s| ==> IsDigit(s[i])
  }

  function DigitChar(d: nat): (c: char)
    requires d < 10
    ensures IsDigit(c)
  {
    "0123456789"[d]
  }

  function DigitValue(c: char): (d: nat)
    requires IsDigit(c)
    ensures d < 10
  {
    (c as int - '0' as int) as nat
  }

  lemma DigitRoundTrip(d: nat)
    requires d < 10
    ensures DigitValue(DigitChar(d)) == d
  {
  }

  /** Decimal digits of a natural number, most significant first, no leading zero. */
  function NatToString(n: nat): (s: string)
    ensures |s| >= 1 && AllDigits(s)
    ensures n >= 10 ==> s[0] != '0'
    ensures n < 10 <==> |s| == 1
    decreases n
  {
    if n < 10 then [DigitChar(n)] else NatToString(n / 10) + [DigitChar(n % 10)]
  }

  /** JUCE String(int): an optional minus sign followed by the digits. */
  function IntToString(i: int): (s: string)
    ensures |s| >= 1
    ensures i < 0 <==> s[0] == '-'
  {
    if i < 0 then "-" + NatToString(-i) else NatToString(i)
  }

  /** Value of a string of decimal digits. */
  function DigitsValue(s: string): (n: nat)
    requires AllDigits(s)
  {
    if s == [] then 0 else DigitsValue(s[..|s| - 1]) * 10 + DigitValue(s[|s| - 1])
  }

  lemma {:induction false} NatToStringRoundTrip(n: nat)
    ensures DigitsValue(NatToString(n)) == n
    decreases n
  {
    var s := NatToString(n);
    if n < 10 {
      DigitRoundTrip(n);
    } else {
      NatToStringRoundTrip(n / 10);
      assert s[..|s| - 1] == NatToString(n / 10);
      DigitRoundTrip(n % 10);
    }
  }

  /** Length of the longest prefix of `s` made of decimal digits. */
  function DigitPrefixLength(s: string): (k: nat)
    ensures k <= |s| && AllDigits(s[..k])
    ensures k < |s| ==> !IsDigit(s[k])
  {
    if s == [] || !IsDigit(s[0]) then 0
    else
      var k := 1 + DigitPrefixLength(s[1..]);
      assert s[..k] == [s[0]] + s[1..][..k - 1];
      k
  }

  lemma DigitPrefixOfDigits(s: string)
    requires AllDigits(s)
    ensures DigitPrefixLength(s) == |s|
  {
  }

  /**
   * The integer a text starts with: an optional sign, then the longest run
   * of digits; a text without leading digits reads as 0.
   */
  function LeadingInt(s: string): (i: int)
    ensures s == [] ==> i == 0
  {
    if |s| > 0 && (s[0] == '-' || s[0] == '+') then
      var t := s[1..];
      var k := DigitPrefixLength(t);
      var n: int := DigitsValue(t[..k]);
      if s[0] == '-' then -n else n
    else
      DigitsValue(s[..DigitPrefixLength(s)])
  }

  lemma DigitsRead(d: string)
    requires AllDigits(d)
    ensures DigitsValue(d[..DigitPrefixLength(d)]) == DigitsValue(d)
  {
    DigitPrefixOfDigits(d);
    assert d[..|d|] == d;
  }

  lemma IntToStringRoundTrip(i: int)
    ensures LeadingInt(IntToString(i)) == i
  {
    var d := if i < 0 then NatToString(-i) else NatToString(i);
    DigitsRead(d);
    NatToStringRoundTrip(if i < 0 then -i else i);
    if i < 0 {
      assert IntToString(i)[1..] == d;
    } else {
      assert IntToString(i) == d;
    }
  }

  /** String::paddedLeft: prepend `c` until the text is at least `width` long. */
  function PadLeft(s: string, c: char, width: nat): (r: string)
    ensures |r| == if |s| < width then width else |s|
    ensures r[|r| - |s|..] == s
    ensures forall i :: 0 <= i < |r| - |s| ==> r[i] == c
  {
    if |s| < width then seq(width - |s|, _ => c) + s else s
  }

  /** Padding digits with zeros keeps them digits and keeps their value. */
  lemma {:induction false} PadZerosValue(s: string, width: nat)
    requires AllDigits(s)
    ensures AllDigits(PadLeft(s, '0', width)) && DigitsValue(PadLeft(s, '0', width)) == DigitsValue(s)
    decreases width
  {
    var p := PadLeft(s, '0', width);
    if |s| < width {
      assert p == ['0'] + PadLeft(s, '0', width - 1);
      PadZerosValue(s, width - 1);
      ZeroHeadValue(PadLeft(s, '0', width - 1));
    }
  }

  /** A leading zero does not change the value of a digit string. */
  lemma {:induction false} ZeroHeadValue(s: string)
    requires AllDigits(s)
    ensures AllDigits(['0'] + s) && DigitsValue(['0'] + s) == DigitsValue(s)
    decreases |s|
  {
    if s != [] {
      var n := |s| - 1;
      ZeroHeadValue(s[..n]);
      assert (['0'] + s)[..|s|] == ['0'] + s[..n];
    }
  }
}
