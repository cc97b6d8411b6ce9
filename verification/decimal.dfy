/**
 * Decimal rendering of integers, as PHP's string interpolation writes an
 * `int` (`"{$host}:{$port}"`), and the parser that reads it back.
 */
module Decimal {

  predicate IsDigit(c: char) {
    '0' <= c <= '9'
  }

  predicate AllDigits(s: string) {
    forall i :: 0 <= i < |s| ==> IsDigit(s[i])
  }

  function DigitChar(d: nat): (c: char)
    requires d < 10
    ensures IsDigit(c) && c as int - '0' as int == d
  {
    ('0' as int + d) as char
  }

  function DigitValue(c: char): (d: nat)
    requires IsDigit(c)
    ensures d < 10 && DigitChar(d) == c
  {
    c as int - '0' as int
  }

  /** The decimal digits of `n`, most significant first, with no leading zero. */
  function NatToString(n: nat): (s: string)
    ensures IsCanonicalNatText(s) && (n > 0 ==> s[0] != '0')
    decreases n
  {
    if n < 10 then [DigitChar(n)] else NatToString(n / 10) + [DigitChar(n % 10)]
  }

  /** PHP's rendering of an integer: a minus sign, then the digits of its magnitude. */
  function IntToString(i: int): (s: string)
    ensures IsCanonicalIntText(s) && (i < 0 <==> s[0] == '-') && ':' !in s
  {
    if i < 0 then "-" + NatToString(-i) else NatToString(i)
  }

  /** Text that `ParseInt` accepts: digits, optionally after one minus sign. */
  predicate IsIntText(s: string) {
    (|s| >= 1 && AllDigits(s)) || (|s| >= 2 && s[0] == '-' && AllDigits(s[1..]))
  }

  /** Digits with no leading zero: the only way PHP writes a natural number. */
  predicate IsCanonicalNatText(s: string) {
    |s| >= 1 && AllDigits(s) && (|s| > 1 ==> s[0] != '0')
  }

  /** Canonical digits, optionally after a minus sign that never precedes zero. */
  predicate IsCanonicalIntText(s: string) {
    IsCanonicalNatText(s) || (|s| >= 2 && s[0] == '-' && IsCanonicalNatText(s[1..]) && s[1] != '0')
  }

  function ParseNat(s: string): (n: nat)
    requires AllDigits(s)
  {
    if s == [] then 0 else ParseNat(s[..|s| - 1]) * 10 + DigitValue(s[|s| - 1])
  }

  function ParseInt(s: string): (i: int)
    requires IsIntText(s)
  {
    if s[0] == '-' then -(ParseNat(s[1..]) as int) else ParseNat(s)
  }

  /** Reading back the digits of `n` gives `n`. */
  lemma {:induction false} NatRoundTrip(n: nat)
    ensures ParseNat(NatToString(n)) == n
    decreases n
  {
    var s := NatToString(n);
    if n >= 10 {
      NatRoundTrip(n / 10);
      assert s[..|s| - 1] == NatToString(n / 10);
    }
  }

  /** Reading back PHP's rendering of `i` gives `i`, so the rendering loses nothing. */
  lemma IntRoundTrip(i: int)
    ensures ParseInt(IntToString(i)) == i
  {
    var s := IntToString(i);
    if i < 0 {
      assert s[1..] == NatToString(-i);
      NatRoundTrip(-i);
    } else {
      NatRoundTrip(i);
    }
  }

  /** Canonical digits that do not start with zero denote a positive number. */
  lemma {:induction false} ParseNatPositive(s: string)
    requires |s| >= 1 && AllDigits(s) && s[0] != '0'
    ensures ParseNat(s) >= 1
    decreases |s|
  {
    if |s| > 1 {
      ParseNatPositive(s[..|s| - 1]);
    }
  }

  /** Rendering the number that canonical digits denote gives those digits back. */
  lemma {:induction false} NatTextRoundTrip(s: string)
    requires IsCanonicalNatText(s)
    ensures NatToString(ParseNat(s)) == s
    decreases |s|
  {
    if |s| > 1 {
      var t := s[..|s| - 1];
      var d := DigitValue(s[|s| - 1]);
      ParseNatPositive(t);
      NatTextRoundTrip(t);
      var n := ParseNat(s);
      assert n == ParseNat(t) * 10 + d;
      assert n / 10 == ParseNat(t) && n % 10 == d;
      assert s == t + [s[|s| - 1]];
    }
  }

  /** Rendering the integer that canonical text denotes gives that text back. */
  lemma IntTextRoundTrip(s: string)
    requires IsCanonicalIntText(s)
    ensures IntToString(ParseInt(s)) == s
  {
    if s[0] == '-' {
      ParseNatPositive(s[1..]);
      NatTextRoundTrip(s[1..]);
      assert s == "-" + s[1..];
    } else {
      NatTextRoundTrip(s);
    }
  }

  /** Two canonical texts that denote the same integer are the same text: the rendering is unique. */
  lemma CanonicalIntTextUnique(a: string, b: string)
    requires IsCanonicalIntText(a) && IsCanonicalIntText(b) && ParseInt(a) == ParseInt(b)
    ensures a == b
  {
    IntTextRoundTrip(a);
    IntTextRoundTrip(b);
  }
}
