/** Decimal rendering of integers as C's `printf("%d")` produces it, together with
    the parser that reads the printed text back. */
module Decimal {

  import opened Wrappers

  predicate IsDigit(c: char) {
    '0' <= c <= '9'
  }

  predicate AllDigits(s: string) {
    forall i :: 0 <= i < |s| ==> IsDigit(s[i])
  }

  /** Digits with no leading zero, except for "0" itself. */
  predicate CanonicalNat(t: string) {
    |t| >= 1 && AllDigits(t) && (|t| > 1 ==> t[0] != '0')
  }

  /** The only texts `%d` prints: a canonical magnitude, preceded by a minus sign
      exactly when the magnitude is not zero and the value is negative (never "-0"). */
  predicate Canonical(t: string) {
    CanonicalNat(t) || (|t| > 1 && t[0] == '-' && CanonicalNat(t[1..]) && t[1..] != "0")
  }

  function DigitChar(d: nat): (c: char)
    requires d < 10
    ensures IsDigit(c)
    ensures DigitValue(c) == d
  {
    ('0' as int + d) as char
  }

  function DigitValue(c: char): nat
    requires IsDigit(c)
  {
    c as int - '0' as int
  }

  /** The digits of `n`, most significant first, without leading zeros. */
  function NatToString(n: nat): (s: string)
    ensures CanonicalNat(s)
    ensures s == "0" <==> n == 0
    decreases n
  {
    if n < 10 then [DigitChar(n)]
    else NatToString(n / 10) + [DigitChar(n % 10)]
  }

  /** `%d`: a minus sign for negative values, then the digits of the magnitude. */
  function IntToString(n: int): (s: string)
    ensures Canonical(s)
    ensures n < 0 <==> s[0] == '-'
  {
    if n < 0 then
      var t := "-" + NatToString(-n);
      assert t[1..] == NatToString(-n);
      t
    else NatToString(n)
  }

  /** The value of a string of digits, read most significant first. */
  function StringToNat(s: string): nat
    requires AllDigits(s)
    decreases |s|
  {
    if |s| == 0 then 0
    else StringToNat(s[..|s| - 1]) * 10 + DigitValue(s[|s| - 1])
  }

  /** Reads an optionally negative decimal; anything else is `None`. */
  function ParseInt(s: string): Option<int> {
    if |s| > 1 && s[0] == '-' && AllDigits(s[1..]) then
      var magnitude: int := StringToNat(s[1..]);
      Some(-magnitude)
    else if |s| > 0 && AllDigits(s) then Some(StringToNat(s))
    else None
  }

  lemma {:induction false} NatRoundTrip(n: nat)
    ensures StringToNat(NatToString(n)) == n
    decreases n
  {
    if n >= 10 {
      var s := NatToString(n / 10);
      var t := s + [DigitChar(n % 10)];
      assert t[..|t| - 1] == s;
      NatRoundTrip(n / 10);
    }
  }

  /** Reading back what `%d` printed gives the number that was printed. */
  lemma IntRoundTrip(n: int)
    ensures ParseInt(IntToString(n)) == Some(n)
  {
    var s := IntToString(n);
    if n < 0 {
      assert s[1..] == NatToString(-n);
      NatRoundTrip(-n);
    } else {
      NatRoundTrip(n);
    }
  }

  /** Distinct numbers print as distinct text. */
  lemma IntToStringInjective(a: int, b: int)
    ensures IntToString(a) == IntToString(b) ==> a == b
  {
    IntRoundTrip(a);
    IntRoundTrip(b);
  }

  /** A canonical string of digits is the printed form of its own value. */
  lemma {:induction false} CanonicalNatIsPrinted(t: string)
    requires CanonicalNat(t)
    ensures NatToString(StringToNat(t)) == t
    decreases |t|
  {
    var d := t[|t| - 1];
    assert DigitChar(DigitValue(d)) == d;
    if |t| > 1 {
      var init := t[..|t| - 1];
      assert init[0] == t[0];
      CanonicalNatIsPrinted(init);
      var v := StringToNat(init);
      assert init != "0";
      assert v != 0;
      assert StringToNat(t) / 10 == v && StringToNat(t) % 10 == DigitValue(d);
      assert init + [d] == t;
    }
  }

  /** The converse of the round trip: a canonical text that parses to `n` is
      exactly what `%d` prints for `n`. */
  lemma CanonicalIsPrinted(t: string, n: int)
    requires Canonical(t) && ParseInt(t) == Some(n)
    ensures t == IntToString(n)
  {
    if t[0] == '-' {
      var tail := t[1..];
      CanonicalNatIsPrinted(tail);
      assert StringToNat(tail) != 0;
      assert "-" + tail == t;
    } else {
      CanonicalNatIsPrinted(t);
    }
  }

}
