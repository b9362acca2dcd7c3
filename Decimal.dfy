/** Decimal text of non-negative integers: JavaScript's `String(n)`,
    `padStart(2, '0')`, and reading digits back into a number. */
module Decimal {

  predicate IsDigit(c: char) {
    '0' <= c <= '9'
  }

  predicate AllDigits(s: string) {
    forall i :: 0 <= i < |s| ==> IsDigit(s[i])
  }

  function DigitChar(d: nat): (c: char)
    requires d < 10
    ensures IsDigit(c)
  {
    ('0' as int + d) as char
  }

  function DigitValue(c: char): (d: nat)
    requires IsDigit(c)
    ensures d < 10 && DigitChar(d) == c
  {
    c as int - '0' as int
  }

  /** `String(n)` for a non-negative integer: its decimal digits, most significant
      first, with no leading zero. */
  function NatToString(n: nat): (s: string)
    ensures 1 <= |s| && AllDigits(s)
    ensures |s| == 1 <==> n < 10
    ensures |s| > 1 ==> s[0] != '0'
    ensures n < 100 ==> |s| <= 2
  {
    if n < 10 then [DigitChar(n)] else NatToString(n / 10) + [DigitChar(n % 10)]
  }

  /** The number a string of decimal digits denotes (leading zeros allowed). */
  function DecimalValue(s: string): nat
    requires AllDigits(s)
  {
    if s == [] then 0 else DecimalValue(s[..|s| - 1]) * 10 + DigitValue(s[|s| - 1])
  }

  /** Reading back the decimal text of `n` gives `n`. */
  lemma {:induction false} DecimalRoundTrip(n: nat)
    ensures DecimalValue(NatToString(n)) == n
  {
    if n >= 10 {
      var s := NatToString(n);
      assert s[..|s| - 1] == NatToString(n / 10);
      DecimalRoundTrip(n / 10);
    }
  }

  /** `s.padStart(2, '0')`: `s` preceded by as many '0' characters as it takes to
      make it two characters long; a string already that long is unchanged. */
  function PadStart2(s: string): (r: string)
    ensures |r| == if |s| < 2 then 2 else |s|
  {
    if |s| >= 2 then s else if |s| == 1 then "0" + s else "00"
  }

  /** The padded string ends with the original one and is padded only with '0'. */
  lemma PadStart2Shape(s: string)
    ensures var r := PadStart2(s);
            && r[|r| - |s|..] == s
            && forall i :: 0 <= i < |r| - |s| ==> r[i] == '0'
  {
  }

  /** The two digits of a number below 100, tens first. */
  function TwoDigits(n: nat): (s: string)
    requires n < 100
    ensures |s| == 2 && AllDigits(s) && DecimalValue(s) == n
  {
    var s := [DigitChar(n / 10), DigitChar(n % 10)];
    assert s[..1] == [DigitChar(n / 10)] && [DigitChar(n / 10)][..0] == [];
    assert DecimalValue(s[..1]) == DigitValue(DigitChar(n / 10)) == n / 10;
    assert DigitValue(DigitChar(n % 10)) == n % 10;
    s
  }

  /** Padding the decimal text of a number below 100 to two characters gives
      exactly its tens digit and its units digit. */
  lemma {:induction false} PaddedIsTwoDigits(n: nat)
    requires n < 100
    ensures PadStart2(NatToString(n)) == TwoDigits(n)
  {
    if n >= 10 {
      assert NatToString(n / 10) == [DigitChar(n / 10)];
    }
  }
}
