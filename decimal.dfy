/** Decimal text of non-negative integers, as Go's fmt verbs `%d` and `%0Nd` print them. */
module Decimal {

  predicate IsDigit(c: char) {
    '0' <= c <= '9'
  }

  predicate AllDigits(s: string) {
    forall i :: 0 <= i < |s| ==> IsDigit(s[i])
  }

  function DigitValue(c: char): nat
    requires IsDigit(c)
  {
    c as int - '0' as int
  }

  function DigitChar(d: nat): (c: char)
    requires d < 10
    ensures IsDigit(c) && DigitValue(c) == d
  {
    ('0' as int + d) as char
  }

  function Pow10(k: nat): nat {
    if k == 0 then 1 else 10 * Pow10(k - 1)
  }

  /** `%d` of a non-negative integer: its shortest decimal text. */
  function Format(n: nat): (s: string)
    ensures 1 <= |s| && AllDigits(s)
  {
    if n < 10 then [DigitChar(n)] else Format(n / 10) + [DigitChar(n % 10)]
  }

  /** The number a string of decimal digits denotes (leading zeros allowed). */
  function Parse(s: string): nat
    requires AllDigits(s)
  {
    if s == [] then 0 else Parse(s[..|s| - 1]) * 10 + DigitValue(s[|s| - 1])
  }

  function Zeros(k: nat): (z: string)
    ensures |z| == k && AllDigits(z)
  {
    seq(k, _ => '0')
  }

  /** `%0<width>d`: `Format(n)` padded on the left with zeros up to `width` characters. */
  function FormatPadded(n: nat, width: nat): (s: string)
    ensures AllDigits(s)
  {
    var d := Format(n);
    if |d| >= width then d else Zeros(width - |d|) + d
  }

  /** Reading the text `%d` prints gives back the number. */
  lemma {:induction false} ParseFormat(n: nat)
    ensures Parse(Format(n)) == n
  {
    if n >= 10 {
      var s := Format(n);
      assert s[..|s| - 1] == Format(n / 10);
      ParseFormat(n / 10);
    }
  }

  /** A number below 10^k prints in at most k digits. */
  lemma {:induction false} FormatWidth(n: nat, k: nat)
    requires 1 <= k && n < Pow10(k)
    ensures |Format(n)| <= k
  {
    if n >= 10 {
      assert 2 <= k;
      assert n / 10 < Pow10(k - 1);
      FormatWidth(n / 10, k - 1);
    }
  }

  lemma {:induction false} ParseZeros(k: nat)
    ensures Parse(Zeros(k)) == 0
  {
    if k > 0 {
      assert Zeros(k)[..k - 1] == Zeros(k - 1);
      ParseZeros(k - 1);
    }
  }

  /** Leading zeros do not change the value of a digit string. */
  lemma {:induction false} ParseLeadingZeros(k: nat, s: string)
    requires AllDigits(s)
    ensures Parse(Zeros(k) + s) == Parse(s)
  {
    if s == [] {
      assert Zeros(k) + s == Zeros(k);
      ParseZeros(k);
    } else {
      var t := Zeros(k) + s;
      assert t[..|t| - 1] == Zeros(k) + s[..|s| - 1];
      ParseLeadingZeros(k, s[..|s| - 1]);
    }
  }

  /** `%0<width>d` is exactly `width` digits wide for a number that fits, and reads back as that number. */
  lemma {:induction false} FormatPaddedFits(n: nat, width: nat)
    requires 1 <= width && n < Pow10(width)
    ensures |FormatPadded(n, width)| == width
    ensures Parse(FormatPadded(n, width)) == n
  {
    FormatWidth(n, width);
    ParseFormat(n);
    ParseLeadingZeros(width - |Format(n)|, Format(n));
  }
}
