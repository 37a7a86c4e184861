/** Decimal rendering of non-negative integers, as JavaScript's
    `Number.prototype.toString()` and template literals print them for
    integers below 1e21 (no sign, no leading zeros, "0" for zero; larger
    doubles print in exponent form, which is not modelled), and the
    inverse reading. */
module Decimal {

  predicate IsDigit(c: char) { '0' <= c <= '9' }

  predicate AllDigits(s: string) { forall i :: 0 <= i < |s| ==> IsDigit(s[i]) }

  function DigitChar(d: nat): (c: char)
    requires d < 10
    ensures IsDigit(c)
  {
    "0123456789"[d]
  }

  function DigitValue(c: char): (d: nat)
    requires IsDigit(c)
    ensures d < 10
  {
    (c as int - '0' as int) as nat
  }

  /** The decimal numeral of `n`. */
  function Show(n: nat): (s: string)
    ensures |s| > 0 && AllDigits(s)
    ensures n < 10 <==> |s| == 1
    ensures |s| > 1 ==> s[0] != '0'
  {
    if n < 10 then [DigitChar(n)] else Show(n / 10) + [DigitChar(n % 10)]
  }

  /** The value of a string of digits, most significant first. */
  function Value(s: string): nat
    requires AllDigits(s)
  {
    if s == [] then 0 else 10 * Value(s[..|s| - 1]) + DigitValue(s[|s| - 1])
  }

  lemma DigitRoundTrip(d: nat)
    requires d < 10
    ensures DigitValue(DigitChar(d)) == d
  {
  }

  /** Reading back a numeral gives the number printed. */
  lemma {:induction false} ValueShow(n: nat)
    ensures Value(Show(n)) == n
  {
    DigitRoundTrip(n % 10);
    if n >= 10 {
      var s := Show(n);
      assert s[..|s| - 1] == Show(n / 10);
      ValueShow(n / 10);
    }
  }

  /** Two numbers print the same only when they are equal. */
  lemma ShowInjective(m: nat, n: nat)
    requires Show(m) == Show(n)
    ensures m == n
  {
    ValueShow(m);
    ValueShow(n);
  }

  /** `s.padStart(2, '0')` for a non-empty string of at most two characters. */
  function PadTwo(s: string): (r: string)
    requires 0 < |s| <= 2
    ensures |r| == 2
    ensures r[2 - |s|..] == s
    ensures forall i :: 0 <= i < 2 - |s| ==> r[i] == '0'
  {
    if |s| == 1 then ['0'] + s else s
  }

  /** The last character of a numeral is its units digit. */
  lemma LastDigit(n: nat)
    ensures Show(n)[|Show(n)| - 1] == DigitChar(n % 10)
  {
  }

  lemma ShowBelowHundred(n: nat)
    requires n < 100
    ensures |Show(n)| <= 2
  {
    if n >= 10 {
      assert |Show(n / 10)| == 1;
    }
  }

  /** Padding a numeral below 100 to two places keeps its value. */
  lemma PadTwoValue(n: nat)
    requires n < 100
    ensures |Show(n)| <= 2
    ensures AllDigits(PadTwo(Show(n))) && Value(PadTwo(Show(n))) == n
  {
    if n >= 10 {
      assert Show(n) == Show(n / 10) + [DigitChar(n % 10)];
      assert |Show(n / 10)| == 1;
    }
    var p := PadTwo(Show(n));
    ValueShow(n);
    if n < 10 {
      assert p[..1] == "0";
      assert p[..1][..0] == [];
    }
  }
}
