/** Decimal digit text: the canonical rendering of natural numbers that the
    firmware uses for tag identifiers and the UI uses for clock fields, and
    the value of a digit string read back. */
module Decimal {

  predicate IsDigit(c: char) {
    '0' <= c <= '9'
  }

  predicate AllDigits(s: string) {
    forall i :: 0 <= i < |s| ==> IsDigit(s[i])
  }

  function DigitValue(c: char): (d: nat)
    requires IsDigit(c)
    ensures d < 10
  {
    (c as int) - ('0' as int)
  }

  function DigitChar(d: nat): (c: char)
    requires d < 10
    ensures IsDigit(c) && DigitValue(c) == d
  {
    (('0' as int) + d) as char
  }

  function Pow10(k: nat): (p: nat)
    ensures p >= 1
  {
    if k == 0 then 1 else 10 * Pow10(k - 1)
  }

  /** The digits of `n`, most significant first, with no leading zero;
      empty for 0. */
  function DigitsOf(n: nat): (s: string)
    ensures AllDigits(s)
    decreases n
  {
    if n == 0 then [] else DigitsOf(n / 10) + [DigitChar(n % 10)]
  }

  /** Canonical decimal text of `n`: "0" for zero, otherwise `DigitsOf(n)`. */
  function DecString(n: nat): (s: string)
  {
    if n == 0 then "0" else DigitsOf(n)
  }

  /** The value of a digit string, most significant digit first. */
  function ParseDec(s: string): nat
    requires AllDigits(s)
  {
    if s == [] then 0 else ParseDec(s[..|s| - 1]) * 10 + DigitValue(s[|s| - 1])
  }

  lemma {:induction false} ParseDigitsOf(n: nat)
    ensures ParseDec(DigitsOf(n)) == n
    decreases n
  {
    if n > 0 {
      var s := DigitsOf(n);
      assert s[..|s| - 1] == DigitsOf(n / 10);
      ParseDigitsOf(n / 10);
    }
  }

  /** Reading the canonical text back gives the number again. */
  lemma DecStringRoundTrip(n: nat)
    ensures AllDigits(DecString(n)) && ParseDec(DecString(n)) == n
  {
    if n == 0 {
      assert DecString(0)[..0] == [];
    } else {
      ParseDigitsOf(n);
    }
  }

  /** Two numbers with the same canonical text are equal. */
  lemma DecStringInjective(a: nat, b: nat)
    ensures DecString(a) == DecString(b) <==> a == b
  {
    DecStringRoundTrip(a);
    DecStringRoundTrip(b);
  }

  lemma {:induction false} DigitsOfNoLeadingZero(n: nat)
    requires n > 0
    ensures |DigitsOf(n)| > 0 && DigitsOf(n)[0] != '0'
    decreases n
  {
    if n / 10 > 0 {
      DigitsOfNoLeadingZero(n / 10);
    }
  }

  /** The canonical text is non-empty and starts with '0' only for zero,
      in which case it is exactly "0". */
  lemma DecStringCanonical(n: nat)
    ensures |DecString(n)| >= 1
    ensures DecString(n)[0] == '0' <==> n == 0
    ensures n == 0 ==> DecString(n) == "0"
  {
    if n > 0 {
      DigitsOfNoLeadingZero(n);
    }
  }

  /** A number below 10^k has at most k digits. */
  lemma {:induction false} DigitsOfLength(n: nat, k: nat)
    requires n < Pow10(k)
    ensures |DigitsOf(n)| <= k
    decreases k
  {
    if n > 0 {
      assert k > 0;
      DigitsOfLength(n / 10, k - 1);
    }
  }

  /** A leading '0' does not change the value of a digit string. */
  lemma {:induction false} ParseDecLeadingZero(s: string)
    requires AllDigits(s)
    ensures AllDigits("0" + s) && ParseDec("0" + s) == ParseDec(s)
    decreases |s|
  {
    var t := "0" + s;
    if s == [] {
      assert t[..0] == [];
    } else {
      assert t[..|t| - 1] == "0" + s[..|s| - 1];
      ParseDecLeadingZero(s[..|s| - 1]);
    }
  }
}
