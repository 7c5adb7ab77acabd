/** The parts of the Arduino `String` class (and the C library under it)
    that the firmware's request handlers and tag reader rely on: `trim`,
    `indexOf`, `substring` with its unsigned arguments, `toUpperCase`,
    and `toFloat`, which is C's `atof`. */
module ArduinoString {
  import opened Wrappers
  import opened Decimal

  /** The length of the longest prefix whose characters all satisfy `p`. */
  function PrefixLength(s: string, p: char -> bool): (k: nat)
    ensures k <= |s|
    ensures forall i :: 0 <= i < k ==> p(s[i])
    ensures k < |s| ==> !p(s[k])
  {
    if s != [] && p(s[0]) then 1 + PrefixLength(s[1..], p) else 0
  }

  /** The length left once the longest suffix whose characters all satisfy
      `p` is dropped. */
  function KeptLength(s: string, p: char -> bool): (k: nat)
    ensures k <= |s|
    ensures forall i :: k <= i < |s| ==> p(s[i])
    ensures k > 0 ==> !p(s[k - 1])
  {
    if s != [] && p(s[|s| - 1]) then KeptLength(s[..|s| - 1], p) else |s|
  }

  /** Drops the longest prefix whose characters all satisfy `p`. */
  function DropWhile(s: string, p: char -> bool): string {
    s[PrefixLength(s, p)..]
  }

  /** Drops the longest suffix whose characters all satisfy `p`. */
  function DropWhileEnd(s: string, p: char -> bool): string {
    s[..KeptLength(s, p)]
  }

  /** C's `isspace` in the "C" locale. */
  predicate IsSpace(c: char) {
    c == ' ' || c == '\t' || c == '\n' || c == '\r' || c as int == 11 || c as int == 12
  }

  /** `String::trim`: white space removed from both ends. */
  function Trim(s: string): string {
    DropWhileEnd(DropWhile(s, IsSpace), IsSpace)
  }

  predicate OccursAt(s: string, pat: string, k: nat) {
    k + |pat| <= |s| && s[k..k + |pat|] == pat
  }

  function FirstOccurrence(s: string, pat: string, k: nat): (r: int)
    ensures r == -1 || (k <= r && OccursAt(s, pat, r))
    ensures r != -1 ==> forall j :: k <= j < r ==> !OccursAt(s, pat, j)
    ensures r == -1 ==> forall j :: k <= j ==> !OccursAt(s, pat, j)
    decreases |s| - k
  {
    if k + |pat| > |s| then -1
    else if OccursAt(s, pat, k) then k
    else FirstOccurrence(s, pat, k + 1)
  }

  /** `String::indexOf(pat, from)`: -1 when `from` is not inside the string,
      otherwise the first position at or after `from` where `pat` occurs,
      or -1 when there is none. */
  function IndexOf(s: string, pat: string, from: nat): (r: int)
    ensures r == -1 || (from <= r < |s| && OccursAt(s, pat, r))
    ensures r != -1 ==> forall j :: from <= j < r ==> !OccursAt(s, pat, j)
    ensures r == -1 && from < |s| ==> forall j :: from <= j ==> !OccursAt(s, pat, j)
  {
    if from >= |s| then -1 else FirstOccurrence(s, pat, from)
  }

  /** The first occurrence after `from` is where the search lands. */
  lemma IndexOfAt(s: string, pat: string, from: nat, j: nat)
    requires from <= j < |s| && OccursAt(s, pat, j)
    requires forall i :: from <= i < j ==> !OccursAt(s, pat, i)
    ensures IndexOf(s, pat, from) == j
  {
  }

  /** The first character `c` at or after `from` is where a one-character
      search lands. */
  lemma {:induction false} IndexOfCharAt(s: string, c: char, from: nat, j: nat)
    requires from <= j < |s| && s[j] == c
    requires forall i :: from <= i < j ==> s[i] != c
    ensures IndexOf(s, [c], from) == j
  {
    forall i | from <= i < j
      ensures !OccursAt(s, [c], i)
    {
      assert s[i..i + 1] == [s[i]];
    }
    assert s[j..j + 1] == [c];
    IndexOfAt(s, [c], from, j);
  }

  /** Where no search position in `[from, to)` finds `c`, no character
      there is `c`. */
  lemma NoCharBetween(s: string, c: char, from: nat, to: nat)
    requires from <= to <= |s|
    requires forall j :: from <= j < to ==> !OccursAt(s, [c], j)
    ensures forall i :: from <= i < to ==> s[i] != c
  {
    forall i | from <= i < to
      ensures s[i] != c
    {
      assert !OccursAt(s, [c], i);
      assert s[i..i + 1] == [s[i]];
    }
  }

  /** Text that neither starts nor ends with white space is its own trim. */
  lemma TrimUnchanged(s: string)
    requires s != [] && !IsSpace(s[0]) && !IsSpace(s[|s| - 1])
    ensures Trim(s) == s
  {
    assert DropWhile(s, IsSpace) == s;
  }

  /** An `int` passed where C expects `unsigned int` (32 bits). */
  function ToUnsigned(i: int): (u: nat)
    ensures u < 0x1_0000_0000
    ensures 0 <= i < 0x1_0000_0000 ==> u == i
  {
    i % 0x1_0000_0000
  }

  /** `String::substring(left, right)`: the bounds are swapped when out of
      order, the text is empty when `left` is past the end, and `right` is
      clamped to the length. */
  function Substring(s: string, left: nat, right: nat): (r: string)
    ensures left <= right <= |s| ==> r == s[left..right]
    ensures left <= right && |s| <= right && left <= |s| ==> r == s[left..]
  {
    if left > right then Substring(s, right, left)
    else if left >= |s| then ""
    else s[left..if right > |s| then |s| else right]
  }

  function UpperChar(c: char): char {
    if 'a' <= c <= 'z' then (c as int - 32) as char else c
  }

  function LowerChar(c: char): char {
    if 'A' <= c <= 'Z' then (c as int + 32) as char else c
  }

  /** `String::toUpperCase` (C `toupper`, ASCII letters only). */
  function ToUpper(s: string): (r: string)
    ensures |r| == |s| && forall i :: 0 <= i < |s| ==> r[i] == UpperChar(s[i])
  {
    seq(|s|, i requires 0 <= i < |s| => UpperChar(s[i]))
  }

  /** ASCII lower-casing (JavaScript's `toLowerCase` on ASCII text). */
  function ToLower(s: string): (r: string)
    ensures |r| == |s| && forall i :: 0 <= i < |s| ==> r[i] == LowerChar(s[i])
  {
    seq(|s|, i requires 0 <= i < |s| => LowerChar(s[i]))
  }

  /** Upper-casing leaves no ASCII lower-case letter behind. */
  lemma UpperHasNoLowerLetter(s: string)
    ensures forall i :: 0 <= i < |s| ==> !('a' <= ToUpper(s)[i] <= 'z')
  {
  }

  /** Lower-casing ignores a prior upper-casing: comparing `ToLower` of two
      texts is case-insensitive. */
  lemma LowerOfUpper(s: string)
    ensures ToLower(ToUpper(s)) == ToLower(s)
  {
  }

  /** The longest prefix of decimal digits. */
  function LeadingDigits(s: string): (d: string)
    ensures d <= s && AllDigits(d)
    ensures |d| < |s| ==> !IsDigit(s[|d|])
  {
    if s != [] && IsDigit(s[0]) then [s[0]] + LeadingDigits(s[1..]) else []
  }

  lemma {:induction false} LeadingDigitsOfDigits(s: string)
    requires AllDigits(s)
    ensures LeadingDigits(s) == s
    decreases |s|
  {
    if s != [] {
      LeadingDigitsOfDigits(s[1..]);
    }
  }

  /** The exponent of `strtod`: 'e' or 'E', an optional sign and at least
      one digit; absent otherwise. */
  function ExponentOf(s: string): Option<int> {
    if |s| >= 2 && (s[0] == 'e' || s[0] == 'E') then
      var neg := s[1] == '-';
      var t := if s[1] == '-' || s[1] == '+' then s[2..] else s[1..];
      var d := LeadingDigits(t);
      if d == [] then None
      else Some(if neg then -(ParseDec(d) as int) else ParseDec(d))
    else None
  }

  /** `x` times ten to the power `e`. */
  function ScaleBy10(x: real, e: int): (r: real)
    ensures x >= 0.0 ==> r >= 0.0
    decreases if e >= 0 then e else -e
  {
    if e == 0 then x
    else if e > 0 then ScaleBy10(x * 10.0, e - 1)
    else ScaleBy10(x / 10.0, e + 1)
  }

  /** The value of the digits after a decimal point. */
  function FractionValue(fp: string): (r: real)
    requires AllDigits(fp)
    ensures 0.0 <= r <= 1.0
  {
    if fp == [] then 0.0 else (DigitValue(fp[0]) as real + FractionValue(fp[1..])) / 10.0
  }

  /** A mantissa followed by whatever exponent `after` starts with. */
  function WithExponent(mant: real, after: string): (r: real)
    requires mant >= 0.0
    ensures r >= 0.0
  {
    match ExponentOf(after)
    case Some(e) => ScaleBy10(mant, e)
    case None => mant
  }

  /** The value of unsigned decimal text: digits with an optional fraction
      and an optional exponent; 0 when no digit starts it. */
  function UnsignedDecimal(u: string): (r: real)
    ensures r >= 0.0
  {
    var ip := LeadingDigits(u);
    var rest := u[|ip|..];
    if rest != [] && rest[0] == '.' then
      var fp := LeadingDigits(rest[1..]);
      if ip == [] && fp == [] then 0.0
      else WithExponent(ParseDec(ip) as real + FractionValue(fp), rest[1 + |fp|..])
    else if ip == [] then 0.0
    else WithExponent(ParseDec(ip) as real, rest)
  }

  /** `String::toFloat`, that is `atof`: leading white space, an optional
      sign, then unsigned decimal text. */
  function ToFloat(s: string): real {
    var t := DropWhile(s, IsSpace);
    if t != [] && t[0] == '-' then -UnsignedDecimal(t[1..])
    else if t != [] && t[0] == '+' then UnsignedDecimal(t[1..])
    else UnsignedDecimal(t)
  }

  /** Text with no '-' after its leading white space never reads as negative. */
  lemma ToFloatUnsigned(s: string)
    requires var t := DropWhile(s, IsSpace); t == [] || t[0] != '-'
    ensures ToFloat(s) >= 0.0
  {
  }

  lemma UnsignedDecimalOfDigits(s: string)
    requires s != [] && AllDigits(s)
    ensures UnsignedDecimal(s) == ParseDec(s) as real
  {
    LeadingDigitsOfDigits(s);
    assert s[|s|..] == [];
    assert ExponentOf([]) == None;
  }

  /** The canonical decimal text of `n` reads back as `n`. */
  lemma ToFloatDecString(n: nat)
    ensures ToFloat(DecString(n)) == n as real
  {
    var s := DecString(n);
    DecStringRoundTrip(n);
    DecStringCanonical(n);
    assert IsDigit(s[0]) && !IsSpace(s[0]);
    assert PrefixLength(s, IsSpace) == 0;
    assert DropWhile(s, IsSpace) == s;
    UnsignedDecimalOfDigits(s);
  }
}
