/** The two renderings of an RFID tag's UID built by `readRFID`: an
    upper-case hexadecimal string for diagnostics and, as the tag's key,
    the decimal text of the UID bytes read as a big-endian `uint64_t`. */
module RfidUid {
  import opened Decimal
  import opened ArduinoString

  /** C `byte`, i.e. `uint8_t`. */
  type Byte = x: int | 0 <= x < 256

  const Two64: nat := 0x1_0000_0000_0000_0000

  /** The unbounded big-endian value of a byte string. */
  function BigEndian(bytes: seq<Byte>): nat {
    if bytes == [] then 0 else BigEndian(bytes[..|bytes| - 1]) * 256 + bytes[|bytes| - 1]
  }

  function Pow256(k: nat): (p: nat)
    ensures p >= 1
  {
    if k == 0 then 1 else 256 * Pow256(k - 1)
  }

  lemma {:induction false} BigEndianBound(bytes: seq<Byte>)
    ensures BigEndian(bytes) < Pow256(|bytes|)
    decreases |bytes|
  {
    if bytes != [] {
      BigEndianBound(bytes[..|bytes| - 1]);
    }
  }

  /** The value of a concatenation: the front is shifted past the back. */
  lemma {:induction false} BigEndianAppend(a: seq<Byte>, b: seq<Byte>)
    ensures BigEndian(a + b) == BigEndian(a) * Pow256(|b|) + BigEndian(b)
    decreases |b|
  {
    if b == [] {
      assert a + b == a;
    } else {
      var ab := a + b;
      var front := b[..|b| - 1];
      var last := b[|b| - 1];
      assert ab[..|ab| - 1] == a + front;
      assert ab[|ab| - 1] == last;
      BigEndianAppend(a, front);
      var x, p, f := BigEndian(a), Pow256(|front|), BigEndian(front);
      assert BigEndian(ab) == BigEndian(a + front) * 256 + last;
      assert Pow256(|b|) == 256 * p;
      assert BigEndian(b) == f * 256 + last;
      ShiftSum(x, p, f, last);
    }
  }

  /** `(x * p + f) * 256 + c == x * (256 * p) + (f * 256 + c)`. */
  lemma ShiftSum(x: nat, p: nat, f: nat, c: nat)
    ensures (x * p + f) * 256 + c == x * (256 * p) + (f * 256 + c)
  {
    calc {
      (x * p + f) * 256 + c;
      (x * p) * 256 + f * 256 + c;
      { assert (x * p) * 256 == x * (256 * p); }
      x * (256 * p) + (f * 256 + c);
    }
  }

  /** The remainder of `h * 2^64 + t` by 2^64, for `t` under 2^64, is `t`. */
  lemma ModOfMultiplePlus(h: nat, t: nat)
    requires t < Two64
    ensures (h * Two64 + t) % Two64 == t
  {
  }

  /** `(x << 8) | b` on a `uint64_t` that holds `x mod 2^64`: the low byte of
      the shifted value is zero, so the or is an addition. */
  lemma ShiftOrByte(x: nat, b: Byte)
    ensures ((x % Two64) * 256) % Two64 + b == (x * 256 + b) % Two64
  {
    var k := 0x1_0000_0000_0000_00;
    var lo := x % k;
    var hi := x / k;
    assert x == hi * k + lo && lo < k;
    var top := hi % 256;
    assert hi == (hi / 256) * 256 + top && top < 256;
    assert x == (hi / 256) * Two64 + (top * k + lo) by {
      assert hi * k == ((hi / 256) * 256 + top) * k;
      assert ((hi / 256) * 256) * k == (hi / 256) * Two64;
    }
    assert top * k + lo < Two64 by {
      assert top * k <= 255 * k;
    }
    ModOfMultiplePlus(hi / 256, top * k + lo);
    assert (x % Two64) * 256 == top * Two64 + lo * 256 by {
      assert (top * k) * 256 == top * Two64;
    }
    assert lo * 256 + b < Two64;
    ModOfMultiplePlus(top, lo * 256 + b);
    assert x * 256 + b == hi * Two64 + (lo * 256 + b) by {
      assert (hi * k) * 256 == hi * Two64;
    }
    ModOfMultiplePlus(hi, lo * 256 + b);
    ModOfMultiplePlus(top, lo * 256);
  }

  function LowerHexDigit(d: nat): (c: char)
    requires d < 16
  {
    if d < 10 then ('0' as int + d) as char else ('a' as int + d - 10) as char
  }

  /** `String(b, HEX)`: lower-case, no leading zero. */
  function ArduinoHex(b: Byte): (s: string) {
    if b < 16 then [LowerHexDigit(b)] else [LowerHexDigit(b / 16), LowerHexDigit(b % 16)]
  }

  /** What one loop iteration appends: a '0' for bytes below 0x10, then
      `String(b, HEX)`. */
  function PaddedHex(b: Byte): (s: string) {
    (if b < 0x10 then "0" else "") + ArduinoHex(b)
  }

  /** The hex string before `toUpperCase`. */
  function LowerHex(bytes: seq<Byte>): string {
    if bytes == [] then "" else LowerHex(bytes[..|bytes| - 1]) + PaddedHex(bytes[|bytes| - 1])
  }

  predicate IsUpperHexDigit(c: char) {
    ('0' <= c <= '9') || ('A' <= c <= 'F')
  }

  function HexValue(c: char): nat
    requires IsUpperHexDigit(c)
  {
    if '0' <= c <= '9' then c as int - '0' as int else c as int - 'A' as int + 10
  }

  /** Characters `2k` and `2k+1` of `h` are two upper-case hex digits whose
      value is `b`. */
  predicate PairEncodes(h: string, k: nat, b: Byte) {
    2 * k + 1 < |h|
    && IsUpperHexDigit(h[2 * k]) && IsUpperHexDigit(h[2 * k + 1])
    && 16 * HexValue(h[2 * k]) + HexValue(h[2 * k + 1]) == b
  }

  lemma HexDigitUpper(d: nat)
    requires d < 16
    ensures IsUpperHexDigit(UpperChar(LowerHexDigit(d)))
    ensures HexValue(UpperChar(LowerHexDigit(d))) == d
  {
  }

  lemma PaddedHexUpper(b: Byte)
    ensures |PaddedHex(b)| == 2 && PairEncodes(ToUpper(PaddedHex(b)), 0, b)
  {
    var hi, lo := if b < 16 then 0 else b / 16, b % 16;
    assert PaddedHex(b) == [LowerHexDigit(hi), LowerHexDigit(lo)];
    HexDigitUpper(hi);
    HexDigitUpper(lo);
    assert LowerHexDigit(0) == '0';
  }

  /** The hex rendering has two upper-case digits per byte, in order, and
      each pair reads back as its byte. */
  lemma {:induction false} UpperHexEncodes(bytes: seq<Byte>)
    ensures |LowerHex(bytes)| == 2 * |bytes|
    ensures forall k :: 0 <= k < |bytes| ==> PairEncodes(ToUpper(LowerHex(bytes)), k, bytes[k])
    decreases |bytes|
  {
    if bytes != [] {
      var n := |bytes|;
      var front := bytes[..n - 1];
      UpperHexEncodes(front);
      PaddedHexUpper(bytes[n - 1]);
      var h := LowerHex(bytes);
      var u := ToUpper(h);
      var uf := ToUpper(LowerHex(front));
      var up := ToUpper(PaddedHex(bytes[n - 1]));
      assert h == LowerHex(front) + PaddedHex(bytes[n - 1]);
      forall k | 0 <= k < n
        ensures PairEncodes(u, k, bytes[k])
      {
        if k < n - 1 {
          assert PairEncodes(uf, k, front[k]);
          assert u[2 * k] == uf[2 * k] && u[2 * k + 1] == uf[2 * k + 1];
        } else {
          assert u[2 * k] == up[0] && u[2 * k + 1] == up[1];
        }
      }
    }
  }

  /** One step of `u64ToDec`: the last digit comes off and the quotient has
      one digit fewer to fit. */
  lemma PeelLastDigit(v: nat, i: nat)
    requires 0 < v < Pow10(i)
    ensures i > 0 && v / 10 < Pow10(i - 1)
    ensures DigitsOf(v) == DigitsOf(v / 10) + [DigitChar(v - v / 10 * 10)]
  {
  }

  /** `u64ToDec`: fills a 20-character buffer from the right with the
      decimal digits of `v`; "0" for zero. */
  method U64ToDec(v0: nat) returns (s: string)
    requires v0 < Two64
    ensures s == DecString(v0)
  {
    if v0 == 0 {
      return "0";
    }
    var buf := new char[20];
    var i := 20;
    var v: nat := v0;
    TwentyDigitsSuffice();
    while v > 0 && i > 0
      invariant 0 <= i <= 20
      invariant v < Pow10(i)
      invariant DigitsOf(v0) == DigitsOf(v) + buf[i..]
      decreases v
    {
      var q := v / 10;
      var r := v - q * 10;
      PeelLastDigit(v, i);
      i := i - 1;
      buf[i] := DigitChar(r);
      assert buf[i..] == [DigitChar(r)] + buf[i + 1..];
      v := q;
    }
    s := buf[i..];
  }

  /** The hex and decimal renderings `readRFID` builds from the UID bytes
      (`rfid.uid.size` is itself a byte, hence fewer than 256 of them). */
  method UidRenderings(uid: seq<Byte>) returns (hex: string, dec: string)
    requires |uid| < 256
    ensures hex == ToUpper(LowerHex(uid))
    ensures |hex| == 2 * |uid|
    ensures forall k :: 0 <= k < |uid| ==> PairEncodes(hex, k, uid[k])
    ensures dec == DecString(BigEndian(uid) % Two64)
  {
    var hexStr: string := "";
    var decVal := 0;
    var i := 0;
    while i < |uid|
      invariant 0 <= i <= |uid|
      invariant hexStr == LowerHex(uid[..i])
      invariant decVal == BigEndian(uid[..i]) % Two64
    {
      var b := uid[i];
      if b < 0x10 {
        hexStr := hexStr + "0";
      }
      hexStr := hexStr + ArduinoHex(b);
      // (decVal << 8) | b on a uint64_t
      ShiftOrByte(BigEndian(uid[..i]), b);
      decVal := (decVal * 256) % Two64 + b;
      assert uid[..i + 1][..i] == uid[..i];
      i := i + 1;
    }
    assert uid[..i] == uid;
    hex := ToUpper(hexStr);
    UpperHexEncodes(uid);
    dec := U64ToDec(decVal);
  }

  /** Only the last eight bytes of a UID reach the decimal key: the
      accumulator is 64 bits wide. */
  lemma DecimalKeepsLastEightBytes(uid: seq<Byte>)
    requires |uid| >= 8
    ensures BigEndian(uid) % Two64 == BigEndian(uid[|uid| - 8..])
  {
    var tail := uid[|uid| - 8..];
    assert uid == uid[..|uid| - 8] + tail;
    BigEndianAppend(uid[..|uid| - 8], tail);
    BigEndianBound(tail);
    Pow256Eight();
    ModOfMultiplePlus(BigEndian(uid[..|uid| - 8]), BigEndian(tail));
  }

  lemma Pow256Eight()
    ensures Pow256(8) == Two64
  {
    assert Pow256(4) == 0x1_0000_0000;
    assert Pow256(8) == 256 * 256 * 256 * 256 * Pow256(4);
  }

  /** Hence two 10-byte UIDs that differ only in their first two bytes get
      the same decimal key. */
  lemma TenByteUidsCollide(a: seq<Byte>, b: seq<Byte>)
    requires |a| == 10 && |b| == 10 && a[2..] == b[2..]
    ensures DecString(BigEndian(a) % Two64) == DecString(BigEndian(b) % Two64)
  {
    DecimalKeepsLastEightBytes(a);
    DecimalKeepsLastEightBytes(b);
  }

  /** Equal values of equal-length byte strings mean equal bytes. */
  lemma {:induction false} BigEndianInjective(a: seq<Byte>, b: seq<Byte>)
    requires |a| == |b| && BigEndian(a) == BigEndian(b)
    ensures a == b
    decreases |a|
  {
    if a != [] {
      var n := |a|;
      var x, y := BigEndian(a[..n - 1]), BigEndian(b[..n - 1]);
      assert x * 256 + a[n - 1] == y * 256 + b[n - 1];
      BigEndianInjective(a[..n - 1], b[..n - 1]);
      assert a == a[..n - 1] + [a[n - 1]];
      assert b == b[..n - 1] + [b[n - 1]];
    }
  }

  /** UIDs of at most eight bytes (the 4- and 7-byte ones) are kept whole, so
      two of the same length share a decimal key only if they are equal. */
  lemma ShortUidKeysDistinct(a: seq<Byte>, b: seq<Byte>)
    requires |a| == |b| <= 8
    ensures DecString(BigEndian(a) % Two64) == DecString(BigEndian(b) % Two64) <==> a == b
  {
    ShortUidKept(a);
    ShortUidKept(b);
    DecStringInjective(BigEndian(a), BigEndian(b));
    if BigEndian(a) == BigEndian(b) {
      BigEndianInjective(a, b);
    }
  }

  /** A UID of at most eight bytes fits the accumulator. */
  lemma ShortUidKept(a: seq<Byte>)
    requires |a| <= 8
    ensures BigEndian(a) % Two64 == BigEndian(a)
  {
    BigEndianBound(a);
    Pow256Monotonic(|a|, 8);
    Pow256Eight();
  }

  lemma {:induction false} Pow256Monotonic(i: nat, j: nat)
    requires i <= j
    ensures Pow256(i) <= Pow256(j)
    decreases j
  {
    if i < j {
      Pow256Monotonic(i, j - 1);
    }
  }

  /** A `uint64_t` has at most twenty decimal digits. */
  lemma TwentyDigitsSuffice()
    ensures Two64 < Pow10(20)
  {
    assert Pow10(5) == 100000;
    assert Pow10(10) == 10 * 10 * 10 * 10 * 10 * Pow10(5);
    assert Pow10(15) == 10 * 10 * 10 * 10 * 10 * Pow10(10);
    assert Pow10(20) == 10 * 10 * 10 * 10 * 10 * Pow10(15);
  }

  /** The decimal key of any card, however long its UID, is at most twenty
      characters: the width of the key buffer suffices. */
  lemma UidKeyAtMostTwentyDigits(uid: seq<Byte>)
    ensures |DecString(BigEndian(uid) % Two64)| <= 20
  {
    TwentyDigitsSuffice();
    DigitsOfLength(BigEndian(uid) % Two64, 20);
  }
}
