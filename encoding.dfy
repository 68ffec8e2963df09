/**
 * Byte sequences and the two text encodings the summary uses for payloads:
 * lower-case hexadecimal and padded Base64 (section 4 of RFC 4648), as the
 * Node runtime's Buffer.toString('hex') and Buffer.toString('base64') write
 * them. UTF-8 decoding is not defined here: it stays a parameter.
 */
module Encoding {
  type Byte = b: int | 0 <= b < 256
  type Bytes = seq<Byte>

  /** The bytes in the opposite order (what Buffer.reverse() leaves behind). */
  function Reverse(s: Bytes): (r: Bytes)
    ensures |r| == |s|
    ensures forall k :: 0 <= k < |s| ==> r[k] == s[|s| - 1 - k]
  {
    if |s| == 0 then [] else [s[|s| - 1]] + Reverse(s[..|s| - 1])
  }

  // ---- hexadecimal ----

  predicate IsHexDigit(c: char) {
    '0' <= c <= '9' || 'a' <= c <= 'f'
  }

  function HexDigit(d: nat): (c: char)
    requires d < 16
    ensures IsHexDigit(c)
  {
    if d < 10 then ('0' as int + d) as char else ('a' as int + d - 10) as char
  }

  function HexDigitValue(c: char): (d: nat)
    ensures d < 16
  {
    if '0' <= c <= '9' then c as int - '0' as int
    else if 'a' <= c <= 'f' then c as int - 'a' as int + 10
    else 0
  }

  /** Two lower-case hex digits per byte, high nibble first. */
  function Hex(b: Bytes): (s: string)
    ensures |s| == 2 * |b|
    ensures forall k :: 0 <= k < |s| ==> IsHexDigit(s[k])
  {
    if |b| == 0 then [] else [HexDigit(b[0] / 16), HexDigit(b[0] % 16)] + Hex(b[1..])
  }

  function HexDecode(s: string): Bytes
  {
    if |s| < 2 then [] else [HexDigitValue(s[0]) * 16 + HexDigitValue(s[1])] + HexDecode(s[2..])
  }

  lemma {:induction false} HexRoundTrip(b: Bytes)
    ensures HexDecode(Hex(b)) == b
  {
    if |b| > 0 {
      var s := Hex(b);
      assert s[2..] == Hex(b[1..]);
      HexRoundTrip(b[1..]);
      assert HexDigitValue(s[0]) * 16 + HexDigitValue(s[1]) == b[0];
    }
  }

  // ---- Base64, section 4 of RFC 4648 ----

  /** The character of a 6-bit value in the standard alphabet A-Z a-z 0-9 + /. */
  function Base64Digit(d: nat): (c: char)
    requires d < 64
  {
    if d < 26 then ('A' as int + d) as char
    else if d < 52 then ('a' as int + d - 26) as char
    else if d < 62 then ('0' as int + d - 52) as char
    else if d == 62 then '+'
    else '/'
  }

  function Base64DigitValue(c: char): (d: nat)
    ensures d < 64
  {
    if 'A' <= c <= 'Z' then c as int - 'A' as int
    else if 'a' <= c <= 'z' then c as int - 'a' as int + 26
    else if '0' <= c <= '9' then c as int - '0' as int + 52
    else if c == '+' then 62
    else if c == '/' then 63
    else 0
  }

  lemma Base64DigitRoundTrip(d: nat)
    requires d < 64
    ensures Base64DigitValue(Base64Digit(d)) == d
    ensures Base64Digit(d) != '='
  {
  }

  /**
   * Four characters per group of three bytes; a final group of one or two
   * bytes is completed with '=' padding.
   */
  function Base64(b: Bytes): (s: string)
    ensures |s| == 4 * ((|b| + 2) / 3)
  {
    if |b| == 0 then []
    else if |b| == 1 then
      [Base64Digit(b[0] / 4), Base64Digit((b[0] % 4) * 16), '=', '=']
    else if |b| == 2 then
      [Base64Digit(b[0] / 4), Base64Digit((b[0] % 4) * 16 + b[1] / 16), Base64Digit((b[1] % 16) * 4), '=']
    else
      [Base64Digit(b[0] / 4), Base64Digit((b[0] % 4) * 16 + b[1] / 16),
       Base64Digit((b[1] % 16) * 4 + b[2] / 64), Base64Digit(b[2] % 64)] + Base64(b[3..])
  }

  function Base64Decode(s: string): Bytes
  {
    if |s| < 4 then []
    else
      var v0, v1, v2, v3 := Base64DigitValue(s[0]), Base64DigitValue(s[1]), Base64DigitValue(s[2]), Base64DigitValue(s[3]);
      var b0: Byte := v0 * 4 + v1 / 16;
      if s[2] == '=' then [b0]
      else
        var b1: Byte := (v1 % 16) * 16 + v2 / 4;
        if s[3] == '=' then [b0, b1]
        else [b0, b1, (v2 % 4) * 64 + v3] + Base64Decode(s[4..])
  }

  /** The arithmetic of one group: the sextets written for x, y, z give x, y, z back. */
  lemma SextetArithmetic(x: Byte, y: Byte, z: Byte)
    ensures ((x % 4) * 16 + y / 16) < 64 && (y % 16) * 4 + z / 64 < 64
    ensures (x / 4) * 4 + ((x % 4) * 16 + y / 16) / 16 == x
    ensures (((x % 4) * 16 + y / 16) % 16) * 16 + ((y % 16) * 4 + z / 64) / 4 == y
    ensures (((y % 16) * 4 + z / 64) % 4) * 64 + z % 64 == z
    ensures ((x % 4) * 16) / 16 == x % 4
    ensures ((y % 16) * 4) / 4 == y % 16
  {
  }

  lemma DecodeLastOne(x: Byte)
    ensures Base64Decode([Base64Digit(x / 4), Base64Digit((x % 4) * 16), '=', '=']) == [x]
  {
    SextetArithmetic(x, 0, 0);
    Base64DigitRoundTrip(x / 4);
    Base64DigitRoundTrip((x % 4) * 16);
  }

  lemma DecodeLastTwo(x: Byte, y: Byte)
    ensures Base64Decode([Base64Digit(x / 4), Base64Digit((x % 4) * 16 + y / 16), Base64Digit((y % 16) * 4), '=']) == [x, y]
  {
    SextetArithmetic(x, y, 0);
    Base64DigitRoundTrip(x / 4);
    Base64DigitRoundTrip((x % 4) * 16 + y / 16);
    Base64DigitRoundTrip((y % 16) * 4);
  }

  lemma DecodeGroup(x: Byte, y: Byte, z: Byte, rest: string)
    ensures Base64Decode([Base64Digit(x / 4), Base64Digit((x % 4) * 16 + y / 16),
                          Base64Digit((y % 16) * 4 + z / 64), Base64Digit(z % 64)] + rest)
         == [x, y, z] + Base64Decode(rest)
  {
    SextetArithmetic(x, y, z);
    Base64DigitRoundTrip(x / 4);
    Base64DigitRoundTrip((x % 4) * 16 + y / 16);
    Base64DigitRoundTrip((y % 16) * 4 + z / 64);
    Base64DigitRoundTrip(z % 64);
    var s := [Base64Digit(x / 4), Base64Digit((x % 4) * 16 + y / 16),
              Base64Digit((y % 16) * 4 + z / 64), Base64Digit(z % 64)] + rest;
    assert s[4..] == rest;
  }

  /** Decoding the Base64 text of any bytes gives the bytes back. */
  lemma {:induction false} Base64RoundTrip(b: Bytes)
    ensures Base64Decode(Base64(b)) == b
  {
    if |b| == 1 {
      DecodeLastOne(b[0]);
    } else if |b| == 2 {
      DecodeLastTwo(b[0], b[1]);
    } else if |b| > 2 {
      DecodeGroup(b[0], b[1], b[2], Base64(b[3..]));
      Base64RoundTrip(b[3..]);
      assert b == [b[0], b[1], b[2]] + b[3..];
    }
  }
}
