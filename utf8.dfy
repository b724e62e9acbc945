/**
 * Bytes and the UTF-8 encoding that Buffer.from(text, "utf8") applies to the
 * string pieces of a request body.
 */
module Utf8 {

  newtype byte = x: int | 0 <= x < 256

  predicate IsAscii(s: string) {
    forall i :: 0 <= i < |s| ==> s[i] as int < 0x80
  }

  /** UTF-8 encoding of one Unicode scalar value (section 3 of RFC 3629). */
  function EncodeChar(c: char): (bs: seq<byte>)
    ensures 1 <= |bs| <= 4
    ensures |bs| == 1 <==> c as int < 0x80
    ensures c as int < 0x80 ==> bs[0] as int == c as int
    ensures |bs| > 1 ==> bs[0] >= 0xC0 && forall i :: 1 <= i < |bs| ==> 0x80 <= bs[i] < 0xC0
  {
    var cp := c as int;
    if cp < 0x80 then
      [cp as byte]
    else if cp < 0x800 then
      [(0xC0 + cp / 64) as byte, (0x80 + cp % 64) as byte]
    else if cp < 0x10000 then
      [(0xE0 + cp / 4096) as byte, (0x80 + (cp / 64) % 64) as byte, (0x80 + cp % 64) as byte]
    else
      [(0xF0 + cp / 262144) as byte, (0x80 + (cp / 4096) % 64) as byte,
       (0x80 + (cp / 64) % 64) as byte, (0x80 + cp % 64) as byte]
  }

  /** The code point a 1 to 4 byte UTF-8 sequence stands for (section 3 of RFC 3629). */
  function DecodeChar(bs: seq<byte>): int
    requires 1 <= |bs| <= 4
  {
    if |bs| == 1 then bs[0] as int
    else if |bs| == 2 then (bs[0] as int - 0xC0) * 64 + (bs[1] as int - 0x80)
    else if |bs| == 3 then (bs[0] as int - 0xE0) * 4096 + (bs[1] as int - 0x80) * 64 + (bs[2] as int - 0x80)
    else (bs[0] as int - 0xF0) * 262144 + (bs[1] as int - 0x80) * 4096 + (bs[2] as int - 0x80) * 64 + (bs[3] as int - 0x80)
  }

  /** A number split into its quotient and remainder by 64. */
  lemma Split64(n: nat)
    ensures n == (n / 64) * 64 + n % 64 && n % 64 < 64
  {
  }

  lemma DecodeTwo(cp: nat)
    requires 0x80 <= cp < 0x800
    ensures DecodeChar([(0xC0 + cp / 64) as byte, (0x80 + cp % 64) as byte]) == cp
  {
    Split64(cp);
  }

  lemma DecodeThree(cp: nat)
    requires 0x800 <= cp < 0x10000
    ensures DecodeChar([(0xE0 + cp / 4096) as byte, (0x80 + (cp / 64) % 64) as byte, (0x80 + cp % 64) as byte]) == cp
  {
    var q := cp / 64;
    Split64(cp);
    Split64(q);
    assert cp / 4096 == q / 64;
    assert cp == (q / 64) * 4096 + (q % 64) * 64 + cp % 64;
  }

  lemma DecodeFour(cp: nat)
    requires 0x10000 <= cp < 0x110000
    ensures DecodeChar([(0xF0 + cp / 262144) as byte, (0x80 + (cp / 4096) % 64) as byte,
                        (0x80 + (cp / 64) % 64) as byte, (0x80 + cp % 64) as byte]) == cp
  {
    var q := cp / 64;
    var q2 := q / 64;
    Split64(cp);
    Split64(q);
    Split64(q2);
    assert cp / 4096 == q2;
    assert cp / 262144 == q2 / 64;
    assert cp == (q2 / 64) * 262144 + (q2 % 64) * 4096 + (q % 64) * 64 + cp % 64;
  }

  /** Every character's encoding decodes back to its code point, using the shortest form. */
  lemma DecodeEncodeChar(c: char)
    ensures DecodeChar(EncodeChar(c)) == c as int
    ensures |EncodeChar(c)| == (if c as int < 0x80 then 1 else if c as int < 0x800 then 2
                                else if c as int < 0x10000 then 3 else 4)
  {
    var cp := c as int;
    if cp >= 0x10000 {
      DecodeFour(cp);
    } else if cp >= 0x800 {
      DecodeThree(cp);
    } else if cp >= 0x80 {
      DecodeTwo(cp);
    }
  }

  /** Buffer.from(s, "utf8"): the characters' encodings one after another. */
  function Encode(s: string): (bs: seq<byte>)
    ensures |bs| >= |s|
    ensures |s| == 1 ==> bs == EncodeChar(s[0])
  {
    if s == [] then [] else EncodeChar(s[0]) + Encode(s[1..])
  }

  /** Encoding a concatenation encodes each side in turn, so pieces can be encoded separately. */
  lemma {:induction false} EncodeAppend(a: string, b: string)
    ensures Encode(a + b) == Encode(a) + Encode(b)
    decreases |a|
  {
    if a != [] {
      assert (a + b)[1..] == a[1..] + b;
      EncodeAppend(a[1..], b);
    } else {
      assert a + b == b;
    }
  }

  /** ASCII text encodes to one byte per character, with the same code. */
  lemma {:induction false} EncodeAscii(s: string)
    requires IsAscii(s)
    ensures |Encode(s)| == |s|
    ensures forall i :: 0 <= i < |s| ==> Encode(s)[i] as int == s[i] as int
    decreases |s|
  {
    if s != [] {
      EncodeAscii(s[1..]);
    }
  }

  lemma AsciiAppend(a: string, b: string)
    requires IsAscii(a) && IsAscii(b)
    ensures IsAscii(a + b)
  {
  }
}
