/**
 * `str.encode(errors='ignore')` with the default UTF-8 codec. A Dafny `char`
 * is a Unicode scalar value, so there is no lone surrogate for `errors='ignore'`
 * to drop: every character is encoded, in one to four bytes.
 */
module Utf8 {
  newtype byte = x: int | 0 <= x < 256

  function EncodeChar(c: char): (bs: seq<byte>)
    ensures 1 <= |bs| <= 4
    ensures |bs| == LeadLength(bs[0])
  {
    var cp := c as int;
    if cp < 0x80 then [cp as byte]
    else if cp < 0x800 then [(0xC0 + cp / 64) as byte, (0x80 + cp % 64) as byte]
    else if cp < 0x10000 then
      [(0xE0 + cp / 4096) as byte, (0x80 + (cp / 64) % 64) as byte, (0x80 + cp % 64) as byte]
    else
      [(0xF0 + cp / 262144) as byte, (0x80 + (cp / 4096) % 64) as byte,
       (0x80 + (cp / 64) % 64) as byte, (0x80 + cp % 64) as byte]
  }

  /** The length of the encoding a lead byte announces. */
  function LeadLength(b: byte): nat
  {
    if b < 0x80 then 1 else if b < 0xE0 then 2 else if b < 0xF0 then 3 else 4
  }

  /** The code point an encoding of the announced length carries. */
  function DecodeChar(bs: seq<byte>): int
    requires 1 <= |bs| <= 4
  {
    var b0 := bs[0] as int;
    if |bs| == 1 then b0
    else if |bs| == 2 then (b0 - 0xC0) * 64 + (bs[1] as int - 0x80)
    else if |bs| == 3 then (b0 - 0xE0) * 4096 + (bs[1] as int - 0x80) * 64 + (bs[2] as int - 0x80)
    else (b0 - 0xF0) * 262144 + (bs[1] as int - 0x80) * 4096 + (bs[2] as int - 0x80) * 64 + (bs[3] as int - 0x80)
  }

  lemma DecodeEncodeChar(c: char)
    ensures DecodeChar(EncodeChar(c)) == c as int
  {
    var cp := c as int;
    if cp >= 0x800 {
      var q := cp / 64;
      assert q / 64 == cp / 4096;
      if cp >= 0x10000 {
        assert (cp / 4096) / 64 == cp / 262144;
        assert cp / 262144 * 262144 + (cp / 4096) % 64 * 4096 == cp / 4096 * 4096;
      }
      assert cp / 4096 * 4096 + (cp / 64) % 64 * 64 == cp / 64 * 64;
    }
  }

  function Encode(s: string): (bs: seq<byte>)
    ensures |s| <= |bs| <= 4 * |s|
  {
    if s == [] then [] else EncodeChar(s[0]) + Encode(s[1..])
  }

  /** The encoding is injective: distinct strings give distinct byte strings. */
  lemma {:induction false} EncodeInjective(a: string, b: string)
    requires Encode(a) == Encode(b)
    ensures a == b
  {
    if a == [] || b == [] {
      assert |Encode(a)| == 0 || |Encode(b)| == 0;
    } else {
      var ea := EncodeChar(a[0]);
      var eb := EncodeChar(b[0]);
      assert Encode(a) == ea + Encode(a[1..]);
      assert Encode(b) == eb + Encode(b[1..]);
      assert ea[0] == Encode(a)[0] == eb[0];
      assert |ea| == |eb|;
      assert ea == Encode(a)[..|ea|] == eb;
      DecodeEncodeChar(a[0]);
      DecodeEncodeChar(b[0]);
      assert Encode(a[1..]) == Encode(a)[|ea|..] == Encode(b[1..]);
      EncodeInjective(a[1..], b[1..]);
    }
  }
}
