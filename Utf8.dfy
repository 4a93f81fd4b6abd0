// UTF-8, as produced by Python's `str.encode('utf-8')` on the text the CRC covers.
module Utf8 {

  type byte = bv8

  function ByteOf(k: int): byte
    requires 0 <= k < 0x100
  {
    k as byte
  }

  /** The UTF-8 encoding of one Unicode scalar value: one byte below 0x80, two below
      0x800, three below 0x10000, four otherwise. */
  function EncodeChar(c: char): (r: seq<byte>)
    ensures 1 <= |r| <= 4
    ensures |r| == 1 <==> c as int < 0x80
  {
    var k := c as int;
    if k < 0x80 then [ByteOf(k)]
    else if k < 0x800 then [ByteOf(0xC0 + k / 0x40), ByteOf(0x80 + k % 0x40)]
    else if k < 0x10000 then
      [ByteOf(0xE0 + k / 0x1000), ByteOf(0x80 + (k / 0x40) % 0x40), ByteOf(0x80 + k % 0x40)]
    else
      [ByteOf(0xF0 + k / 0x40000), ByteOf(0x80 + (k / 0x1000) % 0x40),
       ByteOf(0x80 + (k / 0x40) % 0x40), ByteOf(0x80 + k % 0x40)]
  }

  /** The UTF-8 encoding of a string: its characters' encodings, in order. */
  function Encode(s: string): (r: seq<byte>)
    ensures |r| >= |s|
    ensures |r| == |s| <==> forall i :: 0 <= i < |s| ==> s[i] as int < 0x80
  {
    if s == [] then [] else EncodeChar(s[0]) + Encode(s[1..])
  }
}
