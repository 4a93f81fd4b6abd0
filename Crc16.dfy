// The CRC-16 that closes a BR Code (`crc16_ccitt`): the CRC of section 4.7.3 of the EMV
// QR Code Specification for Payment Systems (Merchant-Presented Mode), with polynomial
// 0x1021, initial value 0xFFFF, no reflection and no final XOR (CRC-16/CCITT-FALSE),
// computed over the UTF-8 bytes of the text.
module Crc16 {
  import Utf8
  import opened Hex

  type byte = bv8

  const Poly: bv16 := 0x1021
  const CrcInit: bv16 := 0xFFFF

  /** One bit step of the register: shift left (doubling, modulo 2^16), and add the
      polynomial when the top bit was set. */
  function Shift(c: bv16): bv16 {
    if c & 0x8000 != 0 then (c + c) ^ Poly else c + c
  }

  function ShiftN(c: bv16, n: nat): bv16 {
    if n == 0 then c else Shift(ShiftN(c, n - 1))
  }

  /** A byte placed in the top half of the register (`byte << 8`). */
  function Top(b: byte): bv16 {
    (b as bv16) << 8
  }

  /** Feeds one byte into the register, most significant bit first. */
  function CrcByte(c: bv16, b: byte): bv16 {
    ShiftN(c ^ Top(b), 8)
  }

  /** The register after feeding the bytes `bs`, in order, starting from `c`. */
  function CrcFrom(c: bv16, bs: seq<byte>): bv16
    decreases |bs|
  {
    if bs == [] then c else CrcFrom(CrcByte(c, bs[0]), bs[1..])
  }

  /** The CRC of a byte sequence. */
  function Crc(bs: seq<byte>): bv16 {
    CrcFrom(CrcInit, bs)
  }

  lemma TopSet(c: bv16)
    requires c & 0x8000 != 0
    ensures Shift(c) == (c + c) ^ 0x1021
  {
  }

  lemma TopClear(c: bv16)
    requires c & 0x8000 == 0
    ensures Shift(c) == c + c
  {
  }

  /** `crc16_ccitt`: the register starts at 0xFFFF; for each UTF-8 byte, the byte is added
      into the top half and eight bit steps follow; the result is rendered in hexadecimal. */
  method Crc16Ccitt(data: string) returns (hex: string)
    ensures hex == Hex4(Crc(Utf8.Encode(data)))
    ensures data == [] ==> hex == "FFFF"
  {
    var bytes := Utf8.Encode(data);
    var crc: bv16 := 0xFFFF;
    for i := 0 to |bytes|
      invariant CrcFrom(crc, bytes[i..]) == Crc(bytes)
    {
      crc := crc ^ Top(bytes[i]);
      ghost var start := crc;
      for j := 0 to 8
        invariant crc == ShiftN(start, j)
      {
        if crc & 0x8000 != 0 {
          TopSet(crc);
          crc := (crc + crc) ^ Poly;
        } else {
          TopClear(crc);
          crc := crc + crc;
        }
      }
      assert bytes[i..][1..] == bytes[i + 1..];
    }
    hex := Hex4(crc);
  }

  lemma ShiftEight(c: bv16)
    ensures ShiftN(c, 8) == Shift(Shift(Shift(Shift(Shift(Shift(Shift(Shift(c))))))))
  {
    assert ShiftN(c, 1) == Shift(c);
    assert ShiftN(c, 2) == Shift(ShiftN(c, 1));
    assert ShiftN(c, 3) == Shift(ShiftN(c, 2));
    assert ShiftN(c, 4) == Shift(ShiftN(c, 3));
    assert ShiftN(c, 5) == Shift(ShiftN(c, 4));
    assert ShiftN(c, 6) == Shift(ShiftN(c, 5));
    assert ShiftN(c, 7) == Shift(ShiftN(c, 6));
  }

  lemma ByteStep(c: bv16, b: byte, e: bv16)
    requires Shift(Shift(Shift(Shift(Shift(Shift(Shift(Shift(c ^ Top(b))))))))) == e
    ensures CrcByte(c, b) == e
  {
    ShiftEight(c ^ Top(b));
  }

  lemma CheckFirstThird()
    ensures CrcFrom(0xFFFF, [0x31, 0x32, 0x33, 0x34, 0x35, 0x36, 0x37, 0x38, 0x39]) == CrcFrom(0x5BCE, [0x34, 0x35, 0x36, 0x37, 0x38, 0x39])
  {
    var d: seq<byte> := [0x31, 0x32, 0x33, 0x34, 0x35, 0x36, 0x37, 0x38, 0x39];
    ByteStep(0xFFFF, 0x31, 0xC782);
    ByteStep(0xC782, 0x32, 0x3DBA);
    ByteStep(0x3DBA, 0x33, 0x5BCE);
    assert d[1..][1..] == d[2..];
    assert d[2..][1..] == d[3..];
  }

  lemma CheckSecondThird()
    ensures CrcFrom(0x5BCE, [0x34, 0x35, 0x36, 0x37, 0x38, 0x39]) == CrcFrom(0x2EF4, [0x37, 0x38, 0x39])
  {
    var d: seq<byte> := [0x34, 0x35, 0x36, 0x37, 0x38, 0x39];
    ByteStep(0x5BCE, 0x34, 0x5349);
    ByteStep(0x5349, 0x35, 0x4560);
    ByteStep(0x4560, 0x36, 0x2EF4);
    assert d[1..][1..] == d[2..];
    assert d[2..][1..] == d[3..];
  }

  lemma CheckLastThird()
    ensures CrcFrom(0x2EF4, [0x37, 0x38, 0x39]) == 0x29B1
  {
    var d: seq<byte> := [0x37, 0x38, 0x39];
    ByteStep(0x2EF4, 0x37, 0x7718);
    ByteStep(0x7718, 0x38, 0xA12B);
    ByteStep(0xA12B, 0x39, 0x29B1);
    assert d[1..][1..] == d[2..];
    assert d[2..][1..] == d[3..];
    assert d[3..] == [];
  }

  /** The standard check value of this CRC (CRC-16/CCITT-FALSE): the bytes of "123456789"
      give 0x29B1. */
  lemma CrcCheckValue()
    ensures Crc([0x31, 0x32, 0x33, 0x34, 0x35, 0x36, 0x37, 0x38, 0x39]) == 0x29B1
  {
    CheckFirstThird();
    CheckSecondThird();
    CheckLastThird();
  }
}
