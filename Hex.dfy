// Four upper-case hexadecimal digits, as written by Python's `f"{crc:04X}"`.
module Hex {
  import opened Wrappers

  predicate IsUpperHex(c: char) {
    '0' <= c <= '9' || 'A' <= c <= 'F'
  }

  /** The upper-case hexadecimal digit of a nibble. */
  function HexChar(d: bv16): (c: char)
    requires d < 16
    ensures IsUpperHex(c)
  {
    if d == 0 then '0'
    else if d == 1 then '1'
    else if d == 2 then '2'
    else if d == 3 then '3'
    else if d == 4 then '4'
    else if d == 5 then '5'
    else if d == 6 then '6'
    else if d == 7 then '7'
    else if d == 8 then '8'
    else if d == 9 then '9'
    else if d == 10 then 'A'
    else if d == 11 then 'B'
    else if d == 12 then 'C'
    else if d == 13 then 'D'
    else if d == 14 then 'E'
    else 'F'
  }

  /** The nibble an upper-case hexadecimal digit stands for. */
  function HexValue(c: char): (d: bv16)
    requires IsUpperHex(c)
    ensures d < 16 && HexChar(d) == c
  {
    if c == '0' then 0
    else if c == '1' then 1
    else if c == '2' then 2
    else if c == '3' then 3
    else if c == '4' then 4
    else if c == '5' then 5
    else if c == '6' then 6
    else if c == '7' then 7
    else if c == '8' then 8
    else if c == '9' then 9
    else if c == 'A' then 10
    else if c == 'B' then 11
    else if c == 'C' then 12
    else if c == 'D' then 13
    else if c == 'E' then 14
    else 15
  }

  /** `f"{crc:04X}"`: four upper-case hexadecimal digits, most significant first. */
  function Hex4(v: bv16): (r: string)
    ensures |r| == 4
    ensures forall i :: 0 <= i < 4 ==> IsUpperHex(r[i])
  {
    [HexChar(v >> 12), HexChar((v >> 8) & 0xF), HexChar((v >> 4) & 0xF), HexChar(v & 0xF)]
  }

  /** Reads four upper-case hexadecimal digits, as a payload reader does with the CRC field. */
  function ParseHex4(s: string): (r: Option<bv16>)
    ensures r.Some? ==> Hex4(r.value) == s
  {
    if |s| == 4 && IsUpperHex(s[0]) && IsUpperHex(s[1]) && IsUpperHex(s[2]) && IsUpperHex(s[3]) then
      var v := (HexValue(s[0]) << 12) | (HexValue(s[1]) << 8) | (HexValue(s[2]) << 4) | HexValue(s[3]);
      NibblesOf(HexValue(s[0]), HexValue(s[1]), HexValue(s[2]), HexValue(s[3]));
      Some(v)
    else None
  }

  /** Reading a digit back gives its nibble. */
  lemma HexRoundTrip(d: bv16)
    requires d < 16
    ensures HexValue(HexChar(d)) == d
  {
  }

  lemma NibblesOf(a: bv16, b: bv16, c: bv16, d: bv16)
    requires a < 16 && b < 16 && c < 16 && d < 16
    ensures var v := (a << 12) | (b << 8) | (c << 4) | d;
            v >> 12 == a && (v >> 8) & 0xF == b && (v >> 4) & 0xF == c && v & 0xF == d
  {
  }

  /** The rendering is read back exactly. */
  lemma ParseHex4Hex4(v: bv16)
    ensures ParseHex4(Hex4(v)) == Some(v)
  {
    var h := Hex4(v);
    HexRoundTrip(v >> 12);
    HexRoundTrip((v >> 8) & 0xF);
    HexRoundTrip((v >> 4) & 0xF);
    HexRoundTrip(v & 0xF);
    assert HexValue(h[0]) == v >> 12 && HexValue(h[1]) == (v >> 8) & 0xF;
    assert HexValue(h[2]) == (v >> 4) & 0xF && HexValue(h[3]) == v & 0xF;
    assert ((v >> 12) << 12) | (((v >> 8) & 0xF) << 8) | (((v >> 4) & 0xF) << 4) | (v & 0xF) == v;
  }
}
