// EMV tag-length-value data objects: a two-digit ID, a two-digit decimal length and the value.
module Tlv {
  import opened Wrappers
  import opened Text

  /** An EMV data object: a two-digit ID and its value. */
  datatype Field = Field(id: string, value: string)

  /** A two-character numeric ID. */
  predicate NumericId(id: string) {
    |id| == 2 && IsDigit(id[0]) && IsDigit(id[1])
  }

  /** An encodable field: numeric ID and a value short enough for a two-digit length. */
  predicate Encodable(f: Field) {
    NumericId(f.id) && |f.value| < 100
  }

  /** `f"{id}{len(value):02}{value}"`. */
  function EncodeField(f: Field): string {
    f.id + Pad2(|f.value|) + f.value
  }

  function Encode(fs: seq<Field>): string {
    if fs == [] then [] else EncodeField(fs[0]) + Encode(fs[1..])
  }

  /** Splits a string into fields, reading each ID and two-digit length; fails on a
      non-numeric ID or length and on a truncated field. */
  function Decode(s: string): (r: Option<seq<Field>>)
    ensures r.Some? ==> Encode(r.value) == s
    ensures r.Some? ==> forall i :: 0 <= i < |r.value| ==> Encodable(r.value[i])
    decreases |s|
  {
    if s == [] then Some([])
    else if |s| < 4 || !IsDigit(s[0]) || !IsDigit(s[1]) || !IsDigit(s[2]) || !IsDigit(s[3]) then None
    else
      var n := DigitValue(s[2]) * 10 + DigitValue(s[3]);
      if |s| < 4 + n then None
      else
        match Decode(s[4 + n..])
        case None => None
        case Some(rest) =>
          HeadField(s, n);
          var f := Field(s[..2], s[4..4 + n]);
          assert ([f] + rest)[1..] == rest;
          Some([f] + rest)
  }

  /** The first field read off `s` re-encodes to the characters it was read from. */
  lemma HeadField(s: string, n: nat)
    requires |s| >= 4 + n && IsDigit(s[0]) && IsDigit(s[1]) && IsDigit(s[2]) && IsDigit(s[3])
    requires n == DigitValue(s[2]) * 10 + DigitValue(s[3])
    ensures Encodable(Field(s[..2], s[4..4 + n]))
    ensures EncodeField(Field(s[..2], s[4..4 + n])) + s[4 + n..] == s
  {
    LengthDigits(s, n);
    Cut4(s, n);
  }

  /** The two length digits are the padded length. */
  lemma LengthDigits(s: string, n: nat)
    requires |s| >= 4 && IsDigit(s[2]) && IsDigit(s[3])
    requires n == DigitValue(s[2]) * 10 + DigitValue(s[3])
    ensures Pad2(n) == s[2..4]
  {
    Pad2Digits(n);
    assert n / 10 == DigitValue(s[2]) && n % 10 == DigitValue(s[3]);
  }

  lemma Cut4(s: string, n: nat)
    requires |s| >= 4 + n
    ensures s[..2] + s[2..4] + s[4..4 + n] + s[4 + n..] == s
  {
  }

  /** Decoding reads the first field off the front: its ID, then as many
      characters as its two length digits say, failing when they are not there. */
  lemma DecodeFirst(s: string)
    requires |s| >= 4 && IsDigit(s[0]) && IsDigit(s[1]) && IsDigit(s[2]) && IsDigit(s[3])
    ensures var n := DigitValue(s[2]) * 10 + DigitValue(s[3]);
            (|s| < 4 + n ==> Decode(s) == None)
            && (Decode(s).Some? ==> |s| >= 4 + n && Decode(s).value[0] == Field(s[..2], s[4..4 + n]))
  {
  }

  /** The first field of an encoding: its ID, its two length digits, its value, then the rest. */
  lemma EncodeHead(fs: seq<Field>)
    requires fs != [] && Encodable(fs[0])
    ensures var s := Encode(fs);
            var n := |fs[0].value|;
            |s| >= 4 + n && s[..2] == fs[0].id
            && s[2] == DigitChar(n / 10) && s[3] == DigitChar(n % 10)
            && s[4..4 + n] == fs[0].value && s[4 + n..] == Encode(fs[1..])
  {
    var f := fs[0];
    var n := |f.value|;
    Pad2Digits(n);
    Slices(f.id, Pad2(n), f.value, Encode(fs[1..]));
  }

  lemma Slices(a: string, b: string, c: string, d: string)
    requires |a| == 2 && |b| == 2
    ensures var s := a + b + c + d;
            s[..2] == a && s[2] == b[0] && s[3] == b[1] && s[4..4 + |c|] == c && s[4 + |c|..] == d
  {
    var s := a + b + c + d;
    assert s == a + (b + (c + d));
    assert s[4..] == c + d;
  }

  /** Encoding then decoding gives back the fields. */
  lemma {:induction false} DecodeEncode(fs: seq<Field>)
    requires forall i :: 0 <= i < |fs| ==> Encodable(fs[i])
    ensures Decode(Encode(fs)) == Some(fs)
  {
    if fs != [] {
      DecodeEncode(fs[1..]);
      DecodeCons(fs);
    }
  }

  /** One more encodable field in front decodes to one more field in front. */
  lemma DecodeCons(fs: seq<Field>)
    requires fs != [] && Encodable(fs[0]) && Decode(Encode(fs[1..])) == Some(fs[1..])
    ensures Decode(Encode(fs)) == Some(fs)
  {
    var n := |fs[0].value|;
    EncodeHead(fs);
    DigitRoundTrip(n / 10);
    DigitRoundTrip(n % 10);
    assert [fs[0]] + fs[1..] == fs;
  }

  lemma {:induction false} EncodeAppend(a: seq<Field>, b: seq<Field>)
    ensures Encode(a + b) == Encode(a) + Encode(b)
  {
    if a != [] {
      assert (a + b)[1..] == a[1..] + b;
      EncodeAppend(a[1..], b);
    } else {
      assert a + b == b;
    }
  }

  /** A single field encodes as itself. */
  lemma EncodeOne(f: Field)
    ensures Encode([f]) == EncodeField(f)
  {
    assert [f][1..] == [];
  }
}
