// The Pix "copia e cola" payload built by `gerar_payload_pix` (api/pix_utils.py): the
// data objects of the Banco Central BR Code, closed by the CRC field "63".
module PixUtils {
  import opened Wrappers
  import opened Text
  import opened Hex
  import opened Tlv
  import Utf8
  import Crc16

  /** GUI sub-field "00" of field 26 followed by the ID of the key sub-field "01". */
  const MerchantPrefix: string := "0014br.gov.bcb.pix01"

  /** `f"{valor:.2f}"` for an amount held as a whole number of cents. */
  function AmountText(cents: int): (r: string)
    ensures |r| >= 4 && r[|r| - 3] == '.' && AllDigits(r[|r| - 2..])
    ensures r[0] == '-' <==> cents < 0
  {
    var a := if cents < 0 then -cents else cents;
    NatToStringLength(a % 100);
    (if cents < 0 then "-" else "") + NatToString(a / 100) + "." + Pad2(a % 100)
  }

  /** The amount text reads back as the amount: whole units, a point, and two digits of cents. */
  lemma AmountTextValue(cents: int)
    ensures var r := AmountText(cents);
            var body := if cents < 0 then r[1..] else r;
            AllDigits(body[..|body| - 3])
            && DecimalValue(body[..|body| - 3]) * 100 + DecimalValue(body[|body| - 2..])
               == if cents < 0 then -cents else cents
  {
    var a := if cents < 0 then -cents else cents;
    var r := AmountText(cents);
    var whole, frac := NatToString(a / 100), Pad2(a % 100);
    var body := whole + "." + frac;
    if cents < 0 {
      assert r == "-" + body;
      assert r[1..] == body;
    } else {
      assert r == body;
    }
    assert (if cents < 0 then r[1..] else r) == body;
    DecimalRoundTrip(a / 100);
    AmountValueOf(whole, frac, a);
  }

  /** Units, a point and two cents digits read back as the amount they were written from. */
  lemma AmountValueOf(whole: string, frac: string, a: nat)
    requires AllDigits(whole) && DecimalValue(whole) == a / 100
    requires |frac| == 2 && AllDigits(frac) && DecimalValue(frac) == a % 100
    ensures var b := whole + "." + frac;
            AllDigits(b[..|b| - 3]) && DecimalValue(b[..|b| - 3]) * 100 + DecimalValue(b[|b| - 2..]) == a
  {
    var b := whole + "." + frac;
    assert b[..|b| - 3] == whole;
    assert b[|b| - 2..] == frac;
  }

  /** The length the source writes in front of field 26: it counts the key length
      as `str(len(chave))`, one character for keys shorter than ten. */
  function MerchantLengthAsWritten(chave: string): nat {
    |MerchantPrefix + NatToString(|chave|) + chave|
  }

  /** The content of field 26: the GUI sub-field and the key sub-field. */
  function MerchantAccount(chave: string): string {
    MerchantPrefix + Pad2(|chave|) + chave
  }

  /** One data object as the source writes it: its ID, the length it declares and its content. */
  datatype Segment = Segment(id: string, declared: nat, content: string)

  function Emit(ss: seq<Segment>): string {
    if ss == [] then [] else ss[0].id + Pad2(ss[0].declared) + ss[0].content + Emit(ss[1..])
  }

  /** Every declared length is the length of its content. */
  predicate Honest(ss: seq<Segment>) {
    forall i :: 0 <= i < |ss| ==> ss[i].declared == |ss[i].content|
  }

  /** The fields a reader expects to find: each segment's ID with its content. */
  function Fields(ss: seq<Segment>): (fs: seq<Field>)
    ensures |fs| == |ss|
    ensures forall i :: 0 <= i < |ss| ==> fs[i] == Field(ss[i].id, ss[i].content)
  {
    if ss == [] then [] else [Field(ss[0].id, ss[0].content)] + Fields(ss[1..])
  }

  /** Segments whose declared lengths are honest emit exactly the encoding of their fields. */
  lemma {:induction false} EmitHonest(ss: seq<Segment>)
    requires Honest(ss)
    ensures Emit(ss) == Encode(Fields(ss))
  {
    if ss != [] {
      EmitHonest(ss[1..]);
      assert Fields(ss)[1..] == Fields(ss[1..]);
    }
  }

  /** The nine data objects of the payload, in order, given the two parts the source
      templates: the length declared for field 26 and the content of field 62. The name
      is cut to 25 characters and the city to 15, and each is declared with its own length. */
  function Segments(chave: string, nome: string, cidade: string, cents: int,
                    merchantDeclared: nat, additional: string): (ss: seq<Segment>)
    ensures |ss| == 9
    ensures ss[6].id == "59" && ss[6].declared == |ss[6].content|
    ensures ss[6].content <= nome && |ss[6].content| == if |nome| < 25 then |nome| else 25
    ensures ss[7].id == "60" && ss[7].declared == |ss[7].content|
    ensures ss[7].content <= cidade && |ss[7].content| == if |cidade| < 15 then |cidade| else 15
  {
    var n := Prefix(nome, 25);
    var c := Prefix(cidade, 15);
    var v := AmountText(cents);
    [ Segment("00", 2, "01"),
      Segment("26", merchantDeclared, MerchantAccount(chave)),
      Segment("52", 4, "0000"),
      Segment("53", 3, "986"),
      Segment("54", |v|, v),
      Segment("58", 2, "BR"),
      Segment("59", |n|, n),
      Segment("60", |c|, c),
      Segment("62", |additional|, additional) ]
  }

  /** The data objects of `gerar_payload_pix`: field 26 declares the length the source
      computes, and field 62 holds "0503" followed by the txid. */
  function PayloadSegments(chave: string, nome: string, cidade: string, cents: int, txid: string): seq<Segment> {
    Segments(chave, nome, cidade, cents, MerchantLengthAsWritten(chave), "0503" + txid)
  }

  /** Everything before the CRC value, as the source assembles it: the data objects and
      the ID and length of the CRC field. */
  function PayloadBody(chave: string, nome: string, cidade: string, cents: int, txid: string): string {
    Emit(PayloadSegments(chave, nome, cidade, cents, txid)) + "6304"
  }

  /** The last four characters are the CRC, in hexadecimal, of the UTF-8 bytes of all
      characters before them: the check a BR Code reader makes. */
  predicate CrcMatches(p: string) {
    |p| >= 4 && ParseHex4(p[|p| - 4..]) == Some(Crc16.Crc(Utf8.Encode(p[..|p| - 4])))
  }

  /** Segments led by the payload format indicator emit text that starts with "000201". */
  lemma EmitFormatIndicator(ss: seq<Segment>)
    requires ss != [] && ss[0] == Segment("00", 2, "01")
    ensures |Emit(ss)| >= 6 && Emit(ss)[..6] == "000201"
  {
    Pad2Digits(2);
  }

  /** The body opens with the payload format indicator "000201" and closes with the ID and
      length "6304" of the CRC field. */
  lemma BodyFrame(chave: string, nome: string, cidade: string, cents: int, txid: string)
    ensures var body := PayloadBody(chave, nome, cidade, cents, txid);
            |body| >= 10 && body[..6] == "000201" && body[|body| - 4..] == "6304"
  {
    var ss := PayloadSegments(chave, nome, cidade, cents, txid);
    assert ss[0] == Segment("00", 2, "01");
    EmitFormatIndicator(ss);
    assert (Emit(ss) + "6304")[..6] == Emit(ss)[..6];
  }

  /** `gerar_payload_pix`: the body of data objects, then the CRC over it in hexadecimal. */
  method GerarPayloadPix(chave: string, nome: string, cidade: string, cents: int, txid: string)
    returns (payload: string)
    ensures |payload| >= 14 && payload[..|payload| - 4] == PayloadBody(chave, nome, cidade, cents, txid)
    ensures CrcMatches(payload)
    ensures payload[..6] == "000201" && payload[|payload| - 8..|payload| - 4] == "6304"
  {
    var body := PayloadBody(chave, nome, cidade, cents, txid);
    BodyFrame(chave, nome, cidade, cents, txid);
    var crc := Crc16.Crc16Ccitt(body);
    payload := body + crc;
    assert payload[..|payload| - 4] == body;
    assert payload[|payload| - 4..] == crc;
    assert payload[..6] == body[..6];
    assert payload[|payload| - 8..|payload| - 4] == body[|body| - 4..];
    ParseHex4Hex4(Crc16.Crc(Utf8.Encode(body)));
  }

  /** The field-26 length prefix is the length of its content exactly when the key has
      at least ten characters; shorter keys declare one character too few. */
  lemma MerchantLengthCorrectIff(chave: string)
    requires |chave| < 100
    ensures MerchantLengthAsWritten(chave) == |MerchantAccount(chave)| <==> |chave| >= 10
    ensures |chave| < 10 ==> MerchantLengthAsWritten(chave) == |MerchantAccount(chave)| - 1
  {
    NatToStringLength(|chave|);
  }

  /** The fixed start of field 26 is the GUI sub-field followed by the key sub-field's ID. */
  lemma MerchantPrefixFields()
    ensures MerchantPrefix == EncodeField(Field("00", "br.gov.bcb.pix")) + "01"
  {
    GuiField();
    assert "0014br.gov.bcb.pix" + "01" == MerchantPrefix;
  }

  /** The GUI sub-field of field 26: ID "00", length 14, "br.gov.bcb.pix". */
  lemma GuiField()
    ensures EncodeField(Field("00", "br.gov.bcb.pix")) == "0014br.gov.bcb.pix"
  {
    assert Pad2(14) == "14" by {
      Pad2Digits(14);
    }
    assert "00" + "14" + "br.gov.bcb.pix" == "0014br.gov.bcb.pix";
  }

  /** The content of field 26 is the GUI sub-field followed by the key sub-field. */
  lemma MerchantAccountFields(chave: string)
    requires |chave| < 100
    ensures MerchantAccount(chave) == EncodeField(Field("00", "br.gov.bcb.pix")) + EncodeField(Field("01", chave))
  {
    var g, pad := EncodeField(Field("00", "br.gov.bcb.pix")), Pad2(|chave|);
    MerchantPrefixFields();
    assert g + "01" + pad + chave == g + ("01" + pad + chave);
  }

  /** The content of field 26 reads back as the GUI and the key. */
  lemma MerchantAccountDecodes(chave: string)
    requires |chave| < 100
    ensures Decode(MerchantAccount(chave)) == Some([Field("00", "br.gov.bcb.pix"), Field("01", chave)])
  {
    var gui := Field("00", "br.gov.bcb.pix");
    var key := Field("01", chave);
    MerchantAccountFields(chave);
    assert Encode([gui, key]) == EncodeField(gui) + EncodeField(key) by {
      EncodeOne(gui);
      EncodeOne(key);
      EncodeAppend([gui], [key]);
      assert [gui] + [key] == [gui, key];
    }
    DecodeEncode([gui, key]);
  }

  /** The content of field 62 with a txid of three characters is sub-field "05" holding it. */
  lemma TxidSubfieldThree(txid: string)
    requires |txid| == 3
    ensures Decode("0503" + txid) == Some([Field("05", txid)])
  {
    var f := Field("05", txid);
    Pad2Digits(3);
    EncodeOne(f);
    assert Encode([f]) == "0503" + txid;
    DecodeEncode([f]);
  }

  /** Any other txid cannot be read back whole from the content of field 62. */
  lemma TxidSubfieldOther(txid: string)
    requires |txid| != 3
    ensures Decode("0503" + txid) != Some([Field("05", txid)])
  {
    var s := "0503" + txid;
    assert s[2] == '0' && s[3] == '3' && IsDigit(s[0]) && IsDigit(s[1]);
    assert DigitValue(s[2]) * 10 + DigitValue(s[3]) == 3;
    DecodeFirst(s);
  }

  /** The field-62 content holds sub-field "05" with the whole txid exactly when the txid
      has three characters, since the sub-field length is written as "03" whatever the txid. */
  lemma TxidSubfieldIff(txid: string)
    ensures Decode("0503" + txid) == Some([Field("05", txid)]) <==> |txid| == 3
  {
    if |txid| == 3 {
      TxidSubfieldThree(txid);
    } else {
      TxidSubfieldOther(txid);
    }
  }

  /** The txid used when a caller gives none. */
  const DefaultTxid := "***"

  /** The default txid is the one txid length the fixed "0503" frames correctly. */
  lemma DefaultTxidFramed()
    ensures Decode("0503" + DefaultTxid) == Some([Field("05", DefaultTxid)])
  {
    TxidSubfieldThree(DefaultTxid);
  }

  /** The server passes txids of twenty characters, whose sub-field "05" is cut after three. */
  lemma ServerTxidMisframed(txid: string)
    requires |txid| == 20
    ensures Decode("0503" + txid) != Some([Field("05", txid)])
  {
    TxidSubfieldOther(txid);
  }

  /** A data object a reader can take apart: a numeric two-character ID and a declared
      length that is its content's length, below 100. */
  predicate Sound(sg: Segment) {
    NumericId(sg.id) && sg.declared == |sg.content| < 100
  }

  /** When field 26 declares its real length and fields 26, 54 and 62 fit a two-digit
      length, every data object of the payload is sound. */
  lemma SegmentsSound(chave: string, nome: string, cidade: string, cents: int,
                      merchantDeclared: nat, additional: string)
    requires merchantDeclared == |MerchantAccount(chave)| < 100
    requires |AmountText(cents)| < 100 && |additional| < 100
    ensures var ss := Segments(chave, nome, cidade, cents, merchantDeclared, additional);
            forall i :: 0 <= i < |ss| ==> Sound(ss[i])
  {
    var ss := Segments(chave, nome, cidade, cents, merchantDeclared, additional);
    forall i | 0 <= i < |ss|
      ensures Sound(ss[i])
    {
      if i == 0 {
      } else if i == 1 {
      } else if i == 2 {
      } else if i == 3 {
      } else if i == 4 {
      } else if i == 5 {
      } else if i == 6 {
      } else if i == 7 {
      } else {
      }
    }
  }

  lemma CrcFieldEncodes(crc: string)
    requires |crc| == 4
    ensures Encode([Field("63", crc)]) == "6304" + crc
  {
    Pad2Digits(4);
    EncodeOne(Field("63", crc));
  }

  /** Regrouping a concatenation, stated over plain parameters so that the solver does not
      unfold the string literals of a caller while it regroups. */
  lemma Associative(a: string, b: string, c: string)
    ensures a + b + c == a + (b + c)
  {
  }

  /** Sound data objects followed by the CRC field are the encoding of their fields and the CRC. */
  lemma FramingEncodes(ss: seq<Segment>, crc: string)
    requires forall i :: 0 <= i < |ss| ==> Sound(ss[i])
    requires |crc| == 4
    ensures Emit(ss) + "6304" + crc == Encode(Fields(ss) + [Field("63", crc)])
  {
    Associative(Emit(ss), "6304", crc);
    var f := Field("63", crc);
    assert Encode(Fields(ss) + [f]) == Emit(ss) + ("6304" + crc) by {
      assert Emit(ss) == Encode(Fields(ss)) by {
        assert Honest(ss);
        EmitHonest(ss);
      }
      CrcFieldEncodes(crc);
      EncodeAppend(Fields(ss), [f]);
    }
  }

  /** Sound data objects followed by the CRC field decode to their fields and the CRC. */
  lemma FramingDecodes(ss: seq<Segment>, crc: string)
    requires forall i :: 0 <= i < |ss| ==> Sound(ss[i])
    requires |crc| == 4
    ensures Decode(Emit(ss) + "6304" + crc) == Some(Fields(ss) + [Field("63", crc)])
  {
    var fs := Fields(ss) + [Field("63", crc)];
    FramingEncodes(ss, crc);
    assert forall i :: 0 <= i < |fs| ==> Encodable(fs[i]) by {
      assert NumericId("63");
    }
    DecodeEncode(fs);
  }

  /** Outer framing: with a key of ten to seventy-seven characters, a txid of at most 95, and an
      amount text under 100 characters, the payload reads back as its fields followed by the CRC. */
  lemma PayloadDecodes(chave: string, nome: string, cidade: string, cents: int, txid: string, crc: string)
    requires 10 <= |chave| <= 77 && |txid| <= 95 && |AmountText(cents)| < 100 && |crc| == 4
    ensures Decode(PayloadBody(chave, nome, cidade, cents, txid) + crc)
            == Some(Fields(PayloadSegments(chave, nome, cidade, cents, txid)) + [Field("63", crc)])
  {
    MerchantLengthCorrectIff(chave);
    SegmentsSound(chave, nome, cidade, cents, MerchantLengthAsWritten(chave), "0503" + txid);
    FramingDecodes(PayloadSegments(chave, nome, cidade, cents, txid), crc);
  }

  // ---------------------------------------------------------------------------
  // The payload with honest framing
  // ---------------------------------------------------------------------------

  /** The data objects with field 26 declaring the real length of its content, and field 62
      holding sub-field "05" with the real length of the txid. */
  function CorrectedSegments(chave: string, nome: string, cidade: string, cents: int, txid: string): seq<Segment> {
    Segments(chave, nome, cidade, cents, |MerchantAccount(chave)|, EncodeField(Field("05", txid)))
  }

  function CorrectedPayloadBody(chave: string, nome: string, cidade: string, cents: int, txid: string): string {
    Emit(CorrectedSegments(chave, nome, cidade, cents, txid)) + "6304"
  }

  /** `gerar_payload_pix` with honest framing. */
  method GerarPayloadPixCorrected(chave: string, nome: string, cidade: string, cents: int, txid: string)
    returns (payload: string)
    ensures |payload| >= 4 && payload[..|payload| - 4] == CorrectedPayloadBody(chave, nome, cidade, cents, txid)
    ensures CrcMatches(payload)
  {
    var body := CorrectedPayloadBody(chave, nome, cidade, cents, txid);
    var crc := Crc16.Crc16Ccitt(body);
    payload := body + crc;
    assert payload[..|payload| - 4] == body;
    assert payload[|payload| - 4..] == crc;
    ParseHex4Hex4(Crc16.Crc(Utf8.Encode(body)));
  }

  /** For every key up to 77 characters and every txid up to 95, the corrected payload reads back
      as its fields and the CRC, field 26 as the GUI and the key, and field 62 as the whole txid. */
  lemma CorrectedPayloadDecodes(chave: string, nome: string, cidade: string, cents: int, txid: string, crc: string)
    requires |chave| <= 77 && |txid| <= 95 && |AmountText(cents)| < 100 && |crc| == 4
    ensures var fs := Fields(CorrectedSegments(chave, nome, cidade, cents, txid));
            Decode(CorrectedPayloadBody(chave, nome, cidade, cents, txid) + crc) == Some(fs + [Field("63", crc)])
            && Decode(fs[1].value) == Some([Field("00", "br.gov.bcb.pix"), Field("01", chave)])
            && Decode(fs[8].value) == Some([Field("05", txid)])
  {
    var ad := EncodeField(Field("05", txid));
    TxidSubfieldCorrected(txid);
    SegmentsSound(chave, nome, cidade, cents, |MerchantAccount(chave)|, ad);
    FramingDecodes(CorrectedSegments(chave, nome, cidade, cents, txid), crc);
    MerchantAccountDecodes(chave);
  }

  /** Sub-field "05" written with its real length reads back as the whole txid. */
  lemma TxidSubfieldCorrected(txid: string)
    requires |txid| < 100
    ensures |EncodeField(Field("05", txid))| == 4 + |txid|
    ensures Decode(EncodeField(Field("05", txid))) == Some([Field("05", txid)])
  {
    Pad2Digits(|txid|);
    assert NumericId("05");
    EncodeOne(Field("05", txid));
    DecodeEncode([Field("05", txid)]);
  }

  /** Where the source's framing is right (a key of at least ten characters and a txid of three),
      the corrected payload is the one the source builds. */
  lemma CorrectedAgrees(chave: string, nome: string, cidade: string, cents: int, txid: string)
    requires 10 <= |chave| < 100 && |txid| == 3
    ensures CorrectedPayloadBody(chave, nome, cidade, cents, txid) == PayloadBody(chave, nome, cidade, cents, txid)
  {
    MerchantLengthCorrectIff(chave);
    assert EncodeField(Field("05", txid)) == "0503" + txid by {
      Pad2Digits(3);
    }
  }
}
