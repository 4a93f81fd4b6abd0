// The signing page: the multipart form it sends to the server, the message it
// shows when sending fails, and the conversion of a drawn signature's data URL
// into bytes and a MIME type.
module Home {
  import opened Wrappers
  import opened Text

  /** How a party signs: by typing a name, rendered in the chosen font, or by drawing. */
  datatype Mode = Texto | Desenho

  /** One party's input: the typed name, and whether the drawing pad holds strokes. */
  datatype Party = Party(mode: Mode, nome: string, drawn: bool)

  datatype Role = Contratante | Contratada

  /** The form fields the page can send. */
  datatype Field = Arquivo | Fonte | Nome(role: Role) | Img(role: Role)

  /** A form value: the chosen file, a text, or a signature image, typed or drawn. */
  datatype Value = FileValue(name: string) | TextValue(text: string) | ImageValue(role: Role, typed: bool)

  datatype Part = Part(field: Field, value: Value)

  function RoleName(role: Role): string {
    match role
    case Contratante => "contratante"
    case Contratada => "contratada"
  }

  /** The field's name in the multipart body. */
  function FieldName(f: Field): (r: string)
    ensures f.Nome? ==> r == "nome_" + RoleName(f.role)
    ensures f.Img? ==> r == "img_" + RoleName(f.role)
  {
    match f
    case Arquivo => "arquivo"
    case Fonte => "fonte"
    case Nome(role) => "nome_" + RoleName(role)
    case Img(role) => "img_" + RoleName(role)
  }

  /** The file name given to a signature image. */
  function ImageFileName(role: Role, typed: bool): string {
    "assinatura_" + RoleName(role) + (if typed then "_gerada.png" else ".png")
  }

  const DefaultFont := "Dancing Script"

  // ---------------------------------------------------------------------------
  // The form
  // ---------------------------------------------------------------------------

  /** The image made from a typed name exists only when the name is not blank:
      some character is not whitespace. */
  predicate RendersImage(nome: string) {
    exists i | 0 <= i < |nome| :: !JsSpace(nome[i])
  }

  /** That is the page's test: the trimmed name is non-empty. */
  lemma RendersImageIffTrimmed(nome: string)
    ensures RendersImage(nome) <==> TrimJs(nome) != []
  {
  }

  /** The fields a party adds: in text mode its name, and the rendered image when
      there is one; in drawing mode the drawn image when the pad is not empty. */
  function PartyParts(role: Role, p: Party): seq<Part> {
    if p.mode == Texto then
      [Part(Nome(role), TextValue(p.nome))] + (if RendersImage(p.nome) then [Part(Img(role), ImageValue(role, true))] else [])
    else if p.drawn then [Part(Img(role), ImageValue(role, false))]
    else []
  }

  /** The whole form: the file and the font, then the contratante's fields, then the
      contratada's. */
  function FormFor(file: string, fonte: string, contratante: Party, contratada: Party): seq<Part> {
    [Part(Arquivo, FileValue(file)), Part(Fonte, TextValue(fonte))]
    + PartyParts(Contratante, contratante) + PartyParts(Contratada, contratada)
  }

  predicate HasField(form: seq<Part>, field: Field) {
    exists i :: 0 <= i < |form| && form[i].field == field
  }

  /** A party's name is sent exactly in text mode, and its image exactly when the
      typed name is not blank or, in drawing mode, when something was drawn. Neither
      party's fields depend on the other's input. */
  lemma PartyFields(file: string, fonte: string, ct: Party, cd: Party, role: Role)
    ensures var p := if role == Contratante then ct else cd;
            var form := FormFor(file, fonte, ct, cd);
            (HasField(form, Nome(role)) <==> p.mode == Texto)
            && (HasField(form, Img(role)) <==> if p.mode == Texto then RendersImage(p.nome) else p.drawn)
  {
    var head := [Part(Arquivo, FileValue(file)), Part(Fonte, TextValue(fonte))];
    var a := PartyParts(Contratante, ct);
    var b := PartyParts(Contratada, cd);
    FieldsOfParty(Contratante, ct);
    FieldsOfParty(Contratada, cd);
    HasFieldAppend(head + a, b, Nome(role));
    HasFieldAppend(head, a, Nome(role));
    HasFieldAppend(head + a, b, Img(role));
    HasFieldAppend(head, a, Img(role));
  }

  /** The fields a party's parts carry. */
  lemma FieldsOfParty(role: Role, p: Party)
    ensures forall i :: 0 <= i < |PartyParts(role, p)| ==> PartyParts(role, p)[i].field in {Nome(role), Img(role)}
    ensures HasField(PartyParts(role, p), Nome(role)) <==> p.mode == Texto
    ensures HasField(PartyParts(role, p), Img(role)) <==> if p.mode == Texto then RendersImage(p.nome) else p.drawn
  {
    var parts := PartyParts(role, p);
    if p.mode == Texto {
      assert parts[0].field == Nome(role);
      if RendersImage(p.nome) {
        assert parts[1].field == Img(role);
      }
    } else if p.drawn {
      assert parts[0].field == Img(role);
    }
  }

  lemma HasFieldAppend(a: seq<Part>, b: seq<Part>, f: Field)
    ensures HasField(a + b, f) <==> HasField(a, f) || HasField(b, f)
  {
    if HasField(a + b, f) {
      var i :| 0 <= i < |a + b| && (a + b)[i].field == f;
      if i >= |a| {
        assert b[i - |a|].field == f;
      }
    }
    if HasField(b, f) {
      var i :| 0 <= i < |b| && b[i].field == f;
      assert (a + b)[|a| + i].field == f;
    }
    if HasField(a, f) {
      var i :| 0 <= i < |a| && a[i].field == f;
      assert (a + b)[i].field == f;
    }
  }

  /** An error answer as the page receives it. The request asks for a blob, so the
      body arrives as raw bytes (`text`); `detail` is the `detail` member the body
      holds when read as JSON, which the page itself never does. */
  datatype ErrorBody = ErrorBody(text: string, detail: Option<string>)

  /** The failures the request can end in: the error code, the server's answer if
      there was one, and the library's message. */
  datatype Failure = Failure(code: string, response: Option<ErrorBody>, message: string)

  /** The outcome of the request: the signed PDF, or a failure. */
  datatype Outcome = Signed | Failed(failure: Failure)

  const ConnectError := "Erro ao conectar com o servidor."
  const CertificateHint := " Provavelmente certificado SSL não aceito. Abra https://localhost:8000/docs e aceite o risco."
  const ServerErrorPrefix := "Erro do servidor: "

  /** The message shown for a failure, as the page computes it. A network error gets
      the certificate hint, even when a response is present. A server answer is a
      blob, whose `detail` is always undefined, so it shows the library's message.
      Any other failure shows the connection message. */
  function ErrorMessage(e: Failure): (r: string)
    ensures e.code == "ERR_NETWORK" ==> r == ConnectError + CertificateHint
    ensures e.code != "ERR_NETWORK" && e.response.Some? ==> r == ServerErrorPrefix + e.message
    ensures e.code != "ERR_NETWORK" && e.response.None? ==> r == ConnectError
  {
    if e.code == "ERR_NETWORK" then ConnectError + CertificateHint
    else if e.response.Some? then ServerErrorPrefix + e.message
    else ConnectError
  }

  /** Whatever detail the server sends, the page shows the same message as for an
      answer without one: the server's detail never reaches the user. */
  lemma ServerDetailNeverShown(e: Failure, b: ErrorBody)
    requires e.response.Some?
    ensures ErrorMessage(e) == ErrorMessage(e.(response := Some(b)))
  {
  }

  /** A 500 answer to a PDF the server cannot read: the page shows the library's
      status text where the server's reason was meant to appear. */
  lemma ServerDetailLost()
    ensures var e := Failure("ERR_BAD_RESPONSE",
                             Some(ErrorBody("{\"detail\":\"EOF marker not found\"}", Some("EOF marker not found"))),
                             "Request failed with status code 500");
            ErrorMessage(e) == ServerErrorPrefix + e.message
            && ErrorMessageIntended(e)[|ServerErrorPrefix|..] == "EOF marker not found"
            && ErrorMessage(e) != ErrorMessageIntended(e)
  {
    var e := Failure("ERR_BAD_RESPONSE",
                     Some(ErrorBody("{\"detail\":\"EOF marker not found\"}", Some("EOF marker not found"))),
                     "Request failed with status code 500");
    assert |e.message| != |"EOF marker not found"|;
    IntendedShowsDetail(e);
  }

  /** The message the page evidently means to show: the server's `detail`, read from
      the body, and the library's message only when there is none. */
  function ErrorMessageIntended(e: Failure): (r: string)
    ensures e.code == "ERR_NETWORK" ==> r == ConnectError + CertificateHint
    ensures e.code != "ERR_NETWORK" && e.response.Some? ==> ServerErrorPrefix <= r
    ensures e.code != "ERR_NETWORK" && e.response.None? ==> r == ConnectError
  {
    if e.code == "ERR_NETWORK" then ConnectError + CertificateHint
    else if e.response.Some? then
      var d := e.response.value.detail;
      ServerErrorPrefix + (if d.Some? && d.value != [] then d.value else e.message)
    else ConnectError
  }

  /** The intended message shows a non-empty server detail after the prefix, and
      differs from the page's message exactly when that detail is not the library's
      message; without a detail the two agree. */
  lemma IntendedShowsDetail(e: Failure)
    requires e.code != "ERR_NETWORK" && e.response.Some?
    ensures var d := e.response.value.detail;
            (d.Some? && d.value != [] ==> ErrorMessageIntended(e)[|ServerErrorPrefix|..] == d.value)
            && (ErrorMessageIntended(e) == ErrorMessage(e) <==> d.None? || d.value == [] || d.value == e.message)
  {
    var d := e.response.value.detail;
    var r := ErrorMessageIntended(e);
    if d.Some? && d.value != [] {
      assert r[|ServerErrorPrefix|..] == d.value;
      if r == ErrorMessage(e) {
        assert ErrorMessage(e)[|ServerErrorPrefix|..] == e.message;
      }
    }
  }

  /** The three kinds of failure give three different messages. */
  lemma ErrorKindsDiffer(network: Failure, server: Failure, other: Failure)
    requires network.code == "ERR_NETWORK"
    requires server.code != "ERR_NETWORK" && server.response.Some?
    requires other.code != "ERR_NETWORK" && other.response.None?
    ensures ErrorMessage(network) != ErrorMessage(server)
    ensures ErrorMessage(network) != ErrorMessage(other)
    ensures ErrorMessage(server) != ErrorMessage(other)
  {
    assert ErrorMessage(network)[5] != ErrorMessage(server)[5];
    assert ErrorMessage(other)[5] != ErrorMessage(server)[5];
    assert |ErrorMessage(network)| != |ErrorMessage(other)|;
  }

  /** The signing page. */
  class SignPage {
    var arquivo: Option<string>
    var contratante: Party
    var contratada: Party
    var fonte: string
    var carregando: bool
    var erro: string
    var route: Option<string>

    constructor()
      ensures arquivo == None && fonte == DefaultFont && !carregando && erro == [] && route == None
      ensures contratante == Party(Texto, [], false) && contratada == Party(Texto, [], false)
    {
      arquivo, fonte, carregando, erro, route := None, DefaultFont, false, [], None;
      contratante, contratada := Party(Texto, [], false), Party(Texto, [], false);
    }

    /** Choosing a file: when the input reports a file list, its first file (none
        for an empty list) becomes the document and the error is cleared. */
    method SelecionarArquivo(files: Option<seq<string>>)
      modifies this`arquivo, this`erro
      ensures files.None? ==> arquivo == old(arquivo) && erro == old(erro)
      ensures files.Some? ==> erro == [] && arquivo == if files.value != [] then Some(files.value[0]) else None
    {
      if files.Some? {
        arquivo := if files.value != [] then Some(files.value[0]) else None;
        erro := [];
      }
    }

    /** Builds the form field by field, as the page appends to its `FormData`;
        nothing is built without a file. */
    method BuildForm() returns (form: Option<seq<Part>>)
      ensures arquivo.None? <==> form.None?
      ensures arquivo.Some? ==> form == Some(FormFor(arquivo.value, fonte, contratante, contratada))
    {
      if arquivo.None? {
        return None;
      }
      var parts: seq<Part> := [];
      parts := parts + [Part(Arquivo, FileValue(arquivo.value))];
      parts := parts + [Part(Fonte, TextValue(fonte))];
      var roles := [Contratante, Contratada];
      var k := 0;
      while k < 2
        invariant 0 <= k <= 2
        invariant parts == [Part(Arquivo, FileValue(arquivo.value)), Part(Fonte, TextValue(fonte))]
                           + (if k >= 1 then PartyParts(Contratante, contratante) else [])
                           + (if k >= 2 then PartyParts(Contratada, contratada) else [])
      {
        var role := roles[k];
        var p := if k == 0 then contratante else contratada;
        if p.mode == Texto {
          parts := parts + [Part(Nome(role), TextValue(p.nome))];
          if RendersImage(p.nome) {
            parts := parts + [Part(Img(role), ImageValue(role, true))];
          }
        } else if p.drawn {
          parts := parts + [Part(Img(role), ImageValue(role, false))];
        }
        k := k + 1;
      }
      return Some(parts);
    }

    /** Sending: without a file nothing happens. Otherwise the signed PDF opens the
        success page, and a failure shows its message. */
    method AssinarDocumento(outcome: Outcome)
      modifies this`carregando, this`erro, this`route
      ensures old(arquivo).None? ==> carregando == old(carregando) && erro == old(erro) && route == old(route)
      ensures old(arquivo).Some? && outcome.Signed? ==> route == Some("/sucesso") && erro == [] && !carregando
      ensures old(arquivo).Some? && outcome.Failed? ==> route == old(route) && erro == ErrorMessage(outcome.failure) && !carregando
    {
      if arquivo.None? {
        return;
      }
      carregando := true;
      erro := [];
      if outcome.Signed? {
        route := Some("/sucesso");
      } else {
        erro := ErrorMessage(outcome.failure);
      }
      carregando := false;
    }
  }

  // ---------------------------------------------------------------------------
  // Data URLs
  // ---------------------------------------------------------------------------

  /** The characters `.` does not match in a JavaScript regular expression. */
  predicate LineTerminator(c: char) {
    c == '\n' || c == '\r' || c == '\U{2028}' || c == '\U{2029}'
  }

  /** The first ';' at or after `k`, unless a line terminator comes before it. */
  function CloseAt(h: string, k: nat): (r: Option<nat>)
    ensures r.Some? ==> k <= r.value < |h| && h[r.value] == ';'
    ensures r.Some? ==> forall j :: k <= j < r.value ==> h[j] != ';' && !LineTerminator(h[j])
    decreases |h| - k
  {
    if k >= |h| then None
    else if h[k] == ';' then Some(k)
    else if LineTerminator(h[k]) then None
    else CloseAt(h, k + 1)
  }

  /** The leftmost match of `/:(.*?);/` at or after `i`: its captured group. */
  function MatchFrom(h: string, i: nat): Option<string>
    decreases |h| - i
  {
    if i >= |h| then None
    else if h[i] == ':' && CloseAt(h, i + 1).Some? then Some(h[i + 1..CloseAt(h, i + 1).value])
    else MatchFrom(h, i + 1)
  }

  /** The MIME type of a data URL: the captured group of its header, or image/png. */
  function MimeOf(dataurl: string): string {
    var m := MatchFrom(BeforeFirst(dataurl, ','), 0);
    if m.Some? then m.value else "image/png"
  }

  /** A plain group is found right after the colon. */
  lemma {:induction false} CloseAtPlain(h: string, k: nat, m: string)
    requires k + |m| < |h| && h[k + |m|] == ';' && h[k..k + |m|] == m
    requires forall j :: 0 <= j < |m| ==> m[j] != ';' && !LineTerminator(m[j])
    ensures CloseAt(h, k) == Some(k + |m|)
    decreases |m|
  {
    if m != [] {
      assert h[k] == m[0];
      assert h[k + 1..k + 1 + |m[1..]|] == m[1..];
      CloseAtPlain(h, k + 1, m[1..]);
    }
  }

  /** `data:<type>;base64,<payload>` yields `<type>` when the type has no ':', ';',
      ',' or line break. */
  lemma MimeOfDataUrl(m: string, payload: string)
    requires forall j :: 0 <= j < |m| ==> m[j] != ';' && m[j] != ':' && m[j] != ',' && !LineTerminator(m[j])
    ensures MimeOf("data:" + m + ";base64," + payload) == m
  {
    var header := "data:" + m + ";base64";
    HeaderOfDataUrl(m, payload);
    assert header[5..5 + |m|] == m;
    CloseAtPlain(header, 5, m);
    assert MatchFrom(header, 4) == Some(m);
    assert MatchFrom(header, 3) == MatchFrom(header, 4);
    assert MatchFrom(header, 2) == MatchFrom(header, 3);
    assert MatchFrom(header, 1) == MatchFrom(header, 2);
  }

  /** The header of such a URL is everything before its first ','. */
  lemma HeaderOfDataUrl(m: string, payload: string)
    requires forall j :: 0 <= j < |m| ==> m[j] != ','
    ensures BeforeFirst("data:" + m + ";base64," + payload, ',') == "data:" + m + ";base64"
  {
    var s := "data:" + m + ";base64," + payload;
    var header := "data:" + m + ";base64";
    assert s == header + "," + payload;
    forall i | 0 <= i < |header| ensures s[i] != ',' {
      assert s[i] == header[i];
      if 5 <= i < 5 + |m| { assert header[i] == m[i - 5]; }
    }
    BeforeFirstAt(s, ',', |header|);
    assert s[..|header|] == header;
  }

  /** A header without a colon falls back to image/png. */
  lemma {:induction false} NoColonNoMatch(h: string, i: nat)
    requires forall j :: 0 <= j < |h| ==> h[j] != ':'
    ensures MatchFrom(h, i) == None
    decreases |h| - i
  {
    if i < |h| {
      NoColonNoMatch(h, i + 1);
    }
  }

  /** The byte a `Uint8Array` stores for a character code. */
  function ByteOf(c: char): int {
    (c as int) % 256
  }

  /** A decoded image: its bytes and its MIME type. */
  datatype Blob = Blob(bytes: seq<int>, mime: string)

  /** Copies the decoded characters into a byte array from the last to the first. */
  method FillBytes(bstr: string) returns (bytes: seq<int>)
    ensures |bytes| == |bstr|
    ensures forall i :: 0 <= i < |bstr| ==> bytes[i] == ByteOf(bstr[i]) && 0 <= bytes[i] < 256
  {
    var n := |bstr|;
    var u8arr := new int[n];
    while n > 0
      invariant 0 <= n <= |bstr|
      invariant forall i :: n <= i < |bstr| ==> u8arr[i] == ByteOf(bstr[i])
    {
      n := n - 1;
      u8arr[n] := ByteOf(bstr[n]);
    }
    bytes := u8arr[..];
  }

  /** `dataURLtoBlob`: the payload after the first ',' (up to any second one) is
      base64-decoded by `atob` and copied byte by byte. Without a ',' there is no
      payload and the browser's decoder fails. */
  method DataUrlToBlob(dataurl: string, atob: string -> string) returns (r: Option<Blob>)
    ensures r.None? <==> |Split(dataurl, ',')| < 2
    ensures r.Some? ==> r.value.mime == MimeOf(dataurl)
    ensures r.Some? ==> var bstr := atob(Split(dataurl, ',')[1]);
                        |r.value.bytes| == |bstr| && forall i :: 0 <= i < |bstr| ==> r.value.bytes[i] == ByteOf(bstr[i])
  {
    var arr := Split(dataurl, ',');
    if |arr| < 2 {
      return None;
    }
    var mime := MimeOf(dataurl);
    var bytes := FillBytes(atob(arr[1]));
    return Some(Blob(bytes, mime));
  }
}
