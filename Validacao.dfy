// The public validation page: which code it looks up, whether it asks the server
// at all, what it shows, and the names of the files it downloads.
module Validacao {
  import opened Wrappers
  import opened Text

  const ValidarPrefix := "/validar/"

  /** The code written in the path after `/validar/`, percent-decoded by `decode`
      (the browser's `decodeURIComponent`); empty on any other path. */
  function Remainder(pathname: string, decode: string -> string): (r: string)
    ensures !(ValidarPrefix <= pathname) ==> r == []
    ensures ValidarPrefix <= pathname ==> r == decode(pathname[|ValidarPrefix|..])
  {
    if ValidarPrefix <= pathname then decode(pathname[|ValidarPrefix|..]) else []
  }

  /** `a || b` on optional strings: a present, non-empty `a` wins. */
  function Or(a: Option<string>, b: string): string {
    if a.Some? && a.value != [] then a.value else b
  }

  /** The code looked up: the route parameter, else the `hash` query value, else the
      path remainder, else the empty string. */
  function Hash(param: Option<string>, query: Option<string>, remainder: string): (r: string)
    ensures param.Some? && param.value != [] ==> r == param.value
    ensures (param.None? || param.value == []) && query.Some? && query.value != [] ==> r == query.value
    ensures (param.None? || param.value == []) && (query.None? || query.value == []) ==> r == remainder
  {
    Or(param, Or(query, remainder))
  }

  /** The code is empty only when every source is missing or empty. */
  lemma HashEmptyIff(param: Option<string>, query: Option<string>, remainder: string)
    ensures Hash(param, query, remainder) == [] <==>
              (param.None? || param.value == []) && (query.None? || query.value == []) && remainder == []
  {
  }

  /** What the page shows: the loading text until a request has answered, then
      the validation data or the not-found text. */
  datatype Screen = Loading | NotFound | Shown(data: string)

  /** The answer of `GET /validar/dados/{hash}`: the body of a successful answer
      (empty when the server sent nothing), or a failure. */
  datatype Answer = Found(data: string) | Failure

  /** The request the page makes: none for an empty code. */
  function Request(hash: string): (r: Option<string>)
    ensures r.None? <==> hash == []
    ensures r.Some? ==> r.value == "https://localhost:8000/validar/dados/" + hash
  {
    if hash != [] then Some("https://localhost:8000/validar/dados/" + hash) else None
  }

  /** The screen once the request, if one was made, has answered (`answer` is
      ignored when no request is made). A failure and an empty body both leave no
      data, and the not-found text is shown. */
  function ScreenAfter(hash: string, answer: Answer): (s: Screen)
    ensures hash == [] ==> s == Loading
    ensures hash != [] ==> s != Loading
    ensures s.Shown? <==> hash != [] && answer.Found? && answer.data != []
    ensures s.Shown? ==> s.data == answer.data
  {
    if Request(hash).None? then Loading
    else if answer.Found? && answer.data != [] then Shown(answer.data)
    else NotFound
  }

  /** A page opened on `/validar/` with no code anywhere never leaves the loading
      text. */
  lemma BareValidarStaysLoading(decode: string -> string, answer: Answer)
    requires decode([]) == []
    ensures ScreenAfter(Hash(None, None, Remainder(ValidarPrefix, decode)), answer) == Loading
  {
    assert ValidarPrefix[|ValidarPrefix|..] == [];
  }

  /** A download link: the address and the file name the browser saves it under. */
  datatype Link = Link(href: string, fileName: string)

  /** The two download buttons: the signed file and the original one. */
  datatype Kind = Signed | Original

  const FilesBase := "https://localhost:8000/validar/"

  /** The route under the validation address each kind is downloaded from. */
  function Route(kind: Kind): string {
    match kind
    case Signed => "arquivo/"
    case Original => "arquivo-original/"
  }

  /** The word naming each kind in the saved file's name; both have eight letters. */
  function Word(kind: Kind): (w: string)
    ensures |w| == 8
  {
    match kind
    case Signed => "assinado"
    case Original => "original"
  }

  /** The saved file's name: `documento_<word>_`, the first six characters of the
      code (all of a shorter code), then `.pdf`. */
  function FileName(kind: Kind, hash: string): (r: string)
    ensures var n := if |hash| < 6 then |hash| else 6;
            |r| == 19 + n + 4 && r[..19] == "documento_" + Word(kind) + "_"
            && r[19..19 + n] == hash[..n] && r[19 + n..] == ".pdf"
  {
    var head := "documento_" + Word(kind) + "_";
    var code := Prefix(hash, 6);
    assert code == hash[..|code|];
    var r := head + code + ".pdf";
    assert r[..19] == head && r[19..19 + |code|] == code && r[19 + |code|..] == ".pdf";
    r
  }

  /** The link a button builds: an address under the validation address that ends
      with the whole code, and the file name of its kind. */
  function Download(kind: Kind, hash: string): (l: Link)
    ensures FilesBase <= l.href && |l.href| > |FilesBase| + |hash|
    ensures l.href[|l.href| - |hash|..] == hash
    ensures l.fileName == FileName(kind, hash)
  {
    var href := FilesBase + Route(kind) + hash;
    assert href[|href| - |hash|..] == hash;
    Link(href, FileName(kind, hash))
  }

  /** The two links always point at different addresses and save under different
      names. */
  lemma LinksDiffer(hash: string)
    ensures Download(Signed, hash).href != Download(Original, hash).href
    ensures Download(Signed, hash).fileName != Download(Original, hash).fileName
  {
    var a := Download(Signed, hash);
    var b := Download(Original, hash);
    assert a.href[38] != b.href[38];
    assert a.fileName[..19][10] != b.fileName[..19][10];
  }

  /** Two codes download under the same name of a kind exactly when they agree on
      their first six characters (on the whole code when either is shorter). */
  lemma SameNameIff(kind: Kind, h1: string, h2: string)
    ensures FileName(kind, h1) == FileName(kind, h2) <==> Prefix(h1, 6) == Prefix(h2, 6)
  {
    var r1, r2 := FileName(kind, h1), FileName(kind, h2);
    var p1, p2 := Prefix(h1, 6), Prefix(h2, 6);
    if r1 == r2 {
      assert |p1| == |p2|;
      assert p1 == r1[19..19 + |p1|];
    } else {
      assert r1 == r1[..19] + r1[19..19 + |p1|] + r1[19 + |p1|..];
      assert r2 == r2[..19] + r2[19..19 + |p2|] + r2[19 + |p2|..];
    }
  }
}
