// The decisions the signing server makes around the PDF work: where on the page
// the signatures go (found lines beat found labels, which beat fixed defaults),
// which pages it searches, who is recorded as a signatory, and which file names it
// tries when a validation code arrives in a mangled form.
module Principal {
  import opened Wrappers
  import opened Text
  import opened Lists
  import Sorting

  /** A position in PDF user space. */
  datatype Point = Point(x: real, y: real)

  /** A run of text as the PDF text extractor reports it, with the translation part
      of its text matrix. */
  datatype Fragment = Fragment(text: string, x: real, y: real)

  /** A page: its media box size and its text runs in extraction order. */
  datatype Page = Page(width: real, height: real, fragments: seq<Fragment>)

  /** What the text visitor gathers on one page: the last positions of the two party
      labels, and every signature line in the order met. */
  datatype Coords = Coords(contratante: Option<Point>, contratada: Option<Point>, linhas: seq<Point>)

  datatype Label = ContratanteLabel | ContratadaLabel | NoLabel

  // ---------------------------------------------------------------------------
  // Classifying text runs
  // ---------------------------------------------------------------------------

  /** `text and text.strip()`: some character of the run is not whitespace. */
  predicate NonBlank(f: Fragment) {
    exists i | 0 <= i < |f.text| :: !PySpace(f.text[i])
  }

  /** The test above is Python's: the stripped text is non-empty. */
  lemma NonBlankIffStripped(f: Fragment)
    ensures NonBlank(f) <==> StripPy(f.text) != []
  {
  }

  /** The comparison key: the stripped text, upper-cased, without ':' and '.'. */
  function Key(text: string): string {
    RemoveChar(RemoveChar(Upper(StripPy(text)), ':'), '.')
  }

  /** A party label: a non-blank run whose key mentions CONTRATANTE, or else
      CONTRATADA. */
  function LabelOf(f: Fragment): Label
  {
    if !NonBlank(f) then NoLabel
    else if Contains(Key(f.text), "CONTRATANTE") then ContratanteLabel
    else if Contains(Key(f.text), "CONTRATADA") then ContratadaLabel
    else NoLabel
  }

  /** A signature line: a non-blank run containing three underscores in a row. */
  predicate IsLine(f: Fragment) {
    NonBlank(f) && Contains(f.text, "___")
  }

  function PointOf(f: Fragment): Point {
    Point(f.x, f.y)
  }

  /** One visit of the text visitor, given how the run was classified. A label and
      a line are recorded independently. */
  function Step(c: Coords, f: Fragment, l: Label, line: bool): Coords {
    Coords(if l == ContratanteLabel then Some(PointOf(f)) else c.contratante,
           if l == ContratadaLabel then Some(PointOf(f)) else c.contratada,
           if line then c.linhas + [PointOf(f)] else c.linhas)
  }

  const NoCoords := Coords(None, None, [])

  /** The visitor run over text runs in order, with a classification of runs. */
  function ScanBy(frags: seq<Fragment>, labelOf: Fragment -> Label, isLine: Fragment -> bool): Coords
    decreases |frags|
  {
    if frags == [] then NoCoords
    else
      var last := frags[|frags| - 1];
      Step(ScanBy(frags[..|frags| - 1], labelOf, isLine), last, labelOf(last), isLine(last))
  }

  /** The visitor run over a page's text runs, classified as the server does. */
  function Scan(frags: seq<Fragment>): Coords {
    ScanBy(frags, LabelOf, IsLine)
  }

  /** What a scan records: the lines are the line runs' positions in page order,
      and a party has a position exactly when some run is its label. */
  lemma ScanMeaning(frags: seq<Fragment>)
    ensures Scan(frags).linhas == Map(Filter(frags, IsLine), PointOf)
    ensures Scan(frags).contratante.None? <==> forall i :: 0 <= i < |frags| ==> LabelOf(frags[i]) != ContratanteLabel
    ensures Scan(frags).contratada.None? <==> forall i :: 0 <= i < |frags| ==> LabelOf(frags[i]) != ContratadaLabel
  {
    ScanLines(frags, LabelOf, IsLine);
    LastLabelWins(frags, LabelOf, IsLine, ContratanteLabel);
    LastLabelWins(frags, LabelOf, IsLine, ContratadaLabel);
  }

  /** `if coords:` — the dictionary is non-empty when anything was recorded. */
  predicate Found(c: Coords) {
    c.contratante.Some? || c.contratada.Some? || c.linhas != []
  }

  /** The lines of a page are the points of its line runs, in page order. */
  lemma {:induction false} ScanLines(frags: seq<Fragment>, labelOf: Fragment -> Label, isLine: Fragment -> bool)
    ensures ScanBy(frags, labelOf, isLine).linhas == Map(Filter(frags, isLine), PointOf)
    decreases |frags|
  {
    if frags != [] {
      var init, last := frags[..|frags| - 1], frags[|frags| - 1];
      ScanLines(init, labelOf, isLine);
      assert frags == init + [last];
      MapFilterSnoc(init, last, isLine, PointOf);
    }
  }

  /** The position recorded for a party is that of the last run classified as its
      label, and there is none when no run is. */
  lemma {:induction false} LastLabelWins(frags: seq<Fragment>, labelOf: Fragment -> Label, isLine: Fragment -> bool, party: Label)
    requires party != NoLabel
    ensures var c := ScanBy(frags, labelOf, isLine);
            var at := if party == ContratanteLabel then c.contratante else c.contratada;
            (at.None? <==> forall i :: 0 <= i < |frags| ==> labelOf(frags[i]) != party)
            && (at.Some? ==> exists i :: 0 <= i < |frags| && labelOf(frags[i]) == party && at == Some(PointOf(frags[i]))
                                         && forall j :: i < j < |frags| ==> labelOf(frags[j]) != party)
    decreases |frags|
  {
    if frags != [] {
      var n := |frags| - 1;
      var init := frags[..n];
      LastLabelWins(init, labelOf, isLine, party);
      var c0 := ScanBy(init, labelOf, isLine);
      var at0 := if party == ContratanteLabel then c0.contratante else c0.contratada;
      assert ScanBy(frags, labelOf, isLine) == Step(c0, frags[n], labelOf(frags[n]), isLine(frags[n]));
      assert forall i :: 0 <= i < |init| ==> init[i] == frags[i];
      if labelOf(frags[n]) != party && at0.Some? {
        var i :| 0 <= i < |init| && labelOf(init[i]) == party && at0 == Some(PointOf(init[i]))
                 && forall j :: i < j < |init| ==> labelOf(init[j]) != party;
        assert forall j :: i < j < |frags| ==> labelOf(frags[j]) != party by {
          forall j | i < j < |frags| ensures labelOf(frags[j]) != party {
            if j < n { assert frags[j] == init[j]; }
          }
        }
      }
    }
  }

  /** The visitor's dictionary, updated in place as the extractor calls back. */
  class Visitor {
    var contratante: Option<Point>
    var contratada: Option<Point>
    var linhas: seq<Point>

    constructor()
      ensures Current() == NoCoords
    {
      contratante, contratada, linhas := None, None, [];
    }

    function Current(): Coords
      reads this
    {
      Coords(contratante, contratada, linhas)
    }

    method Visit(f: Fragment)
      modifies this
      ensures Current() == Step(old(Current()), f, LabelOf(f), IsLine(f))
    {
      Record(PointOf(f), LabelOf(f), IsLine(f));
    }

    /** Records a run at `p` classified as `l` and, when `line` holds, as a
        signature line. */
    method Record(p: Point, l: Label, line: bool)
      modifies this
      ensures contratante == if l == ContratanteLabel then Some(p) else old(contratante)
      ensures contratada == if l == ContratadaLabel then Some(p) else old(contratada)
      ensures linhas == if line then old(linhas) + [p] else old(linhas)
    {
      if l == ContratanteLabel {
        contratante := Some(p);
      } else if l == ContratadaLabel {
        contratada := Some(p);
      }
      if line {
        linhas := linhas + [p];
      }
    }
  }

  /** Runs the visitor over a page's text. */
  method FindCoords(page: Page) returns (c: Coords)
    ensures c == Scan(page.fragments)
  {
    var v := new Visitor();
    var k := 0;
    while k < |page.fragments|
      invariant 0 <= k <= |page.fragments|
      invariant v.Current() == Scan(page.fragments[..k])
    {
      assert page.fragments[..k + 1][..k] == page.fragments[..k];
      v.Visit(page.fragments[k]);
      k := k + 1;
    }
    assert page.fragments[..k] == page.fragments;
    c := v.Current();
  }

  // ---------------------------------------------------------------------------
  // Searching the last pages
  // ---------------------------------------------------------------------------

  /** The first page the search visits and the number of pages it may visit: the
      last three, or all of a shorter document. */
  function SearchFloor(n: nat): (r: nat)
    ensures r <= n && n - r <= 3
    ensures n >= 3 ==> n - r == 3
  {
    if n >= 3 then n - 3 else 0
  }

  /** Page `i` is the one chosen: it is among the last three, has a detection, and
      no later page has one. */
  predicate ChosenPage(pages: seq<Page>, i: nat) {
    SearchFloor(|pages|) <= i < |pages| && Found(Scan(pages[i].fragments))
    && forall j :: i < j < |pages| ==> !Found(Scan(pages[j].fragments))
  }

  /** From the last page backwards over at most three pages, the first page with any
      detection, with what was detected there. */
  method SearchPages(pages: seq<Page>) returns (index: int, coords: Coords)
    ensures index == -1 || (0 <= index < |pages| && ChosenPage(pages, index) && coords == Scan(pages[index].fragments))
    ensures index == -1 ==> forall j :: SearchFloor(|pages|) <= j < |pages| ==> !Found(Scan(pages[j].fragments))
  {
    coords := NoCoords;
    index := |pages| - 1;
    while index >= SearchFloor(|pages|)
      invariant SearchFloor(|pages|) - 1 <= index < |pages|
      invariant forall j :: index < j < |pages| ==> !Found(Scan(pages[j].fragments))
    {
      coords := FindCoords(pages[index]);
      if Found(coords) {
        return;
      }
      index := index - 1;
    }
    index := -1;
  }

  /** At most one page can be the chosen one. */
  lemma ChosenPageUnique(pages: seq<Page>, i: nat, j: nat)
    requires ChosenPage(pages, i) && ChosenPage(pages, j)
    ensures i == j
  {
  }

  // ---------------------------------------------------------------------------
  // Choosing positions
  // ---------------------------------------------------------------------------

  function Height(p: Point): real { p.y }

  /** A signature goes 50 points right of and 10 points above the start of its line. */
  function OnLine(p: Point): Point {
    Point(p.x + 50.0, p.y + 10.0)
  }

  /** Without a line it goes 40 points right of and 50 points below its label. */
  function BelowLabel(p: Point): Point {
    Point(p.x + 40.0, p.y - 50.0)
  }

  /** The positions taken from a detection: the top line for the contratante and the
      next one down for the contratada; a party left without a line falls back on
      its label. */
  function Chosen(c: Coords): (r: (Option<Point>, Option<Point>))
    ensures var lines := Sorting.SortDesc(c.linhas, Height);
            (r.0 == if |lines| >= 1 then Some(OnLine(lines[0]))
                    else if c.contratante.Some? then Some(BelowLabel(c.contratante.value)) else None)
            && (r.1 == if |lines| >= 2 then Some(OnLine(lines[1]))
                       else if c.contratada.Some? then Some(BelowLabel(c.contratada.value)) else None)
  {
    var lines := Sorting.SortDesc(c.linhas, Height);
    var ct := if |lines| >= 1 then Some(OnLine(lines[0])) else None;
    var cd := if |lines| >= 2 then Some(OnLine(lines[1])) else None;
    (if ct.None? && c.contratante.Some? then Some(BelowLabel(c.contratante.value)) else ct,
     if cd.None? && c.contratada.Some? then Some(BelowLabel(c.contratada.value)) else cd)
  }

  /** A page with signature lines puts the contratante on the highest of them, and
      the contratada on one no higher, whatever the labels say. */
  lemma LinesBeatLabels(c: Coords)
    requires c.linhas != []
    ensures Chosen(c).0.Some? && exists l :: l in c.linhas && Chosen(c).0.value == OnLine(l)
                                             && forall m :: m in c.linhas ==> m.y <= l.y
    ensures |c.linhas| >= 2 ==> Chosen(c).1.Some? && exists l :: l in c.linhas && Chosen(c).1.value == OnLine(l)
                                                                 && l.y <= Sorting.SortDesc(c.linhas, Height)[0].y
  {
    var lines := Sorting.SortDesc(c.linhas, Height);
    Sorting.SortDescSorted(c.linhas, Height);
    Sorting.SortDescPermutation(c.linhas, Height);
    assert lines[0] in multiset(c.linhas);
    forall m | m in c.linhas ensures m.y <= lines[0].y {
      assert m in multiset(lines);
      var k :| 0 <= k < |lines| && lines[k] == m;
      assert Height(lines[0]) >= Height(lines[k]);
    }
    if |c.linhas| >= 2 {
      assert lines[1] in multiset(c.linhas);
      assert Height(lines[0]) >= Height(lines[1]);
    }
  }

  /** With no lines a party's position is below its label, if it has one. */
  lemma LabelsBeatDefaults(c: Coords)
    requires c.linhas == []
    ensures Chosen(c).0 == if c.contratante.Some? then Some(BelowLabel(c.contratante.value)) else None
    ensures Chosen(c).1 == if c.contratada.Some? then Some(BelowLabel(c.contratada.value)) else None
  {
  }

  /** The default height: mid-page less 50 on a new signature page, else 85 from the bottom. */
  function DefaultY(height: real, newPage: bool): real {
    if newPage then height / 2.0 - 50.0 else 85.0
  }

  /** The final positions on a page of the given size: a chosen position when there
      is one, else a quarter (contratante) or three quarters (contratada) of the
      width across, at the default height. */
  function Final(chosen: (Option<Point>, Option<Point>), width: real, height: real, newPage: bool): (r: (Point, Point))
    ensures chosen.0.Some? ==> r.0 == chosen.0.value
    ensures chosen.0.None? ==> r.0 == Point(width * 0.25, DefaultY(height, newPage))
    ensures chosen.1.Some? ==> r.1 == chosen.1.value
    ensures chosen.1.None? ==> r.1 == Point(width * 0.75, DefaultY(height, newPage))
  {
    (if chosen.0.Some? then chosen.0.value else Point(width * 0.25, DefaultY(height, newPage)),
     if chosen.1.Some? then chosen.1.value else Point(width * 0.75, DefaultY(height, newPage)))
  }

  /** On a page of positive width the default places put the contratante left of
      the contratada, at the same height. */
  lemma DefaultsSideBySide(width: real, height: real, newPage: bool)
    requires width > 0.0
    ensures var r := Final((None, None), width, height, newPage);
            r.0.x < r.1.x && r.0.y == r.1.y
  {
  }

  /** Where the signatures of a request go: nowhere when there is no name and no
      image; on the chosen page when the search found something; otherwise on an
      added page the size of the last one. */
  datatype Placement = Unsigned | Overlay(page: nat, contratante: Point, contratada: Point)
                     | NewPage(width: real, height: real, contratante: Point, contratada: Point)

  function LastSize(pages: seq<Page>): (real, real) {
    if pages == [] then (0.0, 0.0) else (pages[|pages| - 1].width, pages[|pages| - 1].height)
  }

  /** Python truthiness of an uploaded image: present and not empty. */
  predicate Truthy(img: Option<seq<bv8>>) {
    img.Some? && img.value != []
  }

  /** `any([...])` over the two names and the two images of a request. */
  predicate AnySignature(nomeContratante: string, nomeContratada: string,
                         imgContratante: Option<seq<bv8>>, imgContratada: Option<seq<bv8>>) {
    nomeContratante != [] || nomeContratada != [] || Truthy(imgContratante) || Truthy(imgContratada)
  }

  method Place(pages: seq<Page>, nomeContratante: string, nomeContratada: string,
               imgContratante: Option<seq<bv8>>, imgContratada: Option<seq<bv8>>) returns (p: Placement)
    ensures !AnySignature(nomeContratante, nomeContratada, imgContratante, imgContratada) <==> p == Unsigned
    ensures p.Overlay? ==> ChosenPage(pages, p.page)
                           && (p.contratante, p.contratada)
                              == Final(Chosen(Scan(pages[p.page].fragments)), pages[p.page].width, pages[p.page].height, false)
    ensures p.NewPage? ==> (forall j :: SearchFloor(|pages|) <= j < |pages| ==> !Found(Scan(pages[j].fragments)))
                           && (p.width, p.height) == LastSize(pages)
                           && (p.contratante, p.contratada) == Final((None, None), p.width, p.height, true)
  {
    if !AnySignature(nomeContratante, nomeContratada, imgContratante, imgContratada) {
      return Unsigned;
    }
    var i, coords := SearchPages(pages);
    if i != -1 {
      var pos := Final(Chosen(coords), pages[i].width, pages[i].height, false);
      return Overlay(i, pos.0, pos.1);
    }
    var size := LastSize(pages);
    var pos := Final((None, None), size.0, size.1, true);
    return NewPage(size.0, size.1, pos.0, pos.1);
  }

  // ---------------------------------------------------------------------------
  // Signatories
  // ---------------------------------------------------------------------------

  datatype Signatory = Signatory(nome: string, email: string, tipo: string)

  /** The signatories stored with a signed document: the contratante if named, then
      the contratada if named. */
  function Signatarios(contratante: string, contratada: string): (r: seq<Signatory>)
    ensures |r| == (if contratante != [] then 1 else 0) + (if contratada != [] then 1 else 0)
    ensures contratante != [] ==> r[0] == Signatory(contratante, "contratante@email.com", "Parte Contratante")
    ensures contratada != [] ==> r[|r| - 1] == Signatory(contratada, "contratada@email.com", "Parte Contratada")
    ensures forall i :: 0 <= i < |r| ==> r[i].nome != []
  {
    (if contratante != [] then [Signatory(contratante, "contratante@email.com", "Parte Contratante")] else [])
    + (if contratada != [] then [Signatory(contratada, "contratada@email.com", "Parte Contratada")] else [])
  }

  // ---------------------------------------------------------------------------
  // Finding a document by a mangled code
  // ---------------------------------------------------------------------------

  /** `s.rstrip('=')`. */
  function StripPadding(s: string): (r: string)
    ensures r <= s
    ensures r != [] ==> r[|r| - 1] != '='
    ensures forall i :: |r| <= i < |s| ==> s[i] == '='
  {
    DropTrailing(s, (c: char) => c == '=')
  }

  /** The URL-safe spelling of a base64 code: '+' to '-', '/' to '_', no padding.
      Each kept character is the code's, translated; only '=' is dropped, from the
      end; and no '+', '/' or trailing '=' is left. */
  function UrlSafe(h: string): (r: string)
    ensures |r| <= |h|
    ensures forall i :: 0 <= i < |r| ==> r[i] == (if h[i] == '+' then '-' else if h[i] == '/' then '_' else h[i])
    ensures forall i :: |r| <= i < |h| ==> h[i] == '='
    ensures forall i :: 0 <= i < |r| ==> r[i] != '+' && r[i] != '/'
    ensures r != [] ==> r[|r| - 1] != '='
  {
    var t := ReplaceChar(ReplaceChar(h, '+', '-'), '/', '_');
    var r := StripPadding(t);
    assert forall i :: 0 <= i < |r| ==> r[i] == t[i];
    r
  }

  /** The names tried, in order: as given, with spaces turned back into '+', the
      URL-safe spelling, and the percent-decoded code (`unquote` is the library's). */
  function Candidates(h: string, unquote: string -> string): (r: seq<string>)
    ensures |r| == 4 && r[0] == h
  {
    [h, ReplaceChar(h, ' ', '+'), UrlSafe(h), unquote(h)]
  }

  /** Tries the candidate names in order and returns the first whose metadata file
      exists (`exists` is the file system test). */
  method TentarEncontrar(h: string, exists_: string -> bool, unquote: string -> string) returns (r: Option<string>)
    ensures r.Some? ==> exists k :: 0 <= k < 4 && Candidates(h, unquote)[k] == r.value && exists_(r.value)
                                    && forall j :: 0 <= j < k ==> !exists_(Candidates(h, unquote)[j])
    ensures r.None? <==> forall k :: 0 <= k < 4 ==> !exists_(Candidates(h, unquote)[k])
  {
    var names := Candidates(h, unquote);
    var k := 0;
    while k < |names|
      invariant 0 <= k <= |names|
      invariant forall j :: 0 <= j < k ==> !exists_(names[j])
    {
      if exists_(names[k]) {
        return Some(names[k]);
      }
      k := k + 1;
    }
    return None;
  }
}
