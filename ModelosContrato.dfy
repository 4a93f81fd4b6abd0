// The contract templates page: ten fill-in contracts, each a list of form fields,
// text slots that fall back to a placeholder while their field is empty, and
// signature blocks carrying the hidden anchors the signing server later looks for.
// The page shows nine templates per page, exports the filled contract under a
// file name built from its title, and hands it to the send page.
module ModelosContrato {
  import opened Wrappers
  import opened Lists
  import Text

  /** A place in the contract text filled from form field `key`; a date field is shown
      in the browser's date format. */
  datatype Slot = Slot(key: string, placeholder: string, isDate: bool)

  /** A signature block: the party named by field `key` (`None` for a witness line,
      which always shows its role), the role shown while the name is empty, the
      caption, the hidden anchor and the block width. */
  datatype Signature = Signature(key: Option<string>, role: string, caption: string, anchor: string, width: string)

  datatype Template = Template(id: string, title: string, keys: seq<string>, slots: seq<Slot>, signatures: seq<Signature>)

  /** A rendered signature block. */
  datatype Block = Block(anchor: string, shown: string, caption: string, width: string)

  /** A rendered contract: the header reference, the hash in the footer, the slot
      texts and the signature blocks in document order. */
  datatype Contract = Contract(reference: string, hash: string, values: seq<string>, blocks: seq<Block>)

  const ItemsPerPage: nat := 9

  // The ten templates, in page order.

  const Servicos := Template("servicos", "Prestação de Serviços",
    ["contratante", "doc_contratante", "contratada", "doc_contratada", "servico", "valor", "forma_pagamento", "prazo", "cidade", "data"],
    [Slot("contratante", "____________________", false),
     Slot("doc_contratante", "____________________", false),
     Slot("contratada", "____________________", false),
     Slot("doc_contratada", "____________________", false),
     Slot("servico", "Descrever detalhadamente os serviços...", false),
     Slot("valor", "___,00", false),
     Slot("forma_pagamento", "Conforme combinado", false),
     Slot("prazo", "___ dias/meses", false),
     Slot("cidade", "____________________", false),
     Slot("cidade", "___________", false),
     Slot("data", "___ de ____________ de ______", true)],
    [Signature(Some("contratante"), "CONTRATANTE", "Assinatura do Contratante", "{{SIGNATURE_CONTRATANTE}}", "48%"),
     Signature(Some("contratada"), "CONTRATADA", "Assinatura da Contratada", "{{SIGNATURE_CONTRATADA}}", "48%"),
     Signature(None, "Testemunha 1", "CPF: __________________", "{{SIGNATURE_TESTEMUNHA_1}}", "48%"),
     Signature(None, "Testemunha 2", "CPF: __________________", "{{SIGNATURE_TESTEMUNHA_2}}", "48%")])

  const LocacaoResidencial := Template("locacao_residencial", "Locação Residencial",
    ["locador", "doc_locador", "locatario", "doc_locatario", "endereco", "valor", "dia_pagamento", "prazo_meses", "cidade"],
    [Slot("locador", "____________________", false),
     Slot("doc_locador", "____________________", false),
     Slot("locatario", "____________________", false),
     Slot("doc_locatario", "____________________", false),
     Slot("endereco", "________________________________________", false),
     Slot("prazo_meses", "___", false),
     Slot("valor", "___,00", false),
     Slot("dia_pagamento", "__", false),
     Slot("cidade", "___________", false)],
    [Signature(Some("locador"), "LOCADOR", "Assinatura do Locador", "{{SIGNATURE_LOCADOR}}", "48%"),
     Signature(Some("locatario"), "LOCATÁRIO", "Assinatura do Locatário", "{{SIGNATURE_LOCATARIO}}", "48%")])

  const Nda := Template("nda", "Acordo de Confidencialidade",
    ["parte_reveladora", "parte_recebedora", "objetivo", "tempo_sigilo", "cidade"],
    [Slot("parte_reveladora", "____________________", false),
     Slot("parte_recebedora", "____________________", false),
     Slot("objetivo", "____________________", false),
     Slot("tempo_sigilo", "5", false),
     Slot("cidade", "___________", false)],
    [Signature(Some("parte_reveladora"), "REVELADORA", "Assinatura", "{{SIGNATURE_REVELADORA}}", "48%"),
     Signature(Some("parte_recebedora"), "RECEBEDORA", "Assinatura", "{{SIGNATURE_RECEBEDORA}}", "48%")])

  const CompraVendaVeiculo := Template("compra_venda_veiculo", "Compra e Venda de Veículo",
    ["vendedor", "doc_vendedor", "comprador", "doc_comprador", "modelo", "placa", "chassi", "ano", "valor", "cidade"],
    [Slot("vendedor", "____________________", false),
     Slot("doc_vendedor", "____________________", false),
     Slot("comprador", "____________________", false),
     Slot("doc_comprador", "____________________", false),
     Slot("modelo", "____________________", false),
     Slot("placa", "_______", false),
     Slot("chassi", "____________________", false),
     Slot("ano", "____/____", false),
     Slot("valor", "___,00", false),
     Slot("cidade", "___________", false)],
    [Signature(Some("vendedor"), "VENDEDOR", "Assinatura", "{{SIGNATURE_VENDEDOR}}", "48%"),
     Signature(Some("comprador"), "COMPRADOR", "Assinatura", "{{SIGNATURE_COMPRADOR}}", "48%")])

  const TermoAdesao := Template("termo_adesao", "Termo de Adesão",
    ["empresa", "usuario", "doc_usuario", "servico", "cidade"],
    [Slot("empresa", "EMPRESA", false),
     Slot("usuario", "____________________", false),
     Slot("doc_usuario", "____________________", false),
     Slot("servico", "____________________", false),
     Slot("cidade", "___________", false)],
    [Signature(Some("usuario"), "ADERENTE", "Assinatura do Usuário", "{{SIGNATURE_USUARIO}}", "60%")])

  const Trabalho := Template("trabalho", "Contrato de Trabalho",
    ["empregador", "cnpj", "empregado", "cpf", "cargo", "salario", "horario", "cidade"],
    [Slot("empregador", "____________________", false),
     Slot("cnpj", "____________________", false),
     Slot("empregado", "____________________", false),
     Slot("cpf", "____________________", false),
     Slot("cargo", "____________________", false),
     Slot("salario", "___,00", false),
     Slot("horario", "44 horas semanais", false),
     Slot("cidade", "___________", false)],
    [Signature(Some("empregador"), "EMPREGADOR", "Assinatura", "{{SIGNATURE_EMPREGADOR}}", "48%"),
     Signature(Some("empregado"), "EMPREGADO", "Assinatura", "{{SIGNATURE_EMPREGADO}}", "48%")])

  const Mei := Template("mei", "Prestação de Serviços MEI",
    ["mei", "cnpj_mei", "cliente", "doc_cliente", "servico", "valor", "cidade"],
    [Slot("mei", "____________________", false),
     Slot("cnpj_mei", "____________________", false),
     Slot("cliente", "____________________", false),
     Slot("doc_cliente", "____________________", false),
     Slot("servico", "____________________", false),
     Slot("valor", "___,00", false),
     Slot("cidade", "___________", false)],
    [Signature(Some("mei"), "CONTRATADO (MEI)", "Assinatura", "{{SIGNATURE_MEI}}", "48%"),
     Signature(Some("cliente"), "CONTRATANTE", "Assinatura", "{{SIGNATURE_CLIENTE}}", "48%")])

  const LocacaoComercial := Template("locacao_comercial", "Locação Comercial",
    ["locador", "doc_locador", "locatario", "doc_locatario", "imovel", "atividade", "valor", "prazo", "cidade"],
    [Slot("locador", "____________________", false),
     Slot("doc_locador", "____________________", false),
     Slot("locatario", "____________________", false),
     Slot("doc_locatario", "____________________", false),
     Slot("imovel", "____________________", false),
     Slot("atividade", "Comércio em Geral", false),
     Slot("prazo", "___", false),
     Slot("valor", "___,00", false),
     Slot("cidade", "___________", false)],
    [Signature(Some("locador"), "LOCADOR", "Assinatura", "{{SIGNATURE_LOCADOR}}", "48%"),
     Signature(Some("locatario"), "LOCATÁRIO", "Assinatura", "{{SIGNATURE_LOCATARIO}}", "48%")])

  const Distrato := Template("distrato", "Distrato Contratual",
    ["parte_a", "doc_a", "parte_b", "doc_b", "contrato_origem", "data_contrato", "cidade"],
    [Slot("parte_a", "____________________", false),
     Slot("doc_a", "____________________", false),
     Slot("parte_b", "____________________", false),
     Slot("doc_b", "____________________", false),
     Slot("contrato_origem", "Prestação de Serviços/Locação", false),
     Slot("data_contrato", "__/__/____", true),
     Slot("cidade", "___________", false)],
    [Signature(Some("parte_a"), "PRIMEIRA DISTRATANTE", "Assinatura", "{{SIGNATURE_DISTRATANTE_1}}", "48%"),
     Signature(Some("parte_b"), "SEGUNDA DISTRATANTE", "Assinatura", "{{SIGNATURE_DISTRATANTE_2}}", "48%")])

  const Imagem := Template("imagem", "Cessão de Direitos de Imagem",
    ["cedente", "doc_cedente", "cessionario", "finalidade", "midias", "prazo", "cidade"],
    [Slot("cedente", "____________________", false),
     Slot("doc_cedente", "____________________", false),
     Slot("cessionario", "____________________", false),
     Slot("finalidade", "Divulgação", false),
     Slot("midias", "Todas as mídias", false),
     Slot("prazo", "Indeterminado", false),
     Slot("cidade", "___________", false)],
    [Signature(Some("cedente"), "CEDENTE", "Assinatura", "{{SIGNATURE_CEDENTE}}", "60%")])

  const Templates := [Servicos, LocacaoResidencial, Nda, CompraVendaVeiculo, TermoAdesao, Trabalho, Mei, LocacaoComercial, Distrato, Imagem]

  // ---------------------------------------------------------------------------
  // Filling a template
  // ---------------------------------------------------------------------------

  /** `data[key]`, with a missing key read as the empty string. */
  function Value(data: map<string, string>, key: string): string {
    if key in data then data[key] else []
  }

  /** `data.key || placeholder`: an empty or missing value shows the placeholder. */
  function Filled(data: map<string, string>, s: Slot, formatDate: string -> string): (r: string)
    ensures Value(data, s.key) == [] ==> r == s.placeholder
    ensures Value(data, s.key) != [] ==> r == if s.isDate then formatDate(Value(data, s.key)) else Value(data, s.key)
  {
    var v := Value(data, s.key);
    if v == [] then s.placeholder else if s.isDate then formatDate(v) else v
  }

  /** `renderSignature(name, role, ...)`: the name, or the role while it is empty. */
  function RenderSignature(name: string, role: string, caption: string, anchor: string, width: string): (b: Block)
    ensures b.anchor == anchor && b.caption == caption && b.width == width
    ensures name != [] ==> b.shown == name
    ensures name == [] ==> b.shown == role
  {
    Block(anchor, if name != [] then name else role, caption, width)
  }

  function SignatureBlock(data: map<string, string>, s: Signature): Block {
    RenderSignature(if s.key.Some? then Value(data, s.key.value) else [], s.role, s.caption, s.anchor, s.width)
  }

  /** The `Ref` shown in the header: the first nine characters of the document hash. */
  function Reference(docHash: string): (r: string)
    ensures r <= docHash && |r| <= 9
    ensures |docHash| >= 9 ==> |r| == 9
    ensures |docHash| < 9 ==> r == docHash
  {
    if |docHash| <= 9 then docHash else docHash[..9]
  }

  /** A template filled with the form data. */
  function Content(t: Template, data: map<string, string>, docHash: string, formatDate: string -> string): (c: Contract)
    ensures c.reference == Reference(docHash) && c.hash == docHash
    ensures |c.values| == |t.slots| && |c.blocks| == |t.signatures|
    ensures forall i :: 0 <= i < |t.slots| ==> c.values[i] == Filled(data, t.slots[i], formatDate)
    ensures forall i :: 0 <= i < |t.signatures| ==> c.blocks[i] == SignatureBlock(data, t.signatures[i])
  {
    Contract(Reference(docHash), docHash,
             Map(t.slots, (s: Slot) => Filled(data, s, formatDate)),
             Map(t.signatures, (s: Signature) => SignatureBlock(data, s)))
  }

  function Anchors(c: Contract): (r: seq<string>)
    ensures |r| == |c.blocks|
  {
    Map(c.blocks, (b: Block) => b.anchor)
  }

  /** The anchors each template embeds: four in the service contract (both parties
      and two witnesses), one in the single-party terms and image release, two in
      the others. */
  function ExpectedAnchors(id: string): nat {
    if id == "servicos" then 4
    else if id == "termo_adesao" || id == "imagem" then 1
    else 2
  }

  predicate Blank(s: string) { |s| == 0 }

  /** Every placeholder and every role of every template is non-empty. */
  predicate WellFormed(t: Template) {
    (forall i :: 0 <= i < |t.slots| ==> !Blank(t.slots[i].placeholder))
    && (forall i :: 0 <= i < |t.signatures| ==> !Blank(t.signatures[i].role))
  }

  predicate DistinctAnchors(t: Template) {
    forall i, j :: 0 <= i < j < |t.signatures| ==> t.signatures[i].anchor != t.signatures[j].anchor
  }

  /** The static facts about a template the page relies on. */
  predicate Checked(t: Template) {
    WellFormed(t) && DistinctAnchors(t) && |t.signatures| == ExpectedAnchors(t.id)
  }

  lemma ServicosChecked()
    ensures Checked(Servicos)
  {
  }

  lemma LocacaoResidencialChecked()
    ensures Checked(LocacaoResidencial)
  {
  }

  lemma NdaChecked()
    ensures Checked(Nda)
  {
  }

  lemma CompraVendaVeiculoChecked()
    ensures Checked(CompraVendaVeiculo)
  {
  }

  lemma TermoAdesaoChecked()
    ensures Checked(TermoAdesao)
  {
  }

  lemma TrabalhoChecked()
    ensures Checked(Trabalho)
  {
  }

  lemma MeiChecked()
    ensures Checked(Mei)
  {
  }

  lemma LocacaoComercialChecked()
    ensures Checked(LocacaoComercial)
  {
  }

  lemma DistratoChecked()
    ensures Checked(Distrato)
  {
  }

  lemma ImagemChecked()
    ensures Checked(Imagem)
  {
  }

  lemma TemplateChecked(k: nat)
    requires k < |Templates|
    ensures Checked(Templates[k])
  {
    var t := Templates[k];
    if k < 5 {
      FirstTemplatesChecked(k, t);
    } else {
      LastTemplatesChecked(k, t);
    }
  }

  lemma FirstTemplatesChecked(k: nat, t: Template)
    requires k < 5 && t == Templates[k]
    ensures Checked(t)
  {
    if k == 0 { ServicosChecked(); }
    else if k == 1 { LocacaoResidencialChecked(); }
    else if k == 2 { NdaChecked(); }
    else if k == 3 { CompraVendaVeiculoChecked(); }
    else { TermoAdesaoChecked(); }
  }

  lemma LastTemplatesChecked(k: nat, t: Template)
    requires 5 <= k < |Templates| && t == Templates[k]
    ensures Checked(t)
  {
    if k == 5 { TrabalhoChecked(); }
    else if k == 6 { MeiChecked(); }
    else if k == 7 { LocacaoComercialChecked(); }
    else if k == 8 { DistratoChecked(); }
    else { ImagemChecked(); }
  }


  /** The rendered contract carries the template's anchors, the same ones whatever
      the form data, and no two alike; their number is the template's expected
      count. */
  lemma AnchorsFixed(k: nat, data: map<string, string>, docHash: string, formatDate: string -> string)
    requires k < |Templates|
    ensures var c := Content(Templates[k], data, docHash, formatDate);
            |Anchors(c)| == ExpectedAnchors(Templates[k].id)
            && Anchors(c) == Anchors(Content(Templates[k], map[], [], formatDate))
            && forall i, j :: 0 <= i < j < |Anchors(c)| ==> Anchors(c)[i] != Anchors(c)[j]
  {
    TemplateChecked(k);
    var t := Templates[k];
    var c := Content(t, data, docHash, formatDate);
    var e := Content(t, map[], [], formatDate);
    assert forall i :: 0 <= i < |t.signatures| ==> Anchors(c)[i] == t.signatures[i].anchor == Anchors(e)[i];
  }

  /** A filled template never leaves a slot or a signature line blank, provided the
      date format never gives an empty text. */
  lemma NothingBlank(k: nat, data: map<string, string>, docHash: string, formatDate: string -> string)
    requires k < |Templates|
    requires forall v :: !Blank(formatDate(v))
    ensures var c := Content(Templates[k], data, docHash, formatDate);
            (forall i :: 0 <= i < |c.values| ==> !Blank(c.values[i]))
            && (forall i :: 0 <= i < |c.blocks| ==> !Blank(c.blocks[i].shown))
  {
    TemplateChecked(k);
  }

  // ---------------------------------------------------------------------------
  // Export file names
  // ---------------------------------------------------------------------------

  /** `title.replace(/\s+/g, '_')`: every run of white space becomes one underscore. */
  function Underscored(s: string): (r: string)
    ensures forall i :: 0 <= i < |r| ==> !Text.JsSpace(r[i])
    ensures (forall i :: 0 <= i < |s| ==> !Text.JsSpace(s[i])) ==> r == s
    ensures |r| <= |s|
    decreases |s|
  {
    if s == [] then []
    else if Text.JsSpace(s[0]) then "_" + Underscored(Text.DropLeading(s, Text.JsSpace))
    else [s[0]] + Underscored(s[1..])
  }

  /** Underscoring once is enough. */
  lemma UnderscoredIdempotent(s: string)
    ensures Underscored(Underscored(s)) == Underscored(s)
  {
  }

  /** A character other than white space is kept. */
  lemma UnderscoredCons(c: char, t: string)
    requires !Text.JsSpace(c)
    ensures Underscored([c] + t) == [c] + Underscored(t)
  {
    assert ([c] + t)[1..] == t;
  }

  /** A run of white space, however long, becomes a single underscore. */
  lemma UnderscoredRun(run: string, b: string)
    requires run != [] && forall i :: 0 <= i < |run| ==> Text.JsSpace(run[i])
    requires b != [] ==> !Text.JsSpace(b[0])
    ensures Underscored(run + b) == "_" + Underscored(b)
  {
    assert (run + b)[0] == run[0];
    DropRun(run, b);
  }

  lemma {:induction false} DropRun(run: string, b: string)
    requires forall i :: 0 <= i < |run| ==> Text.JsSpace(run[i])
    requires b != [] ==> !Text.JsSpace(b[0])
    ensures Text.DropLeading(run + b, Text.JsSpace) == b
    decreases |run|
  {
    if run != [] {
      assert (run + b)[1..] == run[1..] + b;
      DropRun(run[1..], b);
    } else {
      assert run + b == b;
    }
  }

  function WordFileName(t: Template): string {
    Underscored(t.title) + ".doc"
  }

  function HtmlFileName(t: Template): string {
    Underscored(t.title) + ".html"
  }

  // ---------------------------------------------------------------------------
  // Pagination
  // ---------------------------------------------------------------------------

  /** `Math.ceil(n / 9)`. */
  function TotalPages(n: nat): (r: nat)
    ensures n == 0 <==> r == 0
    ensures r > 0 ==> (r - 1) * ItemsPerPage < n <= r * ItemsPerPage
  {
    (n + ItemsPerPage - 1) / ItemsPerPage
  }

  /** `items.slice((page - 1) * 9, (page - 1) * 9 + 9)`. Page 0 asks for a slice
      ending at 0, which is empty. */
  function Page<T>(items: seq<T>, page: nat): (r: seq<T>)
    ensures |r| <= ItemsPerPage
    ensures page >= 1 && (page - 1) * ItemsPerPage < |items| ==> r != []
  {
    if page == 0 then []
    else
      var start := (page - 1) * ItemsPerPage;
      if start >= |items| then []
      else if start + ItemsPerPage <= |items| then items[start..start + ItemsPerPage]
      else items[start..]
  }

  /** The pages 1 to `TotalPages` are exactly the non-empty ones. */
  lemma PagesNonEmpty<T>(items: seq<T>, page: nat)
    ensures Page(items, page) != [] <==> 1 <= page <= TotalPages(|items|)
  {
  }

  /** Item `i` is shown on page `i / 9 + 1`, in position `i % 9`. */
  lemma ItemOnItsPage<T>(items: seq<T>, i: nat)
    requires i < |items|
    ensures 1 <= i / ItemsPerPage + 1 <= TotalPages(|items|)
    ensures |Page(items, i / ItemsPerPage + 1)| > i % ItemsPerPage
    ensures Page(items, i / ItemsPerPage + 1)[i % ItemsPerPage] == items[i]
  {
    var p := i / ItemsPerPage;
    assert p * ItemsPerPage <= i < p * ItemsPerPage + ItemsPerPage;
  }

  /** The ten templates take two pages, the second holding one template. */
  lemma TemplatePages()
    ensures TotalPages(|Templates|) == 2 && |Page(Templates, 2)| == 1
  {
  }

  /** What the send page receives: the exported file and the document hash. */
  datatype Handoff = Handoff(fileName: string, contract: Contract, docHash: string)

  /** A Word export: its file name and contents. */
  datatype Download = Download(fileName: string, contract: Contract)

  /** The templates page. */
  class TemplatesPage {
    var selected: Option<Template>
    var formData: map<string, string>
    var docHash: string
    var currentPage: nat
    var handoff: Option<Handoff>
    var route: Option<string>

    constructor()
      ensures selected == None && formData == map[] && docHash == [] && currentPage == 1
      ensures handoff == None && route == None
      ensures Valid()
    {
      selected, formData, docHash, currentPage := None, map[], [], 1;
      handoff, route := None, None;
    }

    /** The current page is always one of the pages that exist. */
    predicate Valid()
      reads this
    {
      1 <= currentPage <= TotalPages(|Templates|)
    }

    /** Opening a template clears the form and takes a new document hash. */
    method Choose(t: Template, hash: string)
      modifies this`selected, this`formData, this`docHash
      ensures selected == Some(t) && formData == map[] && docHash == hash
    {
      selected, formData, docHash := Some(t), map[], hash;
    }

    method Back()
      modifies this`selected
      ensures selected == None
    {
      selected := None;
    }

    /** Typing into a field changes that key of the form data and no other. */
    method InputChange(key: string, value: string)
      modifies this`formData
      ensures formData == old(formData)[key := value]
      ensures forall k :: k in old(formData) && k != key ==> k in formData && formData[k] == old(formData)[k]
    {
      formData := formData[key := value];
    }

    /** Only pages that exist can be selected; any other request is ignored. */
    method GoToPage(page: int)
      requires Valid()
      modifies this`currentPage
      ensures Valid()
      ensures currentPage == if 1 <= page <= TotalPages(|Templates|) then page else old(currentPage)
    {
      if 1 <= page <= TotalPages(|Templates|) {
        currentPage := page;
      }
    }

    /** The templates shown on the current page. */
    function Shown(): seq<Template>
      reads this
    {
      Page(Templates, currentPage)
    }

    /** The Word export of the open template, or nothing when none is open. */
    method DownloadWord(formatDate: string -> string) returns (r: Option<Download>)
      ensures r.None? <==> selected.None?
      ensures r.Some? ==> r.value == Download(WordFileName(selected.value), Content(selected.value, formData, docHash, formatDate))
    {
      if selected.None? {
        return None;
      }
      r := Some(Download(WordFileName(selected.value), Content(selected.value, formData, docHash, formatDate)));
    }

    /** Sending the open template hands its HTML export and hash to the send page. */
    method SendForSignature(formatDate: string -> string)
      modifies this`handoff, this`route
      ensures selected.None? ==> handoff == old(handoff) && route == old(route)
      ensures selected.Some? ==> route == Some("/enviar")
                                 && handoff == Some(Handoff(HtmlFileName(selected.value), Content(selected.value, formData, docHash, formatDate), docHash))
    {
      if selected.None? {
        return;
      }
      handoff := Some(Handoff(HtmlFileName(selected.value), Content(selected.value, formData, docHash, formatDate), docHash));
      route := Some("/enviar");
    }
  }
}
