// The send page: the list of parties who will sign, and the submission that files
// the sent document in the document library as an unfiled "Enviado" record.
module EnviarDocumento {
  import opened Wrappers
  import opened Lists
  import MeusDocumentos

  type Document = MeusDocumentos.Document

  /** One recipient row; `id` is 1 for the first row and a clock reading for the others. */
  datatype Recipient = Recipient(id: int, name: string, email: string, role: string)

  /** The editable fields of a recipient row. */
  datatype Field = Name | Email | Role

  /** The file chosen for sending; its formatted size in megabytes is computed from
      the browser's byte count, which is not modelled. */
  datatype Upload = Upload(name: string, size: string)

  const SelectDocument := "Selecione um documento para enviar."
  const EmailSent := "E-mail foi enviado com sucesso!"

  predicate DistinctIds(rs: seq<Recipient>) {
    forall i, j :: 0 <= i < j < |rs| ==> rs[i].id != rs[j].id
  }

  // ---------------------------------------------------------------------------
  // Recipient list
  // ---------------------------------------------------------------------------

  /** The blank row added by "add recipient": a witness. */
  function Witness(id: int): (r: Recipient)
    ensures r.id == id && r.name == [] && r.email == [] && r.role == "TESTEMUNHA"
  {
    Recipient(id, [], [], "TESTEMUNHA")
  }

  /** `{ ...r, [field]: value }`. */
  function WithField(r: Recipient, field: Field, value: string): Recipient {
    match field
    case Name => r.(name := value)
    case Email => r.(email := value)
    case Role => r.(role := value)
  }

  /** Editing a field of the row with id `id`; every other row, and every other field
      of that row, is kept. */
  function Updated(rs: seq<Recipient>, id: int, field: Field, value: string): (r: seq<Recipient>)
    ensures |r| == |rs|
    ensures forall i :: 0 <= i < |rs| && rs[i].id != id ==> r[i] == rs[i]
    ensures forall i :: 0 <= i < |rs| && rs[i].id == id ==>
              r[i].id == id
              && r[i].name == (if field == Name then value else rs[i].name)
              && r[i].email == (if field == Email then value else rs[i].email)
              && r[i].role == (if field == Role then value else rs[i].role)
  {
    Map(rs, (x: Recipient) => if x.id == id then WithField(x, field, value) else x)
  }

  /** Removing the rows with id `id`, which the page refuses when only one row is
      left. Rows keep their order; with distinct ids the list never becomes empty. */
  function Removed(rs: seq<Recipient>, id: int): (r: seq<Recipient>)
    ensures |rs| <= 1 ==> r == rs
    ensures |rs| > 1 ==> forall i :: 0 <= i < |r| ==> r[i] in rs && r[i].id != id
    ensures |rs| > 1 ==> forall i :: 0 <= i < |rs| && rs[i].id != id ==> rs[i] in r
    ensures DistinctIds(rs) && |rs| >= 1 ==> |r| >= 1
  {
    if |rs| > 1 then
      DropsAtMostOne(rs, id);
      Filter(rs, (x: Recipient) => x.id != id)
    else rs
  }

  /** With distinct ids, filtering by one id drops at most one row. */
  lemma {:induction false} DropsAtMostOne(rs: seq<Recipient>, id: int)
    ensures DistinctIds(rs) ==> |Filter(rs, (x: Recipient) => x.id != id)| >= |rs| - 1
    decreases |rs|
  {
    if rs != [] && DistinctIds(rs) {
      var rest := rs[1..];
      TailDistinct(rs);
      if rs[0].id == id {
        AllOthers(rs);
        assert Filter(rest, (x: Recipient) => x.id != id) == rest;
      } else {
        DropsAtMostOne(rest, id);
      }
    }
  }

  lemma TailDistinct(rs: seq<Recipient>)
    requires rs != [] && DistinctIds(rs)
    ensures DistinctIds(rs[1..])
  {
    var rest := rs[1..];
    forall i, j | 0 <= i < j < |rest| ensures rest[i].id != rest[j].id {
      assert rest[i] == rs[i + 1] && rest[j] == rs[j + 1];
    }
  }

  lemma AllOthers(rs: seq<Recipient>)
    requires rs != [] && DistinctIds(rs)
    ensures forall i :: 0 <= i < |rs[1..]| ==> rs[1..][i].id != rs[0].id
  {
    forall i | 0 <= i < |rs[1..]| ensures rs[1..][i].id != rs[0].id {
      assert rs[1..][i] == rs[i + 1];
    }
  }

  /** With distinct ids, removing the id of a row of a longer list removes exactly
      that row. */
  lemma {:induction false} RemovedExactlyOne(rs: seq<Recipient>, k: nat)
    requires DistinctIds(rs) && k < |rs|
    ensures |Filter(rs, (x: Recipient) => x.id != rs[k].id)| == |rs| - 1
    decreases |rs|
  {
    var id := rs[k].id;
    var rest := rs[1..];
    TailDistinct(rs);
    if k == 0 {
      AllOthers(rs);
      assert Filter(rest, (x: Recipient) => x.id != id) == rest;
    } else {
      assert rest[k - 1] == rs[k];
      assert rs[0].id != id;
      RemovedExactlyOne(rest, k - 1);
    }
  }

  /** The guard alone does not keep a row: two rows with the same id both go. */
  lemma SharedIdEmptiesList()
    ensures Removed([Recipient(7, [], [], "CONTRATADA"), Recipient(7, [], [], "TESTEMUNHA")], 7) == []
  {
    var rs := [Recipient(7, [], [], "CONTRATADA"), Recipient(7, [], [], "TESTEMUNHA")];
    assert rs[1..][1..] == [];
  }

  // ---------------------------------------------------------------------------
  // The sent document
  // ---------------------------------------------------------------------------

  /** The library record of a sent file: a PDF when the last extension is "pdf" in
      any case, otherwise a generic document; outside every folder, marked sent. */
  function SentRecord(id: string, upload: Upload, date: string): (d: Document)
    ensures d.kind == MeusDocumentos.Pdf <==> MeusDocumentos.Extension(upload.name) == "pdf"
    ensures d.kind != MeusDocumentos.Image
    ensures d.folderId == None && d.category == "Enviado"
    ensures d.id == id && d.name == upload.name && d.size == upload.size && d.date == date
  {
    MeusDocumentos.Document(id, upload.name, date, upload.size,
      if MeusDocumentos.Extension(upload.name) == "pdf" then MeusDocumentos.Pdf else MeusDocumentos.Doc,
      None, "Enviado")
  }

  /** Sending and uploading agree on what a PDF is. */
  lemma SentPdfIffLibraryPdf(id: string, upload: Upload, date: string)
    ensures SentRecord(id, upload, date).kind == MeusDocumentos.Pdf <==> MeusDocumentos.FileTypeOf(upload.name) == MeusDocumentos.Pdf
  {
  }

  /** A sent document joins no folder: every folder holds the same documents after
      sending as before. */
  lemma SendingLeavesFolders(d: Document, docs: seq<Document>, folder: string)
    requires d.folderId == None
    ensures MeusDocumentos.InFolder([d] + docs, folder) == MeusDocumentos.InFolder(docs, folder)
  {
    assert ([d] + docs)[1..] == docs;
  }

  /** The send page. `documents` mirrors the library kept in browser storage. */
  class SendPage {
    var recipients: seq<Recipient>
    var file: Option<Upload>
    var documents: seq<Document>
    var alert: Option<string>
    var route: Option<string>

    /** The page opens with one contracted party, and with the file handed over by
        the previous page, if any. */
    constructor(handed: Option<Upload>, stored: seq<Document>)
      ensures recipients == [Recipient(1, [], [], "CONTRATADA")]
      ensures file == handed && documents == stored && alert == None && route == None
    {
      recipients := [Recipient(1, [], [], "CONTRATADA")];
      file, documents, alert, route := handed, stored, None, None;
    }

    /** Choosing a file replaces the current one; an empty choice keeps it. */
    method ChooseFile(chosen: Option<Upload>)
      modifies this`file
      ensures file == if chosen.Some? then chosen else old(file)
    {
      if chosen.Some? {
        file := chosen;
      }
    }

    /** Adds a blank witness row; `id` is the clock reading. */
    method AddRecipient(id: int)
      modifies this`recipients
      ensures recipients == old(recipients) + [Witness(id)]
      ensures |recipients| == |old(recipients)| + 1
    {
      recipients := recipients + [Witness(id)];
    }

    method RemoveRecipient(id: int)
      modifies this`recipients
      ensures recipients == Removed(old(recipients), id)
      ensures DistinctIds(old(recipients)) && |old(recipients)| >= 1 ==> |recipients| >= 1
    {
      recipients := Removed(recipients, id);
    }

    method UpdateRecipient(id: int, field: Field, value: string)
      modifies this`recipients
      ensures recipients == Updated(old(recipients), id, field, value)
    {
      recipients := Updated(recipients, id, field, value);
    }

    /** Submission without a file only shows a message (the translated one, or the
        Portuguese text when the translation is empty). With a file it puts the sent
        record in front of the stored documents and goes to the library. */
    method Submit(id: string, date: string, translated: string)
      modifies this`documents, this`alert, this`route
      ensures old(file).None? ==> documents == old(documents) && route == old(route)
                                  && alert == Some(if translated != [] then translated else SelectDocument)
      ensures old(file).Some? ==> documents == [SentRecord(id, old(file).value, date)] + old(documents)
                                  && alert == Some(EmailSent) && route == Some("/documentos")
    {
      if file.None? {
        alert := Some(if translated != [] then translated else SelectDocument);
      } else {
        documents := [SentRecord(id, file.value, date)] + documents;
        alert := Some(EmailSent);
        route := Some("/documentos");
      }
    }
  }
}
