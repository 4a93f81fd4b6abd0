// The document library: documents filed in folders, upload, search, folder
// creation, moving, deletion (a folder takes its documents with it) and the
// folder summary offered for download.
module MeusDocumentos {
  import opened Wrappers
  import opened Text
  import opened Lists

  datatype FileType = Pdf | Doc | Image

  /** A stored document; `folderId` is `None` for a document outside every folder. */
  datatype Document = Document(id: string, name: string, date: string, size: string, kind: FileType,
                               folderId: Option<string>, category: string)

  datatype Folder = Folder(id: string, name: string)

  // ---------------------------------------------------------------------------
  // File type
  // ---------------------------------------------------------------------------

  /** `name.split('.').pop().toLowerCase()`: the lower-cased text after the last dot,
      or the whole lower-cased name when it has no dot. */
  function Extension(name: string): string {
    Lower(AfterLast(name, '.'))
  }

  /** The extension is the lower-cased tail of the name that follows its last dot:
      the character before the tail, if any, is a dot. */
  lemma ExtensionLowersSuffix(name: string)
    ensures |Extension(name)| <= |name| && '.' !in Extension(name)
    ensures Extension(name) == Lower(name[|name| - |Extension(name)|..])
    ensures |Extension(name)| < |name| ==> name[|name| - |Extension(name)| - 1] == '.'
  {
  }

  predicate ImageExtension(ext: string) {
    ext == "jpg" || ext == "jpeg" || ext == "png" || ext == "gif"
  }

  /** The type shown for a file: PDF, image, or document for everything else. */
  function FileTypeOf(name: string): (r: FileType)
    ensures r == Pdf <==> Extension(name) == "pdf"
    ensures r == Image <==> ImageExtension(Extension(name))
  {
    TypeOfExtension(Extension(name))
  }

  function TypeOfExtension(ext: string): (r: FileType)
    ensures r == Pdf <==> ext == "pdf"
    ensures r == Image <==> ImageExtension(ext)
  {
    if ext == "pdf" then Pdf
    else if ext == "doc" || ext == "docx" then Doc
    else if ImageExtension(ext) then Image
    else Doc
  }

  /** The last dot is found in the same place whatever the case of the letters. */
  lemma AfterLastLower(s: string)
    ensures AfterLast(Lower(s), '.') == Lower(AfterLast(s, '.'))
  {
    var r := AfterLast(s, '.');
    var low := Lower(s);
    var lr := Lower(r);
    LowerSuffix(s, |s| - |r|);
    assert forall i :: 0 <= i < |lr| ==> lr[i] != '.';
    if |lr| < |low| {
      assert low[|low| - |lr| - 1] == LowerChar(s[|s| - |r| - 1]);
    }
    assert LastSegment(low, '.', lr);
    AfterLastUnique(low, '.', lr);
  }

  lemma LowerIdempotent(s: string)
    ensures Lower(Lower(s)) == Lower(s)
  {
    assert forall i :: 0 <= i < |s| ==> LowerChar(LowerChar(s[i])) == LowerChar(s[i]);
  }

  /** The type is decided without regard to case: names equal up to case have the
      same type. */
  lemma FileTypeIgnoresCase(a: string, b: string)
    requires Lower(a) == Lower(b)
    ensures FileTypeOf(a) == FileTypeOf(b)
  {
    ExtensionOfLower(a);
    ExtensionOfLower(b);
  }

  /** The extension can be read off the lower-cased name. */
  lemma ExtensionOfLower(a: string)
    ensures Extension(a) == AfterLast(Lower(a), '.')
  {
    AfterLastLower(a);
    LowerIdempotent(AfterLast(a, '.'));
  }

  // ---------------------------------------------------------------------------
  // Search and folder filter
  // ---------------------------------------------------------------------------

  /** A document is listed when its lower-cased name contains the lower-cased search
      term and either no folder is open or it lies in the open folder. */
  predicate Listed(d: Document, search: string, active: Option<string>) {
    Contains(Lower(d.name), Lower(search)) && (active.None? || d.folderId == active)
  }

  function FilteredDocs(docs: seq<Document>, search: string, active: Option<string>): (r: seq<Document>)
    ensures forall i :: 0 <= i < |r| ==> r[i] in docs && Listed(r[i], search, active)
    ensures forall i :: 0 <= i < |docs| && Listed(docs[i], search, active) ==> docs[i] in r
  {
    Filter(docs, (d: Document) => Listed(d, search, active))
  }

  /** With no folder open and an empty search every document is listed. */
  lemma AllListed(docs: seq<Document>)
    ensures FilteredDocs(docs, "", None) == docs
  {
    forall i | 0 <= i < |docs|
      ensures Listed(docs[i], "", None)
    {
      assert OccursAt(Lower(docs[i].name), [], 0);
    }
  }

  // ---------------------------------------------------------------------------
  // Folder contents and summary
  // ---------------------------------------------------------------------------

  /** The documents filed in folder `id`, in library order. */
  function InFolder(docs: seq<Document>, id: string): (r: seq<Document>)
    ensures forall i :: 0 <= i < |r| ==> r[i] in docs && r[i].folderId == Some(id)
    ensures forall i :: 0 <= i < |docs| && docs[i].folderId == Some(id) ==> docs[i] in r
  {
    Filter(docs, (d: Document) => d.folderId == Some(id))
  }

  /** The first folder with the given id, as `folders.find` returns it. */
  function FindFolder(folders: seq<Folder>, id: string): (r: Option<Folder>)
    ensures r.Some? ==> r.value in folders && r.value.id == id
    ensures r.None? ==> forall i :: 0 <= i < |folders| ==> folders[i].id != id
  {
    if folders == [] then None
    else if folders[0].id == id then Some(folders[0])
    else FindFolder(folders[1..], id)
  }

  function SummaryLine(d: Document): string {
    "- " + d.name + " (" + d.size + ")"
  }

  /** The downloaded folder summary: its file name and its text. */
  datatype Summary = Summary(fileName: string, content: string, lines: seq<string>)

  /** The summary of folder `id`, or none when no folder has that id. It lists one
      line per document of the folder, in library order. */
  function FolderSummary(folders: seq<Folder>, docs: seq<Document>, id: string): (r: Option<Summary>)
    ensures r.None? <==> forall i :: 0 <= i < |folders| ==> folders[i].id != id
    ensures r.Some? ==> |r.value.lines| == |InFolder(docs, id)|
    ensures r.Some? ==> forall i :: 0 <= i < |r.value.lines| ==> r.value.lines[i] == SummaryLine(InFolder(docs, id)[i])
    ensures r.Some? ==> r.value.content == "Resumo da Pasta: " + FindFolder(folders, id).value.name
                                           + "\n\nDocumentos:\n" + Join(r.value.lines, '\n')
    ensures r.Some? ==> r.value.fileName == FindFolder(folders, id).value.name + "_resumo.txt"
  {
    match FindFolder(folders, id)
    case None => None
    case Some(f) =>
      var lines := Map(InFolder(docs, id), SummaryLine);
      Some(Summary(f.name + "_resumo.txt", "Resumo da Pasta: " + f.name + "\n\nDocumentos:\n" + Join(lines, '\n'), lines))
  }

  // ---------------------------------------------------------------------------
  // List updates
  // ---------------------------------------------------------------------------

  /** The new document of an upload, filed in the open folder as a draft. */
  function Uploaded(id: string, name: string, date: string, size: string, active: Option<string>): (d: Document)
    ensures d.folderId == active && d.category == "Rascunho" && d.kind == FileTypeOf(name)
  {
    Document(id, name, date, size, FileTypeOf(name), active, "Rascunho")
  }

  /** Moving sets the folder of the documents with the moving document's id. */
  function Moved(docs: seq<Document>, id: string, folderId: Option<string>): (r: seq<Document>)
    ensures |r| == |docs|
    ensures forall i :: 0 <= i < |docs| ==>
              r[i] == if docs[i].id == id then docs[i].(folderId := folderId) else docs[i]
  {
    Map(docs, (d: Document) => if d.id == id then d.(folderId := folderId) else d)
  }

  function WithoutDocument(docs: seq<Document>, id: string): (r: seq<Document>)
    ensures forall i :: 0 <= i < |r| ==> r[i] in docs && r[i].id != id
    ensures forall i :: 0 <= i < |docs| && docs[i].id != id ==> docs[i] in r
  {
    Filter(docs, (d: Document) => d.id != id)
  }

  function WithoutFolder(folders: seq<Folder>, id: string): (r: seq<Folder>)
    ensures forall i :: 0 <= i < |r| ==> r[i] in folders && r[i].id != id
    ensures forall i :: 0 <= i < |folders| && folders[i].id != id ==> folders[i] in r
  {
    Filter(folders, (f: Folder) => f.id != id)
  }

  function OutsideFolder(docs: seq<Document>, id: string): (r: seq<Document>)
    ensures forall i :: 0 <= i < |r| ==> r[i] in docs && r[i].folderId != Some(id)
    ensures forall i :: 0 <= i < |docs| && docs[i].folderId != Some(id) ==> docs[i] in r
  {
    Filter(docs, (d: Document) => d.folderId != Some(id))
  }

  /** Deleting a folder splits the library: every document either stays or was filed
      in the deleted folder, and each of them is counted exactly once. */
  lemma DeleteFolderPartition(docs: seq<Document>, id: string)
    ensures |OutsideFolder(docs, id)| + |InFolder(docs, id)| == |docs|
  {
    PartitionCount(docs, id);
  }

  lemma {:induction false} PartitionCount(docs: seq<Document>, id: string)
    ensures |Filter(docs, (d: Document) => d.folderId != Some(id))| + |Filter(docs, (d: Document) => d.folderId == Some(id))| == |docs|
    decreases |docs|
  {
    if docs != [] {
      PartitionCount(docs[1..], id);
    }
  }

  /** The document library page. The browser storage the page persists to mirrors
      `documents` and `folders`, so it is not a separate field. */
  class Library {
    var documents: seq<Document>
    var folders: seq<Folder>
    var activeFolderId: Option<string>
    var searchTerm: string
    var newFolderName: string
    var movingDocument: Option<Document>

    constructor(docs: seq<Document>, fs: seq<Folder>)
      ensures documents == docs && folders == fs && activeFolderId == None
      ensures searchTerm == [] && newFolderName == [] && movingDocument == None
    {
      documents, folders, activeFolderId := docs, fs, None;
      searchTerm, newFolderName, movingDocument := [], [], None;
    }

    /** The documents the page lists. */
    function Listing(): seq<Document>
      reads this
    {
      FilteredDocs(documents, searchTerm, activeFolderId)
    }

    /** Uploading a file puts one new draft in front, in the open folder. The id, the
        date and the formatted size come from the clock and the file. */
    method Upload(id: string, name: string, date: string, size: string)
      modifies this`documents
      ensures documents == [Uploaded(id, name, date, size, activeFolderId)] + old(documents)
    {
      documents := [Uploaded(id, name, date, size, activeFolderId)] + documents;
    }

    /** Creating a folder appends it when the trimmed name is non-empty and then
        clears the name; a blank name changes nothing. */
    method CreateFolder(id: string)
      modifies this`folders, this`newFolderName
      ensures TrimJs(old(newFolderName)) != [] ==>
                folders == old(folders) + [Folder(id, old(newFolderName))] && newFolderName == []
      ensures TrimJs(old(newFolderName)) == [] ==> folders == old(folders) && newFolderName == old(newFolderName)
    {
      if TrimJs(newFolderName) != [] {
        folders := folders + [Folder(id, newFolderName)];
        newFolderName := [];
      }
    }

    /** Moving the selected document to `folderId` (`None` takes it out of every
        folder); only that document's folder changes. */
    method MoveDocument(folderId: Option<string>)
      modifies this`documents, this`movingDocument
      ensures old(movingDocument).Some? ==>
                documents == Moved(old(documents), old(movingDocument).value.id, folderId) && movingDocument == None
      ensures old(movingDocument).None? ==> documents == old(documents) && movingDocument == None
    {
      if movingDocument.Some? {
        documents := Moved(documents, movingDocument.value.id, folderId);
        movingDocument := None;
      }
    }

    /** Confirmed deletion of a document. */
    method DeleteDocument(id: string)
      modifies this`documents
      ensures documents == WithoutDocument(old(documents), id)
    {
      documents := WithoutDocument(documents, id);
    }

    /** Confirmed deletion of a folder: the folder goes, with every document filed in
        it, and the open folder is reset when it was the deleted one. */
    method DeleteFolder(id: string)
      modifies this`folders, this`documents, this`activeFolderId
      ensures folders == WithoutFolder(old(folders), id)
      ensures documents == OutsideFolder(old(documents), id)
      ensures activeFolderId == if old(activeFolderId) == Some(id) then None else old(activeFolderId)
    {
      folders := WithoutFolder(folders, id);
      documents := OutsideFolder(documents, id);
      if activeFolderId == Some(id) {
        activeFolderId := None;
      }
    }
  }
}
