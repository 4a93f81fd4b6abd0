// The dashboard: the five most recent documents as activity rows, the plan label,
// the status badges, and the profile form that saves the user's details.
module Dashboard {
  import opened Wrappers
  import opened Text
  import opened Lists
  import Sorting
  import DashboardLayout

  /** A document as the listing endpoint returns it; `date` is written DD/MM/YYYY. */
  datatype ApiDocument = ApiDocument(id: string, name: string, date: string)

  /** A row's key: the document id, or the row's position when the id is empty. */
  datatype ActivityId = DocumentId(id: string) | Position(index: nat)

  datatype Activity = Activity(id: ActivityId, document: string, status: string, date: string,
                               time: string, recipient: string)

  const MaxRecent: nat := 5

  // ---------------------------------------------------------------------------
  // Recent activity
  // ---------------------------------------------------------------------------

  /** `date.split('/').reverse().join('-')`. */
  function IsoDate(date: string): string {
    Join(Reversed(Split(date, '/')), '-')
  }

  /** A date written DD/MM/YYYY. */
  predicate BrDate(s: string) {
    |s| == 10 && s[2] == '/' && s[5] == '/'
    && forall i :: 0 <= i < 10 && i != 2 && i != 5 ==> IsDigit(s[i])
  }

  /** A DD/MM/YYYY date is rewritten as YYYY-MM-DD. */
  lemma IsoOfBrDate(s: string)
    requires BrDate(s)
    ensures IsoDate(s) == s[6..] + "-" + s[3..5] + "-" + s[..2]
  {
    SplitBrDate(s);
    var parts := Reversed(Split(s, '/'));
    assert parts == [s[6..], s[3..5], s[..2]];
    assert parts[..2] == [s[6..], s[3..5]] && parts[..2][..1] == [s[6..]];
    assert Join(parts[..2], '-') == s[6..] + "-" + s[3..5];
  }

  /** A DD/MM/YYYY date splits into day, month and year. */
  lemma SplitBrDate(s: string)
    requires BrDate(s)
    ensures Split(s, '/') == [s[..2], s[3..5], s[6..]]
  {
    var rest := s[3..];
    var year := s[6..];
    BeforeFirstAt(s, '/', 2);
    BeforeFirstAt(rest, '/', 2);
    assert rest[3..] == year;
    assert forall j :: 0 <= j < |year| ==> year[j] != '/' by {
      forall j | 0 <= j < |year| ensures year[j] != '/' {
        assert year[j] == s[6 + j];
      }
    }
    assert BeforeFirst(year, '/') == year;
    assert Split(year, '/') == [year];
    assert Split(rest, '/') == [rest[..2], year];
    assert rest[..2] == s[3..5];
  }

  /** The sort key of a document: the time of its date read as YYYY-MM-DD.
      `time` is the browser's date parsing, `new Date(iso).getTime()`. */
  function DateKey(time: string -> real): ApiDocument -> real {
    (d: ApiDocument) => time(IsoDate(d.date))
  }

  /** The documents, newest first; equal dates keep the order they came in. */
  function Newest(docs: seq<ApiDocument>, time: string -> real): (r: seq<ApiDocument>)
    ensures multiset(r) == multiset(docs)
    ensures Sorting.SortedDesc(r, DateKey(time))
  {
    Sorting.SortDescSorted(docs, DateKey(time));
    Sorting.SortDescPermutation(docs, DateKey(time));
    Sorting.SortDesc(docs, DateKey(time))
  }

  /** The row shown for the document at position `index` of the sorted list. */
  function ActivityOf(d: ApiDocument, index: nat): (a: Activity)
    ensures a.document == d.name && a.date == d.date
    ensures a.status == "concluido" && a.time == "00:00" && a.recipient == "Você"
    ensures a.id == if d.id != [] then DocumentId(d.id) else Position(index)
  {
    Activity(if d.id != [] then DocumentId(d.id) else Position(index), d.name, "concluido", d.date, "00:00", "Você")
  }

  /** The recent-activity rows: the first five of the newest-first list. */
  function Recent(docs: seq<ApiDocument>, time: string -> real): (r: seq<Activity>)
    ensures |r| == if |docs| < MaxRecent then |docs| else MaxRecent
    ensures forall i :: 0 <= i < |r| ==> r[i] == ActivityOf(Newest(docs, time)[i], i)
  {
    var shown := Prefix(Newest(docs, time), MaxRecent);
    seq(|shown|, i requires 0 <= i < |shown| => ActivityOf(shown[i], i))
  }

  /** The rows run from the newest date to the oldest. */
  lemma RecentNewestFirst(docs: seq<ApiDocument>, time: string -> real)
    ensures var r := Recent(docs, time);
            forall i, j :: 0 <= i < j < |r| ==> time(IsoDate(r[i].date)) >= time(IsoDate(r[j].date))
  {
    var sorted := Newest(docs, time);
    Sorting.SortDescSorted(docs, DateKey(time));
    var r := Recent(docs, time);
    forall i, j | 0 <= i < j < |r| ensures time(IsoDate(r[i].date)) >= time(IsoDate(r[j].date)) {
      assert DateKey(time)(sorted[i]) >= DateKey(time)(sorted[j]);
    }
  }

  /** The rows show the newest documents: the shown and the left-out documents
      together are the listed ones, and none left out is newer than one shown. */
  lemma RecentAreNewest(docs: seq<ApiDocument>, time: string -> real)
    ensures var sorted := Newest(docs, time);
            var cut := |Recent(docs, time)|;
            multiset(sorted[..cut]) + multiset(sorted[cut..]) == multiset(docs)
            && forall i, k :: 0 <= i < cut <= k < |sorted| ==> DateKey(time)(sorted[k]) <= DateKey(time)(sorted[i])
  {
    var sorted := Newest(docs, time);
    var cut := |Recent(docs, time)|;
    Sorting.SortDescSorted(docs, DateKey(time));
    Sorting.SortDescPermutation(docs, DateKey(time));
    assert sorted == sorted[..cut] + sorted[cut..];
  }

  /** The listing is fetched only on the dashboard tab and for a known e-mail. */
  function ShouldFetch(tab: Option<string>, email: string): (r: bool)
    ensures r <==> (tab.None? || tab.value != "account") && email != []
  {
    var activeTab := if tab == Some("account") then "account" else "dashboard";
    activeTab == "dashboard" && email != []
  }

  // ---------------------------------------------------------------------------
  // Plan and status labels
  // ---------------------------------------------------------------------------

  /** The plan name under the stored plan, which defaults to the free plan. */
  function PlanLabel(stored: Option<string>): (r: string)
    ensures var plan := DashboardLayout.StoredOr(stored, "gratuito");
            (r == "Plano Profissional" <==> plan == "profissional")
            && (r == "Plano Empresarial" <==> plan == "empresarial")
            && (r == "Plano Gratuito" <==> plan != "profissional" && plan != "empresarial")
  {
    var plan := DashboardLayout.StoredOr(stored, "gratuito");
    if plan == "profissional" then "Plano Profissional"
    else if plan == "empresarial" then "Plano Empresarial"
    else "Plano Gratuito"
  }

  /** The badge text: the translations of the two known statuses (`completed` and
      `waiting`), and the status itself for any other. */
  function StatusLabel(status: string, completed: string, waiting: string): (r: string)
    ensures status != "concluido" && status != "aguardando" ==> r == status
    ensures status == "concluido" ==> r == completed
    ensures status == "aguardando" ==> r == waiting
  {
    if status == "concluido" then completed
    else if status == "aguardando" then waiting
    else status
  }

  /** The badge style: success or warning for the known statuses, plain otherwise. */
  function StatusClass(status: string): (r: string)
    ensures r == "status-badge success" <==> status == "concluido"
    ensures r == "status-badge warning" <==> status == "aguardando"
    ensures r == "status-badge" <==> status != "concluido" && status != "aguardando"
  {
    if status == "concluido" then "status-badge success"
    else if status == "aguardando" then "status-badge warning"
    else "status-badge"
  }

  /** Every recent row has the completed badge. */
  lemma RecentRowsCompleted(docs: seq<ApiDocument>, time: string -> real, completed: string, waiting: string)
    ensures forall a :: a in Recent(docs, time) ==>
              StatusClass(a.status) == "status-badge success" && StatusLabel(a.status, completed, waiting) == completed
  {
  }

  // ---------------------------------------------------------------------------
  // The profile form
  // ---------------------------------------------------------------------------

  /** `PUT /api/usuarios/{id}` with the form's values. */
  datatype Request = Put(userId: string, nome: string, email: string, telefone: string, cargo: string)

  const NoUserMessage := "Erro: Usuário não identificado. Faça login novamente."
  const SavedMessage := "Alterações salvas com sucesso!"
  const SaveFailedMessage := "Erro ao salvar alterações."

  /** The browser storage after a successful save. */
  function Saved(storage: map<string, string>, nome: string, email: string, telefone: string, cargo: string): (r: map<string, string>)
    ensures r.Keys == storage.Keys + {"userName", "userEmail", "userPhone", "userJob"}
    ensures r["userName"] == nome && r["userEmail"] == email && r["userPhone"] == telefone && r["userJob"] == cargo
    ensures forall k :: k in storage && k !in {"userName", "userEmail", "userPhone", "userJob"} ==> r[k] == storage[k]
  {
    storage["userName" := nome]["userEmail" := email]["userPhone" := telefone]["userJob" := cargo]
  }

  function Get(storage: map<string, string>, key: string): Option<string> {
    if key in storage then Some(storage[key]) else None
  }

  class AccountForm {
    var userName: string
    var userEmail: string
    var userPhone: string
    var userJob: string
    var saveMessage: string
    var storage: map<string, string>
    var requests: seq<Request>

    /** The form starts from the stored values, or placeholders where none is stored. */
    constructor(stored: map<string, string>)
      ensures userName == DashboardLayout.StoredOr(Get(stored, "userName"), "Usuário")
      ensures userEmail == DashboardLayout.StoredOr(Get(stored, "userEmail"), "usuario@exemplo.com")
      ensures userPhone == DashboardLayout.StoredOr(Get(stored, "userPhone"), "(11) 99999-9999")
      ensures userJob == DashboardLayout.StoredOr(Get(stored, "userJob"), "Administrador")
      ensures saveMessage == [] && storage == stored && requests == []
    {
      userName := DashboardLayout.StoredOr(Get(stored, "userName"), "Usuário");
      userEmail := DashboardLayout.StoredOr(Get(stored, "userEmail"), "usuario@exemplo.com");
      userPhone := DashboardLayout.StoredOr(Get(stored, "userPhone"), "(11) 99999-9999");
      userJob := DashboardLayout.StoredOr(Get(stored, "userJob"), "Administrador");
      saveMessage, storage, requests := [], stored, [];
    }

    /** Saving: without a stored user id only an error is shown and nothing is sent.
        Otherwise one request is sent; `ok` is whether the server accepted it, and
        only then are the values stored. */
    method HandleSave(ok: bool)
      modifies this`saveMessage, this`storage, this`requests
      ensures var id := Get(old(storage), "userId");
              if id.None? || id.value == [] then
                saveMessage == NoUserMessage && storage == old(storage) && requests == old(requests)
              else
                requests == old(requests) + [Put(id.value, userName, userEmail, userPhone, userJob)]
                && (ok ==> storage == Saved(old(storage), userName, userEmail, userPhone, userJob) && saveMessage == SavedMessage)
                && (!ok ==> storage == old(storage) && saveMessage == SaveFailedMessage)
    {
      var id := Get(storage, "userId");
      if id.None? || id.value == [] {
        saveMessage := NoUserMessage;
        return;
      }
      saveMessage := [];
      requests := requests + [Put(id.value, userName, userEmail, userPhone, userJob)];
      if ok {
        storage := Saved(storage, userName, userEmail, userPhone, userJob);
        saveMessage := SavedMessage;
      } else {
        saveMessage := SaveFailedMessage;
      }
    }
  }

  /** A successful save keeps the user id, so the next save is sent too. */
  lemma SaveKeepsUserId(storage: map<string, string>, nome: string, email: string, telefone: string, cargo: string)
    requires "userId" in storage
    ensures Get(Saved(storage, nome, email, telefone, cargo), "userId") == Get(storage, "userId")
  {
  }
}
