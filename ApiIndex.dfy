// Account creation and the choice of the signing key. Registration refuses a
// repeated e-mail, then a repeated CPF, and otherwise stores the account with its
// plan status and trial window; the key comes from the environment before the file.
module ApiIndex {
  import opened Wrappers

  /** The registration form; `tipoPlano` is "gratuito" when the client leaves it out. */
  datatype NewUser = NewUser(nome: string, email: string, cpf: string, senha: string, tipoPlano: string)

  /** A stored account. Times are instants in seconds; the password is kept only as
      its hash, which the caller computes. */
  datatype Account = Account(nome: string, email: string, cpf: string, senhaHash: string,
                             tipoPlano: string, statusPlano: string,
                             inicioTrial: Option<int>, fimTrial: Option<int>,
                             ativo: bool, criadoEm: int, atualizadoEm: int)

  datatype Response =
    | Created(id: string, mensagem: string, plano: string, status: string)
    | Rejected(code: int, detail: string)

  const DefaultPlan := "gratuito"
  const EmailTakenDetail := "E-mail já cadastrado."
  const CpfTakenDetail := "CPF já cadastrado."
  const CreatedMessage := "Usuário criado com sucesso!"

  /** Thirty days, in seconds. */
  const TrialLength := 30 * 24 * 60 * 60

  // ---------------------------------------------------------------------------
  // Plan status and trial
  // ---------------------------------------------------------------------------

  /** The free plan is active at once; every other plan, known or not, is on trial. */
  function PlanStatus(plan: string): (s: string)
    ensures s == "ativo" <==> plan == "gratuito"
    ensures s == "trial" <==> plan != "gratuito"
  {
    if plan == "gratuito" then "ativo" else "trial"
  }

  predicate PaidPlan(plan: string) {
    plan == "profissional" || plan == "empresarial"
  }

  /** The trial window, opened only for the two paid plans: from now to thirty days on. */
  function Trial(plan: string, now: int): (r: Option<(int, int)>)
    ensures r.Some? <==> PaidPlan(plan)
    ensures r.Some? ==> r.value.0 == now && r.value.1 == now + TrialLength
  {
    if PaidPlan(plan) then Some((now, now + TrialLength)) else None
  }

  /** A trial window always comes with the trial status. */
  lemma TrialMeansTrialStatus(plan: string, now: int)
    requires Trial(plan, now).Some?
    ensures PlanStatus(plan) == "trial"
  {
  }

  /** An unknown plan name is put on trial, but with no trial dates. */
  lemma UnknownPlanTrialWithoutDates(now: int)
    ensures PlanStatus("premium") == "trial" && Trial("premium", now) == None
  {
  }

  // ---------------------------------------------------------------------------
  // Registration
  // ---------------------------------------------------------------------------

  predicate EmailTaken(users: seq<Account>, email: string) {
    exists i :: 0 <= i < |users| && users[i].email == email
  }

  predicate CpfTaken(users: seq<Account>, cpf: string) {
    exists i :: 0 <= i < |users| && users[i].cpf == cpf
  }

  /** No two accounts share an e-mail or a CPF. */
  predicate Unique(users: seq<Account>) {
    forall i, j :: 0 <= i < j < |users| ==> users[i].email != users[j].email && users[i].cpf != users[j].cpf
  }

  /** The account stored for a form at instant `now`. */
  function NewAccount(u: NewUser, senhaHash: string, now: int): (a: Account)
    ensures a.email == u.email && a.cpf == u.cpf && a.nome == u.nome && a.tipoPlano == u.tipoPlano
    ensures a.statusPlano == PlanStatus(u.tipoPlano) && a.ativo
    ensures a.inicioTrial.Some? <==> PaidPlan(u.tipoPlano)
    ensures a.fimTrial.Some? <==> PaidPlan(u.tipoPlano)
    ensures a.fimTrial.Some? ==> a.fimTrial.value == a.inicioTrial.value + TrialLength
    ensures a.criadoEm == now && a.atualizadoEm == now
  {
    var trial := Trial(u.tipoPlano, now);
    Account(u.nome, u.email, u.cpf, senhaHash, u.tipoPlano, PlanStatus(u.tipoPlano),
            if trial.Some? then Some(trial.value.0) else None,
            if trial.Some? then Some(trial.value.1) else None,
            true, now, now)
  }

  /** The answer to a registration and the accounts afterwards. The e-mail is
      checked first; a refused form leaves the accounts as they were. */
  function Register(users: seq<Account>, u: NewUser, senhaHash: string, now: int, insertedId: string): (r: (Response, seq<Account>))
    ensures EmailTaken(users, u.email) ==> r == (Rejected(400, EmailTakenDetail), users)
    ensures !EmailTaken(users, u.email) && CpfTaken(users, u.cpf) ==> r == (Rejected(400, CpfTakenDetail), users)
    ensures r.0.Created? <==> !EmailTaken(users, u.email) && !CpfTaken(users, u.cpf)
    ensures r.0.Created? ==> r.0 == Created(insertedId, CreatedMessage, u.tipoPlano, PlanStatus(u.tipoPlano))
                             && r.1 == users + [NewAccount(u, senhaHash, now)]
  {
    if EmailTaken(users, u.email) then (Rejected(400, EmailTakenDetail), users)
    else if CpfTaken(users, u.cpf) then (Rejected(400, CpfTakenDetail), users)
    else (Created(insertedId, CreatedMessage, u.tipoPlano, PlanStatus(u.tipoPlano)), users + [NewAccount(u, senhaHash, now)])
  }

  /** Registration never lets two accounts share an e-mail or a CPF. */
  lemma RegisterKeepsUnique(users: seq<Account>, u: NewUser, senhaHash: string, now: int, insertedId: string)
    requires Unique(users)
    ensures Unique(Register(users, u, senhaHash, now, insertedId).1)
  {
    var r := Register(users, u, senhaHash, now, insertedId);
    if r.0.Created? {
      var a := NewAccount(u, senhaHash, now);
      forall i, j | 0 <= i < j < |r.1| ensures r.1[i].email != r.1[j].email && r.1[i].cpf != r.1[j].cpf {
        if j == |users| {
          assert r.1[j] == a && r.1[i] == users[i];
        } else {
          assert r.1[i] == users[i] && r.1[j] == users[j];
        }
      }
    }
  }

  /** A second registration with the same e-mail is refused. */
  lemma SecondRegistrationRefused(users: seq<Account>, u: NewUser, v: NewUser, h: string, now: int, id: string)
    requires !EmailTaken(users, u.email) && !CpfTaken(users, u.cpf) && v.email == u.email
    ensures Register(Register(users, u, h, now, id).1, v, h, now, id).0 == Rejected(400, EmailTakenDetail)
  {
    var after := Register(users, u, h, now, id).1;
    assert after[|users|].email == v.email;
  }

  /** The accounts collection. */
  class AccountStore {
    var users: seq<Account>

    constructor(stored: seq<Account>)
      ensures users == stored
    {
      users := stored;
    }

    /** `POST /api/usuarios`; `senhaHash` is the SHA-256 digest of the password in
        hex, `now` the clock reading and `insertedId` the id the database assigns. */
    method CriarUsuario(u: NewUser, senhaHash: string, now: int, insertedId: string) returns (r: Response)
      modifies this
      ensures (r, users) == Register(old(users), u, senhaHash, now, insertedId)
      ensures r.Rejected? ==> users == old(users)
      ensures Unique(old(users)) ==> Unique(users)
    {
      var outcome := Register(users, u, senhaHash, now, insertedId);
      if Unique(users) {
        RegisterKeepsUnique(users, u, senhaHash, now, insertedId);
      }
      r, users := outcome.0, outcome.1;
    }
  }

  // ---------------------------------------------------------------------------
  // The signing key
  // ---------------------------------------------------------------------------

  /** Where the private key is read from. */
  datatype KeySource = FromEnvironment(pem: string) | FromFile | Missing

  /** `s.replace('\\n', '\n')`: each backslash followed by `n`, left to right, becomes
      a newline. */
  function Unescape(s: string): (r: string)
    ensures |r| <= |s|
    decreases |s|
  {
    if |s| >= 2 && s[0] == '\\' && s[1] == 'n' then "\n" + Unescape(s[2..])
    else if s == [] then []
    else [s[0]] + Unescape(s[1..])
  }

  /** After unescaping no backslash is followed by `n`. */
  lemma {:induction false} UnescapeLeavesNoEscape(s: string)
    ensures forall i :: 0 <= i < |Unescape(s)| - 1 ==> !(Unescape(s)[i] == '\\' && Unescape(s)[i + 1] == 'n')
    decreases |s|
  {
    if |s| >= 2 && s[0] == '\\' && s[1] == 'n' {
      UnescapeLeavesNoEscape(s[2..]);
      var r := Unescape(s);
      forall i | 0 <= i < |r| - 1 ensures !(r[i] == '\\' && r[i + 1] == 'n') {
        if i > 0 {
          assert r[i] == Unescape(s[2..])[i - 1] && r[i + 1] == Unescape(s[2..])[i];
        }
      }
    } else if s != [] {
      UnescapeLeavesNoEscape(s[1..]);
      var rest := Unescape(s[1..]);
      var r := Unescape(s);
      assert r == [s[0]] + rest;
      if s[0] == '\\' && rest != [] {
        UnescapeFirst(s[1..]);
      }
      forall i | 0 <= i < |r| - 1 ensures !(r[i] == '\\' && r[i + 1] == 'n') {
        if i > 0 {
          assert r[i] == rest[i - 1] && r[i + 1] == rest[i];
        }
      }
    }
  }

  /** The first character of an unescaped non-empty string is never `n` unless the
      string itself starts with `n`. */
  lemma UnescapeFirst(s: string)
    requires Unescape(s) != []
    ensures Unescape(s)[0] == 'n' ==> s[0] == 'n'
  {
  }

  /** A value without backslashes is used as it is. */
  lemma {:induction false} UnescapePlain(s: string)
    requires forall i :: 0 <= i < |s| ==> s[i] != '\\'
    ensures Unescape(s) == s
    decreases |s|
  {
    if s != [] {
      UnescapePlain(s[1..]);
    }
  }

  /** A backslash-free prefix is copied as it is, and what follows it is unescaped
      on its own. */
  lemma {:induction false} UnescapePlainPrefix(a: string, b: string)
    requires forall i :: 0 <= i < |a| ==> a[i] != '\\'
    ensures Unescape(a + b) == a + Unescape(b)
    decreases |a|
  {
    if a == [] {
      assert a + b == b;
    } else {
      assert (a + b)[1..] == a[1..] + b;
      UnescapePlainPrefix(a[1..], b);
    }
  }

  /** An escaped newline, a backslash and `n`, becomes one newline character; the
      text before it is kept and the text after it is unescaped in turn. */
  lemma UnescapeEscaped(a: string, b: string)
    requires forall i :: 0 <= i < |a| ==> a[i] != '\\'
    ensures Unescape(a + "\\n" + b) == a + "\n" + Unescape(b)
  {
    var t := "\\n" + b;
    assert a + "\\n" + b == a + t;
    UnescapePlainPrefix(a, t);
    assert t[2..] == b;
  }

  /** The environment variable wins when set and non-empty; otherwise the key file
      when it exists; otherwise there is no key. */
  function ChooseKey(env: Option<string>, fileExists: bool): (r: KeySource)
    ensures r.FromEnvironment? <==> env.Some? && env.value != []
    ensures r.FromEnvironment? ==> r.pem == Unescape(env.value)
    ensures r == FromFile <==> (env.None? || env.value == []) && fileExists
    ensures r == Missing <==> (env.None? || env.value == []) && !fileExists
  {
    if env.Some? && env.value != [] then FromEnvironment(Unescape(env.value))
    else if fileExists then FromFile
    else Missing
  }
}
