// The payment page: which plan the page opens with, the card, expiry, CVV and
// PIX-CPF input masks, and the card, bank-slip, PIX and free-plan handlers.
module Pagamento {
  import opened Wrappers
  import opened Text
  import Login

  // ---------------------------------------------------------------------------
  // Plan resolution
  // ---------------------------------------------------------------------------

  /** The keys of the plan table. */
  predicate KnownPlan(k: string) {
    k == "gratuito" || k == "profissional" || k == "empresarial"
  }

  /** The names every JavaScript object inherits from `Object.prototype`; looking one
      of them up in the plan table yields a function or an object, which is truthy. */
  predicate InheritedName(k: string) {
    k in ["constructor", "__defineGetter__", "__defineSetter__", "hasOwnProperty",
          "__lookupGetter__", "__lookupSetter__", "isPrototypeOf", "propertyIsEnumerable",
          "toString", "valueOf", "__proto__", "toLocaleString"]
  }

  /** `x && PLAN_CONFIG[x]` as written: a non-empty name whose lookup is truthy. */
  predicate LookupAsWritten(x: Option<string>) {
    x.Some? && x.value != [] && (KnownPlan(x.value) || InheritedName(x.value))
  }

  /** The plan the page opens with, as written: the plan passed by navigation if its
      lookup is truthy, else the stored plan if its lookup is truthy, else none. */
  function EffectivePlanAsWritten(nav: Option<string>, stored: Option<string>): (r: Option<string>)
    ensures r.Some? ==> r == nav || r == stored
    ensures r.None? <==> !LookupAsWritten(nav) && !LookupAsWritten(stored)
  {
    if LookupAsWritten(nav) then nav else if LookupAsWritten(stored) then stored else None
  }

  /** An inherited name passes the lookup: a stored plan "constructor" is taken as
      the page's plan although the table has no such entry (the render then throws,
      see `InheritedPlanCrashes`). */
  lemma InheritedPlanAccepted()
    ensures EffectivePlanAsWritten(None, Some("constructor")) == Some("constructor")
    ensures !KnownPlan("constructor")
  {
    assert InheritedName("constructor");
  }

  /** The plan the page opens with, consulting only the table's own keys. */
  function EffectivePlan(nav: Option<string>, stored: Option<string>): (r: Option<string>)
    ensures r.Some? ==> KnownPlan(r.value)
    ensures nav.Some? && KnownPlan(nav.value) ==> r == nav
    ensures !(nav.Some? && KnownPlan(nav.value)) && stored.Some? && KnownPlan(stored.value) ==> r == stored
    ensures r.None? <==> !(nav.Some? && KnownPlan(nav.value)) && !(stored.Some? && KnownPlan(stored.value))
  {
    if nav.Some? && KnownPlan(nav.value) then nav
    else if stored.Some? && KnownPlan(stored.value) then stored
    else None
  }

  /** The two resolutions differ only on inherited names. */
  lemma EffectivePlanAgrees(nav: Option<string>, stored: Option<string>)
    requires nav.Some? ==> !InheritedName(nav.value)
    requires stored.Some? ==> !InheritedName(stored.value)
    ensures EffectivePlanAsWritten(nav, stored) == EffectivePlan(nav, stored)
  {
  }

  /** How the page's first render ends: it sends the user to the login page, it
      shows the page for a plan, or it throws on a plan while pricing it. */
  datatype Opening = ToLogin | Opened(plan: string) | Crashed(plan: string)

  /** The first render as written. Without a plan it goes to the login page.
      Otherwise `getPlanPrice()` runs during the render and reads
      `currentPlan.price`; only the table's own entries have a price, so an
      inherited entry makes the render throw. */
  function OpeningAsWritten(nav: Option<string>, stored: Option<string>): (r: Opening)
    ensures r == ToLogin <==> !LookupAsWritten(nav) && !LookupAsWritten(stored)
    ensures r.Opened? ==> KnownPlan(r.plan) && (r.plan == nav.GetOr("") || r.plan == stored.GetOr(""))
    ensures r.Crashed? ==> InheritedName(r.plan) && !KnownPlan(r.plan)
  {
    var p := EffectivePlanAsWritten(nav, stored);
    if p.None? then ToLogin
    else if KnownPlan(p.value) then Opened(p.value)
    else assert InheritedName(p.value); Crashed(p.value)
  }

  /** A stored plan "constructor" and no navigation plan: the render throws. */
  lemma InheritedPlanCrashes()
    ensures OpeningAsWritten(None, Some("constructor")) == Crashed("constructor")
  {
    InheritedPlanAccepted();
  }

  /** The first render with the intended resolution, which never throws. */
  function OpeningIntended(nav: Option<string>, stored: Option<string>): (r: Opening)
    ensures !r.Crashed?
    ensures r == ToLogin <==> EffectivePlan(nav, stored).None?
    ensures r.Opened? ==> KnownPlan(r.plan) && EffectivePlan(nav, stored) == Some(r.plan)
  {
    var p := EffectivePlan(nav, stored);
    if p.None? then ToLogin else Opened(p.value)
  }

  /** Away from inherited names the page opens as intended. */
  lemma OpeningAgrees(nav: Option<string>, stored: Option<string>)
    requires nav.Some? ==> !InheritedName(nav.value)
    requires stored.Some? ==> !InheritedName(stored.value)
    ensures OpeningAsWritten(nav, stored) == OpeningIntended(nav, stored)
  {
    EffectivePlanAgrees(nav, stored);
  }

  // ---------------------------------------------------------------------------
  // Input masks
  // ---------------------------------------------------------------------------

  /** Card number: at most sixteen digits, a space after each group of four that is
      followed by another digit. It keeps the first sixteen digits and never exceeds
      the field's nineteen characters. */
  function CardNumberMask(value: string): (r: string)
    ensures OnlyDigits(r) == Prefix(OnlyDigits(value), 16)
    ensures |r| <= 19
  {
    var t := Prefix(OnlyDigits(value), 16);
    PrefixOfDigits(OnlyDigits(value), 16);
    DigitGroupsDigits(t, 4);
    DigitGroupsBound(t, 4, 3);
    DigitGroups(t, 4)
  }

  lemma CardNumberIdempotent(value: string)
    ensures CardNumberMask(CardNumberMask(value)) == CardNumberMask(value)
  {
  }

  /** Four digits and a space in front of a laid-out rest fit "0000 " in front of
      the rest's placeholder. */
  lemma FitsGroupBefore(a: string, rest: string, mask: string)
    requires AllDigits(a) && |a| == 4 && Login.Fits(rest, mask)
    ensures Login.Fits(a + " " + rest, "0000 " + mask)
  {
    Login.FitsDigits(a, "0000");
    Login.FitsAppend(a, " ", "0000", " ");
    Login.FitsAppend(a + " ", rest, "0000 ", mask);
  }

  /** Sixteen digits fill the placeholder "0000 0000 0000 0000". */
  lemma CardNumberFull(t: string)
    requires AllDigits(t) && |t| == 16
    ensures Login.Fits(CardNumberMask(t), "0000 0000 0000 0000")
  {
    CardMaskGroups(t);
    CardGroupsFit(t);
  }

  /** Sixteen digits are masked as four groups of four. */
  lemma CardMaskGroups(t: string)
    requires AllDigits(t) && |t| == 16
    ensures CardNumberMask(t) == t[..4] + " " + (t[4..8] + " " + (t[8..12] + " " + t[12..]))
  {
    OnlyDigitsIdentity(t);
    assert Prefix(OnlyDigits(t), 16) == t;
    CardGroups(t);
  }

  lemma CardGroupsFit(t: string)
    requires AllDigits(t) && |t| == 16
    ensures Login.Fits(t[..4] + " " + (t[4..8] + " " + (t[8..12] + " " + t[12..])), "0000 0000 0000 0000")
  {
    assert AllDigits(t[..4]) && AllDigits(t[4..8]) && AllDigits(t[8..12]) && AllDigits(t[12..]);
    FourGroupsFit(t[..4], t[4..8], t[8..12], t[12..]);
  }

  lemma FourGroupsFit(a: string, b: string, c: string, d: string)
    requires AllDigits(a) && AllDigits(b) && AllDigits(c) && AllDigits(d)
    requires |a| == 4 && |b| == 4 && |c| == 4 && |d| == 4
    ensures Login.Fits(a + " " + (b + " " + (c + " " + d)), "0000 0000 0000 0000")
  {
    Login.FitsDigits(d, "0000");
    FitsGroupBefore(c, d, "0000");
    assert "0000 " + "0000" == "0000 0000";
    FitsGroupBefore(b, c + " " + d, "0000 0000");
    assert "0000 " + "0000 0000" == "0000 0000 0000";
    FitsGroupBefore(a, b + " " + (c + " " + d), "0000 0000 0000");
    assert "0000 " + "0000 0000 0000" == "0000 0000 0000 0000";
  }




  lemma CardGroups(t: string)
    requires |t| == 16
    ensures DigitGroups(t, 4) == t[..4] + " " + (t[4..8] + " " + (t[8..12] + " " + t[12..]))
  {
    var u, w := t[4..], t[8..];
    assert DigitGroups(w, 4) == t[8..12] + " " + t[12..] by {
      assert w[..4] == t[8..12] && w[4..] == t[12..];
    }
    assert DigitGroups(u, 4) == t[4..8] + " " + DigitGroups(w, 4) by {
      assert u[..4] == t[4..8] && u[4..] == w;
    }
  }

  /** Expiry: at most four digits, with "/" after the first two when more follow. */
  function ExpiryMask(value: string): (r: string)
    ensures |r| <= 5
  {
    ExpiryShape(Prefix(OnlyDigits(value), 4))
  }

  /** A "/" after the first two digits, when more follow. */
  function ExpiryShape(v: string): string {
    if |v| > 2 then v[..2] + "/" + v[2..] else v
  }

  /** The expiry keeps the first four digits, and holds a "/" (always third) exactly
      when more than two digits were typed. */
  lemma ExpiryDigits(value: string)
    ensures OnlyDigits(ExpiryMask(value)) == Prefix(OnlyDigits(value), 4)
    ensures var r := ExpiryMask(value);
            (Count(r, '/') > 0 <==> |Prefix(OnlyDigits(value), 4)| > 2)
            && (|r| > 2 ==> r[2] == '/')
  {
    PrefixOfDigits(OnlyDigits(value), 4);
    ExpiryShapeDigits(Prefix(OnlyDigits(value), 4));
  }

  lemma ExpiryShapeDigits(v: string)
    requires AllDigits(v)
    ensures OnlyDigits(ExpiryShape(v)) == v
    ensures var r := ExpiryShape(v);
            (Count(r, '/') > 0 <==> |v| > 2) && (|r| > 2 ==> r[2] == '/')
  {
    DigitsHaveNoSlash(v);
    if |v| > 2 {
      var a, b := v[..2], v[2..];
      DigitsCut(v, 2);
      OnlyDigitsAround(a, "/", b);
      OnlyDigitsIdentity(a);
      OnlyDigitsIdentity(b);
      DigitsHaveNoSlash(a);
      DigitsHaveNoSlash(b);
      CountAppend(a, "/", '/');
      CountAppend(a + "/", b, '/');
      assert "/"[..0] == [];
    } else {
      OnlyDigitsIdentity(v);
    }
  }

  lemma {:induction false} DigitsHaveNoSlash(s: string)
    requires AllDigits(s)
    ensures Count(s, '/') == 0
  {
    if s != [] {
      DigitsHaveNoSlash(s[..|s| - 1]);
    }
  }

  lemma ExpiryIdempotent(value: string)
    ensures ExpiryMask(ExpiryMask(value)) == ExpiryMask(value)
  {
    ExpiryDigits(value);
  }

  /** CVV: the first three digits. */
  function CvvMask(value: string): (r: string)
    ensures AllDigits(r) && |r| <= 3
    ensures r <= OnlyDigits(value)
    ensures |OnlyDigits(value)| >= 3 ==> |r| == 3
  {
    Prefix(OnlyDigits(value), 3)
  }

  /** The CPF field of the PIX form: the CPF mask on at most eleven digits, which
      keeps exactly the first eleven typed digits. */
  function PixCpfMask(value: string): (r: string)
    ensures OnlyDigits(r) == Prefix(OnlyDigits(value), 11)
  {
    var v := Prefix(OnlyDigits(value), 11);
    PrefixOfDigits(OnlyDigits(value), 11);
    Login.CpfDigits(v);
    Login.CpfShape(v)
  }

  /** Eleven digits give `ddd.ddd.ddd-dd`. */
  lemma PixCpfFull(value: string)
    requires |Prefix(OnlyDigits(value), 11)| == 11
    ensures Login.Fits(PixCpfMask(value), "000.000.000-00")
  {
    var v := Prefix(OnlyDigits(value), 11);
    PrefixOfDigits(OnlyDigits(value), 11);
    Login.CpfFull(v);
  }

  /** Up to eleven digits, the PIX CPF field and the sign-up CPF/CNPJ field agree. */
  lemma PixCpfAgreesWithSignup(value: string)
    requires |OnlyDigits(value)| <= 11
    ensures PixCpfMask(value) == Login.CpfCnpjMask(value)
  {
  }

  // ---------------------------------------------------------------------------
  // Handlers
  // ---------------------------------------------------------------------------

  const CardIncomplete := "Preencha todos os dados do cartão para continuar."
  const PixIncomplete := "Nome e CPF são obrigatórios para gerar o PIX e o contrato."
  const PixServerError := "Erro ao comunicar com o servidor. Tente novamente."
  const ConfirmSuccess := "Pagamento confirmado e contrato gerado com sucesso!"
  const ConfirmError := "Erro ao confirmar pagamento. Verifique se o pagamento foi realizado."

  datatype AlertKind = Error | Success
  datatype Alert = Alert(kind: AlertKind, text: string)

  /** The server's answer to a PIX request. */
  datatype PixData = PixData(qrCode: string, payload: string, txid: string)

  /** The body of the PIX request; the amount, a floating-point price, is not modelled. */
  datatype PixRequest = PixRequest(nome: string, cpf: string, plano: string)

  /** The body of the payment confirmation. */
  datatype ConfirmRequest = ConfirmRequest(txid: string, nome: string, cpf: string, plano: string, email: Option<string>)

  /** The card form is complete when none of its four inputs is empty. */
  predicate CardComplete(number: string, name: string, expiry: string, cvv: string) {
    number != [] && name != [] && expiry != [] && cvv != []
  }

  /** The stored plan after a payment: the selected plan, when one is selected. */
  function StorePlan(stored: map<string, string>, plan: string): (r: map<string, string>)
    ensures plan != [] ==> "userPlan" in r && r["userPlan"] == plan
    ensures plan == [] ==> r == stored
    ensures forall k :: k != "userPlan" ==> (k in r <==> k in stored) && (k in r ==> r[k] == stored[k])
  {
    if plan != [] then stored["userPlan" := plan] else stored
  }

  /** The state of the payment page. The browser storage is `storage`, the last
      requested navigation `route`; the page's timers are collapsed into the handler
      that starts them. */
  class PaymentPage {
    const apiUrl: string
    const email: Option<string>
    var selectedPlan: string
    var cardNumber: string
    var cardName: string
    var expiry: string
    var cvv: string
    var userName: string
    var userCpf: string
    var pixData: Option<PixData>
    var contratoUrl: Option<string>
    var alert: Option<Alert>
    var storage: map<string, string>
    var route: Option<string>
    var crashed: bool

    /** Opens the page with the plan and email passed by navigation; `api` is the
        configured server address. Without an effective plan the page sends the user
        to the login page; with an inherited name as the plan the render throws. */
    constructor(api: string, nav: Option<string>, navEmail: Option<string>, stored: map<string, string>)
      ensures var o := OpeningAsWritten(nav, if "userPlan" in stored then Some(stored["userPlan"]) else None);
              && (o == ToLogin ==> route == Some("/login") && !crashed)
              && (o.Opened? ==> route == None && selectedPlan == o.plan && !crashed)
              && (o.Crashed? ==> route == None && crashed)
      ensures apiUrl == api && email == navEmail && storage == stored
      ensures cardNumber == [] && cardName == [] && expiry == [] && cvv == []
      ensures userName == [] && userCpf == [] && pixData == None && contratoUrl == None && alert == None
    {
      apiUrl, email := api, navEmail;
      var o := OpeningAsWritten(nav, if "userPlan" in stored then Some(stored["userPlan"]) else None);
      selectedPlan := if o == ToLogin then "profissional" else o.plan;
      route := if o == ToLogin then Some("/login") else None;
      crashed := o.Crashed?;
      cardNumber, cardName, expiry, cvv := [], [], [], [];
      userName, userCpf, pixData, contratoUrl, alert := [], [], None, None, None;
      storage := stored;
    }

    method CardNumberChange(value: string)
      requires !crashed
      modifies this`cardNumber
      ensures cardNumber == CardNumberMask(value)
    {
      cardNumber := CardNumberMask(value);
    }

    method ExpiryChange(value: string)
      requires !crashed
      modifies this`expiry
      ensures expiry == ExpiryMask(value)
    {
      expiry := ExpiryMask(value);
    }

    method CvvChange(value: string)
      requires !crashed
      modifies this`cvv
      ensures cvv == CvvMask(value)
    {
      cvv := CvvMask(value);
    }

    method UserCpfChange(value: string)
      requires !crashed
      modifies this`userCpf
      ensures userCpf == PixCpfMask(value)
    {
      userCpf := PixCpfMask(value);
    }

    /** Card payment: an incomplete card shows an error and changes nothing else;
        otherwise the selected plan is stored and the user goes to the application. */
    method Submit()
      requires !crashed
      modifies this`alert, this`storage, this`route
      ensures !CardComplete(cardNumber, cardName, expiry, cvv) ==>
                alert == Some(Alert(Error, CardIncomplete)) && storage == old(storage) && route == old(route)
      ensures CardComplete(cardNumber, cardName, expiry, cvv) ==>
                alert == None && storage == StorePlan(old(storage), selectedPlan) && route == Some("/app")
    {
      alert := None;
      if !CardComplete(cardNumber, cardName, expiry, cvv) {
        alert := Some(Alert(Error, CardIncomplete));
        return;
      }
      storage := StorePlan(storage, selectedPlan);
      route := Some("/app");
    }

    /** Bank-slip payment: no check; the selected plan is stored. */
    method Boleto()
      requires !crashed
      modifies this`alert, this`storage, this`route
      ensures alert == None && storage == StorePlan(old(storage), selectedPlan) && route == Some("/app")
    {
      alert := None;
      storage := StorePlan(storage, selectedPlan);
      route := Some("/app");
    }

    /** Generating a PIX charge: without a name and a CPF no request is made; `response`
        is the server's answer, `None` when the request failed. */
    method Pix(response: Option<PixData>) returns (request: Option<PixRequest>)
      requires !crashed
      modifies this`alert, this`pixData
      ensures userName == [] || userCpf == [] <==> request == None
      ensures request == None ==> alert == Some(Alert(Error, PixIncomplete)) && pixData == old(pixData)
      ensures request.Some? ==> request.value == PixRequest(userName, userCpf, selectedPlan)
      ensures request.Some? && response.Some? ==> pixData == response && alert == None
      ensures request.Some? && response.None? ==> pixData == old(pixData) && alert == Some(Alert(Error, PixServerError))
    {
      alert := None;
      request := None;
      if userName == [] || userCpf == [] {
        alert := Some(Alert(Error, PixIncomplete));
        return;
      }
      request := Some(PixRequest(userName, userCpf, selectedPlan));
      match response
      case Some(d) =>
        pixData := Some(d);
      case None =>
        alert := Some(Alert(Error, PixServerError));
    }

    /** Confirming a PIX payment: nothing happens before a charge exists; `contract`
        is the name of the contract file the server generated, `None` when it failed. */
    method ConfirmPix(contract: Option<string>) returns (request: Option<ConfirmRequest>)
      requires !crashed
      modifies this`alert, this`contratoUrl, this`storage
      ensures old(pixData).None? ==>
                request == None && alert == old(alert) && contratoUrl == old(contratoUrl) && storage == old(storage)
      ensures old(pixData).Some? ==>
                request == Some(ConfirmRequest(old(pixData).value.txid, userName, userCpf, selectedPlan, email))
      ensures old(pixData).Some? && contract.Some? ==>
                contratoUrl == Some(apiUrl + "/download/" + contract.value)
                && alert == Some(Alert(Success, ConfirmSuccess))
                && storage == StorePlan(old(storage), selectedPlan)
      ensures old(pixData).Some? && contract.None? ==>
                contratoUrl == old(contratoUrl) && alert == Some(Alert(Error, ConfirmError)) && storage == old(storage)
    {
      request := None;
      if pixData.None? {
        return;
      }
      alert := None;
      request := Some(ConfirmRequest(pixData.value.txid, userName, userCpf, selectedPlan, email));
      match contract
      case Some(file) =>
        contratoUrl := Some(apiUrl + "/download/" + file);
        alert := Some(Alert(Success, ConfirmSuccess));
        storage := StorePlan(storage, selectedPlan);
      case None =>
        alert := Some(Alert(Error, ConfirmError));
    }

    /** Confirming the free plan stores "gratuito" and opens the application. */
    method ConfirmFreePlan()
      requires !crashed
      modifies this`storage, this`route
      ensures storage == old(storage)["userPlan" := "gratuito"] && route == Some("/app")
    {
      storage := storage["userPlan" := "gratuito"];
      route := Some("/app");
    }
  }
}
