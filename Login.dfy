// The sign-in / sign-up page: the per-country phone masks, the CPF/CNPJ mask,
// the country selector and the submit handler with its error classification.
module Login {
  import opened Wrappers
  import opened Text

  // ---------------------------------------------------------------------------
  // Country configuration
  // ---------------------------------------------------------------------------

  datatype Country = Brasil | EstadosUnidos | Portugal | Espanha | Franca | ReinoUnido | Argentina | Chile

  datatype Lang = Pt | En | Es | Fr

  /** The key of a country in the configuration table. */
  function CountryName(c: Country): string {
    match c
    case Brasil => "Brasil"
    case EstadosUnidos => "Estados Unidos"
    case Portugal => "Portugal"
    case Espanha => "Espanha"
    case Franca => "França"
    case ReinoUnido => "Reino Unido"
    case Argentina => "Argentina"
    case Chile => "Chile"
  }

  /** Looks a country up by its key; any other name has no configuration. */
  function CountryOf(name: string): (r: Option<Country>)
    ensures r.Some? ==> CountryName(r.value) == name
  {
    if name == "Brasil" then Some(Brasil)
    else if name == "Estados Unidos" then Some(EstadosUnidos)
    else if name == "Portugal" then Some(Portugal)
    else if name == "Espanha" then Some(Espanha)
    else if name == "França" then Some(Franca)
    else if name == "Reino Unido" then Some(ReinoUnido)
    else if name == "Argentina" then Some(Argentina)
    else if name == "Chile" then Some(Chile)
    else None
  }

  /** Every configured country is found under its own key. */
  lemma CountryOfName(c: Country)
    ensures CountryOf(CountryName(c)) == Some(c)
  {
  }

  function Language(c: Country): Lang {
    match c
    case Brasil => Pt
    case EstadosUnidos => En
    case Portugal => Pt
    case Espanha => Es
    case Franca => Fr
    case ReinoUnido => En
    case Argentina => Es
    case Chile => Es
  }

  /** The number of digits a phone number keeps before it is masked. */
  function MaxDigits(c: Country): nat {
    match c
    case Brasil => 11
    case EstadosUnidos => 10
    case Portugal => 9
    case Espanha => 9
    case Franca => 9
    case ReinoUnido => 10
    case Argentina => 10
    case Chile => 9
  }

  /** The placeholder shown in the phone field; each '0' stands for one digit. */
  function Placeholder(c: Country): string {
    match c
    case Brasil => "(00) 00000-0000"
    case EstadosUnidos => "(000) 000-0000"
    case Portugal => "000 000 000"
    case Espanha => "000 000 000"
    case Franca => "00 00 00 00 00"
    case ReinoUnido => "0000 000000"
    case Argentina => "0000-0000"
    case Chile => "0 0000 0000"
  }

  // ---------------------------------------------------------------------------
  // Phone masks
  // ---------------------------------------------------------------------------

  /** The mask applied to the cleaned, truncated digits. Each branch is what the
      country's anchored regular expression produces; where a pattern needs more
      digits than there are it does not match and the digits come back unchanged. */
  function Shape(c: Country, t: string): string
    requires AllDigits(t) && |t| <= MaxDigits(c)
  {
    var n := |t|;
    match c
    case Brasil =>
      if n > 10 then "(" + t[..2] + ") " + t[2..7] + "-" + t[7..]
      else if n > 6 then "(" + t[..2] + ") " + t[2..6] + "-" + t[6..]
      else if n > 2 then "(" + t[..2] + ") " + t[2..]
      else if n > 0 then "(" + t
      else t
    case EstadosUnidos =>
      if n > 9 then "(" + t[..3] + ") " + t[3..6] + "-" + t[6..]
      else if n > 6 then t
      else if n > 3 then "(" + t[..3] + ") " + t[3..]
      else if n > 0 then "(" + t
      else t
    case Portugal => Iberian(t)
    case Espanha => Iberian(t)
    case Franca => French(t)
    case ReinoUnido => if n > 4 then t[..4] + " " + t[4..] else t
    // The pattern takes four and then at most four digits; the unmatched tail
    // stays after them.
    case Argentina => if n > 4 then t[..4] + "-" + t[4..] else t
    case Chile => Chilean(t)
  }

  /** The French mask: a space after each pair of digits followed by another digit. */
  function French(t: string): string {
    TrimJs(DigitGroups(t, 2))
  }

  /** The Chilean mask: one digit, a space, up to four digits, a space and the rest,
      trimmed. */
  function Chilean(t: string): string {
    var n := |t|;
    if n > 1 then
      var m := if n < 5 then n else 5;
      TrimJs(t[..1] + " " + t[1..m] + " " + t[m..])
    else t
  }

  /** The Portuguese and Spanish mask, which the two countries share. */
  function Iberian(t: string): string
    requires |t| <= 9
  {
    var n := |t|;
    if n > 8 then t[..3] + " " + t[3..6] + " " + t[6..]
    else if n > 6 then t
    else if n > 3 then t[..3] + " " + t[3..]
    else t
  }

  /** The `format` of a country: strip the non-digits, keep at most the country's
      digit count, then mask. The mask only adds punctuation and spaces, so removing
      the non-digits of the result gives back the digits kept. */
  function Format(c: Country, value: string): (r: string)
    ensures OnlyDigits(r) == Prefix(OnlyDigits(value), MaxDigits(c))
  {
    var t := Prefix(OnlyDigits(value), MaxDigits(c));
    PrefixOfDigits(OnlyDigits(value), MaxDigits(c));
    ShapeDigits(c, t);
    Shape(c, t)
  }

  /** The formatter used while typing: the selected country's, or the Brazilian one
      when the selected name has no configuration. */
  function PhoneFormat(country: string, value: string): (r: string)
    ensures CountryOf(country).Some? ==> r == Format(CountryOf(country).value, value)
    ensures CountryOf(country).None? ==> r == Format(Brasil, value)
    ensures OnlyDigits(r) == Prefix(OnlyDigits(value), MaxDigits(CountryOf(country).GetOr(Brasil)))
  {
    Format(CountryOf(country).GetOr(Brasil), value)
  }

  // Helpers relating the digits of a joined string to the digits of its pieces.

  lemma Joined2(p0: string, a: string, p1: string, b: string)
    requires NoDigits(p0) && NoDigits(p1)
    ensures OnlyDigits(p0 + a + p1 + b) == OnlyDigits(a) + OnlyDigits(b)
  {
    OnlyDigitsAppend(p0 + a + p1, b);
    OnlyDigitsAppend(p0 + a, p1);
    OnlyDigitsAppend(p0, a);
    OnlyDigitsNone(p0);
    OnlyDigitsNone(p1);
  }

  lemma Joined3(p0: string, a: string, p1: string, b: string, p2: string, c: string)
    requires NoDigits(p0) && NoDigits(p1) && NoDigits(p2)
    ensures OnlyDigits(p0 + a + p1 + b + p2 + c) == OnlyDigits(a) + OnlyDigits(b) + OnlyDigits(c)
  {
    Joined2(p0, a, p1, b);
    OnlyDigitsAround(p0 + a + p1 + b, p2, c);
  }

  /** A slice of a string of digits keeps all of its characters. */
  lemma DigitsSlice(t: string, i: nat, j: nat)
    requires AllDigits(t) && i <= j <= |t|
    ensures OnlyDigits(t[i..j]) == t[i..j]
  {
    assert forall m :: 0 <= m < j - i ==> t[i..j][m] == t[i + m];
    OnlyDigitsIdentity(t[i..j]);
  }

  lemma Rejoin2(t: string, i: nat)
    requires i <= |t|
    ensures t[..i] + t[i..] == t
  {
  }

  lemma Rejoin3(t: string, i: nat, j: nat)
    requires i <= j <= |t|
    ensures t[..i] + t[i..j] + t[j..] == t
  {
    assert t[..j] == t[..i] + t[i..j];
  }

  lemma Rejoin4(t: string, i: nat, j: nat, k: nat)
    requires i <= j <= k <= |t|
    ensures t[..i] + t[i..j] + t[j..k] + t[k..] == t
  {
    assert t[..j] == t[..i] + t[i..j];
    assert t[..k] == t[..j] + t[j..k];
  }

  lemma Pieces2(t: string, i: nat)
    requires AllDigits(t) && i <= |t|
    ensures OnlyDigits(t[..i]) + OnlyDigits(t[i..]) == t
  {
    DigitsSlice(t, 0, i);
    DigitsSlice(t, i, |t|);
    assert t[0..i] == t[..i] && t[i..|t|] == t[i..];
    Rejoin2(t, i);
  }

  lemma Pieces3(t: string, i: nat, j: nat)
    requires AllDigits(t) && i <= j <= |t|
    ensures OnlyDigits(t[..i]) + OnlyDigits(t[i..j]) + OnlyDigits(t[j..]) == t
  {
    DigitsSlice(t, 0, i);
    DigitsSlice(t, i, j);
    DigitsSlice(t, j, |t|);
    assert t[0..i] == t[..i] && t[j..|t|] == t[j..];
    Rejoin3(t, i, j);
  }

  lemma Pieces4(t: string, i: nat, j: nat, k: nat)
    requires AllDigits(t) && i <= j <= k <= |t|
    ensures OnlyDigits(t[..i]) + OnlyDigits(t[i..j]) + OnlyDigits(t[j..k]) + OnlyDigits(t[k..]) == t
  {
    DigitsSlice(t, 0, i);
    DigitsSlice(t, i, j);
    DigitsSlice(t, j, k);
    DigitsSlice(t, k, |t|);
    assert t[0..i] == t[..i] && t[k..|t|] == t[k..];
    Rejoin4(t, i, j, k);
  }

  lemma BrasilDigits(t: string)
    requires AllDigits(t) && |t| <= 11
    ensures OnlyDigits(Shape(Brasil, t)) == t
  {
    var n := |t|;
    if n > 10 {
      Joined3("(", t[..2], ") ", t[2..7], "-", t[7..]);
      Pieces3(t, 2, 7);
    } else if n > 6 {
      Joined3("(", t[..2], ") ", t[2..6], "-", t[6..]);
      Pieces3(t, 2, 6);
    } else if n > 2 {
      Joined2("(", t[..2], ") ", t[2..]);
      Pieces2(t, 2);
    } else if n > 0 {
      OnlyDigitsAppend("(", t);
      OnlyDigitsNone("(");
    }
  }

  lemma UnitedStatesDigits(t: string)
    requires AllDigits(t) && |t| <= 10
    ensures OnlyDigits(Shape(EstadosUnidos, t)) == t
  {
    OnlyDigitsIdentity(t);
    var n := |t|;
    if n > 9 {
      Joined3("(", t[..3], ") ", t[3..6], "-", t[6..]);
      Pieces3(t, 3, 6);
    } else if n > 6 {
    } else if n > 3 {
      Joined2("(", t[..3], ") ", t[3..]);
      Pieces2(t, 3);
    } else if n > 0 {
      OnlyDigitsAppend("(", t);
      OnlyDigitsNone("(");
    }
  }

  lemma IberianDigits(t: string)
    requires AllDigits(t) && |t| <= 9
    ensures OnlyDigits(Iberian(t)) == t
  {
    OnlyDigitsIdentity(t);
    var n := |t|;
    if n > 8 {
      Joined3("", t[..3], " ", t[3..6], " ", t[6..]);
      assert "" + t[..3] == t[..3];
      Pieces3(t, 3, 6);
    } else if 3 < n <= 6 {
      OnlyDigitsAround(t[..3], " ", t[3..]);
      Pieces2(t, 3);
    }
  }

  lemma FranceDigits(t: string)
    requires AllDigits(t) && |t| <= 9
    ensures OnlyDigits(Shape(Franca, t)) == t
  {
    FranceUntrimmed(t);
    DigitGroupsDigits(t, 2);
  }

  /** Grouped digits begin and end with a digit, so trimming leaves them alone. */
  lemma FranceUntrimmed(t: string)
    requires AllDigits(t) && |t| <= 9
    ensures Shape(Franca, t) == DigitGroups(t, 2)
  {
    var g := DigitGroups(t, 2);
    if t != [] {
      DigitNotSpace(t[0]);
      DigitNotSpace(t[|t| - 1]);
    }
  }

  lemma PairDigits(t: string, sep: string)
    requires AllDigits(t) && |t| > 4 && NoDigits(sep)
    ensures OnlyDigits(t[..4] + sep + t[4..]) == t
  {
    OnlyDigitsAround(t[..4], sep, t[4..]);
    Pieces2(t, 4);
  }

  lemma ChileDigits(t: string)
    requires AllDigits(t) && |t| <= 9
    ensures OnlyDigits(Shape(Chile, t)) == t
  {
    var n := |t|;
    if n > 5 {
      ChileLong(t);
      Joined3("", t[..1], " ", t[1..5], " ", t[5..]);
      assert "" + t[..1] == t[..1];
      Pieces3(t, 1, 5);
    } else if n > 1 {
      ChileShort(t);
      OnlyDigitsAround(t[..1], " ", t[1..]);
      Pieces2(t, 1);
    }
  }

  /** Up to five digits: one digit, a space and the others; the trailing space the
      mask leaves is trimmed. */
  lemma ChileanShort(t: string)
    requires AllDigits(t) && 1 < |t| <= 5
    ensures Chilean(t) == t[..1] + " " + t[1..]
  {
    var a := t[..1] + " " + t[1..];
    var u := t[..1] + " " + t[1..|t|] + " " + t[|t|..];
    assert u == a + " " by {
      assert t[1..|t|] == t[1..] && t[|t|..] == [];
    }
    DigitNotSpace(t[0]);
    DigitNotSpace(t[|t| - 1]);
    assert a[0] == t[0] && a[|a| - 1] == t[|t| - 1];
    TrimTrailingSpace(a);
  }

  /** From two to five digits the third group is empty and the trailing space is trimmed. */
  lemma ChileShort(t: string)
    requires AllDigits(t) && 1 < |t| <= 5
    ensures Shape(Chile, t) == t[..1] + " " + t[1..]
  {
    ChileanShort(t);
  }



  lemma ChileLong(t: string)
    requires AllDigits(t) && 5 < |t| <= 9
    ensures Shape(Chile, t) == t[..1] + " " + t[1..5] + " " + t[5..]
  {
    var s := t[..1] + " " + t[1..5] + " " + t[5..];
    DigitNotSpace(t[0]);
    DigitNotSpace(t[|t| - 1]);
    assert s[0] == t[0] && s[|s| - 1] == t[|t| - 1];
  }

  /** The masks only insert punctuation and spaces: the digits come back out. */
  lemma ShapeDigits(c: Country, t: string)
    requires AllDigits(t) && |t| <= MaxDigits(c)
    ensures OnlyDigits(Shape(c, t)) == t
  {
    OnlyDigitsIdentity(t);
    match c
    case Brasil => BrasilDigits(t);
    case EstadosUnidos => UnitedStatesDigits(t);
    case Portugal => IberianDigits(t);
    case Espanha => IberianDigits(t);
    case Franca => FranceDigits(t);
    case ReinoUnido =>
      if |t| > 4 {
        PairDigits(t, " ");
      }
    case Argentina =>
      if |t| > 4 {
        PairDigits(t, "-");
      }
    case Chile => ChileDigits(t);
  }

  /** Formatting an already formatted number changes nothing. */
  lemma FormatIdempotent(c: Country, value: string)
    ensures Format(c, Format(c, value)) == Format(c, value)
  {
  }

  /** The mask leaves the digits unmasked exactly for these lengths: none for
      Brazil; none or seven to nine for the United States (the full pattern needs
      ten); up to three or seven and eight for Portugal and Spain; up to two for
      France; up to four for the United Kingdom and Argentina; one for Chile. */
  predicate Unmasked(c: Country, n: nat) {
    match c
    case Brasil => n == 0
    case EstadosUnidos => n == 0 || 7 <= n <= 9
    case Portugal => n <= 3 || 7 <= n <= 8
    case Espanha => n <= 3 || 7 <= n <= 8
    case Franca => n <= 2
    case ReinoUnido => n <= 4
    case Argentina => n <= 4
    case Chile => n <= 1
  }

  lemma ShapeUnchangedIff(c: Country, t: string)
    requires AllDigits(t) && |t| <= MaxDigits(c)
    ensures Shape(c, t) == t <==> Unmasked(c, |t|)
  {
    match c
    case Brasil => BrasilUnchangedIff(t);
    case EstadosUnidos => UnitedStatesUnchangedIff(t);
    case Portugal => IberianUnchangedIff(t);
    case Espanha => IberianUnchangedIff(t);
    case Franca => FranceUnchangedIff(t);
    case ReinoUnido => PairUnchangedIff(ReinoUnido, t);
    case Argentina => PairUnchangedIff(Argentina, t);
    case Chile => ChileUnchangedIff(t);
  }

  lemma FranceUnchangedIff(t: string)
    requires AllDigits(t) && |t| <= 9
    ensures Shape(Franca, t) == t <==> |t| <= 2
  {
    FranceUntrimmed(t);
    if |t| > 2 {
      DigitGroupsGrows(t);
    } else {
      assert DigitGroups(t, 2) == t;
    }
  }

  lemma ChileUnchangedIff(t: string)
    requires AllDigits(t) && |t| <= 9
    ensures Shape(Chile, t) == t <==> |t| <= 1
  {
    if |t| > 5 {
      ChileLong(t);
    } else if |t| > 1 {
      ChileShort(t);
    }
  }

  /** The United Kingdom and Argentina split four digits from the rest. */
  lemma PairUnchangedIff(c: Country, t: string)
    requires c == ReinoUnido || c == Argentina
    requires AllDigits(t) && |t| <= 10
    ensures Shape(c, t) == t <==> |t| <= 4
  {
    assert |t| > 4 ==> |Shape(c, t)| > |t|;
  }

  lemma BrasilUnchangedIff(t: string)
    requires AllDigits(t) && |t| <= 11
    ensures Shape(Brasil, t) == t <==> |t| == 0
  {
    var n := |t|;
    assert n > 0 ==> |Shape(Brasil, t)| > n;
  }

  lemma UnitedStatesUnchangedIff(t: string)
    requires AllDigits(t) && |t| <= 10
    ensures Shape(EstadosUnidos, t) == t <==> |t| == 0 || 7 <= |t| <= 9
  {
    var n := |t|;
    assert (n > 9 || 0 < n <= 6) ==> |Shape(EstadosUnidos, t)| > n;
  }

  lemma IberianUnchangedIff(t: string)
    requires |t| <= 9
    ensures Iberian(t) == t <==> |t| <= 3 || 7 <= |t| <= 8
  {
    var n := |t|;
    assert (n > 8 || 3 < n <= 6) ==> |Iberian(t)| > n;
  }


  lemma DigitGroupsGrows(t: string)
    requires |t| > 2
    ensures |DigitGroups(t, 2)| > |t|
  {
    assert DigitGroups(t, 2) == t[..2] + " " + DigitGroups(t[2..], 2);
  }

  // ---------------------------------------------------------------------------
  // Placeholders
  // ---------------------------------------------------------------------------

  /** `r` has the layout of the placeholder `mask`: a digit under each '0' and the
      placeholder's own character everywhere else. */
  predicate Fits(r: string, mask: string) {
    |r| == |mask| && forall i :: 0 <= i < |r| ==> if mask[i] == '0' then IsDigit(r[i]) else r[i] == mask[i]
  }

  lemma FitsAppend(a: string, b: string, p: string, q: string)
    requires Fits(a, p) && Fits(b, q)
    ensures Fits(a + b, p + q)
  {
  }

  lemma FitsDigits(t: string, zeros: string)
    requires AllDigits(t) && |t| == |zeros|
    requires forall i :: 0 <= i < |zeros| ==> zeros[i] == '0'
    ensures Fits(t, zeros)
  {
  }

  /** A full-length number in the pieces `a`, `b`, `c` laid out as
      `p0 a p1 b p2 c` fits the placeholder `p0 0.. p1 0.. p2 0..`. */
  lemma FitsThree(p0: string, a: string, p1: string, b: string, p2: string, c: string,
                  za: string, zb: string, zc: string)
    requires AllDigits(a) && AllDigits(b) && AllDigits(c)
    requires |a| == |za| && |b| == |zb| && |c| == |zc|
    requires forall i :: 0 <= i < |za| ==> za[i] == '0'
    requires forall i :: 0 <= i < |zb| ==> zb[i] == '0'
    requires forall i :: 0 <= i < |zc| ==> zc[i] == '0'
    requires forall i :: 0 <= i < |p0| ==> p0[i] != '0'
    requires forall i :: 0 <= i < |p1| ==> p1[i] != '0'
    requires forall i :: 0 <= i < |p2| ==> p2[i] != '0'
    ensures Fits(p0 + a + p1 + b + p2 + c, p0 + za + p1 + zb + p2 + zc)
  {
    FitsDigits(a, za);
    FitsDigits(b, zb);
    FitsDigits(c, zc);
    FitsAppend(p0, a, p0, za);
    FitsAppend(p0 + a, p1, p0 + za, p1);
    FitsAppend(p0 + a + p1, b, p0 + za + p1, zb);
    FitsAppend(p0 + a + p1 + b, p2, p0 + za + p1 + zb, p2);
    FitsAppend(p0 + a + p1 + b + p2, c, p0 + za + p1 + zb + p2, zc);
  }

  lemma FitsTwo(a: string, p1: string, b: string, za: string, zb: string)
    requires AllDigits(a) && AllDigits(b)
    requires |a| == |za| && |b| == |zb|
    requires forall i :: 0 <= i < |za| ==> za[i] == '0'
    requires forall i :: 0 <= i < |zb| ==> zb[i] == '0'
    requires forall i :: 0 <= i < |p1| ==> p1[i] != '0'
    ensures Fits(a + p1 + b, za + p1 + zb)
  {
    FitsDigits(a, za);
    FitsDigits(b, zb);
    FitsAppend(a, p1, za, p1);
    FitsAppend(a + p1, b, za + p1, zb);
  }

  /** The number of digit slots in a placeholder. */
  function Slots(c: Country): nat {
    match c
    case Brasil => 11
    case EstadosUnidos => 10
    case Portugal => 9
    case Espanha => 9
    case Franca => 10
    case ReinoUnido => 10
    case Argentina => 8
    case Chile => 9
  }

  /** Typing as many digits as the placeholder has slots fills the placeholder,
      for every country except France, whose placeholder has one slot more than
      the digits it keeps. */
  lemma FullNumberFitsPlaceholder(c: Country, t: string)
    requires c != Franca && AllDigits(t) && |t| == Slots(c)
    ensures Fits(Shape(c, t), Placeholder(c))
  {
    match c
    case Brasil => BrasilFits(t);
    case EstadosUnidos => UnitedStatesFits(t);
    case Portugal => IberianFits(t);
    case Espanha => IberianFits(t);
    case ReinoUnido =>
      FitsTwo(t[..4], " ", t[4..], "0000", "000000");
      assert "0000" + " " + "000000" == Placeholder(c);
    case Argentina =>
      FitsTwo(t[..4], "-", t[4..], "0000", "0000");
      assert "0000" + "-" + "0000" == Placeholder(c);
    case Chile => ChileFits(t);
  }

  lemma BrasilFits(t: string)
    requires AllDigits(t) && |t| == 11
    ensures Fits(Shape(Brasil, t), "(00) 00000-0000")
  {
    FitsThree("(", t[..2], ") ", t[2..7], "-", t[7..], "00", "00000", "0000");
    assert "(" + "00" + ") " + "00000" + "-" + "0000" == "(00) 00000-0000";
  }

  lemma UnitedStatesFits(t: string)
    requires AllDigits(t) && |t| == 10
    ensures Fits(Shape(EstadosUnidos, t), "(000) 000-0000")
  {
    FitsThree("(", t[..3], ") ", t[3..6], "-", t[6..], "000", "000", "0000");
    assert "(" + "000" + ") " + "000" + "-" + "0000" == "(000) 000-0000";
  }

  lemma ChileFits(t: string)
    requires AllDigits(t) && |t| == 9
    ensures Fits(Shape(Chile, t), "0 0000 0000")
  {
    ChileLong(t);
    ChileLayoutFits(t);
  }

  lemma ChileLayoutFits(t: string)
    requires AllDigits(t) && |t| == 9
    ensures Fits(t[..1] + " " + t[1..5] + " " + t[5..], "0 0000 0000")
  {
    var x, p := t[..1] + " " + t[1..5], "0" + " " + "0000";
    FitsTwo(t[..1], " ", t[1..5], "0", "0000");
    FitsDigits(t[5..], "0000");
    FitsAppend(x, " ", p, " ");
    FitsAppend(x + " ", t[5..], p + " ", "0000");
    assert p + " " + "0000" == "0 0000 0000";
  }

  lemma IberianFits(t: string)
    requires AllDigits(t) && |t| == 9
    ensures Fits(Iberian(t), "000 000 000")
  {
    FitsThree("", t[..3], " ", t[3..6], " ", t[6..], "000", "000", "000");
    assert "" + t[..3] == t[..3];
    assert "" + "000" + " " + "000" + " " + "000" == "000 000 000";
  }

  /** The French placeholder cannot be filled: nine digits give at most thirteen
      characters, one fewer than the placeholder's fourteen. */
  lemma FranceNeverFitsPlaceholder(value: string)
    ensures !Fits(Format(Franca, value), Placeholder(Franca))
  {
    var t := Prefix(OnlyDigits(value), 9);
    PrefixOfDigits(OnlyDigits(value), 9);
    FranceUntrimmed(t);
    DigitGroupsBound(t, 2, 4);
  }

  // ---------------------------------------------------------------------------
  // CPF / CNPJ mask
  // ---------------------------------------------------------------------------

  /** The three CPF replacements on up to eleven digits: a dot after the first three
      digits when a fourth follows, a dot after the next three when a seventh
      follows, and a hyphen before the last one or two digits when they end a run
      of four or five. */
  function CpfShape(v: string): string
    requires AllDigits(v) && |v| <= 11
  {
    var n := |v|;
    if n > 9 then v[..3] + "." + v[3..6] + "." + v[6..9] + "-" + v[9..]
    else if n > 6 then v[..3] + "." + v[3..6] + "." + v[6..]
    else if n > 3 then v[..3] + "." + v[3..]
    else v
  }

  /** The four CNPJ replacements on twelve to fourteen digits; the hyphen needs at
      least five digits after the slash. */
  function CnpjShape(v: string): string
    requires AllDigits(v) && 12 <= |v| <= 14
  {
    var head := v[..2] + "." + v[2..5] + "." + v[5..8] + "/";
    if |v| > 12 then head + v[8..12] + "-" + v[12..] else head + v[8..]
  }

  /** The CPF/CNPJ field: digits only, at most fourteen, masked as a CPF up to eleven
      digits and as a CNPJ beyond; the mask keeps exactly the first fourteen typed
      digits. */
  function CpfCnpjMask(value: string): (r: string)
    ensures OnlyDigits(r) == Prefix(OnlyDigits(value), 14)
  {
    var v := Prefix(OnlyDigits(value), 14);
    PrefixOfDigits(OnlyDigits(value), 14);
    if |v| <= 11 then CpfDigits(v); CpfShape(v) else CnpjDigits(v); CnpjShape(v)
  }

  lemma CpfDigits(v: string)
    requires AllDigits(v) && |v| <= 11
    ensures OnlyDigits(CpfShape(v)) == v
  {
    OnlyDigitsIdentity(v);
    var n := |v|;
    if n > 9 {
      var a := v[..3] + "." + v[3..6] + "." + v[6..9];
      OnlyDigitsAround(a, "-", v[9..]);
      Joined3("", v[..3], ".", v[3..6], ".", v[6..9]);
      assert "" + v[..3] == v[..3];
      Pieces4(v, 3, 6, 9);
    } else if n > 6 {
      Joined3("", v[..3], ".", v[3..6], ".", v[6..]);
      assert "" + v[..3] == v[..3];
      Pieces3(v, 3, 6);
    } else if n > 3 {
      OnlyDigitsAround(v[..3], ".", v[3..]);
      Pieces2(v, 3);
    }
  }

  lemma CnpjDigits(v: string)
    requires AllDigits(v) && 12 <= |v| <= 14
    ensures OnlyDigits(CnpjShape(v)) == v
  {
    var front := v[..2] + "." + v[2..5] + "." + v[5..8];
    var back := if |v| > 12 then v[8..12] + "-" + v[12..] else v[8..];
    CnpjFront(v);
    CnpjBack(v);
    assert CnpjShape(v) == front + "/" + back;
    OnlyDigitsAround(front, "/", back);
    assert v[..8] + v[8..] == v;
  }

  lemma CnpjFront(v: string)
    requires AllDigits(v) && |v| >= 8
    ensures OnlyDigits(v[..2] + "." + v[2..5] + "." + v[5..8]) == v[..8]
  {
    var w := v[..8];
    assert AllDigits(w);
    Joined3("", w[..2], ".", w[2..5], ".", w[5..]);
    assert "" + w[..2] == w[..2];
    Pieces3(w, 2, 5);
    assert w[..2] == v[..2] && w[2..5] == v[2..5] && w[5..] == v[5..8];
  }

  lemma CnpjBack(v: string)
    requires AllDigits(v) && 12 <= |v| <= 14
    ensures OnlyDigits(if |v| > 12 then v[8..12] + "-" + v[12..] else v[8..]) == v[8..]
  {
    var w := v[8..];
    assert AllDigits(w);
    OnlyDigitsIdentity(w);
    if |v| > 12 {
      OnlyDigitsAround(w[..4], "-", w[4..]);
      Pieces2(w, 4);
      assert w[..4] == v[8..12] && w[4..] == v[12..];
    }
  }

  lemma CpfCnpjIdempotent(value: string)
    ensures CpfCnpjMask(CpfCnpjMask(value)) == CpfCnpjMask(value)
  {
  }

  /** Eleven digits give `ddd.ddd.ddd-dd`; fourteen give `dd.ddd.ddd/dddd-dd`. */
  lemma CpfCnpjFull(v: string)
    requires AllDigits(v) && (|v| == 11 || |v| == 14)
    ensures |v| == 11 ==> Fits(CpfCnpjMask(v), "000.000.000-00")
    ensures |v| == 14 ==> Fits(CpfCnpjMask(v), "00.000.000/0000-00")
  {
    OnlyDigitsIdentity(v);
    assert Prefix(OnlyDigits(v), 14) == v;
    if |v| == 11 {
      CpfFull(v);
    } else {
      CnpjFull(v);
    }
  }

  /** Three digit groups joined by dots fit the dotted placeholder. */
  lemma FitsDotted(a: string, b: string, c: string, za: string, zb: string, zc: string)
    requires AllDigits(a) && AllDigits(b) && AllDigits(c)
    requires |a| == |za| && |b| == |zb| && |c| == |zc|
    requires forall i :: 0 <= i < |za| ==> za[i] == '0'
    requires forall i :: 0 <= i < |zb| ==> zb[i] == '0'
    requires forall i :: 0 <= i < |zc| ==> zc[i] == '0'
    ensures Fits(a + "." + b + "." + c, za + "." + zb + "." + zc)
  {
    FitsThree("", a, ".", b, ".", c, za, zb, zc);
    assert "" + a == a && "" + za == za;
  }

  /** The first nine digits of a CPF fit "000.000.000". */
  lemma CpfFrontFits(v: string)
    requires AllDigits(v) && |v| == 11
    ensures Fits(v[..3] + "." + v[3..6] + "." + v[6..9], "000.000.000")
  {
    FitsDotted(v[..3], v[3..6], v[6..9], "000", "000", "000");
    assert "000" + "." + "000" + "." + "000" == "000.000.000";
  }

  lemma CpfFull(v: string)
    requires AllDigits(v) && |v| == 11
    ensures Fits(CpfShape(v), "000.000.000-00")
  {
    var front := v[..3] + "." + v[3..6] + "." + v[6..9];
    CpfFrontFits(v);
    FitsDigits(v[9..], "00");
    FitsAppend(front, "-", "000.000.000", "-");
    FitsAppend(front + "-", v[9..], "000.000.000-", "00");
    assert "000.000.000-" + "00" == "000.000.000-00";
  }

  /** The first eight digits of a CNPJ and the slash fit "00.000.000/". */
  lemma CnpjFrontFits(v: string)
    requires AllDigits(v) && |v| == 14
    ensures Fits(v[..2] + "." + v[2..5] + "." + v[5..8] + "/", "00.000.000/")
  {
    FitsDotted(v[..2], v[2..5], v[5..8], "00", "000", "000");
    FitsAppend(v[..2] + "." + v[2..5] + "." + v[5..8], "/", "00" + "." + "000" + "." + "000", "/");
    assert "00" + "." + "000" + "." + "000" + "/" == "00.000.000/";
  }

  /** The last six digits of a CNPJ fit "0000-00". */
  lemma CnpjBackFits(v: string)
    requires AllDigits(v) && |v| == 14
    ensures Fits(v[8..12] + "-" + v[12..], "0000-00")
  {
    FitsTwo(v[8..12], "-", v[12..], "0000", "00");
    assert "0000" + "-" + "00" == "0000-00";
  }

  lemma CnpjFull(v: string)
    requires AllDigits(v) && |v| == 14
    ensures Fits(CnpjShape(v), "00.000.000/0000-00")
  {
    var front := v[..2] + "." + v[2..5] + "." + v[5..8] + "/";
    var back := v[8..12] + "-" + v[12..];
    CnpjFrontFits(v);
    CnpjBackFits(v);
    FitsAppend(front, back, "00.000.000/", "0000-00");
    assert "00.000.000/" + "0000-00" == "00.000.000/0000-00";
    assert CnpjShape(v) == front + back;
  }



  // ---------------------------------------------------------------------------
  // Submitting the form
  // ---------------------------------------------------------------------------

  const PasswordMismatch := "As senhas não conferem."
  const DefaultSignupError := "Erro ao criar conta. Verifique os dados e tente novamente."
  const ConnectionError := "Erro de conexão com o servidor. Verifique se o backend está rodando na porta 8000."

  /** One entry of a validation error list: its location path and its message. */
  datatype Item = Item(loc: seq<string>, msg: string)

  /** The `detail` of an error response. */
  datatype Detail =
    | Absent                     // no body or no `detail`
    | Text(text: string)
    | Items(items: seq<Item>)
    | OtherJson(json: string)    // any other value, as `JSON.stringify` renders it

  /** How the registration request failed. */
  datatype Failure =
    | Response(detail: Detail)   // the server answered with an error status
    | NoResponse                 // the request was sent and nothing came back
    | Setup(message: string)     // the request could not be built

  datatype SignupOutcome = Created | Failed(failure: Failure)

  /** The body of the registration request. */
  datatype SignupRequest = SignupRequest(nome: string, email: string, cpf: string, senha: string, tipoPlano: string)

  /** The field label of a validation entry: the second location element, or
      "Campo" when it is missing or empty. */
  function ItemLabel(it: Item): (r: string)
    ensures r != []
    ensures |it.loc| > 1 && it.loc[1] != "" ==> r == it.loc[1]
  {
    if |it.loc| > 1 && it.loc[1] != "" then it.loc[1] else "Campo"
  }

  function ItemLine(it: Item): string {
    ItemLabel(it) + ": " + it.msg
  }

  function ItemLines(items: seq<Item>): (r: seq<string>)
    ensures |r| == |items|
    ensures forall i :: 0 <= i < |items| ==> r[i] == ItemLine(items[i])
  {
    seq(|items|, i requires 0 <= i < |items| => ItemLine(items[i]))
  }

  /** The alert shown when registration fails. */
  function ErrorMessage(f: Failure): string {
    match f
    case Response(d) =>
      (match d
       case Absent => DefaultSignupError
       case Text(s) => if s != "" then s else DefaultSignupError
       case Items(items) => Join(ItemLines(items), '\n')
       case OtherJson(json) => json)
    case NoResponse => ConnectionError
    case Setup(m) => m
  }

  /** A validation error list is shown one entry per line: when no label or message
      holds a line break, the alert has one line break fewer than there are entries. */
  lemma ValidationLines(items: seq<Item>)
    requires items != []
    requires forall i :: 0 <= i < |items| ==> Count(ItemLabel(items[i]), '\n') == 0 && Count(items[i].msg, '\n') == 0
    ensures Count(ErrorMessage(Response(Items(items))), '\n') == |items| - 1
  {
    var lines := ItemLines(items);
    forall i | 0 <= i < |lines|
      ensures Count(lines[i], '\n') == 0
    {
      CountAppend(ItemLabel(items[i]), ": ", '\n');
      CountAppend(ItemLabel(items[i]) + ": ", items[i].msg, '\n');
    }
    JoinCount(lines, '\n');
  }

  /** `` `${first} ${last}`.trim() ``. */
  function FullName(first: string, last: string): (r: string)
    ensures r != [] ==> !JsSpace(r[0]) && !JsSpace(r[|r| - 1])
    ensures |r| <= |first| + 1 + |last|
  {
    TrimJs(first + " " + last)
  }

  /** The name stored on sign-in when none is stored yet: the part of the email
      before the first '@' with its first letter upper-cased, or "Usuário" when the
      email is empty. */
  function LoginName(email: string): (r: string)
    ensures email == [] ==> r == "Usuário"
    ensures email != [] ==> |r| <= |email| && (|r| < |email| ==> email[|r|] == '@')
    ensures email != [] ==> forall i :: 0 <= i < |r| ==> r[i] != '@' && r[i] == (if i == 0 then UpperChar(email[0]) else email[i])
  {
    if email == [] then "Usuário"
    else
      var local := BeforeFirst(email, '@');
      if local == [] then [] else [UpperChar(local[0])] + local[1..]
  }

  /** The keys written to the browser storage by a successful registration: the
      plan and the email, the name and the phone when they are non-empty; every
      other key is left as it was. */
  function SignedUpStorage(stored: map<string, string>, nome: string, plano: string, email: string, phone: string)
    : (r: map<string, string>)
    ensures "userPlan" in r && r["userPlan"] == plano && "userEmail" in r && r["userEmail"] == email
    ensures nome != [] ==> "userName" in r && r["userName"] == nome
    ensures phone != [] ==> "userPhone" in r && r["userPhone"] == phone
    ensures forall k :: k in stored ==> k in r
    ensures forall k :: k in r && k !in {"userPlan", "userEmail"} && (k != "userName" || nome == []) && (k != "userPhone" || phone == [])
              ==> k in stored && r[k] == stored[k]
  {
    var named := if nome != [] then stored["userName" := nome] else stored;
    var planned := named["userPlan" := plano]["userEmail" := email];
    if phone != [] then planned["userPhone" := phone] else planned
  }

  /** The keys written on sign-in: a stored non-empty name is kept and otherwise
      the name derived from the email is stored; a non-empty email is stored;
      every other key is unchanged. */
  function SignedInStorage(stored: map<string, string>, email: string): (r: map<string, string>)
    ensures "userName" in r
    ensures "userName" in stored && stored["userName"] != [] ==> r["userName"] == stored["userName"]
    ensures !("userName" in stored && stored["userName"] != []) ==> r["userName"] == LoginName(email)
    ensures email != [] ==> "userEmail" in r && r["userEmail"] == email
    ensures forall k :: k in stored ==> k in r
    ensures forall k :: k in r && k != "userName" && k != "userEmail" ==> k in stored && r[k] == stored[k]
  {
    var named := if "userName" in stored && stored["userName"] != [] then stored else stored["userName" := LoginName(email)];
    if email != [] then named["userEmail" := email] else named
  }

  /** The text inputs of the form when it is submitted. */
  datatype Form = Form(email: string, password: string, confirmPassword: string, firstName: string,
                       lastName: string, phone: string, cpf: string, plano: string)

  /** What submitting the form does: the request sent (if any), the alert shown,
      the storage afterwards and the route requested. */
  datatype Effect = Effect(request: Option<SignupRequest>, alert: Option<string>,
                           storage: map<string, string>, route: Option<string>)

  /** Sign-up. Differing passwords stop it before any request; otherwise the
      request carries the trimmed full name and the CPF digits, and the storage and
      route change only when the server created the account. */
  function SignUpEffect(f: Form, stored: map<string, string>, route: Option<string>, outcome: SignupOutcome)
    : (r: Effect)
    ensures f.password != f.confirmPassword <==> r.request == None
    ensures r.request == None ==> r.alert == Some(PasswordMismatch)
    ensures r.request.Some? ==>
              r.request.value == SignupRequest(FullName(f.firstName, f.lastName), f.email, OnlyDigits(f.cpf), f.password, f.plano)
    ensures r.request.Some? ==> AllDigits(r.request.value.cpf)
    ensures r.storage != stored || r.route != route ==> r.request.Some? && outcome.Created?
    ensures r.request.Some? && outcome.Created? ==>
              r.alert == None && r.route == Some(if f.plano == "gratuito" then "/app" else "/pagamento")
              && r.storage == SignedUpStorage(stored, FullName(f.firstName, f.lastName), f.plano, f.email, f.phone)
    ensures r.request.Some? && outcome.Failed? ==> r.alert == Some(ErrorMessage(outcome.failure))
  {
    if f.password != f.confirmPassword then Effect(None, Some(PasswordMismatch), stored, route)
    else
      var nome := FullName(f.firstName, f.lastName);
      var request := SignupRequest(nome, f.email, OnlyDigits(f.cpf), f.password, f.plano);
      match outcome
      case Created =>
        Effect(Some(request), None, SignedUpStorage(stored, nome, f.plano, f.email, f.phone),
               Some(if f.plano == "gratuito" then "/app" else "/pagamento"))
      case Failed(e) => Effect(Some(request), Some(ErrorMessage(e)), stored, route)
  }

  /** Sign-in sends nothing and always proceeds to the application. */
  function SignInEffect(f: Form, stored: map<string, string>): (r: Effect)
    ensures r.request == None && r.alert == None && r.route == Some("/app")
    ensures r.storage == SignedInStorage(stored, f.email)
  {
    Effect(None, None, SignedInStorage(stored, f.email), Some("/app"))
  }

  /** The state of the sign-in / sign-up page. The browser storage is the
      `storage` map and navigation is the `route` last requested. */
  class LoginPage {
    var isLogin: bool
    var email: string
    var password: string
    var confirmPassword: string
    var firstName: string
    var lastName: string
    var phone: string
    var country: string
    var cpf: string
    var plano: string
    var language: Lang
    var alert: Option<string>
    var storage: map<string, string>
    var route: Option<string>

    constructor(stored: map<string, string>, lang: Lang)
      ensures isLogin && email == [] && password == [] && confirmPassword == []
      ensures firstName == [] && lastName == [] && phone == [] && cpf == []
      ensures country == "Brasil" && plano == "gratuito" && language == lang
      ensures alert == None && storage == stored && route == None
    {
      isLogin, email, password, confirmPassword := true, [], [], [];
      firstName, lastName, phone, cpf := [], [], [], [];
      country, plano, language := "Brasil", "gratuito", lang;
      alert, storage, route := None, stored, None;
    }

    function Inputs(): Form
      reads this
    {
      Form(email, password, confirmPassword, firstName, lastName, phone, cpf, plano)
    }

    method CpfChange(value: string)
      modifies this`cpf
      ensures cpf == CpfCnpjMask(value)
    {
      cpf := CpfCnpjMask(value);
    }

    method PhoneChange(value: string)
      modifies this`phone
      ensures phone == PhoneFormat(country, value)
    {
      phone := PhoneFormat(country, value);
    }

    /** Selecting a country clears the phone and, for a configured country,
        switches the interface language. */
    method CountryChange(name: string)
      modifies this`country, this`phone, this`language
      ensures country == name && phone == []
      ensures language == match CountryOf(name) case Some(c) => Language(c) case None => old(language)
    {
      country := name;
      phone := [];
      var config := CountryOf(name);
      if config.Some? {
        language := Language(config.value);
      }
    }

    /** Submits the form. On sign-up the registration request is returned and
        `outcome` is what the server made of it. */
    method Auth(outcome: SignupOutcome) returns (request: Option<SignupRequest>)
      modifies this`alert, this`storage, this`route
      ensures var e := if isLogin then SignInEffect(old(Inputs()), old(storage))
                       else SignUpEffect(old(Inputs()), old(storage), old(route), outcome);
              request == e.request && alert == e.alert && storage == e.storage && route == e.route
    {
      var e;
      if isLogin {
        e := SignInEffect(Inputs(), storage);
      } else {
        e := SignUpEffect(Inputs(), storage, route, outcome);
      }
      request, alert, storage, route := e.request, e.alert, e.storage, e.route;
    }
  }
}
