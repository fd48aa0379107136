/** The registry-payload normaliser of src/lib/cnpj.ts: `safeString`,
    `pickValue` and `buildCnpjData`, over a JSON-like payload. */
module CnpjLib {
  import opened JsText

  /** A JSON value as the normaliser sees it: a string, an (integral) number,
      an array of objects, or anything else (null, a boolean, an object). A key
      that is absent from a payload map stands for `undefined`. A number is exact
      only within Number.MAX_SAFE_INTEGER (2^53 - 1); see README for larger ones. */
  datatype Value = Str(s: string) | Num(n: int) | List(entries: seq<map<string, Value>>) | Other

  /** The display record: eight text fields. */
  datatype CnpjData = CnpjData(
    razaoSocial: string,
    situacaoCadastral: string,
    cnaePrincipal: string,
    logradouro: string,
    numero: string,
    municipio: string,
    porteEmpresa: string,
    nomeSocio: string)
  {
    /** Every field holds text a form can show: none is empty and none is padded. */
    predicate WellFormed() {
      Displayable(razaoSocial) && Displayable(situacaoCadastral) && Displayable(cnaePrincipal)
      && Displayable(logradouro) && Displayable(numero) && Displayable(municipio)
      && Displayable(porteEmpresa) && Displayable(nomeSocio)
    }
  }

  // Candidate keys, in the order they are consulted.
  const RazaoSocialKeys: seq<string> := ["razao_social", "razaoSocial"]
  const SituacaoCadastralKeys: seq<string> := ["situacao_cadastral", "situacaoCadastral"]
  const CnaePrincipalKeys: seq<string> := ["cnae_principal", "cnaePrincipal"]
  const LogradouroKeys: seq<string> := ["logradouro"]
  const NumeroKeys: seq<string> := ["numero"]
  const MunicipioKeys: seq<string> := ["municipio"]
  const PorteEmpresaKeys: seq<string> := ["porte_empresa", "porteEmpresa"]
  const NomeSocioKeys: seq<string> := ["nome_socio", "nomeSocio"]
  const QsaKey: string := "QSA"

  /** Placeholder for a field with no usable value. */
  const Placeholder: string := "-"

  /** The test `pickValue` applies to each candidate: a string that is not blank, or a number. */
  predicate Usable(v: Value) {
    match v
    case Str(s) => |Trim(s)| > 0
    case Num(_) => true
    case _ => false
  }

  predicate UsableAt(source: map<string, Value>, key: string) {
    key in source && Usable(source[key])
  }

  /** `safeString`: strings trimmed, numbers in decimal, everything else "". */
  function SafeString(v: Value): (r: string)
    ensures Trimmed(r)
    ensures r != [] <==> Usable(v)
    ensures v.Num? ==> IsNumeral(r) && ParseDecimal(r) == v.n
  {
    match v
    case Str(s) => TrimSpec(s); Trim(s)
    case Num(n) => DecimalRoundTrip(n); IntToDecimal(n)
    case _ => ""
  }

  /** A string's text is cut from it: only a whitespace prefix and suffix are removed. */
  lemma SafeStringCutsInput(v: Value)
    requires v.Str?
    ensures CoreOf(SafeString(v), v.s)
  {
    TrimSpec(v.s);
  }

  /** `pickValue`: the value under the first candidate key whose value is usable,
      or the empty string when there is none. */
  function PickValue(source: map<string, Value>, keys: seq<string>): (r: Value)
    ensures Usable(r) || r == Str("")
    ensures r == Str("") <==> forall i :: 0 <= i < |keys| ==> !UsableAt(source, keys[i])
  {
    if keys == [] then Str("")
    else if UsableAt(source, keys[0]) then source[keys[0]]
    else
      var r := PickValue(source, keys[1..]);
      assert forall i :: 1 <= i < |keys| ==> keys[i] == keys[1..][i - 1];
      r
  }

  /** The first usable candidate wins: keys after it are never consulted. */
  lemma {:induction false} PickValueFirst(source: map<string, Value>, keys: seq<string>, i: nat)
    requires i < |keys| && UsableAt(source, keys[i])
    requires forall j :: 0 <= j < i ==> !UsableAt(source, keys[j])
    ensures PickValue(source, keys) == source[keys[i]]
  {
    if i > 0 {
      assert !UsableAt(source, keys[0]);
      forall j | 0 <= j < i - 1 ensures !UsableAt(source, keys[1..][j]) {
        assert keys[1..][j] == keys[j + 1];
      }
      PickValueFirst(source, keys[1..], i - 1);
    }
  }

  /** `x || "-"` on a string: text that can already be shown is kept, and only the
      empty string is replaced. */
  function OrPlaceholder(s: string): (r: string)
    requires Trimmed(s)
    ensures Displayable(r)
    ensures Displayable(s) ==> r == s
    ensures !Displayable(s) ==> r == Placeholder
  {
    if s == [] then Placeholder else s
  }

  /** One ordinary field of the record: the picked value as a string, or "-". */
  function Field(source: map<string, Value>, keys: seq<string>): (r: string)
    ensures Displayable(r)
  {
    OrPlaceholder(SafeString(PickValue(source, keys)))
  }

  /** A field none of whose candidate keys holds a usable value is exactly "-". */
  lemma FieldMissing(source: map<string, Value>, keys: seq<string>)
    requires forall i :: 0 <= i < |keys| ==> !UsableAt(source, keys[i])
    ensures Field(source, keys) == Placeholder
  {
  }

  /** Otherwise the field is the text of the first usable candidate: later keys are not consulted. */
  lemma FieldFirstUsable(source: map<string, Value>, keys: seq<string>, i: nat)
    requires i < |keys| && UsableAt(source, keys[i])
    requires forall j :: 0 <= j < i ==> !UsableAt(source, keys[j])
    ensures Field(source, keys) == SafeString(source[keys[i]])
    ensures Displayable(SafeString(source[keys[i]]))
  {
    PickValueFirst(source, keys, i);
  }

  /** The partner name picked from each QSA entry, in entry order. */
  function EntryNames(entries: seq<map<string, Value>>): (names: seq<string>)
    ensures |names| == |entries|
    ensures forall i :: 0 <= i < |entries| ==>
      names[i] == SafeString(PickValue(entries[i], NomeSocioKeys)) && Trimmed(names[i])
  {
    if entries == [] then []
    else
      var tail := EntryNames(entries[1..]);
      assert forall i :: 1 <= i < |entries| ==> entries[i] == entries[1..][i - 1];
      [SafeString(PickValue(entries[0], NomeSocioKeys))] + tail
  }

  /** `.filter(Boolean)` on strings: drops the empty ones. */
  function NonEmpty(xs: seq<string>): (r: seq<string>)
    ensures |r| <= |xs|
    ensures forall i :: 0 <= i < |r| ==> r[i] != []
    ensures (forall i :: 0 <= i < |xs| ==> Trimmed(xs[i])) ==> forall i :: 0 <= i < |r| ==> Trimmed(r[i])
    ensures r == [] <==> forall i :: 0 <= i < |xs| ==> xs[i] == []
  {
    if xs == [] then []
    else
      var tail := NonEmpty(xs[1..]);
      assert forall i :: 1 <= i < |xs| ==> xs[i] == xs[1..][i - 1];
      if xs[0] == [] then tail else [xs[0]] + tail
  }

  /** Filtering works piece by piece, so it keeps the order of what it keeps. */
  lemma {:induction false} NonEmptyAppend(xs: seq<string>, ys: seq<string>)
    ensures NonEmpty(xs + ys) == NonEmpty(xs) + NonEmpty(ys)
  {
    if xs == [] {
      assert xs + ys == ys;
    } else {
      var zs := xs + ys;
      assert zs[0] == xs[0] && zs[1..] == xs[1..] + ys;
      NonEmptyAppend(xs[1..], ys);
    }
  }

  /** True when the payload's QSA is an array with at least one entry. */
  predicate HasPartnerList(payload: map<string, Value>) {
    QsaKey in payload && payload[QsaKey].List? && |payload[QsaKey].entries| > 0
  }

  /** The names of a QSA list: each entry's picked name, blanks dropped, joined with ", ". */
  function ListedNames(entries: seq<map<string, Value>>): (r: string)
    ensures Trimmed(r)
  {
    var names := NonEmpty(EntryNames(entries));
    if names != [] then JoinDisplayable(names, ", "); Join(names, ", ")
    else Join(names, ", ")
  }

  /** The partner names before the "-" fallback: the listed names when QSA is a
      non-empty array, the top-level name otherwise. */
  function PartnerNames(payload: map<string, Value>): (r: string)
    ensures Trimmed(r)
  {
    if HasPartnerList(payload) then ListedNames(payload[QsaKey].entries)
    else SafeString(PickValue(payload, NomeSocioKeys))
  }

  /** `buildCnpjData` */
  function BuildCnpjData(payload: map<string, Value>): (r: CnpjData)
    ensures r.WellFormed()
  {
    var r := CnpjData(
      Field(payload, RazaoSocialKeys),
      Field(payload, SituacaoCadastralKeys),
      Field(payload, CnaePrincipalKeys),
      Field(payload, LogradouroKeys),
      Field(payload, NumeroKeys),
      Field(payload, MunicipioKeys),
      Field(payload, PorteEmpresaKeys),
      OrPlaceholder(PartnerNames(payload)));
    assert Displayable(r.razaoSocial);
    assert Displayable(r.situacaoCadastral);
    assert Displayable(r.cnaePrincipal);
    assert Displayable(r.logradouro);
    assert Displayable(r.numero);
    assert Displayable(r.municipio);
    assert Displayable(r.porteEmpresa);
    assert Displayable(r.nomeSocio);
    r
  }

  // ------------------------------------------------------------ properties

  /** A field reads its candidate keys and nothing else. */
  lemma {:induction false} PickValueReadsOnlyKeys(p: map<string, Value>, q: map<string, Value>, keys: seq<string>)
    requires forall i :: 0 <= i < |keys| ==>
      (keys[i] in p <==> keys[i] in q) && (keys[i] in p ==> p[keys[i]] == q[keys[i]])
    ensures PickValue(p, keys) == PickValue(q, keys)
  {
    if keys != [] {
      assert keys[0] in p <==> keys[0] in q;
      forall i | 0 <= i < |keys[1..]|
        ensures (keys[1..][i] in p <==> keys[1..][i] in q) && (keys[1..][i] in p ==> p[keys[1..][i]] == q[keys[1..][i]])
      {
        assert keys[1..][i] == keys[i + 1];
      }
      PickValueReadsOnlyKeys(p, q, keys[1..]);
    }
  }

  /** logradouro, numero and municipio consult one key each: no other key, camelCase or not,
      changes them. */
  lemma SingleKeyFieldsIgnoreOtherKeys(payload: map<string, Value>, k: string, v: Value)
    ensures k != "logradouro" ==> BuildCnpjData(payload[k := v]).logradouro == BuildCnpjData(payload).logradouro
    ensures k != "numero" ==> BuildCnpjData(payload[k := v]).numero == BuildCnpjData(payload).numero
    ensures k != "municipio" ==> BuildCnpjData(payload[k := v]).municipio == BuildCnpjData(payload).municipio
  {
    var q := payload[k := v];
    if k != "logradouro" { PickValueReadsOnlyKeys(q, payload, LogradouroKeys); }
    if k != "numero" { PickValueReadsOnlyKeys(q, payload, NumeroKeys); }
    if k != "municipio" { PickValueReadsOnlyKeys(q, payload, MunicipioKeys); }
  }

  /** With a snake_case and a camelCase candidate, a usable snake_case value wins;
      the camelCase value is used only when the snake_case one is missing or blank. */
  lemma SnakeCaseFirst(payload: map<string, Value>, snake: string, camel: string)
    requires UsableAt(payload, snake) || UsableAt(payload, camel)
    ensures UsableAt(payload, snake) ==> Field(payload, [snake, camel]) == SafeString(payload[snake])
    ensures !UsableAt(payload, snake) ==> Field(payload, [snake, camel]) == SafeString(payload[camel])
  {
    if UsableAt(payload, snake) {
      FieldFirstUsable(payload, [snake, camel], 0);
    } else {
      FieldFirstUsable(payload, [snake, camel], 1);
    }
  }

  lemma {:induction false} EntryNamesAppend(a: seq<map<string, Value>>, b: seq<map<string, Value>>)
    ensures EntryNames(a + b) == EntryNames(a) + EntryNames(b)
  {
    if a == [] {
      assert a + b == b;
    } else {
      assert (a + b)[0] == a[0] && (a + b)[1..] == a[1..] + b;
      EntryNamesAppend(a[1..], b);
    }
  }

  /** The name a single QSA entry contributes: its picked name, or nothing when blank. */
  lemma ListedNamesSingle(entry: map<string, Value>)
    ensures ListedNames([entry]) == SafeString(PickValue(entry, NomeSocioKeys))
  {
    var all := EntryNames([entry]);
    assert all == [SafeString(PickValue(entry, NomeSocioKeys))];
    if all[0] == [] {
      assert NonEmpty(all) == NonEmpty(all[1..]);
      assert all[1..] == [];
    } else {
      assert NonEmpty(all) == [all[0]] + NonEmpty(all[1..]);
      assert all[1..] == [];
    }
  }

  /** Entries keep their order: the names of a concatenation are the names of the first
      part, ", ", then the names of the second. With ListedNamesSingle this determines
      ListedNames completely. */
  lemma ListedNamesAppend(a: seq<map<string, Value>>, b: seq<map<string, Value>>)
    ensures ListedNames(a) == [] ==> ListedNames(a + b) == ListedNames(b)
    ensures ListedNames(b) == [] ==> ListedNames(a + b) == ListedNames(a)
    ensures ListedNames(a) != [] && ListedNames(b) != [] ==>
      ListedNames(a + b) == ListedNames(a) + ", " + ListedNames(b)
  {
    EntryNamesAppend(a, b);
    var na, nb := NonEmpty(EntryNames(a)), NonEmpty(EntryNames(b));
    NonEmptyAppend(EntryNames(a), EntryNames(b));
    assert NonEmpty(EntryNames(a + b)) == na + nb;
    if na == [] {
      assert na + nb == nb;
    } else if nb == [] {
      assert na + nb == na;
    } else {
      JoinAppend(na, nb, ", ");
    }
  }

  /** A non-empty QSA list decides the partner field alone: the top-level name keys
      are not consulted. */
  lemma PartnerListIgnoresTopLevel(payload: map<string, Value>, k: string, v: Value)
    requires HasPartnerList(payload) && k != QsaKey
    ensures BuildCnpjData(payload[k := v]).nomeSocio == BuildCnpjData(payload).nomeSocio
  {
    assert payload[k := v][QsaKey] == payload[QsaKey];
  }

  /** An entry without a usable name under either key. */
  predicate Nameless(entry: map<string, Value>) {
    !UsableAt(entry, "nome_socio") && !UsableAt(entry, "nomeSocio")
  }

  /** When every QSA entry is nameless the partner field is "-", even if the payload has
      a usable top-level name: the top-level name is not a fallback for a blank list. */
  lemma NamelessListGivesPlaceholder(payload: map<string, Value>)
    requires HasPartnerList(payload)
    requires forall i :: 0 <= i < |payload[QsaKey].entries| ==> Nameless(payload[QsaKey].entries[i])
    ensures BuildCnpjData(payload).nomeSocio == Placeholder
  {
    var entries := payload[QsaKey].entries;
    var all := EntryNames(entries);
    forall i | 0 <= i < |all| ensures all[i] == [] {
      assert Nameless(entries[i]);
      assert forall j :: 0 <= j < |NomeSocioKeys| ==> !UsableAt(entries[i], NomeSocioKeys[j]);
    }
  }

  /** Without a non-empty QSA list (absent, not an array, or empty) the partner field is
      an ordinary field over the top-level name keys. */
  lemma NoPartnerListUsesTopLevel(payload: map<string, Value>)
    requires !HasPartnerList(payload)
    ensures BuildCnpjData(payload).nomeSocio == Field(payload, NomeSocioKeys)
  {
  }

  // ------------------------------------------------------------ examples

  /** A blank snake_case value gives way to the camelCase one. */
  lemma ExampleBlankSnakeCase(p: map<string, Value>)
    requires p == map["razao_social" := Str("  "), "razaoSocial" := Str("B")]
    ensures Field(p, RazaoSocialKeys) == "B"
  {
    assert p["razao_social"] == Str("  ");
    assert !UsableAt(p, "razao_social") by { assert AllWhitespace("  "); }
    TrimOfTrimmed("B");
    assert UsableAt(p, "razaoSocial");
    SnakeCaseFirst(p, "razao_social", "razaoSocial");
  }

  /** Both keys usable: the snake_case one is taken. */
  lemma ExampleSnakeCaseWins(p: map<string, Value>)
    requires p == map["razao_social" := Str("A"), "razaoSocial" := Str("B")]
    ensures Field(p, RazaoSocialKeys) == "A"
  {
    TrimOfTrimmed("A");
    assert UsableAt(p, "razao_social");
    SnakeCaseFirst(p, "razao_social", "razaoSocial");
  }

  /** A QSA entry named under one of the two keys contributes that name. */
  lemma ExampleNamedEntry(entry: map<string, Value>, key: string, name: string)
    requires key in NomeSocioKeys && Displayable(name)
    requires entry == map[key := Str(name)]
    ensures ListedNames([entry]) == name
  {
    TrimOfTrimmed(name);
    assert UsableAt(entry, key);
    if key == "nome_socio" {
      PickValueFirst(entry, NomeSocioKeys, 0);
    } else {
      assert !UsableAt(entry, "nome_socio");
      PickValueFirst(entry, NomeSocioKeys, 1);
    }
    ListedNamesSingle(entry);
  }

  /** A QSA entry whose name is blank contributes nothing. */
  lemma ExampleBlankEntry(entry: map<string, Value>)
    requires entry == map["nome_socio" := Str("  ")]
    ensures ListedNames([entry]) == ""
  {
    assert entry["nome_socio"] == Str("  ");
    assert AllWhitespace("  ");
    assert Nameless(entry);
    assert forall j :: 0 <= j < |NomeSocioKeys| ==> !UsableAt(entry, NomeSocioKeys[j]);
    ListedNamesSingle(entry);
  }

  /** Two parts that each name someone are joined with one ", " (ListedNamesAppend
      for the case the examples use). */
  lemma ListedNamesPair(a: seq<map<string, Value>>, b: seq<map<string, Value>>, x: string, y: string)
    requires ListedNames(a) == x && ListedNames(b) == y && x != [] && y != []
    ensures ListedNames(a + b) == x + ", " + y
  {
    ListedNamesAppend(a, b);
  }

  /** A part that names nobody adds nothing (ListedNamesAppend for the case the
      examples use). */
  lemma ListedNamesBlankTail(a: seq<map<string, Value>>, b: seq<map<string, Value>>, x: string)
    requires ListedNames(a) == x && ListedNames(b) == []
    ensures ListedNames(a + b) == x
  {
    ListedNamesAppend(a, b);
  }

  /** The literal concatenation ExamplePartnerPair relies on, stated on its own so
      that the example's proof stays small. */
  lemma JaneAndJoe()
    ensures "Jane" + ", " + "Joe" == "Jane, Joe"
  {
  }

  /** Two named entries are joined in order. */
  lemma ExamplePartnerPair(e1: map<string, Value>, e2: map<string, Value>)
    requires e1 == map["nome_socio" := Str("Jane")]
    requires e2 == map["nomeSocio" := Str("Joe")]
    ensures ListedNames([e1, e2]) == "Jane, Joe"
  {
    ExampleNamedEntry(e1, "nome_socio", "Jane");
    ExampleNamedEntry(e2, "nomeSocio", "Joe");
    ListedNamesPair([e1], [e2], "Jane", "Joe");
    JaneAndJoe();
    assert [e1] + [e2] == [e1, e2];
  }

  /** Partner entries are joined in order and blank ones dropped. */
  lemma ExamplePartnerList(e1: map<string, Value>, e2: map<string, Value>, e3: map<string, Value>)
    requires e1 == map["nome_socio" := Str("Jane")]
    requires e2 == map["nomeSocio" := Str("Joe")]
    requires e3 == map["nome_socio" := Str("  ")]
    ensures ListedNames([e1, e2, e3]) == "Jane, Joe"
  {
    ExamplePartnerPair(e1, e2);
    ExampleBlankEntry(e3);
    ListedNamesBlankTail([e1, e2], [e3], "Jane, Joe");
    assert [e1, e2] + [e3] == [e1, e2, e3];
  }

  /** Without a QSA list the top-level camelCase name is the record's partner field. */
  lemma ExampleTopLevelPartner(p: map<string, Value>)
    requires p == map["nomeSocio" := Str("Ana")]
    ensures BuildCnpjData(p).nomeSocio == "Ana"
  {
    TrimOfTrimmed("Ana");
    assert !UsableAt(p, "nome_socio") && UsableAt(p, "nomeSocio");
    FieldFirstUsable(p, NomeSocioKeys, 1);
    assert !HasPartnerList(p);
    NoPartnerListUsesTopLevel(p);
  }

  /** A body with no usable key at all (an empty object, or a string, number, boolean
      or array body, which reads `undefined` under every key) gives "-" everywhere. */
  lemma EmptyPayload()
    ensures BuildCnpjData(map[]) == CnpjData("-", "-", "-", "-", "-", "-", "-", "-")
  {
    var p: map<string, Value> := map[];
    FieldMissing(p, RazaoSocialKeys);
    FieldMissing(p, SituacaoCadastralKeys);
    FieldMissing(p, CnaePrincipalKeys);
    FieldMissing(p, LogradouroKeys);
    FieldMissing(p, NumeroKeys);
    FieldMissing(p, MunicipioKeys);
    FieldMissing(p, PorteEmpresaKeys);
    FieldMissing(p, NomeSocioKeys);
    NoPartnerListUsesTopLevel(p);
  }

  /** The decimal rendering ExampleNumber relies on: 116 is written "116". */
  lemma Decimal116()
    ensures IntToDecimal(116) == "116"
  {
    assert NatToDecimal(11) == "11";
  }

  /** A payload with only the camelCase name and status, as the registry may send it. */
  predicate CamelCaseOnly(p: map<string, Value>) {
    p == map["razaoSocial" := Str("ACME LTDA"), "situacaoCadastral" := Str("ATIVA")]
  }

  /** Its name is the camelCase value... */
  lemma ExampleCamelCaseName(p: map<string, Value>)
    requires CamelCaseOnly(p)
    ensures Field(p, RazaoSocialKeys) == "ACME LTDA"
  {
    TrimOfTrimmed("ACME LTDA");
    assert !UsableAt(p, "razao_social") && UsableAt(p, "razaoSocial");
    FieldFirstUsable(p, RazaoSocialKeys, 1);
  }

  /** ...so is its status... */
  lemma ExampleCamelCaseStatus(p: map<string, Value>)
    requires CamelCaseOnly(p)
    ensures Field(p, SituacaoCadastralKeys) == "ATIVA"
  {
    TrimOfTrimmed("ATIVA");
    assert !UsableAt(p, "situacao_cadastral") && UsableAt(p, "situacaoCadastral");
    FieldFirstUsable(p, SituacaoCadastralKeys, 1);
  }

  /** ...and a field it lacks is "-". */
  lemma ExampleCamelCaseMissing(p: map<string, Value>)
    requires CamelCaseOnly(p)
    ensures Field(p, CnaePrincipalKeys) == Placeholder
  {
    assert !UsableAt(p, "cnae_principal") && !UsableAt(p, "cnaePrincipal");
    FieldMissing(p, CnaePrincipalKeys);
  }

  /** A number is rendered in decimal. */
  lemma ExampleNumber(p: map<string, Value>)
    requires p == map["numero" := Num(116)]
    ensures Field(p, NumeroKeys) == "116"
  {
    assert UsableAt(p, "numero");
    FieldFirstUsable(p, NumeroKeys, 0);
    Decimal116();
  }
}
