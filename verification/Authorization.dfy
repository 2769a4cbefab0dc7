/** Compiling a gate authorization from a template and trusted bindings, and parsing it in the gate. */
module Authorization {
  import opened Options
  import opened CodePoints

  /** JSON values as both programs load them; objects have distinct keys, and their order decides nothing here. */
  datatype Value =
    | Null
    | Bool(b: bool)
    | Num(n: int)
    | Text(t: Line)
    | List(items: seq<Value>)
    | Dict(fields: map<Line, Value>)

  function Get(fields: map<Line, Value>, key: string): Value {
    if Str(key) in fields then fields[Str(key)] else Null
  }

  // --------------------------------------------------------------------------- syntax

  predicate IsUpper(u: Char) { 65 <= u <= 90 }
  predicate IsLower(u: Char) { 97 <= u <= 122 }
  predicate IsDigit(u: Char) { 48 <= u <= 57 }

  predicate SafeId(t: Line) {
    1 <= |t| <= 128
    && forall i :: 0 <= i < |t| ==> IsUpper(t[i]) || IsLower(t[i]) || IsDigit(t[i]) || t[i] == 95 || t[i] == 45
  }

  predicate IsKebab(t: Line) {
    t != [] && t[0] != 45 && t[|t| - 1] != 45
    && forall i :: 0 <= i < |t| ==> IsLower(t[i]) || IsDigit(t[i]) || t[i] == 45
  }

  predicate SafeSlug(t: Line) { IsKebab(t) && |t| <= 128 }
  predicate SafeAlias(t: Line) { IsKebab(t) && |t| <= 64 }

  predicate SafeEnv(t: Line) {
    1 <= |t| <= 128 && IsUpper(t[0]) && forall i :: 0 <= i < |t| ==> IsUpper(t[i]) || IsDigit(t[i]) || t[i] == 95
  }

  const TARGETS: set<Line> := {
    Str("receipts:verify"), Str("receipts:bundle"), Str("receipts:anchor"), Str("quality:citation"),
    Str("quality:authority"), Str("receipts:facade"), Str("receipts:deadline"), Str("matters:classification:write"),
    Str("matters:classification:read"), Str("egress:send_email"), Str("egress:share_external"), UPLOAD,
    Str("egress:query_external_model"), Str("egress:file_court_document"), Str("egress:sign_document"),
    Str("egress:send_payment"), Str("egress:delete_external_resource")}
  const UPLOAD: Line := Str("egress:upload_document")

  /** Control characters and the slash, which neither program lets into a vendor id. */
  predicate Forbidden(u: Char) { u == 47 || u <= 0x1f || u == 0x7f }

  /** The compiler's test: Python's whitespace, and a length in code points. */
  predicate CompilerSafe(v: Line) {
    1 <= |v| <= 512 && forall i :: 0 <= i < |v| ==> !Forbidden(v[i]) && !IsSpace(v[i])
  }

  const BOM: Char := 0xfeff

  /** ECMAScript's whitespace. */
  predicate IsJsSpace(u: Char) {
    9 <= u <= 13 || u == 32 || u == 0xa0 || u == 0x1680 || 0x2000 <= u <= 0x200a || u == 0x2028 || u == 0x2029
    || u == 0x202f || u == 0x205f || u == 0x3000 || u == BOM
  }

  /** Length in UTF-16 code units. */
  function Utf16Length(v: Line): nat {
    if v == [] then 0 else Utf16Length(v[..|v| - 1]) + (if v[|v| - 1] >= 0x1_0000 then 2 else 1)
  }

  /** The gate's test: ECMAScript's whitespace, and a length in code units. */
  predicate GateSafe(v: Line) {
    1 <= Utf16Length(v) <= 512 && forall i :: 0 <= i < |v| ==> !Forbidden(v[i]) && !IsJsSpace(v[i])
  }

  /** The two tests part on the byte order mark and on long ids outside the basic plane. */
  predicate Portable(v: Line) { BOM !in v && Utf16Length(v) <= 512 }

  lemma {:induction false} Utf16AtLeast(v: Line)
    ensures Utf16Length(v) >= |v|
  {
    if v != [] { Utf16AtLeast(v[..|v| - 1]); }
  }

  /** An id the compiler takes is taken by the gate exactly when it is portable. */
  lemma VendorIdIff(v: Line)
    requires CompilerSafe(v)
    ensures GateSafe(v) <==> Portable(v)
  {
    Utf16AtLeast(v);
  }

  /** An id the compiler lets through and the gate refuses. */
  lemma VendorIdsDiffer()
    ensures CompilerSafe([BOM]) && !GateSafe([BOM])
  {}

  // ------------------------------------------------------------------------- bindings

  /** Python's truth of a JSON value. */
  predicate Truthy(v: Value) {
    match v
    case Null => false
    case Bool(b) => b
    case Num(n) => n != 0
    case Text(t) => t != []
    case List(items) => items != []
    case Dict(fields) => fields.Keys != {}
  }

  function FirstTruthy(a: Value, b: Value, c: Value): Value {
    if Truthy(a) then a else if Truthy(b) then b else c
  }

  function AgentList(document: Value): (r: Option<seq<Value>>)
    ensures r.Some? ==> r.value != [] && forall i :: 0 <= i < |r.value| ==> r.value[i].Dict?
  {
    var raw := match document
      case List(_) => document
      case Dict(f) => FirstTruthy(Get(f, "agents"), Get(f, "data"), Get(f, "items"))
      case _ => Null;
    if raw.List? && raw.items != [] && (forall i :: 0 <= i < |raw.items| ==> raw.items[i].Dict?) then Some(raw.items)
    else None
  }

  function TextOf(v: Value): Line { if v.Text? then v.t else [] }

  /** The package slug and immutable id an entry of an import response binds. */
  predicate BindsOk(v: Value, catalog: set<Line>) {
    v.Dict? &&
    var slug, id := Get(v.fields, "slug"), Get(v.fields, "id");
    slug.Text? && SafeSlug(slug.t) && id.Text? && SafeId(id.t) && slug.t in catalog
  }

  function SlugOf(v: Value): Line { if v.Dict? then TextOf(Get(v.fields, "slug")) else [] }
  function IdOf(v: Value): Line { if v.Dict? then TextOf(Get(v.fields, "id")) else [] }

  /** Entry i repeats no slug and no id of the entries before it. */
  predicate IsNew(entries: seq<Value>, i: nat)
    requires i < |entries|
  {
    forall j :: 0 <= j < i ==> SlugOf(entries[j]) != SlugOf(entries[i]) && IdOf(entries[j]) != IdOf(entries[i])
  }

  predicate IsOneToOne(m: map<Line, Line>) {
    forall s, t :: s in m && t in m && m[s] == m[t] ==> s == t
  }

  /** The bindings of the first n entries. */
  function BindingsOf(entries: seq<Value>, n: nat): map<Line, Line>
    requires n <= |entries|
  {
    if n == 0 then map[] else BindingsOf(entries, n - 1)[SlugOf(entries[n - 1]) := IdOf(entries[n - 1])]
  }

  function BindingsDocument(companyId: Line, bindings: map<Line, Line>): Value {
    Dict(map[Str("version") := Num(1), Str("companyId") := Text(companyId),
             Str("agents") := Dict(map slug | slug in bindings :: Text(bindings[slug]))])
  }

  predicate ImportOk(response: Value, companyId: Line, catalog: set<Line>) {
    SafeId(companyId) && AgentList(response).Some? &&
    var entries := AgentList(response).value;
    EntriesOk(entries, catalog)
  }

  predicate EntriesOk(entries: seq<Value>, catalog: set<Line>) {
    forall i :: 0 <= i < |entries| ==> BindsOk(entries[i], catalog) && IsNew(entries, i)
  }

  lemma {:induction false} BoundSoFar(entries: seq<Value>, n: nat, slug: Line)
    requires n <= |entries|
    ensures slug in BindingsOf(entries, n) <==> exists i :: 0 <= i < n && SlugOf(entries[i]) == slug
  {
    hide SlugOf, IdOf;
    if n > 0 { BoundSoFar(entries, n - 1, slug); }
  }

  /** None is the ValueError. */
  method CompileBindings(response: Value, companyId: Line, catalog: set<Line>) returns (r: Option<Value>)
    ensures r.Some? <==> ImportOk(response, companyId, catalog)
    ensures r.Some? ==>
      var entries := AgentList(response).value; r.value == BindingsDocument(companyId, BindingsOf(entries, |entries|))
  {
    if !SafeId(companyId) { return None; }
    var list := AgentList(response);
    if list.None? { return None; }
    hide EntriesOk, AgentList, SafeId, BindingsOf;
    var bindings := BindEntries(list.value, catalog);
    if bindings.None? { return None; }
    return Some(BindingsDocument(companyId, bindings.value));
  }

  method BindEntries(entries: seq<Value>, catalog: set<Line>) returns (r: Option<map<Line, Line>>)
    ensures r.Some? <==> EntriesOk(entries, catalog)
    ensures r.Some? ==> r.value == BindingsOf(entries, |entries|)
  {
    hide BindsOk, SlugOf, IdOf, IsNew;
    var bindings: map<Line, Line>, seen: set<Line> := map[], {};
    for i := 0 to |entries|
      invariant bindings == BindingsOf(entries, i)
      invariant forall id :: id in seen <==> IdAmong(entries, i, id)
      invariant forall j :: 0 <= j < i ==> BindsOk(entries[j], catalog) && IsNew(entries, j)
    {
      var slug, id := SlugOf(entries[i]), IdOf(entries[i]);
      if !BindsOk(entries[i], catalog) { return None; }
      NewIff(entries, i);
      if slug in bindings || id in seen { return None; }
      bindings := bindings[slug := id];
      seen := seen + {id};
    }
    return Some(bindings);
  }

  predicate IdAmong(entries: seq<Value>, n: nat, id: Line)
    requires n <= |entries|
  {
    exists j :: 0 <= j < n && IdOf(entries[j]) == id
  }

  lemma NewIff(entries: seq<Value>, i: nat)
    requires i < |entries|
    ensures IsNew(entries, i) <==>
      SlugOf(entries[i]) !in BindingsOf(entries, i) && !IdAmong(entries, i, IdOf(entries[i]))
  {
    hide SlugOf, IdOf;
    BoundSoFar(entries, i, SlugOf(entries[i]));
  }

  // ----------------------------------------------------------------- reading bindings

  predicate IsOne(v: Value) { v == Num(1) || v == Bool(true) }

  const MAX_AGENTS := 512

  /** Python's test of a bindings document. */
  predicate BindingsOk(document: Value, companyId: Line, catalog: set<Line>) {
    document.Dict? && document.fields.Keys == {Str("version"), Str("companyId"), Str("agents")} &&
    IsOne(Get(document.fields, "version")) && Get(document.fields, "companyId") == Text(companyId) &&
    var raw := Get(document.fields, "agents");
    raw.Dict? && AgentsOk(raw.fields, raw.fields.Keys, catalog) && 1 <= |raw.fields| <= MAX_AGENTS
  }

  predicate AgentOk(raw: map<Line, Value>, s: Line, catalog: set<Line>)
    requires s in raw
  {
    SafeSlug(s) && raw[s].Text? && SafeId(raw[s].t) && s in catalog
  }

  /** The entries of these slugs are valid and use every id once. */
  predicate AgentsOk(raw: map<Line, Value>, slugs: set<Line>, catalog: set<Line>) {
    (forall s :: s in slugs && s in raw ==> AgentOk(raw, s, catalog))
    && (forall s, t :: s in slugs && t in slugs && s in raw && t in raw && s != t ==> raw[s] != raw[t])
  }

  function TextsOf(raw: map<Line, Value>): map<Line, Line> {
    map s | s in raw :: TextOf(raw[s])
  }

  function BindingsIn(document: Value): map<Line, Line> {
    if document.Dict? && Get(document.fields, "agents").Dict? then TextsOf(Get(document.fields, "agents").fields)
      else map[]
  }

  method BindingMap(document: Value, companyId: Line, catalog: set<Line>) returns (r: Option<map<Line, Line>>)
    ensures r.Some? <==> BindingsOk(document, companyId, catalog)
    ensures r.Some? ==> r.value == BindingsIn(document)
  {
    if !document.Dict? || document.fields.Keys != {Str("version"), Str("companyId"), Str("agents")} { return None; }
    if !IsOne(Get(document.fields, "version")) || Get(document.fields, "companyId") != Text(companyId) { return None; }
    var agents := Get(document.fields, "agents");
    if !agents.Dict? || agents.fields.Keys == {} || |agents.fields| > MAX_AGENTS { return None; }
    NonEmptyMap(agents.fields);
    hide AgentsOk, TextsOf;
    r := BindAgents(agents.fields, catalog);
  }

  method BindAgents(raw: map<Line, Value>, catalog: set<Line>) returns (r: Option<map<Line, Line>>)
    ensures r.Some? <==> AgentsOk(raw, raw.Keys, catalog)
    ensures r.Some? ==> r.value == TextsOf(raw)
  {
    hide AgentOk, AgentsOk, TextsOf;
    NoAgents(raw, catalog);
    var bindings: map<Line, Line>, seen: set<Line> := map[], {};
    assert bindings.Keys == {} && bindings.Values == {};
    var rest := raw.Keys;
    while rest != {}
      invariant rest <= raw.Keys && bindings.Keys == raw.Keys - rest
      invariant forall s :: s in bindings ==> raw[s] == Text(bindings[s])
      invariant seen == bindings.Values && AgentsOk(raw, bindings.Keys, catalog)
    {
      var slug :| slug in rest;
      if !AgentOk(raw, slug, catalog) {
        if AgentsOk(raw, raw.Keys, catalog) { AgentNeeded(raw, slug, catalog); }
        return None;
      }
      AgentsStep(raw, bindings, slug, catalog);
      var id := raw[slug].t;
      if id in seen { return None; }
      ValuesGrow(bindings, slug, id);
      bindings := bindings[slug := id];
      seen := seen + {id};
      rest := rest - {slug};
    }
    TextsAre(raw, bindings);
    assert bindings.Keys == raw.Keys;
    return Some(bindings);
  }

  lemma NoAgents(raw: map<Line, Value>, catalog: set<Line>)
    ensures AgentsOk(raw, {}, catalog)
  {}

  lemma AgentNeeded(raw: map<Line, Value>, slug: Line, catalog: set<Line>)
    requires slug in raw && AgentsOk(raw, raw.Keys, catalog)
    ensures AgentOk(raw, slug, catalog)
  {}

  lemma TextsAre(raw: map<Line, Value>, bindings: map<Line, Line>)
    requires bindings.Keys == raw.Keys && forall s :: s in bindings ==> raw[s] == Text(bindings[s])
    ensures bindings == TextsOf(raw)
  {}

  lemma AgentsStep(raw: map<Line, Value>, bindings: map<Line, Line>, slug: Line, catalog: set<Line>)
    requires slug in raw && slug !in bindings && AgentOk(raw, slug, catalog) && AgentsOk(raw, bindings.Keys, catalog)
    requires forall s :: s in bindings ==> s in raw && raw[s] == Text(bindings[s])
    ensures raw[slug].Text?
    ensures raw[slug].t in bindings.Values ==> !AgentsOk(raw, raw.Keys, catalog)
    ensures raw[slug].t !in bindings.Values ==> AgentsOk(raw, bindings.Keys + {slug}, catalog)
  {
    assert raw[slug].Text?;
    hide AgentOk;
    if raw[slug].t in bindings.Values {
      var t :| t in bindings && bindings[t] == raw[slug].t;
      assert raw[t] == raw[slug] && t != slug;
    } else {
      forall s | s in bindings ensures raw[s] != raw[slug] {
        assert bindings[s] in bindings.Values;
      }
    }
  }

  lemma ValuesGrow(m: map<Line, Line>, k: Line, v: Line)
    requires k !in m
    ensures m[k := v].Keys == m.Keys + {k} && m[k := v].Values == m.Values + {v}
  {
    var n := m[k := v];
    forall x | x in m.Values ensures x in n.Values {
      var j :| j in m && m[j] == x;
      assert n[j] == x;
    }
    assert n[k] == v;
  }

  lemma NonEmptyMap(m: map<Line, Value>)
    requires m.Keys != {}
    ensures |m| >= 1
  {
    var k :| k in m;
    assert m.Keys == m.Keys - {k} + {k};
    assert |m.Keys| >= 1 && |m| == |m.Keys|;
  }

  /** A slug and id as a bindings document may hold them. */
  predicate PairOk(slug: Line, id: Line, catalog: set<Line>) {
    SafeSlug(slug) && SafeId(id) && slug in catalog
  }

  predicate PairsOk(b: map<Line, Line>, catalog: set<Line>) {
    forall s :: s in b ==> PairOk(s, b[s], catalog)
  }

  lemma {:induction false} BindingsAre(entries: seq<Value>, n: nat, catalog: set<Line>)
    requires n <= |entries| && EntriesOk(entries, catalog)
    ensures var b := BindingsOf(entries, n);
      && IsOneToOne(b) && |b| == n && PairsOk(b, catalog)
      && forall id :: id in b.Values ==> IdAmong(entries, n, id)
  {
    hide *;
    if n == 0 {
      NothingBound(entries, catalog);
    } else {
      BindingsAre(entries, n - 1, catalog);
      EntrySafe(entries, n - 1, catalog);
      NewIff(entries, n - 1);
      BindingAdded(entries, n, BindingsOf(entries, n - 1), SlugOf(entries[n - 1]), IdOf(entries[n - 1]), catalog);
      BindingsStep(entries, n);
    }
  }

  lemma NothingBound(entries: seq<Value>, catalog: set<Line>)
    ensures BindingsOf(entries, 0) == map[] && IsOneToOne(map[]) && PairsOk(map[], catalog)
  {}

  lemma BindingsStep(entries: seq<Value>, n: nat)
    requires 0 < n <= |entries|
    ensures BindingsOf(entries, n) == BindingsOf(entries, n - 1)[SlugOf(entries[n - 1]) := IdOf(entries[n - 1])]
  {
    hide SlugOf, IdOf;
  }

  lemma BindingAdded(entries: seq<Value>, n: nat, b: map<Line, Line>, slug: Line, id: Line, catalog: set<Line>)
    requires 0 < n <= |entries| && slug == SlugOf(entries[n - 1]) && id == IdOf(entries[n - 1])
      && PairOk(slug, id, catalog)
    requires slug !in b && !IdAmong(entries, n - 1, id)
    requires IsOneToOne(b) && |b| == n - 1 && PairsOk(b, catalog)
    requires forall x :: x in b.Values ==> IdAmong(entries, n - 1, x)
    ensures var c := b[slug := id];
      IsOneToOne(c) && |c| == n && PairsOk(c, catalog) && forall x :: x in c.Values ==> IdAmong(entries, n, x)
  {
    assert IdAmong(entries, n, id);
    hide SlugOf, IdOf, PairOk, IsOneToOne;
    OneToOneGrows(b, slug, id);
    ValuesGrow(b, slug, id);
    assert |b[slug := id].Keys| == |b.Keys| + 1;
    forall x | x in b.Values ensures IdAmong(entries, n, x) {
      assert IdAmong(entries, n - 1, x);
    }
  }

  lemma OneToOneGrows(b: map<Line, Line>, slug: Line, id: Line)
    requires IsOneToOne(b) && id !in b.Values
    ensures IsOneToOne(b[slug := id])
  {
    forall s | s in b ensures b[s] != id {
      assert b[s] in b.Values;
    }
  }

  lemma EntrySafe(entries: seq<Value>, i: nat, catalog: set<Line>)
    requires i < |entries| && EntriesOk(entries, catalog)
    ensures PairOk(SlugOf(entries[i]), IdOf(entries[i]), catalog) && IsNew(entries, i)
  {
    assert BindsOk(entries[i], catalog);
    hide SafeSlug, SafeId;
  }

  lemma DocumentFields(companyId: Line, bindings: map<Line, Line>)
    ensures var d := BindingsDocument(companyId, bindings);
      && d.fields.Keys == {Str("version"), Str("companyId"), Str("agents")}
      && Get(d.fields, "version") == Num(1) && Get(d.fields, "companyId") == Text(companyId)
      && Get(d.fields, "agents") == Dict(map slug | slug in bindings :: Text(bindings[slug]))
  {
    assert |Str("version")| == 7 && |Str("companyId")| == 9 && |Str("agents")| == 6;
    hide Str;
  }

  /** What the import step persists, the compiler reads back unchanged, exactly when it binds at most 512 agents. */
  lemma BindingsReadBackIff(response: Value, companyId: Line, catalog: set<Line>)
    requires ImportOk(response, companyId, catalog)
    ensures var entries := AgentList(response).value;
      var b := BindingsOf(entries, |entries|);
      && (BindingsOk(BindingsDocument(companyId, b), companyId, catalog) <==> |entries| <= MAX_AGENTS)
      && BindingsIn(BindingsDocument(companyId, b)) == b && IsOneToOne(b)
  {
    var entries := AgentList(response).value;
    var b := BindingsOf(entries, |entries|);
    hide SlugOf, IdOf, SafeSlug, SafeId, BindingsOf, EntriesOk, BindingsDocument, AgentList, Get, Str, TextsOf,
      AgentsOk;
    BindingsAre(entries, |entries|, catalog);
    DocumentFields(companyId, b);
    AgentsAre(b, catalog);
  }

  // One agent too many.

  /** A two-letter name for each of up to 676 agents. */
  function NameOf(i: nat): Line
    requires i < 676
  {
    [97 + i / 26, 97 + i % 26]
  }

  function NamedAgent(i: nat): Value
    requires i < 676
  {
    Dict(map[Str("slug") := Text(NameOf(i)), Str("id") := Text(NameOf(i))])
  }

  lemma NamedAgentOk(i: nat, catalog: set<Line>)
    requires i < 676 && NameOf(i) in catalog
    ensures BindsOk(NamedAgent(i), catalog) && SlugOf(NamedAgent(i)) == IdOf(NamedAgent(i)) == NameOf(i)
  {
    assert |Str("slug")| != |Str("id")|;
    hide Str;
  }

  function ManyAgents(): seq<Value> {
    seq(MAX_AGENTS + 1, i requires 0 <= i < MAX_AGENTS + 1 => NamedAgent(i))
  }

  /** A response with 513 agents is imported, and what the import writes is refused when it is read. */
  lemma TooManyAgents() returns (response: Value, companyId: Line, catalog: set<Line>)
    ensures ImportOk(response, companyId, catalog)
    ensures var entries := AgentList(response).value;
      !BindingsOk(BindingsDocument(companyId, BindingsOf(entries, |entries|)), companyId, catalog)
  {
    var entries := ManyAgents();
    response, companyId, catalog := List(entries), [97], set i: nat | i < 676 :: NameOf(i);
    hide BindsOk, SlugOf, IdOf, NameOf;
    forall i | 0 <= i < |entries| ensures BindsOk(entries[i], catalog) && IsNew(entries, i) {
      NamedAgentOk(i, catalog);
      forall j | 0 <= j < i ensures SlugOf(entries[j]) != SlugOf(entries[i]) && IdOf(entries[j]) != IdOf(entries[i]) {
        NamedAgentOk(j, catalog);
        NamesDiffer(i, j);
      }
    }
    assert EntriesOk(entries, catalog);
    assert forall i :: 0 <= i < |entries| ==> entries[i].Dict?;
    hide NamedAgent, EntriesOk, BindingsDocument, BindingsOk;
    AgentsListed(entries);
    BindingsReadBackIff(response, companyId, catalog);
  }

  lemma NamesDiffer(i: nat, j: nat)
    requires j < i < 676
    ensures NameOf(i) != NameOf(j)
  {}

  lemma AgentsListed(entries: seq<Value>)
    requires entries != [] && forall i :: 0 <= i < |entries| ==> entries[i].Dict?
    ensures AgentList(List(entries)) == Some(entries)
  {}

  lemma AgentsAre(b: map<Line, Line>, catalog: set<Line>)
    requires IsOneToOne(b) && PairsOk(b, catalog)
    ensures var raw := map s | s in b :: Text(b[s]);
      AgentsOk(raw, raw.Keys, catalog) && TextsOf(raw) == b && |raw| == |b|
  {
    var raw := map s | s in b :: Text(b[s]);
    hide SafeSlug, SafeId;
    assert raw.Keys == b.Keys && |raw| == |raw.Keys| && |b| == |b.Keys|;
    forall s | s in raw ensures AgentOk(raw, s, catalog) {
      assert PairOk(s, b[s], catalog);
    }
    assert TextsOf(raw) == b;
  }

  // ------------------------------------------------------------------ inputs to compile

  /** The compiler's inputs; catalog holds the slugs of known package agents. */
  datatype Inputs = Inputs(template: Value, bindings: Value, live: Value, companyId: Line, catalog: set<Line>,
                           env: map<Line, Line>)

  datatype Destination = Gdrive(folderId: Line) | Onedrive(driveId: Line, parentItemId: Line)

  datatype Policy = Policy(companyId: Line, grants: map<Line, seq<Line>>, destinations: map<Line, Destination>,
                           destinationGrants: map<Line, seq<Line>>)

  predicate LiveOk(v: Value, companyId: Line) {
    v.Dict? && Get(v.fields, "id").Text? && SafeId(Get(v.fields, "id").t)
      && Get(v.fields, "companyId") == Text(companyId)
  }

  predicate LiveListOk(entries: seq<Value>, companyId: Line) {
    forall i :: 0 <= i < |entries| ==> LiveOk(entries[i], companyId) && !IdAmong(entries, i, IdOf(entries[i]))
  }

  method LiveAgentIds(document: Value, companyId: Line) returns (r: Option<set<Line>>)
    ensures r.Some? <==> AgentList(document).Some? && LiveListOk(AgentList(document).value, companyId)
    ensures r.Some? ==>
      forall id :: id in r.value <==> IdAmong(AgentList(document).value, |AgentList(document).value|, id)
  {
    var list := AgentList(document);
    if list.None? { return None; }
    var entries := list.value;
    hide AgentList, LiveOk, IdOf;
    var ids: set<Line> := {};
    for i := 0 to |entries|
      invariant forall id :: id in ids <==> IdAmong(entries, i, id)
      invariant forall j :: 0 <= j < i ==> LiveOk(entries[j], companyId) && !IdAmong(entries, j, IdOf(entries[j]))
    {
      if !LiveOk(entries[i], companyId) || IdOf(entries[i]) in ids { return None; }
      ids := ids + {IdOf(entries[i])};
    }
    return Some(ids);
  }

  const MAX_NAMES := 32

  predicate Distinct(s: seq<Line>) {
    forall i, j :: 0 <= i < j < |s| ==> s[i] != s[j]
  }

  /** A list of at most 32 distinct names from allowed. */
  function Names(v: Value, allowed: set<Line>): (r: Option<seq<Line>>)
    ensures r.Some? ==> |r.value| <= MAX_NAMES && (forall i :: 0 <= i < |r.value| ==> r.value[i] in allowed)
    ensures r.Some? ==> Distinct(r.value)
  {
    if v.List? && |v.items| <= MAX_NAMES
      && (forall i :: 0 <= i < |v.items| ==> v.items[i].Text? && v.items[i].t in allowed)
       && (forall i, j :: 0 <= i < j < |v.items| ==> v.items[i] != v.items[j])
    then Some(seq(|v.items|, i requires 0 <= i < |v.items| => TextOf(v.items[i])))
    else None
  }

  method CheckedNames(v: Value, allowed: set<Line>) returns (r: Option<seq<Line>>)
    ensures r == Names(v, allowed)
  {
    if !v.List? || |v.items| > MAX_NAMES { return None; }
    var names: seq<Line> := [];
    for i := 0 to |v.items|
      invariant |names| == i && forall j :: 0 <= j < i ==> v.items[j] == Text(names[j]) && names[j] in allowed
      invariant forall j, k :: 0 <= j < k < i ==> names[j] != names[k]
    {
      if !v.items[i].Text? || v.items[i].t !in allowed { return None; }
      if v.items[i].t in names {
        var j :| 0 <= j < |names| && names[j] == v.items[i].t;
        assert v.items[j] == v.items[i];
        return None;
      }
      names := names + [v.items[i].t];
    }
    assert forall i, j :: 0 <= i < j < |names| ==> v.items[i] != v.items[j];
    assert Names(v, allowed).Some? && Names(v, allowed).value == names;
    return Some(names);
  }

  /** Names written as a list read back as they were. */
  lemma NamesReadBack(names: seq<Line>, allowed: set<Line>)
    requires |names| <= MAX_NAMES && (forall i :: 0 <= i < |names| ==> names[i] in allowed)
    requires Distinct(names)
    ensures Names(ListOf(names), allowed) == Some(names)
  {
    var v := ListOf(names);
    assert Names(v, allowed).Some? && Names(v, allowed).value == names;
  }

  function ListOf(names: seq<Line>): Value {
    List(seq(|names|, i requires 0 <= i < |names| => Text(names[i])))
  }

  // ---------------------------------------------------------------------------- grants

  predicate GrantOk(slug: Line, v: Value, catalog: set<Line>) {
    SafeSlug(slug) && slug in catalog && Names(v, TARGETS).Some?
  }

  /** What slugs of done grant, the ids bound to them hold in resolved, and nothing else is in it. */
  ghost predicate GrantsCarried(grants: map<Line, Value>, done: set<Line>, bindings: map<Line, Line>,
                                resolved: map<Line, seq<Line>>) {
    (forall s :: s in done && s in grants && s in bindings ==>
       bindings[s] in resolved && Names(grants[s], TARGETS) == Some(resolved[bindings[s]]))
    && (forall id :: id in resolved ==> exists s :: s in done && s in grants && s in bindings && bindings[s] == id)
  }

  method CompileGrants(grants: map<Line, Value>, bindings: map<Line, Line>, catalog: set<Line>)
    returns (r: Option<map<Line, seq<Line>>>)
    requires IsOneToOne(bindings)
    ensures r.Some? <==> forall s :: s in grants ==> GrantOk(s, grants[s], catalog)
    ensures r.Some? ==> GrantsCarried(grants, grants.Keys, bindings, r.value)
  {
    hide SafeSlug, Names;
    var resolved: map<Line, seq<Line>> := map[];
    var rest := grants.Keys;
    while rest != {}
      invariant rest <= grants.Keys
      invariant forall s :: s in grants && s !in rest ==> GrantOk(s, grants[s], catalog)
      invariant GrantsCarried(grants, grants.Keys - rest, bindings, resolved)
    {
      var slug :| slug in rest;
      var targets := CheckedNames(grants[slug], TARGETS);
      if !SafeSlug(slug) || slug !in catalog || targets.None? {
        assert !GrantOk(slug, grants[slug], catalog);
        return None;
      }
      GrantStep(grants, grants.Keys - rest, bindings, resolved, slug);
      if slug in bindings { resolved := resolved[bindings[slug] := targets.value]; }
      assert grants.Keys - rest + {slug} == grants.Keys - (rest - {slug});
      rest := rest - {slug};
    }
    assert grants.Keys - {} == grants.Keys;
    return Some(resolved);
  }

  lemma GrantStep(grants: map<Line, Value>, done: set<Line>, bindings: map<Line, Line>, resolved: map<Line, seq<Line>>,
                  slug: Line)
    requires IsOneToOne(bindings) && slug in grants && slug !in done && Names(grants[slug], TARGETS).Some?
    requires GrantsCarried(grants, done, bindings, resolved)
    ensures GrantsCarried(grants, done + {slug}, bindings,
      if slug in bindings then resolved[bindings[slug] := Names(grants[slug], TARGETS).value] else resolved)
  {
    hide Names;
  }

  // ---------------------------------------------------------------------- destinations

  datatype Resolution = Bad | Unset | Resolved(to: Destination)

  function EnvNames(v: Value): Option<seq<Value>> {
    if !v.Dict? || !Get(v.fields, "required").Bool? then None
    else if Get(v.fields, "provider") == Text(Str("gdrive"))
         && v.fields.Keys == {Str("provider"), Str("folderIdEnv"), Str("required")} then
      Some([Get(v.fields, "folderIdEnv")])
    else if Get(v.fields, "provider") == Text(Str("onedrive"))
         && v.fields.Keys == {Str("provider"), Str("driveIdEnv"), Str("parentItemIdEnv"), Str("required")} then
      Some([Get(v.fields, "driveIdEnv"), Get(v.fields, "parentItemIdEnv")])
    else None
  }

  function EnvValue(env: map<Line, Line>, name: Line): Line { if name in env then env[name] else [] }

  /** What a destination of the template resolves to in this environment. */
  function Resolve(v: Value, env: map<Line, Line>): Resolution {
    var names := EnvNames(v);
    if names.None? then Bad
    else if exists i :: 0 <= i < |names.value| && !(names.value[i].Text? && SafeEnv(names.value[i].t)) then Bad
    else
      var values := seq(|names.value|, i requires 0 <= i < |names.value| => EnvValue(env, TextOf(names.value[i])));
      if exists i :: 0 <= i < |values| && values[i] == [] then
        (if Get(v.fields, "required") == Bool(true) then Bad else Unset)
      else if exists i :: 0 <= i < |values| && !CompilerSafe(values[i]) then Bad
      else if |values| == 1 then Resolved(Gdrive(values[0]))
      else if |values| == 2 then Resolved(Onedrive(values[0], values[1]))
      else Bad
  }

  predicate DestinationOk(alias: Line, v: Value, env: map<Line, Line>) {
    SafeAlias(alias) && Resolve(v, env) != Bad
  }

  ghost predicate DestinationsCarried(template: map<Line, Value>, done: set<Line>, env: map<Line, Line>,
                                      resolved: map<Line, Destination>) {
    (forall a :: a in resolved ==> a in done && a in template && Resolve(template[a], env) == Resolved(resolved[a]))
    && (forall a :: a in done && a in template && Resolve(template[a], env).Resolved? ==> a in resolved)
  }

  method CompileDestinations(template: map<Line, Value>, env: map<Line, Line>)
    returns (r: Option<map<Line, Destination>>)
    ensures r.Some? <==> forall a :: a in template ==> DestinationOk(a, template[a], env)
    ensures r.Some? ==> DestinationsCarried(template, template.Keys, env, r.value)
  {
    hide SafeAlias, Resolve;
    var resolved: map<Line, Destination> := map[];
    var rest := template.Keys;
    while rest != {}
      invariant rest <= template.Keys
      invariant forall a :: a in template && a !in rest ==> DestinationOk(a, template[a], env)
      invariant DestinationsCarried(template, template.Keys - rest, env, resolved)
    {
      var alias :| alias in rest;
      var resolution := Resolve(template[alias], env);
      if !SafeAlias(alias) || resolution == Bad {
        assert !DestinationOk(alias, template[alias], env);
        return None;
      }
      if resolution.Resolved? { resolved := resolved[alias := resolution.to]; }
      rest := rest - {alias};
    }
    return Some(resolved);
  }

  // ----------------------------------------------------------------- destination grants

  function Available(names: seq<Line>, destinations: map<Line, Destination>): (r: seq<Line>)
    ensures |r| <= |names| && (forall i :: 0 <= i < |r| ==> r[i] in destinations && r[i] in names)
    ensures forall a :: a in names && a in destinations ==> a in r
  {
    if names == [] then []
    else
      var last := names[|names| - 1];
      Available(names[..|names| - 1], destinations) + (if last in destinations then [last] else [])
  }

  lemma {:induction false} AvailableDistinct(names: seq<Line>, destinations: map<Line, Destination>)
    requires Distinct(names)
    ensures Distinct(Available(names, destinations))
  {
    if names != [] {
      var front, last := names[..|names| - 1], names[|names| - 1];
      AvailableDistinct(front, destinations);
      assert names == front + [last];
      var r := Available(front, destinations);
      assert Available(names, destinations) == if last in destinations then r + [last] else r;
      DistinctEnd(front, last);
      forall i | 0 <= i < |r| ensures r[i] != last {
        assert r[i] in front;
      }
    }
  }

  lemma DistinctEnd(front: seq<Line>, last: Line)
    requires Distinct(front + [last])
    ensures Distinct(front) && last !in front
  {
    var all := front + [last];
    forall i | 0 <= i < |front| ensures front[i] != last {
      assert all[i] != all[|front|];
    }
    forall i, j | 0 <= i < j < |front| ensures front[i] != front[j] {
      assert all[i] != all[j];
    }
  }

  /** The aliases a slug is granted that are configured here. */
  function Offered(v: Value, template: map<Line, Value>, destinations: map<Line, Destination>): seq<Line> {
    if Names(v, template.Keys).Some? then Available(Names(v, template.Keys).value, destinations) else []
  }

  predicate HoldsUpload(grants: map<Line, seq<Line>>, id: Line) { id in grants && UPLOAD in grants[id] }

  predicate DestinationGrantOk(slug: Line, v: Value, template: map<Line, Value>, destinations: map<Line, Destination>,
                               grants: map<Line, seq<Line>>, bindings: map<Line, Line>, catalog: set<Line>) {
    SafeSlug(slug) && slug in catalog && Names(v, template.Keys).Some?
    && (slug in bindings && Offered(v, template, destinations) != [] ==> HoldsUpload(grants, bindings[slug]))
  }

  ghost predicate OffersCarried(offers: map<Line, Value>, done: set<Line>, template: map<Line, Value>,
                                destinations: map<Line, Destination>, bindings: map<Line, Line>,
                                resolved: map<Line, seq<Line>>) {
    (forall s :: s in done && s in offers && s in bindings && Offered(offers[s], template, destinations) != [] ==>
       bindings[s] in resolved && resolved[bindings[s]] == Offered(offers[s], template, destinations))
    && (forall id :: id in resolved ==>
       exists s :: s in done && s in offers && s in bindings && bindings[s] == id
         && Offered(offers[s], template, destinations) != [])
  }

  method CompileDestinationGrants(offers: map<Line, Value>, template: map<Line, Value>,
                                  destinations: map<Line, Destination>,
                                  grants: map<Line, seq<Line>>, bindings: map<Line, Line>, catalog: set<Line>)
    returns (r: Option<map<Line, seq<Line>>>)
    requires IsOneToOne(bindings)
    ensures r.Some? <==>
      forall s :: s in offers ==> DestinationGrantOk(s, offers[s], template, destinations, grants, bindings, catalog)
    ensures r.Some? ==> OffersCarried(offers, offers.Keys, template, destinations, bindings, r.value)
  {
    hide SafeSlug, Names, Available, HoldsUpload, OffersCarried;
    var resolved: map<Line, seq<Line>> := map[];
    var rest := offers.Keys;
    NothingOffered(offers, template, destinations, bindings);
    assert offers.Keys - rest == {};
    while rest != {}
      invariant rest <= offers.Keys
      invariant forall s :: s in offers && s !in rest ==>
        DestinationGrantOk(s, offers[s], template, destinations, grants, bindings, catalog)
      invariant OffersCarried(offers, offers.Keys - rest, template, destinations, bindings, resolved)
    {
      var slug :| slug in rest;
      var aliases := CheckedNames(offers[slug], template.Keys);
      if !SafeSlug(slug) || slug !in catalog || aliases.None? {
        assert !DestinationGrantOk(slug, offers[slug], template, destinations, grants, bindings, catalog);
        return None;
      }
      var available := Available(aliases.value, destinations);
      assert available == Offered(offers[slug], template, destinations);
      OfferStep(offers, offers.Keys - rest, template, destinations, bindings, resolved, slug);
      if slug in bindings && available != [] {
        if !HoldsUpload(grants, bindings[slug]) {
          assert !DestinationGrantOk(slug, offers[slug], template, destinations, grants, bindings, catalog);
          return None;
        }
        resolved := resolved[bindings[slug] := available];
      }
      assert offers.Keys - rest + {slug} == offers.Keys - (rest - {slug});
      rest := rest - {slug};
    }
    assert offers.Keys - {} == offers.Keys;
    return Some(resolved);
  }

  lemma NothingOffered(offers: map<Line, Value>, template: map<Line, Value>, destinations: map<Line, Destination>,
                       bindings: map<Line, Line>)
    ensures OffersCarried(offers, {}, template, destinations, bindings, map[])
  {}

  lemma OfferStep(offers: map<Line, Value>, done: set<Line>, template: map<Line, Value>,
                  destinations: map<Line, Destination>,
                  bindings: map<Line, Line>, resolved: map<Line, seq<Line>>, slug: Line)
    requires IsOneToOne(bindings) && slug in offers && slug !in done
    requires OffersCarried(offers, done, template, destinations, bindings, resolved)
    ensures var offered := Offered(offers[slug], template, destinations);
      OffersCarried(offers, done + {slug}, template, destinations, bindings,
        if slug in bindings && offered != [] then resolved[bindings[slug] := offered] else resolved)
  {
    hide Offered;
  }
}
