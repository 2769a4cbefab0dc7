/** The compiled authorization document, the gate's parser for it, and what the gate then allows. */
module GateAuthorization {
  import opened Options
  import opened CodePoints
  import opened Authorization

  function FieldsOf(v: Value): map<Line, Value> { if v.Dict? then v.fields else map[] }

  function GrantsIn(x: Inputs): map<Line, Value> { FieldsOf(Get(FieldsOf(x.template), "grants")) }
  function DestinationsIn(x: Inputs): map<Line, Value> { FieldsOf(Get(FieldsOf(x.template), "destinations")) }
  function OffersIn(x: Inputs): map<Line, Value> { FieldsOf(Get(FieldsOf(x.template), "destinationGrants")) }

  const MAX_DESTINATIONS := 64

  predicate TemplateShape(x: Inputs) {
    x.template.Dict?
    && x.template.fields.Keys ==
      {Str("version"), Str("default"), Str("grants"), Str("destinations"), Str("destinationGrants")}
    && IsOne(Get(x.template.fields, "version")) && Get(x.template.fields, "default") == Text(Str("deny"))
    && BoundedDict(Get(x.template.fields, "grants"), MAX_AGENTS)
    && BoundedDict(Get(x.template.fields, "destinations"), MAX_DESTINATIONS)
    && BoundedDict(Get(x.template.fields, "destinationGrants"), MAX_AGENTS)
  }

  predicate BoundedDict(v: Value, limit: int) { v.Dict? && |v.fields| <= limit }

  predicate LiveHolds(x: Inputs) {
    AgentList(x.live).Some? && LiveListOk(AgentList(x.live).value, x.companyId)
    && forall id :: id in BindingsIn(x.bindings).Values ==>
      IdAmong(AgentList(x.live).value, |AgentList(x.live).value|, id)
  }

  /** Everything compile_authorization checks. */
  ghost predicate Compilable(x: Inputs) {
    && SafeId(x.companyId) && TemplateShape(x) && BindingsOk(x.bindings, x.companyId, x.catalog) && LiveHolds(x)
    && (forall s :: s in GrantsIn(x) ==> GrantOk(s, GrantsIn(x)[s], x.catalog))
    && (forall a :: a in DestinationsIn(x) ==> DestinationOk(a, DestinationsIn(x)[a], x.env))
    && (forall s :: s in OffersIn(x) ==> OfferOk(x, s))
  }

  /** A slug that is offered a configured destination is bound to an agent that may upload. */
  ghost predicate OfferOk(x: Inputs, s: Line)
    requires s in OffersIn(x)
  {
    SafeSlug(s) && s in x.catalog && Names(OffersIn(x)[s], DestinationsIn(x).Keys).Some?
    && (s in BindingsIn(x.bindings) && SomeConfigured(x, OffersIn(x)[s]) ==> SlugUploads(x, s))
  }

  ghost predicate SomeConfigured(x: Inputs, v: Value) {
    Names(v, DestinationsIn(x).Keys).Some? &&
    exists a :: a in Names(v, DestinationsIn(x).Keys).value && Configured(x, a)
  }

  ghost predicate Configured(x: Inputs, a: Line) {
    a in DestinationsIn(x) && Resolve(DestinationsIn(x)[a], x.env).Resolved?
  }

  ghost predicate SlugUploads(x: Inputs, s: Line) {
    s in GrantsIn(x) && Names(GrantsIn(x)[s], TARGETS).Some? && UPLOAD in Names(GrantsIn(x)[s], TARGETS).value
  }

  /** How the compiled policy follows from template, bindings and environment. */
  ghost predicate IsCompiled(x: Inputs, p: Policy) {
    && p.companyId == x.companyId
    && GrantsCarried(GrantsIn(x), GrantsIn(x).Keys, BindingsIn(x.bindings), p.grants)
    && DestinationsCarried(DestinationsIn(x), DestinationsIn(x).Keys, x.env, p.destinations)
    && OffersCarried(OffersIn(x), OffersIn(x).Keys, DestinationsIn(x), p.destinations, BindingsIn(x.bindings),
                     p.destinationGrants)
  }

  lemma BindingsOneToOne(x: Inputs)
    requires BindingsOk(x.bindings, x.companyId, x.catalog)
    ensures IsOneToOne(BindingsIn(x.bindings)) && PairsOk(BindingsIn(x.bindings), x.catalog)
    ensures |BindingsIn(x.bindings)| <= MAX_AGENTS
  {
    var raw := Get(x.bindings.fields, "agents").fields;
    var b := BindingsIn(x.bindings);
    hide SafeSlug, SafeId, Get, Str;
    assert b.Keys == raw.Keys && |b| == |b.Keys| && |raw| == |raw.Keys|;
    forall s | s in b ensures PairOk(s, b[s], x.catalog) && raw[s] == Text(b[s]) {
      assert AgentOk(raw, s, x.catalog);
    }
  }

  /** The compiler's test on one destination grant is the one stated on the inputs. */
  lemma OfferOkIff(x: Inputs, s: Line, p: Policy)
    requires s in OffersIn(x) && IsOneToOne(BindingsIn(x.bindings))
    requires GrantsCarried(GrantsIn(x), GrantsIn(x).Keys, BindingsIn(x.bindings), p.grants)
    requires DestinationsCarried(DestinationsIn(x), DestinationsIn(x).Keys, x.env, p.destinations)
    ensures OfferOk(x, s) <==>
      DestinationGrantOk(s, OffersIn(x)[s], DestinationsIn(x), p.destinations, p.grants, BindingsIn(x.bindings),
                         x.catalog)
  {
    hide SafeSlug, GrantsIn, DestinationsIn, OffersIn, BindingsIn, Names, Resolve;
    OfferedIff(x, OffersIn(x)[s], p.destinations);
    if s in BindingsIn(x.bindings) { UploadIff(x, s, p); }
  }

  lemma OfferedIff(x: Inputs, v: Value, destinations: map<Line, Destination>)
    requires DestinationsCarried(DestinationsIn(x), DestinationsIn(x).Keys, x.env, destinations)
    ensures SomeConfigured(x, v) <==> Offered(v, DestinationsIn(x), destinations) != []
  {
    hide DestinationsIn, Names, Resolve;
    var template := DestinationsIn(x);
    if Names(v, template.Keys).Some? {
      var names := Names(v, template.Keys).value;
      var offered := Offered(v, template, destinations);
      if offered != [] { assert offered[0] in names && Configured(x, offered[0]); }
      if a :| a in names && Configured(x, a) { assert a in offered; }
    }
  }

  lemma UploadIff(x: Inputs, s: Line, p: Policy)
    requires IsOneToOne(BindingsIn(x.bindings)) && s in BindingsIn(x.bindings)
    requires GrantsCarried(GrantsIn(x), GrantsIn(x).Keys, BindingsIn(x.bindings), p.grants)
    ensures SlugUploads(x, s) <==> HoldsUpload(p.grants, BindingsIn(x.bindings)[s])
  {
    hide GrantsIn, BindingsIn, Names;
  }

  /** None is the ValueError. */
  method CompileAuthorization(x: Inputs) returns (r: Option<Policy>)
    ensures r.Some? <==> Compilable(x)
    ensures r.Some? ==> IsCompiled(x, r.value)
  {
    hide SafeId, TemplateShape, BindingsOk, BindingsIn, AgentList, LiveListOk, GrantOk, DestinationOk,
      DestinationGrantOk, OfferOk,
      GrantsCarried, DestinationsCarried, OffersCarried, GrantsIn, DestinationsIn, OffersIn, IdAmong;
    if !SafeId(x.companyId) || !TemplateShape(x) { return None; }
    var bindings := BindingMap(x.bindings, x.companyId, x.catalog);
    if bindings.None? { return None; }
    var live := LiveAgentIds(x.live, x.companyId);
    if live.None? { return None; }
    if !(bindings.value.Values <= live.value) { return None; }
    BindingsOneToOne(x);
    var grants := CompileGrants(GrantsIn(x), bindings.value, x.catalog);
    if grants.None? { return None; }
    var destinations := CompileDestinations(DestinationsIn(x), x.env);
    if destinations.None? { return None; }
    var offers := CompileDestinationGrants(OffersIn(x), DestinationsIn(x), destinations.value, grants.value,
                                           bindings.value, x.catalog);
    forall s | s in OffersIn(x)
      ensures OfferOk(x, s) <==>
        DestinationGrantOk(s, OffersIn(x)[s], DestinationsIn(x), destinations.value, grants.value, bindings.value,
                           x.catalog)
    {
      OfferOkIff(x, s, Policy(x.companyId, grants.value, destinations.value, map[]));
    }
    if offers.None? { return None; }
    return Some(Policy(x.companyId, grants.value, destinations.value, offers.value));
  }

  // -------------------------------------------------------------------------- document

  function DestinationDocument(d: Destination): Value {
    match d
    case Gdrive(folderId) => Dict(map[Str("provider") := Text(Str("gdrive")), Str("folderId") := Text(folderId)])
    case Onedrive(driveId, parentItemId) =>
      Dict(map[Str("provider") := Text(Str("onedrive")), Str("driveId") := Text(driveId),
               Str("parentItemId") := Text(parentItemId)])
  }

  function NamesDocument(m: map<Line, seq<Line>>): map<Line, Value> { map k | k in m :: ListOf(m[k]) }
  function DestinationsDocument(m: map<Line, Destination>): map<Line, Value> {
    map k | k in m :: DestinationDocument(m[k])
  }

  /** The document the compiler writes. */
  function Document(p: Policy): Value {
    Dict(map[Str("version") := Num(1), Str("companyId") := Text(p.companyId), Str("default") := Text(Str("deny")),
             Str("grants") := Dict(NamesDocument(p.grants)),
             Str("destinations") := Dict(DestinationsDocument(p.destinations)),
             Str("destinationGrants") := Dict(NamesDocument(p.destinationGrants))])
  }

  // ---------------------------------------------------------------------------- parser

  function SafeVendorId(v: Value): bool { v.Text? && GateSafe(v.t) }

  function GateDestination(v: Value): Option<Destination> {
    if !v.Dict? then None
    else if Get(v.fields, "provider") == Text(Str("gdrive")) then
      if v.fields.Keys != {Str("folderId"), Str("provider")} || !SafeVendorId(Get(v.fields, "folderId")) then None
      else Some(Gdrive(Get(v.fields, "folderId").t))
    else if Get(v.fields, "provider") == Text(Str("onedrive")) then
      if v.fields.Keys != {Str("driveId"), Str("parentItemId"), Str("provider")} then None
      else if !SafeVendorId(Get(v.fields, "driveId")) || !SafeVendorId(Get(v.fields, "parentItemId")) then None
      else Some(Onedrive(Get(v.fields, "driveId").t, Get(v.fields, "parentItemId").t))
    else None
  }

  predicate NamesOk(raw: map<Line, Value>, allowed: set<Line>) {
    forall id :: id in raw ==> SafeId(id) && Names(raw[id], allowed).Some?
  }

  predicate DestinationsOk(raw: map<Line, Value>) {
    forall a :: a in raw ==> SafeAlias(a) && GateDestination(raw[a]).Some?
  }

  predicate Header(fields: map<Line, Value>) {
    fields.Keys == {Str("companyId"), Str("default"), Str("destinationGrants"), Str("destinations"), Str("grants"),
                    Str("version")}
    && Get(fields, "version") == Num(1) && Get(fields, "companyId").Text? && SafeId(Get(fields, "companyId").t)
    && Get(fields, "default") == Text(Str("deny"))
    && BoundedDict(Get(fields, "grants"), MAX_AGENTS) && BoundedDict(Get(fields, "destinations"), MAX_DESTINATIONS)
    && BoundedDict(Get(fields, "destinationGrants"), MAX_AGENTS)
  }

  predicate Parses(raw: Value) {
    raw.Dict? && Header(raw.fields)
    && NamesOk(Get(raw.fields, "grants").fields, TARGETS)
    && DestinationsOk(Get(raw.fields, "destinations").fields)
    && NamesOk(Get(raw.fields, "destinationGrants").fields, Get(raw.fields, "destinations").fields.Keys)
  }

  function NamesIn(raw: map<Line, Value>, allowed: set<Line>): map<Line, seq<Line>>
    requires NamesOk(raw, allowed)
  {
    map id | id in raw :: Names(raw[id], allowed).value
  }

  function ParsedDestinations(raw: map<Line, Value>): map<Line, Destination>
    requires DestinationsOk(raw)
  {
    map a | a in raw :: GateDestination(raw[a]).value
  }

  function Parsed(raw: Value): Policy
    requires Parses(raw)
  {
    var destinations := Get(raw.fields, "destinations").fields;
    Policy(Get(raw.fields, "companyId").t, NamesIn(Get(raw.fields, "grants").fields, TARGETS),
           ParsedDestinations(destinations),
           NamesIn(Get(raw.fields, "destinationGrants").fields, destinations.Keys))
  }

  method ParseNames(raw: map<Line, Value>, allowed: set<Line>) returns (r: Option<map<Line, seq<Line>>>)
    ensures r.Some? <==> NamesOk(raw, allowed)
    ensures r.Some? ==> r.value == NamesIn(raw, allowed)
  {
    hide SafeId, Names;
    var names: map<Line, seq<Line>> := map[];
    var rest := raw.Keys;
    while rest != {}
      invariant rest <= raw.Keys && names.Keys == raw.Keys - rest
      invariant forall id :: id in names ==> SafeId(id) && Names(raw[id], allowed) == Some(names[id])
    {
      var id :| id in rest;
      var list := CheckedNames(raw[id], allowed);
      if !SafeId(id) || list.None? { return None; }
      names := names[id := list.value];
      rest := rest - {id};
    }
    return Some(names);
  }

  method ParseDestinations(raw: map<Line, Value>) returns (r: Option<map<Line, Destination>>)
    ensures r.Some? <==> DestinationsOk(raw)
    ensures r.Some? ==> r.value == ParsedDestinations(raw)
  {
    hide SafeAlias, GateDestination;
    var destinations: map<Line, Destination> := map[];
    var rest := raw.Keys;
    while rest != {}
      invariant rest <= raw.Keys && destinations.Keys == raw.Keys - rest
      invariant forall a :: a in destinations ==> SafeAlias(a) && GateDestination(raw[a]) == Some(destinations[a])
    {
      var alias :| alias in rest;
      var destination := GateDestination(raw[alias]);
      if !SafeAlias(alias) || destination.None? { return None; }
      destinations := destinations[alias := destination.value];
      rest := rest - {alias};
    }
    return Some(destinations);
  }

  method ParseGateAuthorization(raw: Value) returns (r: Option<Policy>)
    ensures r.Some? <==> Parses(raw)
    ensures r.Some? ==> r.value == Parsed(raw)
  {
    hide NamesOk, DestinationsOk, NamesIn, ParsedDestinations, Str;
    if !raw.Dict? || !Header(raw.fields) { return None; }
    var grants := ParseNames(Get(raw.fields, "grants").fields, TARGETS);
    if grants.None? { return None; }
    var destinations := ParseDestinations(Get(raw.fields, "destinations").fields);
    if destinations.None? { return None; }
    var offers := ParseNames(Get(raw.fields, "destinationGrants").fields, destinations.value.Keys);
    DestinationKeys(Get(raw.fields, "destinations").fields);
    if offers.None? { return None; }
    return Some(Policy(Get(raw.fields, "companyId").t, grants.value, destinations.value, offers.value));
  }

  lemma DestinationKeys(raw: map<Line, Value>)
    requires DestinationsOk(raw)
    ensures ParsedDestinations(raw).Keys == raw.Keys
  {}

  function IsAuthorized(p: Policy, agentId: Line, target: Line): bool {
    agentId in p.grants && target in p.grants[agentId]
  }

  function ResolveDestination(p: Policy, agentId: Line, alias: Line): Option<Destination> {
    if agentId !in p.destinationGrants || alias !in p.destinationGrants[agentId] || alias !in p.destinations then None
    else Some(p.destinations[alias])
  }

  // ------------------------------------------------------------------ compile and parse

  predicate PortableDestination(d: Destination) {
    match d
    case Gdrive(folderId) => Portable(folderId)
    case Onedrive(driveId, parentItemId) => Portable(driveId) && Portable(parentItemId)
  }

  predicate CompilerSafeDestination(d: Destination) {
    match d
    case Gdrive(folderId) => CompilerSafe(folderId)
    case Onedrive(driveId, parentItemId) => CompilerSafe(driveId) && CompilerSafe(parentItemId)
  }

  lemma ResolvedSafe(v: Value, env: map<Line, Line>)
    requires Resolve(v, env).Resolved?
    ensures CompilerSafeDestination(Resolve(v, env).to)
  {
    hide CompilerSafe, SafeEnv, Get, EnvValue;
    var names := EnvNames(v).value;
    var values := seq(|names|, i requires 0 <= i < |names| => EnvValue(env, TextOf(names[i])));
    assert forall i :: 0 <= i < |values| ==> CompilerSafe(values[i]);
  }

  lemma DestinationFields(d: Destination)
    ensures DestinationDocument(d).Dict?
    ensures var f := DestinationDocument(d).fields;
      match d
      case Gdrive(folderId) =>
        f.Keys == {Str("folderId"), Str("provider")} && Get(f, "provider") == Text(Str("gdrive"))
          && Get(f, "folderId") == Text(folderId)
      case Onedrive(driveId, parentItemId) =>
        f.Keys == {Str("driveId"), Str("parentItemId"), Str("provider")} && Get(f, "provider") == Text(Str("onedrive"))
        && Get(f, "provider") != Text(Str("gdrive")) && Get(f, "driveId") == Text(driveId)
          && Get(f, "parentItemId") == Text(parentItemId)
  {
    assert |Str("provider")| == 8 && |Str("folderId")| == 8 && |Str("driveId")| == 7 && |Str("parentItemId")| == 12;
    assert Str("provider")[0] == 112 && Str("folderId")[0] == 102;
    assert |Str("gdrive")| == 6 && |Str("onedrive")| == 8;
    hide Str;
  }

  /** A destination the compiler resolved is taken by the gate, unchanged, exactly when its ids are portable. */
  lemma DestinationAcceptedIff(d: Destination)
    requires CompilerSafeDestination(d)
    ensures GateDestination(DestinationDocument(d)).Some? <==> PortableDestination(d)
    ensures GateDestination(DestinationDocument(d)).Some? ==> GateDestination(DestinationDocument(d)) == Some(d)
  {
    DestinationFields(d);
    hide Str, Get, CompilerSafe, GateSafe, Portable, DestinationDocument;
    match d {
      case Gdrive(folderId) => VendorIdIff(folderId);
      case Onedrive(driveId, parentItemId) => VendorIdIff(driveId); VendorIdIff(parentItemId);
    }
  }

  lemma DocumentFieldsAre(p: Policy)
    ensures var f := Document(p).fields;
      && f.Keys == {Str("companyId"), Str("default"), Str("destinationGrants"), Str("destinations"), Str("grants"),
                    Str("version")}
      && Get(f, "version") == Num(1) && Get(f, "companyId") == Text(p.companyId)
        && Get(f, "default") == Text(Str("deny"))
      && Get(f, "grants") == Dict(NamesDocument(p.grants))
        && Get(f, "destinations") == Dict(DestinationsDocument(p.destinations))
      && Get(f, "destinationGrants") == Dict(NamesDocument(p.destinationGrants))
  {
    assert |Str("version")| == 7 && |Str("companyId")| == 9 && |Str("default")| == 7 && |Str("grants")| == 6;
    assert |Str("destinations")| == 12 && |Str("destinationGrants")| == 17;
    assert Str("version")[0] == 118 && Str("default")[0] == 100;
    hide Str, NamesDocument, DestinationsDocument;
  }

  predicate GoodNames(m: map<Line, seq<Line>>, allowed: set<Line>) {
    forall id :: id in m ==>
      SafeId(id) && |m[id]| <= MAX_NAMES && Distinct(m[id]) && forall i :: 0 <= i < |m[id]| ==> m[id][i] in allowed
  }

  lemma NamesAccepted(m: map<Line, seq<Line>>, allowed: set<Line>)
    requires GoodNames(m, allowed)
    ensures NamesOk(NamesDocument(m), allowed) && NamesIn(NamesDocument(m), allowed) == m && |NamesDocument(m)| == |m|
  {
    hide SafeId, Distinct, Names, ListOf;
    var raw := NamesDocument(m);
    assert raw.Keys == m.Keys && |raw| == |raw.Keys| && |m| == |m.Keys|;
    forall id | id in raw ensures Names(raw[id], allowed) == Some(m[id]) {
      NamesReadBack(m[id], allowed);
    }
  }

  lemma DestinationsAcceptedIff(m: map<Line, Destination>)
    requires forall a :: a in m ==> SafeAlias(a) && CompilerSafeDestination(m[a])
    ensures DestinationsOk(DestinationsDocument(m)) <==> forall a :: a in m ==> PortableDestination(m[a])
    ensures DestinationsOk(DestinationsDocument(m)) ==> ParsedDestinations(DestinationsDocument(m)) == m
    ensures DestinationsDocument(m).Keys == m.Keys && |DestinationsDocument(m)| == |m|
  {
    hide SafeAlias, CompilerSafeDestination, PortableDestination, GateDestination, DestinationDocument;
    var raw := DestinationsDocument(m);
    assert raw.Keys == m.Keys && |raw| == |raw.Keys| && |m| == |m.Keys|;
    forall a | a in m
      ensures GateDestination(raw[a]).Some? <==> PortableDestination(m[a])
      ensures GateDestination(raw[a]).Some? ==> GateDestination(raw[a]) == Some(m[a])
    {
      DestinationAcceptedIff(m[a]);
    }
  }

  /** A map into the values of a bounded one-to-one map is bounded. */
  lemma {:induction false} ValuesBounded(m: map<Line, Line>, ids: set<Line>)
    requires ids <= m.Values
    ensures |ids| <= |m|
    decreases |m|
  {
    if ids != {} {
      var id :| id in ids;
      var k :| k in m && m[k] == id;
      var rest := m - {k};
      assert m.Keys == rest.Keys + {k} && |m| == |m.Keys| && |rest| == |rest.Keys|;
      forall x | x in ids - {id} ensures x in rest.Values {
        var j :| j in m && m[j] == x;
        assert rest[j] == x;
      }
      ValuesBounded(rest, ids - {id});
    }
  }

  lemma GrantsGood(x: Inputs, p: Policy)
    requires Compilable(x) && IsCompiled(x, p)
    ensures GoodNames(p.grants, TARGETS) && |p.grants| <= MAX_AGENTS
  {
    hide SafeId, SafeSlug, TemplateShape, BindingsOk, BindingsIn, LiveHolds, OfferOk, DestinationOk, GrantsIn,
      DestinationsIn, OffersIn,
      DestinationsCarried, OffersCarried, Distinct, Names;
    BindingsOneToOne(x);
    var b := BindingsIn(x.bindings);
    forall id | id in p.grants
      ensures SafeId(id) && id in b.Values
      ensures exists s :: s in GrantsIn(x) && Names(GrantsIn(x)[s], TARGETS) == Some(p.grants[id])
    {
      var s :| s in GrantsIn(x) && s in b && b[s] == id;
      assert PairOk(s, b[s], x.catalog);
    }
    ValuesBounded(b, p.grants.Keys);
    assert |p.grants| == |p.grants.Keys|;
  }

  lemma OffersGood(x: Inputs, p: Policy)
    requires Compilable(x) && IsCompiled(x, p)
    ensures GoodNames(p.destinationGrants, p.destinations.Keys) && |p.destinationGrants| <= MAX_AGENTS
  {
    hide SafeId, SafeSlug, TemplateShape, BindingsOk, BindingsIn, LiveHolds, OfferOk, DestinationOk, GrantsIn,
      DestinationsIn, OffersIn,
      DestinationsCarried, GrantsCarried, Names, GrantOk, Distinct, Available;
    BindingsOneToOne(x);
    var b := BindingsIn(x.bindings);
    forall id | id in p.destinationGrants
      ensures SafeId(id) && id in b.Values
      ensures exists s :: s in OffersIn(x) && OfferGives(x, p, s, p.destinationGrants[id])
    {
      var s :| s in OffersIn(x) && s in b && b[s] == id
        && Offered(OffersIn(x)[s], DestinationsIn(x), p.destinations) != [];
      assert PairOk(s, b[s], x.catalog);
      assert OfferGives(x, p, s, p.destinationGrants[id]);
    }
    forall id | id in p.destinationGrants
      ensures |p.destinationGrants[id]| <= MAX_NAMES && Distinct(p.destinationGrants[id])
      ensures forall i :: 0 <= i < |p.destinationGrants[id]| ==> p.destinationGrants[id][i] in p.destinations.Keys
    {
      var s :| s in OffersIn(x) && OfferGives(x, p, s, p.destinationGrants[id]);
      OfferGood(x, p, s);
    }
    ValuesBounded(b, p.destinationGrants.Keys);
    assert |p.destinationGrants| == |p.destinationGrants.Keys|;
  }

  predicate OfferGives(x: Inputs, p: Policy, s: Line, names: seq<Line>)
    requires s in OffersIn(x)
  {
    names == Offered(OffersIn(x)[s], DestinationsIn(x), p.destinations)
  }

  lemma OfferGood(x: Inputs, p: Policy, s: Line)
    requires s in OffersIn(x)
    ensures var offered := Offered(OffersIn(x)[s], DestinationsIn(x), p.destinations);
      |offered| <= MAX_NAMES && Distinct(offered) && forall i :: 0 <= i < |offered| ==>
        offered[i] in p.destinations.Keys
  {
    hide OffersIn, DestinationsIn, Names, Distinct;
    var names := Names(OffersIn(x)[s], DestinationsIn(x).Keys);
    if names.Some? { AvailableDistinct(names.value, p.destinations); } else { NoneDistinct(); }
  }

  lemma NoneDistinct()
    ensures Distinct([])
  {}

  lemma DestinationsGood(x: Inputs, p: Policy)
    requires Compilable(x) && IsCompiled(x, p)
    ensures forall a :: a in p.destinations ==> SafeAlias(a) && CompilerSafeDestination(p.destinations[a])
    ensures |p.destinations| <= MAX_DESTINATIONS
  {
    hide SafeId, SafeAlias, BindingsOk, LiveHolds, OfferOk, GrantOk, GrantsIn, OffersIn, GrantsCarried, OffersCarried,
      Resolve, Get, Str,
      CompilerSafeDestination;
    var template := DestinationsIn(x);
    forall a | a in p.destinations ensures SafeAlias(a) && CompilerSafeDestination(p.destinations[a]) {
      assert DestinationOk(a, template[a], x.env);
      ResolvedSafe(template[a], x.env);
    }
    Bounded(p.destinations, template);
  }

  lemma Bounded(m: map<Line, Destination>, n: map<Line, Value>)
    requires m.Keys <= n.Keys
    ensures |m| <= |n|
  {
    assert n.Keys == m.Keys + (n.Keys - m.Keys);
    assert |n| == |n.Keys| && |m| == |m.Keys| && |n.Keys| == |m.Keys| + |n.Keys - m.Keys|;
  }

  /** What compile_authorization writes is accepted by the gate, unchanged, exactly when every resolved vendor id is
      portable. */
  lemma DocumentAcceptedIff(x: Inputs, p: Policy)
    requires Compilable(x) && IsCompiled(x, p)
    ensures Parses(Document(p)) <==> forall a :: a in p.destinations ==> PortableDestination(p.destinations[a])
    ensures Parses(Document(p)) ==> Parsed(Document(p)) == p
  {
    GrantsGood(x, p);
    OffersGood(x, p);
    DestinationsGood(x, p);
    CompanySafe(x, p);
    hide *;
    NamesAccepted(p.grants, TARGETS);
    NamesAccepted(p.destinationGrants, p.destinations.Keys);
    DestinationsAcceptedIff(p.destinations);
    DocumentParts(p);
  }

  // A document the gate refuses.

  const ME: Line := [109]

  function BomDestination(): Value {
    Dict(map[Str("provider") := Text(Str("gdrive")), Str("folderIdEnv") := Text([70]), Str("required") := Bool(true)])
  }

  /** One agent, no grants, and a destination whose configured folder id is a byte order mark. */
  function BomInputs(): Inputs {
    Inputs(
      Dict(map[Str("version") := Num(1), Str("default") := Text(Str("deny")), Str("grants") := Dict(map[]),
               Str("destinations") := Dict(map[ME := BomDestination()]), Str("destinationGrants") := Dict(map[])]),
      BindingsDocument(ME, map[ME := ME]), List([LiveAgent()]), ME, {ME}, map[[70] := [BOM]])
  }

  function LiveAgent(): Value {
    Dict(map[Str("id") := Text(ME), Str("companyId") := Text(ME)])
  }

  function BomPolicy(): Policy {
    Policy(ME, map[], map[ME := Gdrive([BOM])], map[])
  }

  lemma TemplateFields()
    ensures var f := BomInputs().template.fields;
      && f.Keys == {Str("version"), Str("default"), Str("grants"), Str("destinations"), Str("destinationGrants")}
      && Get(f, "version") == Num(1) && Get(f, "default") == Text(Str("deny")) && Get(f, "grants") == Dict(map[])
      && Get(f, "destinations") == Dict(map[ME := BomDestination()]) && Get(f, "destinationGrants") == Dict(map[])
  {
    assert |Str("version")| == 7 && |Str("default")| == 7 && |Str("grants")| == 6;
    assert |Str("destinations")| == 12 && |Str("destinationGrants")| == 17;
    assert Str("version")[0] == 118 && Str("default")[0] == 100;
    hide Str, BomDestination, BindingsDocument, LiveAgent;
  }

  lemma BomResolves()
    ensures Resolve(BomDestination(), map[[70] := [BOM]]) == Resolved(Gdrive([BOM]))
  {
    assert |Str("provider")| == 8 && |Str("folderIdEnv")| == 11 && Str("provider") != Str("required") by {
      assert Str("provider")[0] == 112 && Str("required")[0] == 114;
    }
    assert |Str("required")| == 8;
    hide Str;
    var v := BomDestination();
    assert v.fields.Keys == {Str("provider"), Str("folderIdEnv"), Str("required")};
    assert EnvNames(v) == Some([Text([70])]);
  }

  lemma BomBindings()
    ensures BindingsOk(BindingsDocument(ME, map[ME := ME]), ME, {ME})
    ensures BindingsIn(BindingsDocument(ME, map[ME := ME])) == map[ME := ME]
  {
    var b: map<Line, Line> := map[ME := ME];
    DocumentFields(ME, b);
    assert b.Keys == {ME} && |b| == |b.Keys| == 1;
    assert PairsOk(b, {ME});
    hide BindingsDocument, Get, Str, AgentsOk, TextsOf;
    AgentsAre(b, {ME});
  }

  lemma BomLive()
    ensures AgentList(List([LiveAgent()])) == Some([LiveAgent()])
    ensures LiveOk(LiveAgent(), ME) && IdOf(LiveAgent()) == ME
  {
    assert |Str("id")| != |Str("companyId")|;
    hide Str;
  }

  /** These inputs compile, and the gate refuses the document. */
  lemma BomRefused()
    ensures Compilable(BomInputs()) && IsCompiled(BomInputs(), BomPolicy()) && !Parses(Document(BomPolicy()))
  {
    var x, p := BomInputs(), BomPolicy();
    BomCompiles();
    hide Compilable, IsCompiled, BomInputs, Parses, Document;
    DocumentAcceptedIff(x, p);
    assert !PortableDestination(p.destinations[ME]);
  }

  lemma BomCompiles()
    ensures Compilable(BomInputs()) && IsCompiled(BomInputs(), BomPolicy())
  {
    var x := BomInputs();
    BomSections();
    BomResolves();
    BomBindings();
    BomLive();
    assert x.bindings == BindingsDocument(ME, map[ME := ME]) && x.live == List([LiveAgent()]);
    assert x.companyId == ME && x.catalog == {ME} && x.env == map[[70] := [BOM]];
    hide *;
    LiveHoldsOne(x);
    CompilesOne(x, BomDestination());
    BomPolicyIs();
  }

  lemma BomPolicyIs()
    ensures BomPolicy() == Policy(ME, map[], map[ME := Gdrive([BOM])], map[])
  {}

  lemma BomSections()
    ensures GrantsIn(BomInputs()) == map[] && OffersIn(BomInputs()) == map[]
    ensures DestinationsIn(BomInputs()) == map[ME := BomDestination()] && TemplateShape(BomInputs())
  {
    TemplateFields();
    assert BomInputs().template.Dict?;
    hide BomInputs, BomDestination, Get, Str;
    var one: map<Line, Value> := map[ME := BomDestination()];
    assert one.Keys == {ME} && |one| == |one.Keys| == 1;
  }

  lemma CompilesOne(x: Inputs, v: Value)
    requires GrantsIn(x) == map[] && OffersIn(x) == map[] && DestinationsIn(x) == map[ME := v]
    requires Resolve(v, x.env) == Resolved(Gdrive([BOM])) && x.companyId == ME && TemplateShape(x)
    requires BindingsOk(x.bindings, ME, x.catalog) && LiveHolds(x)
    ensures Compilable(x) && IsCompiled(x, Policy(ME, map[], map[ME := Gdrive([BOM])], map[]))
  {
    hide TemplateShape, BindingsOk, BindingsIn, LiveHolds, Resolve, GrantsIn, OffersIn, DestinationsIn;
  }

  lemma LiveHoldsOne(x: Inputs)
    requires AgentList(x.live) == Some([LiveAgent()]) && LiveOk(LiveAgent(), ME) && IdOf(LiveAgent()) == ME
    requires x.companyId == ME && BindingsIn(x.bindings) == map[ME := ME]
    ensures LiveHolds(x)
  {
    hide AgentList, LiveOk, IdOf, BindingsIn;
    var entries := [LiveAgent()];
    assert IdOf(entries[0]) == ME;
    assert IdAmong(entries, |entries|, ME);
  }

  lemma CompanySafe(x: Inputs, p: Policy)
    requires Compilable(x) && IsCompiled(x, p)
    ensures SafeId(p.companyId)
  {
    hide SafeId;
  }

  /** Parsing a document comes down to parsing its three mappings. */
  lemma DocumentParts(p: Policy)
    requires SafeId(p.companyId) && |NamesDocument(p.grants)| <= MAX_AGENTS
      && |NamesDocument(p.destinationGrants)| <= MAX_AGENTS
    requires |DestinationsDocument(p.destinations)| <= MAX_DESTINATIONS
    ensures Parses(Document(p)) <==>
      && NamesOk(NamesDocument(p.grants), TARGETS) && DestinationsOk(DestinationsDocument(p.destinations))
      && NamesOk(NamesDocument(p.destinationGrants), DestinationsDocument(p.destinations).Keys)
    ensures Parses(Document(p)) ==>
      Parsed(Document(p)) == Policy(p.companyId, NamesIn(NamesDocument(p.grants), TARGETS),
                                    ParsedDestinations(DestinationsDocument(p.destinations)),
                                    NamesIn(NamesDocument(p.destinationGrants),
                                            DestinationsDocument(p.destinations).Keys))
  {
    DocumentFieldsAre(p);
    hide SafeId, NamesOk, DestinationsOk, NamesIn, ParsedDestinations, NamesDocument, DestinationsDocument, Str, Get;
    assert Document(p).Dict?;
    hide Document;
  }

  // ------------------------------------------------------------------ what the gate allows

  /** The template grants the target to the slug bound to this id. */
  ghost predicate Granted(x: Inputs, agentId: Line, target: Line) {
    exists s :: s in BindingsIn(x.bindings) && BindingsIn(x.bindings)[s] == agentId && s in GrantsIn(x)
      && Names(GrantsIn(x)[s], TARGETS).Some? && target in Names(GrantsIn(x)[s], TARGETS).value
  }

  /** The template offers the alias to the slug bound to this id. */
  ghost predicate OfferedTo(x: Inputs, agentId: Line, alias: Line) {
    exists s :: s in BindingsIn(x.bindings) && BindingsIn(x.bindings)[s] == agentId && s in OffersIn(x)
      && Names(OffersIn(x)[s], DestinationsIn(x).Keys).Some?
        && alias in Names(OffersIn(x)[s], DestinationsIn(x).Keys).value
  }

  /** The gate authorizes an agent id for a target exactly when the slug bound to that id is granted it. */
  lemma AuthorizedIff(x: Inputs, p: Policy, agentId: Line, target: Line)
    requires Compilable(x) && IsCompiled(x, p)
    ensures IsAuthorized(p, agentId, target) <==> Granted(x, agentId, target)
  {
    BindingsOneToOne(x);
    hide Compilable, GrantsIn, BindingsIn, DestinationsCarried, OffersCarried, Names;
  }

  lemma AliasOffered(x: Inputs, p: Policy, s: Line, alias: Line)
    requires s in OffersIn(x) && DestinationsCarried(DestinationsIn(x), DestinationsIn(x).Keys, x.env, p.destinations)
    ensures alias in Offered(OffersIn(x)[s], DestinationsIn(x), p.destinations) <==>
      && Names(OffersIn(x)[s], DestinationsIn(x).Keys).Some?
        && alias in Names(OffersIn(x)[s], DestinationsIn(x).Keys).value
      && alias in p.destinations
  {
    hide OffersIn, DestinationsIn, Names, Resolve;
  }

  /** It resolves an alias for an agent id exactly when the slug bound to that id is offered the alias and its
      destination was configured. */
  lemma ResolvesIff(x: Inputs, p: Policy, agentId: Line, alias: Line, d: Destination)
    requires Compilable(x) && IsCompiled(x, p)
    ensures ResolveDestination(p, agentId, alias) == Some(d) <==>
      OfferedTo(x, agentId, alias) && alias in DestinationsIn(x)
        && Resolve(DestinationsIn(x)[alias], x.env) == Resolved(d)
  {
    BindingsOneToOne(x);
    hide Compilable, OffersIn, DestinationsIn, BindingsIn, GrantsCarried, Names, Resolve, Offered;
    var b := BindingsIn(x.bindings);
    if agentId in p.destinationGrants {
      var s :| s in OffersIn(x) && s in b && b[s] == agentId
        && Offered(OffersIn(x)[s], DestinationsIn(x), p.destinations) != [];
      AliasOffered(x, p, s, alias);
    }
    if OfferedTo(x, agentId, alias) {
      var s :| s in b && b[s] == agentId && s in OffersIn(x)
        && Names(OffersIn(x)[s], DestinationsIn(x).Keys).Some?
          && alias in Names(OffersIn(x)[s], DestinationsIn(x).Keys).value;
      AliasOffered(x, p, s, alias);
    }
  }

  /** An agent that resolves any destination may upload. */
  lemma ResolvingAgentsUpload(x: Inputs, p: Policy, agentId: Line, alias: Line)
    requires Compilable(x) && IsCompiled(x, p) && ResolveDestination(p, agentId, alias).Some?
    ensures IsAuthorized(p, agentId, UPLOAD)
  {
    BindingsOneToOne(x);
    var b := BindingsIn(x.bindings);
    hide OffersIn, DestinationsIn, GrantsIn, BindingsIn, Names, Resolve, Available, TemplateShape, LiveHolds,
      BindingsOk, GrantOk, DestinationOk,
      GrantsCarried, DestinationsCarried;
    var s :| s in OffersIn(x) && s in b && b[s] == agentId
      && Offered(OffersIn(x)[s], DestinationsIn(x), p.destinations) != [];
    assert OfferOk(x, s);
    OfferOkIff(x, s, p);
  }
}
