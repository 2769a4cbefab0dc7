/** The rules of both authorization programs, spelled out and matched with the tests the programs make. */
module AuthorizationRules {
  import Texts
  import opened Options
  import opened CodePoints
  import opened Authorization
  import opened GateAuthorization

  // --------------------------------------------------------------------------- names

  /** Of these lengths, and of these characters only. */
  predicate Of(t: Line, alphabet: string, least: nat, most: nat) {
    least <= |t| <= most && forall i :: 0 <= i < |t| ==> t[i] in Str(alphabet)
  }

  const SMALL := Texts.LOWER + Texts.DIGITS

  predicate IsPlainAscii(s: string) {
    forall i :: 0 <= i < |s| ==> s[i] as int < 0x80
  }

  lemma InUpper(c: Char)
    ensures c in Str(Texts.UPPER) <==> 65 <= c <= 90
  {
    InBothEncodings(c, Texts.UPPER);
    if c < 0x1_0000 { Texts.InUpper(c); }
    hide Str;
  }

  lemma InOne(c: Char, s: string)
    requires |s| == 1 && s[0] as int < 0x80
    ensures c in Str(s) <==> c == s[0] as int
  {
    InStr(c, s);
    hide Str;
  }

  lemma InParts(c: Char, s: string, t: string)
    ensures c in Str(s + t) <==> c in Str(s) || c in Str(t)
  {
    InStr(c, s + t);
    InStr(c, s);
    InStr(c, t);
    hide Str;
    if i :| 0 <= i < |s| && s[i] as int % 0x11_0000 == c { assert (s + t)[i] == s[i]; }
    if i :| 0 <= i < |t| && t[i] as int % 0x11_0000 == c { assert (s + t)[|s| + i] == t[i]; }
  }

  lemma InSmall(c: Char)
    ensures c in Str(SMALL) <==> 97 <= c <= 122 || 48 <= c <= 57
  {
    InBothEncodings(c, SMALL);
    if c < 0x1_0000 {
      Texts.InBoth(c, Texts.LOWER, Texts.DIGITS);
      Texts.InLower(c);
      Texts.InDigits(c);
    }
    hide Str;
  }

  /** Immutable ids: letters, digits, underscores and hyphens. */
  lemma IdIs(t: Line)
    ensures SafeId(t) <==> Of(t, LETTERS + Texts.DIGITS + "_-", 1, 128)
  {
    hide Str;
    forall c: Char
      ensures c in Str(LETTERS + Texts.DIGITS + "_-") <==>
        48 <= c <= 57 || 65 <= c <= 90 || 97 <= c <= 122 || c == 95 || c == 45
    {
      InLetters(c, "_-");
      InParts(c, "_", "-");
      InOne(c, "_");
      InOne(c, "-");
      assert "_-" == "_" + "-";
    }
  }

  /** Small letters, digits and hyphens, with no hyphen at either end. */
  predicate IsKebabOf(t: Line, most: nat) {
    Of(t, SMALL + "-", 1, most) && t[0] in Str(SMALL) && t[|t| - 1] in Str(SMALL)
  }

  lemma KebabIs(t: Line)
    ensures SafeSlug(t) <==> IsKebabOf(t, 128)
    ensures SafeAlias(t) <==> IsKebabOf(t, 64)
  {
    hide Str;
    forall c: Char
      ensures c in Str(SMALL) <==> 97 <= c <= 122 || 48 <= c <= 57
      ensures c in Str(SMALL + "-") <==> 97 <= c <= 122 || 48 <= c <= 57 || c == 45
    {
      InSmall(c);
      InParts(c, SMALL, "-");
      InOne(c, "-");
    }
  }

  /** Environment variables: capitals, digits and underscores, a capital first. */
  lemma EnvIs(t: Line)
    ensures SafeEnv(t) <==> Of(t, Texts.UPPER + Texts.DIGITS + "_", 1, 128) && t[0] in Str(Texts.UPPER)
  {
    hide Str;
    forall c: Char
      ensures c in Str(Texts.UPPER) <==> 65 <= c <= 90
      ensures c in Str(Texts.UPPER + Texts.DIGITS + "_") <==> 65 <= c <= 90 || 48 <= c <= 57 || c == 95
    {
      InUpper(c);
      InCapitals(c);
      InParts(c, Texts.UPPER + Texts.DIGITS, "_");
      InOne(c, "_");
    }
  }

  lemma InCapitals(c: Char)
    ensures c in Str(Texts.UPPER + Texts.DIGITS) <==> 65 <= c <= 90 || 48 <= c <= 57
  {
    InBothEncodings(c, Texts.UPPER + Texts.DIGITS);
    if c < 0x1_0000 {
      Texts.InBoth(c, Texts.UPPER, Texts.DIGITS);
      Texts.InUpper(c);
      Texts.InDigits(c);
    }
    hide Str;
  }

  // ----------------------------------------------------------------------- vendor ids

  /** No slash, no control character. */
  lemma ForbiddenIs(c: Char)
    ensures Forbidden(c) <==> c == '/' as int || c < 0x20 || c == 0x7f
  {}

  /** The spaces of ECMAScript's regular expressions, one by one. */
  lemma JsSpacesAre(c: Char)
    ensures IsJsSpace(c) <==> c in {
      0x09, 0x0a, 0x0b, 0x0c, 0x0d, 0x20, 0xa0, 0x1680, 0x2000, 0x2001, 0x2002, 0x2003, 0x2004, 0x2005, 0x2006, 0x2007,
      0x2008, 0x2009, 0x200a, 0x2028, 0x2029, 0x202f, 0x205f, 0x3000, 0xfeff}
  {}

  /** A code point takes one unit of UTF-16 in the basic plane and two beyond it. */
  lemma {:induction false} Utf16Adds(a: Line, b: Line)
    ensures Utf16Length(a + b) == Utf16Length(a) + Utf16Length(b)
    ensures forall c: Char :: Utf16Length([c]) == if c <= 0xffff then 1 else 2
  {
    if b == [] {
      assert a + b == a;
    } else {
      Utf16Adds(a, b[..|b| - 1]);
      assert (a + b)[..|a + b| - 1] == a + b[..|b| - 1];
    }
    forall c: Char ensures Utf16Length([c]) == if c <= 0xffff then 1 else 2 { assert [c][..0] == []; }
  }

  /** The compiler's test of a vendor id: 1 to 512 code points, no slash, control character or Python space. */
  lemma CompilerSafeIs(v: Line)
    ensures CompilerSafe(v) <==>
      1 <= |v| <= 512 && forall c :: c in v ==> c != '/' as int && c >= 0x20 && c != 0x7f && c !in SPACES
  {
    forall c: Char ensures IsSpace(c) <==> c in SPACES { SpacesAre(c); }
    hide IsSpace;
    forall i | 0 <= i < |v| ensures v[i] in v {}
  }

  /** The gate's: 1 to 512 units of UTF-16, no slash, control character or ECMAScript space. */
  lemma GateSafeIs(v: Line)
    ensures GateSafe(v) <==>
      1 <= Utf16Length(v) <= 512 && forall c :: c in v ==> c != '/' as int && c >= 0x20 && c != 0x7f && !IsJsSpace(c)
  {
    hide IsJsSpace, Utf16Length;
    forall i | 0 <= i < |v| ensures v[i] in v {}
  }

  // -------------------------------------------------------------------------- targets

  const FIXED_TARGETS: seq<string> := [
    "receipts:verify", "receipts:bundle", "receipts:anchor", "quality:citation", "quality:authority", "receipts:facade",
    "receipts:deadline", "matters:classification:write", "matters:classification:read"]

  const TOOLS: seq<string> := [
    "send_email", "share_external", "upload_document", "query_external_model", "file_court_document", "sign_document",
    "send_payment", "delete_external_resource"]

  /** The targets the gate knows: the fixed ones, and each egress tool. */
  predicate GateKnows(t: Line) {
    || (exists i :: 0 <= i < |FIXED_TARGETS| && t == Str(FIXED_TARGETS[i]))
    || (exists i :: 0 <= i < |TOOLS| && t == Str("egress:" + TOOLS[i]))
  }

  /** The compiler's list of targets and the gate's agree. */
  lemma TargetsAgree(t: Line)
    ensures t in TARGETS <==> GateKnows(t)
  {
    hide Str;
    Egress();
    assert FIXED_TARGETS[0] == "receipts:verify" && FIXED_TARGETS[1] == "receipts:bundle";
    assert FIXED_TARGETS[2] == "receipts:anchor" && FIXED_TARGETS[3] == "quality:citation";
    assert FIXED_TARGETS[4] == "quality:authority" && FIXED_TARGETS[5] == "receipts:facade";
    assert FIXED_TARGETS[6] == "receipts:deadline" && FIXED_TARGETS[7] == "matters:classification:write";
    assert FIXED_TARGETS[8] == "matters:classification:read";
  }

  lemma Egress()
    ensures "egress:" + TOOLS[0] == "egress:send_email" && "egress:" + TOOLS[1] == "egress:share_external"
    ensures "egress:" + TOOLS[2] == "egress:upload_document" && "egress:" + TOOLS[3] == "egress:query_external_model"
    ensures "egress:" + TOOLS[4] == "egress:file_court_document" && "egress:" + TOOLS[5] == "egress:sign_document"
    ensures "egress:" + TOOLS[6] == "egress:send_payment" && "egress:" + TOOLS[7] == "egress:delete_external_resource"
  {
    SendEmail();
    ShareExternal();
    UploadDocument();
    QueryModel();
    FileDocument();
    SignDocument();
    SendPayment();
    DeleteResource();
  }

  lemma SendEmail() ensures "egress:" + "send_email" == "egress:send_email" {}
  lemma ShareExternal() ensures "egress:" + "share_external" == "egress:share_external" {}
  lemma UploadDocument() ensures "egress:" + "upload_document" == "egress:upload_document" {}
  lemma QueryModel() ensures "egress:" + "query_external_model" == "egress:query_external_model" {}
  lemma FileDocument() ensures "egress:" + "file_court_document" == "egress:file_court_document" {}
  lemma SignDocument() ensures "egress:" + "sign_document" == "egress:sign_document" {}
  lemma SendPayment() ensures "egress:" + "send_payment" == "egress:send_payment" {}
  lemma DeleteResource() ensures "egress:" + "delete_external_resource" == "egress:delete_external_resource" {}

  // ----------------------------------------------------------------------- documents

  /** A list of agents: the document, or the first of three fields that holds anything; not empty, and all mappings. */
  ghost predicate ListsAgents(document: Value, items: seq<Value>) {
    && items != [] && (forall i :: 0 <= i < |items| ==> items[i].Dict?)
    && (document == List(items) ||
        (document.Dict? &&
         (|| Get(document.fields, "agents") == List(items)
          || (IsFalse(Get(document.fields, "agents")) &&
              (|| Get(document.fields, "data") == List(items)
               || (IsFalse(Get(document.fields, "data")) && Get(document.fields, "items") == List(items)))))))
  }

  /** What Python takes for false. */
  predicate IsFalse(v: Value) {
    v in {Null, Bool(false), Num(0), Text([]), List([]), Dict(map[])}
  }

  lemma TruthyIs(v: Value)
    ensures Truthy(v) <==> !IsFalse(v)
  {
    if v.Dict? && v.fields.Keys == {} { assert v.fields == map[]; }
  }

  lemma AgentListIs(document: Value, items: seq<Value>)
    ensures AgentList(document) == Some(items) <==> ListsAgents(document, items)
  {
    if document.Dict? {
      TruthyIs(Get(document.fields, "agents"));
      TruthyIs(Get(document.fields, "data"));
    }
    hide Str;
  }

  /** At most 32 names, each allowed, none twice. */
  lemma NamesIs(v: Value, allowed: set<Line>, names: seq<Line>)
    ensures Names(v, allowed) == Some(names) <==>
      && v == List(seq(|names|, i requires 0 <= i < |names| => Text(names[i]))) && |names| <= 32
      && (forall i :: 0 <= i < |names| ==> names[i] in allowed)
      && (forall i, j :: 0 <= i < j < |names| ==> names[i] != names[j])
  {
    var list := seq(|names|, i requires 0 <= i < |names| => Text(names[i]));
    if Names(v, allowed) == Some(names) {
      assert forall i :: 0 <= i < |names| ==> v.items[i] == list[i];
    }
    if v == List(list) && |names| <= 32 && (forall i :: 0 <= i < |names| ==> names[i] in allowed)
      && (forall i, j :: 0 <= i < j < |names| ==> names[i] != names[j]) {
      assert Names(v, allowed).Some? && Names(v, allowed).value == names;
    }
  }

  /** What the import step takes from an entry. */
  lemma BindsIs(v: Value, catalog: set<Line>)
    ensures BindsOk(v, catalog) <==>
      && v.Dict? && Str("slug") in v.fields && Str("id") in v.fields
      && v.fields[Str("slug")] == Text(SlugOf(v)) && IsKebabOf(SlugOf(v), 128) && SlugOf(v) in catalog
      && v.fields[Str("id")] == Text(IdOf(v)) && Of(IdOf(v), LETTERS + Texts.DIGITS + "_-", 1, 128)
  {
    KebabIs(SlugOf(v));
    IdIs(IdOf(v));
    hide Str, SafeSlug, SafeId, IsKebabOf, Of;
  }

  /** A bindings document: exactly its three fields, version 1, this company, and 1 to 512 agents of the catalog with
      an id each and no id twice. */
  lemma BindingsIs(document: Value, companyId: Line, catalog: set<Line>)
    ensures BindingsOk(document, companyId, catalog) <==> IsBindings(document, companyId, catalog)
  {
    forall t ensures SafeSlug(t) <==> IsKebabOf(t, 128) { KebabIs(t); }
    forall t ensures SafeId(t) <==> Of(t, LETTERS + Texts.DIGITS + "_-", 1, 128) { IdIs(t); }
    hide Str, SafeSlug, SafeId, IsKebabOf, Of;
  }

  ghost predicate IsBindings(document: Value, companyId: Line, catalog: set<Line>) {
    && document.Dict? && document.fields.Keys == {Str("version"), Str("companyId"), Str("agents")}
    && document.fields[Str("version")] in {Num(1), Bool(true)}
    && document.fields[Str("companyId")] == Text(companyId) && document.fields[Str("agents")].Dict?
    && var agents := document.fields[Str("agents")].fields;
      && 1 <= |agents| <= 512
      && (forall s :: s in agents ==> s in catalog && IsKebabOf(s, 128) && agents[s].Text?
                                      && Of(agents[s].t, LETTERS + Texts.DIGITS + "_-", 1, 128))
      && (forall s, t :: s in agents && t in agents && agents[s] == agents[t] ==> s == t)
  }

  /** A live agent: an immutable id, and this company's. */
  lemma LiveIs(v: Value, companyId: Line)
    ensures LiveOk(v, companyId) <==>
      && v.Dict? && Str("id") in v.fields && v.fields[Str("id")] == Text(IdOf(v))
      && Of(IdOf(v), LETTERS + Texts.DIGITS + "_-", 1, 128)
      && Str("companyId") in v.fields && v.fields[Str("companyId")] == Text(companyId)
  {
    IdIs(IdOf(v));
    hide Str, SafeId, Of;
  }

  // --------------------------------------------------------------------- destinations

  predicate IsGdrive(v: Value, name: Line, required: bool) {
    && v.Dict? && v.fields.Keys == {Str("provider"), Str("folderIdEnv"), Str("required")}
    && v.fields[Str("provider")] == Text(Str("gdrive")) && v.fields[Str("folderIdEnv")] == Text(name)
    && v.fields[Str("required")] == Bool(required)
  }

  predicate IsOnedrive(v: Value, drive: Line, parent: Line, required: bool) {
    && v.Dict? && v.fields.Keys == {Str("provider"), Str("driveIdEnv"), Str("parentItemIdEnv"), Str("required")}
    && v.fields[Str("provider")] == Text(Str("onedrive")) && v.fields[Str("driveIdEnv")] == Text(drive)
    && v.fields[Str("parentItemIdEnv")] == Text(parent) && v.fields[Str("required")] == Bool(required)
  }

  /** The variable is set to something. */
  predicate IsSet(env: map<Line, Line>, name: Line) {
    name in env && env[name] != []
  }

  /** A destination resolves when its variables are set to vendor ids that are safe, is left out when one is not set
      and it is not required, and is refused in every other case. */
  ghost predicate IsResolution(v: Value, env: map<Line, Line>, r: Resolution) {
    && (forall f :: r == Resolved(Gdrive(f)) <==>
          exists name, required :: IsGdrive(v, name, required) && SafeEnv(name)
            && IsSet(env, name) && env[name] == f && CompilerSafe(f))
    && (forall d, p :: r == Resolved(Onedrive(d, p)) <==>
          exists drive, parent, required :: IsOnedrive(v, drive, parent, required) && SafeEnv(drive) && SafeEnv(parent)
            && IsSet(env, drive) && IsSet(env, parent) && env[drive] == d && env[parent] == p
            && CompilerSafe(d) && CompilerSafe(p))
    && (r == Unset <==>
          || (exists name :: IsGdrive(v, name, false) && SafeEnv(name) && !IsSet(env, name))
          || (exists drive, parent :: IsOnedrive(v, drive, parent, false) && SafeEnv(drive) && SafeEnv(parent)
                && !(IsSet(env, drive) && IsSet(env, parent))))
  }

  lemma ProvidersDiffer()
    ensures Str("gdrive") != Str("onedrive")
  {
    assert |Str("gdrive")| == 6 && |Str("onedrive")| == 8;
  }

  lemma ResolveGdrive(v: Value, env: map<Line, Line>, name: Line, required: bool)
    requires IsGdrive(v, name, required)
    ensures var r := Resolve(v, env);
      r == if !SafeEnv(name) then Bad
           else if !IsSet(env, name) then (if required then Bad else Unset)
           else if !CompilerSafe(env[name]) then Bad
           else Resolved(Gdrive(env[name]))
  {
    ProvidersDiffer();
    hide Str, SafeEnv, CompilerSafe;
    assert EnvNames(v) == Some([Text(name)]);
    hide EnvNames, IsGdrive;
    RequiredOf(v, required);
  }

  lemma RequiredOf(v: Value, required: bool)
    requires (exists name :: IsGdrive(v, name, required)) || exists d, p :: IsOnedrive(v, d, p, required)
    ensures v.Dict? && Get(v.fields, "required") == Bool(required)
  {
    hide Str;
  }

  lemma ResolveOnedrive(v: Value, env: map<Line, Line>, drive: Line, parent: Line, required: bool)
    requires IsOnedrive(v, drive, parent, required)
    ensures var r := Resolve(v, env);
      r == if !SafeEnv(drive) || !SafeEnv(parent) then Bad
           else if !IsSet(env, drive) || !IsSet(env, parent) then (if required then Bad else Unset)
           else if !CompilerSafe(env[drive]) || !CompilerSafe(env[parent]) then Bad
           else Resolved(Onedrive(env[drive], env[parent]))
  {
    ProvidersDiffer();
    hide Str, SafeEnv, CompilerSafe;
    assert EnvNames(v) == Some([Text(drive), Text(parent)]);
    RequiredOf(v, required);
    hide EnvNames, IsOnedrive;
    var names := [Text(drive), Text(parent)];
    assert names[0] == Text(drive) && names[1] == Text(parent);
    var values := seq(|names|, i requires 0 <= i < |names| => EnvValue(env, TextOf(names[i])));
    assert values[0] == EnvValue(env, drive) && values[1] == EnvValue(env, parent);
    assert (exists i :: 0 <= i < |values| && values[i] == []) <==> values[0] == [] || values[1] == [];
    assert (exists i :: 0 <= i < |values| && !CompilerSafe(values[i])) <==>
      !CompilerSafe(values[0]) || !CompilerSafe(values[1]);
  }

  lemma OneName(v: Value)
    requires EnvNames(v).Some? && |EnvNames(v).value| == 1 && EnvNames(v).value[0].Text?
    ensures IsGdrive(v, EnvNames(v).value[0].t, Get(v.fields, "required").b)
  {
    ProvidersDiffer();
    hide Str;
  }

  lemma TwoNames(v: Value)
    requires EnvNames(v).Some? && |EnvNames(v).value| == 2 && EnvNames(v).value[0].Text? && EnvNames(v).value[1].Text?
    ensures IsOnedrive(v, EnvNames(v).value[0].t, EnvNames(v).value[1].t, Get(v.fields, "required").b)
  {
    ProvidersDiffer();
    hide Str;
  }

  lemma OneOrTwo(v: Value)
    ensures EnvNames(v).Some? ==> |EnvNames(v).value| == 1 || |EnvNames(v).value| == 2
  {
    hide Str;
  }

  lemma ResolveOther(v: Value, env: map<Line, Line>)
    requires forall name, required :: !IsGdrive(v, name, required)
    requires forall d, p, required :: !IsOnedrive(v, d, p, required)
    ensures Resolve(v, env) == Bad
  {
    var names := EnvNames(v);
    OneOrTwo(v);
    if names.Some? && |names.value| == 1 && names.value[0].Text? {
      OneName(v);
    } else if names.Some? && |names.value| == 2 && names.value[0].Text? && names.value[1].Text? {
      TwoNames(v);
    } else {
      hide EnvNames, SafeEnv, CompilerSafe, Str, IsGdrive, IsOnedrive;
    }
  }

  lemma ResolveIs(v: Value, env: map<Line, Line>)
    ensures IsResolution(v, env, Resolve(v, env))
  {
    hide IsResolution, IsGdrive, IsOnedrive;
    if name, required :| IsGdrive(v, name, required) {
      GdriveResolution(v, env, name, required);
    } else if d, p, required :| IsOnedrive(v, d, p, required) {
      OnedriveResolution(v, env, d, p, required);
    } else {
      NoResolution(v, env);
    }
  }

  lemma GdriveResolution(v: Value, env: map<Line, Line>, name: Line, required: bool)
    requires IsGdrive(v, name, required)
    ensures IsResolution(v, env, Resolve(v, env))
  {
    hide Resolve, SafeEnv, CompilerSafe, IsGdrive, IsOnedrive, IsSet;
    ResolveGdrive(v, env, name, required);
    OneProvider(v, name, required);
    hide Str;
  }

  lemma OnedriveResolution(v: Value, env: map<Line, Line>, drive: Line, parent: Line, required: bool)
    requires IsOnedrive(v, drive, parent, required)
    ensures IsResolution(v, env, Resolve(v, env))
  {
    hide Resolve, SafeEnv, CompilerSafe, IsGdrive, IsOnedrive, IsSet;
    ResolveOnedrive(v, env, drive, parent, required);
    OneOnedrive(v, drive, parent, required);
    hide Str;
  }

  lemma NoResolution(v: Value, env: map<Line, Line>)
    requires forall name, required :: !IsGdrive(v, name, required)
    requires forall d, p, required :: !IsOnedrive(v, d, p, required)
    ensures IsResolution(v, env, Resolve(v, env))
  {
    hide Resolve, SafeEnv, CompilerSafe, IsGdrive, IsOnedrive, IsSet;
    ResolveOther(v, env);
  }

  lemma OneProvider(v: Value, name: Line, required: bool)
    requires IsGdrive(v, name, required)
    ensures forall n, r :: IsGdrive(v, n, r) ==> n == name && r == required
    ensures forall d, p, r :: !IsOnedrive(v, d, p, r)
  {
    ProvidersDiffer();
    hide Str;
  }

  lemma OneOnedrive(v: Value, drive: Line, parent: Line, required: bool)
    requires IsOnedrive(v, drive, parent, required)
    ensures forall d, p, r :: IsOnedrive(v, d, p, r) ==> d == drive && p == parent && r == required
    ensures forall n, r :: !IsGdrive(v, n, r)
  {
    ProvidersDiffer();
    hide Str;
  }

  /** What the gate takes for a destination: exactly the fields of its provider, with safe ids. */
  lemma GateDestinationIs(v: Value, d: Destination)
    ensures GateDestination(v) == Some(d) <==>
      && v.Dict?
      && match d
         case Gdrive(f) =>
           && v.fields.Keys == {Str("provider"), Str("folderId")} && v.fields[Str("provider")] == Text(Str("gdrive"))
           && v.fields[Str("folderId")] == Text(f) && GateSafe(f)
         case Onedrive(drive, parent) =>
           && v.fields.Keys == {Str("provider"), Str("driveId"), Str("parentItemId")}
           && v.fields[Str("provider")] == Text(Str("onedrive")) && v.fields[Str("driveId")] == Text(drive)
           && v.fields[Str("parentItemId")] == Text(parent) && GateSafe(drive) && GateSafe(parent)
  {
    ProvidersDiffer();
    hide Str, GateSafe;
  }

  // ------------------------------------------------------------------ template and policy

  predicate IsMapping(fields: map<Line, Value>, key: string, most: nat) {
    Str(key) in fields && fields[Str(key)].Dict? && |fields[Str(key)].fields| <= most
  }

  lemma TemplateIs(x: Inputs)
    ensures TemplateShape(x) <==>
      && x.template.Dict?
      && x.template.fields.Keys ==
        {Str("version"), Str("default"), Str("grants"), Str("destinations"), Str("destinationGrants")}
      && x.template.fields[Str("version")] in {Num(1), Bool(true)}
      && x.template.fields[Str("default")] == Text(Str("deny"))
      && IsMapping(x.template.fields, "grants", 512) && IsMapping(x.template.fields, "destinations", 64)
      && IsMapping(x.template.fields, "destinationGrants", 512)
  {
    hide Str;
  }

  lemma HeaderIs(fields: map<Line, Value>)
    ensures Header(fields) <==>
      && fields.Keys == {Str("companyId"), Str("default"), Str("destinationGrants"), Str("destinations"), Str("grants"),
                         Str("version")}
      && fields[Str("version")] == Num(1) && fields[Str("default")] == Text(Str("deny"))
      && fields[Str("companyId")].Text? && Of(fields[Str("companyId")].t, LETTERS + Texts.DIGITS + "_-", 1, 128)
      && IsMapping(fields, "grants", 512) && IsMapping(fields, "destinations", 64)
      && IsMapping(fields, "destinationGrants", 512)
  {
    if Get(fields, "companyId").Text? { IdIs(Get(fields, "companyId").t); }
    hide Str, SafeId, Of;
  }

  // --------------------------------------------------------------------- what compiles

  /** Live agents: each well formed and of this company, no id twice. */
  lemma LiveListIs(entries: seq<Value>, companyId: Line)
    ensures LiveListOk(entries, companyId) <==>
      && (forall i :: 0 <= i < |entries| ==> LiveOk(entries[i], companyId))
      && (forall i, j :: 0 <= i < j < |entries| ==> IdOf(entries[i]) != IdOf(entries[j]))
  {
    hide LiveOk, IdOf;
  }

  /** A grant of the template: a known slug, and a list of targets. */
  lemma GrantIs(slug: Line, v: Value, catalog: set<Line>)
    ensures GrantOk(slug, v, catalog) <==>
      IsKebabOf(slug, 128) && slug in catalog && exists names :: Names(v, TARGETS) == Some(names)
  {
    KebabIs(slug);
    hide SafeSlug, IsKebabOf, Names;
    if Names(v, TARGETS).Some? { assert Names(v, TARGETS) == Some(Names(v, TARGETS).value); }
  }

  /** A destination of the template: an alias, and something that resolves or may be left out. */
  lemma DestinationIs(alias: Line, v: Value, env: map<Line, Line>)
    ensures DestinationOk(alias, v, env) <==>
      IsKebabOf(alias, 64) && (Resolve(v, env) == Unset || exists d :: Resolve(v, env) == Resolved(d))
  {
    KebabIs(alias);
    hide SafeAlias, IsKebabOf, Resolve;
    if Resolve(v, env).Resolved? { assert Resolve(v, env) == Resolved(Resolve(v, env).to); }
  }

  /** The agents that are bound, by slug, and the mappings of the template. */
  ghost predicate Binds(x: Inputs, slug: Line, id: Line) {
    slug in BindingsIn(x.bindings) && BindingsIn(x.bindings)[slug] == id
  }

  ghost predicate LiveAgent(x: Inputs, id: Line) {
    AgentList(x.live).Some? && exists i :: 0 <= i < |AgentList(x.live).value| && IdOf(AgentList(x.live).value[i]) == id
  }

  /** What compiles: this company's id, a template, bindings, a live list that holds every bound id, and grants,
      destinations and destination grants each in order. */
  lemma CompilableIs(x: Inputs)
    ensures Compilable(x) <==>
      && Of(x.companyId, LETTERS + Texts.DIGITS + "_-", 1, 128) && TemplateShape(x)
      && BindingsOk(x.bindings, x.companyId, x.catalog)
      && AgentList(x.live).Some? && LiveListOk(AgentList(x.live).value, x.companyId)
      && (forall slug, id :: Binds(x, slug, id) ==> LiveAgent(x, id))
      && (forall s :: s in GrantsIn(x) ==> GrantOk(s, GrantsIn(x)[s], x.catalog))
      && (forall a :: a in DestinationsIn(x) ==> DestinationOk(a, DestinationsIn(x)[a], x.env))
      && (forall s :: s in OffersIn(x) ==> OfferOk(x, s))
  {
    IdIs(x.companyId);
    hide Str, SafeId, Of, TemplateShape, BindingsOk, LiveListOk, AgentList, GrantOk, DestinationOk, OfferOk, GrantsIn,
      DestinationsIn, OffersIn, BindingsIn, IdOf;
    if AgentList(x.live).Some? { BoundLive(x); }
  }

  lemma BoundLive(x: Inputs)
    requires AgentList(x.live).Some?
    ensures (forall slug, id :: Binds(x, slug, id) ==> LiveAgent(x, id)) <==>
      forall id :: id in BindingsIn(x.bindings).Values ==>
        IdAmong(AgentList(x.live).value, |AgentList(x.live).value|, id)
  {
    hide BindingsIn, AgentList, IdOf;
    var b := BindingsIn(x.bindings);
    if forall slug, id :: Binds(x, slug, id) ==> LiveAgent(x, id) {
      forall id | id in b.Values ensures IdAmong(AgentList(x.live).value, |AgentList(x.live).value|, id) {
        var slug :| slug in b && b[slug] == id;
        assert Binds(x, slug, id);
      }
    } else {
      var slug, id :| Binds(x, slug, id) && !LiveAgent(x, id);
      assert id in b.Values;
    }
  }

  ghost predicate IsOffer(x: Inputs, s: Line, names: seq<Line>)
    requires s in OffersIn(x)
  {
    && Names(OffersIn(x)[s], DestinationsIn(x).Keys) == Some(names)
    && ((exists id :: Binds(x, s, id)) && (exists a :: a in names && Configured(x, a)) ==> SlugUploads(x, s))
  }

  /** An offer: a known slug and a list of aliases of the template; and if its slug is bound and one of the aliases is
      configured, the slug is granted the upload. */
  lemma OfferIs(x: Inputs, s: Line)
    requires s in OffersIn(x)
    ensures OfferOk(x, s) <==>
      && IsKebabOf(s, 128) && s in x.catalog
      && exists names :: IsOffer(x, s, names)
  {
    KebabIs(s);
    hide SafeSlug, IsKebabOf, Names, SlugUploads, Configured, OffersIn, DestinationsIn, BindingsIn;
    if s in BindingsIn(x.bindings) { assert Binds(x, s, BindingsIn(x.bindings)[s]); }
    if Names(OffersIn(x)[s], DestinationsIn(x).Keys).Some? {
      var names := Names(OffersIn(x)[s], DestinationsIn(x).Keys).value;
      assert IsOffer(x, s, names) <==>
        (s in BindingsIn(x.bindings) && SomeConfigured(x, OffersIn(x)[s]) ==> SlugUploads(x, s));
    }
  }
}
