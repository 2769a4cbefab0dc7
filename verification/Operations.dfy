/** Receipt bodies as the gate writes them, operation identities, and the one-shot lookup. */
module Operations {
  import opened Options
  import opened Texts
  import opened CanonicalJson
  import opened Receipts

  // --------------------------------------------------- records with optional fields

  /** An object literal whose undefined fields are dropped when it is stored. */
  function Stored(fields: seq<Member<Option<Json>>>): seq<Member<Json>> {
    if fields == [] then []
    else
      var rest := Stored(fields[1..]);
      match fields[0].value
      case None => rest
      case Some(v) => [Member(fields[0].key, v)] + rest
  }

  lemma {:induction false} StoredOmits(fields: seq<Member<Option<Json>>>, key: Text)
    requires forall i :: 0 <= i < |fields| ==> fields[i].key != key
    ensures Lookup(Stored(fields), key) == None
  {
    if fields != [] {
      StoredOmits(fields[1..], key);
      var rest := Stored(fields[1..]);
      if fields[0].value.Some? {
        assert ([Member(fields[0].key, fields[0].value.value)] + rest)[1..] == rest;
      }
    }
  }

  lemma {:induction false} StoredLookup(fields: seq<Member<Option<Json>>>, i: nat)
    requires DistinctKeys(fields) && i < |fields|
    ensures Lookup(Stored(fields), fields[i].key) == fields[i].value
  {
    var rest := Stored(fields[1..]);
    if fields[0].value.Some? {
      assert ([Member(fields[0].key, fields[0].value.value)] + rest)[1..] == rest;
    }
    if i == 0 {
      StoredOmits(fields[1..], fields[0].key);
    } else {
      assert fields[1..][i - 1] == fields[i];
      StoredLookup(fields[1..], i - 1);
    }
  }

  lemma {:induction false} StoredDistinct(fields: seq<Member<Option<Json>>>)
    requires DistinctKeys(fields)
    ensures DistinctKeys(Stored(fields))
    ensures forall j :: 0 <= j < |Stored(fields)| ==>
      exists i :: 0 <= i < |fields| && fields[i].key == Stored(fields)[j].key
        && fields[i].value == Some(Stored(fields)[j].value)
  {
    if fields != [] {
      StoredDistinct(fields[1..]);
      var all, rest := Stored(fields), Stored(fields[1..]);
      var skip := |all| - |rest|;
      forall j | 0 <= j < |all|
        ensures exists i :: 0 <= i < |fields| && fields[i].key == all[j].key && fields[i].value == Some(all[j].value)
      {
        if j < skip {
          assert fields[0].key == all[j].key && fields[0].value == Some(all[j].value);
        } else {
          assert all[j] == rest[j - skip];
          var i :| 0 <= i < |fields[1..]| && fields[1..][i].key == rest[j - skip].key
            && fields[1..][i].value == Some(rest[j - skip].value);
          assert fields[i + 1] == fields[1..][i];
        }
      }
      forall a, b | 0 <= a < b < |all| ensures all[a].key != all[b].key {
        assert all[b] == rest[b - skip];
        if a >= skip { assert all[a] == rest[a - skip]; }
        else {
          var i :| 0 <= i < |fields[1..]| && fields[1..][i].key == rest[b - skip].key
            && fields[1..][i].value == Some(rest[b - skip].value);
          assert fields[i + 1].key == all[b].key;
        }
      }
    }
  }

  function OptText(t: Option<Text>): Option<Json> {
    match t case None => None case Some(s) => Some(Str(s))
  }

  // ------------------------------------------------------------ operation identity

  datatype OperationInput = OperationInput(
    target: Text, tool: Text, payload: Option<Text>, issue: Option<Text>, approval: Option<Text>)

  function IdentityFields(op: OperationInput): (f: seq<Member<Option<Json>>>)
    ensures |f| == 6
  {
    [ Member(Lit("version"), Some(Num(Decimal(1)))),
      Member(Lit("target"), Some(Str(op.target))),
      Member(Lit("tool"), Some(Str(op.tool))),
      Member(Lit("payloadSha256"), OptText(op.payload)),
      Member(Lit("issueId"), OptText(op.issue)),
      Member(Lit("approvalId"), OptText(op.approval)) ]
  }

  function Identity(op: OperationInput): Json {
    Obj(Stored(IdentityFields(op)))
  }

  function OperationId(h: Hash, op: OperationInput): Digest {
    h(Canonical(Identity(op)))
  }

  lemma IdentityDistinct(op: OperationInput)
    ensures DistinctKeys(IdentityFields(op))
  {
    assert Lit("version")[0] != Lit("issueId")[0];
  }

  lemma IdentityWellFormed(op: OperationInput)
    ensures WellFormed(Identity(op)) && DistinctKeys(Identity(op).members)
  {
    var f := IdentityFields(op);
    IdentityDistinct(op);
    StoredDistinct(f);
    var ms := Stored(f);
    assert forall i :: 0 <= i < 6 && f[i].value.Some? ==> f[i].value.value.Str? || f[i].value.value.Num?;
    forall j | 0 <= j < |ms| ensures WellFormed(ms[j].value) {
      hide IdentityFields;
      var i :| 0 <= i < |f| && f[i].key == ms[j].key && f[i].value == Some(ms[j].value);
    }
  }

  lemma IdentityLookups(op: OperationInput)
    ensures var v := Identity(op);
      && Field(v, Lit("target")) == Some(Str(op.target)) && Field(v, Lit("tool")) == Some(Str(op.tool))
      && Field(v, Lit("payloadSha256")) == OptText(op.payload)
      && Field(v, Lit("issueId")) == OptText(op.issue) && Field(v, Lit("approvalId")) == OptText(op.approval)
  {
    hide Lit, Stored, Lookup;
    IdentityDistinct(op);
    StoredLookup(IdentityFields(op), 1);
    StoredLookup(IdentityFields(op), 2);
    StoredLookup(IdentityFields(op), 3);
    StoredLookup(IdentityFields(op), 4);
    StoredLookup(IdentityFields(op), 5);
  }

  lemma SameText(a: Option<Json>, b: Option<Json>, s: Option<Text>, t: Option<Text>)
    requires a == OptText(s) && b == OptText(t) && a.Some? == b.Some? && (a.Some? ==> Same(a.value, b.value))
    ensures s == t
  {}

  /** Identities print alike only when every field, and the presence of every field, agrees. */
  lemma IdentityUnique(a: OperationInput, b: OperationInput)
    ensures Canonical(Identity(a)) == Canonical(Identity(b)) <==> a == b
  {
    if Canonical(Identity(a)) == Canonical(Identity(b)) {
      hide Lit, WellFormed, Identity, Canonical, Same, OptText;
      IdentityShape(a);
      IdentityShape(b);
      IdentityWellFormed(a);
      IdentityWellFormed(b);
      CanonicalFaithful(Identity(a), Identity(b));
      IdentityLookups(a);
      IdentityLookups(b);
      FieldMatches(a, b, Lit("target"), Some(a.target), Some(b.target));
      FieldMatches(a, b, Lit("tool"), Some(a.tool), Some(b.tool));
      FieldMatches(a, b, Lit("payloadSha256"), a.payload, b.payload);
      FieldMatches(a, b, Lit("issueId"), a.issue, b.issue);
      FieldMatches(a, b, Lit("approvalId"), a.approval, b.approval);
    }
  }

  lemma IdentityShape(op: OperationInput)
    ensures Identity(op).Obj? && OptText(Some(op.target)) == Some(Str(op.target))
      && OptText(Some(op.tool)) == Some(Str(op.tool))
  {}

  lemma FieldMatches(a: OperationInput, b: OperationInput, key: Text, s: Option<Text>, t: Option<Text>)
    requires Same(Identity(a), Identity(b))
    requires Field(Identity(a), key) == OptText(s) && Field(Identity(b), key) == OptText(t)
    ensures s == t
  {
    hide Identity, WellFormed, Same;
    IdentityShape(a);
    IdentityShape(b);
    IdentityWellFormed(a);
    IdentityWellFormed(b);
    FieldsAgree(Identity(a), Identity(b), key);
    SameText(Field(Identity(a), key), Field(Identity(b), key), s, t);
  }

  /** Two requests share an operation id only if they are one operation, or SHA-256 collides. */
  lemma OperationIdSound(h: Hash, a: OperationInput, b: OperationInput)
    requires OperationId(h, a) == OperationId(h, b)
    ensures a == b || Collision(h, Canonical(Identity(a)), Canonical(Identity(b)))
  {
    hide Identity, Canonical;
    IdentityUnique(a, b);
  }

  method DispatchOperationId(h: Hash, target: Text, tool: Text, payload: Option<Text>, issue: Option<Text>,
                             approval: Option<Text>)
    returns (id: Digest)
    ensures id == OperationId(h, OperationInput(target, tool, payload, issue, approval))
  {
    var identity := [Member(Lit("version"), Num(Decimal(1))), Member(Lit("target"), Str(target)),
                     Member(Lit("tool"), Str(tool))];
    IdentityStored(OperationInput(target, tool, payload, issue, approval));
    hide Lit, Decimal, Canonical, Stored;
    ghost var three := identity;
    if payload.Some? { identity := identity + [Member(Lit("payloadSha256"), Str(payload.value))]; }
    assert identity == three + Optional(Lit("payloadSha256"), payload);
    ghost var four := identity;
    if issue.Some? { identity := identity + [Member(Lit("issueId"), Str(issue.value))]; }
    assert identity == four + Optional(Lit("issueId"), issue);
    ghost var five := identity;
    if approval.Some? { identity := identity + [Member(Lit("approvalId"), Str(approval.value))]; }
    assert identity == five + Optional(Lit("approvalId"), approval);
    id := h(Canonical(Obj(identity)));
  }

  function Optional(key: Text, t: Option<Text>): seq<Member<Json>> {
    if t.Some? then [Member(key, Str(t.value))] else []
  }

  /** The stored identity, as it is filled in: three fields always, and those given. */
  lemma IdentityStored(x: OperationInput)
    ensures Stored(IdentityFields(x)) ==
      [Member(Lit("version"), Num(Decimal(1))), Member(Lit("target"), Str(x.target)), Member(Lit("tool"), Str(x.tool))]
      + Optional(Lit("payloadSha256"), x.payload) + Optional(Lit("issueId"), x.issue) +
        Optional(Lit("approvalId"), x.approval)
  {
    var fields := IdentityFields(x);
    hide Lit, Decimal, Stored;
    StoredNone(fields);
    StoredExtends(fields, 0);
    StoredExtends(fields, 1);
    StoredExtends(fields, 2);
    assert Stored(fields[..3]) ==
      [Member(Lit("version"), Num(Decimal(1))), Member(Lit("target"), Str(x.target)), Member(Lit("tool"), Str(x.tool))];
    hide IdentityFields;
    StoredExtends(fields, 3);
    StoredExtends(fields, 4);
    StoredExtends(fields, 5);
    assert fields[..6] == fields;
  }

  lemma StoredNone(fields: seq<Member<Option<Json>>>)
    ensures Stored(fields[..0]) == []
  {}

  lemma {:induction false} StoredExtends(fields: seq<Member<Option<Json>>>, n: nat)
    requires n < |fields|
    ensures Stored(fields[..n + 1]) == Stored(fields[..n]) +
      (match fields[n].value case None => [] case Some(v) => [Member(fields[n].key, v)])
    decreases n
  {
    if n > 0 {
      assert fields[..n + 1][1..] == fields[1..][..n];
      assert fields[..n][1..] == fields[1..][..n - 1];
      StoredExtends(fields[1..], n - 1);
    } else {
      assert fields[..1][1..] == [];
    }
  }

  // -------------------------------------------------------------------- receipts

  datatype Outcome = Reserved | Performed | AnonymizedPerformed | Pending | Blocked | Errored

  function OutcomeText(o: Outcome): Text {
    match o
    case Reserved => Lit("reserved")
    case Performed => Lit("performed")
    case AnonymizedPerformed => Lit("anonymized_performed")
    case Pending => Lit("pending")
    case Blocked => Lit("blocked")
    case Errored => Lit("error")
  }

  lemma OutcomeTextInjective(a: Outcome, b: Outcome)
    requires OutcomeText(a) == OutcomeText(b)
    ensures a == b
  {
    assert Lit("pending")[0] != Lit("blocked")[0];
  }

  /** A receipt body before it is stored. */
  datatype Receipt = Receipt(
    kind: Text, tool: Text, boundary: Json, decision: Json, outcome: Outcome, payload: Text,
    agent: Option<Text>, issue: Option<Text>, approval: Option<Text>, operation: Option<Text>, meta: Option<Json>)

  function BodyFields(r: Receipt): (f: seq<Member<Option<Json>>>)
    ensures |f| == 11
  {
    [ Member(Lit("kind"), Some(Str(r.kind))),
      Member(Lit("tool"), Some(Str(r.tool))),
      Member(Lit("boundary"), Some(r.boundary)),
      Member(Lit("decision"), Some(r.decision)),
      Member(Lit("outcome"), Some(Str(OutcomeText(r.outcome)))),
      Member(Lit("payloadSha256"), Some(Str(r.payload))),
      Member(Lit("agentId"), OptText(r.agent)),
      Member(Lit("issueId"), OptText(r.issue)),
      Member(Lit("approvalId"), OptText(r.approval)),
      Member(Lit("operationId"), OptText(r.operation)),
      Member(Lit("meta"), r.meta) ]
  }

  function Body(r: Receipt): (v: Json)
    ensures v.Obj?
  {
    Obj(Stored(BodyFields(r)))
  }

  lemma BodyKeysDistinct(r: Receipt)
    ensures DistinctKeys(BodyFields(r))
    ensures forall i :: 0 <= i < 11 ==> BodyFields(r)[i].key != Lit("companyId")
  {
    hide OutcomeText, OptText;
    assert Lit("kind")[0] == 107 && Lit("tool")[0] == 116 && Lit("meta")[0] == 109;
    assert Lit("boundary")[0] == 98 && Lit("decision")[0] == 100;
    assert Lit("outcome")[0] == 111 && Lit("agentId")[0] == 97 && Lit("issueId")[0] == 105;
  }

  // --------------------------------------------------------------- ledger readings

  function OperationOf(line: Line): Option<Text> {
    if line.Entry? then TextField(line.body, Lit("operationId")) else None
  }

  function ApprovalOf(line: Line): Option<Text> {
    if line.Entry? then TextField(line.body, Lit("approvalId")) else None
  }

  function IssueOf(line: Line): Option<Text> {
    if line.Entry? then TextField(line.body, Lit("issueId")) else None
  }

  function ToolOf(line: Line): Text {
    if line.Entry? && TextField(line.body, Lit("tool")).Some? then TextField(line.body, Lit("tool")).value else []
  }

  predicate HasOutcome(line: Line, o: Outcome) {
    line.Entry? && TextField(line.body, Lit("outcome")) == Some(OutcomeText(o))
  }

  predicate Says(line: Line, key: string, value: Text) {
    line.Entry? && TextField(line.body, Lit(key)) == Some(value)
  }

  /** Each outcome is stored under its own name. */
  lemma OutcomesNamed(line: Line)
    ensures HasOutcome(line, Reserved) <==> Says(line, "outcome", Lit("reserved"))
    ensures HasOutcome(line, Performed) <==> Says(line, "outcome", Lit("performed"))
    ensures HasOutcome(line, AnonymizedPerformed) <==> Says(line, "outcome", Lit("anonymized_performed"))
    ensures HasOutcome(line, Pending) <==> Says(line, "outcome", Lit("pending"))
    ensures HasOutcome(line, Blocked) <==> Says(line, "outcome", Lit("blocked"))
    ensures HasOutcome(line, Errored) <==> Says(line, "outcome", Lit("error"))
  {}

  lemma OneOutcome(line: Line, a: Outcome, b: Outcome)
    requires HasOutcome(line, a) && HasOutcome(line, b)
    ensures a == b
  {
    hide OutcomeText, Lit;
    OutcomeTextInjective(a, b);
  }

  function MetaText(meta: Json, key: string): Option<Text> {
    TextField(meta, Lit(key))
  }

  function MetaOf(line: Line): Json {
    if line.Entry? && Field(line.body, Lit("meta")).Some? then Field(line.body, Lit("meta")).value else Obj([])
  }

  /** entries() can be read: it throws on a line that does not parse to an object. */
  predicate Readable(lines: seq<Line>) {
    forall i :: 0 <= i < |lines| ==> lines[i].Entry?
  }

  predicate Recorded(lines: seq<Line>, op: Text) {
    exists i :: 0 <= i < |lines| && OperationOf(lines[i]) == Some(op)
  }

  lemma VerifiedReadable(c: Custody, lines: seq<Line>)
    requires Verified(c, lines)
    ensures Readable(lines)
  {
    hide Fault;
    forall i | 0 <= i < |lines| ensures lines[i].Entry? {
      CleanLineIsEntry(c, LinkBefore(lines, i), i + 1, lines[i]);
    }
  }

  datatype Scan = Unreadable | Found(yes: bool)

  /** hasUnresolvedDispatch: one receipt with the identity, of any outcome, blocks it for ever. */
  method HasUnresolvedDispatch(chain: ReceiptChain, op: Text) returns (r: Scan)
    ensures r.Unreadable? <==> !Readable(chain.lines)
    ensures r.Found? ==> (r.yes <==> Recorded(chain.lines, op))
  {
    hide OperationOf;
    for i := 0 to |chain.lines|
      invariant Readable(chain.lines[..i])
    {
      if !chain.lines[i].Entry? { return Unreadable; }
    }
    assert chain.lines[..|chain.lines|] == chain.lines;
    for i := 0 to |chain.lines|
      invariant forall k :: 0 <= k < i ==> OperationOf(chain.lines[k]) != Some(op)
    {
      if OperationOf(chain.lines[i]) == Some(op) { return Found(true); }
    }
    r := Found(false);
  }

  // --------------------------------------------------- what an append leaves behind

  /** The stored line reads back the receipt's fields, company default or not. */
  ghost predicate Reads(line: Line, r: Receipt) {
    && line.Entry? && OperationOf(line) == r.operation && ApprovalOf(line) == r.approval
    && IssueOf(line) == r.issue && ToolOf(line) == r.tool && HasOutcome(line, r.outcome)
  }

  lemma BodyReads(c: Custody, r: Receipt, i: nat)
    requires i < 11
    ensures Field(WithCompany(c, Body(r)), BodyFields(r)[i].key) == BodyFields(r)[i].value
  {
    hide BodyFields, Stored, Lookup, Lit;
    BodyKeysDistinct(r);
    StoredLookup(BodyFields(r), i);
    StoredOmits(BodyFields(r), Lit("companyId"));
    if c.company.Some? {
      LookupAppended(Body(r).members, Member(Lit("companyId"), Str(c.company.value)), BodyFields(r)[i].key);
    }
  }

  lemma StoredBodyReads(c: Custody, r: Receipt, number: int, ts: Text, prev: Text, hash: Text)
    ensures Reads(Entry(number, ts, prev, hash, WithCompany(c, Body(r))), r)
  {
    hide Body, WithCompany, Lit, OutcomeText, Field;
    BodyReads(c, r, 1);
    BodyReads(c, r, 4);
    BodyReads(c, r, 7);
    BodyReads(c, r, 8);
    BodyReads(c, r, 9);
  }

  /** The stored line holds the receipt, field by field. */
  ghost predicate Holds(line: Line, r: Receipt) {
    && Reads(line, r)
    && TextField(line.body, Lit("kind")) == Some(r.kind)
    && TextField(line.body, Lit("payloadSha256")) == Some(r.payload)
    && TextField(line.body, Lit("agentId")) == r.agent
    && Field(line.body, Lit("boundary")) == Some(r.boundary) && Field(line.body, Lit("decision")) == Some(r.decision)
    && Field(line.body, Lit("meta")) == r.meta
  }

  lemma StoredBodyHolds(c: Custody, r: Receipt, number: int, ts: Text, prev: Text, hash: Text)
    ensures Holds(Entry(number, ts, prev, hash, WithCompany(c, Body(r))), r)
  {
    hide Body, WithCompany, Lit, OutcomeText, Field, Reads;
    StoredBodyReads(c, r, number, ts, prev, hash);
    BodyReads(c, r, 0);
    BodyReads(c, r, 2);
    BodyReads(c, r, 3);
    BodyReads(c, r, 5);
    BodyReads(c, r, 6);
    BodyReads(c, r, 10);
  }

  /** An append that adds a readable line adds the whole receipt. */
  lemma AppendHolds(c: Custody, lines: seq<Line>, r: Receipt, ts: Text, disk: Disk)
    ensures var (after, result) := AppendTo(c, lines, Body(r), ts, disk);
      && (after == lines || (|after| == |lines| + 1 && after[..|lines|] == lines
                             && (after[|lines|] == Unparseable || Holds(after[|lines|], r))))
      && (result.Appended? ==> |after| == |lines| + 1 && Holds(after[|lines|], r))
  {
    hide Body, WithCompany, MetaAllowed, ComputeHash, Field, Holds, CompanyHeld, Lit;
    var n := Next(c, lines, Body(r), ts);
    if n.Draft? {
      StoredBodyHolds(c, r, n.entry.number, ts, n.entry.prevHash, n.entry.hash);
    }
  }

  /** Every append leaves the old lines in place and adds at most one: unreadable, or the receipt. */
  lemma AppendLeaves(c: Custody, lines: seq<Line>, r: Receipt, ts: Text, disk: Disk)
    ensures var (after, result) := AppendTo(c, lines, Body(r), ts, disk);
      && (after == lines || (|after| == |lines| + 1 && after[..|lines|] == lines
                             && (after[|lines|] == Unparseable || Reads(after[|lines|], r))))
      && (result.Appended? ==> |after| == |lines| + 1 && Reads(after[|lines|], r))
  {
    hide Body, WithCompany, MetaAllowed, ComputeHash, Field, Reads, CompanyHeld, Lit;
    var n := Next(c, lines, Body(r), ts);
    if n.Draft? {
      StoredBodyReads(c, r, n.entry.number, ts, n.entry.prevHash, n.entry.hash);
    }
  }
}
