/** The exact texts that are hashed: for a receipt, and for the identity of an operation. */
module HashedText {
  import opened Options
  import opened Texts
  import opened CanonicalJson
  import opened CanonicalText
  import opened Receipts
  import opened Operations
  import Access
  import Confidentiality
  import Dispatch
  import Poller

  /** Members in key order are printed as they stand, whatever order they were given in. */
  lemma InOrderPrints(ms: seq<Member<Json>>, order: seq<Member<Json>>)
    requires DistinctKeys(ms) && multiset(ms) == multiset(order) && StrictlySorted(order)
    ensures Canonical(Obj(ms)) == Lit("{") + MembersText(order) + Lit("}")
  {
    SortKeeps(ms);
    SameAsSorted(SortByKey(ms), order);
    SortCanonical(ms);
    MembersJoined(order);
    ObjectIs(ms);
    hide Canonical, SortByKey, MembersText, JoinMembers, Before;
  }

  lemma SameAsSorted(xs: seq<Member<Json>>, ys: seq<Member<Json>>)
    requires StrictlySorted(xs) && StrictlySorted(ys) && multiset(xs) == multiset(ys)
    ensures xs == ys
  {
    hide StrictlySorted;
    forall i | 0 <= i < |xs| ensures xs[i] in ys { assert xs[i] in multiset(xs); }
    forall i | 0 <= i < |ys| ensures ys[i] in xs { assert ys[i] in multiset(ys); }
    SortedUnique(xs, ys);
  }

  lemma FirstSmaller(a: Text, b: Text)
    requires a != [] && b != [] && a[0] < b[0]
    ensures Before(a, b)
  {}

  /** The text hashed for a receipt: the link, then body, number and time as one object. */
  lemma PreimageIs(prevHash: Text, number: nat, ts: Text, body: Json)
    ensures Preimage(prevHash, number, ts, body) ==
      prevHash + (Lit("{") + MembersText(PreimageOrder(number, ts, body)) + Lit("}"))
  {
    hide Lit, Before, Canonical, MembersText, Decimal;
    PreimageSorted(number, ts, body);
    InOrderPrints(HashContent(number, ts, body).members, PreimageOrder(number, ts, body));
  }

  function PreimageOrder(number: nat, ts: Text, body: Json): seq<Member<Json>> {
    [Member(Lit("body"), body), Member(Lit("seq"), Num(Decimal(number))), Member(Lit("ts"), Str(ts))]
  }

  lemma PreimageSorted(number: nat, ts: Text, body: Json)
    ensures var ms := HashContent(number, ts, body).members;
      && DistinctKeys(ms) && multiset(ms) == multiset(PreimageOrder(number, ts, body))
      && StrictlySorted(PreimageOrder(number, ts, body))
  {
    KeysBefore();
    hide Lit, Before, Decimal;
    Rotated(Member(Lit("seq"), Num(Decimal(number))), Member(Lit("ts"), Str(ts)), Member(Lit("body"), body));
  }

  lemma KeysBefore()
    ensures Before(Lit("body"), Lit("seq")) && Before(Lit("body"), Lit("ts")) && Before(Lit("seq"), Lit("ts"))
  {
    assert Lit("body")[0] == 98 && Lit("seq")[0] == 115 && Lit("ts")[0] == 116;
    hide Lit;
  }

  lemma Rotated(a: Member<Json>, b: Member<Json>, c: Member<Json>)
    requires Before(c.key, a.key) && Before(c.key, b.key) && Before(a.key, b.key)
    ensures DistinctKeys([a, b, c]) && multiset([a, b, c]) == multiset([c, a, b]) && StrictlySorted([c, a, b])
  {
    BeforeAsymmetric(c.key, a.key);
    BeforeAsymmetric(c.key, b.key);
    BeforeAsymmetric(a.key, b.key);
    hide Before;
    Turned(a, b, c);
  }

  lemma Turned<T>(a: T, b: T, c: T)
    ensures multiset([a, b, c]) == multiset([c, a, b])
  {
    assert multiset([a, b, c]) == multiset{a, b, c} == multiset([c, a, b]);
  }

  function IdentityOrder(op: OperationInput): seq<Member<Json>> {
    Optional(Lit("approvalId"), op.approval) + Optional(Lit("issueId"), op.issue) +
    Optional(Lit("payloadSha256"), op.payload) +
    [Member(Lit("target"), Str(op.target)), Member(Lit("tool"), Str(op.tool)),
     Member(Lit("version"), Num(Decimal(1)))]
  }

  /** The text hashed for an operation: the fields that are present, in key order, and version 1. */
  lemma IdentityIs(op: OperationInput)
    ensures Canonical(Identity(op)) == Lit("{") + MembersText(IdentityOrder(op)) + Lit("}")
  {
    IdentityStored(op);
    IdentityWellFormed(op);
    var a, i, p := Optional(Lit("approvalId"), op.approval), Optional(Lit("issueId"), op.issue),
      Optional(Lit("payloadSha256"), op.payload);
    var target, tool, version := Member(Lit("target"), Str(op.target)), Member(Lit("tool"), Str(op.tool)),
      Member(Lit("version"), Num(Decimal(1)));
    var order := a + i + p + [target, tool, version];
    var ms := Stored(IdentityFields(op));
    assert Identity(op) == Obj(ms);
    KeysOrdered(op);
    hide Lit, Decimal, Canonical, MembersText, Stored, Before, IdentityFields;
    assert ms == [version, target, tool] + p + i + a;
    SameMembers(version, target, tool, p, i, a);
    InOrderPrints(ms, order);
  }

  lemma SameMembers<T>(v: T, t: T, u: T, p: seq<T>, i: seq<T>, a: seq<T>)
    ensures multiset([v, t, u] + p + i + a) == multiset(a + i + p + [t, u, v])
  {}

  lemma KeysOrdered(op: OperationInput)
    ensures StrictlySorted(IdentityOrder(op))
  {
    var keys := [Lit("approvalId"), Lit("issueId"), Lit("payloadSha256"), Lit("target"), Lit("tool"), Lit("version")];
    assert keys[0][0] == 97 && keys[1][0] == 105 && keys[2][0] == 112 && keys[5][0] == 118;
    assert keys[3][0] == 116 && keys[4][0] == 116 && keys[3][1] == 97 && keys[4][1] == 111;
    assert Before(keys[3], keys[4]);
    forall i, j | 0 <= i < j < 6 ensures Before(keys[i], keys[j]) {
      if !(i == 3 && j == 4) { FirstSmaller(keys[i], keys[j]); }
    }
    hide Lit, Before, Decimal;
  }

  // ---------------------------------------------------------------- receipts of the registries

  lemma Swapped<T>(a: T, b: T)
    ensures multiset([a, b]) == multiset([b, a])
  {}

  /** What is hashed for a revoke: matter and subject. */
  lemma RevokePayloadIs(h: Hash, subject: Text, matter: Text, actor: Text)
    ensures Access.RevokeReceipt(h, subject, matter, actor).payload == h(Lit("{") + MembersText(
      [Member(Lit("matter"), Str(matter)), Member(Lit("subject"), Str(subject))]) + Lit("}"))
  {
    var s, m := Member(Lit("subject"), Str(subject)), Member(Lit("matter"), Str(matter));
    assert Lit("matter")[0] == 109 && Lit("subject")[0] == 115;
    FirstSmaller(m.key, s.key);
    Swapped(s, m);
    hide Lit, Before, Canonical, MembersText;
    InOrderPrints([s, m], [m, s]);
  }

  /** What is hashed for a grant: expiry, matter and subject. */
  lemma GrantPayloadIs(h: Hash, subject: Text, matter: Text, actor: Text, expiresAt: Text)
    ensures Access.GrantReceipt(h, subject, matter, actor, expiresAt).payload == h(Lit("{") + MembersText(
      [Member(Lit("expiresAt"), Str(expiresAt)), Member(Lit("matter"), Str(matter)),
       Member(Lit("subject"), Str(subject))]) + Lit("}"))
  {
    var s, m, e := Member(Lit("subject"), Str(subject)), Member(Lit("matter"), Str(matter)),
      Member(Lit("expiresAt"), Str(expiresAt));
    assert Lit("matter")[0] == 109 && Lit("subject")[0] == 115 && Lit("expiresAt")[0] == 101;
    FirstSmaller(e.key, m.key);
    FirstSmaller(e.key, s.key);
    FirstSmaller(m.key, s.key);
    hide Lit, Before, Canonical, MembersText;
    Backwards(s, m, e);
    InOrderPrints([s, m, e], [e, m, s]);
  }

  lemma Backwards(a: Member<Json>, b: Member<Json>, c: Member<Json>)
    requires Before(c.key, b.key) && Before(c.key, a.key) && Before(b.key, a.key)
    ensures DistinctKeys([a, b, c]) && multiset([a, b, c]) == multiset([c, b, a]) && StrictlySorted([c, b, a])
  {
    BeforeAsymmetric(c.key, a.key);
    BeforeAsymmetric(c.key, b.key);
    BeforeAsymmetric(b.key, a.key);
    hide Before;
    Turned(c, b, a);
    assert multiset([a, b, c]) == multiset{a, b, c} == multiset([c, b, a]);
  }

  /** What is hashed for a registration: matter and tier. */
  lemma RegistrationPayloadIs(h: Hash, g: Confidentiality.Registration, effective: Confidentiality.Tier,
                              agent: Option<Text>)
    ensures Confidentiality.RegistrationReceipt(h, g, effective, agent).payload == h(Lit("{") + MembersText(
      [Member(Lit("issueId"), Str(g.issueId)), Member(Lit("tier"), Str(Confidentiality.TierText(g.tier)))]) + Lit("}"))
  {
    var i, t := Member(Lit("issueId"), Str(g.issueId)), Member(Lit("tier"), Str(Confidentiality.TierText(g.tier)));
    assert Lit("issueId")[0] == 105 && Lit("tier")[0] == 116;
    FirstSmaller(i.key, t.key);
    hide Lit, Before, Canonical, MembersText;
    InOrderPrints([i, t], [i, t]);
  }

  // ------------------------------------------------------------------ identities of dispatches

  function Named(target: string, tool: Text, payload: Text, issue: Option<Text>, approval: Option<Text>): Text {
    Lit("{") + MembersText(
      Optional(Lit("approvalId"), approval) + Optional(Lit("issueId"), issue) +
      [Member(Lit("payloadSha256"), Str(payload)), Member(Lit("target"), Str(Lit(target))),
       Member(Lit("tool"), Str(tool)), Member(Lit("version"), Num(Decimal(1)))]) + Lit("}")
  }

  lemma NamedIs(target: string, tool: Text, payload: Text, issue: Option<Text>, approval: Option<Text>)
    ensures Canonical(Identity(OperationInput(Lit(target), tool, Some(payload), issue, approval))) ==
      Named(target, tool, payload, issue, approval)
  {
    var op := OperationInput(Lit(target), tool, Some(payload), issue, approval);
    IdentityIs(op);
    hide Lit, Decimal, MembersText, Canonical, Identity;
    assert IdentityOrder(op) ==
      Optional(Lit("approvalId"), approval) + Optional(Lit("issueId"), issue) +
      [Member(Lit("payloadSha256"), Str(payload)), Member(Lit("target"), Str(Lit(target))),
       Member(Lit("tool"), Str(tool)), Member(Lit("version"), Num(Decimal(1)))];
  }

  /** What is hashed to identify each kind of call: a performer's, an approval's, an anchor's, a poller comment's. */
  lemma DispatchIdentities(g: Dispatch.Gate, r: Dispatch.Egress, text: Text, issue: Option<Text>, x: Poller.Item)
    ensures Dispatch.PerformerOp(g, r) == g.custody.hash(Named("performer", r.tool, r.payload, r.issue, r.approval))
    ensures Dispatch.ApprovalOp(g, r) == g.custody.hash(Named("paperclip_approval", r.tool, r.payload, r.issue, None))
    ensures Dispatch.AnchorOp(g, text, issue) ==
      g.custody.hash(Named("paperclip_comment", Lit("anchor"), g.custody.hash(text), issue, None))
    ensures Dispatch.PollOp(g, x) ==
      g.custody.hash(Named("paperclip_comment", x.tool, g.custody.hash(Lit("poller:") + x.approval), x.issue,
                           Some(x.approval)))
  {
    hide Lit, Decimal, MembersText, Canonical, Identity, Named;
    NamedIs("performer", r.tool, r.payload, r.issue, r.approval);
    NamedIs("paperclip_approval", r.tool, r.payload, r.issue, None);
    NamedIs("paperclip_comment", Lit("anchor"), g.custody.hash(text), issue, None);
    NamedIs("paperclip_comment", x.tool, g.custody.hash(Lit("poller:") + x.approval), x.issue, Some(x.approval));
  }
}
