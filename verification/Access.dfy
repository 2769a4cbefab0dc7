/** Matter access: the firm's roster folded with the override events receipted on the ledger. */
module Access {
  import opened Options
  import opened Texts
  import opened CanonicalJson
  import opened Receipts
  import opened Operations

  /** Date.parse: milliseconds, or None for a text that is no finite time. */
  type DateParse = Text -> Option<int>

  /** The compiled roster: matters by user, and users by decision class. */
  datatype Baseline = Baseline(matterAccess: map<Text, seq<Text>>, decisionAuthority: map<Text, seq<Text>>)

  /** [A-Za-z0-9_-]{1,128} */
  predicate SafeId(t: Text) {
    && 1 <= |t| <= 128
    && forall i :: 0 <= i < |t| ==> IsDigit(t[i]) || 65 <= t[i] <= 90 || 97 <= t[i] <= 122 || t[i] == 95 || t[i] == 45
  }

  function PairKey(subject: Text, matter: Text): Text {
    subject + [32] + matter
  }

  /** No safe id holds a space, so a joined key names one pair. */
  lemma PairKeyUnique(s: Text, m: Text, t: Text, n: Text)
    requires SafeId(s) && SafeId(t) && PairKey(s, m) == PairKey(t, n)
    ensures s == t && m == n
  {
    SpaceAfter(s, m, t, n);
    SpaceAfter(t, n, s, m);
    Associates(s, [32], m);
    Associates(t, [32], n);
    SplitEqual(s, [32] + m, t, [32] + n);
    SplitEqual([32], m, [32], n);
  }

  lemma SpaceAfter(s: Text, m: Text, t: Text, n: Text)
    requires SafeId(t) && PairKey(s, m) == PairKey(t, n)
    ensures |t| <= |s|
  {
    var k := PairKey(s, m);
    assert k[|s|] == 32;
    assert forall i :: 0 <= i < |t| ==> k[i] == t[i] && t[i] != 32;
  }

  // ------------------------------------------------------------------------ events

  datatype AccessEvent =
    | Epoch(document: Text)
    | Granted(subject: Text, matter: Text, expires: int)
    | Revoked(subject: Text, matter: Text)
    | Unrelated

  predicate IsAccessReceipt(line: Line) {
    && line.Entry?
    && TextField(line.body, Lit("kind")) == Some(Lit("authorization"))
    && TextField(line.body, Lit("tool")) == Some(Lit("matter_access"))
    && HasOutcome(line, Performed)
  }

  /** What the replay loop makes of one receipt; anything malformed is ignored. */
  function Decode(parse: DateParse, line: Line): AccessEvent {
    if !IsAccessReceipt(line) then Unrelated else DecodeMeta(parse, MetaOf(line))
  }

  function DecodeMeta(parse: DateParse, meta: Json): AccessEvent {
    var reason := MetaText(meta, "reason");
    if reason == Some(Lit("access_document_epoch")) then
      var sha := MetaText(meta, "documentSha256");
      if sha.Some? && IsHex64(sha.value) then Epoch(sha.value) else Unrelated
    else
      var subject, matter := MetaText(meta, "subject"), MetaText(meta, "matter");
      if subject.None? || !SafeId(subject.value) || matter.None? || !SafeId(matter.value) then Unrelated
      else if reason == Some(Lit("access_override")) then
        var expiresAt := MetaText(meta, "expiresAt");
        if expiresAt.None? || parse(expiresAt.value).None? then Unrelated
        else Granted(subject.value, matter.value, parse(expiresAt.value).value)
      else if reason == Some(Lit("access_revoke")) then Revoked(subject.value, matter.value)
      else Unrelated
  }

  /** What the meta of a receipt says under a key. */
  function Meta(line: Line, key: string): Option<Text> {
    if line.Entry? && Field(line.body, Lit("meta")).Some?
    then TextField(Field(line.body, Lit("meta")).value, Lit(key)) else None
  }

  /** The line is a performed access receipt that gives this reason. */
  predicate Gives(line: Line, reason: string) {
    && Says(line, "kind", Lit("authorization")) && Says(line, "tool", Lit("matter_access"))
    && Says(line, "outcome", Lit("performed"))
    && Meta(line, "reason") == Some(Lit(reason))
  }

  /** Only a performed access receipt with well-formed ids, and a time or hash that can be read, counts; it counts as
      what it says. */
  lemma DecodeIff(parse: DateParse, line: Line, s: Text, m: Text, x: int, d: Text)
    ensures Decode(parse, line) == Granted(s, m, x) <==>
      && Gives(line, "access_override") && Meta(line, "subject") == Some(s) && Meta(line, "matter") == Some(m)
      && SafeId(s) && SafeId(m)
      && Meta(line, "expiresAt").Some? && parse(Meta(line, "expiresAt").value) == Some(x)
    ensures Decode(parse, line) == Revoked(s, m) <==>
      && Gives(line, "access_revoke") && Meta(line, "subject") == Some(s) && Meta(line, "matter") == Some(m)
      && SafeId(s) && SafeId(m)
    ensures Decode(parse, line) == Epoch(d) <==>
      Gives(line, "access_document_epoch") && Meta(line, "documentSha256") == Some(d) && IsHex64(d)
  {
    ReasonsDiffer();
    NoField(Lit("reason"));
    OutcomeIs(line);
    hide Lit, SafeId, IsHex64, Lookup, OutcomeText, HasOutcome;
  }

  lemma NoField(key: Text)
    ensures TextField(Obj([]), key) == None
  {}

  lemma OutcomeIs(line: Line)
    ensures HasOutcome(line, Performed) <==> Says(line, "outcome", Lit("performed"))
  {}

  // ---------------------------------------------------------------------- the fold

  datatype Folded = Grant(epoch: Option<Text>, expires: int) | Revoke(epoch: Option<Text>)

  /** What the registry holds in memory. */
  datatype Registry = Registry(events: map<Text, Folded>, epoch: Option<Text>)

  const EMPTY := Registry(map[], None)

  function Apply(r: Registry, e: AccessEvent): Registry {
    match e
    case Epoch(d) => r.(epoch := Some(d))
    case Granted(s, m, expires) => r.(events := r.events[PairKey(s, m) := Grant(r.epoch, expires)])
    case Revoked(s, m) => r.(events := r.events[PairKey(s, m) := Revoke(r.epoch)])
    case Unrelated => r
  }

  function Replay(parse: DateParse, lines: seq<Line>, n: nat): Registry
    requires n <= |lines|
  {
    if n == 0 then EMPTY else Apply(Replay(parse, lines, n - 1), Decode(parse, lines[n - 1]))
  }

  function Rebuilt(parse: DateParse, lines: seq<Line>): Registry {
    Replay(parse, lines, |lines|)
  }

  lemma {:induction false} ReplayPrefix(parse: DateParse, lines: seq<Line>, more: seq<Line>, n: nat)
    requires n <= |lines| <= |more| && more[..|lines|] == lines
    ensures Replay(parse, more, n) == Replay(parse, lines, n)
  {
    hide Decode, Apply;
    if n > 0 {
      ReplayPrefix(parse, lines, more, n - 1);
      assert more[n - 1] == more[..|lines|][n - 1];
    }
  }

  lemma RebuiltExtends(parse: DateParse, lines: seq<Line>, line: Line)
    ensures Rebuilt(parse, lines + [line]) == Apply(Rebuilt(parse, lines), Decode(parse, line))
  {
    hide Decode, Apply;
    var more := lines + [line];
    assert more[..|lines|] == lines;
    ReplayPrefix(parse, lines, more, |lines|);
  }

  // --------------------------------------------------------------- deciding access

  predicate BaselineGrants(b: Baseline, user: Text, matter: Text) {
    user in b.matterAccess && matter in b.matterAccess[user]
  }

  predicate Entitled(r: Registry, b: Baseline, now: int, user: Text, matter: Text) {
    SafeId(user) && SafeId(matter) &&
    var base, key := BaselineGrants(b, user, matter), PairKey(user, matter);
    if key !in r.events then base
    else
      match r.events[key]
      case Revoke(epoch) => epoch != r.epoch && base
      case Grant(_, expires) => now < expires || base
  }

  /** Is line i an event for exactly this pair? */
  predicate Concerns(parse: DateParse, lines: seq<Line>, i: nat, user: Text, matter: Text) {
    i < |lines| &&
    match Decode(parse, lines[i])
    case Granted(s, m, _) => s == user && m == matter
    case Revoked(s, m) => s == user && m == matter
    case _ => false
  }

  /** The last event for the pair among the first n lines, by position. */
  function LastEvent(parse: DateParse, lines: seq<Line>, n: nat, user: Text, matter: Text): Option<nat>
    requires n <= |lines|
  {
    if n == 0 then None
    else if Concerns(parse, lines, n - 1, user, matter) then Some(n - 1)
    else LastEvent(parse, lines, n - 1, user, matter)
  }

  /** The document hash in force before line n. */
  function DocumentAt(parse: DateParse, lines: seq<Line>, n: nat): Option<Text>
    requires n <= |lines|
  {
    if n == 0 then None
    else
      match Decode(parse, lines[n - 1])
      case Epoch(d) => Some(d)
      case _ => DocumentAt(parse, lines, n - 1)
  }

  lemma {:induction false} LastEventIsLast(parse: DateParse, lines: seq<Line>, n: nat, user: Text, matter: Text)
    requires n <= |lines|
    ensures var i := LastEvent(parse, lines, n, user, matter);
      && (i.Some? ==> i.value < n && Concerns(parse, lines, i.value, user, matter))
      && forall k: nat :: k < n && Concerns(parse, lines, k, user, matter) ==> i.Some? && k <= i.value
  {
    hide Concerns;
    if n > 0 { LastEventIsLast(parse, lines, n - 1, user, matter); }
  }

  /** The remembered event is line i's, with the document in force there. */
  ghost predicate Remembers(parse: DateParse, lines: seq<Line>, i: nat, f: Folded) {
    i < |lines| &&
    match Decode(parse, lines[i])
    case Granted(_, _, expires) => f == Grant(DocumentAt(parse, lines, i), expires)
    case Revoked(_, _) => f == Revoke(DocumentAt(parse, lines, i))
    case _ => false
  }

  /** The folded state holds, for each pair, its last event with the document in force then. */
  lemma {:induction false} ReplayReads(parse: DateParse, lines: seq<Line>, n: nat, user: Text, matter: Text)
    requires n <= |lines| && SafeId(user)
    ensures var r := Replay(parse, lines, n);
      && r.epoch == DocumentAt(parse, lines, n)
      && match LastEvent(parse, lines, n, user, matter)
         case None => PairKey(user, matter) !in r.events
         case Some(i) =>
           i < n && PairKey(user, matter) in r.events && Remembers(parse, lines, i, r.events[PairKey(user, matter)])
  {
    hide Decode, PairKey, SafeId;
    if n > 0 {
      ReplayReads(parse, lines, n - 1, user, matter);
      var e := Decode(parse, lines[n - 1]);
      DecodedSafe(parse, lines[n - 1]);
      if (e.Granted? || e.Revoked?) && PairKey(e.subject, e.matter) == PairKey(user, matter) {
        PairKeyUnique(e.subject, e.matter, user, matter);
      }
    }
  }

  lemma DecodedSafe(parse: DateParse, line: Line)
    ensures var e := Decode(parse, line); e.Granted? || e.Revoked? ==> SafeId(e.subject) && SafeId(e.matter)
  {
    hide SafeId, Lit, MetaText, IsAccessReceipt, MetaOf;
  }

  /** The roster lists the matter among the user's. */
  predicate OnRoster(b: Baseline, user: Text, matter: Text) {
    user in b.matterAccess && exists i :: 0 <= i < |b.matterAccess[user]| && b.matterAccess[user][i] == matter
  }

  lemma OnRosterIs(b: Baseline, user: Text, matter: Text)
    ensures BaselineGrants(b, user, matter) <==> OnRoster(b, user, matter)
  {}

  /** The rule a reader would state: the last event for the pair decides, then the roster. */
  ghost predicate ReadsEntitled(parse: DateParse, lines: seq<Line>, b: Baseline, now: int, user: Text, matter: Text) {
    SafeId(user) && SafeId(matter) &&
    match LastEvent(parse, lines, |lines|, user, matter)
    case None => OnRoster(b, user, matter)
    case Some(i) =>
      i < |lines| &&
      match Decode(parse, lines[i])
      case Granted(_, _, expires) => now < expires || OnRoster(b, user, matter)
      case _ => OnRoster(b, user, matter) && DocumentAt(parse, lines, i) != DocumentAt(parse, lines, |lines|)
  }

  /** Access depends only on the last event for that exact pair, its expiry, the roster, and the document hash. */
  lemma EntitledIsLastEvent(parse: DateParse, lines: seq<Line>, b: Baseline, now: int, user: Text, matter: Text)
    ensures Entitled(Rebuilt(parse, lines), b, now, user, matter) <==> ReadsEntitled(parse, lines, b, now, user, matter)
  {
    OnRosterIs(b, user, matter);
    hide Decode, PairKey, SafeId, BaselineGrants, OnRoster, Concerns;
    if SafeId(user) { ReplayReads(parse, lines, |lines|, user, matter); }
  }

  // ------------------------------------------------------------------- writing events

  datatype AccessError = InvalidId | SeparationOfDuties | InvalidExpiry | InvalidDocument | NotReceipted | LedgerCorrupt

  function AccessReceipt(payload: Text, issue: Option<Text>, meta: Json): Receipt {
    Receipt(Lit("authorization"), Lit("matter_access"), Null, Null, Performed, payload, None, issue, None, None,
            Some(meta))
  }

  function GrantMeta(subject: Text, matter: Text, actor: Text, expiresAt: Text): Json {
    Obj([Member(Lit("reason"), Str(Lit("access_override"))), Member(Lit("subject"), Str(subject)),
         Member(Lit("matter"), Str(matter)), Member(Lit("grantedBy"), Str(actor)),
         Member(Lit("expiresAt"), Str(expiresAt))])
  }

  function RevokeMeta(subject: Text, matter: Text, actor: Text): Json {
    Obj([Member(Lit("reason"), Str(Lit("access_revoke"))), Member(Lit("subject"), Str(subject)),
         Member(Lit("matter"), Str(matter)), Member(Lit("revokedBy"), Str(actor))])
  }

  function EpochMeta(document: Text): Json {
    Obj([Member(Lit("reason"), Str(Lit("access_document_epoch"))), Member(Lit("documentSha256"), Str(document))])
  }

  function GrantReceipt(h: Hash, subject: Text, matter: Text, actor: Text, expiresAt: Text): Receipt {
    AccessReceipt(
      h(Canonical(Obj([Member(Lit("subject"), Str(subject)), Member(Lit("matter"), Str(matter)),
                       Member(Lit("expiresAt"), Str(expiresAt))]))),
      Some(matter), GrantMeta(subject, matter, actor, expiresAt))
  }

  function RevokeReceipt(h: Hash, subject: Text, matter: Text, actor: Text): Receipt {
    AccessReceipt(
      h(Canonical(Obj([Member(Lit("subject"), Str(subject)), Member(Lit("matter"), Str(matter))]))),
      Some(matter), RevokeMeta(subject, matter, actor))
  }

  function EpochReceipt(document: Text): Receipt {
    AccessReceipt(document, None, EpochMeta(document))
  }

  /** The stored receipt is an access receipt and carries its meta. */
  lemma AccessReceiptReads(c: Custody, r: Receipt, number: int, ts: Text, prev: Text, hash: Text)
    requires r.kind == Lit("authorization") && r.tool == Lit("matter_access") && r.outcome == Performed && r.meta.Some?
    ensures var line := Entry(number, ts, prev, hash, WithCompany(c, Body(r)));
      IsAccessReceipt(line) && MetaOf(line) == r.meta.value
  {
    hide Body, WithCompany, Lit, OutcomeText, Field;
    BodyReads(c, r, 0);
    BodyReads(c, r, 1);
    BodyReads(c, r, 4);
    BodyReads(c, r, 10);
  }

  lemma ReasonsDiffer()
    ensures Lit("access_override") != Lit("access_document_epoch")
    ensures Lit("access_revoke") != Lit("access_document_epoch") && Lit("access_revoke") != Lit("access_override")
  {}

  lemma GrantMetaReads(parse: DateParse, subject: Text, matter: Text, actor: Text, expiresAt: Text)
    requires SafeId(subject) && SafeId(matter) && parse(expiresAt).Some?
    ensures DecodeMeta(parse, GrantMeta(subject, matter, actor, expiresAt)) ==
      Granted(subject, matter, parse(expiresAt).value)
  {
    var ms := GrantMeta(subject, matter, actor, expiresAt).members;
    assert DistinctKeys(ms) by {
      assert Lit("reason")[0] != Lit("matter")[0] && Lit("grantedBy")[0] != Lit("expiresAt")[0];
    }
    ReasonsDiffer();
    hide Lit, SafeId, Lookup;
    LookupUnique(ms, 0);
    LookupUnique(ms, 1);
    LookupUnique(ms, 2);
    LookupUnique(ms, 4);
  }

  lemma RevokeMetaReads(parse: DateParse, subject: Text, matter: Text, actor: Text)
    requires SafeId(subject) && SafeId(matter)
    ensures DecodeMeta(parse, RevokeMeta(subject, matter, actor)) == Revoked(subject, matter)
  {
    var ms := RevokeMeta(subject, matter, actor).members;
    assert DistinctKeys(ms) by { assert Lit("reason")[0] != Lit("matter")[0]; }
    ReasonsDiffer();
    hide Lit, SafeId, Lookup;
    LookupUnique(ms, 0);
    LookupUnique(ms, 1);
    LookupUnique(ms, 2);
  }

  lemma EpochMetaReads(parse: DateParse, document: Text)
    requires IsHex64(document)
    ensures DecodeMeta(parse, EpochMeta(document)) == Epoch(document)
  {
    var ms := EpochMeta(document).members;
    assert DistinctKeys(ms);
    hide Lit, IsHex64, Lookup;
    LookupUnique(ms, 0);
    LookupUnique(ms, 1);
  }

  /** An operation on a live registry: the event it receipts, and what it checks first. */
  datatype Command =
    | GrantAccess(subject: Text, matter: Text, actor: Text, expiresAt: Option<Text>)
    | RevokeAccess(subject: Text, matter: Text, actor: Text)
    | LoadDocument(document: Text)

  function Refusal(parse: DateParse, cmd: Command, now: int): Option<AccessError> {
    match cmd
    case GrantAccess(s, m, a, expiresAt) =>
      if !SafeId(s) || !SafeId(m) || !SafeId(a) then Some(InvalidId)
      else if a == s then Some(SeparationOfDuties)
      else if expiresAt.None? || parse(expiresAt.value).None? then Some(InvalidExpiry)
      else if parse(expiresAt.value).value <= now then Some(InvalidExpiry)
      else None
    case RevokeAccess(s, m, a) => if !SafeId(s) || !SafeId(m) || !SafeId(a) then Some(InvalidId) else None
    case LoadDocument(d) => if IsHex64(d) then None else Some(InvalidDocument)
  }

  function ReceiptFor(h: Hash, cmd: Command): Receipt {
    match cmd
    case GrantAccess(s, m, a, e) => GrantReceipt(h, s, m, a, if e.Some? then e.value else [])
    case RevokeAccess(s, m, a) => RevokeReceipt(h, s, m, a)
    case LoadDocument(d) => EpochReceipt(d)
  }

  function EventFor(parse: DateParse, cmd: Command): AccessEvent {
    match cmd
    case GrantAccess(s, m, _, e) =>
      if e.Some? && parse(e.value).Some? then Granted(s, m, parse(e.value).value) else Unrelated
    case RevokeAccess(s, m, _) => Revoked(s, m)
    case LoadDocument(d) => Epoch(d)
  }

  /** The receipt an accepted command writes decodes to the event the live registry applies. */
  lemma ReceiptDecodes(c: Custody, parse: DateParse, cmd: Command, now: int, lines: seq<Line>, ts: Text)
    requires Refusal(parse, cmd, now) == None
    ensures var n := Next(c, lines, Body(ReceiptFor(c.hash, cmd)), ts);
      n.Draft? ==> n.entry.Entry? && Decode(parse, n.entry) == EventFor(parse, cmd)
  {
    var r := ReceiptFor(c.hash, cmd);
    ReceiptShape(c.hash, cmd);
    var n := Next(c, lines, Body(r), ts);
    if n.Draft? {
      hide Body, WithCompany, MetaAllowed, ComputeHash, Field, CompanyHeld, Lit, ReceiptFor, IsAccessReceipt, MetaOf,
        DecodeMeta, GrantMeta, RevokeMeta, EpochMeta, SafeId, IsHex64;
      AccessReceiptReads(c, r, n.entry.number, ts, n.entry.prevHash, n.entry.hash);
      match cmd
      case GrantAccess(s, m, a, e) => GrantMetaReads(parse, s, m, a, e.value);
      case RevokeAccess(s, m, a) => RevokeMetaReads(parse, s, m, a);
      case LoadDocument(d) => EpochMetaReads(parse, d);
    }
  }

  lemma ReceiptShape(h: Hash, cmd: Command)
    ensures var r := ReceiptFor(h, cmd);
      && r.kind == Lit("authorization") && r.tool == Lit("matter_access") && r.outcome == Performed
      && (match cmd
          case GrantAccess(s, m, a, e) => r.meta == Some(GrantMeta(s, m, a, if e.Some? then e.value else []))
          case RevokeAccess(s, m, a) => r.meta == Some(RevokeMeta(s, m, a))
          case LoadDocument(d) => r.meta == Some(EpochMeta(d)))
  {
    hide Lit, GrantMeta, RevokeMeta, EpochMeta, Canonical;
  }

  /** Ledger and live state after a command; the live state moves only when the append returned. */
  function Execute(c: Custody, parse: DateParse, lines: seq<Line>, r: Registry, cmd: Command, now: int, ts: Text,
                   disk: Disk)
    : (result: (seq<Line>, Registry, Option<AccessError>))
  {
    var refusal := Refusal(parse, cmd, now);
    if refusal.Some? then (lines, r, refusal)
    else
      var (after, append) := AppendTo(c, lines, Body(ReceiptFor(c.hash, cmd)), ts, disk);
      if append.Appended? then (after, Apply(r, EventFor(parse, cmd)), None) else (after, r, Some(NotReceipted))
  }

  // ------------------------------------------------------- what a command does, spelled out

  /** Letters, digits, underscores and hyphens, 1 to 128 of them. */
  predicate IsId(t: Text) { SpelledIn(t, UPPER + LOWER + DIGITS + "_-", 1, 128) }

  predicate IsSha256(t: Text) { SpelledIn(t, DIGITS + "abcdef", 64, 64) }

  /** A time that can be read and is still to come. */
  predicate IsLater(parse: DateParse, time: Option<Text>, now: int) {
    time.Some? && parse(time.value).Some? && parse(time.value).value > now
  }

  lemma IsIdIs(t: Text)
    ensures SafeId(t) <==> IsId(t)
  {
    hide Lit;
    forall u: CodeUnit
      ensures u in Lit(UPPER + LOWER + DIGITS + "_-") <==>
        IsDigit(u) || 65 <= u <= 90 || 97 <= u <= 122 || u == 95 || u == 45
    {
      InAlphabet(u, "_-");
      InLit(u, "_-");
      assert "_-"[0] as int == 95 && "_-"[1] as int == 45;
    }
  }

  lemma IsSha256Is(t: Text)
    ensures IsHex64(t) <==> IsSha256(t)
  {
    hide Lit;
    forall u: CodeUnit ensures u in Lit(DIGITS + "abcdef") <==> IsDigit(u) || 97 <= u <= 102 {
      InHex(u);
    }
  }

  /** Which error, exactly; with none, or NotReceipted from the append, everything asked for was in order. */
  ghost predicate IsAnswer(parse: DateParse, cmd: Command, now: int, error: Option<AccessError>) {
    match cmd
    case GrantAccess(s, m, a, expiresAt) =>
      var ids, later := IsId(s) && IsId(m) && IsId(a), IsLater(parse, expiresAt, now);
      && (error == Some(InvalidId) <==> !ids)
      && (error == Some(SeparationOfDuties) <==> ids && a == s)
      && (error == Some(InvalidExpiry) <==> ids && a != s && !later)
      && (error == None || error == Some(NotReceipted) <==> ids && a != s && later)
    case RevokeAccess(s, m, a) =>
      var ids := IsId(s) && IsId(m) && IsId(a);
      && (error == Some(InvalidId) <==> !ids)
      && (error == None || error == Some(NotReceipted) <==> ids)
    case LoadDocument(d) =>
      && (error == Some(InvalidDocument) <==> !IsSha256(d))
      && (error == None || error == Some(NotReceipted) <==> IsSha256(d))
  }

  /** Commands are answered as the rule says, and an error changes nothing in memory. */
  lemma CommandAnswered(c: Custody, parse: DateParse, lines: seq<Line>, r: Registry, cmd: Command, now: int, ts: Text,
                        disk: Disk)
    ensures var (after, live, error) := Execute(c, parse, lines, r, cmd, now, ts, disk);
      && IsAnswer(parse, cmd, now, error) && (error.Some? ==> live == r)
      && (error.Some? && error != Some(NotReceipted) ==> after == lines)
  {
    hide SafeId, IsId, IsHex64, IsSha256, AppendTo, Body, ReceiptFor, EventFor, Apply;
    forall t ensures SafeId(t) <==> IsId(t) { IsIdIs(t); }
    forall t ensures IsHex64(t) <==> IsSha256(t) { IsSha256Is(t); }
  }

  /** A grant that succeeds gives access until it expires; a revoke that succeeds takes it away, whatever the roster
      says, until the document is loaded with another hash; neither touches another pair. */
  lemma CommandTakesEffect(c: Custody, parse: DateParse, lines: seq<Line>, r: Registry, cmd: Command, now: int,
                           ts: Text, disk: Disk, b: Baseline, at: int, user: Text, matter: Text)
    requires Execute(c, parse, lines, r, cmd, now, ts, disk).2 == None
    ensures var live := Execute(c, parse, lines, r, cmd, now, ts, disk).1;
      match cmd
      case GrantAccess(s, m, _, e) =>
        && e.Some? && parse(e.value).Some?
        && (user == s && matter == m ==>
            (Entitled(live, b, at, user, matter) <==> at < parse(e.value).value || OnRoster(b, user, matter)))
        && (user != s || matter != m ==> (Entitled(live, b, at, user, matter) <==> Entitled(r, b, at, user, matter)))
      case RevokeAccess(s, m, _) =>
        && (user == s && matter == m ==> !Entitled(live, b, at, user, matter))
        && (user != s || matter != m ==> (Entitled(live, b, at, user, matter) <==> Entitled(r, b, at, user, matter)))
      case LoadDocument(d) =>
        live.events == r.events && live.epoch == Some(d)
  {
    OnRosterIs(b, user, matter);
    hide AppendTo, Body, ReceiptFor, SafeId, IsHex64, PairKey, BaselineGrants, OnRoster;
    if (cmd.GrantAccess? || cmd.RevokeAccess?) && SafeId(user) {
      if PairKey(cmd.subject, cmd.matter) == PairKey(user, matter) {
        PairKeyUnique(cmd.subject, cmd.matter, user, matter);
      }
    }
  }

  // ----------------------------------------------------------------- replay equals live

  /** A registry rebuilt from a verified ledger would hold the live state. */
  ghost predicate InStep(c: Custody, parse: DateParse, lines: seq<Line>, live: Registry) {
    Verified(c, lines) && live == Rebuilt(parse, lines)
  }

  lemma ExecuteKeepsStep(c: Custody, parse: DateParse, lines: seq<Line>, live: Registry, cmd: Command, now: int,
                         ts: Text, disk: Disk)
    requires InStep(c, parse, lines, live) && (disk.Written? || disk.NotWritten?)
    ensures var (after, r, error) := Execute(c, parse, lines, live, cmd, now, ts, disk);
      && InStep(c, parse, after, r)
      && (error.Some? ==> after == lines && r == live)
  {
    hide Body, Next, Verified, Decode, Apply, ReceiptFor, EventFor, Refusal, Replay, Rebuilt;
    if Refusal(parse, cmd, now) == None {
      ReceiptDecodes(c, parse, cmd, now, lines, ts);
      NextIsSound(c, lines, Body(ReceiptFor(c.hash, cmd)), ts);
      var n := Next(c, lines, Body(ReceiptFor(c.hash, cmd)), ts);
      if n.Draft? { RebuiltExtends(parse, lines, n.entry); }
    }
  }

  /** What happens to a gate: commands, other routes' receipts, and restarts that rebuild from the ledger. */
  datatype Event =
    | Command(cmd: Command, now: int, ts: Text, disk: Disk)
    | Append(body: Json, ts: Text, disk: Disk)
    | Restart

  datatype Live = Live(lines: seq<Line>, registry: Registry)

  function Advance(c: Custody, parse: DateParse, s: Live, e: Event): Live {
    match e
    case Command(cmd, now, ts, disk) =>
      var (lines, r, _) := Execute(c, parse, s.lines, s.registry, cmd, now, ts, disk);
      Live(lines, r)
    case Append(body, ts, disk) => if body.Obj? then s.(lines := AppendTo(c, s.lines, body, ts, disk).0) else s
    case Restart => s.(registry := Rebuilt(parse, s.lines))
  }

  function After(c: Custody, parse: DateParse, run: seq<Event>): Live {
    if run == [] then Live([], EMPTY) else Advance(c, parse, After(c, parse, run[..|run| - 1]), run[|run| - 1])
  }

  /** Other routes write no access events. */
  ghost predicate Foreign(c: Custody, parse: DateParse, lines: seq<Line>, e: Event) {
    e.Append? && e.body.Obj? ==>
      var n := Next(c, lines, e.body, e.ts); n.Draft? ==> Decode(parse, n.entry) == Unrelated
  }

  /** No write is torn, and no command's write fails after its line reached the file; other routes' may. */
  predicate WholeWrite(e: Event) {
    match e
    case Command(_, _, _, disk) => disk.Written? || disk.NotWritten?
    case Append(_, _, disk) => !disk.Torn?
    case Restart => true
  }

  ghost predicate Ordinary(c: Custody, parse: DateParse, run: seq<Event>) {
    run == [] ||
    (var before := run[..|run| - 1];
     && Ordinary(c, parse, before) && WholeWrite(run[|run| - 1])
     && Foreign(c, parse, After(c, parse, before).lines, run[|run| - 1]))
  }

  lemma ForeignKeepsStep(c: Custody, parse: DateParse, s: Live, e: Event)
    requires InStep(c, parse, s.lines, s.registry) && e.Append? && WholeWrite(e) && Foreign(c, parse, s.lines, e)
    ensures InStep(c, parse, Advance(c, parse, s, e).lines, Advance(c, parse, s, e).registry)
  {
    hide Next, Verified, Decode, Replay, Rebuilt;
    if e.body.Obj? {
      NextIsSound(c, s.lines, e.body, e.ts);
      var n := Next(c, s.lines, e.body, e.ts);
      if n.Draft? { RebuiltExtends(parse, s.lines, n.entry); }
    }
  }

  // --------------------------------------------------------------- who asked for an event

  /** Other routes write no access events, all through the run. */
  ghost predicate Watched(c: Custody, parse: DateParse, run: seq<Event>) {
    forall i :: 0 <= i < |run| ==> Foreign(c, parse, After(c, parse, run[..i]).lines, run[i])
  }

  /** The event is what this command asked for, and the command was in order when it was given. */
  ghost predicate AskedBy(parse: DateParse, e: Event, line: Line) {
    e.Command? &&
    match Decode(parse, line)
    case Granted(s, m, expires) =>
      && e.cmd.GrantAccess? && e.cmd.subject == s && e.cmd.matter == m && e.cmd.actor != s
      && IsId(s) && IsId(m) && IsId(e.cmd.actor)
      && e.cmd.expiresAt.Some? && parse(e.cmd.expiresAt.value) == Some(expires) && e.now < expires
      && MetaText(MetaOf(line), "grantedBy") == Some(e.cmd.actor)
    case Revoked(s, m) =>
      && e.cmd.RevokeAccess? && e.cmd.subject == s && e.cmd.matter == m && IsId(s) && IsId(m)
      && MetaText(MetaOf(line), "revokedBy") == Some(e.cmd.actor)
    case Epoch(d) => e.cmd.LoadDocument? && e.cmd.document == d && IsSha256(d)
    case Unrelated => false
  }

  lemma ActorReads(subject: Text, matter: Text, actor: Text, expiresAt: Text)
    ensures MetaText(GrantMeta(subject, matter, actor, expiresAt), "grantedBy") == Some(actor)
    ensures MetaText(RevokeMeta(subject, matter, actor), "revokedBy") == Some(actor)
  {
    var grant := GrantMeta(subject, matter, actor, expiresAt).members;
    var revoke := RevokeMeta(subject, matter, actor).members;
    assert DistinctKeys(grant) by {
      assert Lit("reason")[0] != Lit("matter")[0] && Lit("grantedBy")[0] != Lit("expiresAt")[0];
    }
    assert DistinctKeys(revoke) by { assert Lit("reason")[2] != Lit("revokedBy")[2]; }
    hide Lit, Lookup;
    LookupUnique(grant, 3);
    LookupUnique(revoke, 3);
  }

  lemma DraftAsked(c: Custody, parse: DateParse, lines: seq<Line>, e: Event)
    requires e.Command? && Refusal(parse, e.cmd, e.now) == None
    ensures var n := Next(c, lines, Body(ReceiptFor(c.hash, e.cmd)), e.ts); n.Draft? ==> AskedBy(parse, e, n.entry)
  {
    var n := Next(c, lines, Body(ReceiptFor(c.hash, e.cmd)), e.ts);
    ReceiptShape(c.hash, e.cmd);
    CommandAnswered(c, parse, lines, EMPTY, e.cmd, e.now, e.ts, NotWritten);
    if n.Draft? {
      ReceiptDecodes(c, parse, e.cmd, e.now, lines, e.ts);
      DraftMeta(c, lines, e.cmd, e.ts);
      hide Body, Next, Lit, ReceiptFor, MetaOf, GrantMeta, RevokeMeta, EpochMeta, SafeId, IsHex64, IsId, IsSha256;
      hide Decode, MetaText, Execute;
      if e.cmd.GrantAccess? { ActorReads(e.cmd.subject, e.cmd.matter, e.cmd.actor, e.cmd.expiresAt.value); }
      if e.cmd.RevokeAccess? { ActorReads(e.cmd.subject, e.cmd.matter, e.cmd.actor, []); }
    }
  }

  lemma DraftMeta(c: Custody, lines: seq<Line>, cmd: Command, ts: Text)
    ensures var n := Next(c, lines, Body(ReceiptFor(c.hash, cmd)), ts);
      n.Draft? ==> ReceiptFor(c.hash, cmd).meta == Some(MetaOf(n.entry))
  {
    var r := ReceiptFor(c.hash, cmd);
    var n := Next(c, lines, Body(r), ts);
    if n.Draft? {
      ReceiptShape(c.hash, cmd);
      hide Body, WithCompany, MetaAllowed, ComputeHash, Field, CompanyHeld, Lit, ReceiptFor, IsAccessReceipt, MetaOf;
      AccessReceiptReads(c, r, n.entry.number, ts, n.entry.prevHash, n.entry.hash);
    }
  }

  lemma StepAsked(c: Custody, parse: DateParse, s: Live, e: Event, n: nat)
    requires Foreign(c, parse, s.lines, e)
    requires n < |Advance(c, parse, s, e).lines| && Decode(parse, Advance(c, parse, s, e).lines[n]) != Unrelated
    ensures var lines := Advance(c, parse, s, e).lines;
      (n < |s.lines| && lines[n] == s.lines[n]) || AskedBy(parse, e, lines[n])
  {
    UnreadableUnrelated(parse);
    hide Body, Next, Decode, ReceiptFor, EventFor, Refusal, Apply, Rebuilt, AskedBy;
    if e.Command? && Refusal(parse, e.cmd, e.now) == None { DraftAsked(c, parse, s.lines, e); }
  }

  lemma UnreadableUnrelated(parse: DateParse)
    ensures Decode(parse, Unparseable) == Unrelated
  {}

  /** Every access event on the ledger is what some command of the run asked for when it was in order to. */
  lemma {:induction false} EventAsked(c: Custody, parse: DateParse, run: seq<Event>, n: nat) returns (i: nat)
    requires Watched(c, parse, run) && n < |After(c, parse, run).lines|
    requires Decode(parse, After(c, parse, run).lines[n]) != Unrelated
    ensures i < |run| && AskedBy(parse, run[i], After(c, parse, run).lines[n])
  {
    hide Advance, Decode, AskedBy, Foreign;
    var before, last := run[..|run| - 1], run[|run| - 1];
    assert Watched(c, parse, before) by {
      forall k | 0 <= k < |before| ensures Foreign(c, parse, After(c, parse, before[..k]).lines, before[k]) {
        assert before[..k] == run[..k];
      }
    }
    var s := After(c, parse, before);
    assert run[..|run| - 1] == before;
    StepAsked(c, parse, s, last, n);
    if n < |s.lines| && After(c, parse, run).lines[n] == s.lines[n] {
      i := EventAsked(c, parse, before, n);
    } else {
      i := |run| - 1;
    }
  }

  /** No grant on the ledger was given by its subject. */
  lemma NoSelfGrant(c: Custody, parse: DateParse, run: seq<Event>, n: nat)
    requires Watched(c, parse, run) && n < |After(c, parse, run).lines|
    requires Decode(parse, After(c, parse, run).lines[n]).Granted?
    ensures var line := After(c, parse, run).lines[n];
      MetaText(MetaOf(line), "grantedBy").Some? &&
      MetaText(MetaOf(line), "grantedBy") != Some(Decode(parse, line).subject)
  {
    hide Decode, After, Foreign, MetaText, IsId;
    var i := EventAsked(c, parse, run, n);
  }

  /** Whoever is entitled beyond the roster was granted it by somebody else, for a time not yet over. */
  lemma EntitledByAnother(c: Custody, parse: DateParse, run: seq<Event>, b: Baseline, now: int, user: Text,
                          matter: Text)
    returns (i: nat)
    requires Watched(c, parse, run) && !OnRoster(b, user, matter)
    requires Entitled(Rebuilt(parse, After(c, parse, run).lines), b, now, user, matter)
    ensures i < |run| && run[i].Command? && run[i].cmd.GrantAccess?
    ensures run[i].cmd.subject == user && run[i].cmd.matter == matter && run[i].cmd.actor != user
    ensures IsLater(parse, run[i].cmd.expiresAt, now)
  {
    hide Decode, After, Foreign, MetaText, IsId, OnRoster, Entitled, Rebuilt;
    var lines := After(c, parse, run).lines;
    EntitledIsLastEvent(parse, lines, b, now, user, matter);
    LastEventIsLast(parse, lines, |lines|, user, matter);
    i := EventAsked(c, parse, run, LastEvent(parse, lines, |lines|, user, matter).value);
  }

  /** After any interleaving of grants, revokes, reloads, other receipts and restarts, replay equals live. */
  lemma {:induction false} ReplayEqualsLive(c: Custody, parse: DateParse, run: seq<Event>)
    requires Ordinary(c, parse, run)
    ensures var s := After(c, parse, run); Verified(c, s.lines) && s.registry == Rebuilt(parse, s.lines)
  {
    if run == [] {
      assert InStep(c, parse, [], EMPTY);
    } else {
      hide Execute, Verified, Rebuilt, AppendTo, Foreign;
      var before, e := run[..|run| - 1], run[|run| - 1];
      ReplayEqualsLive(c, parse, before);
      var s := After(c, parse, before);
      match e
      case Command(cmd, now, ts, disk) => ExecuteKeepsStep(c, parse, s.lines, s.registry, cmd, now, ts, disk);
      case Append(_, _, _) => ForeignKeepsStep(c, parse, s, e);
      case Restart =>
    }
  }

  /** Every command keeps replay and live in step when its write ends this way. */
  ghost predicate AlwaysInStep(disk: Disk) {
    forall c: Custody, parse: DateParse, lines, live, cmd, now, ts :: InStep(c, parse, lines, live) ==>
      InStep(c, parse, Execute(c, parse, lines, live, cmd, now, ts, disk).0,
             Execute(c, parse, lines, live, cmd, now, ts, disk).1)
  }

  /** A write that fails after its line is down, or is torn, breaks the agreement; no other does. */
  lemma InStepIff(disk: Disk)
    ensures AlwaysInStep(disk) <==> disk.Written? || disk.NotWritten?
  {
    if disk.Written? || disk.NotWritten? {
      forall c: Custody, parse: DateParse, lines, live, cmd, now, ts | InStep(c, parse, lines, live)
        ensures InStep(c, parse, Execute(c, parse, lines, live, cmd, now, ts, disk).0,
                       Execute(c, parse, lines, live, cmd, now, ts, disk).1)
      {
        ExecuteKeepsStep(c, parse, lines, live, cmd, now, ts, disk);
      }
    } else {
      OutOfStep(disk);
    }
  }

  const SOME_DOCUMENT: Digest := seq(64, i => 48)

  lemma OutOfStep(disk: Disk)
    requires disk.WrittenUnsynced? || disk.Torn?
    ensures !AlwaysInStep(disk)
  {
    var c: Custody := Custody(t => SOME_DOCUMENT, None);
    var parse: DateParse := t => None;
    var cmd := LoadDocument(SOME_DOCUMENT);
    RebuiltNothing(parse);
    EpochDrafts(c);
    NotStepped(c, parse, cmd, disk);
  }

  /** A reload over an empty ledger whose write is unsynced or torn. */
  lemma NotStepped(c: Custody, parse: DateParse, cmd: Command, disk: Disk)
    requires cmd == LoadDocument(SOME_DOCUMENT) && (disk.WrittenUnsynced? || disk.Torn?)
    requires InStep(c, parse, [], EMPTY) && Rebuilt(parse, []) == EMPTY
    requires Next(c, [], Body(ReceiptFor(c.hash, cmd)), []).Draft?
    ensures !AlwaysInStep(disk)
  {
    hide Body, Next, Verified, Decode, ReceiptFor, Rebuilt, IsHex64;
    var n := Next(c, [], Body(ReceiptFor(c.hash, cmd)), []);
    NotRefused(parse, cmd);
    ReceiptDecodes(c, parse, cmd, 0, [], []);
    RebuiltExtends(parse, [], n.entry);
    TornBreaks(c, []);
    assert [] + [n.entry] == [n.entry] && [] + [Unparseable] == [Unparseable];
    var after := Execute(c, parse, [], EMPTY, cmd, 0, [], disk);
    assert !InStep(c, parse, after.0, after.1);
  }

  lemma NotRefused(parse: DateParse, cmd: Command)
    requires cmd == LoadDocument(SOME_DOCUMENT)
    ensures Refusal(parse, cmd, 0) == None
  {}

  lemma RebuiltNothing(parse: DateParse)
    ensures Rebuilt(parse, []) == EMPTY
  {}

  lemma EpochDrafts(c: Custody)
    requires c.company == None
    ensures Next(c, [], Body(ReceiptFor(c.hash, LoadDocument(SOME_DOCUMENT))), []).Draft?
  {
    var r := ReceiptFor(c.hash, LoadDocument(SOME_DOCUMENT));
    EpochMetaFits();
    ReceiptShape(c.hash, LoadDocument(SOME_DOCUMENT));
    BodyReads(c, r, 10);
    hide BodyFields, Lit, Canonical, SafeMeta, Utf8Length, EpochMeta, ReceiptFor, Stored;
    MetaField(r);
  }

  lemma MetaField(r: Receipt)
    ensures BodyFields(r)[10] == Member(Lit("meta"), r.meta)
  {}

  lemma CanonicalPair(a: Member<Json>, b: Member<Json>)
    ensures CanonicalMembers([a, b]) == [Member(a.key, Canonical(a.value)), Member(b.key, Canonical(b.value))]
  {
    hide Canonical;
    assert [a, b][1..] == [b] && [b][1..] == [];
    assert CanonicalMembers([b]) == [Member(b.key, Canonical(b.value))];
  }

  lemma WeightPair(a: Member<Text>, b: Member<Text>)
    ensures Weight([a, b]) == 6 * |a.key| + |a.value| + 6 * |b.key| + |b.value| + 8
  {
    assert [a, b][1..] == [b] && [b][1..] == [];
    assert Weight([b]) == 6 * |b.key| + |b.value| + 4;
  }

  lemma EpochMetaFits()
    ensures SafeMeta(EpochMeta(SOME_DOCUMENT), 0) && Utf8Length(Canonical(EpochMeta(SOME_DOCUMENT))) <= META_MAX_BYTES
  {
    hide Lit, Utf8Length, Escape, SortByKey, JoinMembers, CanonicalMembers, Weight;
    var ms := EpochMeta(SOME_DOCUMENT).members;
    EscapeBound(Lit("access_document_epoch"));
    EscapeBound(SOME_DOCUMENT);
    CanonicalPair(ms[0], ms[1]);
    assert ms == [ms[0], ms[1]];
    var ts := CanonicalMembers(ms);
    WeightPair(ts[0], ts[1]);
    ObjectBound(ms);
    Utf8Bound(Canonical(Obj(ms)));
  }

  // ------------------------------------------------------------- deciding an approval

  datatype Denial = NotIdentified | LacksAuthority | NotEntitled

  /** Principals that name no person. */
  predicate IsNobody(approver: Option<Text>) {
    approver.None? || approver.value == [] || approver.value == Lit("local-board") || approver.value == Lit("board")
  }

  predicate HoldsAuthority(b: Baseline, user: Text, boundary: Text) {
    SafeId(user) && boundary in b.decisionAuthority && user in b.decisionAuthority[boundary]
  }

  /** Why an approval does not count; None when it does. live is None over a corrupt ledger. */
  function Verdict(enforcing: bool, live: Option<Registry>, b: Baseline, now: int, approver: Option<Text>,
                   boundary: Text, matters: seq<Text>)
    : Option<Denial>
  {
    if !enforcing then None
    else if IsNobody(approver) then Some(NotIdentified)
    else if live.None? || !HoldsAuthority(b, approver.value, boundary) then Some(LacksAuthority)
    else if exists m :: m in matters && !Entitled(live.value, b, now, approver.value, m) then Some(NotEntitled)
    else None
  }

  /** An enforced approval counts exactly when it names a person who holds the authority and whose last events,
      as the ledger stands, give access to every matter involved. */
  lemma ApprovalCountsIff(parse: DateParse, lines: seq<Line>, b: Baseline, now: int, approver: Option<Text>,
                          boundary: Text, matters: seq<Text>)
    ensures Verdict(true, Some(Rebuilt(parse, lines)), b, now, approver, boundary, matters) == None <==>
      && !IsNobody(approver) && HoldsAuthority(b, approver.value, boundary)
      && forall m :: m in matters ==> ReadsEntitled(parse, lines, b, now, approver.value, m)
  {
    hide Entitled, ReadsEntitled, IsNobody, HoldsAuthority, Rebuilt;
    if approver.Some? {
      forall m
        ensures Entitled(Rebuilt(parse, lines), b, now, approver.value, m) <==>
          ReadsEntitled(parse, lines, b, now, approver.value, m)
      {
        EntitledIsLastEvent(parse, lines, b, now, approver.value, m);
      }
    } else {
      NobodyNamed();
    }
  }

  /** Who approves is no person: nobody, or a name for the machine. */
  predicate IsMachine(approver: Option<Text>) {
    approver in {None, Some([]), Some(Lit("local-board")), Some(Lit("board"))}
  }

  /** Which check denies, exactly. */
  ghost predicate IsDenial(enforcing: bool, live: Option<Registry>, b: Baseline, now: int, approver: Option<Text>,
                           boundary: Text, matters: seq<Text>, denial: Option<Denial>) {
    var holds := live.Some? && approver.Some? && IsId(approver.value) && boundary in b.decisionAuthority
      && approver.value in b.decisionAuthority[boundary];
    var entitled := live.Some? && approver.Some?
      && forall m :: m in matters ==> Entitled(live.value, b, now, approver.value, m);
    && (denial == Some(NotIdentified) <==> enforcing && IsMachine(approver))
    && (denial == Some(LacksAuthority) <==> enforcing && !IsMachine(approver) && !holds)
    && (denial == Some(NotEntitled) <==> enforcing && !IsMachine(approver) && holds && !entitled)
  }

  lemma DenialIs(enforcing: bool, live: Option<Registry>, b: Baseline, now: int, approver: Option<Text>, boundary: Text,
                 matters: seq<Text>)
    ensures IsDenial(enforcing, live, b, now, approver, boundary, matters,
                     Verdict(enforcing, live, b, now, approver, boundary, matters))
  {
    hide Lit, Entitled, SafeId, IsId;
    if approver.Some? { IsIdIs(approver.value); }
  }

  lemma NobodyNamed()
    ensures IsNobody(None)
  {}

  // --------------------------------------------------------------------- the class

  /** The constructor's loop over the ledger's entries. */
  method ReplayLines(parse: DateParse, lines: seq<Line>) returns (events: map<Text, Folded>, epoch: Option<Text>)
    ensures Registry(events, epoch) == Rebuilt(parse, lines)
  {
    hide Decode, PairKey;
    events, epoch := map[], None;
    for i := 0 to |lines|
      invariant Registry(events, epoch) == Replay(parse, lines, i)
    {
      match Decode(parse, lines[i]) {
        case Epoch(d) => epoch := Some(d);
        case Granted(s, m, expires) => events := events[PairKey(s, m) := Grant(epoch, expires)];
        case Revoked(s, m) => events := events[PairKey(s, m) := Revoke(epoch)];
        case Unrelated =>
      }
    }
  }

  class MatterAccessRegistry {
    const receipts: ReceiptChain
    const baseline: Baseline
    const parse: DateParse
    var events: map<Text, Folded>
    var currentEpoch: Option<Text>
    var corrupt: bool

    function State(): Registry
      reads this`events, this`currentEpoch
    {
      Registry(events, currentEpoch)
    }

    /** Replays the whole ledger, or denies everything when it does not verify. */
    constructor (receipts: ReceiptChain, baseline: Baseline, parse: DateParse)
      ensures this.receipts == receipts && this.baseline == baseline && this.parse == parse
      ensures corrupt <==> !Verified(receipts.custody, receipts.lines)
      ensures !corrupt ==> State() == Rebuilt(parse, receipts.lines)
    {
      hide Verified, Replay;
      var verdict := receipts.Verify();
      var events, epoch := map[], None;
      if verdict.Intact? { events, epoch := ReplayLines(parse, receipts.lines); }
      this.receipts, this.baseline, this.parse := receipts, baseline, parse;
      this.events, this.currentEpoch, this.corrupt := events, epoch, verdict.Broken?;
    }

    method IsEntitled(user: Text, matter: Text, now: int) returns (r: bool)
      ensures r <==> !corrupt && Entitled(State(), baseline, now, user, matter)
    {
      if corrupt || !SafeId(user) || !SafeId(matter) { return false; }
      var base := user in baseline.matterAccess && matter in baseline.matterAccess[user];
      var key := PairKey(user, matter);
      if key !in events { return base; }
      match events[key] {
        case Revoke(epoch) => r := epoch != currentEpoch && base;
        case Grant(_, expires) => r := now < expires || base;
      }
    }

    /** Decision authority is a standing role of the roster; no override grants it. */
    method HasDecisionAuthority(user: Text, boundary: Text) returns (r: bool)
      ensures r <==> !corrupt && HoldsAuthority(baseline, user, boundary)
    {
      if corrupt || !SafeId(user) || boundary !in baseline.decisionAuthority { return false; }
      r := user in baseline.decisionAuthority[boundary];
    }

    /** Entitlement to every matter; the empty list is entitled. */
    method IsEntitledToAll(user: Text, matters: seq<Text>, now: int) returns (r: bool)
      ensures r <==> forall m :: m in matters ==> !corrupt && Entitled(State(), baseline, now, user, m)
    {
      hide Entitled;
      for i := 0 to |matters|
        invariant forall k :: 0 <= k < i ==> !corrupt && Entitled(State(), baseline, now, user, matters[k])
      {
        var one := IsEntitled(user, matters[i], now);
        assert matters[i] in matters;
        if !one { return false; }
      }
      r := true;
    }

    /** grant, revoke and recordDocumentEpoch: check, receipt, then remember. */
    method Perform(cmd: Command, now: int, ts: Text, disk: Disk) returns (error: Option<AccessError>)
      modifies this`events, this`currentEpoch, receipts`lines
      ensures corrupt ==>
        error == Some(LedgerCorrupt) && receipts.lines == old(receipts.lines) && State() == old(State())
      ensures !corrupt ==> IsAnswer(parse, cmd, now, error)
      ensures !corrupt ==>
        (receipts.lines, State(), error) ==
          Execute(receipts.custody, parse, old(receipts.lines), old(State()), cmd, now, ts, disk)
    {
      hide AppendTo, Body, ReceiptFor, SafeId, IsHex64, IsAnswer;
      if corrupt { return Some(LedgerCorrupt); }
      CommandAnswered(receipts.custody, parse, receipts.lines, State(), cmd, now, ts, disk);
      error := Refusal(parse, cmd, now);
      if error.Some? { return; }
      var r := receipts.Append(Body(ReceiptFor(receipts.custody.hash, cmd)), ts, disk);
      if r.Refused? { return Some(NotReceipted); }
      match cmd {
        case GrantAccess(s, m, _, e) => events := events[PairKey(s, m) := Grant(currentEpoch, parse(e.value).value)];
        case RevokeAccess(s, m, _) => events := events[PairKey(s, m) := Revoke(currentEpoch)];
        case LoadDocument(d) => currentEpoch := Some(d);
      }
    }
  }

  method CheckApprover(registry: MatterAccessRegistry, enforcing: bool, approver: Option<Text>, boundary: Text,
                       matters: seq<Text>, now: int)
    returns (denial: Option<Denial>)
    ensures var live := if registry.corrupt then None else Some(registry.State());
      && denial == Verdict(enforcing, live, registry.baseline, now, approver, boundary, matters)
      && IsDenial(enforcing, live, registry.baseline, now, approver, boundary, matters, denial)
  {
    hide Entitled, HoldsAuthority, IsDenial;
    ghost var live := if registry.corrupt then None else Some(registry.State());
    DenialIs(enforcing, live, registry.baseline, now, approver, boundary, matters);
    if !enforcing { return None; }
    if IsNobody(approver) { return Some(NotIdentified); }
    var authority := registry.HasDecisionAuthority(approver.value, boundary);
    if !authority { return Some(LacksAuthority); }
    var entitled := registry.IsEntitledToAll(approver.value, matters, now);
    if !entitled { return Some(NotEntitled); }
    return None;
  }
}
