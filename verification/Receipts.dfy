/** The hash-linked receipt ledger: append, verify, head, and what the head pins down. */
module Receipts {
  import opened Options
  import opened Texts
  import opened CanonicalJson

  /** The link of the first receipt: the literal GENESIS, which is no hex digest and holds no brace. */
  function Genesis(): (t: Text)
    ensures |t| == 7 && forall i :: 0 <= i < 7 ==> t[i] != 123
  {
    Lit("GENESIS")
  }

  const META_MAX_BYTES := 4096
  const META_MAX_STRING := 512
  const META_MAX_DEPTH := 8

  type Digest = t: Text | IsHex64(t) witness seq(64, i => 48)

  /** SHA-256 in hex: any function into 64 hex digits. Nothing is assumed about collisions. */
  type Hash = Text -> Digest

  /** What a ReceiptChain is constructed with. */
  datatype Custody = Custody(hash: Hash, company: Option<Text>)

  /** One line of the JSONL file as JSON.parse sees it. */
  datatype Line =
    | Unparseable
    | NotObject
    | Entry(number: int, ts: Text, prevHash: Text, hash: Text, body: Json)

  datatype Reason = ParseFailure | SeqOutOfOrder | CompanyMismatch | PrevHashMismatch | HashMismatch
  datatype Verdict = Intact(length: nat, head: Text) | Broken(badSeq: nat, reason: Reason)

  datatype AppendError = CorruptTail | CompanyConflict | UnsafeMeta | StoreUnavailable
  datatype AppendResult = Appended(entry: Line) | Refused(error: AppendError)
  datatype HeadResult = Head(hash: Text) | TailCorrupt

  /** How the open/write/fsync of one append ends. */
  datatype Disk = Written | NotWritten | WrittenUnsynced | Torn

  // -------------------------------------------------------------------- hashing

  function HashContent(number: nat, ts: Text, body: Json): Json {
    Obj([Member(Lit("seq"), Num(Decimal(number))), Member(Lit("ts"), Str(ts)), Member(Lit("body"), body)])
  }

  function Preimage(prevHash: Text, number: nat, ts: Text, body: Json): Text {
    prevHash + Canonical(HashContent(number, ts, body))
  }

  function ComputeHash(h: Hash, prevHash: Text, number: nat, ts: Text, body: Json): Digest {
    h(Preimage(prevHash, number, ts, body))
  }

  predicate IsLink(t: Text) {
    t == Genesis() || IsHex64(t)
  }

  lemma LinkNotLonger(p: Text, v: Json, q: Text, w: Json)
    requires IsLink(q) && |Canonical(v)| > 0 && Canonical(v)[0] == 123
    requires p + Canonical(v) == q + Canonical(w)
    ensures |q| <= |p|
  {
    hide Canonical, Lit, Genesis;
    var t := p + Canonical(v);
    assert t[|p|] == 123;
    assert forall i :: 0 <= i < |q| ==> t[i] == q[i] && q[i] != 123;
  }

  /** The hashed text splits in only one way. */
  lemma PreimageUnique(p: Text, m: nat, s: Text, a: Json, q: Text, n: nat, t: Text, b: Json)
    requires IsLink(p) && IsLink(q) && WellFormed(a) && WellFormed(b)
    requires Preimage(p, m, s, a) == Preimage(q, n, t, b)
    ensures p == q && m == n && s == t && Same(a, b)
  {
    hide Canonical, Same, WellFormed, Lit, Genesis;
    var v, w := HashContent(m, s, a), HashContent(n, t, b);
    CanonicalOpens(v);
    CanonicalOpens(w);
    LinkNotLonger(p, v, q, w);
    LinkNotLonger(q, w, p, v);
    SplitEqual(p, Canonical(v), q, Canonical(w));
    HashContentWellFormed(m, s, a);
    HashContentWellFormed(n, t, b);
    CanonicalFaithful(v, w);
    HashContentUnique(m, s, a, n, t, b);
  }

  lemma CanonicalOpens(v: Json)
    ensures v.Obj? ==> |Canonical(v)| > 0 && Canonical(v)[0] == 123
  {}

  lemma HashContentWellFormed(number: nat, ts: Text, body: Json)
    requires WellFormed(body)
    ensures WellFormed(HashContent(number, ts, body)) && DistinctKeys(HashContent(number, ts, body).members)
  {}

  lemma HashContentFields(number: nat, ts: Text, body: Json)
    ensures var v := HashContent(number, ts, body);
      && Field(v, Lit("seq")) == Some(Num(Decimal(number)))
      && Field(v, Lit("ts")) == Some(Str(ts))
      && Field(v, Lit("body")) == Some(body)
  {
    var ms := HashContent(number, ts, body).members;
    HashContentWellFormed(0, [], Null);
    LookupUnique(ms, 0);
    LookupUnique(ms, 1);
    LookupUnique(ms, 2);
  }

  lemma HashContentUnique(m: nat, s: Text, a: Json, n: nat, t: Text, b: Json)
    requires WellFormed(a) && WellFormed(b) && Same(HashContent(m, s, a), HashContent(n, t, b))
    ensures m == n && s == t && Same(a, b)
  {
    var v, w := HashContent(m, s, a), HashContent(n, t, b);
    hide WellFormed, Field, Genesis;
    HashContentWellFormed(m, s, a);
    HashContentWellFormed(n, t, b);
    HashContentFields(m, s, a);
    HashContentFields(n, t, b);
    FieldsAgree(v, w, Lit("seq"));
    FieldsAgree(v, w, Lit("ts"));
    FieldsAgree(v, w, Lit("body"));
    DecimalReadsBack(m);
    DecimalReadsBack(n);
  }

  // ----------------------------------------------------------- verifying a ledger

  predicate CompanyHeld(c: Custody, body: Json) {
    c.company.Some? ==> Field(body, Lit("companyId")) == Some(Str(c.company.value))
  }

  /** verify's checks on one line, in its order. */
  function Fault(c: Custody, prevHash: Text, number: nat, line: Line): Option<Reason> {
    if line.Unparseable? then Some(ParseFailure)
    else if line.NotObject? || line.number != number then Some(SeqOutOfOrder)
    else if !CompanyHeld(c, line.body) then Some(CompanyMismatch)
    else if line.prevHash != prevHash then Some(PrevHashMismatch)
    else if line.hash != ComputeHash(c.hash, prevHash, number, line.ts, line.body) then Some(HashMismatch)
    else None
  }

  /** Each reason has its own condition, and they are tried in this order. */
  lemma FaultIs(c: Custody, prevHash: Text, number: nat, line: Line)
    ensures var f := Fault(c, prevHash, number, line);
      var numbered := line.Entry? && line.number == number;
      var held := numbered && (c.company == None || Field(line.body, Lit("companyId")) == Some(Str(c.company.value)));
      var linked := held && line.prevHash == prevHash;
      var hashed := linked && line.hash == c.hash(Preimage(prevHash, number, line.ts, line.body));
      && (f == Some(ParseFailure) <==> line == Unparseable)
      && (f == Some(SeqOutOfOrder) <==> line != Unparseable && !numbered)
      && (f == Some(CompanyMismatch) <==> numbered && !held)
      && (f == Some(PrevHashMismatch) <==> held && !linked)
      && (f == Some(HashMismatch) <==> linked && !hashed)
      && (f == None <==> hashed)
  {
    hide Field, Lit, Preimage;
  }

  /** The link the line at position i has to carry. */
  function LinkBefore(lines: seq<Line>, i: nat): Text
    requires i <= |lines|
  {
    if i == 0 || !lines[i - 1].Entry? then Genesis() else lines[i - 1].hash
  }

  predicate Verified(c: Custody, lines: seq<Line>) {
    forall i :: 0 <= i < |lines| ==> Fault(c, LinkBefore(lines, i), i + 1, lines[i]) == None
  }

  /** JSON.parse never yields an object that holds one key twice. */
  predicate ParsedBodies(lines: seq<Line>) {
    forall i :: 0 <= i < |lines| && lines[i].Entry? ==> WellFormed(lines[i].body)
  }

  lemma PrefixVerifies(c: Custody, lines: seq<Line>, n: nat)
    requires Verified(c, lines) && n <= |lines|
    ensures Verified(c, lines[..n])
  {
    hide Fault, Lit, Genesis;
    forall i | 0 <= i < n ensures Fault(c, LinkBefore(lines[..n], i), i + 1, lines[..n][i]) == None {
      assert LinkBefore(lines[..n], i) == LinkBefore(lines, i);
    }
  }

  lemma ExtendVerified(c: Custody, lines: seq<Line>, line: Line)
    requires Verified(c, lines)
    ensures Verified(c, lines + [line]) <==> Fault(c, LinkBefore(lines, |lines|), |lines| + 1, line) == None
  {
    hide Fault, Lit, Genesis;
    var all := lines + [line];
    forall i | 0 <= i < |lines| ensures Fault(c, LinkBefore(all, i), i + 1, all[i]) == None {
      assert LinkBefore(all, i) == LinkBefore(lines, i);
    }
    assert LinkBefore(all, |lines|) == LinkBefore(lines, |lines|);
  }

  /** One step of verify's walk. */
  lemma NextLineVerifies(c: Custody, lines: seq<Line>, i: nat)
    requires i < |lines| && Verified(c, lines[..i])
    ensures Verified(c, lines[..i + 1]) <==> Fault(c, LinkBefore(lines, i), i + 1, lines[i]) == None
    ensures Fault(c, LinkBefore(lines, i), i + 1, lines[i]).Some? ==> !Verified(c, lines)
  {
    hide Fault, Verified, Lit, Genesis;
    assert lines[..i + 1] == lines[..i] + [lines[i]];
    assert LinkBefore(lines[..i], i) == LinkBefore(lines, i);
    ExtendVerified(c, lines[..i], lines[i]);
    if Fault(c, LinkBefore(lines, i), i + 1, lines[i]).Some? { FaultBreaks(c, lines, i); }
  }

  lemma FaultBreaks(c: Custody, lines: seq<Line>, i: nat)
    requires i < |lines| && Fault(c, LinkBefore(lines, i), i + 1, lines[i]).Some?
    ensures !Verified(c, lines)
  {
    hide Fault, Lit, Genesis;
  }

  lemma CleanLineIsEntry(c: Custody, prevHash: Text, number: nat, line: Line)
    requires Fault(c, prevHash, number, line) == None
    ensures line.Entry?
  {}

  lemma VerifiedLine(c: Custody, lines: seq<Line>, i: nat)
    requires Verified(c, lines) && i < |lines|
    ensures lines[i].Entry? && lines[i].number == i + 1 && lines[i].prevHash == LinkBefore(lines, i)
    ensures lines[i].hash == ComputeHash(c.hash, lines[i].prevHash, i + 1, lines[i].ts, lines[i].body)
    ensures IsHex64(lines[i].hash) && IsLink(LinkBefore(lines, i))
  {
    assert Fault(c, LinkBefore(lines, i), i + 1, lines[i]) == None;
    if i > 0 {
      assert Fault(c, LinkBefore(lines, i - 1), i, lines[i - 1]) == None;
    }
  }

  // ------------------------------------------------------------------- appending

  predicate ValidTail(line: Line) {
    line.Entry? && line.number >= 1 && IsHex64(line.hash)
  }

  predicate SafeMeta(meta: Json, depth: nat) {
    && depth <= META_MAX_DEPTH
    && match meta
       case Str(t) => |t| <= META_MAX_STRING
       case Arr(items) => forall i :: 0 <= i < |items| ==> SafeMeta(items[i], depth + 1)
       case Obj(ms) => forall i :: 0 <= i < |ms| ==> SafeMeta(ms[i].value, depth + 1)
       case _ => true
  }

  /** UTF-8 bytes of well-formed text; each half of a surrogate pair accounts for two. */
  function Utf8Length(t: Text): nat {
    if t == [] then 0
    else (if t[0] < 0x80 then 1 else if t[0] < 0x800 || IsHigh(t[0]) || IsLow(t[0]) then 2 else 3) + Utf8Length(t[1..])
  }

  lemma {:induction false} Utf8Bound(t: Text)
    ensures Utf8Length(t) <= 3 * |t|
  {
    if t != [] { Utf8Bound(t[1..]); }
  }

  predicate MetaAllowed(body: Json) {
    match Field(body, Lit("meta"))
    case None => true
    case Some(meta) => SafeMeta(meta, 0) && Utf8Length(Canonical(meta)) <= META_MAX_BYTES
  }

  function Child(v: Json, i: nat): Option<Json> {
    match v
    case Arr(items) => if i < |items| then Some(items[i]) else None
    case Obj(ms) => if i < |ms| then Some(ms[i].value) else None
    case _ => None
  }

  /** What stands in the value at the end of a path of positions. */
  function NodeAt(v: Json, path: seq<nat>): Option<Json>
    decreases |path|
  {
    if path == [] then Some(v)
    else if Child(v, path[0]).Some? then NodeAt(Child(v, path[0]).value, path[1..])
    else None
  }

  /** Nothing lies deeper, and no string is longer, than the bounds allow. */
  ghost predicate FitsFrom(v: Json, depth: int, longest: int) {
    forall path :: NodeAt(v, path).Some? ==>
      |path| <= depth && (NodeAt(v, path).value.Str? ==> |NodeAt(v, path).value.text| <= longest)
  }

  lemma SafeChild(v: Json, depth: nat, i: nat)
    requires SafeMeta(v, depth) && Child(v, i).Some?
    ensures SafeMeta(Child(v, i).value, depth + 1)
  {}

  lemma {:induction false} SafeMetaFits(v: Json, depth: nat, path: seq<nat>)
    requires SafeMeta(v, depth) && NodeAt(v, path).Some?
    ensures |path| + depth <= 8 && (NodeAt(v, path).value.Str? ==> |NodeAt(v, path).value.text| <= 512)
    decreases |path|
  {
    if path != [] {
      SafeChild(v, depth, path[0]);
      hide SafeMeta, Child;
      SafeMetaFits(Child(v, path[0]).value, depth + 1, path[1..]);
    }
  }

  lemma ChildFits(v: Json, depth: nat, i: nat)
    requires depth <= 8 && FitsFrom(v, 8 - depth, 512) && Child(v, i).Some?
    ensures depth + 1 <= 8 && FitsFrom(Child(v, i).value, 8 - (depth + 1), 512)
  {
    hide Child;
    var child := Child(v, i).value;
    forall path | NodeAt(child, path).Some?
      ensures |path| + 1 <= 8 - depth
      ensures NodeAt(child, path).value.Str? ==> |NodeAt(child, path).value.text| <= 512
    {
      assert ([i] + path)[1..] == path;
      assert NodeAt(v, [i] + path) == NodeAt(child, path);
    }
    assert NodeAt(child, []) == Some(child);
  }

  lemma {:induction false} FitsSafeMeta(v: Json, depth: nat)
    requires depth <= 8 && FitsFrom(v, 8 - depth, 512)
    ensures SafeMeta(v, depth)
    decreases v
  {
    assert NodeAt(v, []) == Some(v);
    hide NodeAt, FitsFrom;
    match v
    case Arr(items) =>
      forall i | 0 <= i < |items| ensures SafeMeta(items[i], depth + 1) {
        ChildFits(v, depth, i);
        FitsSafeMeta(items[i], depth + 1);
      }
    case Obj(ms) =>
      forall i | 0 <= i < |ms| ensures SafeMeta(ms[i].value, depth + 1) {
        ChildFits(v, depth, i);
        FitsSafeMeta(ms[i].value, depth + 1);
      }
    case Str(_) => ShortText(v, depth);
    case _ =>
  }

  lemma ShortText(v: Json, depth: nat)
    requires depth <= 8 && FitsFrom(v, 8 - depth, 512) && v.Str?
    ensures |v.text| <= 512
  {
    assert NodeAt(v, []) == Some(v);
  }

  /** A body may be stored exactly when its meta, if any, has no value more than 8 levels deep, no string of more
      than 512 units, and canonical text of at most 4096 bytes. */
  lemma MetaAllowedIff(body: Json)
    ensures MetaAllowed(body) <==>
      var meta := Field(body, Lit("meta"));
      meta.Some? ==> FitsFrom(meta.value, 8, 512) && Utf8Length(Canonical(meta.value)) <= 4096
  {
    hide Lit, Utf8Length, Canonical, Lookup;
    var meta := Field(body, Lit("meta"));
    if meta.Some? {
      if SafeMeta(meta.value, 0) {
        forall path | NodeAt(meta.value, path).Some?
          ensures |path| <= 8 && (NodeAt(meta.value, path).value.Str? ==> |NodeAt(meta.value, path).value.text| <= 512)
        {
          SafeMetaFits(meta.value, 0, path);
        }
      }
      if FitsFrom(meta.value, 8, 512) { FitsSafeMeta(meta.value, 0); }
    }
  }

  /** UTF-8 takes one to three bytes for a unit, and four for a surrogate pair (RFC 3629, section 3). */
  lemma {:induction false} Utf8LengthIs(a: Text, u: CodeUnit, b: Text)
    ensures Utf8Length([]) == 0
    ensures u <= 0x7f ==> Utf8Length(a + [u] + b) == Utf8Length(a) + 1 + Utf8Length(b)
    ensures 0x80 <= u <= 0x7ff ==> Utf8Length(a + [u] + b) == Utf8Length(a) + 2 + Utf8Length(b)
    ensures 0x800 <= u <= 0xd7ff || 0xe000 <= u ==> Utf8Length(a + [u] + b) == Utf8Length(a) + 3 + Utf8Length(b)
    ensures 0xd800 <= u <= 0xdfff ==> Utf8Length(a + [u] + b) == Utf8Length(a) + 2 + Utf8Length(b)
  {
    if a == [] {
      assert [] + [u] + b == [u] + b && ([u] + b)[1..] == b;
    } else {
      Utf8LengthIs(a[1..], u, b);
      assert (a + [u] + b)[1..] == a[1..] + [u] + b;
    }
  }

  /** The configured company is added to a body that names none. */
  function WithCompany(c: Custody, body: Json): Json
    requires body.Obj?
  {
    if c.company.Some? && Field(body, Lit("companyId")).None?
    then Obj(body.members + [Member(Lit("companyId"), Str(c.company.value))])
    else body
  }

  datatype Drafted = Draft(entry: Line) | Rejected(error: AppendError)

  /** The entry an append writes, or why it refuses before touching the file. */
  function Next(c: Custody, lines: seq<Line>, body: Json, ts: Text): Drafted
    requires body.Obj?
  {
    if |lines| > 0 && !ValidTail(lines[|lines| - 1]) then Rejected(CorruptTail)
    else if c.company.Some? && Field(body, Lit("companyId")).Some? && !CompanyHeld(c, body) then
      Rejected(CompanyConflict)
    else
      var stored := WithCompany(c, body);
      if !MetaAllowed(stored) then Rejected(UnsafeMeta)
      else
        var number := if |lines| == 0 then 1 else lines[|lines| - 1].number + 1;
        var prev := LinkBefore(lines, |lines|);
        Draft(Entry(number, ts, prev, ComputeHash(c.hash, prev, number, ts, stored), stored))
  }

  /** A line that another one may follow. */
  predicate IsTail(line: Line) {
    line.Entry? && line.number > 0 && SpelledIn(line.hash, DIGITS + "abcdef", 64, 64)
  }

  lemma IsTailIs(line: Line)
    ensures ValidTail(line) <==> IsTail(line)
  {
    hide Lit;
    forall u: CodeUnit ensures u in Lit(DIGITS + "abcdef") <==> IsDigit(u) || 97 <= u <= 102 {
      InHex(u);
    }
  }

  /** The body names a company other than the configured one. */
  predicate NamesAnother(c: Custody, body: Json) {
    c.company.Some? && Field(body, Lit("companyId")).Some?
    && Field(body, Lit("companyId")) != Some(Str(c.company.value))
  }

  /** Which appends are refused and why, in order, and what the others write. */
  lemma NextIs(c: Custody, lines: seq<Line>, body: Json, ts: Text)
    requires body.Obj?
    ensures var n := Next(c, lines, body, ts);
      var tail := lines == [] || IsTail(lines[|lines| - 1]);
      && (n == Rejected(CorruptTail) <==> !tail)
      && (n == Rejected(CompanyConflict) <==> tail && NamesAnother(c, body))
      && (n == Rejected(UnsafeMeta) <==> tail && !NamesAnother(c, body) && !MetaAllowed(body))
      && (n.Draft? <==> tail && !NamesAnother(c, body) && MetaAllowed(body))
      && (n.Draft? ==> IsDraft(c, lines, body, ts, n.entry))
  {
    if lines != [] { IsTailIs(lines[|lines| - 1]); }
    StoredIs(c, body, Lit("meta"));
    MetaNoCompany();
    MetaSame(WithCompany(c, body), body);
    forall key ensures IsStored(c, body, WithCompany(c, body), key) {
      StoredIs(c, body, key);
    }
    hide Field, MetaAllowed, WithCompany, ComputeHash, ValidTail, IsTail, Lit, Genesis, IsStored;
  }

  lemma InHex(u: CodeUnit)
    ensures u in Lit(DIGITS + "abcdef") <==> IsDigit(u) || 97 <= u <= 102
  {
    hide Lit;
    InBoth(u, DIGITS, "abcdef");
    InDigits(u);
    InLit(u, "abcdef");
    assert forall i :: 0 <= i < 6 ==> "abcdef"[i] as int == 97 + i;
    if 97 <= u <= 102 { assert "abcdef"[u - 97] as int == u; }
  }

  lemma MetaNoCompany()
    ensures Lit("meta") != Lit("companyId")
  {
    assert Lit("meta")[0] == 109;
  }

  lemma MetaSame(a: Json, b: Json)
    requires Field(a, Lit("meta")) == Field(b, Lit("meta"))
    ensures MetaAllowed(a) <==> MetaAllowed(b)
  {
    hide Field, Lit;
  }

  /** What is stored under a key: what the body says, and the configured company where it names none. */
  ghost predicate IsStored(c: Custody, body: Json, stored: Json, key: Text) {
    Field(stored, key) ==
      if key == Lit("companyId") && c.company.Some? && Field(body, key) == None then Some(Str(c.company.value))
      else Field(body, key)
  }

  lemma StoredIs(c: Custody, body: Json, key: Text)
    requires body.Obj?
    ensures IsStored(c, body, WithCompany(c, body), key)
  {
    hide Lookup, Lit;
    if c.company.Some? {
      LookupAppended(body.members, Member(Lit("companyId"), Str(c.company.value)), key);
    }
  }

  /** The entry continues the ledger: the next number, the last hash as its link, its own hash, and the body. */
  ghost predicate IsDraft(c: Custody, lines: seq<Line>, body: Json, ts: Text, entry: Line)
    requires body.Obj?
  {
    && entry.Entry? && entry.ts == ts
    && (lines == [] ==> entry.number == 1 && entry.prevHash == Lit("GENESIS"))
    && (lines != [] ==>
          var last := lines[|lines| - 1];
          last.Entry? && entry.number == last.number + 1 && entry.prevHash == last.hash)
    && entry.number >= 0 && entry.hash == c.hash(Preimage(entry.prevHash, entry.number, ts, entry.body))
    && (forall key :: IsStored(c, body, entry.body, key))
    && (entry.body == body || (c.company.Some? && Field(body, Lit("companyId")) == None &&
                               entry.body == Obj(body.members + [Member(Lit("companyId"), Str(c.company.value))])))
  }

  /** The file after an append, and what the caller sees. */
  function AppendTo(c: Custody, lines: seq<Line>, body: Json, ts: Text, disk: Disk): (seq<Line>, AppendResult)
    requires body.Obj?
  {
    match Next(c, lines, body, ts)
    case Rejected(e) => (lines, Refused(e))
    case Draft(entry) =>
      match disk
      case Written => (lines + [entry], Appended(entry))
      case NotWritten => (lines, Refused(StoreUnavailable))
      case WrittenUnsynced => (lines + [entry], Refused(StoreUnavailable))
      case Torn => (lines + [Unparseable], Refused(StoreUnavailable))
  }

  /** How an append ends: what it wrote and what its caller is told, by what became of the write. */
  lemma AppendEnds(c: Custody, lines: seq<Line>, body: Json, ts: Text, disk: Disk)
    requires body.Obj?
    ensures var (n, (after, r)) := (Next(c, lines, body, ts), AppendTo(c, lines, body, ts, disk));
      && (n.Rejected? ==> after == lines && r == Refused(n.error))
      && (n.Draft? && disk == Written ==> r == Appended(n.entry))
      && (n.Draft? && disk != Written ==> r == Refused(StoreUnavailable))
      && (n.Draft? && (disk == Written || disk == WrittenUnsynced) ==> after == lines + [n.entry])
      && (n.Draft? && disk == NotWritten ==> after == lines)
      && (n.Draft? && disk == Torn ==> after == lines + [Unparseable])
  {
    hide Next;
  }

  lemma WithCompanyHeld(c: Custody, body: Json)
    requires body.Obj? && (c.company.Some? && Field(body, Lit("companyId")).Some? ==> CompanyHeld(c, body))
    ensures CompanyHeld(c, WithCompany(c, body))
  {
    hide Lookup;
    if c.company.Some? {
      LookupAppended(body.members, Member(Lit("companyId"), Str(c.company.value)), Lit("companyId"));
    }
  }

  lemma NextIsSound(c: Custody, lines: seq<Line>, body: Json, ts: Text)
    requires Verified(c, lines) && body.Obj?
    ensures var n := Next(c, lines, body, ts); n.Draft? ==>
      && n.entry.Entry? && Fault(c, LinkBefore(lines, |lines|), |lines| + 1, n.entry) == None
      && Verified(c, lines + [n.entry])
  {
    hide Field, CompanyHeld, WithCompany, MetaAllowed, ComputeHash, IsHex64, IsLink, Verified, Lit, Genesis;
    if |lines| > 0 { VerifiedLine(c, lines, |lines| - 1); }
    var n := Next(c, lines, body, ts);
    if n.Draft? {
      WithCompanyHeld(c, body);
      ExtendVerified(c, lines, n.entry);
    }
  }

  /** On an intact ledger an append leaves it intact, unless its write is torn. */
  lemma AppendKeepsVerified(c: Custody, lines: seq<Line>, body: Json, ts: Text, disk: Disk)
    requires Verified(c, lines) && body.Obj?
    ensures var (after, r) := AppendTo(c, lines, body, ts, disk);
      && (Verified(c, after) <==> !(disk.Torn? && Next(c, lines, body, ts).Draft?))
      && (r.Appended? ==> |after| == |lines| + 1 && after[..|lines|] == lines && after[|lines|] == r.entry)
      && (Verified(c, after) ==> after == lines || (|after| == |lines| + 1 && after[..|lines|] == lines))
  {
    hide Fault, Next, Verified, Lit, Genesis;
    NextIsSound(c, lines, body, ts);
    TornBreaks(c, lines);
  }

  lemma TornBreaks(c: Custody, lines: seq<Line>)
    ensures !Verified(c, lines + [Unparseable])
  {
    var all := lines + [Unparseable];
    assert Fault(c, LinkBefore(all, |lines|), |lines| + 1, all[|lines|]) == Some(ParseFailure);
  }

  // ------------------------------------------------------------------ a torn last line

  /** All but an unreadable last line verify. */
  ghost predicate TornTail(c: Custody, lines: seq<Line>) {
    |lines| > 0 && lines[|lines| - 1] == Unparseable && Verified(c, lines[..|lines| - 1])
  }

  /** What any mix of appends and repairs of the tail leaves behind. */
  ghost predicate Sturdy(c: Custody, lines: seq<Line>) {
    Verified(c, lines) || TornTail(c, lines)
  }

  /** Every append keeps a ledger sturdy; one that returns leaves it verified, and a torn tail admits none. */
  lemma AppendKeepsSturdy(c: Custody, lines: seq<Line>, body: Json, ts: Text, disk: Disk)
    requires Sturdy(c, lines) && body.Obj?
    ensures var (after, r) := AppendTo(c, lines, body, ts, disk);
      && Sturdy(c, after) && (r.Appended? ==> Verified(c, lines) && Verified(c, after))
      && (TornTail(c, lines) ==> after == lines && Next(c, lines, body, ts).Rejected?)
  {
    hide Verified, Next, Lit, Genesis;
    if TornTail(c, lines) {
      TornRefuses(c, lines, body, ts);
    } else {
      AppendKeepsVerified(c, lines, body, ts, disk);
      if Next(c, lines, body, ts).Draft? && disk.Torn? { assert (lines + [Unparseable])[..|lines|] == lines; }
    }
  }

  lemma TornRefuses(c: Custody, lines: seq<Line>, body: Json, ts: Text)
    requires TornTail(c, lines) && body.Obj?
    ensures Next(c, lines, body, ts) == Rejected(CorruptTail) && !Verified(c, lines)
  {
    hide WithCompany, MetaAllowed, ComputeHash, CompanyHeld;
    assert !ValidTail(lines[|lines| - 1]);
    assert lines == lines[..|lines| - 1] + [Unparseable];
    TornBreaks(c, lines[..|lines| - 1]);
  }

  /** Dropping an unreadable last line of a sturdy ledger leaves a verified one. */
  lemma RepairVerifies(c: Custody, lines: seq<Line>)
    requires Sturdy(c, lines) && |lines| > 0 && lines[|lines| - 1] == Unparseable
    ensures Verified(c, lines[..|lines| - 1])
  {
    hide Verified;
    if Verified(c, lines) { PrefixVerifies(c, lines, |lines| - 1); }
  }

  datatype Request = Request(body: Json, ts: Text, disk: Disk)

  /** A ledger built by a run of appends on an empty file. */
  function Built(c: Custody, run: seq<Request>): seq<Line>
    requires forall i :: 0 <= i < |run| ==> run[i].body.Obj?
  {
    if run == [] then []
    else
      var last := run[|run| - 1];
      AppendTo(c, Built(c, run[..|run| - 1]), last.body, last.ts, last.disk).0
  }

  /** Every ledger built by appends whose writes were whole verifies. */
  lemma {:induction false} BuiltVerifies(c: Custody, run: seq<Request>)
    requires forall i :: 0 <= i < |run| ==> run[i].body.Obj? && !run[i].disk.Torn?
    ensures Verified(c, Built(c, run))
  {
    hide Verified, Next;
    if run == [] {
      NothingToVerify(c);
    } else {
      BuiltVerifies(c, run[..|run| - 1]);
      var last := run[|run| - 1];
      AppendKeepsVerified(c, Built(c, run[..|run| - 1]), last.body, last.ts, last.disk);
    }
  }

  lemma NothingToVerify(c: Custody)
    ensures Verified(c, [])
  {}

  // ---------------------------------------------------------- the head pins history

  /** The same receipt up to the order of body members. */
  ghost predicate SameReceipt(x: Line, y: Line) {
    && x.Entry? && y.Entry?
    && x.number == y.number && x.ts == y.ts && x.prevHash == y.prevHash && x.hash == y.hash
    && Same(x.body, y.body)
  }

  /** b starts with the receipts of a. */
  ghost predicate SameHistory(a: seq<Line>, b: seq<Line>) {
    |a| <= |b| && forall i :: 0 <= i < |a| ==> SameReceipt(a[i], b[i])
  }

  ghost predicate Collision(h: Hash, x: Text, y: Text) {
    x != y && h(x) == h(y)
  }

  /** One hash shared by two verified ledgers: the lines agree, or their preimages collide. */
  lemma SharedHashStep(c: Custody, d: Custody, a: seq<Line>, i: nat, b: seq<Line>, j: nat)
    returns (x: Text, y: Text)
    requires c.hash == d.hash && Verified(c, a) && Verified(d, b) && ParsedBodies(a) && ParsedBodies(b)
    requires i < |a| && j < |b| && a[i].Entry? && b[j].Entry? && a[i].hash == b[j].hash
    ensures Collision(c.hash, x, y) ||
      (i == j && SameReceipt(a[i], b[j]) && LinkBefore(a, i) == LinkBefore(b, j))
  {
    hide Fault, Verified, Preimage, Same, IsHex64, IsLink, WellFormed, LinkBefore, Lit, Genesis;
    VerifiedLine(c, a, i);
    VerifiedLine(d, b, j);
    x := Preimage(a[i].prevHash, i + 1, a[i].ts, a[i].body);
    y := Preimage(b[j].prevHash, j + 1, b[j].ts, b[j].body);
    if x == y {
      PreimageUnique(a[i].prevHash, i + 1, a[i].ts, a[i].body, b[j].prevHash, j + 1, b[j].ts, b[j].body);
    }
  }

  /** Hashes that agree at one position force agreement at every earlier one, or a collision. */
  lemma {:induction false} AgreeDownFrom(c: Custody, d: Custody, a: seq<Line>, b: seq<Line>, i: nat)
    returns (x: Text, y: Text)
    requires c.hash == d.hash && Verified(c, a) && Verified(d, b) && ParsedBodies(a) && ParsedBodies(b)
    requires i < |a| && i < |b| && a[i].Entry? && b[i].Entry? && a[i].hash == b[i].hash
    ensures Collision(c.hash, x, y) || forall k :: 0 <= k <= i ==> SameReceipt(a[k], b[k])
  {
    hide Fault, Verified, ParsedBodies, SameReceipt, Collision, IsHex64, IsLink, Lit, Genesis;
    x, y := SharedHashStep(c, d, a, i, b, i);
    if !Collision(c.hash, x, y) && i > 0 {
      VerifiedLine(c, a, i - 1);
      VerifiedLine(d, b, i - 1);
      x, y := AgreeDownFrom(c, d, a, b, i - 1);
    }
  }

  /**
   * If the head of one verified ledger occurs as a hash in another, the first is a prefix of the
   * second, or x and y are two texts with one SHA-256.
   */
  lemma HeadPinsHistory(c: Custody, d: Custody, a: seq<Line>, b: seq<Line>, j: nat)
    returns (x: Text, y: Text)
    requires c.hash == d.hash && Verified(c, a) && Verified(d, b) && ParsedBodies(a) && ParsedBodies(b)
    requires |a| > 0 && j < |b| && b[j].Entry? && b[j].hash == LinkBefore(a, |a|)
    ensures (|a| == j + 1 && SameHistory(a, b)) || Collision(c.hash, x, y)
  {
    hide Fault, Verified, ParsedBodies, SameReceipt, Collision, IsHex64, IsLink, Lit, Genesis;
    VerifiedLine(c, a, |a| - 1);
    x, y := SharedHashStep(c, d, a, |a| - 1, b, j);
    if !Collision(c.hash, x, y) {
      x, y := AgreeDownFrom(c, d, a, b, j);
    }
  }

  /** Two verified ledgers with the same head hold the same receipts, or SHA-256 collides. */
  lemma EqualHeadsEqualHistories(c: Custody, a: seq<Line>, b: seq<Line>) returns (x: Text, y: Text)
    requires Verified(c, a) && Verified(c, b) && ParsedBodies(a) && ParsedBodies(b)
    requires LinkBefore(a, |a|) == LinkBefore(b, |b|)
    ensures (|a| == |b| && SameHistory(a, b)) || Collision(c.hash, x, y)
  {
    hide Fault, Verified, ParsedBodies, SameReceipt, Collision, Lit, Genesis;
    x, y := [], [];
    if |a| > 0 { VerifiedLine(c, a, |a| - 1); }
    if |b| > 0 { VerifiedLine(c, b, |b| - 1); }
    if |a| > 0 {
      x, y := HeadPinsHistory(c, c, a, b, |b| - 1);
    }
  }

  // --------------------------------------------------------------------- the class

  /** The ledger object; lines is the file, re-read by every call. */
  class ReceiptChain {
    const custody: Custody
    var lines: seq<Line>

    constructor (custody: Custody, existing: seq<Line>)
      ensures this.custody == custody && lines == existing
    {
      this.custody := custody;
      lines := existing;
    }

    method Append(body: Json, ts: Text, disk: Disk) returns (r: AppendResult)
      requires body.Obj?
      modifies this`lines
      ensures (lines, r) == AppendTo(custody, old(lines), body, ts, disk)
    {
      hide Field, MetaAllowed, ComputeHash, IsHex64, Lit, Genesis;
      var number, prev := 1, Genesis();
      if |lines| > 0 {
        var last := lines[|lines| - 1];
        if !ValidTail(last) { return Refused(CorruptTail); }
        number, prev := last.number + 1, last.hash;
      }
      var stored := body;
      if custody.company.Some? {
        var named := Field(body, Lit("companyId"));
        if named.Some? && named != Some(Str(custody.company.value)) { return Refused(CompanyConflict); }
        if named.None? { stored := Obj(body.members + [Member(Lit("companyId"), Str(custody.company.value))]); }
      }
      if !MetaAllowed(stored) { return Refused(UnsafeMeta); }
      var entry := Entry(number, ts, prev, ComputeHash(custody.hash, prev, number, ts, stored), stored);
      match disk {
        case Written => lines := lines + [entry]; r := Appended(entry);
        case NotWritten => r := Refused(StoreUnavailable);
        case WrittenUnsynced => lines := lines + [entry]; r := Refused(StoreUnavailable);
        case Torn => lines := lines + [Unparseable]; r := Refused(StoreUnavailable);
      }
    }

    /** Walks the file from the start and reports the first faulty line by its position. */
    method Verify() returns (v: Verdict)
      ensures v.Intact? <==> Verified(custody, lines)
      ensures v.Intact? ==> v.length == |lines| && v.head == LinkBefore(lines, |lines|)
      ensures v.Broken? ==>
        && 1 <= v.badSeq <= |lines| && Verified(custody, lines[..v.badSeq - 1])
        && Fault(custody, LinkBefore(lines, v.badSeq - 1), v.badSeq, lines[v.badSeq - 1]) == Some(v.reason)
    {
      hide Fault, IsHex64, Lit, Genesis;
      var prevHash, expected := Genesis(), 1;
      for i := 0 to |lines|
        invariant expected == i + 1 && prevHash == LinkBefore(lines, i)
        invariant Verified(custody, lines[..i])
      {
        var fault := Fault(custody, prevHash, expected, lines[i]);
        NextLineVerifies(custody, lines, i);
        if fault.Some? {
          return Broken(i + 1, fault.value);
        }
        CleanLineIsEntry(custody, prevHash, expected, lines[i]);
        prevHash, expected := lines[i].hash, expected + 1;
      }
      assert lines[..|lines|] == lines;
      v := Intact(|lines|, prevHash);
    }

    /** The last hash, Genesis() for an empty file, and an error for an unusable tail. */
    method HeadHash() returns (r: HeadResult)
      ensures Verified(custody, lines) ==> r == Head(LinkBefore(lines, |lines|))
      ensures r.TailCorrupt? <==> |lines| > 0 && !ValidTail(lines[|lines| - 1])
    {
      hide Fault, Verified, Lit, Genesis;
      if |lines| == 0 { return Head(Genesis()); }
      var last := lines[|lines| - 1];
      if !ValidTail(last) {
        if Verified(custody, lines) { VerifiedLine(custody, lines, |lines| - 1); }
        return TailCorrupt;
      }
      r := Head(last.hash);
    }
  }
}
