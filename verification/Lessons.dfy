/** The lessons ledger of the learning loop, the screen every lesson passes, and the memory rendered from it. */
module Lessons {
  import opened Options
  import opened Texts
  import opened LessonWords

  datatype Status = Pending | Accepted | Rejected | Archived

  datatype Blocked = Blocked(at: Text, reasons: seq<Text>)

  datatype Lesson = Lesson(id: Text, createdAt: Text, text: Text, topic: Text, status: Status, matter: Text,
                           feedback: Text, entities: seq<Text>, blocked: Option<Blocked>)

  /** Unicode normalization and case folding, the PII patterns, and the printing of large numbers. */
  datatype Screens = Screens(
    normalize: Text -> Text,     // normalizeText
    fold: Text -> Text,          // norm
    patterns: Text -> seq<Text>, // labels of the PII patterns found
    bigNumber: int -> Text)      // String(n) for a number beyond the integers a double holds exactly

  // ------------------------------------------------------------------------ the screen

  // The three kinds of violation, as the strings that carry them.

  function EntityViolation(e: Text): Text { Lit("entity:") + e }
  function TokenViolation(e: Text): Text { Lit("entity-token:") + e }
  function PatternViolation(name: Text): Text { Lit("pattern:") + name }

  predicate Includes(hay: Text, needle: Text) {
    exists i :: 0 <= i <= |hay| - |needle| && StandsAt(hay, needle, i)
  }

  predicate AnyWordIn(words: seq<Text>, hay: Text) {
    exists i :: 0 <= i < |words| && HasWord(hay, words[i])
  }

  function Hit(p: Screens, text: Text, e: Text): Option<Text> {
    var hay, needle := p.fold(text), Trim(p.fold(e));
    if |needle| >= 2 && Includes(hay, needle) then Some(EntityViolation(e))
    else if AnyWordIn(Tokens(needle), hay) then Some(TokenViolation(e))
    else None
  }

  function Hits(p: Screens, text: Text, entities: seq<Text>): seq<Text> {
    if entities == [] then []
    else
      var hit := Hit(p, text, entities[|entities| - 1]);
      Hits(p, text, entities[..|entities| - 1]) + (if hit.Some? then [hit.value] else [])
  }

  function PatternsIn(labels: seq<Text>): seq<Text> {
    seq(|labels|, i requires 0 <= i < |labels| => PatternViolation(labels[i]))
  }

  /** The text names none of the entities and shows no pattern. */
  predicate Clears(p: Screens, text: Text, entities: seq<Text>) {
    (forall i :: 0 <= i < |entities| ==> Hit(p, text, entities[i]).None?) && p.patterns(text) == []
  }

  lemma {:induction false} NoHits(p: Screens, text: Text, entities: seq<Text>)
    ensures Hits(p, text, entities) == [] <==> forall i :: 0 <= i < |entities| ==> Hit(p, text, entities[i]).None?
  {
    hide Hit;
    if entities != [] { NoHits(p, text, entities[..|entities| - 1]); }
  }

  // What the screen promises, spelled out.

  /** The party's whole name stands in the text, whatever the case. */
  ghost predicate NameStands(p: Screens, text: Text, e: Text) {
    |Trim(p.fold(e))| >= 2 && Contains(p.fold(text), Trim(p.fold(e)))
  }

  /** Some telling word of the party's name stands in the text: four units or more, and no stopword. */
  ghost predicate NameWordStands(p: Screens, text: Text, e: Text) {
    exists w :: HasRun(Trim(p.fold(e)), w) && |w| >= 4 && w !in Stopwords() && ContainsWord(p.fold(text), w)
  }

  /** What a party adds to the report. */
  ghost predicate IsReport(p: Screens, text: Text, e: Text, part: seq<Text>) {
    && (NameStands(p, text, e) ==> part == [Lit("entity:") + e])
    && (!NameStands(p, text, e) && NameWordStands(p, text, e) ==> part == [Lit("entity-token:") + e])
    && (!NameStands(p, text, e) && !NameWordStands(p, text, e) ==> part == [])
  }

  function Flat(parts: seq<seq<Text>>): seq<Text> {
    if parts == [] then [] else Flat(parts[..|parts| - 1]) + parts[|parts| - 1]
  }

  ghost predicate IsLabelled(labels: seq<Text>, violations: seq<Text>, front: seq<Text>) {
    && |violations| == |front| + |labels| && violations[..|front|] == front
    && forall i :: 0 <= i < |labels| ==> violations[|front| + i] == Lit("pattern:") + labels[i]
  }

  /** The parties' parts in their order, then the patterns. */
  ghost predicate Reports(p: Screens, text: Text, entities: seq<Text>, parts: seq<seq<Text>>, violations: seq<Text>) {
    && |parts| == |entities| && (forall i :: 0 <= i < |parts| ==> IsReport(p, text, entities[i], parts[i]))
    && IsLabelled(p.patterns(text), violations, Flat(parts))
  }

  /** ok exactly when no party is named, by name or by word, and no pattern is found; and every finding reported. */
  ghost predicate IsScreening(p: Screens, text: Text, entities: seq<Text>, ok: bool, violations: seq<Text>) {
    && (ok <==> p.patterns(text) == []
                && forall e :: e in entities ==> !NameStands(p, text, e) && !NameWordStands(p, text, e))
    && exists parts :: Reports(p, text, entities, parts, violations)
  }

  lemma NameStandsIs(p: Screens, text: Text, e: Text)
    ensures NameStands(p, text, e) <==> |Trim(p.fold(e))| >= 2 && Includes(p.fold(text), Trim(p.fold(e)))
  {
    hide StandsAt, Trim;
    var hay, name := p.fold(text), Trim(p.fold(e));
    if Includes(hay, name) {
      var i :| 0 <= i <= |hay| - |name| && StandsAt(hay, name, i);
      StandsIn(hay, name, i);
    }
    if Contains(hay, name) {
      var a, b :| hay == a + name + b;
      StandsBehind(a, name, b);
    }
  }

  lemma NameWordStandsIs(p: Screens, text: Text, e: Text)
    ensures NameWordStands(p, text, e) <==> AnyWordIn(Tokens(Trim(p.fold(e))), p.fold(text))
  {
    hide Trim, HasRun, HasWord, ContainsWord, Stopwords, Tokens;
    var hay, name := p.fold(text), Trim(p.fold(e));
    if AnyWordIn(Tokens(name), hay) {
      var i :| 0 <= i < |Tokens(name)| && HasWord(hay, Tokens(name)[i]);
      TokensAre(name, Tokens(name)[i]);
      HasWordIs(hay, Tokens(name)[i]);
    }
    if NameWordStands(p, text, e) {
      var w :| HasRun(name, w) && |w| >= 4 && w !in Stopwords() && ContainsWord(hay, w);
      TokensAre(name, w);
      HasWordIs(hay, w);
      var i :| 0 <= i < |Tokens(name)| && Tokens(name)[i] == w;
    }
  }

  lemma HitIs(p: Screens, text: Text, e: Text)
    ensures IsReport(p, text, e, if Hit(p, text, e).Some? then [Hit(p, text, e).value] else [])
    ensures Hit(p, text, e).Some? <==> NameStands(p, text, e) || NameWordStands(p, text, e)
  {
    hide Includes, AnyWordIn, Tokens, Trim, NameStands, NameWordStands;
    NameStandsIs(p, text, e);
    NameWordStandsIs(p, text, e);
  }

  lemma {:induction false} HitsReported(p: Screens, text: Text, entities: seq<Text>) returns (parts: seq<seq<Text>>)
    ensures |parts| == |entities| && (forall i :: 0 <= i < |parts| ==> IsReport(p, text, entities[i], parts[i]))
    ensures Flat(parts) == Hits(p, text, entities)
  {
    hide Hit, IsReport;
    parts := [];
    if entities != [] {
      var front, last := entities[..|entities| - 1], entities[|entities| - 1];
      var before := HitsReported(p, text, front);
      HitIs(p, text, last);
      var part := if Hit(p, text, last).Some? then [Hit(p, text, last).value] else [];
      parts := before + [part];
      assert parts[..|parts| - 1] == before;
    }
  }

  lemma SanitizeSpelled(p: Screens, text: Text, entities: seq<Text>)
    ensures IsScreening(p, text, entities, Clears(p, text, entities),
                        Hits(p, text, entities) + PatternsIn(p.patterns(text)))
  {
    hide Hit, IsReport, NameStands, NameWordStands;
    var parts := HitsReported(p, text, entities);
    assert Reports(p, text, entities, parts, Hits(p, text, entities) + PatternsIn(p.patterns(text)));
    forall e ensures Hit(p, text, e).Some? <==> NameStands(p, text, e) || NameWordStands(p, text, e) {
      HitIs(p, text, e);
    }
  }

  method SanitizeLesson(p: Screens, text: Text, entities: seq<Text>) returns (ok: bool, violations: seq<Text>)
    ensures IsScreening(p, text, entities, ok, violations)
    ensures violations == Hits(p, text, entities) + PatternsIn(p.patterns(text))
    ensures ok <==> Clears(p, text, entities)
  {
    hide Hit, IsScreening;
    violations := [];
    for i := 0 to |entities|
      invariant violations == Hits(p, text, entities[..i])
    {
      var hit := Hit(p, text, entities[i]);
      assert entities[..i + 1][..i] == entities[..i];
      if hit.Some? { violations := violations + [hit.value]; }
    }
    assert entities[..|entities|] == entities;
    var labels := p.patterns(text);
    var hits := violations;
    for i := 0 to |labels|
      invariant violations == hits + PatternsIn(labels)[..i]
    {
      violations := violations + [PatternViolation(labels[i])];
    }
    NoHits(p, text, entities);
    ok := |violations| == 0;
    assert violations == Hits(p, text, entities) + PatternsIn(labels);
    SanitizeSpelled(p, text, entities);
  }

  predicate StartsWith(t: Text, prefix: Text) {
    |prefix| <= |t| && t[..|prefix|] == prefix
  }

  const COLON: CodeUnit := ':' as int

  /** What stands before the first colon. */
  function BeforeColon(t: Text): Text {
    if t == [] || t[0] == COLON then [] else [t[0]] + BeforeColon(t[1..])
  }

  lemma {:induction false} BeforeColonIs(t: Text)
    ensures COLON !in BeforeColon(t) && (BeforeColon(t) == t || exists rest :: t == BeforeColon(t) + [COLON] + rest)
  {
    if t != [] && t[0] != COLON {
      BeforeColonIs(t[1..]);
      if BeforeColon(t[1..]) == t[1..] {
        assert t == [t[0]] + t[1..];
      } else {
        var rest :| t[1..] == BeforeColon(t[1..]) + [COLON] + rest;
        assert t == BeforeColon(t) + [COLON] + rest;
      }
    } else if t != [] {
      assert t == [] + [COLON] + t[1..];
    }
  }

  /** The reason code of a violation, told by its prefix. */
  function Code(v: Text): Text {
    if StartsWith(v, Lit("pattern:")) then v
    else if StartsWith(v, Lit("entity-token:")) then Lit("entity-token")
    else if StartsWith(v, Lit("entity:")) then Lit("entity")
    else BeforeColon(v)
  }

  predicate NoRepeats<T(==)>(s: seq<T>) {
    forall i, j :: 0 <= i < j < |s| ==> s[i] != s[j]
  }

  method RedactViolations(violations: seq<Text>) returns (out: seq<Text>)
    ensures NoRepeats(out)
    ensures forall c :: c in out <==> exists i :: 0 <= i < |violations| && Code(violations[i]) == c
  {
    hide Code;
    out := [];
    for i := 0 to |violations|
      invariant NoRepeats(out)
      invariant forall c :: c in out <==> exists j :: 0 <= j < i && Code(violations[j]) == c
    {
      var code := Code(violations[i]);
      if code !in out { out := out + [code]; }
    }
  }

  lemma PrefixLiterals()
    ensures Lit("entity:")[0] == 101 && Lit("entity:")[6] == 58
    ensures Lit("entity-token:")[0] == 101 && Lit("entity-token:")[6] == 45
    ensures Lit("pattern:")[0] == 112
  {}

  lemma Prefixed(prefix: Text, rest: Text)
    ensures StartsWith(prefix + rest, prefix)
    ensures forall i :: 0 <= i < |prefix| ==> (prefix + rest)[i] == prefix[i]
  {
    assert (prefix + rest)[..|prefix|] == prefix;
  }

  /** Whatever a party is called, colons and prefixes in the name included, its code tells the kind of violation and
      nothing of the name; a pattern's label passes through. */
  lemma RedactionHidesNames(name: Text)
    ensures Code(EntityViolation(name)) == Lit("entity")
    ensures Code(TokenViolation(name)) == Lit("entity-token")
    ensures Code(PatternViolation(name)) == PatternViolation(name)
  {
    PrefixLiterals();
    hide Lit;
    Prefixed(Lit("entity:"), name);
    Prefixed(Lit("entity-token:"), name);
    Prefixed(Lit("pattern:"), name);
    FirstDiffers(EntityViolation(name), Lit("pattern:"), 0);
    FirstDiffers(TokenViolation(name), Lit("pattern:"), 0);
    FirstDiffers(EntityViolation(name), Lit("entity-token:"), 6);
  }

  lemma FirstDiffers(t: Text, prefix: Text, i: nat)
    requires i < |prefix| && (i < |t| ==> t[i] != prefix[i])
    ensures !StartsWith(t, prefix)
  {
    if |prefix| <= |t| { assert t[..|prefix|][i] == t[i]; }
  }

  /** So the codes of a screening are among the two entity codes and the patterns' labels, in no way the parties'
      names. */
  lemma {:induction false} ReasonsNameNobody(p: Screens, text: Text, entities: seq<Text>, i: nat)
    requires var vs := Hits(p, text, entities) + PatternsIn(p.patterns(text)); i < |vs|
    ensures var c := Code((Hits(p, text, entities) + PatternsIn(p.patterns(text)))[i]);
      c == Lit("entity") || c == Lit("entity-token") || exists l :: l in p.patterns(text) && c == PatternViolation(l)
  {
    hide Code, Lit, EntityViolation, TokenViolation, PatternViolation;
    var hits, labels := Hits(p, text, entities), p.patterns(text);
    if i < |hits| {
      HitKinds(p, text, entities, i);
      var e :| hits[i] == EntityViolation(e) || hits[i] == TokenViolation(e);
      RedactionHidesNames(e);
    } else {
      RedactionHidesNames(labels[i - |hits|]);
    }
  }

  lemma {:induction false} HitKinds(p: Screens, text: Text, entities: seq<Text>, i: nat)
    requires i < |Hits(p, text, entities)|
    ensures var v := Hits(p, text, entities)[i];
      exists e :: v == EntityViolation(e) || v == TokenViolation(e)
  {
    hide EntityViolation, TokenViolation, Includes, AnyWordIn;
    var n := |entities| - 1;
    if i < |Hits(p, text, entities[..n])| { HitKinds(p, text, entities[..n], i); }
  }

  // -------------------------------------------------------------------- known entities

  /** A party recorded anywhere in the ledger. */
  predicate Known(lessons: seq<Lesson>, e: Text) {
    e != [] && exists i :: 0 <= i < |lessons| && e in lessons[i].entities
  }

  method LedgerEntities(lessons: seq<Lesson>) returns (seen: seq<Text>)
    ensures NoRepeats(seen)
    ensures forall e :: e in seen <==> Known(lessons, e)
  {
    seen := [];
    for i := 0 to |lessons|
      invariant NoRepeats(seen)
      invariant forall e :: e in seen <==> Known(lessons[..i], e)
    {
      var entities := lessons[i].entities;
      for j := 0 to |entities|
        invariant NoRepeats(seen)
        invariant forall e :: e in seen <==> Known(lessons[..i], e) || (e != [] && e in entities[..j])
      {
        if entities[j] != [] && entities[j] !in seen { seen := seen + [entities[j]]; }
      }
      forall e
        ensures Known(lessons[..i + 1], e) <==> Known(lessons[..i], e) || (e != [] && e in entities[..|entities|])
      {
        KnownStep(lessons, i, e);
      }
    }
    assert lessons[..|lessons|] == lessons;
  }

  lemma KnownStep(lessons: seq<Lesson>, i: nat, e: Text)
    requires i < |lessons|
    ensures Known(lessons[..i + 1], e) <==> Known(lessons[..i], e) || (e != [] && e in lessons[i].entities)
  {
    if Known(lessons[..i], e) {
      var k :| 0 <= k < i && e in lessons[..i][k].entities;
      assert lessons[..i + 1][k] == lessons[k];
    }
    if e in lessons[i].entities { assert lessons[..i + 1][i] == lessons[i]; }
  }

  /** The text clears every party of the ledger. */
  ghost predicate ClearsLedger(p: Screens, text: Text, lessons: seq<Lesson>) {
    (forall e :: Known(lessons, e) ==> Hit(p, text, e).None?) && p.patterns(text) == []
  }

  lemma ClearsKnown(p: Screens, text: Text, lessons: seq<Lesson>, seen: seq<Text>)
    requires forall e :: e in seen <==> Known(lessons, e)
    ensures Clears(p, text, seen) <==> ClearsLedger(p, text, lessons)
  {
    hide Known, Hit;
    if Clears(p, text, seen) {
      forall e | Known(lessons, e) ensures Hit(p, text, e).None? {
        assert e in seen;
      }
    }
    if ClearsLedger(p, text, lessons) {
      forall i | 0 <= i < |seen| ensures Hit(p, text, seen[i]).None? {
        assert seen[i] in seen;
      }
    }
  }

  // ------------------------------------------------------------------- append and status

  /** Some lesson already says this. */
  predicate Said(p: Screens, lessons: seq<Lesson>, text: Text) {
    exists i :: 0 <= i < |lessons| && p.normalize(lessons[i].text) == p.normalize(text)
  }

  function AppendLesson(p: Screens, lessons: seq<Lesson>, lesson: Lesson): Option<seq<Lesson>> {
    if Said(p, lessons, lesson.text) then None else Some(lessons + [lesson])
  }

  predicate Allowed(from: Status, to: Status) {
    match from
    case Pending => to.Accepted? || to.Rejected?
    case Accepted => to.Archived?
    case Rejected => false
    case Archived => false
  }

  /** Pending lessons may be accepted or rejected, accepted ones archived, and that is all. */
  lemma AllowedIs(from: Status, to: Status)
    ensures Allowed(from, to) <==> (from, to) in {(Pending, Accepted), (Pending, Rejected), (Accepted, Archived)}
  {}

  /** None is the thrown error. */
  function SetStatus(lessons: seq<Lesson>, id: Text, status: Status): Option<seq<Lesson>> {
    if exists i :: 0 <= i < |lessons| && lessons[i].id == id && !Allowed(lessons[i].status, status) then None
    else Some(seq(|lessons|, i requires 0 <= i < |lessons| =>
                if lessons[i].id == id then lessons[i].(status := status) else lessons[i]))
  }

  // ----------------------------------------------------------------------------- memory

  predicate IsAccepted(l: Lesson) { l.status.Accepted? }

  function Filter<T>(keep: T -> bool, s: seq<T>): seq<T> {
    if s == [] then []
    else Filter(keep, s[..|s| - 1]) + (if keep(s[|s| - 1]) then [s[|s| - 1]] else [])
  }

  /** Newest first, in any order where createdAt is equal: all that the comparator settles. */
  predicate NewestFirst(s: seq<Lesson>) {
    forall i, j :: 0 <= i < j < |s| ==> !Before(s[i].createdAt, s[j].createdAt)
  }

  /** An order in which the sort may leave the accepted lessons. */
  predicate SortOf(lessons: seq<Lesson>, order: seq<Lesson>) {
    NewestFirst(order) && multiset(order) == multiset(Filter(IsAccepted, lessons))
  }

  ghost function Sane(p: Screens, lessons: seq<Lesson>, order: seq<Lesson>): seq<Lesson> {
    if order == [] then []
    else
      var last := order[|order| - 1];
      Sane(p, lessons, order[..|order| - 1]) + (if ClearsLedger(p, last.text, lessons) then [last] else [])
  }

  ghost function Excluded(p: Screens, lessons: seq<Lesson>, order: seq<Lesson>): seq<Lesson> {
    if order == [] then []
    else
      var last := order[|order| - 1];
      Excluded(p, lessons, order[..|order| - 1]) + (if ClearsLedger(p, last.text, lessons) then [] else [last])
  }

  const NEWLINE: CodeUnit := '\n' as int

  function Header(): seq<Text> {
    [Lit("# Firm Memory (HOT)"), [],
     Lit("<!-- generated by the learning loop; ") + Lit("edit lessons via the approval flow -->"), []]
  }

  function Marker(excluded: nat): seq<Text> {
    if excluded == 0 then []
      else [Lit("<!-- excluded: ") + Decimal(excluded) + Lit(" lessons failed sanitization -->"), []]
  }

  function LessonLine(l: Lesson): Text {
    Lit("- (") + l.topic + Lit(") ") + l.text
  }

  /** Header, marker and the closing line. */
  function FixedLines(excluded: nat): nat {
    if excluded == 0 then 5 else 7
  }

  /** How many lessons the limit leaves room for. */
  function Room(excluded: nat, maxLines: int): nat {
    if FixedLines(excluded) <= maxLines then maxLines - FixedLines(excluded) else 0
  }

  function LessonLines(kept: seq<Lesson>): seq<Text> {
    seq(|kept|, i requires 0 <= i < |kept| => LessonLine(kept[i]))
  }

  function Pieces(excluded: nat, kept: seq<Lesson>): seq<Text> {
    Header() + Marker(excluded) + LessonLines(kept) + [[]]
  }

  function Join(pieces: seq<Text>): Text {
    if pieces == [] then []
    else if |pieces| == 1 then pieces[0]
    else Join(pieces[..|pieces| - 1]) + [NEWLINE] + pieces[|pieces| - 1]
  }

  datatype Rendering = Rendering(hot: Text, kept: seq<Lesson>, overflow: seq<Lesson>, excluded: seq<Lesson>)

  function Min(a: nat, b: nat): nat { if a < b then a else b }

  ghost function Rendered(p: Screens, lessons: seq<Lesson>, order: seq<Lesson>, maxLines: int): Rendering {
    var sane, excluded := Sane(p, lessons, order), Excluded(p, lessons, order);
    var n := Min(|sane|, Room(|excluded|, maxLines));
    Rendering(Join(Pieces(|excluded|, sane[..n])), sane[..n], sane[n..], excluded)
  }

  /** Array.sort with the newest-first comparator, by insertion. */
  method SortNewestFirst(lessons: seq<Lesson>) returns (order: seq<Lesson>)
    ensures NewestFirst(order) && multiset(order) == multiset(lessons)
  {
    order := [];
    for i := 0 to |lessons|
      invariant NewestFirst(order) && multiset(order) == multiset(lessons[..i])
    {
      ghost var was := order;
      order := Insert(order, lessons[i]);
      assert lessons[..i + 1] == lessons[..i] + [lessons[i]];
    }
    assert lessons[..|lessons|] == lessons;
  }

  method Insert(s: seq<Lesson>, l: Lesson) returns (r: seq<Lesson>)
    requires NewestFirst(s)
    ensures NewestFirst(r) && multiset(r) == multiset(s) + multiset{l}
  {
    var k := 0;
    while k < |s| && Before(l.createdAt, s[k].createdAt)
      invariant k <= |s| && forall i :: 0 <= i < k ==> Before(l.createdAt, s[i].createdAt)
    {
      k := k + 1;
    }
    r := s[..k] + [l] + s[k..];
    InsertKeepsOrder(s, l, k);
    assert s == s[..k] + s[k..];
  }

  lemma InsertKeepsOrder(s: seq<Lesson>, l: Lesson, k: nat)
    requires NewestFirst(s) && k <= |s|
    requires forall i :: 0 <= i < k ==> Before(l.createdAt, s[i].createdAt)
    requires k < |s| ==> !Before(l.createdAt, s[k].createdAt)
    ensures NewestFirst(s[..k] + [l] + s[k..])
  {
    forall i | 0 <= i < k ensures !Before(s[i].createdAt, l.createdAt) {
      BeforeAsymmetric(l.createdAt, s[i].createdAt);
    }
    forall j | k <= j < |s| ensures !Before(l.createdAt, s[j].createdAt) {
      if j > k && Before(l.createdAt, s[j].createdAt) {
        assert !Before(s[k].createdAt, s[j].createdAt);
        BeforeTotal(s[k].createdAt, s[j].createdAt);
        if s[k].createdAt != s[j].createdAt { BeforeTransitive(l.createdAt, s[j].createdAt, s[k].createdAt); }
      }
    }
    hide Before;
  }

  method RenderHotMemory(p: Screens, lessons: seq<Lesson>, maxLines: int) returns (r: Rendering, order: seq<Lesson>)
    ensures SortOf(lessons, order) && r == Rendered(p, lessons, order, maxLines)
  {
    hide Clears, ClearsLedger, IsScreening, NewestFirst, Join, Pieces, Sane, Excluded, Filter;
    var entities := LedgerEntities(lessons);
    var accepted := SortNewestFirst(Filter(IsAccepted, lessons));
    order := accepted;
    var sane: seq<Lesson>, excluded: seq<Lesson> := [], [];
    NothingSplit(p, lessons);
    for i := 0 to |accepted|
      invariant sane == Sane(p, lessons, accepted[..i]) && excluded == Excluded(p, lessons, accepted[..i])
    {
      var ok, violations := SanitizeLesson(p, accepted[i].text, entities);
      ClearsKnown(p, accepted[i].text, lessons, entities);
      SplitStep(p, lessons, accepted[..i], accepted[i]);
      assert accepted[..i] + [accepted[i]] == accepted[..i + 1];
      if ok { sane := sane + [accepted[i]]; } else { excluded := excluded + [accepted[i]]; }
    }
    assert accepted[..|accepted|] == accepted;
    var kept: seq<Lesson>, overflow: seq<Lesson> := [], [];
    var lineCount := FixedLines(|excluded|);
    ghost var room := Room(|excluded|, maxLines);
    for i := 0 to |sane|
      invariant kept == sane[..Min(i, room)] && overflow == sane[Min(i, room)..i]
      invariant lineCount == FixedLines(|excluded|) + Min(i, room)
    {
      KeepStep(sane, i, room);
      if lineCount + 1 > maxLines {
        overflow := overflow + [sane[i]];
      } else {
        kept := kept + [sane[i]];
        lineCount := lineCount + 1;
      }
    }
    r := Rendering(Join(Pieces(|excluded|, kept)), kept, overflow, excluded);
  }

  lemma NothingSplit(p: Screens, lessons: seq<Lesson>)
    ensures Sane(p, lessons, []) == [] && Excluded(p, lessons, []) == []
  {}

  lemma KeepStep(sane: seq<Lesson>, i: nat, room: nat)
    requires i < |sane|
    ensures i < room ==> sane[..Min(i + 1, room)] == sane[..Min(i, room)] + [sane[i]]
    ensures i < room ==> sane[Min(i + 1, room)..i + 1] == sane[Min(i, room)..i] == []
    ensures i >= room ==> sane[..Min(i + 1, room)] == sane[..Min(i, room)]
    ensures i >= room ==> sane[Min(i + 1, room)..i + 1] == sane[Min(i, room)..i] + [sane[i]]
  {}

  // ----------------------------------------------------------------- what a render gives

  lemma SplitStep(p: Screens, lessons: seq<Lesson>, order: seq<Lesson>, last: Lesson)
    ensures var (s, e) := (Sane(p, lessons, order), Excluded(p, lessons, order));
      if ClearsLedger(p, last.text, lessons)
      then Sane(p, lessons, order + [last]) == s + [last] && Excluded(p, lessons, order + [last]) == e
      else Sane(p, lessons, order + [last]) == s && Excluded(p, lessons, order + [last]) == e + [last]
  {
    hide ClearsLedger;
    assert (order + [last])[..|order|] == order;
  }

  lemma {:induction false} SaneOrExcluded(p: Screens, lessons: seq<Lesson>, order: seq<Lesson>)
    ensures multiset(Sane(p, lessons, order)) + multiset(Excluded(p, lessons, order)) == multiset(order)
  {
    hide *;
    if order == [] {
      NothingSplit(p, lessons);
    } else {
      var front, last := order[..|order| - 1], order[|order| - 1];
      SaneOrExcluded(p, lessons, front);
      assert front + [last] == order;
      SplitStep(p, lessons, front, last);
      JoinsOne(Sane(p, lessons, front), Excluded(p, lessons, front), front,
               Sane(p, lessons, order), Excluded(p, lessons, order), last);
    }
  }

  lemma JoinsOne<T>(s: seq<T>, e: seq<T>, whole: seq<T>, s': seq<T>, e': seq<T>, x: T)
    requires multiset(s) + multiset(e) == multiset(whole)
    requires (s' == s + [x] && e' == e) || (s' == s && e' == e + [x])
    ensures multiset(s') + multiset(e') == multiset(whole + [x])
  {
    assert multiset(whole + [x]) == multiset(whole) + multiset{x};
    if s' == s + [x] && e' == e {
      assert multiset(s + [x]) == multiset(s) + multiset{x};
    } else {
      assert multiset(e + [x]) == multiset(e) + multiset{x};
    }
  }

  lemma {:induction false} SaneAre(p: Screens, lessons: seq<Lesson>, order: seq<Lesson>, l: Lesson)
    ensures l in Sane(p, lessons, order) <==> l in order && ClearsLedger(p, l.text, lessons)
    ensures l in Excluded(p, lessons, order) <==> l in order && !ClearsLedger(p, l.text, lessons)
  {
    hide ClearsLedger;
    if order != [] {
      SaneAre(p, lessons, order[..|order| - 1], l);
      assert order == order[..|order| - 1] + [order[|order| - 1]];
    }
  }

  lemma {:induction false} FilterAre<T>(keep: T -> bool, s: seq<T>, x: T)
    ensures x in Filter(keep, s) <==> x in s && keep(x)
  {
    if s != [] {
      FilterAre(keep, s[..|s| - 1], x);
      assert s == s[..|s| - 1] + [s[|s| - 1]];
    }
  }

  /** HOT, overflow and excluded share out the accepted lessons: none is lost, none appears twice. */
  lemma RenderPartitions(p: Screens, lessons: seq<Lesson>, order: seq<Lesson>, maxLines: int)
    requires SortOf(lessons, order)
    ensures var r := Rendered(p, lessons, order, maxLines);
      multiset(r.kept) + multiset(r.overflow) + multiset(r.excluded) == multiset(Filter(IsAccepted, lessons))
  {
    SaneOrExcluded(p, lessons, order);
    var r, sane := Rendered(p, lessons, order, maxLines), Sane(p, lessons, order);
    hide Sane, Excluded, NewestFirst, Join, Pieces, Room, Filter;
    assert sane == r.kept + r.overflow;
  }

  /** A lesson is excluded exactly when it is accepted and names a party of the ledger; HOT and overflow hold only
      clear ones. */
  lemma RenderScreens(p: Screens, lessons: seq<Lesson>, order: seq<Lesson>, maxLines: int, l: Lesson)
    requires SortOf(lessons, order)
    ensures var r := Rendered(p, lessons, order, maxLines);
      && (l in r.excluded <==> l in lessons && l.status.Accepted? && !ClearsLedger(p, l.text, lessons))
      && (l in r.kept || l in r.overflow <==> l in lessons && l.status.Accepted? && ClearsLedger(p, l.text, lessons))
  {
    hide ClearsLedger, Sane, Excluded, NewestFirst, Join, Pieces, Room, Filter;
    var r, sane := Rendered(p, lessons, order, maxLines), Sane(p, lessons, order);
    SaneAre(p, lessons, order, l);
    FilterAre(IsAccepted, lessons, l);
    assert l in order <==> l in multiset(order);
    assert l in Filter(IsAccepted, lessons) <==> l in multiset(Filter(IsAccepted, lessons));
    assert sane == r.kept + r.overflow;
  }

  /** Overflow is never newer than what was kept. */
  lemma OverflowIsOldest(p: Screens, lessons: seq<Lesson>, order: seq<Lesson>, maxLines: int, k: Lesson, o: Lesson)
    requires SortOf(lessons, order)
    requires k in Rendered(p, lessons, order, maxLines).kept && o in Rendered(p, lessons, order, maxLines).overflow
    ensures !Before(k.createdAt, o.createdAt)
  {
    hide *;
    KeptThenOverflow(p, lessons, order, maxLines);
    SaneKeepsOrder(p, lessons, order);
    var r, sane := Rendered(p, lessons, order, maxLines), Sane(p, lessons, order);
    var i :| 0 <= i < |r.kept| && r.kept[i] == k;
    var j :| 0 <= j < |r.overflow| && r.overflow[j] == o;
    assert sane[i] == k && sane[|r.kept| + j] == o;
    OrderAt(sane, i, |r.kept| + j);
  }

  lemma KeptThenOverflow(p: Screens, lessons: seq<Lesson>, order: seq<Lesson>, maxLines: int)
    ensures var r := Rendered(p, lessons, order, maxLines); Sane(p, lessons, order) == r.kept + r.overflow
    ensures SortOf(lessons, order) ==> NewestFirst(order)
  {
    hide Sane, Excluded, NewestFirst, Filter;
  }

  lemma OrderAt(s: seq<Lesson>, i: nat, j: nat)
    requires NewestFirst(s) && i < j < |s|
    ensures !Before(s[i].createdAt, s[j].createdAt)
  {
    hide Before;
  }

  lemma {:induction false} SaneKeepsOrder(p: Screens, lessons: seq<Lesson>, order: seq<Lesson>)
    requires NewestFirst(order)
    ensures NewestFirst(Sane(p, lessons, order))
  {
    hide ClearsLedger, Before;
    if order != [] {
      var front := order[..|order| - 1];
      SaneKeepsOrder(p, lessons, front);
      var s := Sane(p, lessons, front);
      forall i | 0 <= i < |s| ensures !Before(s[i].createdAt, order[|order| - 1].createdAt) {
        SaneAre(p, lessons, front, s[i]);
        var k :| 0 <= k < |front| && front[k] == s[i];
      }
    }
  }

  function Newlines(t: Text): nat {
    if t == [] then 0 else Newlines(t[..|t| - 1]) + (if t[|t| - 1] == NEWLINE then 1 else 0)
  }

  /** How many lines a text has. */
  function LineCount(t: Text): nat { Newlines(t) + 1 }

  lemma {:induction false} NewlinesAdd(a: Text, b: Text)
    ensures Newlines(a + b) == Newlines(a) + Newlines(b)
    decreases |b|
  {
    if b == [] {
      assert a + b == a;
    } else {
      NewlinesAdd(a, b[..|b| - 1]);
      assert (a + b)[..|a + b| - 1] == a + b[..|b| - 1];
    }
  }

  function NewlinesIn(pieces: seq<Text>): nat {
    if pieces == [] then 0 else NewlinesIn(pieces[..|pieces| - 1]) + Newlines(pieces[|pieces| - 1])
  }

  lemma {:induction false} JoinedLines(pieces: seq<Text>)
    requires pieces != []
    ensures LineCount(Join(pieces)) == |pieces| + NewlinesIn(pieces)
  {
    var front, last := pieces[..|pieces| - 1], pieces[|pieces| - 1];
    if |pieces| == 1 {
      assert front == [] && NewlinesIn(pieces) == NewlinesIn(front) + Newlines(last);
    } else {
      JoinedLines(front);
      NewlinesAdd(Join(front) + [NEWLINE], last);
      NewlinesAdd(Join(front), [NEWLINE]);
      assert [NEWLINE][..0] == [];
      assert Newlines([NEWLINE]) == Newlines([NEWLINE][..0]) + 1;
    }
  }

  lemma {:induction false} NoNewlinesIn(pieces: seq<Text>)
    requires forall i :: 0 <= i < |pieces| ==> Newlines(pieces[i]) == 0
    ensures NewlinesIn(pieces) == 0
  {
    if pieces != [] { NoNewlinesIn(pieces[..|pieces| - 1]); }
  }

  lemma {:induction false} NoNewline(t: Text)
    ensures Newlines(t) == 0 <==> NEWLINE !in t
  {
    if t != [] {
      NoNewline(t[..|t| - 1]);
      assert t == t[..|t| - 1] + [t[|t| - 1]];
    }
  }

  predicate OneLine(l: Lesson) { NEWLINE !in l.topic && NEWLINE !in l.text }

  lemma LitPlain(s: string)
    requires forall i :: 0 <= i < |s| ==> ' ' <= s[i] <= '~'
    ensures NEWLINE !in Lit(s) && Newlines(Lit(s)) == 0
  {
    NoNewline(Lit(s));
  }

  lemma TitlePlain()
    ensures Newlines(Lit("# Firm Memory (HOT)")) == 0
  {
    hide Lit, Newlines;
    LitPlain("# Firm Memory (HOT)");
  }

  lemma NotePlain()
    ensures Newlines(Lit("<!-- generated by the learning loop; ")) == 0
    ensures Newlines(Lit("edit lessons via the approval flow -->")) == 0
  {
    hide Lit, Newlines;
    LitPlain("<!-- generated by the learning loop; ");
    LitPlain("edit lessons via the approval flow -->");
  }

  lemma CountPlain()
    ensures Newlines(Lit("<!-- excluded: ")) == 0 && Newlines(Lit(" lessons failed sanitization -->")) == 0
  {
    hide Lit, Newlines;
    LitPlain("<!-- excluded: ");
    LitPlain(" lessons failed sanitization -->");
  }

  lemma BulletPlain()
    ensures Newlines(Lit("- (")) == 0 && Newlines(Lit(") ")) == 0
  {
    hide Lit, Newlines;
    LitPlain("- (");
    LitPlain(") ");
  }

  lemma HeaderPlain()
    ensures forall i :: 0 <= i < 4 ==> Newlines(Header()[i]) == 0
  {
    hide Lit, Newlines;
    TitlePlain();
    NotePlain();
    NewlinesAdd(Lit("<!-- generated by the learning loop; "), Lit("edit lessons via the approval flow -->"));
    NoNewline([]);
  }

  lemma MarkerPlain(excluded: nat)
    ensures forall i :: 0 <= i < |Marker(excluded)| ==> Newlines(Marker(excluded)[i]) == 0
  {
    var a, b := Lit("<!-- excluded: "), Lit(" lessons failed sanitization -->");
    hide Lit, Newlines, Decimal;
    CountPlain();
    NoNewline([]);
    NoNewline(Decimal(excluded));
    NewlinesAdd(a, Decimal(excluded));
    NewlinesAdd(a + Decimal(excluded), b);
  }

  lemma LessonLinePlain(l: Lesson)
    requires OneLine(l)
    ensures Newlines(LessonLine(l)) == 0
  {
    var a, b := Lit("- ("), Lit(") ");
    hide Lit, Newlines;
    BulletPlain();
    NoNewline(l.topic);
    NoNewline(l.text);
    NewlinesAdd(a, l.topic);
    NewlinesAdd(a + l.topic, b);
    NewlinesAdd(a + l.topic + b, l.text);
  }

  lemma {:induction false} NewlinesInAdd(a: seq<Text>, b: seq<Text>)
    ensures NewlinesIn(a + b) == NewlinesIn(a) + NewlinesIn(b)
    decreases |b|
  {
    if b == [] {
      assert a + b == a;
    } else {
      NewlinesInAdd(a, b[..|b| - 1]);
      assert (a + b)[..|a + b| - 1] == a + b[..|b| - 1];
    }
  }

  /** How many lines HOT has: those of the limit's own count, and one more for every line break inside a lesson. */
  lemma HotLines(p: Screens, lessons: seq<Lesson>, order: seq<Lesson>, maxLines: int)
    ensures var r := Rendered(p, lessons, order, maxLines);
      LineCount(r.hot) == FixedLines(|r.excluded|) + |r.kept| + NewlinesIn(LessonLines(r.kept))
  {
    var r := Rendered(p, lessons, order, maxLines);
    var n := |r.excluded|;
    var top, body := Header() + Marker(n), LessonLines(r.kept);
    hide LessonLines, Sane, Excluded, Join, Newlines, Lit, Header, Marker, NewlinesIn;
    FixedPlain(n);
    JoinedLines(Pieces(n, r.kept));
    NewlinesInAdd(top + body, [[]]);
    NewlinesInAdd(top, body);
  }

  /** As many lessons are kept as there are lines for them: one is kept only within the limit, and one overflows only
      when one more line would not fit. */
  lemma KeptFits(p: Screens, lessons: seq<Lesson>, order: seq<Lesson>, maxLines: int)
    ensures var r := Rendered(p, lessons, order, maxLines);
      var fixed := LineCount(r.hot) - |r.kept| - NewlinesIn(LessonLines(r.kept));
      && (r.kept != [] ==> fixed + |r.kept| <= maxLines)
      && (r.overflow != [] ==> fixed + |r.kept| + 1 > maxLines)
  {
    HotLines(p, lessons, order, maxLines);
    hide LineCount, LessonLines, NewlinesIn, Join, Pieces, Sane, Excluded;
  }

  lemma FixedPlain(n: nat)
    ensures NewlinesIn(Header() + Marker(n)) == 0 && NewlinesIn([[]]) == 0
    ensures |Header() + Marker(n)| + 1 == FixedLines(n)
  {
    HeaderPlain();
    MarkerPlain(n);
    NoNewline([]);
    var top := Header() + Marker(n);
    assert |Header()| == 4;
    hide Lit, Header, Newlines, NewlinesIn;
    forall i | 0 <= i < |top| ensures Newlines(top[i]) == 0 {
      if i >= 4 { assert top[i] == Marker(n)[i - 4]; } else { assert top[i] == Header()[i]; }
    }
    NoNewlinesIn(top);
    NoNewlinesIn([[]]);
  }

  /** With lessons of one line each, HOT keeps to the limit exactly when the limit covers its fixed lines. */
  lemma HotLinesIff(p: Screens, lessons: seq<Lesson>, order: seq<Lesson>, maxLines: int)
    requires forall i :: 0 <= i < |lessons| && IsClear(p, lessons, lessons[i]) ==> OneLine(lessons[i])
    requires SortOf(lessons, order)
    ensures var r := Rendered(p, lessons, order, maxLines);
      LineCount(r.hot) <= maxLines <==> FixedLines(|r.excluded|) <= maxLines
  {
    var r := Rendered(p, lessons, order, maxLines);
    HotLines(p, lessons, order, maxLines);
    forall i | 0 <= i < |r.kept| ensures Newlines(LessonLines(r.kept)[i]) == 0 {
      RenderScreens(p, lessons, order, maxLines, r.kept[i]);
      var k :| 0 <= k < |lessons| && lessons[k] == r.kept[i];
      LessonLinePlain(r.kept[i]);
    }
    NoNewlinesIn(LessonLines(r.kept));
  }

  /** The lesson may stand in HOT: accepted, and naming no party of the ledger. */
  ghost predicate IsClear(p: Screens, lessons: seq<Lesson>, l: Lesson) {
    l.status.Accepted? && ClearsLedger(p, l.text, lessons)
  }

  /** HOT keeps every limit that covers its fixed lines. */
  ghost predicate KeepsEveryLimit(p: Screens, lessons: seq<Lesson>, order: seq<Lesson>) {
    forall maxLines :: FixedLines(|Excluded(p, lessons, order)|) <= maxLines ==>
      WithinLimit(p, lessons, order, maxLines)
  }

  ghost predicate WithinLimit(p: Screens, lessons: seq<Lesson>, order: seq<Lesson>, maxLines: int) {
    LineCount(Rendered(p, lessons, order, maxLines).hot) <= maxLines
  }

  /** HOT keeps every limit that covers its fixed lines exactly when every clear lesson, topic and text, is one line. */
  lemma HotLimitIff(p: Screens, lessons: seq<Lesson>, order: seq<Lesson>)
    requires SortOf(lessons, order)
    ensures KeepsEveryLimit(p, lessons, order) <==>
      forall i :: 0 <= i < |lessons| && IsClear(p, lessons, lessons[i]) ==> OneLine(lessons[i])
  {
    hide IsClear, OneLine, SortOf, LineCount, Excluded, FixedLines;
    if forall i :: 0 <= i < |lessons| && IsClear(p, lessons, lessons[i]) ==> OneLine(lessons[i]) {
      forall maxLines | FixedLines(|Excluded(p, lessons, order)|) <= maxLines
        ensures WithinLimit(p, lessons, order, maxLines) {
        HotLinesIff(p, lessons, order, maxLines);
      }
    } else {
      var i :| 0 <= i < |lessons| && IsClear(p, lessons, lessons[i]) && !OneLine(lessons[i]);
      BrokenLine(p, lessons, order, lessons[i]);
    }
  }

  /** The limit with room for everything up to a lesson that has a line break. */
  lemma BrokenLine(p: Screens, lessons: seq<Lesson>, order: seq<Lesson>, l: Lesson)
    requires SortOf(lessons, order) && l in lessons && IsClear(p, lessons, l) && !OneLine(l)
    ensures !KeepsEveryLimit(p, lessons, order)
  {
    var sane, excluded := Sane(p, lessons, order), Excluded(p, lessons, order);
    hide ClearsLedger, NewestFirst;
    SaneAre(p, lessons, order, l);
    FilterAre(IsAccepted, lessons, l);
    assert l in order <==> l in multiset(order);
    assert l in Filter(IsAccepted, lessons) <==> l in multiset(Filter(IsAccepted, lessons));
    var k :| 0 <= k < |sane| && sane[k] == l;
    hide Sane, Excluded, Filter, OneLine;
    var maxLines := FixedLines(|excluded|) + k + 1;
    HotLines(p, lessons, order, maxLines);
    var kept := sane[..k + 1];
    assert Rendered(p, lessons, order, maxLines).kept == kept && kept[k] == l;
    LessonLineBroken(l);
    LineCounts(LessonLines(kept), k);
    assert !WithinLimit(p, lessons, order, maxLines);
  }

  lemma LessonLineBroken(l: Lesson)
    requires !OneLine(l)
    ensures Newlines(LessonLine(l)) > 0
  {
    hide Lit;
    NoNewline(LessonLine(l));
    var line, a, b := LessonLine(l), Lit("- ("), Lit(") ");
    if NEWLINE in l.topic {
      var i :| 0 <= i < |l.topic| && l.topic[i] == NEWLINE;
      assert line[|a| + i] == NEWLINE;
    } else {
      var i :| 0 <= i < |l.text| && l.text[i] == NEWLINE;
      assert line[|a + l.topic + b| + i] == NEWLINE;
    }
  }

  /** A ledger with one accepted lesson, whose text is a line break, takes seven lines of six. */
  lemma LineBreakOverruns(p: Screens) returns (lessons: seq<Lesson>)
    requires p.patterns([NEWLINE]) == []
    ensures SortOf(lessons, lessons) && LineCount(Rendered(p, lessons, lessons, 6).hot) == 7
  {
    var l := Lesson([], [], [NEWLINE], [], Accepted, [], [], [], None);
    lessons := [l];
    OneAccepted(l);
    OneClear(p, lessons, l);
    hide *;
    OneKept(p, lessons, l);
    HotLines(p, lessons, lessons, 6);
    OneBreak(l);
  }

  lemma OneKept(p: Screens, lessons: seq<Lesson>, l: Lesson)
    requires Sane(p, lessons, [l]) == [l] && Excluded(p, lessons, [l]) == []
    ensures var r := Rendered(p, lessons, [l], 6);
      r.kept == [l] && r.excluded == [] && FixedLines(|r.excluded|) == 5
  {
    hide Sane, Excluded, Join, Pieces;
    assert [l][..1] == [l];
  }

  lemma OneAccepted(l: Lesson)
    requires l.status == Accepted
    ensures SortOf([l], [l])
  {
    assert [l][..0] == [];
    assert Filter(IsAccepted, [l][..0]) == [];
    assert Filter(IsAccepted, [l]) == [l];
  }

  lemma OneClear(p: Screens, lessons: seq<Lesson>, l: Lesson)
    requires p.patterns(l.text) == [] && |lessons| == 1 && lessons[0].entities == []
    ensures Sane(p, lessons, [l]) == [l] && Excluded(p, lessons, [l]) == []
  {
    assert ClearsLedger(p, l.text, lessons);
    hide ClearsLedger;
    assert [l][..0] == [];
    var none: seq<Lesson> := [];
    assert Sane(p, lessons, none) == [] && Excluded(p, lessons, none) == [];
  }

  lemma OneBreak(l: Lesson)
    requires l.topic == [] && l.text == [NEWLINE]
    ensures NewlinesIn(LessonLines([l])) == 1
  {
    var line := LessonLine(l);
    BulletPlain();
    hide Lit;
    var a, b := Lit("- ("), Lit(") ");
    var empty: Text := [];
    NewlinesAdd(a, empty);
    NewlinesAdd(a + empty, b);
    NewlinesAdd(a + empty + b, [NEWLINE]);
    assert Newlines(empty) == 0;
    var newline: Text := [NEWLINE];
    assert newline[..0] == empty && Newlines(newline) == Newlines(newline[..0]) + 1;
    var one: seq<Text> := [line];
    assert LessonLines([l]) == one && one[..0] == [];
    assert NewlinesIn(one) == NewlinesIn(one[..0]) + Newlines(line);
  }

  lemma {:induction false} LineCounts(pieces: seq<Text>, k: nat)
    requires k < |pieces|
    ensures NewlinesIn(pieces) >= Newlines(pieces[k])
  {
    if k < |pieces| - 1 { LineCounts(pieces[..|pieces| - 1], k); }
  }
}
