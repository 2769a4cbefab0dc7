/** Canonical JSON: the text every receipt hash and every dispatch identity is computed over. */
module CanonicalJson {
  import opened Options
  import opened Texts

  /** The text Number::toString gives a finite number; Json.Num carries a number by that text. */
  predicate IsNumberText(t: Text) {
    && |t| > 0
    && (IsDigit(t[0]) || t[0] == 45)
    && forall i :: 0 <= i < |t| ==> IsNumberUnit(t[i])
  }

  /** One of 0-9 + - . e */
  predicate IsNumberUnit(u: CodeUnit) {
    IsDigit(u) || u == 43 || u == 45 || u == 46 || u == 101
  }

  type NumberText = t: Text | IsNumberText(t) witness [48]

  datatype Member<T> = Member(key: Text, value: T)

  /** A JSON value as JSON.parse builds it; an object keeps its members in insertion order. */
  datatype Json =
    | Null
    | Bool(b: bool)
    | Num(digits: NumberText)
    | Str(text: Text)
    | Arr(items: seq<Json>)
    | Obj(members: seq<Member<Json>>)

  predicate DistinctKeys<T>(ms: seq<Member<T>>) {
    forall i, j :: 0 <= i < j < |ms| ==> ms[i].key != ms[j].key
  }

  /** No object, at any depth, holds one key twice: JavaScript objects cannot. */
  predicate WellFormed(v: Json) {
    match v
    case Arr(items) => forall i :: 0 <= i < |items| ==> WellFormed(items[i])
    case Obj(ms) => DistinctKeys(ms) && forall i :: 0 <= i < |ms| ==> WellFormed(ms[i].value)
    case _ => true
  }

  /** Equality up to the order of object members: the meaning canonical text has to preserve. */
  ghost predicate Same(a: Json, b: Json)
    decreases a, 1
  {
    match (a, b)
    case (Arr(xs), Arr(ys)) =>
      |xs| == |ys| && forall i :: 0 <= i < |xs| ==> Same(xs[i], ys[i])
    case (Obj(ms), Obj(ns)) =>
      && (forall i {:trigger Matched(ms[i], ns)} :: 0 <= i < |ms| ==> Matched(ms[i], ns))
      && (forall j {:trigger Matches(ms, ns[j])} :: 0 <= j < |ns| ==> Matches(ms, ns[j]))
    case (Arr(_), _) => false
    case (Obj(_), _) => false
    case _ => a == b
  }

  /** Some member of ns has m's key and the same value. */
  ghost predicate Matched(m: Member<Json>, ns: seq<Member<Json>>)
    decreases m, 2
  {
    exists j :: 0 <= j < |ns| && m.key == ns[j].key && Same(m.value, ns[j].value)
  }

  /** Some member of ms has n's key and the same value. */
  ghost predicate Matches(ms: seq<Member<Json>>, n: Member<Json>)
    decreases ms, 0
  {
    exists i :: 0 <= i < |ms| && ms[i].key == n.key && Same(ms[i].value, n.value)
  }

  // ------------------------------------------------------------ string literals

  function HexDigit(n: int): CodeUnit
    requires 0 <= n < 16
  {
    if n < 10 then 48 + n else 87 + n
  }

  function HexValue(u: CodeUnit): int {
    if u < 58 then u - 48 else u - 87
  }

  /** Four lower-case hex digits. */
  function Hex4(u: CodeUnit): (t: Text)
    ensures |t| == 4
  {
    [HexDigit(u / 16 / 16 / 16), HexDigit(u / 16 / 16 % 16), HexDigit(u / 16 % 16), HexDigit(u % 16)]
  }

  function FromHex4(t: Text): int
    requires |t| == 4
  {
    HexValue(t[0]) * 4096 + HexValue(t[1]) * 256 + HexValue(t[2]) * 16 + HexValue(t[3])
  }

  predicate IsHigh(u: CodeUnit) { 0xD800 <= u <= 0xDBFF }
  predicate IsLow(u: CodeUnit) { 0xDC00 <= u <= 0xDFFF }

  /** One code unit inside a JSON string, when it is not half of a surrogate pair. */
  function EscapeUnit(u: CodeUnit): Text {
    if u == 34 then [92, 34]
    else if u == 92 then [92, 92]
    else if u == 8 then [92, 98]
    else if u == 9 then [92, 116]
    else if u == 10 then [92, 110]
    else if u == 12 then [92, 102]
    else if u == 13 then [92, 114]
    else if u < 32 || IsHigh(u) || IsLow(u) then
      [92, 117] + Hex4(u)
    else [u]
  }

  function Escape(s: Text): Text {
    if s == [] then []
    else if |s| > 1 && IsHigh(s[0]) && IsLow(s[1]) then [s[0], s[1]] + Escape(s[2..])
    else EscapeUnit(s[0]) + Escape(s[1..])
  }

  function Quote(s: Text): Text {
    [34] + Escape(s) + [34]
  }

  // -------------------------------------------------------------- the printer

  /** Stable insertion by key; the printer sorts members with it. */
  function Insert<T>(m: Member<T>, ms: seq<Member<T>>): seq<Member<T>> {
    if ms == [] then [m]
    else if Before(ms[0].key, m.key) then [ms[0]] + Insert(m, ms[1..])
    else [m] + ms
  }

  function SortByKey<T>(ms: seq<Member<T>>): seq<Member<T>> {
    if ms == [] then [] else Insert(ms[0], SortByKey(ms[1..]))
  }

  /** key:value pairs joined by commas. */
  function JoinMembers(ms: seq<Member<Text>>): Text {
    if ms == [] then []
    else Quote(ms[0].key) + [58] + ms[0].value + (if |ms| == 1 then [] else [44] + JoinMembers(ms[1..]))
  }

  function JoinItems(ts: seq<Text>): Text {
    if ts == [] then []
    else ts[0] + (if |ts| == 1 then [] else [44] + JoinItems(ts[1..]))
  }

  /** canonicalJson: members in key order, arrays in their own order, no white space. */
  function Canonical(v: Json): Text
    decreases v, 1
  {
    match v
    case Null => Lit("null")
    case Bool(b) => if b then Lit("true") else Lit("false")
    case Num(d) => d
    case Str(s) => Quote(s)
    case Arr(items) => [91] + JoinItems(CanonicalItems(items)) + [93]
    case Obj(ms) => [123] + JoinMembers(SortByKey(CanonicalMembers(ms))) + [125]
  }

  function CanonicalItems(items: seq<Json>): (ts: seq<Text>)
    ensures |ts| == |items|
    decreases items, 0
  {
    if items == [] then [] else [Canonical(items[0])] + CanonicalItems(items[1..])
  }

  function CanonicalMembers(ms: seq<Member<Json>>): (ts: seq<Member<Text>>)
    ensures |ts| == |ms|
    decreases ms, 0
  {
    if ms == [] then [] else [Member(ms[0].key, Canonical(ms[0].value))] + CanonicalMembers(ms[1..])
  }

  // ------------------------------------------------- reading a string literal

  /** One code unit of a string literal and the text after it; None at the closing quote. */
  function ReadUnit(t: Text): Option<(CodeUnit, Text)> {
    if |t| == 0 || t[0] == 34 then None
    else if t[0] != 92 then Some((t[0], t[1..]))
    else if |t| < 2 then None
    else if t[1] == 117 then
      if |t| < 6 then None
      else Some((FromHex4(t[2..6]) % 0x1_0000, t[6..]))
    else
      var u := if t[1] == 98 then 8 else if t[1] == 116 then 9 else if t[1] == 110 then 10
               else if t[1] == 102 then 12 else if t[1] == 114 then 13 else t[1];
      Some((u, t[2..]))
  }

  function ReadString(t: Text): (Text, Text)
    decreases |t|
  {
    match ReadUnit(t)
    case None => ([], t)
    case Some((u, rest)) => var (s, r) := ReadString(rest); ([u] + s, r)
  }

  lemma DigitReadsBack(n: int)
    requires 0 <= n < 16
    ensures HexValue(HexDigit(n)) == n
  {}

  lemma HexReadsBack(u: CodeUnit)
    ensures FromHex4(Hex4(u)) == u
  {
    hide HexDigit, HexValue;
    DigitReadsBack(u / 16 / 16 / 16);
    DigitReadsBack(u / 16 / 16 % 16);
    DigitReadsBack(u / 16 % 16);
    DigitReadsBack(u % 16);
  }

  lemma HexUnitReads(u: CodeUnit, rest: Text)
    ensures ReadUnit([92, 117] + Hex4(u) + rest) == Some((u, rest))
  {
    hide Hex4, FromHex4;
    HexReadsBack(u);
    var t := [92, 117] + Hex4(u) + rest;
    assert t[2..6] == Hex4(u);
    assert t[6..] == rest;
  }

  lemma ShortUnitReads(u: CodeUnit, second: CodeUnit, rest: Text)
    requires second != 117
    requires u == if second == 98 then 8 else if second == 116 then 9 else if second == 110 then 10
                  else if second == 102 then 12 else if second == 114 then 13 else second
    ensures ReadUnit([92, second] + rest) == Some((u, rest))
  {
    assert ([92, second] + rest)[2..] == rest;
  }

  lemma EscapeUnitReadsBack(u: CodeUnit, rest: Text)
    ensures ReadUnit(EscapeUnit(u) + rest) == Some((u, rest))
  {
    hide ReadUnit, Hex4;
    if |EscapeUnit(u)| == 6 {
      HexUnitReads(u, rest);
    } else if |EscapeUnit(u)| == 2 {
      ShortUnitReads(u, EscapeUnit(u)[1], rest);
    } else {
      PlainUnitReads(u, rest);
    }
  }

  lemma ReadStringStep(t: Text, u: CodeUnit, rest: Text, s: Text, r: Text)
    requires ReadUnit(t) == Some((u, rest)) && ReadString(rest) == (s, r)
    ensures ReadString(t) == ([u] + s, r)
  {}

  lemma PlainUnitReads(u: CodeUnit, rest: Text)
    requires u != 34 && u != 92
    ensures ReadUnit([u] + rest) == Some((u, rest))
  {
    assert ([u] + rest)[1..] == rest;
  }

  lemma {:induction false} EscapeReadsBack(s: Text, rest: Text)
    requires |rest| > 0 && rest[0] == 34
    ensures ReadString(Escape(s) + rest) == (s, rest)
    decreases |s|
  {
    if s == [] {
      assert Escape(s) + rest == rest;
    } else if |s| > 1 && IsHigh(s[0]) && IsLow(s[1]) {
      EscapeReadsBack(s[2..], rest);
      PairReadsBack(s, rest);
    } else {
      EscapeReadsBack(s[1..], rest);
      OneReadsBack(s, rest);
    }
  }

  lemma PlainStep(u: CodeUnit, rest: Text, s: Text, r: Text)
    requires u != 34 && u != 92 && ReadString(rest) == (s, r)
    ensures ReadString([u] + rest) == ([u] + s, r)
  {
    hide ReadString;
    PlainUnitReads(u, rest);
    ReadStringStep([u] + rest, u, rest, s, r);
  }

  lemma PairReadsBack(s: Text, rest: Text)
    requires |s| > 1 && IsHigh(s[0]) && IsLow(s[1])
    requires ReadString(Escape(s[2..]) + rest) == (s[2..], rest)
    ensures ReadString(Escape(s) + rest) == (s, rest)
  {
    assert Escape(s) == [s[0], s[1]] + Escape(s[2..]);
    hide Escape, ReadString, EscapeUnit;
    var tail := Escape(s[2..]) + rest;
    PlainStep(s[1], tail, s[2..], rest);
    PlainStep(s[0], [s[1]] + tail, [s[1]] + s[2..], rest);
    Associates([s[0], s[1]], Escape(s[2..]), rest);
    PairSplits(s[0], s[1], tail);
    PairSplits(s[0], s[1], s[2..]);
    assert [s[0], s[1]] + s[2..] == s;
  }

  lemma PairSplits(a: CodeUnit, b: CodeUnit, t: Text)
    ensures [a, b] + t == [a] + ([b] + t)
  {}

  lemma OneReadsBack(s: Text, rest: Text)
    requires |s| > 0 && !(|s| > 1 && IsHigh(s[0]) && IsLow(s[1]))
    requires ReadString(Escape(s[1..]) + rest) == (s[1..], rest)
    ensures ReadString(Escape(s) + rest) == (s, rest)
  {
    var tail := Escape(s[1..]) + rest;
    Associates(EscapeUnit(s[0]), Escape(s[1..]), rest);
    EscapeUnitReadsBack(s[0], tail);
    ReadStringStep(EscapeUnit(s[0]) + tail, s[0], tail, s[1..], rest);
    assert [s[0]] + s[1..] == s;
  }

  lemma QuoteOpens(s: Text, r: Text)
    ensures Quote(s) + r == [34] + (Escape(s) + ([34] + r))
  {}

  lemma QuoteUnique(s: Text, r: Text, t: Text, q: Text)
    requires Quote(s) + r == Quote(t) + q
    ensures s == t && r == q
  {
    QuoteOpens(s, r);
    QuoteOpens(t, q);
    EscapeReadsBack(s, [34] + r);
    EscapeReadsBack(t, [34] + q);
    SplitEqual([34], Escape(s) + ([34] + r), [34], Escape(t) + ([34] + q));
    SplitEqual([34], r, [34], q);
  }

  // --------------------------------------- printing without sorting is uniquely readable

  /** The printer without the sort: canonical text is this print of the sorted value. */
  function Print(v: Json): Text
    decreases v, 1
  {
    match v
    case Null => Lit("null")
    case Bool(b) => if b then Lit("true") else Lit("false")
    case Num(d) => d
    case Str(s) => Quote(s)
    case Arr(items) => [91] + PrintItems(items) + [93]
    case Obj(ms) => [123] + PrintMembers(ms) + [125]
  }

  function PrintItems(items: seq<Json>): Text
    decreases items, 0
  {
    if items == [] then []
    else Print(items[0]) + (if |items| == 1 then [] else [44] + PrintItems(items[1..]))
  }

  function PrintMembers(ms: seq<Member<Json>>): Text
    decreases ms, 0
  {
    if ms == [] then []
    else Quote(ms[0].key) + [58] + Print(ms[0].value) + (if |ms| == 1 then [] else [44] + PrintMembers(ms[1..]))
  }

  /** What may follow a value inside canonical text: nothing, a comma or a closing bracket. */
  predicate EndsValue(r: Text) {
    r == [] || r[0] == 44 || r[0] == 93 || r[0] == 125
  }

  /** The first code unit of a printed value tells its kind. */
  lemma FirstUnit(v: Json)
    ensures |Print(v)| > 0
    ensures v.Null? <==> Print(v)[0] == 110
    ensures v == Bool(true) <==> Print(v)[0] == 116
    ensures v == Bool(false) <==> Print(v)[0] == 102
    ensures v.Num? <==> (IsDigit(Print(v)[0]) || Print(v)[0] == 45)
    ensures v.Str? <==> Print(v)[0] == 34
    ensures v.Arr? <==> Print(v)[0] == 91
    ensures v.Obj? <==> Print(v)[0] == 123
  {}

  lemma SameKind(a: Json, r: Text, b: Json, q: Text)
    requires Print(a) + r == Print(b) + q
    ensures a.Null? == b.Null? && a.Bool? == b.Bool? && (a.Bool? ==> a == b) && a.Num? == b.Num?
    ensures a.Str? == b.Str? && a.Arr? == b.Arr? && a.Obj? == b.Obj?
  {
    FirstUnit(a);
    FirstUnit(b);
    assert Print(a)[0] == (Print(a) + r)[0] == (Print(b) + q)[0] == Print(b)[0];
  }

  lemma NumberNotLonger(d: NumberText, r: Text, e: NumberText, q: Text)
    requires d + r == e + q && EndsValue(r)
    ensures |e| <= |d|
  {
    var t := d + r;
    assert |d| < |t| ==> t[|d|] == r[0];
    assert forall i :: 0 <= i < |e| ==> t[i] == e[i] && IsNumberUnit(e[i]);
  }

  lemma NumberUnique(d: NumberText, r: Text, e: NumberText, q: Text)
    requires d + r == e + q && EndsValue(r) && EndsValue(q)
    ensures d == e && r == q
  {
    NumberNotLonger(d, r, e, q);
    NumberNotLonger(e, q, d, r);
    SplitEqual(d, r, e, q);
  }

  /** Unique readability: equal texts were printed from equal values, and what follows is equal too. */
  lemma {:induction false} PrintUnique(a: Json, r: Text, b: Json, q: Text)
    requires Print(a) + r == Print(b) + q && EndsValue(r) && EndsValue(q)
    ensures a == b && r == q
    decreases a, 2
  {
    SameKind(a, r, b, q);
    match a
    case Null => SplitEqual(Print(a), r, Print(b), q);
    case Bool(_) => SplitEqual(Print(a), r, Print(b), q);
    case Num(d) => NumberUnique(d, r, b.digits, q);
    case Str(s) => QuoteUnique(s, r, b.text, q);
    case Arr(xs) => ArrUnique(a, r, b, q);
    case Obj(ms) => ObjUnique(a, r, b, q);
  }

  lemma {:induction false} ArrUnique(a: Json, r: Text, b: Json, q: Text)
    requires a.Arr? && b.Arr?
    requires Print(a) + r == Print(b) + q && EndsValue(r) && EndsValue(q)
    ensures a == b && r == q
    decreases a, 1
  {
    Bracketed(91, PrintItems(a.items), 93, r);
    Bracketed(91, PrintItems(b.items), 93, q);
    SplitEqual([91], PrintItems(a.items) + ([93] + r), [91], PrintItems(b.items) + ([93] + q));
    ItemsUnique(a.items, r, b.items, q);
  }

  lemma {:induction false} ObjUnique(a: Json, r: Text, b: Json, q: Text)
    requires a.Obj? && b.Obj?
    requires Print(a) + r == Print(b) + q && EndsValue(r) && EndsValue(q)
    ensures a == b && r == q
    decreases a, 1
  {
    Bracketed(123, PrintMembers(a.members), 125, r);
    Bracketed(123, PrintMembers(b.members), 125, q);
    SplitEqual([123], PrintMembers(a.members) + ([125] + r), [123], PrintMembers(b.members) + ([125] + q));
    MembersUnique(a.members, r, b.members, q);
  }

  lemma Bracketed(open: CodeUnit, inner: Text, close: CodeUnit, r: Text)
    ensures [open] + inner + [close] + r == [open] + (inner + ([close] + r))
  {}

  /** What PrintItems puts after the first item. */
  function ItemsTail(xs: seq<Json>, r: Text): Text
    requires |xs| > 0
  {
    if |xs| == 1 then [93] + r else [44] + (PrintItems(xs[1..]) + ([93] + r))
  }

  lemma ItemsCons(xs: seq<Json>, r: Text)
    requires |xs| > 0
    ensures PrintItems(xs) + ([93] + r) == Print(xs[0]) + ItemsTail(xs, r)
    ensures EndsValue(ItemsTail(xs, r))
  {}

  /** The closing bracket comes first exactly when there are no items. */
  lemma ItemsFirst(xs: seq<Json>, r: Text)
    ensures (PrintItems(xs) + ([93] + r))[0] == 93 <==> xs == []
  {
    if xs != [] {
      FirstUnit(xs[0]);
      ItemsCons(xs, r);
    }
  }

  lemma {:induction false} ItemsUnique(xs: seq<Json>, r: Text, ys: seq<Json>, q: Text)
    requires PrintItems(xs) + ([93] + r) == PrintItems(ys) + ([93] + q)
    ensures xs == ys && r == q
    decreases xs, 0
  {
    ItemsFirst(xs, r);
    ItemsFirst(ys, q);
    if xs != [] {
      ItemsCons(xs, r);
      ItemsCons(ys, q);
      PrintUnique(xs[0], ItemsTail(xs, r), ys[0], ItemsTail(ys, q));
      var t := ItemsTail(xs, r);
      assert t[0] == 93 <==> |xs| == 1;
      assert t[0] == 93 <==> |ys| == 1;
      if |xs| > 1 {
        SplitEqual([44], PrintItems(xs[1..]) + ([93] + r), [44], PrintItems(ys[1..]) + ([93] + q));
        ItemsUnique(xs[1..], r, ys[1..], q);
        assert xs == [xs[0]] + xs[1..] && ys == [ys[0]] + ys[1..];
      } else {
        SplitEqual([93], r, [93], q);
      }
    } else {
      SplitEqual(PrintItems(xs), [93] + r, PrintItems(ys), [93] + q);
      SplitEqual([93], r, [93], q);
    }
  }

  function MembersTail(ms: seq<Member<Json>>, r: Text): Text
    requires |ms| > 0
  {
    if |ms| == 1 then [125] + r else [44] + (PrintMembers(ms[1..]) + ([125] + r))
  }

  lemma MembersCons(ms: seq<Member<Json>>, r: Text)
    requires |ms| > 0
    ensures PrintMembers(ms) + ([125] + r) == Quote(ms[0].key) + ([58] + (Print(ms[0].value) + MembersTail(ms, r)))
    ensures EndsValue(MembersTail(ms, r))
  {
    var k, v, rest := Quote(ms[0].key), Print(ms[0].value), if |ms| == 1 then [] else [44] + PrintMembers(ms[1..]);
    assert rest + ([125] + r) == MembersTail(ms, r);
    Associates(k + [58] + v, rest, [125] + r);
    Associates(k + [58], v, MembersTail(ms, r));
    Associates(k, [58], v + MembersTail(ms, r));
  }

  lemma MembersFirst(ms: seq<Member<Json>>, r: Text)
    ensures (PrintMembers(ms) + ([125] + r))[0] == 125 <==> ms == []
  {
    if ms != [] {
      MembersCons(ms, r);
    }
  }

  lemma {:induction false} MembersUnique(ms: seq<Member<Json>>, r: Text, ns: seq<Member<Json>>, q: Text)
    requires PrintMembers(ms) + ([125] + r) == PrintMembers(ns) + ([125] + q)
    ensures ms == ns && r == q
    decreases ms, 0
  {
    MembersFirst(ms, r);
    MembersFirst(ns, q);
    if ms != [] {
      HeadMemberUnique(ms, r, ns, q);
      PrintUnique(ms[0].value, MembersTail(ms, r), ns[0].value, MembersTail(ns, q));
      var t := MembersTail(ms, r);
      assert t[0] == 125 <==> |ms| == 1;
      assert t[0] == 125 <==> |ns| == 1;
      if |ms| > 1 {
        SplitEqual([44], PrintMembers(ms[1..]) + ([125] + r), [44], PrintMembers(ns[1..]) + ([125] + q));
        MembersUnique(ms[1..], r, ns[1..], q);
        assert ms == [ms[0]] + ms[1..] && ns == [ns[0]] + ns[1..];
      } else {
        SplitEqual([125], r, [125], q);
      }
    } else {
      SplitEqual(PrintMembers(ms), [125] + r, PrintMembers(ns), [125] + q);
      SplitEqual([125], r, [125], q);
    }
  }

  lemma HeadMemberUnique(ms: seq<Member<Json>>, r: Text, ns: seq<Member<Json>>, q: Text)
    requires |ms| > 0 && |ns| > 0
    requires PrintMembers(ms) + ([125] + r) == PrintMembers(ns) + ([125] + q)
    ensures ms[0].key == ns[0].key
    ensures Print(ms[0].value) + MembersTail(ms, r) == Print(ns[0].value) + MembersTail(ns, q)
    ensures EndsValue(MembersTail(ms, r)) && EndsValue(MembersTail(ns, q))
  {
    MembersCons(ms, r);
    MembersCons(ns, q);
    var x, y := Print(ms[0].value) + MembersTail(ms, r), Print(ns[0].value) + MembersTail(ns, q);
    QuoteUnique(ms[0].key, [58] + x, ns[0].key, [58] + y);
    SplitEqual([58], x, [58], y);
  }

  // ------------------------------------------------------------------- sorting

  predicate StrictlySorted<T>(ms: seq<Member<T>>) {
    forall i, j :: 0 <= i < j < |ms| ==> Before(ms[i].key, ms[j].key)
  }

  lemma {:induction false} InsertKeeps<T>(m: Member<T>, ms: seq<Member<T>>)
    requires StrictlySorted(ms) && forall i :: 0 <= i < |ms| ==> ms[i].key != m.key
    ensures StrictlySorted(Insert(m, ms)) && |Insert(m, ms)| == |ms| + 1
    ensures multiset(Insert(m, ms)) == multiset{m} + multiset(ms)
  {
    if ms == [] {
    } else if Before(ms[0].key, m.key) {
      InsertKeeps(m, ms[1..]);
      assert ms == [ms[0]] + ms[1..];
      var rest := Insert(m, ms[1..]);
      forall j | 0 <= j < |rest| ensures Before(ms[0].key, rest[j].key) {
        assert rest[j] in multiset(rest);
        if rest[j] != m {
          var k := PositionInTail(rest[j], ms);
        }
      }
    } else {
      BeforeTotal(ms[0].key, m.key);
      forall j | 0 <= j < |ms| ensures Before(m.key, ms[j].key) {
        if j > 0 { BeforeTransitive(m.key, ms[0].key, ms[j].key); }
      }
    }
  }

  lemma {:induction false} SortKeeps<T>(ms: seq<Member<T>>)
    requires DistinctKeys(ms)
    ensures StrictlySorted(SortByKey(ms)) && |SortByKey(ms)| == |ms|
    ensures multiset(SortByKey(ms)) == multiset(ms)
  {
    if ms != [] {
      SortKeeps(ms[1..]);
      assert ms == [ms[0]] + ms[1..];
      var rest := SortByKey(ms[1..]);
      forall i | 0 <= i < |rest| ensures rest[i].key != ms[0].key {
        assert rest[i] in multiset(rest);
        var k := PositionInTail(rest[i], ms);
      }
      InsertKeeps(ms[0], rest);
    }
  }

  /** Strictly sorted member lists with the same members are the same list. */
  lemma {:induction false} SortedUnique<T>(xs: seq<Member<T>>, ys: seq<Member<T>>)
    requires StrictlySorted(xs) && StrictlySorted(ys)
    requires forall i :: 0 <= i < |xs| ==> xs[i] in ys
    requires forall i :: 0 <= i < |ys| ==> ys[i] in xs
    ensures xs == ys
  {
    if xs != [] { assert xs[0] in ys; }
    if ys != [] { assert ys[0] in xs; }
    if xs != [] && ys != [] {
      HeadsAgree(xs, ys);
      TailsCover(xs, ys);
      TailsCover(ys, xs);
      TailSorted(xs);
      TailSorted(ys);
      hide StrictlySorted;
      SortedUnique(xs[1..], ys[1..]);
      assert xs == [xs[0]] + xs[1..] && ys == [ys[0]] + ys[1..];
    }
  }

  lemma TailSorted<T>(xs: seq<Member<T>>)
    requires StrictlySorted(xs) && |xs| > 0
    ensures StrictlySorted(xs[1..])
  {}

  lemma HeadsAgree<T>(xs: seq<Member<T>>, ys: seq<Member<T>>)
    requires StrictlySorted(xs) && StrictlySorted(ys) && |xs| > 0 && |ys| > 0
    requires xs[0] in ys && ys[0] in xs
    ensures xs[0] == ys[0]
  {
    if xs[0] != ys[0] {
      var j :| 0 <= j < |ys| && ys[j] == xs[0];
      var i :| 0 <= i < |xs| && xs[i] == ys[0];
      BeforeAsymmetric(ys[0].key, ys[j].key);
    }
  }

  lemma TailsCover<T>(xs: seq<Member<T>>, ys: seq<Member<T>>)
    requires StrictlySorted(xs) && |xs| > 0 && |ys| > 0 && xs[0] == ys[0]
    requires forall i :: 0 <= i < |xs| ==> xs[i] in ys
    ensures forall i :: 0 <= i < |xs[1..]| ==> xs[1..][i] in ys[1..]
  {
    forall i | 0 <= i < |xs[1..]| ensures xs[1..][i] in ys[1..] {
      BeforeAsymmetric(xs[0].key, xs[i + 1].key);
      var j :| 0 <= j < |ys| && ys[j] == xs[i + 1];
      assert ys[1..][j - 1] == xs[i + 1];
    }
  }

  // ------------------------------------------- canonical text = print of the sorted value

  /** The value with every object's members sorted by key. */
  function Sorted(v: Json): Json
    decreases v, 1
  {
    match v
    case Arr(items) => Arr(SortedItems(items))
    case Obj(ms) => Obj(SortByKey(SortedMembers(ms)))
    case _ => v
  }

  function SortedItems(items: seq<Json>): (r: seq<Json>)
    ensures |r| == |items|
    ensures forall i :: 0 <= i < |items| ==> r[i] == Sorted(items[i])
    decreases items, 0
  {
    if items == [] then [] else [Sorted(items[0])] + SortedItems(items[1..])
  }

  function SortedMembers(ms: seq<Member<Json>>): (r: seq<Member<Json>>)
    ensures |r| == |ms|
    ensures forall i :: 0 <= i < |ms| ==> r[i] == Member(ms[i].key, Sorted(ms[i].value))
    decreases ms, 0
  {
    if ms == [] then [] else [Member(ms[0].key, Sorted(ms[0].value))] + SortedMembers(ms[1..])
  }

  function PrintEach(ms: seq<Member<Json>>): seq<Member<Text>> {
    if ms == [] then [] else [Member(ms[0].key, Print(ms[0].value))] + PrintEach(ms[1..])
  }

  lemma {:induction false} InsertPrints(m: Member<Json>, ms: seq<Member<Json>>)
    ensures PrintEach(Insert(m, ms)) == Insert(Member(m.key, Print(m.value)), PrintEach(ms))
  {
    if ms != [] && Before(ms[0].key, m.key) {
      InsertPrints(m, ms[1..]);
      assert Insert(m, ms)[1..] == Insert(m, ms[1..]);
      assert PrintEach(ms)[1..] == PrintEach(ms[1..]);
    } else if ms != [] {
      assert ([m] + ms)[1..] == ms;
    } else {
      assert [m][1..] == [];
    }
  }

  lemma {:induction false} SortPrints(ms: seq<Member<Json>>)
    ensures PrintEach(SortByKey(ms)) == SortByKey(PrintEach(ms))
  {
    if ms != [] {
      SortPrints(ms[1..]);
      InsertPrints(ms[0], SortByKey(ms[1..]));
      assert PrintEach(ms)[1..] == PrintEach(ms[1..]);
    }
  }

  lemma {:induction false} JoinPrints(ms: seq<Member<Json>>)
    ensures JoinMembers(PrintEach(ms)) == PrintMembers(ms)
    ensures |PrintEach(ms)| == |ms|
  {
    if ms != [] {
      JoinPrints(ms[1..]);
      assert PrintEach(ms)[1..] == PrintEach(ms[1..]);
    }
  }

  lemma {:induction false} CanonicalIsPrint(v: Json)
    ensures Canonical(v) == Print(Sorted(v))
    decreases v, 1
  {
    match v
    case Arr(items) => CanonicalItemsPrint(items);
    case Obj(ms) =>
      CanonicalMembersPrint(ms);
      SortPrints(SortedMembers(ms));
      JoinPrints(SortByKey(SortedMembers(ms)));
    case _ =>
  }

  lemma {:induction false} CanonicalItemsPrint(items: seq<Json>)
    ensures JoinItems(CanonicalItems(items)) == PrintItems(SortedItems(items))
    decreases items, 0
  {
    if items != [] {
      CanonicalIsPrint(items[0]);
      CanonicalItemsPrint(items[1..]);
      assert CanonicalItems(items)[1..] == CanonicalItems(items[1..]);
      assert SortedItems(items)[1..] == SortedItems(items[1..]);
    }
  }

  lemma {:induction false} CanonicalMembersPrint(ms: seq<Member<Json>>)
    ensures CanonicalMembers(ms) == PrintEach(SortedMembers(ms))
    decreases ms, 0
  {
    if ms != [] {
      CanonicalIsPrint(ms[0].value);
      CanonicalMembersPrint(ms[1..]);
      assert SortedMembers(ms)[1..] == SortedMembers(ms[1..]);
    }
  }

  // ------------------------------------------------------- sorted values decide Same

  lemma {:induction false} SameIffSortedEqual(a: Json, b: Json)
    requires WellFormed(a) && WellFormed(b)
    ensures Same(a, b) <==> Sorted(a) == Sorted(b)
    decreases a
  {
    match (a, b)
    case (Arr(xs), Arr(ys)) =>
      forall i | 0 <= i < |xs| && i < |ys| ensures Same(xs[i], ys[i]) <==> Sorted(xs[i]) == Sorted(ys[i]) {
        SameIffSortedEqual(xs[i], ys[i]);
      }
      if |xs| == |ys| && Same(a, b) {
        assert SortedItems(xs) == SortedItems(ys);
      }
      if Sorted(a) == Sorted(b) {
        forall i | 0 <= i < |xs| ensures Same(xs[i], ys[i]) {
          assert SortedItems(xs)[i] == SortedItems(ys)[i];
        }
      }
    case (Obj(ms), Obj(ns)) =>
      forall i, j | 0 <= i < |ms| && 0 <= j < |ns|
        ensures Same(ms[i].value, ns[j].value) <==> Sorted(ms[i].value) == Sorted(ns[j].value)
      {
        SameIffSortedEqual(ms[i].value, ns[j].value);
      }
      SameMembersIffSortedEqual(ms, ns);
    case _ =>
  }

  lemma SameMembersIffSortedEqual(ms: seq<Member<Json>>, ns: seq<Member<Json>>)
    requires DistinctKeys(ms) && DistinctKeys(ns)
    requires forall i, j :: 0 <= i < |ms| && 0 <= j < |ns| ==>
      (Same(ms[i].value, ns[j].value) <==> Sorted(ms[i].value) == Sorted(ns[j].value))
    ensures Same(Obj(ms), Obj(ns)) <==> SortByKey(SortedMembers(ms)) == SortByKey(SortedMembers(ns))
  {
    var sm, sn := SortedMembers(ms), SortedMembers(ns);
    SortKeeps(sm);
    SortKeeps(sn);
    if SortByKey(sm) == SortByKey(sn) {
      SubsetOfSorts(sm, sn);
      SubsetOfSorts(sn, sm);
      SameFromSubsets(ms, ns);
    }
    if Same(Obj(ms), Obj(ns)) {
      SubsetsFromSame(ms, ns);
      SortsOfSubset(sm, sn);
      SortsOfSubset(sn, sm);
      SortedUnique(SortByKey(sm), SortByKey(sn));
    }
  }

  lemma SubsetOfSorts<T>(xs: seq<Member<T>>, ys: seq<Member<T>>)
    requires multiset(SortByKey(xs)) == multiset(xs) && multiset(SortByKey(ys)) == multiset(ys)
    requires SortByKey(xs) == SortByKey(ys)
    ensures forall i :: 0 <= i < |xs| ==> xs[i] in ys
  {
    forall i | 0 <= i < |xs| ensures xs[i] in ys {
      assert xs[i] in multiset(ys);
    }
  }

  lemma SortsOfSubset<T>(xs: seq<Member<T>>, ys: seq<Member<T>>)
    requires multiset(SortByKey(xs)) == multiset(xs) && multiset(SortByKey(ys)) == multiset(ys)
    requires forall i :: 0 <= i < |xs| ==> xs[i] in ys
    ensures forall i :: 0 <= i < |SortByKey(xs)| ==> SortByKey(xs)[i] in SortByKey(ys)
  {
    var u := SortByKey(xs);
    forall i | 0 <= i < |u| ensures u[i] in SortByKey(ys) {
      assert u[i] in multiset(xs);
      assert u[i] in multiset(SortByKey(ys));
    }
  }

  lemma MatchedFromSorted(ms: seq<Member<Json>>, i: nat, ns: seq<Member<Json>>)
    requires i < |ms| && SortedMembers(ms)[i] in SortedMembers(ns)
    requires forall j :: 0 <= j < |ns| && Sorted(ms[i].value) == Sorted(ns[j].value) ==> Same(ms[i].value, ns[j].value)
    ensures Matched(ms[i], ns)
  {
    var j :| 0 <= j < |ns| && SortedMembers(ns)[j] == SortedMembers(ms)[i];
    assert ms[i].key == ns[j].key && Same(ms[i].value, ns[j].value);
  }

  lemma MatchesFromSorted(ms: seq<Member<Json>>, ns: seq<Member<Json>>, j: nat)
    requires j < |ns| && SortedMembers(ns)[j] in SortedMembers(ms)
    requires forall i :: 0 <= i < |ms| && Sorted(ms[i].value) == Sorted(ns[j].value) ==> Same(ms[i].value, ns[j].value)
    ensures Matches(ms, ns[j])
  {
    var i :| 0 <= i < |ms| && SortedMembers(ms)[i] == SortedMembers(ns)[j];
    assert ms[i].key == ns[j].key && Same(ms[i].value, ns[j].value);
  }

  lemma SameFromSubsets(ms: seq<Member<Json>>, ns: seq<Member<Json>>)
    requires forall i, j :: 0 <= i < |ms| && 0 <= j < |ns| ==>
      (Same(ms[i].value, ns[j].value) <==> Sorted(ms[i].value) == Sorted(ns[j].value))
    requires forall i :: 0 <= i < |ms| ==> SortedMembers(ms)[i] in SortedMembers(ns)
    requires forall j :: 0 <= j < |ns| ==> SortedMembers(ns)[j] in SortedMembers(ms)
    ensures Same(Obj(ms), Obj(ns))
  {
    forall i | 0 <= i < |ms| ensures Matched(ms[i], ns) { MatchedFromSorted(ms, i, ns); }
    forall j | 0 <= j < |ns| ensures Matches(ms, ns[j]) { MatchesFromSorted(ms, ns, j); }
  }

  lemma SubsetsFromSame(ms: seq<Member<Json>>, ns: seq<Member<Json>>)
    requires forall i, j :: 0 <= i < |ms| && 0 <= j < |ns| ==>
      (Same(ms[i].value, ns[j].value) <==> Sorted(ms[i].value) == Sorted(ns[j].value))
    requires Same(Obj(ms), Obj(ns))
    ensures forall i :: 0 <= i < |ms| ==> SortedMembers(ms)[i] in SortedMembers(ns)
    ensures forall j :: 0 <= j < |ns| ==> SortedMembers(ns)[j] in SortedMembers(ms)
  {
    var sm, sn := SortedMembers(ms), SortedMembers(ns);
    forall i | 0 <= i < |ms| ensures sm[i] in sn {
      assert Matched(ms[i], ns);
      var j :| 0 <= j < |ns| && ms[i].key == ns[j].key && Same(ms[i].value, ns[j].value);
      assert sn[j] == sm[i];
    }
    forall j | 0 <= j < |ns| ensures sn[j] in sm {
      assert Matches(ms, ns[j]);
      var i :| 0 <= i < |ms| && ms[i].key == ns[j].key && Same(ms[i].value, ns[j].value);
      assert sm[i] == sn[j];
    }
  }

  // --------------------------------------------------------------- main results

  /** Canonical text is faithful: equal texts exactly for values equal up to member order. */
  lemma CanonicalFaithful(a: Json, b: Json)
    requires WellFormed(a) && WellFormed(b)
    ensures Canonical(a) == Canonical(b) <==> Same(a, b)
  {
    CanonicalIsPrint(a);
    CanonicalIsPrint(b);
    SameIffSortedEqual(a, b);
    if Canonical(a) == Canonical(b) {
      assert Print(Sorted(a)) + [] == Print(Sorted(b)) + [];
      PrintUnique(Sorted(a), [], Sorted(b), []);
    }
  }

  /** No canonical text is a proper prefix of another followed by a delimiter. */
  lemma CanonicalUnambiguous(a: Json, r: Text, b: Json, q: Text)
    requires WellFormed(a) && WellFormed(b)
    requires Canonical(a) + r == Canonical(b) + q && EndsValue(r) && EndsValue(q)
    ensures Same(a, b) && r == q
  {
    CanonicalIsPrint(a);
    CanonicalIsPrint(b);
    SameIffSortedEqual(a, b);
    PrintUnique(Sorted(a), r, Sorted(b), q);
  }

  // ------------------------------------------------------------- member lookup

  function Lookup(ms: seq<Member<Json>>, key: Text): Option<Json> {
    if ms == [] then None
    else if ms[0].key == key then Some(ms[0].value)
    else Lookup(ms[1..], key)
  }

  /** Property access on a parsed value. */
  function Field(v: Json, key: Text): Option<Json> {
    if v.Obj? then Lookup(v.members, key) else None
  }

  /** Property access that only accepts a string. */
  function TextField(v: Json, key: Text): Option<Text> {
    match Field(v, key)
    case Some(Str(t)) => Some(t)
    case _ => None
  }

  lemma {:induction false} LookupAt(ms: seq<Member<Json>>, key: Text)
    ensures Lookup(ms, key).Some? ==> exists i :: 0 <= i < |ms| && ms[i] == Member(key, Lookup(ms, key).value)
    ensures Lookup(ms, key).None? ==> forall i :: 0 <= i < |ms| ==> ms[i].key != key
  {
    if ms != [] && ms[0].key != key {
      LookupAt(ms[1..], key);
      if Lookup(ms, key).Some? {
        var j :| 0 <= j < |ms[1..]| && ms[1..][j] == Member(key, Lookup(ms, key).value);
        assert ms[j + 1] == Member(key, Lookup(ms, key).value);
      } else {
        assert forall i :: 0 < i < |ms| ==> ms[i] == ms[1..][i - 1];
      }
    } else if ms != [] {
      assert ms[0] == Member(key, Lookup(ms, key).value);
    }
  }

  lemma {:induction false} LookupAppended(ms: seq<Member<Json>>, m: Member<Json>, key: Text)
    ensures Lookup(ms + [m], key) ==
      if Lookup(ms, key).Some? then Lookup(ms, key) else if m.key == key then Some(m.value) else None
  {
    if ms != [] {
      assert (ms + [m])[1..] == ms[1..] + [m];
      LookupAppended(ms[1..], m, key);
    } else {
      assert [m][1..] == [];
    }
  }

  lemma {:induction false} LookupUnique(ms: seq<Member<Json>>, i: nat)
    requires DistinctKeys(ms) && i < |ms|
    ensures Lookup(ms, ms[i].key) == Some(ms[i].value)
  {
    if i > 0 {
      assert ms[1..][i - 1] == ms[i];
      LookupUnique(ms[1..], i - 1);
    }
  }

  /** Equality up to member order is seen by every property access. */
  lemma FieldsAgree(v: Json, w: Json, key: Text)
    requires v.Obj? && w.Obj? && DistinctKeys(v.members) && DistinctKeys(w.members) && Same(v, w)
    ensures Field(v, key).Some? <==> Field(w, key).Some?
    ensures Field(v, key).Some? ==> Same(Field(v, key).value, Field(w, key).value)
  {
    var ms, ns := v.members, w.members;
    LookupAt(ms, key);
    LookupAt(ns, key);
    if Lookup(ms, key).Some? {
      var i :| 0 <= i < |ms| && ms[i] == Member(key, Lookup(ms, key).value);
      assert Matched(ms[i], ns);
      var j :| 0 <= j < |ns| && ms[i].key == ns[j].key && Same(ms[i].value, ns[j].value);
      LookupUnique(ns, j);
    }
    if Lookup(ns, key).Some? {
      var j :| 0 <= j < |ns| && ns[j] == Member(key, Lookup(ns, key).value);
      assert Matches(ms, ns[j]);
      var i :| 0 <= i < |ms| && ms[i].key == ns[j].key && Same(ms[i].value, ns[j].value);
      LookupUnique(ms, i);
    }
  }

  // ---------------------------------------------------------------- length bounds

  lemma {:induction false} EscapeBound(s: Text)
    ensures |Escape(s)| <= 6 * |s|
    decreases |s|
  {
    if s == [] {
    } else if |s| > 1 && IsHigh(s[0]) && IsLow(s[1]) {
      EscapeBound(s[2..]);
    } else {
      EscapeBound(s[1..]);
    }
  }

  /** An upper bound on the printed members, whatever their order. */
  function Weight(ms: seq<Member<Text>>): nat {
    if ms == [] then 0 else 6 * |ms[0].key| + |ms[0].value| + 4 + Weight(ms[1..])
  }

  lemma {:induction false} InsertWeight(m: Member<Text>, ms: seq<Member<Text>>)
    ensures Weight(Insert(m, ms)) == 6 * |m.key| + |m.value| + 4 + Weight(ms)
  {
    hide Before;
    if ms != [] {
      InsertWeight(m, ms[1..]);
      assert ([ms[0]] + Insert(m, ms[1..]))[1..] == Insert(m, ms[1..]);
      assert ([m] + ms)[1..] == ms;
    }
  }

  lemma {:induction false} SortWeight(ms: seq<Member<Text>>)
    ensures Weight(SortByKey(ms)) == Weight(ms)
  {
    hide Insert;
    if ms != [] {
      SortWeight(ms[1..]);
      InsertWeight(ms[0], SortByKey(ms[1..]));
    }
  }

  lemma {:induction false} JoinWeight(ms: seq<Member<Text>>)
    ensures |JoinMembers(ms)| <= Weight(ms)
  {
    hide Escape;
    if ms != [] {
      EscapeBound(ms[0].key);
      JoinWeight(ms[1..]);
    }
  }

  lemma ObjectBound(ms: seq<Member<Json>>)
    ensures |Canonical(Obj(ms))| <= 2 + Weight(CanonicalMembers(ms))
  {
    hide JoinMembers, Weight, SortByKey;
    SortWeight(CanonicalMembers(ms));
    JoinWeight(SortByKey(CanonicalMembers(ms)));
  }
}
