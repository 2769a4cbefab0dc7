/** The exact text of canonical JSON: which escapes strings get (ECMA-262, section 25.5.2.3), and the order of keys. */
module CanonicalText {
  import opened Options
  import opened Texts
  import opened CanonicalJson

  // --------------------------------------------------------------------- strings

  const HEX := "0123456789abcdef"

  /** h is u in four lower-case hex digits. */
  ghost predicate IsHexOf(h: Text, u: int) {
    exists a, b, c, d :: HexDigits(h, a, b, c, d) && u == ((a * 16 + b) * 16 + c) * 16 + d
  }

  predicate HexDigits(h: Text, a: int, b: int, c: int, d: int) {
    && 0 <= a < 16 && 0 <= b < 16 && 0 <= c < 16 && 0 <= d < 16
    && h == [Lit(HEX)[a], Lit(HEX)[b], Lit(HEX)[c], Lit(HEX)[d]]
  }

  /** The text a unit has inside quotes, when it is not half of a pair. */
  ghost predicate IsEscapeOf(u: CodeUnit, t: Text) {
    if u == '\"' as int then t == Lit("\\\"")
    else if u == '\\' as int then t == Lit("\\\\")
    else if u == 0x08 then t == Lit("\\b")
    else if u == 0x09 then t == Lit("\\t")
    else if u == 0x0a then t == Lit("\\n")
    else if u == 0x0c then t == Lit("\\f")
    else if u == 0x0d then t == Lit("\\r")
    else if u <= 0x1f || 0xd800 <= u <= 0xdfff then exists h :: t == Lit("\\u") + h && IsHexOf(h, u)
    else t == [u]
  }

  lemma HexDigitIs(n: int)
    requires 0 <= n < 16
    ensures HexDigit(n) == Lit(HEX)[n]
  {
    assert HEX[n] as int == if n < 10 then 48 + n else 87 + n;
  }

  lemma HexIs(u: CodeUnit)
    ensures IsHexOf(Hex4(u), u)
  {
    var a, b, c, d := u / 16 / 16 / 16, u / 16 / 16 % 16, u / 16 % 16, u % 16;
    HexDigitIs(a);
    HexDigitIs(b);
    HexDigitIs(c);
    HexDigitIs(d);
    hide Lit, HexDigit;
    assert HexDigits(Hex4(u), a, b, c, d);
  }

  lemma EscapeIs(u: CodeUnit)
    ensures IsEscapeOf(u, EscapeUnit(u))
  {
    HexIs(u);
    Backslashes();
    hide IsHexOf, Hex4, Lit;
    if EscapeUnit(u) == [92, 117] + Hex4(u) { assert EscapeUnit(u) == Lit("\\u") + Hex4(u); }
  }

  lemma Backslashes()
    ensures Lit("\\\"") == [92, 34] && Lit("\\\\") == [92, 92] && Lit("\\b") == [92, 98] && Lit("\\t") == [92, 116]
    ensures Lit("\\n") == [92, 110] && Lit("\\f") == [92, 102] && Lit("\\r") == [92, 114] && Lit("\\u") == [92, 117]
  {}

  /** A string is quoted unit by unit; only the two halves of a surrogate pair stand as they are. */
  ghost predicate IsEscaped(s: Text, t: Text)
    decreases |s|
  {
    if s == [] then t == []
    else if |s| > 1 && 0xd800 <= s[0] <= 0xdbff && 0xdc00 <= s[1] <= 0xdfff then
      |t| >= 2 && t[..2] == s[..2] && IsEscaped(s[2..], t[2..])
    else exists n :: 0 <= n <= |t| && IsEscapeOf(s[0], t[..n]) && IsEscaped(s[1..], t[n..])
  }

  lemma {:induction false} EscapeIsEscaped(s: Text)
    ensures IsEscaped(s, Escape(s))
    decreases |s|
  {
    hide IsEscapeOf, EscapeUnit;
    if s != [] {
      if |s| > 1 && IsHigh(s[0]) && IsLow(s[1]) {
        EscapeIsEscaped(s[2..]);
        var t := [s[0], s[1]] + Escape(s[2..]);
        assert t[..2] == s[..2] && t[2..] == Escape(s[2..]);
      } else {
        EscapeIs(s[0]);
        EscapeIsEscaped(s[1..]);
        var first := EscapeUnit(s[0]);
        var t := first + Escape(s[1..]);
        assert t[..|first|] == first && t[|first|..] == Escape(s[1..]);
      }
    }
  }

  lemma QuoteIs(s: Text)
    ensures exists t :: Quote(s) == Lit("\"") + t + Lit("\"") && IsEscaped(s, t)
  {
    assert Lit("\"") == [34];
    EscapeIsEscaped(s);
    hide IsEscaped, Escape;
    assert Quote(s) == Lit("\"") + Escape(s) + Lit("\"");
  }

  // --------------------------------------------------------------------- order of keys

  /** a comes before b: at the first unit where they part it has the smaller one, or it ends there. */
  ghost predicate IsBefore(a: Text, b: Text) {
    exists k :: PartAt(a, b, k)
  }

  predicate PartAt(a: Text, b: Text, k: int) {
    0 <= k < |b| && k <= |a| && a[..k] == b[..k] && (k < |a| ==> a[k] < b[k])
  }

  lemma {:induction false} BeforeIs(a: Text, b: Text)
    ensures Before(a, b) <==> IsBefore(a, b)
  {
    if |a| > 0 && |b| > 0 && a[0] == b[0] {
      BeforeIs(a[1..], b[1..]);
      if k :| PartAt(a[1..], b[1..], k) {
        assert a[..k + 1] == [a[0]] + a[1..][..k] && b[..k + 1] == [b[0]] + b[1..][..k];
        assert PartAt(a, b, k + 1);
      }
      if k :| PartAt(a, b, k) {
        assert k > 0 ==> a[1..][..k - 1] == a[..k][1..] && b[1..][..k - 1] == b[..k][1..];
        assert PartAt(a[1..], b[1..], k - 1);
      }
    } else {
      if Before(a, b) { assert PartAt(a, b, 0); }
      if k :| PartAt(a, b, k) && k > 0 { SameFirst(a, b, k); }
    }
  }

  lemma SameFirst(a: Text, b: Text, k: int)
    requires PartAt(a, b, k) && k > 0
    ensures a != [] && b != [] && a[0] == b[0]
  {
    assert a[..k][0] == b[..k][0];
  }

  // ---------------------------------------------------------------- objects, arrays, the rest

  function MembersText(ms: seq<Member<Json>>): Text {
    if ms == [] then []
    else
      Quote(ms[0].key) + Lit(":") + Canonical(ms[0].value) +
      (if |ms| == 1 then [] else Lit(",") + MembersText(ms[1..]))
  }

  function ItemsText(items: seq<Json>): Text {
    if items == [] then []
    else Canonical(items[0]) + (if |items| == 1 then [] else Lit(",") + ItemsText(items[1..]))
  }

  lemma {:induction false} InsertCanonical(m: Member<Json>, ms: seq<Member<Json>>)
    ensures CanonicalMembers(Insert(m, ms)) == Insert(Member(m.key, Canonical(m.value)), CanonicalMembers(ms))
  {
    hide Canonical, Before;
    if ms != [] && Before(ms[0].key, m.key) {
      InsertCanonical(m, ms[1..]);
      assert Insert(m, ms)[1..] == Insert(m, ms[1..]);
      assert CanonicalMembers(ms)[1..] == CanonicalMembers(ms[1..]);
    } else if ms != [] {
      assert ([m] + ms)[1..] == ms;
    } else {
      assert [m][1..] == [];
    }
  }

  lemma {:induction false} SortCanonical(ms: seq<Member<Json>>)
    ensures CanonicalMembers(SortByKey(ms)) == SortByKey(CanonicalMembers(ms))
  {
    hide Canonical;
    if ms != [] {
      SortCanonical(ms[1..]);
      InsertCanonical(ms[0], SortByKey(ms[1..]));
      assert CanonicalMembers(ms)[1..] == CanonicalMembers(ms[1..]);
    }
  }

  lemma {:induction false} MembersJoined(ms: seq<Member<Json>>)
    ensures JoinMembers(CanonicalMembers(ms)) == MembersText(ms)
  {
    assert Lit(":") == [58] && Lit(",") == [44];
    hide Canonical, Quote, Lit;
    if ms != [] {
      MembersJoined(ms[1..]);
      assert CanonicalMembers(ms)[1..] == CanonicalMembers(ms[1..]);
    }
  }

  lemma {:induction false} ItemsJoined(items: seq<Json>)
    ensures JoinItems(CanonicalItems(items)) == ItemsText(items)
  {
    assert Lit(",") == [44];
    hide Canonical, Lit;
    if items != [] {
      ItemsJoined(items[1..]);
      assert CanonicalItems(items)[1..] == CanonicalItems(items[1..]);
    }
  }

  ghost predicate InKeyOrder(ms: seq<Member<Json>>) {
    forall i, j :: 0 <= i < j < |ms| ==> IsBefore(ms[i].key, ms[j].key)
  }

  /** An object is its members in key order, without white space; an array its items in their own order. */
  lemma ObjectText(ms: seq<Member<Json>>) returns (order: seq<Member<Json>>)
    requires DistinctKeys(ms)
    ensures multiset(order) == multiset(ms) && InKeyOrder(order)
    ensures Canonical(Obj(ms)) == Lit("{") + MembersText(order) + Lit("}")
  {
    order := SortByKey(ms);
    SortKeeps(ms);
    forall i, j | 0 <= i < j < |order| ensures IsBefore(order[i].key, order[j].key) {
      BeforeIs(order[i].key, order[j].key);
    }
    SortCanonical(ms);
    MembersJoined(order);
    ObjectIs(ms);
    hide Canonical, SortByKey, MembersText, JoinMembers, IsBefore, Before;
  }

  lemma ObjectIs(ms: seq<Member<Json>>)
    ensures Canonical(Obj(ms)) == Lit("{") + JoinMembers(SortByKey(CanonicalMembers(ms))) + Lit("}")
  {
    assert Lit("{") == [123] && Lit("}") == [125];
    hide JoinMembers, SortByKey, CanonicalMembers, Lit;
  }

  lemma ArrayText(items: seq<Json>)
    ensures Canonical(Arr(items)) == Lit("[") + ItemsText(items) + Lit("]")
  {
    assert Lit("[") == [91] && Lit("]") == [93];
    ItemsJoined(items);
    hide JoinItems, CanonicalItems, ItemsText, Lit;
  }

  lemma ScalarText(v: Json)
    ensures v == Null ==> Canonical(v) == Lit("null")
    ensures v == Bool(true) ==> Canonical(v) == Lit("true")
    ensures v == Bool(false) ==> Canonical(v) == Lit("false")
    ensures v.Num? ==> Canonical(v) == v.digits
    ensures v.Str? ==> Canonical(v) == Quote(v.text)
  {}
}
