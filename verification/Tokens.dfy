/** Placeholder tokens of the anonymizer. */
module Tokens {
  import opened Texts

  const LETTERS := 26

  function Letter(k: int): CodeUnit
    requires 0 <= k < LETTERS
  {
    65 + k
  }

  /** A, B, .., Z, AA, AB, ..: the bijective base-26 numeral. */
  function Suffix(n: nat): (t: Text)
    ensures |t| >= 1 && forall i :: 0 <= i < |t| ==> 65 <= t[i] <= 90
  {
    if n < LETTERS then [Letter(n)] else Suffix(n / LETTERS - 1) + [Letter(n % LETTERS)]
  }

  function EntityToken(n: nat): Text { Lit("ENTITY_") + Suffix(n) }

  function PatternToken(prefix: string, n: nat): Text { Lit(prefix) + Lit("_") + Decimal(n) }

  /** The letters still to be written when n is left. */
  function Leading(n: int): Text {
    if n >= 0 then Suffix(n) else []
  }

  lemma LastLetter(n: nat)
    ensures Suffix(n) == Leading(n / LETTERS - 1) + [Letter(n % LETTERS)]
  {}

  method MakeEntityToken(index: nat) returns (token: Text)
    ensures token == EntityToken(index)
  {
    hide Suffix;
    var suffix: Text := [Letter(index % LETTERS)];
    LastLetter(index);
    var n := index / LETTERS - 1;
    while n >= 0
      invariant n >= -1 && Suffix(index) == Leading(n) + suffix
      decreases n
    {
      LastLetter(n);
      Associates(Leading(n / LETTERS - 1), [Letter(n % LETTERS)], suffix);
      suffix := [Letter(n % LETTERS)] + suffix;
      n := n / LETTERS - 1;
    }
    token := Lit("ENTITY_") + suffix;
  }

  /** The place of a letter in the alphabet, from 1. */
  predicate IsPlace(u: CodeUnit, k: int) {
    1 <= k <= 26 && u == Lit(UPPER)[k - 1]
  }

  lemma PlaceOf(k: int)
    requires 1 <= k <= 26
    ensures Lit(UPPER)[k - 1] == 64 + k
  {
    assert UPPER[k - 1] as int == 64 + k;
  }

  /** The last letter of the text is the digit k of n, with m before it. */
  predicate IsDigitOf(n: int, m: int, k: int, t: Text) {
    n == 26 * m + k && t != [] && IsPlace(t[|t| - 1], k)
  }

  /** Letters read as a numeral of base 26 whose digits go from A for 1 to Z for 26. */
  ghost predicate IsNumeral(t: Text, n: int) {
    if t == [] then n == 0
    else exists m, k :: IsDigitOf(n, m, k, t) && IsNumeral(t[..|t| - 1], m)
  }

  /** The suffix of index n is the numeral of n + 1. */
  lemma {:induction false} SuffixIsNumeral(n: nat)
    ensures IsNumeral(Suffix(n), n + 1)
  {
    var t, m, k := Suffix(n), n / 26, n % 26 + 1;
    PlaceOf(k);
    hide Lit;
    assert IsDigitOf(n + 1, m, k, t);
    if n >= 26 {
      SuffixIsNumeral(n / 26 - 1);
      assert t[..|t| - 1] == Suffix(n / 26 - 1);
    } else {
      assert t[..|t| - 1] == [];
    }
  }

  /** No other text of letters has that value. */
  lemma {:induction false} NumeralUnique(s: Text, t: Text, n: int)
    requires IsNumeral(s, n) && IsNumeral(t, n)
    ensures s == t
    decreases |s|
  {
    hide Lit;
    NumeralSize(s, n);
    NumeralSize(t, n);
    if s != [] && t != [] {
      var m, k :| IsDigitOf(n, m, k, s) && IsNumeral(s[..|s| - 1], m);
      var p, q :| IsDigitOf(n, p, q, t) && IsNumeral(t[..|t| - 1], p);
      assert m == p && k == q;
      NumeralUnique(s[..|s| - 1], t[..|t| - 1], m);
      assert s == s[..|s| - 1] + [s[|s| - 1]] && t == t[..|t| - 1] + [t[|t| - 1]];
    }
  }

  lemma {:induction false} NumeralSize(t: Text, n: int)
    requires IsNumeral(t, n)
    ensures n >= 0 && (n == 0 <==> t == [])
  {
    hide Lit;
    if t != [] {
      var m, k :| IsDigitOf(n, m, k, t) && IsNumeral(t[..|t| - 1], m);
      NumeralSize(t[..|t| - 1], m);
    }
  }

  lemma {:induction false} SuffixInjective(m: nat, n: nat)
    requires Suffix(m) == Suffix(n)
    ensures m == n
  {
    var s, t := Suffix(m), Suffix(n);
    LastLetter(m);
    LastLetter(n);
    assert s[|s| - 1] == Letter(m % LETTERS) && t[|t| - 1] == Letter(n % LETTERS);
    assert m % LETTERS == n % LETTERS;
    if m >= LETTERS && n >= LETTERS {
      assert s[..|s| - 1] == Suffix(m / LETTERS - 1) && t[..|t| - 1] == Suffix(n / LETTERS - 1);
      SuffixInjective(m / LETTERS - 1, n / LETTERS - 1);
    } else if m >= LETTERS || n >= LETTERS {
      assert |Suffix(m)| == |Suffix(n)|;
    }
  }

  /** Distinct indices never share a token. */
  lemma EntityTokenInjective(m: nat, n: nat)
    ensures EntityToken(m) == EntityToken(n) <==> m == n
  {
    if EntityToken(m) == EntityToken(n) {
      SplitEqual(Lit("ENTITY_"), Suffix(m), Lit("ENTITY_"), Suffix(n));
      SuffixInjective(m, n);
    }
  }

  const PREFIXES: seq<string> := ["SSN", "EIN", "EMAIL", "PHONE", "AMOUNT", "DATE"]

  /** Entity tokens end in a letter, pattern tokens in a digit. */
  lemma TokensApart(m: nat, i: nat, n: nat)
    requires i < |PREFIXES|
    ensures EntityToken(m) != PatternToken(PREFIXES[i], n)
  {
    var e, p := EntityToken(m), PatternToken(PREFIXES[i], n);
    assert e[|e| - 1] == Suffix(m)[|Suffix(m)| - 1];
    assert p[|p| - 1] == Decimal(n)[|Decimal(n)| - 1];
  }

  lemma PrefixesDiffer(i: nat, j: nat)
    requires i < j < |PREFIXES|
    ensures |Lit(PREFIXES[i])| != |Lit(PREFIXES[j])| || Lit(PREFIXES[i]) != Lit(PREFIXES[j])
  {
    assert Lit("SSN")[0] == 83 && Lit("EIN")[0] == 69;
    assert Lit("EMAIL")[0] == 69 && Lit("PHONE")[0] == 80;
    assert Lit("AMOUNT")[0] == 65 && Lit("DATE")[0] == 68;
  }

  predicate Underscored(t: Text, k: nat) {
    k < |t| && t[k] == 95 && forall i :: 0 <= i < k ==> t[i] != 95
  }

  lemma FirstUnderscore(i: nat, n: nat)
    requires i < |PREFIXES|
    ensures Underscored(PatternToken(PREFIXES[i], n), |PREFIXES[i]|)
  {
    var p := PREFIXES[i];
    assert Lit("_")[0] == 95;
    assert forall k :: 0 <= k < |p| ==> p[k] != '_' && p[k] as int < 128;
    assert forall k :: 0 <= k < |p| ==> PatternToken(p, n)[k] == Lit(p)[k];
  }

  /** Pattern tokens of different classes or numbers differ. */
  lemma PatternTokenInjective(i: nat, m: nat, j: nat, n: nat)
    requires i < |PREFIXES| && j < |PREFIXES|
    ensures PatternToken(PREFIXES[i], m) == PatternToken(PREFIXES[j], n) <==> i == j && m == n
  {
    if PatternToken(PREFIXES[i], m) == PatternToken(PREFIXES[j], n) {
      FirstUnderscore(i, m);
      FirstUnderscore(j, n);
      var a, b := Lit(PREFIXES[i]), Lit(PREFIXES[j]);
      assert |a| == |b|;
      SplitEqual(a + Lit("_"), Decimal(m), b + Lit("_"), Decimal(n));
      SplitEqual(a, Lit("_"), b, Lit("_"));
      if i < j { PrefixesDiffer(i, j); }
      if j < i { PrefixesDiffer(j, i); }
      DecimalReadsBack(m);
      DecimalReadsBack(n);
    }
  }

  // ------------------------------------------------------------------- tokens of one run

  /** Which token: of the k-th entity, or of the k-th find in a class of patterns. */
  datatype Token = EntityNumber(k: nat) | PatternNumber(kind: nat, k: nat)

  predicate Known(t: Token) {
    t.PatternNumber? ==> t.kind < |PREFIXES|
  }

  function TextOf(t: Token): Text
    requires Known(t)
  {
    match t
    case EntityNumber(k) => EntityToken(k)
    case PatternNumber(c, k) => PatternToken(PREFIXES[c], k)
  }

  /** No two tokens read alike, entities and patterns of all classes together. */
  lemma TextInjective(t: Token, u: Token)
    requires Known(t) && Known(u)
    ensures TextOf(t) == TextOf(u) <==> t == u
  {
    hide EntityToken, PatternToken;
    match (t, u)
    case (EntityNumber(j), EntityNumber(k)) => EntityTokenInjective(j, k);
    case (EntityNumber(j), PatternNumber(c, k)) => TokensApart(j, c, k);
    case (PatternNumber(c, k), EntityNumber(j)) => TokensApart(j, c, k);
    case (PatternNumber(c, j), PatternNumber(d, k)) => PatternTokenInjective(c, j, d, k);
  }

  // ------------------------------------------------------------------------ assignment

  datatype Entry = Entry(token: Token, original: Text)

  predicate KnownEntries(es: seq<Entry>) {
    forall i :: 0 <= i < |es| ==> Known(es[i].token)
  }

  /** The mask map after these assignments, in order; a later one of the same key overwrites. */
  function MaskMap(es: seq<Entry>): map<Text, Text>
    requires KnownEntries(es)
  {
    if es == [] then map[]
    else MaskMap(es[..|es| - 1])[TextOf(es[|es| - 1].token) := es[|es| - 1].original]
  }

  /** The distinct folded texts in order of first occurrence, each with that occurrence. */
  function Firsts(fold: Text -> Text, texts: seq<Text>): seq<Text> {
    if texts == [] then []
    else
      var front, last := Firsts(fold, texts[..|texts| - 1]), texts[|texts| - 1];
      if Folds(fold, front, last) then front else front + [last]
  }

  predicate Folds(fold: Text -> Text, s: seq<Text>, e: Text) {
    exists i :: 0 <= i < |s| && fold(s[i]) == fold(e)
  }

  function EntityEntries(originals: seq<Text>): seq<Entry> {
    seq(|originals|, k requires 0 <= k < |originals| => Entry(EntityNumber(k), originals[k]))
  }

  /** Patterns are numbered from one. */
  function PatternEntries(c: nat, originals: seq<Text>): seq<Entry> {
    seq(|originals|, k requires 0 <= k < |originals| => Entry(PatternNumber(c, k + 1), originals[k]))
  }

  /** All assignments: the entities, then the finds of the first n classes. */
  function Entries(fold: Text -> Text, entities: seq<Text>, finds: seq<seq<Text>>, n: nat): (es: seq<Entry>)
    requires n <= |finds| == |PREFIXES|
    ensures KnownEntries(es)
  {
    if n == 0 then EntityEntries(Firsts(fold, entities))
    else Entries(fold, entities, finds, n - 1) + PatternEntries(n - 1, Firsts(fold, finds[n - 1]))
  }

  lemma MaskMapGrows(es: seq<Entry>, e: Entry)
    requires KnownEntries(es) && Known(e.token)
    ensures KnownEntries(es + [e]) && MaskMap(es + [e]) == MaskMap(es)[TextOf(e.token) := e.original]
  {
    hide TextOf;
    assert (es + [e])[..|es|] == es;
  }

  lemma FirstsGrow(fold: Text -> Text, texts: seq<Text>, i: nat)
    requires i < |texts|
    ensures var f := Firsts(fold, texts[..i]);
      Firsts(fold, texts[..i + 1]) == if Folds(fold, f, texts[i]) then f else f + [texts[i]]
  {
    assert texts[..i + 1][..i] == texts[..i];
  }

  predicate FoldedAmong(fold: Text -> Text, s: seq<Text>, key: Text) {
    exists i :: 0 <= i < |s| && fold(s[i]) == key
  }

  lemma FoldedGrows(fold: Text -> Text, s: seq<Text>, e: Text)
    ensures forall k :: FoldedAmong(fold, s + [e], k) <==> FoldedAmong(fold, s, k) || k == fold(e)
  {
    forall k ensures FoldedAmong(fold, s + [e], k) <==> FoldedAmong(fold, s, k) || k == fold(e) {
      if FoldedAmong(fold, s, k) {
        var i :| 0 <= i < |s| && fold(s[i]) == k;
        assert (s + [e])[i] == s[i];
      }
      if k == fold(e) { assert (s + [e])[|s|] == e; }
    }
  }

  lemma NoMasks(fold: Text -> Text)
    ensures Firsts(fold, []) == [] && MaskMap([]) == map[]
  {}

  /** The entity loop: tokens in order of first occurrence, one for all spellings that fold alike. */
  method AssignEntityTokens(fold: Text -> Text, entities: seq<Text>) returns (masks: map<Text, Text>)
    ensures masks == MaskMap(EntityEntries(Firsts(fold, entities)))
  {
    hide Firsts, MaskMap, TextOf;
    masks := map[];
    var seen: set<Text> := {};
    var tokenIndex := 0;
    NoMasks(fold);
    assert EntityEntries([]) == [];
    for i := 0 to |entities|
      invariant var f := Firsts(fold, entities[..i]); masks == MaskMap(EntityEntries(f)) && tokenIndex == |f|
      invariant forall k :: k in seen <==> FoldedAmong(fold, Firsts(fold, entities[..i]), k)
    {
      var key := fold(entities[i]);
      ghost var f := Firsts(fold, entities[..i]);
      FirstsGrow(fold, entities, i);
      if key !in seen {
        var token := MakeEntityToken(tokenIndex);
        FoldedGrows(fold, f, entities[i]);
        EntityAdded(f, entities[i]);
        masks := masks[token := entities[i]];
        tokenIndex := tokenIndex + 1;
        seen := seen + {key};
      }
    }
    assert entities[..|entities|] == entities;
  }

  lemma EntityAdded(f: seq<Text>, e: Text)
    ensures MaskMap(EntityEntries(f + [e])) == MaskMap(EntityEntries(f))[EntityToken(|f|) := e]
  {
    hide EntityToken, MaskMap;
    var entry := Entry(EntityNumber(|f|), e);
    assert EntityEntries(f + [e]) == EntityEntries(f) + [entry];
    MaskMapGrows(EntityEntries(f), entry);
  }

  /** The loop over the finds of one class: a counter from one, and one token for all spellings that fold alike. */
  method AssignPatternTokens(fold: Text -> Text, c: nat, finds: seq<Text>, before: map<Text, Text>,
                             ghost es: seq<Entry>)
    returns (masks: map<Text, Text>)
    requires c < |PREFIXES| && KnownEntries(es) && before == MaskMap(es)
    ensures masks == MaskMap(es + PatternEntries(c, Firsts(fold, finds)))
  {
    hide Firsts, MaskMap, PatternToken;
    masks := before;
    var seen: set<Text> := {};
    var counter := 1;
    NoMasks(fold);
    assert es + PatternEntries(c, []) == es;
    for i := 0 to |finds|
      invariant var f := Firsts(fold, finds[..i]); masks == MaskMap(es + PatternEntries(c, f)) && counter == |f| + 1
      invariant forall k :: k in seen <==> FoldedAmong(fold, Firsts(fold, finds[..i]), k)
    {
      var key := fold(finds[i]);
      ghost var f := Firsts(fold, finds[..i]);
      FirstsGrow(fold, finds, i);
      if key !in seen {
        var token := PatternToken(PREFIXES[c], counter);
        FoldedGrows(fold, f, finds[i]);
        PatternAdded(es, c, f, finds[i]);
        masks := masks[token := finds[i]];
        counter := counter + 1;
        seen := seen + {key};
      }
    }
    assert finds[..|finds|] == finds;
  }

  lemma PatternAdded(es: seq<Entry>, c: nat, f: seq<Text>, e: Text)
    requires KnownEntries(es) && c < |PREFIXES|
    ensures MaskMap(es + PatternEntries(c, f + [e])) ==
      MaskMap(es + PatternEntries(c, f))[PatternToken(PREFIXES[c], |f| + 1) := e]
  {
    hide PatternToken, MaskMap;
    var entry := Entry(PatternNumber(c, |f| + 1), e);
    assert es + PatternEntries(c, f + [e]) == es + PatternEntries(c, f) + [entry];
    MaskMapGrows(es + PatternEntries(c, f), entry);
  }

  /** The mask map of one run; finds holds, class by class, what the patterns match in the text as masked so far. */
  method AssignTokens(fold: Text -> Text, entities: seq<Text>, finds: seq<seq<Text>>) returns (masks: map<Text, Text>)
    requires |finds| == |PREFIXES|
    ensures masks == MaskMap(Entries(fold, entities, finds, |PREFIXES|))
  {
    hide MaskMap, Firsts;
    masks := AssignEntityTokens(fold, entities);
    for c := 0 to |PREFIXES|
      invariant masks == MaskMap(Entries(fold, entities, finds, c))
    {
      masks := AssignPatternTokens(fold, c, finds[c], masks, Entries(fold, entities, finds, c));
    }
  }

  // ------------------------------------------------------------------ nothing overwritten

  predicate DistinctTokens(es: seq<Entry>) {
    forall i, j :: 0 <= i < j < |es| ==> es[i].token != es[j].token
  }

  /** The map holds each entry's original under its token, and nothing else. */
  predicate IsExact(es: seq<Entry>, m: map<Text, Text>)
    requires KnownEntries(es)
  {
    && |m| == |es|
    && (forall i :: 0 <= i < |es| ==> TextOf(es[i].token) in m && m[TextOf(es[i].token)] == es[i].original)
    && (forall t :: t in m ==> IsTokenOf(es, t))
  }

  predicate IsTokenOf(es: seq<Entry>, t: Text)
    requires KnownEntries(es)
  {
    exists i :: 0 <= i < |es| && TextOf(es[i].token) == t
  }

  /** Assignments of distinct tokens all stay. */
  lemma {:induction false} AllStay(es: seq<Entry>)
    requires KnownEntries(es) && DistinctTokens(es)
    ensures IsExact(es, MaskMap(es))
  {
    hide TextOf;
    if es != [] {
      var n := |es| - 1;
      var front := es[..n];
      assert front + [es[n]] == es;
      AllStay(front);
      forall i | 0 <= i < n ensures TextOf(front[i].token) != TextOf(es[n].token) {
        assert front[i] == es[i];
        TextInjective(es[i].token, es[n].token);
      }
      hide IsExact;
      OneMore(front, MaskMap(front), es[n]);
    }
  }

  lemma OneMore(front: seq<Entry>, m: map<Text, Text>, e: Entry)
    requires KnownEntries(front) && Known(e.token) && IsExact(front, m)
    requires forall i :: 0 <= i < |front| ==> TextOf(front[i].token) != TextOf(e.token)
    ensures IsExact(front + [e], m[TextOf(e.token) := e.original])
  {
    hide TextOf;
    assert TextOf(e.token) !in m;
    KeyAdded(m, TextOf(e.token), e.original);
    HoldsMore(front, m, e);
    TokensMore(front, m, e);
  }

  lemma KeyAdded(m: map<Text, Text>, key: Text, v: Text)
    requires key !in m
    ensures |m[key := v]| == |m| + 1
  {
    assert m[key := v].Keys == m.Keys + {key};
    assert |m[key := v]| == |m[key := v].Keys| && |m| == |m.Keys|;
  }

  lemma HoldsMore(front: seq<Entry>, m: map<Text, Text>, e: Entry)
    requires KnownEntries(front) && Known(e.token) && IsExact(front, m)
    requires forall i :: 0 <= i < |front| ==> TextOf(front[i].token) != TextOf(e.token)
    ensures var es, n := front + [e], m[TextOf(e.token) := e.original];
      forall i :: 0 <= i < |es| ==> TextOf(es[i].token) in n && n[TextOf(es[i].token)] == es[i].original
  {
    hide TextOf, IsTokenOf;
  }

  lemma TokensMore(front: seq<Entry>, m: map<Text, Text>, e: Entry)
    requires KnownEntries(front) && Known(e.token) && IsExact(front, m)
    ensures forall t :: t in m[TextOf(e.token) := e.original] ==> IsTokenOf(front + [e], t)
  {
    hide TextOf;
    var es := front + [e];
    forall t | t in m[TextOf(e.token) := e.original] ensures IsTokenOf(es, t) {
      if t == TextOf(e.token) {
        assert es[|front|] == e;
      } else {
        assert IsTokenOf(front, t);
        var i :| 0 <= i < |front| && TextOf(front[i].token) == t;
        assert es[i] == front[i];
      }
    }
  }

  lemma {:induction false} EntriesDistinct(fold: Text -> Text, entities: seq<Text>, finds: seq<seq<Text>>, n: nat)
    requires n <= |finds| == |PREFIXES|
    ensures DistinctTokens(Entries(fold, entities, finds, n))
    ensures forall i :: 0 <= i < |Entries(fold, entities, finds, n)| ==>
      Entries(fold, entities, finds, n)[i].token.EntityNumber? || Entries(fold, entities, finds, n)[i].token.kind < n
  {
    hide Firsts;
    if n > 0 { EntriesDistinct(fold, entities, finds, n - 1); }
  }

  /** The whole mask map of a run, entities and patterns together, gives each token one original and overwrites none. */
  lemma OneOriginalEach(fold: Text -> Text, entities: seq<Text>, finds: seq<seq<Text>>)
    requires |finds| == |PREFIXES|
    ensures var es := Entries(fold, entities, finds, |PREFIXES|); IsExact(es, MaskMap(es))
  {
    hide Entries, MaskMap, TextOf, IsExact;
    EntriesDistinct(fold, entities, finds, |PREFIXES|);
    AllStay(Entries(fold, entities, finds, |PREFIXES|));
  }

  predicate FoldsDistinct(fold: Text -> Text, s: seq<Text>) {
    forall i, j :: 0 <= i < j < |s| ==> fold(s[i]) != fold(s[j])
  }

  /** Texts that differ only by case share a token; all others have their own, and none is left out. */
  lemma {:induction false} FirstsDistinct(fold: Text -> Text, entities: seq<Text>)
    ensures FoldsDistinct(fold, Firsts(fold, entities))
    ensures forall i :: 0 <= i < |entities| ==> Folds(fold, Firsts(fold, entities), entities[i])
  {
    if entities != [] {
      var n := |entities| - 1;
      FirstsDistinct(fold, entities[..n]);
      var f, g := Firsts(fold, entities[..n]), Firsts(fold, entities);
      assert g == if Folds(fold, f, entities[n]) then f else f + [entities[n]];
      forall i | 0 <= i < |entities| ensures Folds(fold, g, entities[i]) {
        if i < n {
          assert entities[..n][i] == entities[i];
          var k :| 0 <= k < |f| && fold(f[k]) == fold(entities[i]);
          assert g[k] == f[k];
        } else if !Folds(fold, f, entities[n]) {
          assert g[|f|] == entities[n];
        }
      }
    }
  }
}
