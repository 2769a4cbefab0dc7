/** Injecting a metadata.sources entry into frontmatter, and what the license lookups see afterwards. */
module SourceEntries {
  import opened Options
  import opened CodePoints
  import opened Frontmatter

  // ------------------------------------------------------------------------- scalars

  const QUOTE: Char := '\"' as int
  const APOSTROPHE: Char := '\'' as int
  const BACKSLASH: Char := '\\' as int

  /** Characters that need quotes anywhere:  : # ' " [ ] { } */
  predicate Special(u: Char) {
    u == COLON || u == 35 || u == APOSTROPHE || u == QUOTE || u == 91 || u == 93 || u == 123 || u == 125
  }

  /** And at the front:  - ? & * ! | > % @ ` */
  predicate Leading(u: Char) {
    IsSpace(u) || u == HYPHEN || u == 63 || u == 38 || u == 42 || u == 33 || u == 124 || u == 62 || u == 37 || u == 64
      || u == 96
  }

  predicate NeedsQuotes(value: Line) {
    value == [] || IsSpace(value[0]) || IsSpace(value[|value| - 1]) || Leading(value[0])
    || exists i :: 0 <= i < |value| && Special(value[i])
  }

  /** Quotes are needed for the empty value, for spaces at either end, and for these characters. */
  lemma NeedsQuotesIff(value: Line)
    ensures NeedsQuotes(value) <==>
      || value == [] || IsSpace(value[0]) || IsSpace(value[|value| - 1]) || value[0] in Str("-?&*!|>%@`")
      || exists c :: c in value && c in Str(":#'\"[]{}")
  {
    forall c: Char ensures c in Str(":#'\"[]{}") <==> Special(c) { SpecialIs(c); }
    if value != [] { LeadingIs(value[0]); }
    hide Str, Special, Leading;
    if c :| c in value && c in Str(":#'\"[]{}") {
      var i :| 0 <= i < |value| && value[i] == c;
    }
  }

  lemma SpecialIs(c: Char)
    ensures c in Str(":#'\"[]{}") <==> Special(c)
  {
    var s := ":#'\"[]{}";
    InStr(c, s);
    hide Str;
    assert s[0] as int == 58 && s[1] as int == 35 && s[2] as int == 39 && s[3] as int == 34;
    assert s[4] as int == 91 && s[5] as int == 93 && s[6] as int == 123 && s[7] as int == 125;
  }

  lemma LeadingIs(c: Char)
    ensures IsSpace(c) || c in Str("-?&*!|>%@`") <==> Leading(c)
  {
    var s := "-?&*!|>%@`";
    InStr(c, s);
    hide Str, IsSpace;
    assert s[0] as int == 45 && s[1] as int == 63 && s[2] as int == 38 && s[3] as int == 42 && s[4] as int == 33;
    assert s[5] as int == 124 && s[6] as int == 62 && s[7] as int == 37 && s[8] as int == 64 && s[9] as int == 96;
  }

  /** Without quotes a value stands as it is; in quotes it ends where its quotes do. */
  lemma YamlScalarIs(value: Line)
    ensures !NeedsQuotes(value) ==> YamlScalar(value) == value
    ensures NeedsQuotes(value) ==>
      var s := YamlScalar(value); |s| >= 2 && s[0] == '\"' as int && s[|s| - 1] == '\"' as int
  {
    hide Escaped;
  }

  function Escaped(value: Line): Line {
    if value == [] then []
    else
      var first := if value[0] == BACKSLASH || value[0] == QUOTE then [BACKSLASH, value[0]] else [value[0]];
      first + Escaped(value[1..])
  }

  function YamlScalar(value: Line): Line {
    if NeedsQuotes(value) then [QUOTE] + Escaped(value) + [QUOTE] else value
  }

  /** A double-quoted scalar, read up to its closing quote; None when it does not close at the end. */
  function Unescaped(t: Line): Option<Line> {
    if t == [] then None
    else if t == [QUOTE] then Some([])
    else if t[0] == QUOTE then None
    else if t[0] == BACKSLASH then
      if |t| < 2 then None
      else
        var rest := Unescaped(t[2..]);
        if rest.None? then None else Some([t[1]] + rest.value)
    else
      var rest := Unescaped(t[1..]);
      if rest.None? then None else Some([t[0]] + rest.value)
  }

  function ReadScalar(t: Line): Option<Line> {
    if t != [] && t[0] == QUOTE then Unescaped(t[1..]) else Some(t)
  }

  lemma {:induction false} EscapedReadsBack(value: Line)
    ensures Unescaped(Escaped(value) + [QUOTE]) == Some(value)
  {
    if value != [] {
      EscapedReadsBack(value[1..]);
      assert [value[0]] + value[1..] == value;
      var e := Escaped(value[1..]) + [QUOTE];
      var t := Escaped(value) + [QUOTE];
      if value[0] == BACKSLASH || value[0] == QUOTE {
        assert t == [BACKSLASH, value[0]] + e && t[2..] == e;
      } else {
        assert t == [value[0]] + e && t[1..] == e;
      }
    }
  }

  /** Every value reads back from the scalar it is rendered as. */
  lemma ScalarReadsBack(value: Line)
    ensures ReadScalar(YamlScalar(value)) == Some(value)
  {
    EscapedReadsBack(value);
    if value != [] && value[0] == QUOTE { QuoteNeedsQuotes(value); }
    if NeedsQuotes(value) {
      var t := Escaped(value) + [QUOTE];
      assert YamlScalar(value) == [QUOTE] + t;
      assert YamlScalar(value)[1..] == t && YamlScalar(value)[0] == QUOTE;
    }
  }

  lemma QuoteNeedsQuotes(value: Line)
    requires value != [] && value[0] == QUOTE
    ensures NeedsQuotes(value)
  {
    assert Special(value[0]);
  }

  predicate BreakFree(value: Line) {
    forall i :: 0 <= i < |value| ==> !IsBreak(value[i])
  }

  lemma {:induction false} EscapedBreakFree(value: Line)
    requires BreakFree(value)
    ensures BreakFree(Escaped(value))
  {
    if value != [] { EscapedBreakFree(value[1..]); }
  }

  // --------------------------------------------------------------------------- entry

  function EntryLines(path: Line, license: Line, attribution: Line): seq<Line> {
    [Str("    - path: ") + YamlScalar(path) + [NL],
     Str("      kind: github") + [NL],
     Str("      usage: vendored") + [NL],
     Str("      license: ") + YamlScalar(license) + [NL],
     Str("      attribution: ") + YamlScalar(attribution) + [NL]]
  }

  const METADATA: Line := Str("metadata")
  const SOURCES: Line := Str("sources")

  function MetadataLine(): Line { METADATA + [COLON, NL] }
  function SourcesLine(): Line { [SPACE, SPACE] + SOURCES + [COLON, NL] }

  /** Lines of an entry are indented too far to open a block. */
  predicate IsEntryLine(l: Line) {
    |l| > 4 && l[0] == l[1] == l[2] == l[3] == SPACE && l[|l| - 1] == NL
  }

  predicate IsEntry(entry: seq<Line>) {
    |entry| == 5 && forall i :: 0 <= i < |entry| ==> IsEntryLine(entry[i])
  }

  lemma PlainLine(prefix: string, value: Line)
    requires |prefix| > 4 && prefix[0] == prefix[1] == prefix[2] == prefix[3] == ' '
    ensures IsEntryLine(Str(prefix) + value + [NL])
  {}

  lemma EntryIs(path: Line, license: Line, attribution: Line)
    ensures IsEntry(EntryLines(path, license, attribution))
  {
    hide YamlScalar, Str;
    PlainLine("    - path: ", YamlScalar(path));
    PlainLine("      kind: github", []);
    PlainLine("      usage: vendored", []);
    PlainLine("      license: ", YamlScalar(license));
    PlainLine("      attribution: ", YamlScalar(attribution));
    hide IsEntryLine;
    assert Str("      kind: github") + [] + [NL] == Str("      kind: github") + [NL];
    assert Str("      usage: vendored") + [] + [NL] == Str("      usage: vendored") + [NL];
  }

  // ------------------------------------------------------------------------ injection

  predicate HasKey(blocks: seq<Block>, key: Line) {
    exists i :: 0 <= i < |blocks| && blocks[i].key == Some(key)
  }

  function ExtendSources(subs: seq<Block>, entry: seq<Line>): seq<Block> {
    if subs == [] then []
    else
      var b := subs[0];
      [if b.key == Some(SOURCES) then Block(b.key, b.lines + entry) else b] + ExtendSources(subs[1..], entry)
  }

  function NewSources(entry: seq<Line>): Block { Block(Some(SOURCES), [SourcesLine()] + entry) }

  function MetadataSubs(subs: seq<Block>, entry: seq<Line>): seq<Block> {
    ExtendSources(subs, entry) + (if HasKey(subs, SOURCES) then [] else [NewSources(entry)])
  }

  function InMetadata(u: Tables, lines: seq<Line>, entry: seq<Line>): seq<Line>
    requires lines != []
  {
    [lines[0]] + LinesOf(MetadataSubs(Blocks(u, lines[1..], 2), entry))
  }

  function ExtendMetadata(u: Tables, top: seq<Block>, entry: seq<Line>): seq<Block> {
    if top == [] then []
    else
      var b := top[0];
      [if b.key == Some(METADATA) && b.lines != [] then Block(b.key, InMetadata(u, b.lines, entry)) else b]
      + ExtendMetadata(u, top[1..], entry)
  }

  function NewMetadata(entry: seq<Line>): Block {
    Block(Some(METADATA), [MetadataLine()] + ([SourcesLine()] + entry))
  }

  function TopBlocks(u: Tables, front: seq<Line>, entry: seq<Line>): seq<Block> {
    var top := Blocks(u, front, 0);
    ExtendMetadata(u, top, entry) + (if HasKey(top, METADATA) then [] else [NewMetadata(entry)])
  }

  /** The frontmatter lines after injection. */
  function Injected(u: Tables, front: seq<Line>, entry: seq<Line>): seq<Line> {
    LinesOf(TopBlocks(u, front, entry))
  }

  lemma {:induction false} LinesOfSnoc(blocks: seq<Block>, b: Block)
    ensures LinesOf(blocks + [b]) == LinesOf(blocks) + b.lines
  {
    LinesOfAdds(blocks, [b]);
    assert LinesOf([b]) == b.lines + LinesOf([b][1..]) && LinesOf([b][1..]) == [];
  }

  lemma {:induction false} ExtendSourcesSnoc(subs: seq<Block>, i: nat, entry: seq<Line>)
    requires i < |subs|
    ensures var b := subs[i];
      ExtendSources(subs[..i + 1], entry) ==
      ExtendSources(subs[..i], entry) + [if b.key == Some(SOURCES) then Block(b.key, b.lines + entry) else b]
  {
    if i > 0 {
      ExtendSourcesSnoc(subs[1..], i - 1, entry);
      assert subs[1..][..i] == subs[..i + 1][1..] && subs[1..][..i - 1] == subs[..i][1..];
    }
  }

  method InjectIntoMetadataBlock(u: Tables, lines: seq<Line>, entry: seq<Line>) returns (out: seq<Line>)
    requires lines != []
    ensures out == InMetadata(u, lines, entry)
  {
    hide Blocks, ExtendSources, LinesOf;
    out := [lines[0]];
    var subs := SplitBlocks(u, lines[1..], 2);
    var found := false;
    NoneYet(entry);
    for i := 0 to |subs|
      invariant out == [lines[0]] + LinesOf(ExtendSources(subs[..i], entry))
      invariant found <==> HasKey(subs[..i], SOURCES)
    {
      ExtendSourcesSnoc(subs, i, entry);
      var b := subs[i].lines;
      HasKeySnoc(subs, i, SOURCES);
      if subs[i].key == Some(SOURCES) {
        found := true;
        b := b + entry;
        LinesOfSnoc(ExtendSources(subs[..i], entry), Block(subs[i].key, b));
      } else {
        LinesOfSnoc(ExtendSources(subs[..i], entry), subs[i]);
      }
      out := out + b;
    }
    assert subs[..|subs|] == subs;
    if !found {
      LinesOfSnoc(ExtendSources(subs, entry), NewSources(entry));
      out := out + [SourcesLine()];
      out := out + entry;
    } else {
      assert ExtendSources(subs, entry) + [] == ExtendSources(subs, entry);
    }
  }

  lemma NoneYet(entry: seq<Line>)
    ensures ExtendSources([], entry) == [] && LinesOf([]) == []
  {}

  lemma HasKeySnoc(blocks: seq<Block>, i: nat, key: Line)
    requires i < |blocks|
    ensures HasKey(blocks[..i + 1], key) <==> HasKey(blocks[..i], key) || blocks[i].key == Some(key)
  {
    if HasKey(blocks[..i], key) {
      var j :| 0 <= j < i && blocks[..i][j].key == Some(key);
      assert blocks[..i + 1][j].key == Some(key);
    }
    if blocks[i].key == Some(key) { assert blocks[..i + 1][i].key == Some(key); }
  }

  lemma {:induction false} ExtendMetadataSnoc(u: Tables, top: seq<Block>, i: nat, entry: seq<Line>)
    requires i < |top|
    ensures var b := top[i];
      ExtendMetadata(u, top[..i + 1], entry) ==
      ExtendMetadata(u, top[..i], entry)
      + [if b.key == Some(METADATA) && b.lines != [] then Block(b.key, InMetadata(u, b.lines, entry)) else b]
  {
    hide InMetadata;
    if i > 0 {
      ExtendMetadataSnoc(u, top[1..], i - 1, entry);
      assert top[1..][..i] == top[..i + 1][1..] && top[1..][..i - 1] == top[..i][1..];
    }
  }

  /** None is the ValueError for a text without frontmatter. */
  method InjectSourcesBlock(u: Tables, text: Line, path: Line, license: Line, attribution: Line)
    returns (r: Option<Line>)
    ensures var split := SplitFrontmatter(text);
      r == if split.None? then None
           else Some(OPENING + Join(Injected(u, split.value.front, EntryLines(path, license, attribution))) +
             split.value.tail)
  {
    var split := SplitFrontmatter(text);
    if split.None? { return None; }
    var front := split.value.front;
    var entry := EntryLines(path, license, attribution);
    hide Blocks, EntryLines, ExtendMetadata, InMetadata, LinesOf, SplitFrontmatter, Join;
    var top := SplitBlocks(u, front, 0);
    var rebuilt: seq<Line> := [];
    var found := false;
    NoneYetTop(u, entry);
    for i := 0 to |top|
      invariant rebuilt == LinesOf(ExtendMetadata(u, top[..i], entry))
      invariant found <==> HasKey(top[..i], METADATA)
    {
      NonemptyBlock(u, front, i);
      TopStep(u, top, i, entry);
      HasKeySnoc(top, i, METADATA);
      var b := top[i].lines;
      if top[i].key == Some(METADATA) {
        found := true;
        b := InjectIntoMetadataBlock(u, b, entry);
      }
      rebuilt := rebuilt + b;
    }
    assert top[..|top|] == top;
    if !found {
      LinesOfSnoc(ExtendMetadata(u, top, entry), NewMetadata(entry));
      Associate(rebuilt, [MetadataLine()], [SourcesLine()] + entry);
      Associate(rebuilt + [MetadataLine()], [SourcesLine()], entry);
      rebuilt := rebuilt + [MetadataLine()];
      rebuilt := rebuilt + [SourcesLine()];
      rebuilt := rebuilt + entry;
    } else {
      assert ExtendMetadata(u, top, entry) + [] == ExtendMetadata(u, top, entry);
    }
    return Some(OPENING + Join(rebuilt) + split.value.tail);
  }

  lemma NonemptyBlock(u: Tables, front: seq<Line>, i: nat)
    requires i < |Blocks(u, front, 0)|
    ensures Blocks(u, front, 0)[i].lines != []
  {
    BlocksLossless(u, front, 0);
    assert IsBlock(u, Blocks(u, front, 0)[i], 0);
  }

  lemma TopStep(u: Tables, top: seq<Block>, i: nat, entry: seq<Line>)
    requires i < |top| && top[i].lines != []
    ensures LinesOf(ExtendMetadata(u, top[..i + 1], entry)) ==
      LinesOf(ExtendMetadata(u, top[..i], entry))
      + (if top[i].key == Some(METADATA) then InMetadata(u, top[i].lines, entry) else top[i].lines)
  {
    hide ExtendMetadata, InMetadata, LinesOf;
    ExtendMetadataSnoc(u, top, i, entry);
    var b := top[i];
    LinesOfSnoc(ExtendMetadata(u, top[..i], entry), if b.key == Some(METADATA)
      then Block(b.key, InMetadata(u, b.lines, entry)) else b);
  }

  lemma NoneYetTop(u: Tables, entry: seq<Line>)
    ensures ExtendMetadata(u, [], entry) == [] && LinesOf([]) == []
  {}

  // ----------------------------------------------------------- blocks after injection

  lemma EntryKeyless(u: Tables, l: Line)
    requires IsEntryLine(l)
    ensures KeyOf(u, l, 0).None? && KeyOf(u, l, 2).None?
  {}

  lemma {:induction false} AllWord(u: Tables, t: Line, n: nat)
    requires n < |t| && (forall i :: 0 <= i < n ==> IsLetter(t[i])) && t[n] == COLON
    ensures WordRun(u, t) == n
  {
    if n > 0 { AllWord(u, t[1..], n - 1); }
  }

  lemma HeaderKeys(u: Tables)
    ensures KeyOf(u, MetadataLine(), 0) == Some(METADATA)
    ensures KeyOf(u, SourcesLine(), 0).None? && KeyOf(u, SourcesLine(), 2) == Some(SOURCES)
  {
    var m, s := MetadataLine(), SourcesLine();
    assert m[0..] == m;
    AllWord(u, m, 8);
    assert m[0..8] == METADATA;
    assert s[2..] == SOURCES + [COLON, NL];
    AllWord(u, s[2..], 7);
    assert s[2..9] == SOURCES;
  }

  /** Lines without a key at the margin. */
  predicate Keyless(u: Tables, lines: seq<Line>, indent: nat) {
    forall i :: 0 <= i < |lines| ==> KeyOf(u, lines[i], indent).None?
  }

  lemma EntryIsKeyless(u: Tables, entry: seq<Line>)
    requires IsEntry(entry)
    ensures Keyless(u, entry, 0) && Keyless(u, entry, 2)
  {
    hide IsEntryLine, KeyOf;
    forall i | 0 <= i < |entry| ensures KeyOf(u, entry[i], 0).None? && KeyOf(u, entry[i], 2).None? {
      EntryKeyless(u, entry[i]);
    }
  }

  lemma {:induction false} ExtendedAreBlocks(u: Tables, subs: seq<Block>, entry: seq<Line>)
    requires AreBlocks(u, subs, 2) && IsEntry(entry)
    ensures AreBlocks(u, ExtendSources(subs, entry), 2) && |ExtendSources(subs, entry)| == |subs|
    ensures forall i :: 0 <= i < |subs| ==> ExtendSources(subs, entry)[i].key == subs[i].key
  {
    if subs != [] {
      hide IsBlock, IsEntry;
      ExtendedAreBlocks(u, subs[1..], entry);
      ExtendedIsBlock(u, subs[0], entry);
      var b := subs[0];
      MoreBlocks(u, if b.key == Some(SOURCES) then Block(b.key, b.lines + entry)
        else b, ExtendSources(subs[1..], entry), 2);
    }
  }

  lemma ExtendedIsBlock(u: Tables, b: Block, entry: seq<Line>)
    requires IsBlock(u, b, 2) && IsEntry(entry)
    ensures IsBlock(u, Block(b.key, b.lines + entry), 2)
  {
    EntryIsKeyless(u, entry);
    hide KeyOf, IsEntry;
  }

  lemma NewSourcesIsBlock(u: Tables, entry: seq<Line>)
    requires IsEntry(entry)
    ensures IsBlock(u, NewSources(entry), 2)
  {
    HeaderKeys(u);
    EntryIsKeyless(u, entry);
    hide KeyOf, IsEntry;
  }

  lemma NewMetadataIsBlock(u: Tables, entry: seq<Line>)
    requires IsEntry(entry)
    ensures IsBlock(u, NewMetadata(entry), 0)
  {
    HeaderKeys(u);
    EntryIsKeyless(u, entry);
    hide KeyOf, IsEntry;
  }

  lemma AppendBlock(u: Tables, blocks: seq<Block>, b: Block, indent: nat)
    requires AreBlocks(u, blocks, indent) && IsBlock(u, b, indent) && b.key.Some?
    ensures AreBlocks(u, blocks + [b], indent)
  {
    hide IsBlock;
  }

  /** The sub-blocks of a metadata block are found again after injection. */
  lemma SubsFound(u: Tables, rest: seq<Line>, entry: seq<Line>)
    requires IsEntry(entry)
    ensures var subs := Blocks(u, rest, 2);
      Blocks(u, LinesOf(MetadataSubs(subs, entry)), 2) == MetadataSubs(subs, entry)
  {
    hide Blocks, AreBlocks, IsBlock, IsEntry, LinesOf, ExtendSources;
    var subs := Blocks(u, rest, 2);
    BlocksLossless(u, rest, 2);
    ExtendedAreBlocks(u, subs, entry);
    NewSourcesIsBlock(u, entry);
    AppendBlock(u, ExtendSources(subs, entry), NewSources(entry), 2);
    assert ExtendSources(subs, entry) + [] == ExtendSources(subs, entry);
    BlocksFound(u, MetadataSubs(subs, entry), 2);
  }

  lemma {:induction false} ExtendedKeyless(u: Tables, subs: seq<Block>, entry: seq<Line>)
    requires Keyless(u, LinesOf(subs), 0) && Keyless(u, entry, 0)
    ensures Keyless(u, LinesOf(ExtendSources(subs, entry)), 0)
  {
    hide KeyOf;
    if subs != [] {
      var l := LinesOf(subs);
      assert l[..|subs[0].lines|] == subs[0].lines && l[|subs[0].lines|..] == LinesOf(subs[1..]);
      ExtendedKeyless(u, subs[1..], entry);
    }
  }

  /** A metadata block stays one block. */
  lemma InMetadataIsBlock(u: Tables, b: Block, entry: seq<Line>)
    requires IsBlock(u, b, 0) && b.key == Some(METADATA) && IsEntry(entry)
    ensures IsBlock(u, Block(b.key, InMetadata(u, b.lines, entry)), 0)
  {
    hide Blocks, LinesOf, ExtendSources, IsEntry, KeyOf;
    var rest := b.lines[1..];
    var subs := Blocks(u, rest, 2);
    BlocksLossless(u, rest, 2);
    EntryIsKeyless(u, entry);
    HeaderKeys(u);
    ExtendedKeyless(u, subs, entry);
    LinesOfSnoc(ExtendSources(subs, entry), NewSources(entry));
    assert ExtendSources(subs, entry) + [] == ExtendSources(subs, entry);
    assert Keyless(u, LinesOf(MetadataSubs(subs, entry)), 0);
  }

  lemma {:induction false} ExtendedTopAreBlocks(u: Tables, top: seq<Block>, entry: seq<Line>)
    requires AreBlocks(u, top, 0) && IsEntry(entry)
    ensures AreBlocks(u, ExtendMetadata(u, top, entry), 0) && |ExtendMetadata(u, top, entry)| == |top|
    ensures forall i :: 0 <= i < |top| ==> ExtendMetadata(u, top, entry)[i].key == top[i].key
  {
    hide KeyOf, InMetadata, IsEntry;
    if top != [] {
      ExtendedTopAreBlocks(u, top[1..], entry);
      if top[0].key == Some(METADATA) { InMetadataIsBlock(u, top[0], entry); }
    }
  }

  /** Splitting the injected lines gives back exactly the injected blocks. */
  lemma TopFound(u: Tables, front: seq<Line>, entry: seq<Line>)
    requires IsEntry(entry)
    ensures Blocks(u, Injected(u, front, entry), 0) == TopBlocks(u, front, entry)
  {
    hide Blocks, AreBlocks, IsBlock, IsEntry, LinesOf, ExtendMetadata;
    var top := Blocks(u, front, 0);
    BlocksLossless(u, front, 0);
    ExtendedTopAreBlocks(u, top, entry);
    NewMetadataIsBlock(u, entry);
    AppendBlock(u, ExtendMetadata(u, top, entry), NewMetadata(entry), 0);
    assert ExtendMetadata(u, top, entry) + [] == ExtendMetadata(u, top, entry);
    BlocksFound(u, TopBlocks(u, front, entry), 0);
  }

  // -------------------------------------------------------------------------- lookups

  function StripLeft(t: Line): Line {
    if t != [] && IsSpace(t[0]) then StripLeft(t[1..]) else t
  }

  function StripRight(t: Line): Line {
    if t != [] && IsSpace(t[|t| - 1]) then StripRight(t[..|t| - 1]) else t
  }

  function StripQuotes(v: Line): Line {
    if |v| >= 2 && v[0] == v[|v| - 1] && (v[0] == QUOTE || v[0] == APOSTROPHE) then v[1..|v| - 1] else v
  }

  predicate StartsWith(t: Line, prefix: Line) { |prefix| <= |t| && t[..|prefix|] == prefix }

  /** The scalar on a key line; None covers the empty one, which no lookup returns. */
  function ScalarValue(line: Line, key: Line): Option<Line> {
    var t := StripLeft(Chomp(line));
    if !StartsWith(t, key + [COLON]) then None
    else
      var value := StripRight(StripLeft(t[|key| + 1..]));
      if value == [] || StripQuotes(value) == [] then None else Some(StripQuotes(value))
  }

  predicate AllSpaces(t: Line) {
    forall i :: 0 <= i < |t| ==> IsSpace(t[i])
  }

  /** No space at either end. */
  predicate Stripped(t: Line) {
    t != [] && !IsSpace(t[0]) && !IsSpace(t[|t| - 1])
  }

  /** What a value says: one pair of like quotes around it is taken off. */
  ghost predicate Unquotes(value: Line, v: Line) {
    if (exists inner :: IsQuoted(value, inner)) then IsQuoted(value, v) else v == value
  }

  predicate IsQuoted(value: Line, inner: Line) {
    value == Str("'") + inner + Str("'") || value == Str("\"") + inner + Str("\"")
  }

  lemma {:induction false} LeftStripped(a: Line, b: Line)
    requires AllSpaces(a) && (b == [] || !IsSpace(b[0]))
    ensures StripLeft(a + b) == b
  {
    hide IsSpace;
    if a == [] {
      assert a + b == b;
    } else {
      LeftStripped(a[1..], b);
      assert (a + b)[1..] == a[1..] + b;
    }
  }

  lemma {:induction false} RightStripped(a: Line, b: Line)
    requires AllSpaces(b) && (a == [] || !IsSpace(a[|a| - 1]))
    ensures StripRight(a + b) == a
    decreases |b|
  {
    hide IsSpace;
    if b == [] {
      assert a + b == a;
    } else {
      RightStripped(a, b[..|b| - 1]);
      assert (a + b)[..|a + b| - 1] == a + b[..|b| - 1];
    }
  }

  /** Dropping newlines takes from the spaces at the end only. */
  lemma {:induction false} Chomped(a: Line, b: Line) returns (c: Line)
    requires AllSpaces(b) && a != [] && !IsSpace(a[|a| - 1])
    ensures Chomp(a + b) == a + c && AllSpaces(c)
    decreases |b|
  {
    if b != [] && b[|b| - 1] == NL {
      assert (a + b)[..|a + b| - 1] == a + b[..|b| - 1];
      c := Chomped(a, b[..|b| - 1]);
    } else {
      c := b;
      assert b == [] ==> a + b == a && a[|a| - 1] != NL;
    }
  }

  lemma QuotesAre(value: Line)
    ensures StripQuotes(value) != value ==> IsQuoted(value, StripQuotes(value))
    ensures forall inner :: IsQuoted(value, inner) ==> StripQuotes(value) == inner
  {
    assert Str("'") == [APOSTROPHE] && Str("\"") == [QUOTE];
    hide Str;
    if |value| >= 2 { assert value == [value[0]] + value[1..|value| - 1] + [value[|value| - 1]]; }
    forall inner | IsQuoted(value, inner) ensures StripQuotes(value) == inner {
      var q := value[0];
      assert value == [q] + inner + [q] && value[1..|value| - 1] == inner;
    }
  }

  /** The value on a key line: what stands behind the colon, without the spaces around it and one pair of quotes;
      nothing if that is empty. */
  lemma ScalarValueIs(pre: Line, key: Line, gap: Line, value: Line, post: Line)
    requires AllSpaces(pre) && AllSpaces(gap) && AllSpaces(post) && key != [] && !IsSpace(key[0]) && Stripped(value)
    ensures var r := ScalarValue(pre + (key + [COLON] + (gap + value)) + post, key);
      && (r == None <==> Unquotes(value, []))
      && forall v :: r == Some(v) <==> v != [] && Unquotes(value, v)
  {
    var body := key + [COLON] + (gap + value);
    assert (pre + body)[|pre + body| - 1] == value[|value| - 1];
    var c := Chomped(pre + body, post);
    assert pre + body + c == pre + (body + c);
    LeftStripped(pre, body + c);
    assert (body + c)[..|key| + 1] == key + [COLON];
    assert (body + c)[|key| + 1..] == gap + (value + c);
    LeftStripped(gap, value + c);
    RightStripped(value, c);
    QuotesAre(value);
    hide Chomp, StripLeft, StripRight, StripQuotes, IsSpace, IsQuoted;
  }

  /** The first block of this key with a value on its key line. */
  function FirstScalar(blocks: seq<Block>, key: Line): Option<Line> {
    if blocks == [] then None
    else
      var b := blocks[0];
      var v := if b.key == Some(key) && b.lines != [] then ScalarValue(b.lines[0], key) else None;
      if v.Some? then v else FirstScalar(blocks[1..], key)
  }

  function TopScalar(u: Tables, front: seq<Line>, key: Line): Option<Line> {
    FirstScalar(Blocks(u, front, 0), key)
  }

  function NestedIn(u: Tables, top: seq<Block>, parent: Line, key: Line): Option<Line> {
    if top == [] then None
    else
      var b := top[0];
      var v := if b.key == Some(parent) && b.lines != [] then FirstScalar(Blocks(u, b.lines[1..], 2), key) else None;
      if v.Some? then v else NestedIn(u, top[1..], parent, key)
  }

  function NestedScalar(u: Tables, front: seq<Line>, parent: Line, key: Line): Option<Line> {
    NestedIn(u, Blocks(u, front, 0), parent, key)
  }

  lemma {:induction false} FirstScalarAdds(a: seq<Block>, b: seq<Block>, key: Line)
    ensures FirstScalar(a + b, key) == if FirstScalar(a, key).Some? then FirstScalar(a, key) else FirstScalar(b, key)
  {
    hide ScalarValue;
    if a == [] {
      assert a + b == b;
    } else {
      FirstScalarAdds(a[1..], b, key);
      assert (a + b)[1..] == a[1..] + b;
    }
  }

  lemma {:induction false} ExtendedScalar(subs: seq<Block>, entry: seq<Line>, key: Line)
    requires forall i :: 0 <= i < |subs| ==> subs[i].lines != []
    ensures FirstScalar(ExtendSources(subs, entry), key) == FirstScalar(subs, key)
  {
    hide ScalarValue;
    if subs != [] { ExtendedScalar(subs[1..], entry, key); }
  }

  lemma HeadersHoldNothing(entry: seq<Line>, key: Line)
    ensures FirstScalar([NewSources(entry)], key).None? && FirstScalar([NewMetadata(entry)], key).None?
  {
    BareKey([SPACE, SPACE], SOURCES);
    BareKey([], METADATA);
    assert [] + METADATA + [COLON, NL] == MetadataLine();
    hide ScalarValue;
    assert [NewSources(entry)][1..] == [] && [NewMetadata(entry)][1..] == [];
  }

  /** A key with nothing behind it has no value. */
  lemma BareKey(margin: Line, key: Line)
    requires (margin == [] || margin == [SPACE, SPACE]) && (key == METADATA || key == SOURCES)
    ensures ScalarValue(margin + key + [COLON, NL], key).None?
  {
    var header := key + [COLON];
    ChompOne(margin + header);
    MarginStrips(margin, header);
    assert margin + header + [NL] == margin + key + [COLON, NL];
    BareValue(margin + key + [COLON, NL], key);
  }

  lemma ChompOne(t: Line)
    requires t != [] && t[|t| - 1] != NL
    ensures Chomp(t + [NL]) == t
  {
    assert (t + [NL])[..|t|] == t;
  }

  lemma MarginStrips(margin: Line, t: Line)
    requires (margin == [] || margin == [SPACE, SPACE]) && t != [] && !IsSpace(t[0])
    ensures StripLeft(margin + t) == t
  {
    if margin == [] {
      assert margin + t == t;
    } else {
      var one := [SPACE] + t;
      assert (margin + t)[1..] == one && one[1..] == t;
      assert StripLeft(one) == StripLeft(t) == t;
    }
  }

  lemma BareValue(line: Line, key: Line)
    requires StripLeft(Chomp(line)) == key + [COLON]
    ensures ScalarValue(line, key).None?
  {
    hide Chomp;
    assert (key + [COLON])[|key| + 1..] == [];
  }

  lemma SameSubScalars(u: Tables, lines: seq<Line>, entry: seq<Line>, key: Line)
    requires lines != [] && IsEntry(entry)
    ensures FirstScalar(Blocks(u, InMetadata(u, lines, entry)[1..], 2), key) ==
      FirstScalar(Blocks(u, lines[1..], 2), key)
  {
    hide Blocks, ExtendSources, LinesOf, FirstScalar, IsEntry;
    var subs := Blocks(u, lines[1..], 2);
    SubsFound(u, lines[1..], entry);
    assert InMetadata(u, lines, entry)[1..] == LinesOf(MetadataSubs(subs, entry));
    BlocksNonempty(u, lines[1..], 2);
    ExtendedScalar(subs, entry, key);
    FirstScalarAdds(ExtendSources(subs, entry), [NewSources(entry)], key);
    HeadersHoldNothing(entry, key);
    assert ExtendSources(subs, entry) + [] == ExtendSources(subs, entry);
  }

  lemma BlocksNonempty(u: Tables, lines: seq<Line>, indent: nat)
    ensures forall i :: 0 <= i < |Blocks(u, lines, indent)| ==> Blocks(u, lines, indent)[i].lines != []
  {
    hide Blocks, KeyOf;
    BlocksLossless(u, lines, indent);
    forall i | 0 <= i < |Blocks(u, lines, indent)| ensures Blocks(u, lines, indent)[i].lines != [] {
      assert IsBlock(u, Blocks(u, lines, indent)[i], indent);
    }
  }

  lemma {:induction false} ExtendedTopScalar(u: Tables, top: seq<Block>, entry: seq<Line>, key: Line)
    ensures FirstScalar(ExtendMetadata(u, top, entry), key) == FirstScalar(top, key)
  {
    hide ScalarValue, MetadataSubs, Blocks;
    if top != [] { ExtendedTopScalar(u, top[1..], entry, key); }
  }

  lemma {:induction false} ExtendedNested(u: Tables, top: seq<Block>, entry: seq<Line>, parent: Line, key: Line)
    requires IsEntry(entry)
    ensures NestedIn(u, ExtendMetadata(u, top, entry), parent, key) == NestedIn(u, top, parent, key)
  {
    hide FirstScalar, InMetadata, Blocks, IsEntry;
    if top != [] {
      ExtendedNested(u, top[1..], entry, parent, key);
      if top[0].key == Some(METADATA) && top[0].lines != [] {
        SameSubScalars(u, top[0].lines, entry, key);
        StillNonempty(u, top[0].lines, entry);
      }
    }
  }

  lemma StillNonempty(u: Tables, lines: seq<Line>, entry: seq<Line>)
    requires lines != []
    ensures InMetadata(u, lines, entry) != []
  {}

  lemma {:induction false} NestedAdds(u: Tables, a: seq<Block>, b: seq<Block>, parent: Line, key: Line)
    ensures NestedIn(u, a + b, parent, key) == if NestedIn(u, a, parent, key).Some? then NestedIn(u, a, parent, key)
      else NestedIn(u, b, parent, key)
  {
    hide FirstScalar, Blocks;
    if a == [] {
      assert a + b == b;
    } else {
      NestedAdds(u, a[1..], b, parent, key);
      assert (a + b)[1..] == a[1..] + b;
    }
  }

  lemma NewMetadataNested(u: Tables, entry: seq<Line>, parent: Line, key: Line)
    requires IsEntry(entry)
    ensures NestedIn(u, [NewMetadata(entry)], parent, key).None?
  {
    hide Blocks, FirstScalar, IsEntry;
    var b := NewMetadata(entry);
    assert b.lines[1..] == [SourcesLine()] + entry;
    NewSourcesIsBlock(u, entry);
    assert LinesOf([NewSources(entry)][1..]) == [];
    assert LinesOf([NewSources(entry)]) == NewSources(entry).lines + [];
    BlocksFound(u, [NewSources(entry)], 2);
    HeadersHoldNothing(entry, key);
    assert NewSources(entry).lines + [] == NewSources(entry).lines == b.lines[1..];
    assert LinesOf([NewSources(entry)]) == b.lines[1..];
    assert Blocks(u, b.lines[1..], 2) == [NewSources(entry)];
    NestedInOne(u, b, parent, key);
  }

  lemma NestedInOne(u: Tables, b: Block, parent: Line, key: Line)
    requires b.lines != []
    ensures NestedIn(u, [b], parent, key) ==
      if b.key == Some(parent) then FirstScalar(Blocks(u, b.lines[1..], 2), key) else None
  {
    hide Blocks, FirstScalar;
    var none: seq<Block> := [];
    assert NestedIn(u, none, parent, key) == None;
    assert [b][1..] == none;
  }

  /** Neither lookup, for any key at all, sees a difference after injection. */
  lemma LookupsUnchanged(u: Tables, front: seq<Line>, entry: seq<Line>, parent: Line, key: Line)
    requires IsEntry(entry)
    ensures TopScalar(u, Injected(u, front, entry), key) == TopScalar(u, front, key)
    ensures NestedScalar(u, Injected(u, front, entry), parent, key) == NestedScalar(u, front, parent, key)
  {
    hide Blocks, ExtendMetadata, FirstScalar, NestedIn, IsEntry, Injected;
    var top := Blocks(u, front, 0);
    var more := ExtendMetadata(u, top, entry);
    TopFound(u, front, entry);
    ExtendedTopScalar(u, top, entry, key);
    ExtendedNested(u, top, entry, parent, key);
    FirstScalarAdds(more, [NewMetadata(entry)], key);
    NestedAdds(u, more, [NewMetadata(entry)], parent, key);
    HeadersHoldNothing(entry, key);
    NewMetadataNested(u, entry, parent, key);
    assert more + [] == more;
  }
}
