/** What injecting a source entry does to the file: it only adds lines, and the file reads back as injected. */
module FrontmatterInsertion {
  import opened Options
  import opened CodePoints
  import opened Frontmatter
  import opened SourceEntries

  // ------------------------------------------------------------------------ only adds

  /** b is a with lines from added put in between: nothing removed, nothing reordered. */
  predicate Woven(a: seq<Line>, b: seq<Line>, added: set<Line>) {
    if b == [] then a == []
    else (a != [] && a[0] == b[0] && Woven(a[1..], b[1..], added)) || (b[0] in added && Woven(a, b[1..], added))
  }

  lemma {:induction false} WovenSame(a: seq<Line>, added: set<Line>)
    ensures Woven(a, a, added)
  {
    if a != [] { WovenSame(a[1..], added); }
  }

  lemma {:induction false} WovenAll(b: seq<Line>, added: set<Line>)
    requires forall i :: 0 <= i < |b| ==> b[i] in added
    ensures Woven([], b, added)
  {
    if b != [] { WovenAll(b[1..], added); }
  }

  lemma {:induction false} WovenAdds(a: seq<Line>, b: seq<Line>, c: seq<Line>, d: seq<Line>, added: set<Line>)
    requires Woven(a, b, added) && Woven(c, d, added)
    ensures Woven(a + c, b + d, added)
    decreases |b|
  {
    if b == [] {
      assert a + c == c && b + d == d;
    } else {
      assert (b + d)[1..] == b[1..] + d && (b + d)[0] == b[0];
      if a != [] && a[0] == b[0] && Woven(a[1..], b[1..], added) {
        WovenAdds(a[1..], b[1..], c, d, added);
        assert (a + c)[1..] == a[1..] + c && (a + c)[0] == a[0];
      } else {
        WovenAdds(a, b[1..], c, d, added);
      }
    }
  }

  function AddedLines(entry: seq<Line>): set<Line> {
    {MetadataLine(), SourcesLine()} + set l | l in entry
  }

  lemma Appended(a: seq<Line>, run: seq<Line>, entry: seq<Line>)
    requires forall i :: 0 <= i < |run| ==> run[i] in AddedLines(entry)
    ensures Woven(a, a + run, AddedLines(entry))
  {
    hide AddedLines, Woven;
    WovenSame(a, AddedLines(entry));
    WovenAll(run, AddedLines(entry));
    WovenAdds(a, a, [], run, AddedLines(entry));
    assert a + [] == a;
  }

  lemma {:induction false} SourcesWoven(subs: seq<Block>, entry: seq<Line>)
    ensures Woven(LinesOf(subs), LinesOf(ExtendSources(subs, entry)), AddedLines(entry))
  {
    if subs != [] {
      var b := subs[0];
      var l := if b.key == Some(SOURCES) then b.lines + entry else b.lines;
      SourcesWoven(subs[1..], entry);
      WovenSame(b.lines, AddedLines(entry));
      Appended(b.lines, entry, entry);
      assert LinesOf(ExtendSources(subs, entry)) == l + LinesOf(ExtendSources(subs, entry)[1..]);
      assert ExtendSources(subs, entry)[1..] == ExtendSources(subs[1..], entry);
      hide Woven, LinesOf, AddedLines, ExtendSources;
      WovenAdds(b.lines, l, LinesOf(subs[1..]), LinesOf(ExtendSources(subs[1..], entry)), AddedLines(entry));
    }
  }

  lemma SubsWoven(subs: seq<Block>, entry: seq<Line>)
    ensures Woven(LinesOf(subs), LinesOf(MetadataSubs(subs, entry)), AddedLines(entry))
  {
    var added, grown := AddedLines(entry), NewSources(entry).lines;
    assert forall i :: 0 <= i < |grown| ==> grown[i] in added;
    hide LinesOf, ExtendSources, Woven, AddedLines, NewSources;
    var lines, out := LinesOf(subs), LinesOf(ExtendSources(subs, entry));
    SourcesWoven(subs, entry);
    assert ExtendSources(subs, entry) + [] == ExtendSources(subs, entry);
    LinesOfSnoc(ExtendSources(subs, entry), NewSources(entry));
    WovenAll(grown, added);
    WovenAdds(lines, out, [], grown, added);
    assert lines + [] == lines;
  }

  lemma MetadataWoven(u: Tables, lines: seq<Line>, entry: seq<Line>)
    requires lines != []
    ensures Woven(lines, InMetadata(u, lines, entry), AddedLines(entry))
  {
    var subs := Blocks(u, lines[1..], 2);
    hide Blocks, LinesOf, MetadataSubs, Woven, AddedLines;
    BlocksLossless(u, lines[1..], 2);
    SubsWoven(subs, entry);
    WovenSame([lines[0]], AddedLines(entry));
    assert lines == [lines[0]] + lines[1..];
    WovenAdds([lines[0]], [lines[0]], lines[1..], LinesOf(MetadataSubs(subs, entry)), AddedLines(entry));
  }

  lemma {:induction false} TopWoven(u: Tables, top: seq<Block>, entry: seq<Line>)
    ensures Woven(LinesOf(top), LinesOf(ExtendMetadata(u, top, entry)), AddedLines(entry))
  {
    hide InMetadata;
    if top != [] {
      var b := top[0];
      var l := if b.key == Some(METADATA) && b.lines != [] then InMetadata(u, b.lines, entry) else b.lines;
      TopWoven(u, top[1..], entry);
      WovenSame(b.lines, AddedLines(entry));
      if b.key == Some(METADATA) && b.lines != [] { MetadataWoven(u, b.lines, entry); }
      assert LinesOf(ExtendMetadata(u, top, entry)) == l + LinesOf(ExtendMetadata(u, top, entry)[1..]);
      assert ExtendMetadata(u, top, entry)[1..] == ExtendMetadata(u, top[1..], entry);
      hide Woven, LinesOf, AddedLines, ExtendMetadata;
      WovenAdds(b.lines, l, LinesOf(top[1..]), LinesOf(ExtendMetadata(u, top[1..], entry)), AddedLines(entry));
    }
  }

  /** For every frontmatter, injection only adds lines of the entry and its headers; existing lines all stay, in
      order. */
  lemma OnlyAdds(u: Tables, front: seq<Line>, entry: seq<Line>)
    ensures Woven(front, Injected(u, front, entry), AddedLines(entry))
  {
    var added, grown := AddedLines(entry), NewMetadata(entry).lines;
    assert forall i :: 0 <= i < |grown| ==> grown[i] in added;
    hide Blocks, LinesOf, ExtendMetadata, Woven, AddedLines;
    var top := Blocks(u, front, 0);
    var out := ExtendMetadata(u, top, entry);
    BlocksLossless(u, front, 0);
    TopWoven(u, top, entry);
    assert out + [] == out;
    if !HasKey(top, METADATA) {
      LinesOfSnoc(out, NewMetadata(entry));
      WovenAll(grown, added);
      WovenAdds(front, LinesOf(out), [], grown, added);
      assert front + [] == front;
    }
  }

  // -------------------------------------------------------------- one contiguous run

  predicate InsertedAt(a: seq<Line>, out: seq<Line>, run: seq<Line>, k: nat) {
    k <= |a| && out == a[..k] + run + a[k..]
  }

  predicate InsertedOnce(a: seq<Line>, out: seq<Line>, run: seq<Line>) {
    exists k :: 0 <= k <= |a| && InsertedAt(a, out, run, k)
  }

  function CountKey(blocks: seq<Block>, key: Line): nat {
    if blocks == [] then 0 else (if blocks[0].key == Some(key) then 1 else 0) + CountKey(blocks[1..], key)
  }

  function SourcesIn(u: Tables, b: Block): nat {
    if b.lines == [] then 0 else CountKey(Blocks(u, b.lines[1..], 2), SOURCES)
  }

  /** At most one metadata block, and in it at most one sources block. */
  predicate AtMostOne(u: Tables, top: seq<Block>) {
    CountKey(top, METADATA) <= 1 && forall i :: 0 <= i < |top| && top[i].key == Some(METADATA) ==>
      SourcesIn(u, top[i]) <= 1
  }

  lemma InsertedWithin(p: seq<Line>, a: seq<Line>, q: seq<Line>, out: seq<Line>, run: seq<Line>)
    requires InsertedOnce(a, out, run)
    ensures InsertedOnce(p + a + q, p + out + q, run)
  {
    var k :| 0 <= k <= |a| && InsertedAt(a, out, run, k);
    var whole := p + a + q;
    assert whole[..|p| + k] == p + a[..k] && whole[|p| + k..] == a[k..] + q;
    assert p + out + q == whole[..|p| + k] + run + whole[|p| + k..];
    assert InsertedAt(whole, p + out + q, run, |p| + k);
  }

  lemma InsertedAtEnd(a: seq<Line>, run: seq<Line>)
    ensures InsertedOnce(a, a + run, run)
  {
    assert a[..|a|] == a && a[|a|..] == [] && a + run + [] == a + run;
    assert InsertedAt(a, a + run, run, |a|);
  }

  lemma {:induction false} CountIsKey(blocks: seq<Block>, key: Line)
    ensures HasKey(blocks, key) <==> CountKey(blocks, key) > 0
  {
    if blocks != [] {
      CountIsKey(blocks[1..], key);
      if HasKey(blocks[1..], key) {
        var i :| 0 <= i < |blocks[1..]| && blocks[1..][i].key == Some(key);
        assert blocks[i + 1].key == Some(key);
      }
      if HasKey(blocks, key) && blocks[0].key != Some(key) {
        var i :| 0 <= i < |blocks| && blocks[i].key == Some(key);
        assert blocks[1..][i - 1].key == Some(key);
      }
    }
  }

  lemma {:induction false} SourcesLength(subs: seq<Block>, entry: seq<Line>)
    requires |entry| == 5
    ensures |LinesOf(ExtendSources(subs, entry))| == |LinesOf(subs)| + 5 * CountKey(subs, SOURCES)
    ensures CountKey(subs, SOURCES) == 0 ==> ExtendSources(subs, entry) == subs
  {
    if subs != [] { SourcesLength(subs[1..], entry); }
  }

  lemma {:induction false} SourcesOnce(subs: seq<Block>, entry: seq<Line>)
    requires |entry| == 5 && CountKey(subs, SOURCES) == 1
    ensures InsertedOnce(LinesOf(subs), LinesOf(ExtendSources(subs, entry)), entry)
  {
    var b, rest := subs[0], LinesOf(subs[1..]);
    var more := LinesOf(ExtendSources(subs[1..], entry));
    SourceLines(subs, entry);
    hide InsertedOnce, LinesOf, ExtendSources;
    if b.key == Some(SOURCES) {
      SourcesLength(subs[1..], entry);
      InsertedBehind(b.lines, rest, entry);
    } else {
      SourcesOnce(subs[1..], entry);
      InsertedAfter(b.lines, rest, more, entry);
    }
  }

  lemma InsertedBehind(a: seq<Line>, rest: seq<Line>, run: seq<Line>)
    ensures InsertedOnce(a + rest, a + run + rest, run)
  {
    hide InsertedOnce;
    InsertedAtEnd(a, run);
    InsertedWithin([], a, rest, a + run, run);
    assert [] + a + rest == a + rest && [] + (a + run) + rest == a + run + rest;
  }

  lemma InsertedAfter(a: seq<Line>, rest: seq<Line>, out: seq<Line>, run: seq<Line>)
    requires InsertedOnce(rest, out, run)
    ensures InsertedOnce(a + rest, a + out, run)
  {
    hide InsertedOnce;
    InsertedWithin(a, rest, [], out, run);
    assert a + rest + [] == a + rest && a + out + [] == a + out;
  }

  lemma SourceLines(subs: seq<Block>, entry: seq<Line>)
    requires subs != []
    ensures LinesOf(subs) == subs[0].lines + LinesOf(subs[1..])
    ensures LinesOf(ExtendSources(subs, entry)) ==
      (if subs[0].key == Some(SOURCES) then subs[0].lines + entry else subs[0].lines) +
        LinesOf(ExtendSources(subs[1..], entry))
  {
    assert ExtendSources(subs, entry)[1..] == ExtendSources(subs[1..], entry);
  }

  /** The three things a run of inserted lines can be. */
  predicate IsRun(run: seq<Line>, entry: seq<Line>) {
    run == entry || run == [SourcesLine()] + entry || run == [MetadataLine()] + ([SourcesLine()] + entry)
  }

  lemma MetadataOnce(u: Tables, b: Block, entry: seq<Line>) returns (run: seq<Line>)
    requires b.lines != [] && |entry| == 5 && SourcesIn(u, b) <= 1
    ensures IsRun(run, entry) && InsertedOnce(b.lines, InMetadata(u, b.lines, entry), run)
  {
    hide Blocks, LinesOf, ExtendSources, InsertedOnce;
    var head, rest := [b.lines[0]], b.lines[1..];
    var subs := Blocks(u, rest, 2);
    BlocksLossless(u, rest, 2);
    CountIsKey(subs, SOURCES);
    assert b.lines == head + rest + [];
    assert ExtendSources(subs, entry) + [] == ExtendSources(subs, entry);
    if HasKey(subs, SOURCES) {
      run := entry;
      SourcesOnce(subs, entry);
      InsertedWithin(head, rest, [], LinesOf(ExtendSources(subs, entry)), run);
      assert head + LinesOf(ExtendSources(subs, entry)) + [] == InMetadata(u, b.lines, entry);
    } else {
      run := [SourcesLine()] + entry;
      SourcesLength(subs, entry);
      LinesOfSnoc(subs, NewSources(entry));
      InsertedAtEnd(rest, run);
      InsertedWithin(head, rest, [], rest + run, run);
      assert head + (rest + run) + [] == InMetadata(u, b.lines, entry);
    }
  }

  lemma MetadataLength(u: Tables, b: Block, entry: seq<Line>)
    requires b.lines != [] && |entry| == 5
    ensures |InMetadata(u, b.lines, entry)| >= |b.lines| + 5
    ensures SourcesIn(u, b) > 1 ==> |InMetadata(u, b.lines, entry)| >= |b.lines| + 10
  {
    hide Blocks, LinesOf, ExtendSources;
    var subs := Blocks(u, b.lines[1..], 2);
    BlocksLossless(u, b.lines[1..], 2);
    CountIsKey(subs, SOURCES);
    SourcesLength(subs, entry);
    LinesOfSnoc(ExtendSources(subs, entry), NewSources(entry));
    assert ExtendSources(subs, entry) + [] == ExtendSources(subs, entry);
  }

  lemma {:induction false} TopUntouched(u: Tables, top: seq<Block>, entry: seq<Line>)
    requires CountKey(top, METADATA) == 0
    ensures ExtendMetadata(u, top, entry) == top
  {
    if top != [] { TopUntouched(u, top[1..], entry); }
  }

  lemma TopLines(u: Tables, top: seq<Block>, entry: seq<Line>)
    requires top != [] && top[0].lines != []
    ensures LinesOf(top) == top[0].lines + LinesOf(top[1..])
    ensures LinesOf(ExtendMetadata(u, top, entry)) ==
      (if top[0].key == Some(METADATA) then InMetadata(u, top[0].lines, entry) else top[0].lines)
      + LinesOf(ExtendMetadata(u, top[1..], entry))
  {
    hide InMetadata;
    assert ExtendMetadata(u, top, entry)[1..] == ExtendMetadata(u, top[1..], entry);
  }

  lemma {:induction false} TopOnce(u: Tables, top: seq<Block>, entry: seq<Line>) returns (run: seq<Line>)
    requires |entry| == 5 && AtMostOne(u, top) && CountKey(top, METADATA) == 1
    requires forall i :: 0 <= i < |top| ==> top[i].lines != []
    ensures IsRun(run, entry) && InsertedOnce(LinesOf(top), LinesOf(ExtendMetadata(u, top, entry)), run)
  {
    hide InMetadata, SourcesIn, LinesOf, ExtendMetadata, InsertedOnce;
    var b, rest := top[0], LinesOf(top[1..]);
    TopLines(u, top, entry);
    if b.key == Some(METADATA) {
      run := MetadataOnce(u, b, entry);
      TopUntouched(u, top[1..], entry);
      InsertedWithin([], b.lines, rest, InMetadata(u, b.lines, entry), run);
      assert [] + b.lines + rest == b.lines + rest;
      assert [] + InMetadata(u, b.lines, entry) + rest == InMetadata(u, b.lines, entry) + rest;
    } else {
      run := TopOnce(u, top[1..], entry);
      var more := LinesOf(ExtendMetadata(u, top[1..], entry));
      InsertedWithin(b.lines, rest, [], more, run);
      assert b.lines + rest + [] == b.lines + rest && b.lines + more + [] == b.lines + more;
    }
  }

  lemma {:induction false} TopLength(u: Tables, top: seq<Block>, entry: seq<Line>)
    requires |entry| == 5 && forall i :: 0 <= i < |top| ==> top[i].lines != []
    ensures |LinesOf(ExtendMetadata(u, top, entry))| >= |LinesOf(top)| + 5 * CountKey(top, METADATA)
    ensures !AtMostOne(u, top) ==> |LinesOf(ExtendMetadata(u, top, entry))| >= |LinesOf(top)| + 10
  {
    hide InMetadata, SourcesIn, LinesOf, ExtendMetadata;
    if top == [] {
      assert |LinesOf(ExtendMetadata(u, top, entry))| >= |LinesOf(top)| by { EmptyTop(u, entry); }
    } else {
      TopLines(u, top, entry);
      TopLength(u, top[1..], entry);
      MetadataLength(u, top[0], entry);
      AtMostOneHere(u, top);
    }
  }

  lemma AtMostOneHere(u: Tables, top: seq<Block>)
    requires top != []
    ensures AtMostOne(u, top) <==>
      && CountKey(top, METADATA) <= 1 && AtMostOne(u, top[1..])
      && (top[0].key == Some(METADATA) ==> SourcesIn(u, top[0]) <= 1)
  {
    hide SourcesIn;
    var rest := top[1..];
    if AtMostOne(u, top) {
      assert forall i :: 0 <= i < |rest| ==> rest[i] == top[i + 1];
    }
    if AtMostOne(u, rest) {
      assert forall i :: 0 < i < |top| ==> top[i] == rest[i - 1];
    }
  }

  lemma EmptyTop(u: Tables, entry: seq<Line>)
    ensures LinesOf(ExtendMetadata(u, [], entry)) == LinesOf([])
  {}

  /** Injection is one contiguous insertion exactly when there is at most one metadata block with at most one sources
      block. */
  lemma InsertionIff(u: Tables, front: seq<Line>, entry: seq<Line>)
    requires |entry| == 5
    ensures AtMostOne(u, Blocks(u, front, 0)) <==>
      exists run :: IsRun(run, entry) && InsertedOnce(front, Injected(u, front, entry), run)
  {
    hide Blocks, LinesOf, ExtendMetadata, SourcesIn, InsertedOnce;
    var top := Blocks(u, front, 0);
    var out := ExtendMetadata(u, top, entry);
    BlocksLossless(u, front, 0);
    BlocksNonempty(u, front, 0);
    CountIsKey(top, METADATA);
    TopLength(u, top, entry);
    assert out + [] == out;
    if AtMostOne(u, top) {
      if HasKey(top, METADATA) {
        var run := TopOnce(u, top, entry);
      } else {
        var run := NewMetadata(entry).lines;
        TopUntouched(u, top, entry);
        LinesOfSnoc(top, NewMetadata(entry));
        InsertedAtEnd(front, run);
        assert IsRun(run, entry);
      }
    }
    if run :| IsRun(run, entry) && InsertedOnce(front, Injected(u, front, entry), run) {
      InsertedLength(front, Injected(u, front, entry), run);
    }
  }

  /** Frontmatter with two metadata blocks, both bare: injection adds to each, in no single run. */
  lemma TwoMetadataBlocks(u: Tables, entry: seq<Line>) returns (front: seq<Line>)
    requires |entry| == 5
    ensures front == [MetadataLine(), MetadataLine()]
    ensures !exists run :: IsRun(run, entry) && InsertedOnce(front, Injected(u, front, entry), run)
  {
    front := [MetadataLine(), MetadataLine()];
    var b := Block(Some(METADATA), [MetadataLine()]);
    var top := [b, b];
    HeaderKeys(u);
    hide KeyOf, Blocks, Injected, InsertedOnce;
    assert top[1..] == [b] && [b][1..] == [];
    assert LinesOf([b][1..]) == [];
    assert LinesOf([b]) == b.lines + LinesOf([b][1..]);
    assert LinesOf(top) == b.lines + LinesOf(top[1..]) == front;
    BlocksFound(u, top, 0);
    assert CountKey([b][1..], METADATA) == 0;
    assert CountKey([b], METADATA) == 1 + CountKey([b][1..], METADATA);
    assert CountKey(top, METADATA) == 1 + CountKey(top[1..], METADATA) == 2;
    InsertionIff(u, front, entry);
  }

  lemma InsertedLength(a: seq<Line>, out: seq<Line>, run: seq<Line>)
    requires InsertedOnce(a, out, run)
    ensures |out| == |a| + |run|
  {
    var k :| 0 <= k <= |a| && InsertedAt(a, out, run, k);
  }

  // -------------------------------------------------------------------- reading back

  /** A line that can stand between any two others. */
  predicate Good(l: Line) {
    IsLine(l) && l[0] != NL && l[|l| - 1] == NL && !IsFence(l)
  }

  lemma {:induction false} BreakAtEnd(l: Line)
    requires l != [] && BreakFree(l[..|l| - 1]) && l[|l| - 1] == NL
    ensures IsLine(l)
  {
    if |l| > 1 {
      assert !IsBreak(l[..|l| - 1][0]);
      assert l[1..][..|l[1..]| - 1] == l[..|l| - 1][1..];
      BreakAtEnd(l[1..]);
    }
  }

  lemma GoodEntryLine(prefix: string, value: Line)
    requires |prefix| > 4 && prefix[0] == ' ' && (forall i :: 0 <= i < |prefix| ==> ' ' <= prefix[i] <= '~')
    requires BreakFree(value)
    ensures Good(Str(prefix) + value + [NL])
  {
    var l := Str(prefix) + value + [NL];
    assert l[..|l| - 1] == Str(prefix) + value;
    assert BreakFree(Str(prefix) + value);
    BreakAtEnd(l);
    NotFence(l);
  }

  lemma NotFence(l: Line)
    requires l != [] && l[0] != HYPHEN
    ensures !IsFence(l)
    decreases |l|
  {
    if l[|l| - 1] == NL && |l| > 1 { NotFence(l[..|l| - 1]); }
    if |l| == 1 && l[0] == NL { assert Chomp(l) == Chomp(l[..0]) == []; }
  }

  lemma RenderedBreakFree(value: Line)
    requires BreakFree(value)
    ensures BreakFree(YamlScalar(value))
  {
    EscapedBreakFree(value);
    hide NeedsQuotes;
  }

  lemma EntryGood(path: Line, license: Line, attribution: Line)
    requires BreakFree(path) && BreakFree(license) && BreakFree(attribution)
    ensures forall i :: 0 <= i < 5 ==> Good(EntryLines(path, license, attribution)[i])
  {
    RenderedBreakFree(path);
    RenderedBreakFree(license);
    RenderedBreakFree(attribution);
    hide YamlScalar, Str, Good, BreakFree;
    ValueLinesGood(YamlScalar(path), YamlScalar(license), YamlScalar(attribution));
    FixedLinesGood();
  }

  lemma ValueLinesGood(path: Line, license: Line, attribution: Line)
    requires BreakFree(path) && BreakFree(license) && BreakFree(attribution)
    ensures Good(Str("    - path: ") + path + [NL]) && Good(Str("      license: ") + license + [NL])
    ensures Good(Str("      attribution: ") + attribution + [NL])
  {
    hide Str, Good, BreakFree;
    GoodEntryLine("    - path: ", path);
    GoodEntryLine("      license: ", license);
    GoodEntryLine("      attribution: ", attribution);
  }

  lemma FixedLinesGood()
    ensures Good(Str("      kind: github") + [NL]) && Good(Str("      usage: vendored") + [NL])
  {
    NothingBreaks();
    hide Str, Good, BreakFree;
    GoodEntryLine("      kind: github", []);
    GoodEntryLine("      usage: vendored", []);
    assert Str("      kind: github") + [] + [NL] == Str("      kind: github") + [NL];
    assert Str("      usage: vendored") + [] + [NL] == Str("      usage: vendored") + [NL];
  }

  lemma NothingBreaks()
    ensures BreakFree([])
  {}

  lemma HeadersGood()
    ensures Good(MetadataLine()) && Good(SourcesLine())
  {
    MetadataGood();
    SourcesGood();
  }

  lemma MetadataGood()
    ensures Good(MetadataLine())
  {
    var m := MetadataLine();
    assert m[..|m| - 1] == METADATA + [COLON];
    BreakAtEnd(m);
    NotFence(m);
  }

  lemma SourcesGood()
    ensures Good(SourcesLine())
  {
    var s := SourcesLine();
    assert s[..|s| - 1] == [SPACE, SPACE] + SOURCES + [COLON];
    BreakAtEnd(s);
    NotFence(s);
  }

  /** Between an ending line and more lines, good lines can be woven in anywhere. */
  lemma {:induction false} WovenProper(prev: Line, a: seq<Line>, b: seq<Line>, tail: seq<Line>, added: set<Line>)
    requires Proper([prev] + (a + tail)) && tail != [] && Woven(a, b, added) && forall l :: l in added ==> Good(l)
    ensures Proper([prev] + (b + tail))
    decreases |b|
  {
    hide LineEnd, IsBreak, IsFence;
    var lines := [prev] + (a + tail);
    assert lines[1..] == a + tail;
    if b == [] {
    } else {
      var rest := b[1..] + tail;
      assert b + tail == [b[0]] + rest;
      if a != [] && a[0] == b[0] && Woven(a[1..], b[1..], added) {
        assert a + tail == [a[0]] + (a[1..] + tail);
        WovenProper(a[0], a[1..], b[1..], tail, added);
      } else {
        GoodBetween(prev, b[0], a + tail);
        WovenProper(b[0], a, b[1..], tail, added);
        assert ([b[0]] + rest)[0] == b[0];
      }
      assert ([prev] + (b + tail))[1..] == [b[0]] + rest;
    }
  }

  lemma GoodBetween(prev: Line, l: Line, rest: seq<Line>)
    requires Proper([prev] + rest) && rest != [] && Good(l)
    ensures Proper([l] + rest) && Follows(prev, l)
  {
    hide LineEnd, IsFence;
    assert ([prev] + rest)[1..] == rest && ([l] + rest)[1..] == rest;
  }

  /** A fence that is not the last line is the opening one. */
  lemma FenceIsOpening(l: Line)
    requires IsFence(l) && IsLine(l) && IsBreak(l[|l| - 1])
    ensures l == OPENING
  {
    assert l[|l| - 1] == NL;
    var s := l[..|l| - 1];
    if s != [] && s[|s| - 1] == NL { EarlyBreak(l, |s| - 1); assert false; }
    assert Chomp(s) == s == [HYPHEN, HYPHEN, HYPHEN];
    assert l == s + [NL];
  }

  lemma {:induction false} EarlyBreak(l: Line, i: nat)
    requires i < |l| - 1 && l[i] == NL
    ensures LineEnd(l) <= i + 1
  {
    if i > 0 && !IsBreak(l[0]) { EarlyBreak(l[1..], i - 1); }
  }

  lemma {:induction false} WovenNoFence(a: seq<Line>, b: seq<Line>, added: set<Line>)
    requires Woven(a, b, added) && (forall l :: l in added ==> !IsFence(l))
      && (forall i :: 0 <= i < |a| ==> !IsFence(a[i]))
    ensures forall i :: 0 <= i < |b| ==> !IsFence(b[i])
    decreases |b|
  {
    hide IsFence;
    if b != [] {
      if a != [] && a[0] == b[0] && Woven(a[1..], b[1..], added) {
        WovenNoFence(a[1..], b[1..], added);
      } else {
        WovenNoFence(a, b[1..], added);
      }
    }
  }

  /** The lines of a text with frontmatter. */
  lemma Anatomy(text: Line) returns (rest: seq<Line>)
    requires SplitFrontmatter(text).Some?
    ensures var s := SplitFrontmatter(text).value;
      && rest != [] && IsFence(rest[0]) && Join(rest) == s.tail
      && (forall i :: 0 <= i < |s.front| ==> !IsFence(s.front[i]))
      && SplitLines(text) == [OPENING] + (s.front + rest) && Proper([OPENING] + (s.front + rest))
  {
    var lines := SplitLines(text);
    var s := SplitFrontmatter(text).value;
    SplitIsProper(text);
    var end := FenceFrom(lines, 1).value;
    rest := lines[end..];
    hide Proper, IsFence, SplitLines;
    assert lines[1..] == s.front + rest;
    assert lines == [lines[0]] + (s.front + rest);
    NotLast(lines);
    FenceIsOpening(lines[0]);
  }

  lemma NotLast(lines: seq<Line>)
    requires Proper(lines) && |lines| > 1
    ensures IsLine(lines[0]) && IsBreak(lines[0][|lines[0]| - 1])
  {}

  lemma {:induction false} FenceFound(front: seq<Line>, rest: seq<Line>)
    requires rest != [] && IsFence(rest[0]) && forall i :: 0 <= i < |front| ==> !IsFence(front[i])
    ensures FenceFrom([OPENING] + (front + rest), 1) == Some(1 + |front|)
  {
    hide IsFence;
    var lines := [OPENING] + (front + rest);
    assert lines[1 + |front|] == rest[0];
    forall j | 1 <= j < 1 + |front| ensures !IsFence(lines[j]) {
      assert lines[j] == front[j - 1];
    }
  }

  /** Lines put back between the opening and the rest are read as exactly the frontmatter. */
  lemma ReadsFront(front: seq<Line>, rest: seq<Line>)
    requires Proper([OPENING] + (front + rest)) && rest != [] && IsFence(rest[0])
    requires forall i :: 0 <= i < |front| ==> !IsFence(front[i])
    ensures SplitFrontmatter(OPENING + Join(front) + Join(rest)) == Some(Split(front, Join(rest)))
  {
    var lines := [OPENING] + (front + rest);
    hide Proper, IsFence, FenceFrom, SplitLines;
    SplitOfJoin(lines);
    JoinAdds([OPENING], front + rest);
    JoinAdds(front, rest);
    JoinOne(OPENING);
    FenceFound(front, rest);
    OpeningIsFence();
    Associate(OPENING, Join(front), Join(rest));
    assert lines[1..1 + |front|] == front && lines[1 + |front|..] == rest;
  }

  lemma JoinOne(l: Line)
    ensures Join([l]) == l
  {
    assert [l][1..] == [];
  }

  lemma OpeningIsFence()
    ensures IsFence(OPENING)
  {
    assert OPENING[..3] == [HYPHEN, HYPHEN, HYPHEN];
  }

  /** The injected file: only the frontmatter changes, the body stays, and reading the file gives the injected lines. */
  lemma InjectionReadsBack(u: Tables, text: Line, path: Line, license: Line, attribution: Line)
    requires SplitFrontmatter(text).Some? && BreakFree(path) && BreakFree(license) && BreakFree(attribution)
    ensures var s := SplitFrontmatter(text).value;
      var grown := Injected(u, s.front, EntryLines(path, license, attribution));
      && text == OPENING + Join(s.front) + s.tail
      && SplitFrontmatter(OPENING + Join(grown) + s.tail) == Some(Split(grown, s.tail))
  {
    var s := SplitFrontmatter(text).value;
    var entry := EntryLines(path, license, attribution);
    var grown := Injected(u, s.front, entry);
    hide *;
    var rest := Anatomy(text);
    LinesLossless(text);
    TextIs(s.front, rest);
    OnlyAdds(u, s.front, entry);
    AddedGood(path, license, attribution);
    WovenProper(OPENING, s.front, grown, rest, AddedLines(entry));
    AddedNoFence(entry);
    WovenNoFence(s.front, grown, AddedLines(entry));
    ReadsFront(grown, rest);
  }

  lemma TextIs(front: seq<Line>, rest: seq<Line>)
    ensures Join([OPENING] + (front + rest)) == OPENING + Join(front) + Join(rest)
  {
    JoinAdds([OPENING], front + rest);
    JoinAdds(front, rest);
    JoinOne(OPENING);
    Associate(OPENING, Join(front), Join(rest));
  }

  lemma AddedGood(path: Line, license: Line, attribution: Line)
    requires BreakFree(path) && BreakFree(license) && BreakFree(attribution)
    ensures forall l :: l in AddedLines(EntryLines(path, license, attribution)) ==> Good(l)
  {
    var entry := EntryLines(path, license, attribution);
    EntryGood(path, license, attribution);
    HeadersGood();
    FiveLines(path, license, attribution);
    hide *;
    GoodAdded(entry);
  }

  lemma FiveLines(path: Line, license: Line, attribution: Line)
    ensures |EntryLines(path, license, attribution)| == 5
  {}

  lemma GoodAdded(entry: seq<Line>)
    requires Good(MetadataLine()) && Good(SourcesLine()) && |entry| == 5
    requires forall i :: 0 <= i < 5 ==> Good(entry[i])
    ensures forall l :: l in AddedLines(entry) ==> Good(l)
  {
    hide Good, MetadataLine, SourcesLine;
  }

  lemma AddedNoFence(entry: seq<Line>)
    requires forall l :: l in AddedLines(entry) ==> Good(l)
    ensures forall l :: l in AddedLines(entry) ==> !IsFence(l)
  {
    hide AddedLines, IsFence, IsLine;
  }

  /** Injecting into a file and reading it again, both license lookups return what they returned before. */
  lemma LicenseLookupsSurvive(u: Tables, text: Line, path: Line, license: Line, attribution: Line, parent: Line,
                              key: Line)
    requires SplitFrontmatter(text).Some? && BreakFree(path) && BreakFree(license) && BreakFree(attribution)
    ensures var s := SplitFrontmatter(text).value;
      var out := SplitFrontmatter(OPENING + Join(Injected(u, s.front, EntryLines(path, license, attribution))) +
        s.tail);
      && out.Some? && out.value.tail == s.tail
      && TopScalar(u, out.value.front, key) == TopScalar(u, s.front, key)
      && NestedScalar(u, out.value.front, parent, key) == NestedScalar(u, s.front, parent, key)
  {
    hide *;
    InjectionReadsBack(u, text, path, license, attribution);
    EntryIs(path, license, attribution);
    LookupsUnchanged(u, SplitFrontmatter(text).value.front, EntryLines(path, license, attribution), parent, key);
  }
}
