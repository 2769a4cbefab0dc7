/** Adding a source entry to the YAML frontmatter of a SKILL.md, by splitting lines into key blocks. */
module Frontmatter {
  import opened Options
  import Texts
  import opened CodePoints

  const NL: Char := '\n' as int
  const CR: Char := '\r' as int
  const SPACE: Char := ' ' as int
  const COLON: Char := ':' as int
  const HYPHEN: Char := '-' as int

  // -------------------------------------------------------------------------- lines

  /** str.splitlines ends a line at each of these. */
  predicate IsBreak(u: Char) {
    10 <= u <= 13 || 0x1c <= u <= 0x1e || u == 0x85 || u == 0x2028 || u == 0x2029
  }

  lemma BreaksAre(u: Char)
    ensures IsBreak(u) <==> u in [10, 11, 12, 13, 0x1c, 0x1d, 0x1e, 0x85, 0x2028, 0x2029]
  {}

  /** Where the first line ends; a carriage return takes a following newline with it. */
  function LineEnd(t: Line): (n: nat)
    requires t != []
    ensures 1 <= n <= |t|
  {
    if IsBreak(t[0]) then (if t[0] == CR && |t| > 1 && t[1] == NL then 2 else 1)
    else if |t| == 1 then 1
    else 1 + LineEnd(t[1..])
  }

  /** splitlines(keepends=True) */
  function SplitLines(t: Line): seq<Line> {
    if t == [] then [] else [t[..LineEnd(t)]] + SplitLines(t[LineEnd(t)..])
  }

  function Join(lines: seq<Line>): Line {
    if lines == [] then [] else lines[0] + Join(lines[1..])
  }

  /** One line, with a break at most at its end. */
  predicate IsLine(l: Line) { l != [] && LineEnd(l) == |l| }

  /** b can follow a without the two running together. */
  predicate Follows(a: Line, b: Line)
    requires a != [] && b != []
  {
    IsBreak(a[|a| - 1]) && !(a[|a| - 1] == CR && b[0] == NL)
  }

  predicate Proper(lines: seq<Line>) {
    lines == [] ||
    (IsLine(lines[0]) && Proper(lines[1..]) && (|lines| > 1 ==> lines[1] != [] && Follows(lines[0], lines[1])))
  }

  lemma {:induction false} LinesLossless(t: Line)
    ensures Join(SplitLines(t)) == t
    decreases |t|
  {
    if t != [] { LinesLossless(t[LineEnd(t)..]); }
  }

  lemma {:induction false} JoinAdds(a: seq<Line>, b: seq<Line>)
    ensures Join(a + b) == Join(a) + Join(b)
  {
    if a == [] {
      assert a + b == b;
    } else {
      JoinAdds(a[1..], b);
      assert (a + b)[1..] == a[1..] + b && (a + b)[0] == a[0];
      Associate(a[0], Join(a[1..]), Join(b));
    }
  }

  lemma {:induction false} FirstLine(t: Line)
    requires t != []
    ensures var n := LineEnd(t);
      IsLine(t[..n]) && (n < |t| ==> Follows(t[..n], t[n..]))
  {
    if !IsBreak(t[0]) && |t| > 1 {
      FirstLine(t[1..]);
      var n := LineEnd(t[1..]);
      assert t[..n + 1][1..] == t[1..][..n];
    }
  }

  lemma {:induction false} SplitIsProper(t: Line)
    ensures Proper(SplitLines(t))
      && (t != [] ==> SplitLines(t) != [] && SplitLines(t)[0] != [] && SplitLines(t)[0][0] == t[0])
    decreases |t|
  {
    hide LineEnd, IsBreak;
    if t != [] {
      var n := LineEnd(t);
      FirstLine(t);
      SplitIsProper(t[n..]);
      var rest := SplitLines(t[n..]);
      assert SplitLines(t)[1..] == rest;
      if n < |t| { SameStart(t[..n], t[n..], rest[0]); }
    }
  }

  lemma SameStart(a: Line, b: Line, c: Line)
    requires a != [] && b != [] && c != [] && b[0] == c[0]
    ensures Follows(a, b) <==> Follows(a, c)
  {}

  lemma {:induction false} EndInPrefix(l: Line, rest: Line)
    requires IsLine(l) && (rest != [] ==> Follows(l, rest))
    ensures LineEnd(l + rest) == |l|
  {
    if !IsBreak(l[0]) && |l| > 1 {
      EndInPrefix(l[1..], rest);
      assert (l + rest)[1..] == l[1..] + rest;
    }
  }

  /** Lines that do not run together are split where they were joined. */
  lemma {:induction false} SplitOfJoin(lines: seq<Line>)
    requires Proper(lines)
    ensures SplitLines(Join(lines)) == lines
  {
    if lines != [] {
      hide LineEnd, IsBreak;
      var l, rest := lines[0], Join(lines[1..]);
      SplitOfJoin(lines[1..]);
      if |lines| > 1 {
        JoinStarts(lines[1..]);
        SameStart(l, lines[1], rest);
      }
      EndInPrefix(l, rest);
      assert (l + rest)[..|l|] == l && (l + rest)[|l|..] == rest;
    }
  }

  lemma JoinStarts(lines: seq<Line>)
    requires lines != [] && lines[0] != []
    ensures Join(lines) != [] && Join(lines)[0] == lines[0][0]
  {}

  // -------------------------------------------------------------------- frontmatter

  /** rstrip("\n") */
  function Chomp(l: Line): Line {
    if l != [] && l[|l| - 1] == NL then Chomp(l[..|l| - 1]) else l
  }

  predicate IsFence(l: Line) { Chomp(l) == [HYPHEN, HYPHEN, HYPHEN] }

  function FenceFrom(lines: seq<Line>, i: nat): (r: Option<nat>)
    requires i <= |lines|
    ensures r.Some? ==> i <= r.value < |lines| && IsFence(lines[r.value])
    ensures r.Some? ==> forall j :: i <= j < r.value ==> !IsFence(lines[j])
    ensures r.None? ==> forall j :: i <= j < |lines| ==> !IsFence(lines[j])
    decreases |lines| - i
  {
    if i == |lines| then None else if IsFence(lines[i]) then Some(i) else FenceFrom(lines, i + 1)
  }

  datatype Split = Split(front: seq<Line>, tail: Line)

  function SplitFrontmatter(t: Line): Option<Split> {
    var lines := SplitLines(t);
    if lines == [] || !IsFence(lines[0]) then None
    else
      var end := FenceFrom(lines, 1);
      if end.None? then None else Some(Split(lines[1..end.value], Join(lines[end.value..])))
  }

  const OPENING: Line := [HYPHEN, HYPHEN, HYPHEN, NL]

  // --------------------------------------------------------------------------- blocks

  predicate IsLetter(u: Char) { 65 <= u <= 90 || 97 <= u <= 122 || u == 95 }

  /** What \w adds to the letters, the digits and the underscore depends on the Unicode tables. */
  predicate IsWord(u: Char, beyondAscii: Char -> bool) {
    IsLetter(u) || 48 <= u <= 57 || (u >= 128 && beyondAscii(u))
  }

  /** The Unicode tables of the regular expression engine, for code points past ASCII. */
  datatype Tables = Tables(word: Char -> bool)

  function WordRun(u: Tables, t: Line): (n: nat)
    ensures n <= |t|
  {
    if t != [] && (IsWord(t[0], u.word) || t[0] == HYPHEN) then 1 + WordRun(u, t[1..]) else 0
  }

  predicate Indented(l: Line, indent: nat) {
    indent < |l| && (forall i :: 0 <= i < indent ==> l[i] == SPACE) && IsLetter(l[indent])
  }

  /** The key of a line that opens a block at this indent. */
  function KeyOf(u: Tables, l: Line, indent: nat): Option<Line> {
    if !Indented(l, indent) then None
    else
      var n := WordRun(u, l[indent..]);
      if indent + n < |l| && l[indent + n] == COLON then Some(l[indent..indent + n]) else None
  }

  /** A key: a letter or underscore, then letters, digits, underscores, hyphens, and word characters past ASCII. */
  ghost predicate IsKey(u: Tables, name: Line) {
    && name != [] && name[0] in Str(LETTERS + "_")
    && forall i :: 0 <= i < |name| ==>
      name[i] in Str(LETTERS + Texts.DIGITS + "_-") || (name[i] >= 0x80 && u.word(name[i]))
  }

  lemma WordUnits(u: Tables, c: Char)
    ensures IsWord(c, u.word) || c == HYPHEN <==>
      c in Str(LETTERS + Texts.DIGITS + "_-") || (c >= 0x80 && u.word(c))
    ensures IsLetter(c) <==> c in Str(LETTERS + "_")
  {
    InLetters(c, "_-");
    TwoMarks(c);
    LetterUnits(c);
    hide Str;
  }

  lemma TwoMarks(c: Char)
    ensures c in Str("_-") <==> c == 95 || c == 45
  {
    assert Str("_-") == [95, 45];
    hide Str;
  }

  lemma LetterUnits(c: Char)
    ensures c in Str(LETTERS + "_") <==> 65 <= c <= 90 || 97 <= c <= 122 || c == 95
  {
    var s := LETTERS + "_";
    InBothEncodings(c, s);
    if c < 0x1_0000 {
      Texts.InBoth(c, LETTERS, "_");
      Texts.InBoth(c, Texts.UPPER, Texts.LOWER);
      Texts.InUpper(c);
      Texts.InLower(c);
      Texts.InLit(c, "_");
      assert "_"[0] as int == 95;
    }
    hide Str;
  }

  lemma {:induction false} WordRunIs(u: Tables, t: Line, n: nat)
    requires n <= |t| && (forall i :: 0 <= i < n ==> IsWord(t[i], u.word) || t[i] == HYPHEN)
    requires n < |t| ==> !(IsWord(t[n], u.word) || t[n] == HYPHEN)
    ensures WordRun(u, t) == n
  {
    hide IsWord;
    if n > 0 { WordRunIs(u, t[1..], n - 1); }
  }

  lemma {:induction false} WordRunFits(u: Tables, t: Line)
    ensures var n := WordRun(u, t);
      && (forall i :: 0 <= i < n ==> IsWord(t[i], u.word) || t[i] == HYPHEN)
      && (n < |t| ==> !(IsWord(t[n], u.word) || t[n] == HYPHEN))
  {
    hide IsWord;
    if t != [] && (IsWord(t[0], u.word) || t[0] == HYPHEN) { WordRunFits(u, t[1..]); }
  }

  /** A key line is the indent, the key, a colon, and anything. */
  lemma KeyIs(u: Tables, l: Line, indent: nat, name: Line)
    ensures KeyOf(u, l, indent) == Some(name) <==> exists rest :: IsKeyLine(u, l, indent, name, rest)
  {
    hide IsWord, IsLetter, Str;
    forall c ensures IsWord(c, u.word) || c == HYPHEN <==>
        c in Str(LETTERS + Texts.DIGITS + "_-") || (c >= 0x80 && u.word(c)) { WordUnits(u, c); }
    forall c ensures IsLetter(c) <==> c in Str(LETTERS + "_") { WordUnits(u, c); }
    if KeyOf(u, l, indent) == Some(name) {
      var t := l[indent..];
      WordRunFits(u, t);
      var n := WordRun(u, t);
      KeyLineOf(u, l, indent, name, n);
    }
    if rest :| IsKeyLine(u, l, indent, name, rest) { KeyLineRead(u, l, indent, name, rest); }
  }

  lemma KeyLineOf(u: Tables, l: Line, indent: nat, name: Line, n: nat)
    requires Indented(l, indent) && n == WordRun(u, l[indent..]) && indent + n < |l| && l[indent + n] == COLON
    requires name == l[indent..indent + n]
    requires forall c :: IsWord(c, u.word) || c == HYPHEN <==>
      c in Str(LETTERS + Texts.DIGITS + "_-") || (c >= 0x80 && u.word(c))
    requires forall c :: IsLetter(c) <==> c in Str(LETTERS + "_")
    ensures exists rest :: IsKeyLine(u, l, indent, name, rest)
  {
    hide Str;
    var t := l[indent..];
    WordRunFits(u, t);
    LetterRuns(u, t);
    hide IsWord, IsLetter, WordRun;
    forall i | 0 <= i < |name|
      ensures name[i] in Str(LETTERS + Texts.DIGITS + "_-") || (name[i] >= 0x80 && u.word(name[i])) {
      assert name[i] == t[i];
    }
    assert l == seq(indent, i => SPACE) + name + [COLON] + l[indent + n + 1..];
    assert IsKeyLine(u, l, indent, name, l[indent + n + 1..]);
  }

  lemma LetterRuns(u: Tables, t: Line)
    requires t != [] && IsLetter(t[0])
    ensures WordRun(u, t) > 0
  {}

  lemma KeyLineRead(u: Tables, l: Line, indent: nat, name: Line, rest: Line)
    requires IsKeyLine(u, l, indent, name, rest)
    requires forall c :: IsWord(c, u.word) || c == HYPHEN <==>
      c in Str(LETTERS + Texts.DIGITS + "_-") || (c >= 0x80 && u.word(c))
    requires forall c :: IsLetter(c) <==> c in Str(LETTERS + "_")
    ensures KeyOf(u, l, indent) == Some(name)
  {
    ColonEnds(u);
    hide Str, IsWord, IsLetter;
    var t := name + [COLON] + rest;
    assert l[indent..] == t;
    WordRunIs(u, t, |name|);
    hide WordRun;
    assert l[indent] == name[0] && l[indent + |name|] == COLON && l[indent..indent + |name|] == name;
    assert forall i :: 0 <= i < indent ==> l[i] == SPACE;
  }

  lemma ColonEnds(u: Tables)
    ensures !IsWord(COLON, u.word) && COLON != HYPHEN
  {}

  ghost predicate IsKeyLine(u: Tables, l: Line, indent: nat, name: Line, rest: Line) {
    l == seq(indent, i => SPACE) + name + [COLON] + rest && IsKey(u, name)
  }

  datatype Block = Block(key: Option<Line>, lines: seq<Line>)

  /** How many lines before the next key line. */
  function KeylessRun(u: Tables, lines: seq<Line>, indent: nat): (n: nat)
    ensures n <= |lines| && (n < |lines| ==> KeyOf(u, lines[n], indent).Some?)
    ensures forall i :: 0 <= i < n ==> KeyOf(u, lines[i], indent).None?
  {
    if lines != [] && KeyOf(u, lines[0], indent).None? then 1 + KeylessRun(u, lines[1..], indent) else 0
  }

  function Blocks(u: Tables, lines: seq<Line>, indent: nat): seq<Block> {
    if lines == [] then []
    else
      var n := 1 + KeylessRun(u, lines[1..], indent);
      [Block(KeyOf(u, lines[0], indent), lines[..n])] + Blocks(u, lines[n..], indent)
  }

  function LinesOf(blocks: seq<Block>): seq<Line> {
    if blocks == [] then [] else blocks[0].lines + LinesOf(blocks[1..])
  }

  /** One block: its first line carries the key, no other line has one. */
  predicate IsBlock(u: Tables, b: Block, indent: nat) {
    b.lines != [] && KeyOf(u, b.lines[0], indent) == b.key
    && forall i :: 0 < i < |b.lines| ==> KeyOf(u, b.lines[i], indent).None?
  }

  predicate AreBlocks(u: Tables, blocks: seq<Block>, indent: nat) {
    (forall i :: 0 <= i < |blocks| ==> IsBlock(u, blocks[i], indent))
      && (forall i :: 0 < i < |blocks| ==> blocks[i].key.Some?)
  }

  lemma {:induction false} RunIs(u: Tables, lines: seq<Line>, indent: nat, n: nat)
    requires n <= |lines| && (forall i :: 0 <= i < n ==> KeyOf(u, lines[i], indent).None?)
    requires n < |lines| ==> KeyOf(u, lines[n], indent).Some?
    ensures KeylessRun(u, lines, indent) == n
  {
    hide KeyOf;
    if n > 0 { RunIs(u, lines[1..], indent, n - 1); }
  }

  method SplitBlocks(u: Tables, lines: seq<Line>, indent: nat) returns (blocks: seq<Block>)
    ensures blocks == Blocks(u, lines, indent)
  {
    hide KeyOf, Blocks, KeylessRun;
    blocks := [];
    var key: Option<Line> := None;
    var current: seq<Line> := [];
    ghost var s := 0;
    assert lines[0..] == lines;
    for i := 0 to |lines|
      invariant s <= i && current == lines[s..i] && (i > 0 ==> s < i)
      invariant key == if i > 0 then KeyOf(u, lines[s], indent) else None
      invariant forall j :: s < j < i ==> KeyOf(u, lines[j], indent).None?
      invariant Blocks(u, lines, indent) == blocks + Blocks(u, lines[s..], indent)
    {
      var m := KeyOf(u, lines[i], indent);
      if m.Some? {
        if current != [] {
          BlockEnds(u, lines, indent, s, i);
          blocks := blocks + [Block(key, current)];
        }
        s, key, current := i, m, [lines[i]];
      } else {
        current := current + [lines[i]];
      }
    }
    if current != [] {
      BlockEnds(u, lines, indent, s, |lines|);
      NoBlocks(u, lines, indent);
      blocks := blocks + [Block(key, current)];
    } else {
      NoBlocks(u, lines, indent);
    }
  }

  lemma NoBlocks(u: Tables, lines: seq<Line>, indent: nat)
    ensures Blocks(u, lines[|lines|..], indent) == []
  {}

  lemma BlockEnds(u: Tables, lines: seq<Line>, indent: nat, s: nat, i: nat)
    requires s < i <= |lines| && (forall j :: s < j < i ==> KeyOf(u, lines[j], indent).None?)
    requires i < |lines| ==> KeyOf(u, lines[i], indent).Some?
    ensures Blocks(u, lines[s..], indent) == [Block(KeyOf(u, lines[s], indent), lines[s..i])] +
      Blocks(u, lines[i..], indent)
  {
    hide KeyOf;
    var rest := lines[s..];
    RunIs(u, rest[1..], indent, i - s - 1);
    assert rest[..i - s] == lines[s..i] && rest[i - s..] == lines[i..];
  }

  /** Splitting loses nothing, and cuts exactly at the key lines. */
  lemma BlocksLossless(u: Tables, lines: seq<Line>, indent: nat)
    ensures LinesOf(Blocks(u, lines, indent)) == lines && AreBlocks(u, Blocks(u, lines, indent), indent)
  {
    hide *;
    BlocksJoin(u, lines, indent);
    BlocksAre(u, lines, indent);
  }

  lemma {:induction false} BlocksJoin(u: Tables, lines: seq<Line>, indent: nat)
    ensures LinesOf(Blocks(u, lines, indent)) == lines
    decreases |lines|
  {
    hide KeyOf, KeylessRun;
    if lines != [] {
      var n := FirstBlock(u, lines, indent);
      BlocksJoin(u, lines[n..], indent);
      assert Blocks(u, lines, indent)[1..] == Blocks(u, lines[n..], indent);
    }
  }

  lemma {:induction false} BlocksAre(u: Tables, lines: seq<Line>, indent: nat)
    ensures AreBlocks(u, Blocks(u, lines, indent), indent)
    decreases |lines|
  {
    hide KeyOf, KeylessRun, IsBlock;
    if lines != [] {
      var n := FirstBlock(u, lines, indent);
      BlocksAre(u, lines[n..], indent);
      if n < |lines| { var m := FirstBlock(u, lines[n..], indent); }
      hide Blocks, AreBlocks;
      MoreBlocks(u, Block(KeyOf(u, lines[0], indent), lines[..n]), Blocks(u, lines[n..], indent), indent);
    }
  }

  lemma FirstBlock(u: Tables, lines: seq<Line>, indent: nat) returns (n: nat)
    requires lines != []
    ensures 0 < n <= |lines| && IsBlock(u, Block(KeyOf(u, lines[0], indent), lines[..n]), indent)
    ensures Blocks(u, lines, indent) == [Block(KeyOf(u, lines[0], indent), lines[..n])] + Blocks(u, lines[n..], indent)
    ensures n < |lines| ==> KeyOf(u, lines[n], indent).Some?
  {
    hide KeyOf;
    n := 1 + KeylessRun(u, lines[1..], indent);
    assert forall i :: 0 < i < n ==> lines[i] == lines[1..][i - 1];
  }

  lemma MoreBlocks(u: Tables, b: Block, more: seq<Block>, indent: nat)
    requires IsBlock(u, b, indent) && AreBlocks(u, more, indent) && (more != [] ==> more[0].key.Some?)
    ensures AreBlocks(u, [b] + more, indent) && LinesOf([b] + more) == b.lines + LinesOf(more)
  {
    hide IsBlock;
    assert ([b] + more)[1..] == more;
  }

  /** Any blocks are found again in the lines they make. */
  lemma {:induction false} BlocksFound(u: Tables, blocks: seq<Block>, indent: nat)
    requires AreBlocks(u, blocks, indent)
    ensures Blocks(u, LinesOf(blocks), indent) == blocks
  {
    if blocks != [] {
      hide KeyOf, Blocks;
      BlocksFound(u, blocks[1..], indent);
      FirstBlockFound(u, blocks[0], blocks[1..], indent);
    }
  }

  lemma FirstBlockFound(u: Tables, b: Block, more: seq<Block>, indent: nat)
    requires IsBlock(u, b, indent) && (more != [] ==> IsBlock(u, more[0], indent) && more[0].key.Some?)
    ensures Blocks(u, b.lines + LinesOf(more), indent) == [b] + Blocks(u, LinesOf(more), indent)
  {
    hide KeyOf, Blocks, KeylessRun;
    var rest := LinesOf(more);
    var lines := b.lines + rest;
    if more != [] { assert rest[0] == more[0].lines[0]; }
    BlockEnds(u, lines, indent, 0, |b.lines|);
    assert lines[0..] == lines && lines[0..|b.lines|] == b.lines && lines[|b.lines|..] == rest;
  }

  lemma {:induction false} LinesOfAdds(a: seq<Block>, b: seq<Block>)
    ensures LinesOf(a + b) == LinesOf(a) + LinesOf(b)
  {
    if a == [] {
      assert a + b == b;
    } else {
      LinesOfAdds(a[1..], b);
      assert (a + b)[1..] == a[1..] + b && (a + b)[0] == a[0];
      Associate(a[0].lines, LinesOf(a[1..]), LinesOf(b));
    }
  }

  lemma Associate<T>(a: seq<T>, b: seq<T>, c: seq<T>)
    ensures (a + b) + c == a + (b + c)
  {}
}
