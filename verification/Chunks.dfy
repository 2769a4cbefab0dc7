/** Splitting a document into Notion blocks and sending them in batches. */
module Chunks {
  import opened Texts

  const NEWLINE: CodeUnit := '\n' as int
  const PAIR: Text := [NEWLINE, NEWLINE]

  /** Where the first paragraph break begins, or the end of the text. */
  function FirstBreak(t: Text): (n: nat)
    ensures n <= |t|
    ensures n == |t| || (n + 2 <= |t| && t[n..n + 2] == PAIR)
  {
    if |t| < 2 then |t|
    else if t[..2] == PAIR then
      assert t[0..2] == t[..2];
      0
    else
      var n := FirstBreak(t[1..]);
      assert n < |t| - 1 ==> t[n + 1..n + 3] == t[1..][n..n + 2];
      n + 1
  }

  /** content.split("\n\n") */
  function Paragraphs(t: Text): (ps: seq<Text>)
    ensures ps != []
    decreases |t|
  {
    var n := FirstBreak(t);
    if n == |t| then [t] else [t[..n]] + Paragraphs(t[n + 2..])
  }

  function Flushed(current: Text): seq<Text> {
    if current == [] then [] else [current]
  }

  function HardSplit(p: Text, maxLen: nat): seq<Text>
    requires maxLen > 0
  {
    if p == [] then [] else if |p| <= maxLen then [p] else [p[..maxLen]] + HardSplit(p[maxLen..], maxLen)
  }

  function Joined(current: Text, p: Text): Text {
    if current == [] then p else current + PAIR + p
  }

  /** Pack paragraphs greedily onto the current chunk; split those that do not fit in any. */
  function Pack(ps: seq<Text>, current: Text, maxLen: nat): seq<Text>
    requires maxLen > 0
  {
    if ps == [] then Flushed(current)
    else
      var p := ps[0];
      if |Joined(current, p)| <= maxLen then Pack(ps[1..], Joined(current, p), maxLen)
      else if |p| <= maxLen then Flushed(current) + Pack(ps[1..], p, maxLen)
      else Flushed(current) + (HardSplit(p, maxLen) + Pack(ps[1..], [], maxLen))
  }

  function ChunkText(t: Text, maxLen: nat): seq<Text>
    requires maxLen > 0
  {
    if |t| <= maxLen then [t] else Pack(Paragraphs(t), [], maxLen)
  }

  method HardSplitInto(p: Text, maxLen: nat) returns (chunks: seq<Text>)
    requires maxLen > 0
    ensures chunks == HardSplit(p, maxLen)
  {
    hide HardSplit;
    chunks := [];
    var i := 0;
    assert p[0..] == p;
    NothingLeft(maxLen);
    while i < |p|
      invariant 0 <= i && HardSplit(p, maxLen) == chunks + HardSplit(From(p, i), maxLen)
    {
      var end := if i + maxLen <= |p| then i + maxLen else |p|;
      HardStep(p, i, maxLen);
      Associates(chunks, [p[i..end]], HardSplit(From(p, i + maxLen), maxLen));
      chunks := chunks + [p[i..end]];
      i := i + maxLen;
    }
    assert From(p, i) == [];
  }

  function From(p: Text, i: nat): Text {
    if i <= |p| then p[i..] else []
  }

  lemma NothingLeft(maxLen: nat)
    requires maxLen > 0
    ensures HardSplit([], maxLen) == []
  {}

  lemma HardStep(p: Text, i: nat, maxLen: nat)
    requires maxLen > 0 && i < |p|
    ensures HardSplit(From(p, i), maxLen) == [p[i..if i + maxLen <= |p| then i + maxLen else |p|]] +
      HardSplit(From(p, i + maxLen), maxLen)
  {
    var rest := p[i..];
    if |rest| > maxLen { assert rest[maxLen..] == p[i + maxLen..] && rest[..maxLen] == p[i..i + maxLen]; }
    else { assert From(p, i + maxLen) == [] && p[i..|p|] == rest; }
  }

  method ChunkTextForNotion(content: Text, maxLen: nat) returns (chunks: seq<Text>)
    requires maxLen > 0
    ensures chunks == ChunkText(content, maxLen)
  {
    if |content| <= maxLen { return [content]; }
    hide Paragraphs, HardSplit, Pack;
    chunks := [];
    var current: Text := [];
    var ps := Paragraphs(content);
    assert ps[0..] == ps;
    for i := 0 to |ps|
      invariant Pack(ps, [], maxLen) == chunks + Pack(ps[i..], current, maxLen)
    {
      var p := ps[i];
      var candidate := if current == [] then p else current + PAIR + p;
      PackStep(ps, i, current, maxLen);
      Regroup(chunks, Flushed(current), HardSplit(p, maxLen), Pack(ps[i + 1..], [], maxLen));
      Associates(chunks, Flushed(current), Pack(ps[i + 1..], p, maxLen));
      ghost var flushed := chunks + Flushed(current);
      if |candidate| <= maxLen {
        current := candidate;
      } else {
        if |current| > 0 {
          chunks := chunks + [current];
          current := [];
        }
        assert chunks == flushed;
        if |p| <= maxLen {
          current := p;
        } else {
          var pieces := HardSplitInto(p, maxLen);
          chunks := chunks + pieces;
        }
      }
    }
    PackEnd(ps, current, maxLen);
    if |current| > 0 { chunks := chunks + [current]; }
  }

  lemma Regroup<T>(a: seq<T>, b: seq<T>, c: seq<T>, d: seq<T>)
    ensures a + (b + c + d) == ((a + b) + c) + d
  {}

  lemma PackStep(ps: seq<Text>, i: nat, current: Text, maxLen: nat)
    requires maxLen > 0 && i < |ps|
    ensures var p, rest := ps[i], ps[i + 1..];
      Pack(ps[i..], current, maxLen) ==
        if |Joined(current, p)| <= maxLen then Pack(rest, Joined(current, p), maxLen)
        else if |p| <= maxLen then Flushed(current) + Pack(rest, p, maxLen)
        else Flushed(current) + HardSplit(p, maxLen) + Pack(rest, [], maxLen)
  {
    hide HardSplit;
    assert ps[i..][0] == ps[i] && ps[i..][1..] == ps[i + 1..];
  }

  lemma PackEnd(ps: seq<Text>, current: Text, maxLen: nat)
    requires maxLen > 0
    ensures Pack(ps[|ps|..], current, maxLen) == Flushed(current)
  {}

  // ------------------------------------------------------------------------ what it keeps

  predicate StartsWith(t: Text, prefix: Text) { |prefix| <= |t| && t[..|prefix|] == prefix }

  /** The text is the chunks in order, with nothing but pairs of newlines between and around them. */
  predicate Covers(t: Text, chunks: seq<Text>)
    decreases |t| + |chunks|
  {
    (t == [] && chunks == [])
    || (chunks != [] && StartsWith(t, chunks[0]) && Covers(t[|chunks[0]|..], chunks[1..]))
    || (StartsWith(t, PAIR) && Covers(t[2..], chunks))
  }

  lemma {:induction false} CoversBoth(a: Text, x: seq<Text>, b: Text, y: seq<Text>)
    requires Covers(a, x) && Covers(b, y)
    ensures Covers(a + b, x + y)
    decreases |a| + |x|
  {
    if a == [] && x == [] {
      assert a + b == b && x + y == y;
    } else if x != [] && StartsWith(a, x[0]) && Covers(a[|x[0]|..], x[1..]) {
      CoversBoth(a[|x[0]|..], x[1..], b, y);
      ChunkThen(a, x, b, y);
    } else {
      CoversBoth(a[2..], x, b, y);
      assert (a + b)[2..] == a[2..] + b && (a + b)[..2] == a[..2];
    }
  }

  lemma ChunkThen(a: Text, x: seq<Text>, b: Text, y: seq<Text>)
    requires x != [] && StartsWith(a, x[0]) && Covers(a[|x[0]|..] + b, x[1..] + y)
    ensures Covers(a + b, x + y)
  {
    var c := x[0];
    assert (x + y)[0] == c && (x + y)[1..] == x[1..] + y;
    assert (a + b)[|c|..] == a[|c|..] + b && (a + b)[..|c|] == a[..|c|];
  }

  lemma CoversOne(t: Text)
    ensures Covers(t, [t]) && Covers(t, Flushed(t)) && Covers([], [])
  {
    assert t[|t|..] == [] && [t][1..] == [] && t[..|t|] == t;
    assert Covers(t[|t|..], [t][1..]);
  }

  lemma CoversPair()
    ensures Covers(PAIR, [])
  {
    assert PAIR[..2] == PAIR && PAIR[2..] == [];
    assert Covers(PAIR[2..], []);
  }

  lemma {:induction false} HardSplitCovers(p: Text, maxLen: nat)
    requires maxLen > 0
    ensures Covers(p, HardSplit(p, maxLen))
    ensures forall i :: 0 <= i < |HardSplit(p, maxLen)| ==> 0 < |HardSplit(p, maxLen)[i]| <= maxLen
  {
    CoversOne(p);
    if |p| > maxLen {
      HardSplitCovers(p[maxLen..], maxLen);
      CoversOne(p[..maxLen]);
      CoversBoth(p[..maxLen], [p[..maxLen]], p[maxLen..], HardSplit(p[maxLen..], maxLen));
      assert p[..maxLen] + p[maxLen..] == p;
    }
  }

  /** The paragraphs still to pack, as they stand in the text. */
  function Rest(ps: seq<Text>): Text {
    if ps == [] then [] else PAIR + ps[0] + Rest(ps[1..])
  }

  lemma RestStarts(p: Text, ps: seq<Text>)
    ensures Rest([p] + ps) == PAIR + p + Rest(ps)
  {
    assert ([p] + ps)[1..] == ps;
  }

  lemma {:induction false} ParagraphsJoin(t: Text)
    ensures PAIR + t == Rest(Paragraphs(t))
    decreases |t|
  {
    var n := FirstBreak(t);
    if n == |t| {
      assert [t][1..] == [] && Rest([t]) == PAIR + t + Rest([t][1..]);
    } else {
      var more := t[n + 2..];
      ParagraphsJoin(more);
      RestStarts(t[..n], Paragraphs(more));
      hide Paragraphs, Rest, FirstBreak;
      assert t == t[..n] + (t[n..n + 2] + more);
      Associates(PAIR, t[..n], PAIR + more);
    }
  }

  /** What packing makes of the current chunk and the paragraphs behind it covers them all. */
  lemma {:induction false} PackCovers(ps: seq<Text>, current: Text, maxLen: nat)
    requires maxLen > 0
    ensures Covers(current + Rest(ps), Pack(ps, current, maxLen))
    decreases |ps|, 1
  {
    CoversOne(current);
    if ps == [] {
      assert current + [] == current;
    } else {
      var p, rest := ps[0], Rest(ps[1..]);
      hide Covers, Rest, HardSplit;
      CoversPair();
      if |Joined(current, p)| <= maxLen {
        PackCovers(ps[1..], Joined(current, p), maxLen);
        JoinedCovers(current, p, rest, Pack(ps[1..], Joined(current, p), maxLen));
      } else {
        TailCovers(ps, maxLen);
        FlushCovers(current, p + rest, PackTail(ps, maxLen));
      }
      RestIs(ps, current);
      assert Pack(ps, current, maxLen) ==
        if |Joined(current, p)| <= maxLen then Pack(ps[1..], Joined(current, p), maxLen)
          else Flushed(current) + PackTail(ps, maxLen);
    }
  }

  lemma RestIs(ps: seq<Text>, current: Text)
    requires ps != []
    ensures current + Rest(ps) == current + (PAIR + (ps[0] + Rest(ps[1..])))
  {
    Associates(PAIR, ps[0], Rest(ps[1..]));
  }

  lemma JoinedCovers(current: Text, p: Text, rest: Text, chunks: seq<Text>)
    requires Covers(Joined(current, p) + rest, chunks)
    ensures Covers(current + (PAIR + (p + rest)), chunks)
  {
    hide Covers;
    if current == [] {
      CoversPair();
      CoversBoth(PAIR, [], p + rest, chunks);
      assert [] + (PAIR + (p + rest)) == PAIR + (p + rest) && [] + chunks == chunks;
    } else {
      assert current + (PAIR + (p + rest)) == Joined(current, p) + rest;
    }
  }

  lemma FlushCovers(current: Text, behind: Text, chunks: seq<Text>)
    requires Covers(behind, chunks)
    ensures Covers(current + (PAIR + behind), Flushed(current) + chunks)
  {
    CoversOne(current);
    CoversPair();
    hide Covers;
    CoversBoth(PAIR, [], behind, chunks);
    assert [] + chunks == chunks;
    CoversBoth(current, Flushed(current), PAIR + behind, chunks);
  }

  /** What follows the flush. */
  function PackTail(ps: seq<Text>, maxLen: nat): seq<Text>
    requires maxLen > 0 && ps != []
  {
    if |ps[0]| <= maxLen then Pack(ps[1..], ps[0], maxLen) else HardSplit(ps[0], maxLen) + Pack(ps[1..], [], maxLen)
  }

  lemma {:induction false} TailCovers(ps: seq<Text>, maxLen: nat)
    requires maxLen > 0 && ps != []
    ensures Covers(ps[0] + Rest(ps[1..]), PackTail(ps, maxLen))
    decreases |ps|, 0
  {
    var p, rest := ps[0], Rest(ps[1..]);
    if |p| <= maxLen {
      PackCovers(ps[1..], p, maxLen);
    } else {
      PackCovers(ps[1..], [], maxLen);
      HardSplitCovers(p, maxLen);
      assert [] + rest == rest;
      CoversBoth(p, HardSplit(p, maxLen), rest, Pack(ps[1..], [], maxLen));
    }
  }

  lemma {:induction false} PackBounded(ps: seq<Text>, current: Text, maxLen: nat)
    requires maxLen > 0 && |current| <= maxLen
    ensures forall i :: 0 <= i < |Pack(ps, current, maxLen)| ==> 0 < |Pack(ps, current, maxLen)[i]| <= maxLen
  {
    if ps != [] {
      var p := ps[0];
      if |Joined(current, p)| <= maxLen {
        PackBounded(ps[1..], Joined(current, p), maxLen);
      } else if |p| <= maxLen {
        PackBounded(ps[1..], p, maxLen);
      } else {
        PackBounded(ps[1..], [], maxLen);
        HardSplitCovers(p, maxLen);
      }
    }
  }

  /** Every chunk is within the limit, and none is empty once the text has to be split. */
  lemma ChunksBounded(t: Text, maxLen: nat)
    requires maxLen > 0
    ensures forall i :: 0 <= i < |ChunkText(t, maxLen)| ==> |ChunkText(t, maxLen)[i]| <= maxLen
    ensures |t| > maxLen ==> forall i :: 0 <= i < |ChunkText(t, maxLen)| ==> ChunkText(t, maxLen)[i] != []
  {
    if |t| > maxLen { PackBounded(Paragraphs(t), [], maxLen); }
  }

  function Concat(chunks: seq<Text>): Text {
    if chunks == [] then [] else chunks[0] + Concat(chunks[1..])
  }

  /** The characters that are not newlines, in order. */
  function Visible(t: Text): Text {
    if t == [] then [] else (if t[0] == NEWLINE then [] else [t[0]]) + Visible(t[1..])
  }

  lemma {:induction false} VisibleAdds(a: Text, b: Text)
    ensures Visible(a + b) == Visible(a) + Visible(b)
  {
    if a == [] {
      assert a + b == b;
    } else {
      VisibleAdds(a[1..], b);
      assert (a + b)[1..] == a[1..] + b && (a + b)[0] == a[0];
      Associates(if a[0] == NEWLINE then [] else [a[0]], Visible(a[1..]), Visible(b));
    }
  }

  /** The chunks lack no visible character, and an even number of characters in all. */
  predicate LacksPairs(t: Text, chunks: seq<Text>) {
    Visible(t) == Visible(Concat(chunks)) && |Concat(chunks)| <= |t| && (|t| - |Concat(chunks)|) % 2 == 0
  }

  lemma {:induction false} CoveredVisible(t: Text, chunks: seq<Text>)
    requires Covers(t, chunks)
    ensures LacksPairs(t, chunks)
    decreases |t| + |chunks|
  {
    hide LacksPairs;
    if t == [] && chunks == [] {
      NothingLacks();
    } else if chunks != [] && StartsWith(t, chunks[0]) && Covers(t[|chunks[0]|..], chunks[1..]) {
      CoveredVisible(t[|chunks[0]|..], chunks[1..]);
      hide Covers;
      ChunkLacks(t, chunks);
    } else {
      CoveredVisible(t[2..], chunks);
      hide Covers;
      PairLacks(t, chunks);
    }
  }

  lemma NothingLacks()
    ensures LacksPairs([], [])
  {}

  lemma ChunkLacks(t: Text, chunks: seq<Text>)
    requires chunks != [] && StartsWith(t, chunks[0]) && LacksPairs(t[|chunks[0]|..], chunks[1..])
    ensures LacksPairs(t, chunks)
  {
    var c := chunks[0];
    hide Visible;
    VisibleAdds(c, t[|c|..]);
    VisibleAdds(c, Concat(chunks[1..]));
    assert c + t[|c|..] == t;
  }

  lemma PairLacks(t: Text, chunks: seq<Text>)
    requires StartsWith(t, PAIR) && LacksPairs(t[2..], chunks)
    ensures LacksPairs(t, chunks)
  {
    hide Visible, Concat;
    BehindPair(t[2..]);
    assert PAIR + t[2..] == t;
  }

  /** Chunking loses nothing but paragraph breaks: what the chunks leave out of the text is pairs of newlines. */
  lemma ChunksCover(t: Text, maxLen: nat)
    requires maxLen > 0
    ensures Covers(PAIR + t, ChunkText(t, maxLen))
    ensures Visible(Concat(ChunkText(t, maxLen))) == Visible(t)
  {
    hide *;
    ChunkTextCovers(t, maxLen);
    CoveredVisible(PAIR + t, ChunkText(t, maxLen));
    LacksNothing(PAIR + t, ChunkText(t, maxLen));
    BehindPair(t);
  }

  lemma LacksNothing(t: Text, chunks: seq<Text>)
    requires LacksPairs(t, chunks)
    ensures Visible(Concat(chunks)) == Visible(t)
  {}

  lemma BehindPair(t: Text)
    ensures Visible(PAIR + t) == Visible(t)
  {
    PairInvisible();
    hide Visible;
    VisibleAdds(PAIR, t);
    assert [] + Visible(t) == Visible(t);
  }

  lemma PairInvisible()
    ensures Visible(PAIR) == []
  {
    assert PAIR[1..] == [NEWLINE] && PAIR[1..][1..] == [];
    assert Visible(PAIR) == Visible(PAIR[1..]) == Visible(PAIR[1..][1..]);
  }

  lemma ChunkTextCovers(t: Text, maxLen: nat)
    requires maxLen > 0
    ensures Covers(PAIR + t, ChunkText(t, maxLen))
  {
    hide Covers, Pack, Paragraphs, Rest;
    if |t| <= maxLen {
      CoversPair();
      CoversOne(t);
      CoversBoth(PAIR, [], t, [t]);
      assert [] + [t] == [t];
    } else {
      ParagraphsJoin(t);
      PackCovers(Paragraphs(t), [], maxLen);
      assert [] + Rest(Paragraphs(t)) == PAIR + t;
    }
  }

  // --------------------------------------------------------------------------- batches

  const MAX_BLOCKS := 100

  function All<T>(batches: seq<seq<T>>): seq<T> {
    if batches == [] then [] else All(batches[..|batches| - 1]) + batches[|batches| - 1]
  }

  lemma AllGrows<T>(batches: seq<seq<T>>, batch: seq<T>)
    ensures All(batches + [batch]) == All(batches) + batch
  {
    assert (batches + [batch])[..|batches|] == batches;
  }

  lemma AllOne<T>(batch: seq<T>)
    ensures All([batch]) == batch
  {
    assert [batch][..0] == [];
  }

  function Upto<T>(s: seq<T>, i: nat): seq<T> {
    if i <= |s| then s[..i] else s
  }

  /** Create the page with the first blocks, append the rest in order; stop at the first request that fails.
      accepted says of each request whether the vendor took it; usableId, whether the created page can be
      appended to. */
  method Upload<T>(blocks: seq<T>, accepted: nat -> bool, usableId: bool) returns (ok: bool, sent: seq<seq<T>>)
    ensures sent != [] && forall i :: 0 <= i < |sent| ==> |sent[i]| <= 100
    ensures All(sent) <= blocks && (ok ==> All(sent) == blocks)
    ensures forall i :: 0 <= i < |sent| - 1 ==> accepted(i) && |sent[i]| == 100
    ensures ok <==> (forall i :: 0 <= i < |sent| ==> accepted(i)) && (|blocks| > 100 ==> usableId)
    ensures |blocks| > 100 && !usableId ==> |sent| == 1
  {
    hide All;
    var first := Upto(blocks, MAX_BLOCKS);
    sent := [first];
    AllOne(first);
    if !accepted(0) { return false, sent; }
    if |blocks| > MAX_BLOCKS {
      if !usableId { return false, sent; }
      var i := MAX_BLOCKS;
      while i < |blocks|
        invariant MAX_BLOCKS <= i && sent != [] && All(sent) == Upto(blocks, i)
        invariant forall j :: 0 <= j < |sent| ==> |sent[j]| <= MAX_BLOCKS && accepted(j)
        invariant forall j :: 0 <= j < |sent| - 1 ==> |sent[j]| == MAX_BLOCKS
        invariant i <= |blocks| ==> |sent[|sent| - 1]| == MAX_BLOCKS
      {
        var batch := Upto(blocks[i..], MAX_BLOCKS);
        var k := |sent|;
        AllGrows(sent, batch);
        assert blocks[..i] + batch == Upto(blocks, i + MAX_BLOCKS);
        sent := sent + [batch];
        if !accepted(k) { return false, sent; }
        i := i + MAX_BLOCKS;
      }
    }
    ok := true;
  }
}
