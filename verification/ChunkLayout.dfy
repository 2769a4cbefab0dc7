/** How a document is laid out in chunks: whole paragraphs as long as they fit, and cuts in the others only. */
module ChunkLayout {
  import opened Texts
  import opened Chunks

  // ----------------------------------------------------------------------- paragraphs

  ghost predicate HasBreak(t: Text) {
    exists i :: BreaksAt(t, i)
  }

  predicate BreaksAt(t: Text, i: int) {
    0 <= i && i + 1 < |t| && t[i] == NEWLINE && t[i + 1] == NEWLINE
  }

  lemma {:induction false} FirstBreakIsFirst(t: Text)
    ensures var n := FirstBreak(t);
      && (n == |t| ==> !HasBreak(t))
      && (n < |t| ==> BreaksAt(t, n) && !HasBreak(t[..n] + [NEWLINE]))
  {
    var n := FirstBreak(t);
    if |t| >= 2 && t[..2] != PAIR {
      FirstBreakIsFirst(t[1..]);
      PairIs(t);
      var m := FirstBreak(t[1..]);
      if n == |t| {
        forall i ensures !BreaksAt(t, i) { assert !BreaksAt(t[1..], i - 1); }
      } else {
        assert BreaksAt(t[1..], m);
        var front := t[..n] + [NEWLINE];
        forall i ensures !BreaksAt(front, i) {
          assert !BreaksAt(t[1..][..m] + [NEWLINE], i - 1);
          if i == 0 && n > 1 { assert !BreaksAt(t, 0); }
        }
      }
    }
  }

  lemma PairIs(t: Text)
    requires |t| >= 2
    ensures BreaksAt(t, 0) <==> t[..2] == PAIR
  {
    assert t[..2] == [t[0], t[1]];
  }

  /** Paragraphs are cut at the first break, and again behind it: none holds a break, and none but the last ends with
      a newline that belongs to an earlier one. With ParagraphsJoin this settles them. */
  lemma {:induction false} ParagraphsExact(t: Text, i: nat)
    requires i < |Paragraphs(t)|
    ensures !HasBreak(if i < |Paragraphs(t)| - 1 then Paragraphs(t)[i] + [NEWLINE] else Paragraphs(t)[i])
    decreases |t|
  {
    var n := FirstBreak(t);
    FirstBreakIsFirst(t);
    hide HasBreak, FirstBreak;
    if n < |t| && i > 0 { ParagraphsExact(t[n + 2..], i - 1); }
  }

  // --------------------------------------------------------------------------- layout

  /** Consecutive paragraphs that share a chunk, or one that fits in none. */
  datatype Piece = Group(ps: seq<Text>) | Cut(p: Text)

  /** The chunk of a group: paragraphs with breaks between, from the first that is not empty. */
  function BodyOf(ps: seq<Text>): Text {
    if ps == [] then [] else Joined(BodyOf(ps[..|ps| - 1]), ps[|ps| - 1])
  }

  lemma BodyMore(ps: seq<Text>, p: Text)
    ensures BodyOf(ps + [p]) == Joined(BodyOf(ps), p)
  {
    assert (ps + [p])[..|ps|] == ps;
  }

  lemma BodyOne(p: Text)
    ensures BodyOf([]) == [] && BodyOf([p]) == p && [] + [p] == [p]
  {
    BodyMore([], p);
    assert [] + [p] == [p];
  }

  function ParagraphsOf(piece: Piece): seq<Text> {
    match piece
    case Group(ps) => ps
    case Cut(p) => [p]
  }

  function ChunksOf(piece: Piece, maxLen: nat): seq<Text>
    requires maxLen > 0
  {
    match piece
    case Group(ps) => Flushed(BodyOf(ps))
    case Cut(p) => HardSplit(p, maxLen)
  }

  function AllParagraphs(pieces: seq<Piece>): seq<Text> {
    if pieces == [] then [] else ParagraphsOf(pieces[0]) + AllParagraphs(pieces[1..])
  }

  function AllChunks(pieces: seq<Piece>, maxLen: nat): seq<Text>
    requires maxLen > 0
  {
    if pieces == [] then [] else ChunksOf(pieces[0], maxLen) + AllChunks(pieces[1..], maxLen)
  }

  /** A group fits in a chunk; a cut paragraph fits in none. */
  predicate IsPiece(piece: Piece, maxLen: nat) {
    match piece
    case Group(ps) => ps != [] && |BodyOf(ps)| <= maxLen
    case Cut(p) => |p| > maxLen
  }

  /** The group is closed only because the next paragraph does not fit any more. */
  predicate IsClosed(piece: Piece, next: Piece, maxLen: nat) {
    piece.Group? && ParagraphsOf(next) != [] ==> |BodyOf(piece.ps + [ParagraphsOf(next)[0]])| > maxLen
  }

  ghost predicate IsLayout(pieces: seq<Piece>, maxLen: nat) {
    && (forall i :: 0 <= i < |pieces| ==> IsPiece(pieces[i], maxLen))
    && (forall i, j :: 0 <= i && j == i + 1 && j < |pieces| ==> IsClosed(pieces[i], pieces[j], maxLen))
  }

  lemma LayoutMore(piece: Piece, pieces: seq<Piece>, maxLen: nat)
    requires IsPiece(piece, maxLen) && IsLayout(pieces, maxLen)
    requires pieces != [] ==> IsClosed(piece, pieces[0], maxLen)
    ensures IsLayout([piece] + pieces, maxLen)
  {
    hide IsPiece, IsClosed;
    var all := [piece] + pieces;
    forall i, j | 0 <= i && j == i + 1 && j < |all| ensures IsClosed(all[i], all[j], maxLen) {
      if i > 0 { assert all[i] == pieces[i - 1] && all[j] == pieces[j - 1]; }
    }
  }

  /** What is left to pack, behind the open group g, is laid out; g stays in the first group. */
  ghost predicate LaysOut(pieces: seq<Piece>, ps: seq<Text>, g: seq<Text>, maxLen: nat)
    requires maxLen > 0
  {
    && IsLayout(pieces, maxLen) && AllParagraphs(pieces) == g + ps
    && Pack(ps, BodyOf(g), maxLen) == AllChunks(pieces, maxLen)
    && (g != [] ==> pieces != [] && pieces[0].Group? && g <= pieces[0].ps)
  }

  lemma {:induction false} PackLaidOut(ps: seq<Text>, g: seq<Text>, maxLen: nat) returns (pieces: seq<Piece>)
    requires maxLen > 0 && |BodyOf(g)| <= maxLen
    ensures LaysOut(pieces, ps, g, maxLen)
    decreases |ps|
  {
    hide LaysOut, Joined, BodyOf;
    if ps == [] {
      pieces := if g == [] then [] else [Group(g)];
      EndLaidOut(g, maxLen);
    } else {
      var p, rest := ps[0], ps[1..];
      BodyMore(g, p);
      BodyOne(p);
      if |Joined(BodyOf(g), p)| <= maxLen {
        pieces := PackLaidOut(rest, g + [p], maxLen);
        JoinLaidOut(pieces, ps, g, maxLen);
      } else if |p| <= maxLen {
        var tail := PackLaidOut(rest, [p], maxLen);
        pieces := FlushLaidOut(tail, ps, g, maxLen);
      } else {
        var tail := PackLaidOut(rest, [], maxLen);
        pieces := SplitLaidOut(tail, ps, g, maxLen);
      }
    }
  }

  lemma PackHead(ps: seq<Text>, current: Text, maxLen: nat)
    requires maxLen > 0 && ps != []
    ensures var (p, rest) := (ps[0], ps[1..]);
      Pack(ps, current, maxLen) ==
        if |Joined(current, p)| <= maxLen then Pack(rest, Joined(current, p), maxLen)
        else if |p| <= maxLen then Flushed(current) + Pack(rest, p, maxLen)
        else Flushed(current) + (HardSplit(p, maxLen) + Pack(rest, [], maxLen))
  {
    hide HardSplit, Joined;
  }

  lemma HeadFirst(g: seq<Text>, ps: seq<Text>)
    requires ps != []
    ensures [ps[0]] + ps[1..] == ps && g + [ps[0]] + ps[1..] == g + ps && [] + ps[1..] == ps[1..]
  {}

  lemma LongerPrefix(g: seq<Text>, p: Text, ps: seq<Text>)
    requires g + [p] <= ps
    ensures g <= ps
  {
    assert (g + [p])[..|g|] == g;
  }

  lemma JoinLaidOut(pieces: seq<Piece>, ps: seq<Text>, g: seq<Text>, maxLen: nat)
    requires maxLen > 0 && ps != [] && |Joined(BodyOf(g), ps[0])| <= maxLen
    requires LaysOut(pieces, ps[1..], g + [ps[0]], maxLen)
    ensures LaysOut(pieces, ps, g, maxLen)
  {
    BodyMore(g, ps[0]);
    PackHead(ps, BodyOf(g), maxLen);
    HeadFirst(g, ps);
    LongerPrefix(g, ps[0], pieces[0].ps);
    hide IsLayout, AllParagraphs, AllChunks, BodyOf, HardSplit, Joined, Pack;
  }

  lemma FlushLaidOut(tail: seq<Piece>, ps: seq<Text>, g: seq<Text>, maxLen: nat) returns (pieces: seq<Piece>)
    requires maxLen > 0 && ps != [] && |BodyOf(g)| <= maxLen && |ps[0]| <= maxLen < |Joined(BodyOf(g), ps[0])|
    requires LaysOut(tail, ps[1..], [ps[0]], maxLen)
    ensures LaysOut(pieces, ps, g, maxLen)
  {
    hide IsLayout, AllParagraphs, AllChunks, BodyOf, HardSplit, Joined, Pack;
    BodyMore(g, ps[0]);
    BodyOne(ps[0]);
    PackHead(ps, BodyOf(g), maxLen);
    HeadFirst(g, ps);
    pieces := Close(g, ps, tail, maxLen);
  }

  lemma SplitLaidOut(tail: seq<Piece>, ps: seq<Text>, g: seq<Text>, maxLen: nat) returns (pieces: seq<Piece>)
    requires maxLen > 0 && ps != [] && |BodyOf(g)| <= maxLen < |ps[0]| && |Joined(BodyOf(g), ps[0])| > maxLen
    requires LaysOut(tail, ps[1..], [], maxLen)
    ensures LaysOut(pieces, ps, g, maxLen)
  {
    hide IsLayout, AllParagraphs, AllChunks, BodyOf, HardSplit, Joined, Pack;
    BodyMore(g, ps[0]);
    BodyOne(ps[0]);
    PackHead(ps, BodyOf(g), maxLen);
    HeadFirst(g, ps);
    CutLaidOut(ps[0], tail, maxLen);
    pieces := Close(g, ps, [Cut(ps[0])] + tail, maxLen);
  }

  lemma EndLaidOut(g: seq<Text>, maxLen: nat)
    requires maxLen > 0 && |BodyOf(g)| <= maxLen
    ensures LaysOut(if g == [] then [] else [Group(g)], [], g, maxLen)
  {
    BodyOne([]);
    hide BodyOf;
    var one := [Group(g)];
    assert one[1..] == [] && AllParagraphs([]) == [] && AllChunks([], maxLen) == [];
    assert g + [] == g && IsPiece(Group(g), maxLen) == (g != []);
  }

  lemma CutLaidOut(p: Text, tail: seq<Piece>, maxLen: nat)
    requires maxLen > 0 && |p| > maxLen && IsLayout(tail, maxLen)
    ensures IsLayout([Cut(p)] + tail, maxLen) && AllParagraphs([Cut(p)] + tail) == [p] + AllParagraphs(tail)
    ensures AllChunks([Cut(p)] + tail, maxLen) == HardSplit(p, maxLen) + AllChunks(tail, maxLen)
  {
    LayoutMore(Cut(p), tail, maxLen);
    assert ([Cut(p)] + tail)[1..] == tail;
  }

  /** The open group, if any, before the pieces that begin with a paragraph it has no room for. */
  lemma Close(g: seq<Text>, behind: seq<Text>, tail: seq<Piece>, maxLen: nat) returns (pieces: seq<Piece>)
    requires maxLen > 0 && |BodyOf(g)| <= maxLen && behind != [] && |BodyOf(g + [behind[0]])| > maxLen
    requires IsLayout(tail, maxLen) && AllParagraphs(tail) == behind && tail != []
    ensures IsLayout(pieces, maxLen) && AllParagraphs(pieces) == g + behind
    ensures AllChunks(pieces, maxLen) == Flushed(BodyOf(g)) + AllChunks(tail, maxLen)
    ensures g != [] ==> pieces != [] && pieces[0] == Group(g)
  {
    if g == [] {
      pieces := tail;
      assert [] + behind == behind;
      assert Flushed(BodyOf(g)) + AllChunks(tail, maxLen) == AllChunks(tail, maxLen);
    } else {
      pieces := [Group(g)] + tail;
      assert pieces[1..] == tail;
      FirstParagraph(tail, maxLen);
      LayoutMore(Group(g), tail, maxLen);
    }
  }

  lemma FirstParagraph(pieces: seq<Piece>, maxLen: nat)
    requires pieces != [] && IsLayout(pieces, maxLen)
    ensures ParagraphsOf(pieces[0]) != [] && AllParagraphs(pieces)[0] == ParagraphsOf(pieces[0])[0]
  {
    hide BodyOf;
    assert IsPiece(pieces[0], maxLen);
  }

  /** A text that is too long for one chunk is laid out: its paragraphs in order, in groups that are whole and closed
      only when the next one does not fit, and in cuts of the paragraphs that fit nowhere. */
  lemma ChunksLaidOut(t: Text, maxLen: nat) returns (pieces: seq<Piece>)
    requires maxLen > 0 && |t| > maxLen
    ensures IsLayout(pieces, maxLen) && AllParagraphs(pieces) == Paragraphs(t)
    ensures ChunkText(t, maxLen) == AllChunks(pieces, maxLen)
  {
    hide Pack, Paragraphs;
    BodyOne([]);
    pieces := PackLaidOut(Paragraphs(t), [], maxLen);
    assert [] + Paragraphs(t) == Paragraphs(t);
  }

  // ------------------------------------------------------------------------ what stays whole

  /** The paragraph stands in the chunk, between its ends or breaks. */
  ghost predicate StandsWhole(chunk: Text, p: Text) {
    exists a, b :: chunk == a + p + b && (a == [] || exists c :: a == c + PAIR) && (b == [] || PAIR <= b)
  }

  lemma {:induction false} WholeInBody(ps: seq<Text>, k: nat)
    requires k < |ps| && ps[k] != []
    ensures StandsWhole(BodyOf(ps), ps[k])
  {
    var front, last := ps[..|ps| - 1], ps[|ps| - 1];
    var current := BodyOf(front);
    if k == |ps| - 1 {
      WholeLast(current, last);
    } else {
      WholeInBody(front, k);
      assert current != [] by {
        var a, b :| current == a + ps[k] + b && (a == [] || exists c :: a == c + PAIR) && (b == [] || PAIR <= b);
      }
      WholeBefore(current, ps[k], last);
    }
  }

  lemma WholeLast(current: Text, p: Text)
    ensures StandsWhole(Joined(current, p), p)
  {
    var chunk := Joined(current, p);
    if current == [] {
      assert chunk == [] + p + [];
    } else {
      var a := current + PAIR;
      assert chunk == a + p + [];
    }
  }

  lemma WholeBefore(current: Text, p: Text, last: Text)
    requires current != [] && StandsWhole(current, p)
    ensures StandsWhole(Joined(current, last), p)
  {
    var a, b :| current == a + p + b && (a == [] || exists c :: a == c + PAIR) && (b == [] || PAIR <= b);
    var more := b + PAIR + last;
    assert Joined(current, last) == a + p + more;
    assert PAIR <= more;
  }

  /** A paragraph that fits in a chunk is never cut. */
  lemma ParagraphStaysWhole(t: Text, maxLen: nat, i: nat) returns (k: nat)
    requires maxLen > 0 && |t| > maxLen && i < |Paragraphs(t)| && 0 < |Paragraphs(t)[i]| <= maxLen
    ensures k < |ChunkText(t, maxLen)| && StandsWhole(ChunkText(t, maxLen)[k], Paragraphs(t)[i])
  {
    hide ChunkText, Paragraphs;
    var pieces := ChunksLaidOut(t, maxLen);
    k := WholeInLayout(pieces, maxLen, i);
  }

  lemma {:induction false} WholeInLayout(pieces: seq<Piece>, maxLen: nat, i: nat) returns (k: nat)
    requires maxLen > 0 && IsLayout(pieces, maxLen) && i < |AllParagraphs(pieces)|
    requires 0 < |AllParagraphs(pieces)[i]| <= maxLen
    ensures k < |AllChunks(pieces, maxLen)| && StandsWhole(AllChunks(pieces, maxLen)[k], AllParagraphs(pieces)[i])
    decreases |pieces|
  {
    var first, rest := pieces[0], pieces[1..];
    var n := |ParagraphsOf(first)|;
    if i < n {
      k := 0;
      assert IsPiece(first, maxLen);
      WholeInBody(first.ps, i);
      hide HardSplit;
      NotEmpty(BodyOf(first.ps), first.ps[i]);
    } else {
      RestLaidOut(pieces, maxLen);
      k := WholeInLayout(rest, maxLen, i - n);
      k := k + |ChunksOf(first, maxLen)|;
    }
  }

  lemma NotEmpty(chunk: Text, p: Text)
    requires StandsWhole(chunk, p) && p != []
    ensures chunk != []
  {}

  lemma RestLaidOut(pieces: seq<Piece>, maxLen: nat)
    requires pieces != [] && IsLayout(pieces, maxLen)
    ensures IsLayout(pieces[1..], maxLen)
  {
    hide IsPiece, IsClosed;
  }

  /** A cut paragraph goes to pieces of the full length, but for the last, which is not empty. */
  lemma {:induction false} HardSplitExact(p: Text, maxLen: nat, i: nat)
    requires maxLen > 0 && p != []
    ensures HardSplit(p, maxLen) != [] && Concat(HardSplit(p, maxLen)) == p
    ensures i < |HardSplit(p, maxLen)| - 1 ==> |HardSplit(p, maxLen)[i]| == maxLen
    ensures i == |HardSplit(p, maxLen)| - 1 ==> 1 <= |HardSplit(p, maxLen)[i]| <= maxLen
    decreases |p|
  {
    if |p| > maxLen {
      HardSplitExact(p[maxLen..], maxLen, if i > 0 then i - 1 else 0);
      assert p == p[..maxLen] + p[maxLen..];
      var pieces := HardSplit(p, maxLen);
      assert pieces[1..] == HardSplit(p[maxLen..], maxLen);
    } else {
      assert [p][1..] == [] && Concat([]) == [];
      assert p + [] == p;
    }
  }
}
