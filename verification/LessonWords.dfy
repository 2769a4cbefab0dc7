/** Whitespace, words and word matches, as ECMAScript's trim, split and regular expressions have them. */
module LessonWords {
  import opened Texts

  predicate IsSpace(u: CodeUnit) {
    9 <= u <= 13 || u == 32 || u == 0xa0 || u == 0x1680 || 0x2000 <= u <= 0x200a || u == 0x2028 || u == 0x2029
    || u == 0x202f || u == 0x205f || u == 0x3000 || u == 0xfeff
  }

  function SkipSpace(t: Text): (r: Text)
    ensures |r| <= |t| && (r != [] ==> !IsSpace(r[0]))
  {
    if t != [] && IsSpace(t[0]) then SkipSpace(t[1..]) else t
  }

  function TrimEnd(t: Text): Text {
    if t != [] && IsSpace(t[|t| - 1]) then TrimEnd(t[..|t| - 1]) else t
  }

  function Trim(t: Text): Text { TrimEnd(SkipSpace(t)) }

  /** How many units stand before the first space. */
  function RunLength(t: Text): (n: nat)
    ensures n <= |t|
    ensures forall k :: 0 <= k < n ==> !IsSpace(t[k])
    ensures n < |t| ==> IsSpace(t[n])
  {
    if t == [] || IsSpace(t[0]) then 0 else 1 + RunLength(t[1..])
  }

  /** split(/\s+/) */
  function Split(t: Text): seq<Text>
    decreases |t|
  {
    var n := RunLength(t);
    if n == |t| then [t] else [t[..n]] + Split(SkipSpace(t[n + 1..]))
  }

  /** Words of company names that tell no party apart. */
  function Stopwords(): seq<Text> {
    [Lit("inc"), Lit("inc."), Lit("llc"), Lit("corp"), Lit("corp."), Lit("ltd"), Lit("ltd."), Lit("co"), Lit("co."),
     Lit("company"), Lit("the"), Lit("and"), Lit("group"), Lit("plc"), Lit("lp"), Lit("llp")]
  }

  predicate IsToken(w: Text) {
    |w| >= 4 && w !in Stopwords()
  }

  function Kept(words: seq<Text>): seq<Text> {
    if words == [] then [] else (if IsToken(words[0]) then [words[0]] else []) + Kept(words[1..])
  }

  function Tokens(name: Text): seq<Text> { Kept(Split(name)) }

  /** \w */
  predicate IsWordUnit(u: CodeUnit) {
    IsDigit(u) || 65 <= u <= 90 || 97 <= u <= 122 || u == 95
  }

  /** \b */
  predicate Boundary(t: Text, i: nat)
    requires i <= |t|
  {
    (i > 0 && IsWordUnit(t[i - 1])) != (i < |t| && IsWordUnit(t[i]))
  }

  predicate StandsAt(hay: Text, needle: Text, i: nat) {
    i + |needle| <= |hay| && hay[i..i + |needle|] == needle
  }

  /** The endings a word may carry: either possessive, plural, or none. */
  function Endings(): seq<Text> { [Lit("'s"), [0x2019, 115], Lit("s"), []] }

  predicate WordAt(hay: Text, word: Text, i: nat) {
    StandsAt(hay, word, i) && Boundary(hay, i) && Boundary(hay, i + |word|)
  }

  /** The regular expression built for a token matches somewhere. */
  predicate HasWord(hay: Text, w: Text) {
    exists k, i :: 0 <= k < |Endings()| && 0 <= i <= |hay| && WordAt(hay, w + Endings()[k], i)
  }

  /** White space and line terminators (ECMA-262, sections 12.2 and 12.3), one by one. */
  const SPACES: set<CodeUnit> := {
    0x09, 0x0a, 0x0b, 0x0c, 0x0d, 0x20, 0xa0, 0x1680, 0x2000, 0x2001, 0x2002, 0x2003, 0x2004, 0x2005, 0x2006, 0x2007,
    0x2008, 0x2009, 0x200a, 0x2028, 0x2029, 0x202f, 0x205f, 0x3000, 0xfeff}

  lemma SpacesAre(u: CodeUnit)
    ensures IsSpace(u) <==> u in SPACES
  {}

  /** \w is a letter, a digit or the underscore. */
  lemma WordUnitsAre(u: CodeUnit)
    ensures IsWordUnit(u) <==> u in Lit(UPPER + LOWER + DIGITS + "_")
  {
    InAlphabet(u, "_");
    InLit(u, "_");
    hide Lit;
    assert "_"[0] as int == 95;
  }

  // ------------------------------------------------------------- the words of a name

  /** w stands at t[i..j], a stretch without spaces that is as long as it goes. */
  predicate IsRun(t: Text, i: int, j: int, w: Text) {
    && 0 <= i <= j <= |t| && w == t[i..j]
    && (forall k :: 0 <= k < |w| ==> !IsSpace(w[k]))
    && (i == 0 || IsSpace(t[i - 1])) && (j == |t| || IsSpace(t[j]))
  }

  ghost predicate HasRun(t: Text, w: Text) {
    exists i, j :: IsRun(t, i, j, w)
  }

  lemma {:induction false} KeptAre(words: seq<Text>, w: Text)
    ensures w in Kept(words) <==> w in words && IsToken(w)
  {
    hide IsToken;
    if words != [] {
      KeptAre(words[1..], w);
      assert words == [words[0]] + words[1..];
    }
  }

  /** The pieces that are not empty are the runs. */
  lemma {:induction false} SplitAre(t: Text, w: Text)
    requires w != []
    ensures w in Split(t) <==> HasRun(t, w)
    decreases |t|
  {
    var n := RunLength(t);
    hide IsSpace, IsRun;
    if n == |t| {
      hide HasRun;
      WholeRun(t, w);
    } else {
      var rest := SkipSpace(t[n + 1..]);
      SplitAre(rest, w);
      SplitStep(t, w);
      hide Split, HasRun;
      var skipped := SkippedAre(t[n + 1..]);
      BehindSpaces(t, n, t[n + 1..], skipped);
      RunsBehind(t, n, n + 1 + skipped, w);
    }
  }

  lemma SplitStep(t: Text, w: Text)
    requires RunLength(t) < |t|
    ensures w in Split(t) <==> w == t[..RunLength(t)] || w in Split(SkipSpace(t[RunLength(t) + 1..]))
  {
    hide SkipSpace, IsSpace;
  }

  lemma BehindSpaces(t: Text, n: nat, rest: Text, skipped: nat)
    requires n < |t| && rest == t[n + 1..] && skipped <= |rest| && IsSpace(t[n])
    requires forall k :: 0 <= k < skipped ==> IsSpace(rest[k])
    ensures rest[skipped..] == t[n + 1 + skipped..]
    ensures forall k :: n <= k < n + 1 + skipped ==> IsSpace(t[k])
  {
    hide IsSpace;
    forall k | n <= k < n + 1 + skipped ensures IsSpace(t[k]) {
      if k > n { assert t[k] == rest[k - n - 1]; }
    }
  }

  lemma SkippedAre(t: Text) returns (n: nat)
    ensures n <= |t| && SkipSpace(t) == t[n..] && forall k :: 0 <= k < n ==> IsSpace(t[k])
  {
    hide IsSpace;
    n := 0;
    if t != [] && IsSpace(t[0]) {
      var m := SkippedAre(t[1..]);
      n := m + 1;
      assert t[1..][m..] == t[n..];
      forall k | 0 <= k < n ensures IsSpace(t[k]) {
        if k > 0 { assert t[k] == t[1..][k - 1]; }
      }
    }
  }

  lemma WholeRun(t: Text, w: Text)
    requires w != [] && forall k :: 0 <= k < |t| ==> !IsSpace(t[k])
    ensures w in [t] <==> HasRun(t, w)
  {
    hide IsSpace;
    if w == t { assert t[0..|t|] == t && IsRun(t, 0, |t|, w); }
  }

  /** The runs of a text are the first one and those behind the spaces that follow it. */
  lemma RunsBehind(t: Text, n: nat, m: nat, w: Text)
    requires w != [] && n < m <= |t|
    requires (forall k :: 0 <= k < n ==> !IsSpace(t[k])) && (forall k :: n <= k < m ==> IsSpace(t[k]))
    ensures HasRun(t, w) <==> w == t[..n] || HasRun(t[m..], w)
  {
    hide IsSpace;
    if HasRun(t, w) {
      var i, j :| IsRun(t, i, j, w);
      assert !IsSpace(w[0]) && t[i] == w[0];
      if i < n { FirstRun(t, n, i, j, w); } else { RunShifts(t, m, i, j, w); }
    }
    if w == t[..n] { assert t[0..n] == t[..n] && IsRun(t, 0, n, w); }
    if HasRun(t[m..], w) {
      var i, j :| IsRun(t[m..], i, j, w);
      RunUnshifts(t, m, i, j, w);
    }
  }

  lemma FirstRun(t: Text, n: nat, i: nat, j: nat, w: Text)
    requires n < |t| && (forall k :: 0 <= k < n ==> !IsSpace(t[k])) && IsSpace(t[n]) && IsRun(t, i, j, w) && i < n
    ensures w == t[..n]
  {
    hide IsSpace;
    assert i == 0;
    forall k | 0 <= k < j ensures !IsSpace(t[k]) { assert t[k] == w[k]; }
    assert j == n;
  }

  lemma RunShifts(t: Text, m: nat, i: nat, j: nat, w: Text)
    requires m <= i && IsRun(t, i, j, w)
    ensures IsRun(t[m..], i - m, j - m, w)
  {
    hide IsSpace;
  }

  lemma RunUnshifts(t: Text, m: nat, i: nat, j: nat, w: Text)
    requires 0 < m <= |t| && IsSpace(t[m - 1]) && IsRun(t[m..], i, j, w)
    ensures IsRun(t, i + m, j + m, w)
  {
    hide IsSpace;
    var rest := t[m..];
    assert t[i + m..j + m] == rest[i..j];
    if i > 0 { assert t[i + m - 1] == rest[i - 1]; }
    if j < |rest| { assert t[j + m] == rest[j]; }
  }

  /** A token is a run of four units or more that is no stopword. */
  lemma TokensAre(name: Text, w: Text)
    ensures w in Tokens(name) <==> HasRun(name, w) && |w| >= 4 && w !in Stopwords()
  {
    hide Split, Stopwords, HasRun, Kept;
    KeptAre(Split(name), w);
    if w != [] { SplitAre(name, w); }
  }

  /** Trimming cuts spaces, and all of them, at both ends. */
  lemma TrimIs(t: Text) returns (i: nat, j: nat)
    ensures i <= j <= |t| && Trim(t) == t[i..j]
    ensures (forall k :: 0 <= k < i || j <= k < |t| ==> IsSpace(t[k]))
    ensures i < j ==> !IsSpace(t[i]) && !IsSpace(t[j - 1])
  {
    hide IsSpace;
    i := SkippedAre(t);
    var rest := t[i..];
    assert rest == SkipSpace(t);
    var n := TrimmedAre(rest);
    j := i + n;
    assert rest[..n] == t[i..j];
    forall k | j <= k < |t| ensures IsSpace(t[k]) { assert t[k] == rest[k - i]; }
    assert n > 0 ==> rest[0] == t[i] && rest[n - 1] == t[j - 1];
  }

  lemma TrimmedAre(t: Text) returns (n: nat)
    ensures n <= |t| && TrimEnd(t) == t[..n] && (forall k :: n <= k < |t| ==> IsSpace(t[k]))
    ensures n > 0 ==> !IsSpace(t[n - 1])
  {
    hide IsSpace;
    n := |t|;
    if t != [] && IsSpace(t[|t| - 1]) {
      n := TrimmedAre(t[..|t| - 1]);
      assert t[..|t| - 1][..n] == t[..n];
    }
  }

  // ------------------------------------------------------------ words in a text, spelled out

  ghost predicate Contains(hay: Text, needle: Text) {
    exists a, b :: hay == a + needle + b
  }

  lemma StandsIn(hay: Text, needle: Text, i: nat)
    requires StandsAt(hay, needle, i)
    ensures hay == hay[..i] + needle + hay[i + |needle|..]
  {}

  lemma StandsBehind(a: Text, needle: Text, b: Text)
    ensures StandsAt(a + needle + b, needle, |a|)
  {
    assert (a + needle + b)[|a|..|a| + |needle|] == needle;
  }

  predicate EndsInWord(t: Text) { t != [] && IsWordUnit(t[|t| - 1]) }

  predicate BeginsWithWord(t: Text) { t != [] && IsWordUnit(t[0]) }

  predicate IsEnding(t: Text) {
    t == [] || t == Lit("s") || t == Lit("'s") || t == [0x2019, 115]
  }

  /** The word stands in the text, with one of its endings, between the edges of words. */
  ghost predicate StandsAsWord(hay: Text, a: Text, w: Text, ending: Text, b: Text) {
    && hay == a + (w + ending) + b && IsEnding(ending)
    && EndsInWord(a) != BeginsWithWord(w + ending + b)
    && EndsInWord(a + w + ending) != BeginsWithWord(b)
  }

  ghost predicate ContainsWord(hay: Text, w: Text) {
    exists a, ending, b :: StandsAsWord(hay, a, w, ending, b)
  }

  lemma EndingsAre(t: Text)
    ensures IsEnding(t) <==> exists k :: 0 <= k < |Endings()| && Endings()[k] == t
  {
    var es := Endings();
    assert es[0] == Lit("'s") && es[1] == [0x2019, 115] && es[2] == Lit("s") && es[3] == [];
    hide Lit;
  }

  lemma EdgesAre(a: Text, x: Text, b: Text)
    ensures var hay := a + x + b;
      && (Boundary(hay, |a|) <==> EndsInWord(a) != BeginsWithWord(x + b))
      && (Boundary(hay, |a + x|) <==> EndsInWord(a + x) != BeginsWithWord(b))
  {
    hide IsWordUnit;
    var hay := a + x + b;
    assert hay == a + (x + b);
    assert a != [] ==> hay[|a| - 1] == a[|a| - 1];
    assert x + b != [] ==> hay[|a|] == (x + b)[0];
    assert a + x != [] ==> hay[|a + x| - 1] == (a + x)[|a + x| - 1];
    assert b != [] ==> hay[|a + x|] == b[0];
  }

  /** The regular expression says what the words of the rule say. */
  lemma HasWordIs(hay: Text, w: Text)
    ensures HasWord(hay, w) <==> ContainsWord(hay, w)
  {
    hide IsEnding, Endings, Boundary, EndsInWord, BeginsWithWord;
    if HasWord(hay, w) {
      var k, i :| 0 <= k < |Endings()| && 0 <= i <= |hay| && WordAt(hay, w + Endings()[k], i);
      var ending := Endings()[k];
      EndingsAre(ending);
      StandsIn(hay, w + ending, i);
      WordFound(hay, hay[..i], w, ending, hay[i + |w + ending|..]);
    }
    if ContainsWord(hay, w) {
      var a, ending, b :| StandsAsWord(hay, a, w, ending, b);
      EndingsAre(ending);
      StandsBehind(a, w + ending, b);
      WordFound(hay, a, w, ending, b);
    }
  }

  lemma WordFound(hay: Text, a: Text, w: Text, ending: Text, b: Text)
    requires hay == a + (w + ending) + b && IsEnding(ending) && StandsAt(hay, w + ending, |a|)
    ensures WordAt(hay, w + ending, |a|) <==> StandsAsWord(hay, a, w, ending, b)
  {
    hide IsEnding, Boundary, EndsInWord, BeginsWithWord, StandsAt;
    EdgesAre(a, w + ending, b);
    assert a + w + ending == a + (w + ending);
    assert |a + (w + ending)| == |a| + |w + ending|;
  }
}
