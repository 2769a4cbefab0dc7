/** Python strings: sequences of code points. */
module CodePoints {
  import Texts

  type Char = u: int | 0 <= u < 0x11_0000
  type Line = seq<Char>

  function Str(s: string): (t: Line)
    ensures |t| == |s|
  {
    seq(|s|, i requires 0 <= i < |s| => (s[i] as int) % 0x11_0000)
  }

  lemma InStr(u: Char, s: string)
    ensures u in Str(s) <==> exists i :: 0 <= i < |s| && s[i] as int % 0x11_0000 == u
  {
    if i :| 0 <= i < |s| && s[i] as int % 0x11_0000 == u { assert Str(s)[i] == u; }
  }

  /** Strings of small characters are the same in both encodings. */
  lemma InBothEncodings(u: Char, s: string)
    requires forall i :: 0 <= i < |s| ==> s[i] as int < 0x1_0000
    ensures u in Str(s) <==> u < 0x1_0000 && u in Texts.Lit(s)
  {
    InStr(u, s);
    if u < 0x1_0000 { Texts.InLit(u, s); }
  }

  const LETTERS := Texts.UPPER + Texts.LOWER

  lemma InLetters(u: Char, more: string)
    requires forall i :: 0 <= i < |more| ==> more[i] as int < 0x1_0000
    ensures u in Str(LETTERS + Texts.DIGITS + more) <==>
      48 <= u <= 57 || 65 <= u <= 90 || 97 <= u <= 122 || u in Str(more)
  {
    Small(more);
    InBothEncodings(u, LETTERS + Texts.DIGITS + more);
    InBothEncodings(u, more);
    if u < 0x1_0000 { Texts.InAlphabet(u, more); }
  }

  lemma Small(more: string)
    requires forall i :: 0 <= i < |more| ==> more[i] as int < 0x1_0000
    ensures var s := LETTERS + Texts.DIGITS + more; forall i :: 0 <= i < |s| ==> s[i] as int < 0x1_0000
  {}

  /** Python's whitespace, for str.strip and for \s. */
  predicate IsSpace(u: Char) {
    9 <= u <= 13 || 0x1c <= u <= 0x20 || u == 0x85 || u == 0xa0 || u == 0x1680 || 0x2000 <= u <= 0x200a
    || u == 0x2028 || u == 0x2029 || u == 0x202f || u == 0x205f || u == 0x3000
  }

  /** The code points of bidirectional class WS, B or S, or category Zs, one by one. */
  const SPACES: set<Char> := {
    0x09, 0x0a, 0x0b, 0x0c, 0x0d, 0x1c, 0x1d, 0x1e, 0x1f, 0x20, 0x85, 0xa0, 0x1680, 0x2000, 0x2001, 0x2002, 0x2003,
    0x2004, 0x2005, 0x2006, 0x2007, 0x2008, 0x2009, 0x200a, 0x2028, 0x2029, 0x202f, 0x205f, 0x3000}

  lemma SpacesAre(u: Char)
    ensures IsSpace(u) <==> u in SPACES
  {}
}
