/** Strings as the gate sees them: sequences of UTF-16 code units, ordered by code unit. */
module Texts {

  type CodeUnit = u: int | 0 <= u < 0x1_0000
  type Text = seq<CodeUnit>

  /** A source literal as code units. */
  function Lit(s: string): (t: Text)
    ensures |t| == |s|
  {
    seq(|s|, i requires 0 <= i < |s| => (s[i] as int) % 0x1_0000)
  }

  predicate IsDigit(u: CodeUnit) { 48 <= u <= 57 }

  /** A lower-case SHA-256 hex digest. */
  predicate IsHex64(t: Text) {
    |t| == 64 && forall i :: 0 <= i < 64 ==> IsDigit(t[i]) || 97 <= t[i] <= 102
  }

  // ------------------------------------------------------------------- alphabets

  const UPPER := "ABCDEFGHIJKLMNOPQRSTUVWXYZ"
  const LOWER := "abcdefghijklmnopqrstuvwxyz"
  const DIGITS := "0123456789"

  /** Of these lengths, and of these characters only. */
  predicate SpelledIn(t: Text, alphabet: string, least: nat, most: nat) {
    least <= |t| <= most && forall i :: 0 <= i < |t| ==> t[i] in Lit(alphabet)
  }

  lemma InLit(u: CodeUnit, s: string)
    ensures u in Lit(s) <==> exists i :: 0 <= i < |s| && s[i] as int % 0x1_0000 == u
  {
    if i :| 0 <= i < |s| && s[i] as int % 0x1_0000 == u { assert Lit(s)[i] == u; }
  }

  lemma InUpper(u: CodeUnit)
    ensures u in Lit(UPPER) <==> 65 <= u <= 90
  {
    InLit(u, UPPER);
    hide Lit;
    assert forall i :: 0 <= i < 26 ==> UPPER[i] as int == 65 + i;
    if 65 <= u <= 90 { assert UPPER[u - 65] as int == u; }
  }

  lemma InLower(u: CodeUnit)
    ensures u in Lit(LOWER) <==> 97 <= u <= 122
  {
    InLit(u, LOWER);
    hide Lit;
    assert forall i :: 0 <= i < 26 ==> LOWER[i] as int == 97 + i;
    if 97 <= u <= 122 { assert LOWER[u - 97] as int == u; }
  }

  lemma InDigits(u: CodeUnit)
    ensures u in Lit(DIGITS) <==> IsDigit(u)
  {
    InLit(u, DIGITS);
    hide Lit;
    assert forall i :: 0 <= i < 10 ==> DIGITS[i] as int == 48 + i;
    if 48 <= u <= 57 { assert DIGITS[u - 48] as int == u; }
  }

  lemma InBoth(u: CodeUnit, s: string, t: string)
    ensures u in Lit(s + t) <==> u in Lit(s) || u in Lit(t)
  {
    InLit(u, s + t);
    InLit(u, s);
    InLit(u, t);
    hide Lit;
    if i :| 0 <= i < |s| && s[i] as int % 0x1_0000 == u { assert (s + t)[i] == s[i]; }
    if i :| 0 <= i < |t| && t[i] as int % 0x1_0000 == u { assert (s + t)[|s| + i] == t[i]; }
  }

  /** Letters, digits, and what else is given. */
  lemma InAlphabet(u: CodeUnit, more: string)
    ensures u in Lit(UPPER + LOWER + DIGITS + more) <==>
      IsDigit(u) || 65 <= u <= 90 || 97 <= u <= 122 || u in Lit(more)
  {
    InBoth(u, UPPER + LOWER + DIGITS, more);
    InBoth(u, UPPER + LOWER, DIGITS);
    InBoth(u, UPPER, LOWER);
    InUpper(u);
    InLower(u);
    InDigits(u);
    hide Lit;
  }

  // ---------------------------------------------------------------- ordering

  /** ECMAScript's default string order: lexicographic over code units. */
  predicate Before(a: Text, b: Text) {
    |b| > 0 && (|a| == 0 || a[0] < b[0] || (a[0] == b[0] && Before(a[1..], b[1..])))
  }

  lemma {:induction false} BeforeTotal(a: Text, b: Text)
    ensures Before(a, b) || a == b || Before(b, a)
  {
    if |a| > 0 && |b| > 0 && a[0] == b[0] {
      BeforeTotal(a[1..], b[1..]);
      assert a == [a[0]] + a[1..] && b == [b[0]] + b[1..];
    }
  }

  lemma {:induction false} BeforeAsymmetric(a: Text, b: Text)
    requires Before(a, b)
    ensures a != b && !Before(b, a)
  {
    if |a| > 0 && a[0] == b[0] {
      BeforeAsymmetric(a[1..], b[1..]);
    }
  }

  lemma {:induction false} BeforeTransitive(a: Text, b: Text, c: Text)
    requires Before(a, b) && Before(b, c)
    ensures Before(a, c)
  {
    if |a| > 0 && a[0] == b[0] == c[0] {
      BeforeTransitive(a[1..], b[1..], c[1..]);
    }
  }

  // ----------------------------------------------------------------- decimals

  /** The text of a natural number. */
  function Decimal(n: nat): (t: Text)
    ensures |t| > 0 && forall i :: 0 <= i < |t| ==> IsDigit(t[i])
  {
    if n < 10 then [48 + n] else Decimal(n / 10) + [48 + n % 10]
  }

  function DecimalValue(t: Text): int {
    if t == [] then 0 else DecimalValue(t[..|t| - 1]) * 10 + t[|t| - 1] - 48
  }

  lemma {:induction false} DecimalReadsBack(n: nat)
    ensures DecimalValue(Decimal(n)) == n
  {
    if n < 10 {
      assert Decimal(n)[..0] == [];
    } else {
      DecimalReadsBack(n / 10);
      assert Decimal(n)[..|Decimal(n)| - 1] == Decimal(n / 10);
    }
  }

  /** Two concatenations that agree agree piece by piece once the first pieces have equal length. */
  lemma SplitEqual<T>(a: seq<T>, r: seq<T>, b: seq<T>, q: seq<T>)
    requires a + r == b + q && |a| == |b|
    ensures a == b && r == q
  {
    assert (a + r)[..|a|] == a && (b + q)[..|b|] == b;
    assert (a + r)[|a|..] == r && (b + q)[|b|..] == q;
  }

  lemma Associates<T>(a: seq<T>, b: seq<T>, c: seq<T>)
    ensures (a + b) + c == a + (b + c)
  {}

  /** A member of a tail has a position in the whole. */
  lemma PositionInTail<T>(x: T, s: seq<T>) returns (k: nat)
    requires |s| > 0 && x in s[1..]
    ensures 0 < k < |s| && s[k] == x
  {
    var j :| 0 <= j < |s[1..]| && s[1..][j] == x;
    k := j + 1;
  }
}
