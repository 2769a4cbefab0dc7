/** Lesson ids: the numbers they carry are doubles, exact up to 2^53. */
module LessonIds {
  import opened Options
  import opened Texts
  import opened LessonWords
  import opened Lessons

  // -------------------------------------------------------------------------- doubles

  /** Up to here a double holds every integer. */
  const EXACT: int := 0x20_0000_0000_0000

  /** The distance between neighbouring doubles around n. */
  function Spacing(n: nat): (u: nat)
    ensures u >= 1
  {
    if n < EXACT then 1 else 2 * Spacing(n / 2)
  }

  /** The nearest double, halves to the even one. */
  function RoundNat(n: nat): int {
    var u := Spacing(n);
    var q, r := n / u, n % u;
    if 2 * r < u || (2 * r == u && q % 2 == 0) then q * u else (q + 1) * u
  }

  function Round(n: int): int {
    if n < 0 then -RoundNat(-n) else RoundNat(n)
  }

  function Power(e: nat): (p: nat)
    ensures p >= 1
  {
    if e == 0 then 1 else 2 * Power(e - 1)
  }

  /** Doubles around n lie a power of two apart, the least that lets 53 bits reach n. */
  lemma {:induction false} SpacingIs(n: nat) returns (e: nat)
    ensures Spacing(n) == Power(e) && n < EXACT * Spacing(n) && (e > 0 ==> n >= EXACT / 2 * Spacing(n))
  {
    e := 0;
    if n >= EXACT {
      var f := SpacingIs(n / 2);
      e := f + 1;
    }
  }

  /** x is the nearest multiple of the spacing, the k-th, and of two as near the even one. */
  predicate IsRounded(n: nat, x: int, k: int) {
    var u := Spacing(n);
    x == k * u && 2 * x <= 2 * n + u && 2 * n <= 2 * x + u
    && (2 * x == 2 * n + u || 2 * n == 2 * x + u ==> k % 2 == 0)
  }

  /** Round rounds to the nearest double, on both sides of zero alike (IEEE 754, section 4.3.1). */
  lemma RoundIs(n: nat) returns (k: nat)
    ensures IsRounded(n, Round(n), k) && Round(0 - n) == 0 - Round(n)
  {
    hide *;
    var q, r, m := RoundNatIs(n);
    RoundSigned(n);
    Nearest(n, Spacing(n), q, r, m);
    k := if 2 * r < Spacing(n) || (2 * r == Spacing(n) && q % 2 == 0) then q else q + 1;
  }

  lemma Nearest(n: nat, u: nat, q: nat, r: nat, m: nat)
    requires u == Spacing(n) && m == q * u && (q + 1) * u == m + u && n == m + r && r < u
    ensures
      if 2 * r < u || (2 * r == u && q % 2 == 0) then IsRounded(n, m, q) else IsRounded(n, m + u, q + 1)
  {
    hide Spacing;
  }

  lemma Distribute(q: nat, u: nat)
    ensures (q + 1) * u == q * u + u
  {}

  lemma RoundNatIs(n: nat) returns (q: nat, r: nat, m: nat)
    ensures var u := Spacing(n); m == q * u && (q + 1) * u == m + u && n == m + r && r < u
    ensures RoundNat(n) ==
      if 2 * r < Spacing(n) || (2 * r == Spacing(n) && q % 2 == 0) then m else m + Spacing(n)
  {
    hide Spacing;
    q, r := n / Spacing(n), n % Spacing(n);
    m := q * Spacing(n);
    Distribute(q, Spacing(n));
  }

  lemma RoundSigned(n: nat)
    ensures Round(n) == RoundNat(n) && Round(0 - n) == 0 - RoundNat(n)
  {
    if n == 0 { RoundZero(); }
    hide RoundNat;
  }

  lemma RoundZero()
    ensures Round(0) == 0
  {}

  lemma SpacingAtBound(n: nat)
    requires EXACT <= n <= EXACT + 1
    ensures Spacing(n) == 2
  {
    assert n / 2 < EXACT;
    assert Spacing(n / 2) == 1;
  }

  lemma RoundExact(n: int)
    requires -EXACT <= n <= EXACT
    ensures Round(n) == n
  {
    var m: nat := if n < 0 then -n else n;
    if m < EXACT {
      assert Spacing(m) == 1 && m / 1 == m && m % 1 == 0;
    } else {
      SpacingAtBound(m);
    }
  }

  /** Adding one to 2^53 gives 2^53 again. */
  lemma RoundStays()
    ensures Round(EXACT + 1) == EXACT
  {
    SpacingAtBound(EXACT + 1);
  }

  // -------------------------------------------------------------------------- numbers

  /** How many digits the text begins with. */
  function DigitRun(t: Text): (k: nat)
    ensures k <= |t|
  {
    if t != [] && IsDigit(t[0]) then 1 + DigitRun(t[1..]) else 0
  }

  const MINUS: CodeUnit := '-' as int
  const PLUS: CodeUnit := '+' as int

  /** parseInt(t, 10); None is NaN. */
  function ParseInt(t: Text): Option<int> {
    var s := SkipSpace(t);
    var digits := if s != [] && (s[0] == MINUS || s[0] == PLUS) then s[1..] else s;
    var k := DigitRun(digits);
    if k == 0 then None
    else Some(Round(if s[0] == MINUS then -DecimalValue(digits[..k]) else DecimalValue(digits[..k])))
  }

  /** String(n) */
  function NumberText(p: Screens, n: int): Text {
    if n < -EXACT || EXACT < n then p.bigNumber(n)
    else if n < 0 then [MINUS] + Decimal(-n)
    else Decimal(n)
  }

  /** padStart(3, "0") */
  function PadThree(t: Text): Text {
    if |t| < 3 then seq(3 - |t|, _ => 48) + t else t
  }

  function IdPrefix(date: Text): Text {
    Lit("LRN-") + date + Lit("-")
  }

  function Numbers(lessons: seq<Lesson>, prefix: Text): seq<int> {
    if lessons == [] then []
    else
      var last := lessons[|lessons| - 1].id;
      var n := if StartsWith(last, prefix) then ParseInt(last[|prefix|..]) else None;
      Numbers(lessons[..|lessons| - 1], prefix) + (if n.Some? then [n.value] else [])
  }

  function Largest(s: seq<int>): int
    requires s != []
  {
    if |s| == 1 then s[0]
    else
      var rest := Largest(s[..|s| - 1]);
      if s[|s| - 1] > rest then s[|s| - 1] else rest
  }

  function NextNumber(numbers: seq<int>): int {
    Round((if numbers != [] then Largest(numbers) else 0) + 1)
  }

  function NextLessonId(p: Screens, lessons: seq<Lesson>, date: Text): Text {
    IdPrefix(date) + PadThree(NumberText(p, NextNumber(Numbers(lessons, IdPrefix(date)))))
  }

  lemma {:induction false} LargestIsUpperBound(s: seq<int>, i: nat)
    requires i < |s|
    ensures s[i] <= Largest(s)
  {
    if |s| > 1 && i < |s| - 1 { LargestIsUpperBound(s[..|s| - 1], i); }
  }

  lemma {:induction false} LargestIsOne(s: seq<int>) returns (i: nat)
    requires s != []
    ensures i < |s| && s[i] == Largest(s)
  {
    if |s| == 1 {
      i := 0;
    } else {
      i := LargestIsOne(s[..|s| - 1]);
      if s[|s| - 1] > s[i] { i := |s| - 1; }
    }
  }

  lemma {:induction false} NumberCounts(lessons: seq<Lesson>, prefix: Text, i: nat)
    requires i < |lessons| && StartsWith(lessons[i].id, prefix) && ParseInt(lessons[i].id[|prefix|..]).Some?
    ensures ParseInt(lessons[i].id[|prefix|..]).value in Numbers(lessons, prefix)
  {
    hide ParseInt;
    if i < |lessons| - 1 { NumberCounts(lessons[..|lessons| - 1], prefix, i); }
  }

  lemma {:induction false} NumberFrom(lessons: seq<Lesson>, prefix: Text, k: nat) returns (i: nat)
    requires k < |Numbers(lessons, prefix)|
    ensures i < |lessons| && StartsWith(lessons[i].id, prefix)
    ensures ParseInt(lessons[i].id[|prefix|..]) == Some(Numbers(lessons, prefix)[k])
  {
    hide ParseInt, StartsWith;
    var front := lessons[..|lessons| - 1];
    if k < |Numbers(front, prefix)| {
      i := NumberFrom(front, prefix, k);
    } else {
      i := |lessons| - 1;
    }
  }

  // --------------------------------------------------------------- numbers read back

  lemma {:induction false} AllDigits(t: Text)
    requires forall i :: 0 <= i < |t| ==> IsDigit(t[i])
    ensures DigitRun(t) == |t|
  {
    if t != [] { AllDigits(t[1..]); }
  }

  lemma ZeroInFront(t: Text)
    ensures DecimalValue([48] + t) == DecimalValue(t)
    decreases |t|
  {
    var z: Text := [48] + t;
    if t == [] {
      assert z[..0] == [];
    } else {
      ZeroInFront(t[..|t| - 1]);
      assert z[..|z| - 1] == [48] + t[..|t| - 1];
    }
  }

  /** A padded number reads back as itself, or as something larger. */
  lemma PaddedReads(p: Screens, n: int)
    requires -EXACT <= n <= EXACT
    ensures var r := ParseInt(PadThree(NumberText(p, n)));
      r.Some? && r.value >= n && (n >= 0 ==> r.value == n)
  {
    hide ParseInt, PadThree;
    if n >= 0 { PaddedDecimal(n); } else { NegativePadded(-n); }
  }

  lemma PaddedValue(t: Text)
    requires t != [] && forall i :: 0 <= i < |t| ==> IsDigit(t[i])
    ensures var padded := PadThree(t);
      && (forall i :: 0 <= i < |padded| ==> IsDigit(padded[i])) && |padded| >= 3
      && DecimalValue(padded) == DecimalValue(t)
  {
    hide DecimalValue;
    var padded := PadThree(t);
    if |t| == 2 {
      ZeroInFront(t);
      assert padded == [48] + t;
    } else if |t| == 1 {
      ZeroInFront(t);
      ZeroInFront([48] + t);
      assert padded == [48] + ([48] + t);
    }
  }

  lemma PaddedDecimal(n: nat)
    requires n <= EXACT
    ensures ParseInt(PadThree(Decimal(n))) == Some(n)
  {
    PaddedValue(Decimal(n));
    DecimalReadsBack(n);
    hide Decimal, DecimalValue, PadThree, Round;
    var padded := PadThree(Decimal(n));
    AllDigits(padded);
    assert padded[..|padded|] == padded;
    RoundExact(n);
  }

  lemma NegativePadded(m: nat)
    requires 0 < m <= EXACT
    ensures var r := ParseInt(PadThree([MINUS] + Decimal(m)));
      r.Some? && r.value + m >= 0
  {
    var t := Decimal(m);
    if |t| == 1 {
      ZeroThenSign(PadThree([MINUS] + t));
    } else {
      DecimalReadsBack(m);
      RoundExact(0 - m);
      hide Round, Decimal;
      SignedReads(t);
    }
  }

  /** A sign behind a zero is not read. */
  lemma ZeroThenSign(t: Text)
    requires |t| >= 2 && t[0] == 48 && t[1] == MINUS
    ensures ParseInt(t) == Some(0)
  {
    RoundExact(0);
    hide Round;
    assert DigitRun(t[1..]) == 0 && DigitRun(t) == 1;
    assert DecimalValue(t[..1]) == DecimalValue(t[..1][..0]) * 10;
  }

  lemma SignedReads(t: Text)
    requires |t| >= 2 && forall i :: 0 <= i < |t| ==> IsDigit(t[i])
    ensures ParseInt(PadThree([MINUS] + t)) == Some(Round(-DecimalValue(t)))
  {
    AllDigits(t);
    SignStays(t);
    hide *;
    ParsesSigned([MINUS] + t, t);
  }

  lemma SignStays(t: Text)
    requires |t| >= 2
    ensures PadThree([MINUS] + t) == [MINUS] + t && SkipSpace([MINUS] + t) == [MINUS] + t
  {}

  lemma ParsesSigned(s: Text, t: Text)
    requires s == [MINUS] + t && SkipSpace(s) == s && DigitRun(t) == |t| > 0
    ensures ParseInt(s) == Some(Round(-DecimalValue(t)))
  {
    hide Round, DecimalValue, SkipSpace, DigitRun;
    assert s[1..] == t && t[..|t|] == t;
  }

  // ---------------------------------------------------------------------- new ids

  ghost predicate IsFresh(p: Screens, lessons: seq<Lesson>, date: Text) {
    forall i :: 0 <= i < |lessons| ==> lessons[i].id != NextLessonId(p, lessons, date)
  }

  /** The numbers of the day's ids stay within the bound. */
  ghost predicate Within(lessons: seq<Lesson>, date: Text, bound: int) {
    var numbers := Numbers(lessons, IdPrefix(date));
    forall k :: 0 <= k < |numbers| ==> -bound <= numbers[k] <= bound
  }

  lemma NextExact(lessons: seq<Lesson>, date: Text, bound: int)
    requires 0 <= bound < EXACT && Within(lessons, date, bound)
    ensures var numbers := Numbers(lessons, IdPrefix(date));
      NextNumber(numbers) == (if numbers != [] then Largest(numbers) else 0) + 1
        && -bound < NextNumber(numbers) <= bound + 1
  {
    hide Round;
    var numbers := Numbers(lessons, IdPrefix(date));
    if numbers != [] {
      var i := LargestIsOne(numbers);
      RoundExact(Largest(numbers) + 1);
    } else {
      RoundExact(1);
    }
  }

  /** While the numbers of the day stay below 2^53, a new id is taken by no lesson of any ledger. */
  lemma NextIdFresh(p: Screens, lessons: seq<Lesson>, date: Text, bound: int)
    requires 0 <= bound < EXACT && Within(lessons, date, bound)
    ensures IsFresh(p, lessons, date)
  {
    var prefix := IdPrefix(date);
    var numbers := Numbers(lessons, prefix);
    var next := NextNumber(numbers);
    var suffix := PadThree(NumberText(p, next));
    NextExact(lessons, date, bound);
    hide ParseInt, PadThree, NumberText, Numbers, IdPrefix, Largest, NextNumber;
    PaddedReads(p, next);
    forall i | 0 <= i < |lessons| ensures lessons[i].id != prefix + suffix {
      if lessons[i].id == prefix + suffix {
        assert lessons[i].id[|prefix|..] == suffix;
        NumberCounts(lessons, prefix, i);
        var k :| 0 <= k < |numbers| && numbers[k] == ParseInt(suffix).value;
        LargestIsUpperBound(numbers, k);
      }
    }
  }

  /** With the id of number 2^53 in the ledger, the next id of the day is that id again. */
  lemma IdRepeats(p: Screens, date: Text) returns (lessons: seq<Lesson>)
    ensures lessons != [] && lessons[0].id == IdPrefix(date) + Decimal(EXACT)
    ensures Within(lessons, date, EXACT) && NextLessonId(p, lessons, date) == lessons[0].id
  {
    ThreeDigits(EXACT);
    PaddedDecimal(EXACT);
    hide *;
    lessons := RepeatsAt(p, date, Decimal(EXACT));
    BigText(p);
  }

  lemma BigText(p: Screens)
    ensures NumberText(p, EXACT) == Decimal(EXACT)
  {
    hide Decimal;
  }

  lemma RepeatsAt(p: Screens, date: Text, suffix: Text) returns (lessons: seq<Lesson>)
    requires |suffix| >= 3 && ParseInt(PadThree(suffix)) == Some(EXACT)
    ensures lessons != [] && lessons[0].id == IdPrefix(date) + suffix && Within(lessons, date, EXACT)
    ensures NumberText(p, EXACT) == suffix ==> NextLessonId(p, lessons, date) == lessons[0].id
  {
    var prefix := IdPrefix(date);
    var l := Lesson(prefix + suffix, [], [], [], Pending, [], [], [], None);
    lessons := [l];
    RoundStays();
    hide ParseInt, Round, IdPrefix, Numbers, NumberText;
    assert (prefix + suffix)[..|prefix|] == prefix && (prefix + suffix)[|prefix|..] == suffix;
    OneNumber(l, prefix);
  }

  lemma OneNumber(l: Lesson, prefix: Text)
    requires StartsWith(l.id, prefix) && ParseInt(l.id[|prefix|..]).Some?
    ensures Numbers([l], prefix) == [ParseInt(l.id[|prefix|..]).value]
  {
    hide ParseInt;
    var none: seq<Lesson> := [];
    assert Numbers(none, prefix) == [];
    assert [l][..0] == none;
  }

  lemma ThreeDigits(n: nat)
    requires n >= 100
    ensures |Decimal(n)| >= 3
  {
    assert Decimal(n) == Decimal(n / 10) + [48 + n % 10];
    assert Decimal(n / 10) == Decimal(n / 10 / 10) + [48 + n / 10 % 10];
  }

  /** Every ledger whose numbers of the day stay within the bound gets a fresh id. */
  ghost predicate AllFresh(p: Screens, bound: int) {
    forall lessons: seq<Lesson>, date: Text :: Within(lessons, date, bound) ==> IsFresh(p, lessons, date)
  }

  /** New ids are fresh exactly as long as the numbers of the day stay below 2^53. */
  lemma FreshIff(p: Screens, bound: nat)
    ensures AllFresh(p, bound) <==> bound < EXACT
  {
    hide NextLessonId;
    if bound < EXACT {
      forall lessons: seq<Lesson>, date: Text | Within(lessons, date, bound) ensures IsFresh(p, lessons, date) {
        NextIdFresh(p, lessons, date, bound);
      }
    } else {
      var lessons := IdRepeats(p, []);
      assert Within(lessons, [], bound) && !IsFresh(p, lessons, []);
    }
  }

  // ------------------------------------------------------------- ids the ledger itself made

  const HYPHEN: CodeUnit := 45

  predicate MadeFrom(id: Text, date: Text, k: nat) {
    HYPHEN !in date && id == IdPrefix(date) + PadThree(Decimal(k))
  }

  /** The id was made for some date with a number from 1 to n. */
  ghost predicate IsNumbered(id: Text, n: nat) {
    exists date, k :: 1 <= k <= n && MadeFrom(id, date, k)
  }

  ghost predicate Numbered(lessons: seq<Lesson>) {
    forall i :: 0 <= i < |lessons| ==> IsNumbered(lessons[i].id, |lessons|)
  }

  /** The date of an id ends at the hyphen that follows it. */
  lemma SameDate(d: Text, s: Text, date: Text)
    requires HYPHEN !in d && HYPHEN !in date && StartsWith(IdPrefix(d) + s, IdPrefix(date))
    ensures d == date
  {
    var head := Lit("LRN-");
    assert Lit("-") == [HYPHEN];
    hide Lit;
    var id := IdPrefix(d) + s;
    var prefix := IdPrefix(date);
    assert id[|head| + |d|] == HYPHEN && prefix[|head| + |date|] == HYPHEN;
    assert forall i :: 0 <= i < |prefix| ==> id[i] == id[..|prefix|][i] == prefix[i];
    assert forall i :: 0 <= i < |d| ==> id[|head| + i] == d[i] && d[i] != HYPHEN;
    assert forall i :: 0 <= i < |date| ==> prefix[|head| + i] == date[i] && date[i] != HYPHEN;
    assert |d| == |date|;
    assert forall i :: 0 <= i < |d| ==> d[i] == date[i];
  }

  lemma NumberedWithin(lessons: seq<Lesson>, date: Text)
    requires Numbered(lessons) && |lessons| <= EXACT && HYPHEN !in date
    ensures var numbers := Numbers(lessons, IdPrefix(date));
      (forall k :: 0 <= k < |numbers| ==> 1 <= numbers[k] <= |lessons|) && Within(lessons, date, |lessons|)
  {
    hide ParseInt, Numbers, IdPrefix, PadThree, Decimal;
    var prefix := IdPrefix(date);
    var numbers := Numbers(lessons, prefix);
    forall k | 0 <= k < |numbers| ensures 1 <= numbers[k] <= |lessons| {
      var i := NumberFrom(lessons, prefix, k);
      assert IsNumbered(lessons[i].id, |lessons|);
      var d, m :| 1 <= m <= |lessons| && MadeFrom(lessons[i].id, d, m);
      SameDate(d, PadThree(Decimal(m)), date);
      assert (prefix + PadThree(Decimal(m)))[|prefix|..] == PadThree(Decimal(m));
      PaddedDecimal(m);
    }
  }

  /** A ledger that made its own ids makes another: fresh, and numbered no higher than its new size. */
  lemma MakesNumbered(p: Screens, lessons: seq<Lesson>, date: Text)
    requires Numbered(lessons) && |lessons| < EXACT && HYPHEN !in date
    ensures IsFresh(p, lessons, date) && IsNumbered(NextLessonId(p, lessons, date), |lessons| + 1)
  {
    hide Numbers, IdPrefix, PadThree, Decimal, Largest, NextNumber;
    NumberedWithin(lessons, date);
    NextIdFresh(p, lessons, date, |lessons|);
    NextExact(lessons, date, |lessons|);
    var numbers := Numbers(lessons, IdPrefix(date));
    var next := NextNumber(numbers);
    if numbers != [] { var i := LargestIsOne(numbers); }
    assert 1 <= next <= |lessons| + 1;
    assert MadeFrom(NextLessonId(p, lessons, date), date, next);
  }

  lemma NumberedGrows(id: Text, m: nat, n: nat)
    requires IsNumbered(id, m) && m <= n
    ensures IsNumbered(id, n)
  {
    hide MadeFrom;
    var date, k :| 1 <= k <= m && MadeFrom(id, date, k);
  }
}
