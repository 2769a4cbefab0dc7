/** Gregorian dates and day numbers, as Date.UTC and the UTC getters relate them (ECMA-262, section 21.4.1). */
module Calendar {

  /** A calendar date; months and days count from 1. */
  datatype Date = Date(y: int, m: int, d: int)

  const SUNDAY := 0
  const MONDAY := 1
  const THURSDAY := 4
  const SATURDAY := 6

  predicate Leap(y: int) {
    y % 4 == 0 && (y % 100 != 0 || y % 400 == 0)
  }

  function YearLength(y: int): int {
    if Leap(y) then 366 else 365
  }

  /** Days from 1970-01-01 to January 1 of y. */
  function DayFromYear(y: int): int {
    365 * (y - 1970) + (y - 1969) / 4 - (y - 1901) / 100 + (y - 1601) / 400
  }

  function MonthLength(y: int, m: int): int
    requires 1 <= m <= 12
  {
    if m == 2 then (if Leap(y) then 29 else 28)
    else if m == 4 || m == 6 || m == 9 || m == 11 then 30
    else 31
  }

  /** Days of the year before month m; m == 13 gives the whole year. */
  function DaysBefore(y: int, m: int): int
    requires 1 <= m <= 13
  {
    if m == 1 then 0 else DaysBefore(y, m - 1) + MonthLength(y, m - 1)
  }

  predicate Valid(t: Date) {
    1 <= t.m <= 12 && 1 <= t.d <= MonthLength(t.y, t.m)
  }

  /** Date.UTC: months and days out of range carry over. */
  function UtcDay(y: int, m: int, d: int): int {
    var year, month := y + (m - 1) / 12, (m - 1) % 12 + 1;
    DayFromYear(year) + DaysBefore(year, month) + d - 1
  }

  function DayNumber(t: Date): int {
    UtcDay(t.y, t.m, t.d)
  }

  /** 0 is Sunday; 1970-01-01 was a Thursday. */
  function Weekday(n: int): (w: int)
    ensures 0 <= w <= 6
  {
    (n + 4) % 7
  }

  lemma YearStep(y: int)
    ensures DayFromYear(y + 1) == DayFromYear(y) + YearLength(y)
  {
    Fours(y);
    Hundreds(y);
    FourHundreds(y);
  }

  lemma Fours(y: int)
    ensures (y - 1968) / 4 == (y - 1969) / 4 + (if y % 4 == 0 then 1 else 0)
  {}

  lemma Hundreds(y: int)
    ensures (y - 1900) / 100 == (y - 1901) / 100 + (if y % 100 == 0 then 1 else 0)
    ensures y % 100 == 0 ==> y % 4 == 0
  {}

  lemma FourHundreds(y: int)
    ensures (y - 1600) / 400 == (y - 1601) / 400 + (if y % 400 == 0 then 1 else 0)
    ensures y % 400 == 0 ==> y % 100 == 0
  {}

  lemma {:induction false} YearsOrdered(a: int, b: int)
    requires a <= b
    ensures DayFromYear(b) >= DayFromYear(a) + 365 * (b - a)
    decreases b - a
  {
    if a < b {
      YearsOrdered(a, b - 1);
      YearStep(b - 1);
    }
  }

  /** The leap pattern, and with it every weekday, repeats after 400 years. */
  lemma FourHundredYears(y: int)
    ensures DayFromYear(y + 400) == DayFromYear(y) + 146097 && Leap(y + 400) == Leap(y)
    ensures Weekday(DayFromYear(y + 400)) == Weekday(DayFromYear(y))
  {
    DaysShifted(y);
    LeapShifted(y);
    WeekdayShifted(DayFromYear(y));
  }

  lemma DaysShifted(y: int)
    ensures DayFromYear(y + 400) == DayFromYear(y) + 146097
  {
    Shifted(y - 1969, 4, 100);
    Shifted(y - 1901, 100, 4);
    Shifted(y - 1601, 400, 1);
    var a, b, c := (y - 1969) / 4, (y - 1901) / 100, (y - 1601) / 400;
    assert (y + 400 - 1969) / 4 == a + 100 && (y + 400 - 1901) / 100 == b + 4 && (y + 400 - 1601) / 400 == c + 1;
  }

  lemma WeekdayShifted(n: int)
    ensures Weekday(n + 146097) == Weekday(n)
  {
    assert n + 146097 + 4 == (n + 4) + 7 * 20871;
  }

  lemma Shifted(a: int, d: int, k: int)
    requires (d == 4 && k == 100) || (d == 100 && k == 4) || (d == 400 && k == 1)
    ensures (a + 400) / d == a / d + k
  {}

  lemma LeapShifted(y: int)
    ensures Leap(y + 400) == Leap(y)
  {}

  /** The year of a day number, walking from a guess. */
  function YearFrom(n: int, guess: int): (y: int)
    ensures DayFromYear(y) <= n < DayFromYear(y + 1)
    decreases if n < DayFromYear(guess) then DayFromYear(guess) - n
              else if DayFromYear(guess + 1) <= n then n - DayFromYear(guess)
              else 0
  {
    YearStep(guess); YearStep(guess - 1);
    if n < DayFromYear(guess) then YearFrom(n, guess - 1)
    else if DayFromYear(guess + 1) <= n then YearFrom(n, guess + 1)
    else guess
  }

  function YearOf(n: int): (y: int)
    ensures DayFromYear(y) <= n < DayFromYear(y + 1)
  {
    YearFrom(n, 1970 + n / 366)
  }

  /** The month holding a day of the year, walking from month m. */
  function MonthFrom(y: int, day: int, m: int): (r: int)
    requires 1 <= m <= 12 && DaysBefore(y, m) <= day < DaysBefore(y, 13)
    ensures m <= r <= 12 && DaysBefore(y, r) <= day < DaysBefore(y, r + 1)
    decreases 12 - m
  {
    if day < DaysBefore(y, m + 1) || m == 12 then m else MonthFrom(y, day, m + 1)
  }

  const TABLE := [59, 90, 120, 151, 181, 212, 243, 273, 304, 334, 365]

  lemma YearTable(y: int)
    ensures DaysBefore(y, 2) == 31 && DaysBefore(y, 3) == 59 + (if Leap(y) then 1 else 0)
    ensures forall m :: 3 <= m <= 13 ==> DaysBefore(y, m) == TABLE[m - 3] + (if Leap(y) then 1 else 0)
  {
    assert DaysBefore(y, 4) == DaysBefore(y, 3) + 31;
    assert DaysBefore(y, 5) == DaysBefore(y, 4) + 30;
    assert DaysBefore(y, 6) == DaysBefore(y, 5) + 31;
    assert DaysBefore(y, 7) == DaysBefore(y, 6) + 30;
    assert DaysBefore(y, 8) == DaysBefore(y, 7) + 31;
    assert DaysBefore(y, 9) == DaysBefore(y, 8) + 31;
    assert DaysBefore(y, 10) == DaysBefore(y, 9) + 30;
    assert DaysBefore(y, 11) == DaysBefore(y, 10) + 31;
    assert DaysBefore(y, 12) == DaysBefore(y, 11) + 30;
    assert DaysBefore(y, 13) == DaysBefore(y, 12) + 31;
  }

  lemma BeforeMonth(y: int, m: int)
    requires 3 <= m <= 13
    ensures DaysBefore(y, m) == TABLE[m - 3] + (if Leap(y) then 1 else 0)
  {
    hide Leap;
    YearTable(y);
  }

  lemma YearTotal(y: int)
    ensures DaysBefore(y, 13) == YearLength(y)
  {
    YearTable(y);
  }

  lemma CivilParts(n: int, y: int, m: int)
    requires 1 <= m <= 12 && DaysBefore(y, m) <= n - DayFromYear(y) < DaysBefore(y, m + 1)
    ensures var t := Date(y, m, n - DayFromYear(y) - DaysBefore(y, m) + 1); Valid(t) && DayNumber(t) == n
  {
    hide DayFromYear;
    DayNumberPlain(Date(y, m, n - DayFromYear(y) - DaysBefore(y, m) + 1));
  }

  /** getUTCFullYear, getUTCMonth + 1 and getUTCDate of a day number. */
  function Civil(n: int): (t: Date)
    ensures Valid(t) && DayNumber(t) == n
  {
    var y := YearOf(n);
    YearStep(y); YearTotal(y);
    var day := n - DayFromYear(y);
    var m := MonthFrom(y, day, 1);
    CivilParts(n, y, m);
    Date(y, m, day - DaysBefore(y, m) + 1)
  }

  lemma DayNumberPlain(t: Date)
    requires 1 <= t.m <= 12
    ensures DayNumber(t) == DayFromYear(t.y) + DaysBefore(t.y, t.m) + t.d - 1
  {}

  lemma {:induction false} MonthsOrdered(y: int, a: int, b: int)
    requires 1 <= a <= b <= 13
    ensures DaysBefore(y, b) >= DaysBefore(y, a)
    decreases b
  {
    if a < b { MonthsOrdered(y, a, b - 1); }
  }

  predicate Earlier(s: Date, t: Date) {
    s.y < t.y || (s.y == t.y && (s.m < t.m || (s.m == t.m && s.d < t.d)))
  }

  /** Day numbers order valid dates as the calendar does. */
  lemma DayNumberMonotone(s: Date, t: Date)
    requires Valid(s) && Valid(t) && Earlier(s, t)
    ensures DayNumber(s) < DayNumber(t)
  {
    hide DayFromYear, DayNumber;
    DayNumberPlain(s);
    DayNumberPlain(t);
    assert DaysBefore(s.y, s.m + 1) == DaysBefore(s.y, s.m) + MonthLength(s.y, s.m);
    assert DaysBefore(t.y, 1) == 0;
    hide DaysBefore, MonthLength, YearLength;
    MonthsOrdered(s.y, s.m + 1, 13);
    MonthsOrdered(t.y, 1, t.m);
    YearTotal(s.y);
    if s.y < t.y {
      YearStep(s.y);
      YearsOrdered(s.y + 1, t.y);
    } else if s.m < t.m {
      MonthsOrdered(s.y, s.m + 1, t.m);
    }
  }

  /** Day number and date are inverse to each other. */
  lemma CivilInverse(t: Date)
    requires Valid(t)
    ensures Civil(DayNumber(t)) == t
  {
    var u := Civil(DayNumber(t));
    if Earlier(u, t) { DayNumberMonotone(u, t); }
    if Earlier(t, u) { DayNumberMonotone(t, u); }
  }
}
