/** The observed federal holidays of a year (5 U.S.C. 6103) and business days. */
module Holidays {
  import opened Calendar

  function AddDays(t: Date, n: int): Date {
    Civil(DayNumber(t) + n)
  }

  function Dow(y: int, m: int, d: int): int {
    Weekday(UtcDay(y, m, d))
  }

  /** The n-th given weekday of a month. */
  function NthWeekday(year: int, month: int, weekday: int, n: int): Date {
    Date(year, month, 1 + (weekday - Dow(year, month, 1) + 7) % 7 + (n - 1) * 7)
  }

  /** Day 0 of the next month is the last of this one; walk back to its Monday. */
  function LastMonday(year: int, month: int): Date {
    var last := UtcDay(year, month + 1, 0);
    Civil(last - (Weekday(last) - MONDAY + 7) % 7)
  }

  /** Saturday is observed on Friday, Sunday on Monday. */
  function ObservedFixed(t: Date): Date {
    var dow := Dow(t.y, t.m, t.d);
    if dow == SATURDAY then AddDays(t, -1) else if dow == SUNDAY then AddDays(t, 1) else t
  }

  /** Month and day of the fixed holidays: New Year, Juneteenth, Independence, Veterans, Christmas. */
  const FIXED: seq<(int, int)> := [(1, 1), (6, 19), (7, 4), (11, 11), (12, 25)]

  function FixedIn(year: int, n: nat): set<Date>
    requires n <= 5
  {
    if n == 0 then {}
    else
      var o := ObservedFixed(Date(year, FIXED[n - 1].0, FIXED[n - 1].1));
      FixedIn(year, n - 1) + (if o.y == year then {o} else {})
  }

  function YearEnd(year: int): set<Date> {
    if ObservedFixed(Date(year + 1, 1, 1)).y == year then {Date(year, 12, 31)} else {}
  }

  function Floating(year: int): set<Date> {
    { NthWeekday(year, 1, MONDAY, 3), NthWeekday(year, 2, MONDAY, 3), LastMonday(year, 5),
      NthWeekday(year, 9, MONDAY, 1), NthWeekday(year, 10, MONDAY, 2), NthWeekday(year, 11, THURSDAY, 4) }
  }

  function HolidaySet(year: int): set<Date> {
    FixedIn(year, 5) + YearEnd(year) + Floating(year)
  }

  method FederalHolidays(year: int) returns (result: set<Date>)
    ensures result == HolidaySet(year)
  {
    hide ObservedFixed, NthWeekday, LastMonday;
    result := {};
    for i := 0 to 5
      invariant result == FixedIn(year, i)
    {
      var o := ObservedFixed(Date(year, FIXED[i].0, FIXED[i].1));
      if o.y == year { result := result + {o}; }
    }
    var next := ObservedFixed(Date(year + 1, 1, 1));
    if next.y == year { result := result + {Date(year, 12, 31)}; }
    result := result + {NthWeekday(year, 1, MONDAY, 3)};
    result := result + {NthWeekday(year, 2, MONDAY, 3)};
    result := result + {LastMonday(year, 5)};
    result := result + {NthWeekday(year, 9, MONDAY, 1)};
    result := result + {NthWeekday(year, 10, MONDAY, 2)};
    result := result + {NthWeekday(year, 11, THURSDAY, 4)};
  }

  predicate IsBusinessDay(t: Date) {
    var dow := Dow(t.y, t.m, t.d);
    dow != SUNDAY && dow != SATURDAY && t !in HolidaySet(t.y)
  }

  // ---------------------------------------------------------- the statute, independently

  datatype Holiday =
    | NewYear | King | Washington | Memorial | Juneteenth | Independence
    | Labor | Columbus | Veterans | Thanksgiving | Christmas

  /** How many of the first d days of the month fall on the weekday. */
  function CountUpTo(y: int, m: int, weekday: int, d: nat): nat {
    if d == 0 then 0 else CountUpTo(y, m, weekday, d - 1) + (if Dow(y, m, d) == weekday then 1 else 0)
  }

  /** t is the n-th given weekday of month m of year y. */
  predicate IsNth(t: Date, y: int, m: int, weekday: int, n: int) {
    t.y == y && t.m == m && Valid(t) && Weekday(DayNumber(t)) == weekday && CountUpTo(y, m, weekday, t.d) == n
  }

  predicate IsLastMonday(t: Date, y: int, m: int) {
    t.y == y && t.m == m && Valid(t) && Weekday(DayNumber(t)) == MONDAY && t.d + 7 > MonthLength(y, m)
  }

  /** t is where the holiday that falls on (y, m, d) is observed. */
  predicate IsObserved(t: Date, y: int, m: int, d: int) {
    Valid(t) &&
    var n := DayNumber(Date(y, m, d));
    DayNumber(t) == if Weekday(n) == SATURDAY then n - 1 else if Weekday(n) == SUNDAY then n + 1 else n
  }

  /** The holiday h of year y is observed on t. */
  predicate Observes(h: Holiday, y: int, t: Date) {
    match h
    case NewYear => IsObserved(t, y, 1, 1)
    case King => IsNth(t, y, 1, MONDAY, 3)
    case Washington => IsNth(t, y, 2, MONDAY, 3)
    case Memorial => IsLastMonday(t, y, 5)
    case Juneteenth => IsObserved(t, y, 6, 19)
    case Independence => IsObserved(t, y, 7, 4)
    case Labor => IsNth(t, y, 9, MONDAY, 1)
    case Columbus => IsNth(t, y, 10, MONDAY, 2)
    case Veterans => IsObserved(t, y, 11, 11)
    case Thanksgiving => IsNth(t, y, 11, THURSDAY, 4)
    case Christmas => IsObserved(t, y, 12, 25)
  }

  // -------------------------------------------------------------- weekdays of a month

  lemma DayInMonth(y: int, m: int, d: int)
    requires 1 <= m <= 12
    ensures UtcDay(y, m, d) == UtcDay(y, m, 1) + d - 1
    ensures UtcDay(y, m, d) == DayNumber(Date(y, m, d)) == DayFromYear(y) + DaysBefore(y, m) + d - 1
  {
    hide DayFromYear, DaysBefore, MonthLength;
    assert (m - 1) / 12 == 0 && (m - 1) % 12 == m - 1;
  }

  function FirstDay(y: int, m: int, weekday: int): int {
    1 + (weekday - Dow(y, m, 1) + 7) % 7
  }

  lemma WeekdayInMonth(y: int, m: int, d: int, weekday: int)
    requires 1 <= m <= 12 && 0 <= weekday <= 6
    ensures Dow(y, m, d) == weekday <==> (d - FirstDay(y, m, weekday)) % 7 == 0
  {
    hide UtcDay;
    DayInMonth(y, m, d);
    ModSeven(UtcDay(y, m, 1), d, weekday);
  }

  lemma ModSeven(one: int, d: int, weekday: int)
    requires 0 <= weekday <= 6
    ensures Weekday(one + d - 1) == weekday <==> (d - 1 - (weekday - Weekday(one) + 7) % 7) % 7 == 0
  {
    var a, q := Weekday(one), (one + 4) / 7;
    assert one + 4 == 7 * q + a;
    var r := (weekday - a + 7) % 7;
    assert weekday - a + 7 == r || weekday - a + 7 == r + 7;
    var k := if weekday - a + 7 == r then q - 1 else q;
    hide Weekday;
    WeekdayOf(one + d - 1, weekday);
    Multiple(one + d - 1 + 4 - weekday, d - 1 - r, if weekday - a + 7 == r then q + 1 else q);
  }

  lemma WeekdayOf(n: int, weekday: int)
    requires 0 <= weekday <= 6
    ensures Weekday(n) == weekday <==> (n + 4 - weekday) % 7 == 0
  {}

  lemma Multiple(u: int, v: int, k: int)
    requires u == v + 7 * k
    ensures u % 7 == v % 7
  {}

  lemma {:induction false} CountFormula(y: int, m: int, weekday: int, d: nat)
    requires 1 <= m <= 12 && 0 <= weekday <= 6
    ensures CountUpTo(y, m, weekday, d) == if d < FirstDay(y, m, weekday) then 0
      else (d - FirstDay(y, m, weekday)) / 7 + 1
  {
    hide Dow, FirstDay;
    FirstDayRange(y, m, weekday);
    if d > 0 {
      CountFormula(y, m, weekday, d - 1);
      WeekdayInMonth(y, m, d, weekday);
    }
  }

  lemma FirstDayRange(y: int, m: int, weekday: int)
    ensures 1 <= FirstDay(y, m, weekday) <= 7
  {}

  /** nthWeekday is truly the n-th such weekday, inside its month. */
  lemma NthWeekdayIsNth(y: int, m: int, weekday: int, n: int)
    requires 1 <= m <= 12 && 0 <= weekday <= 6 && 1 <= n <= 4
    ensures IsNth(NthWeekday(y, m, weekday, n), y, m, weekday, n)
    ensures 7 * n - 6 <= NthWeekday(y, m, weekday, n).d <= 7 * n
  {
    var t := NthWeekday(y, m, weekday, n);
    assert t.d == FirstDay(y, m, weekday) + (n - 1) * 7;
    FirstDayRange(y, m, weekday);
    assert Valid(t) by { hide Dow, FirstDay, Leap; }
    hide Dow, FirstDay, UtcDay, MonthLength, DayNumber, Weekday;
    WeekdayInMonth(y, m, t.d, weekday);
    Sevens(n - 1);
    CountFormula(y, m, weekday, t.d);
    DowIsWeekday(t);
  }

  lemma Sevens(k: int)
    ensures k * 7 % 7 == 0 && k * 7 / 7 == k
  {}

  lemma DowIsWeekday(t: Date)
    ensures Dow(t.y, t.m, t.d) == Weekday(DayNumber(t))
  {}

  lemma NthWeekdayUnique(t: Date, y: int, m: int, weekday: int, n: int)
    requires 1 <= m <= 12 && 0 <= weekday <= 6 && 1 <= n <= 4 && IsNth(t, y, m, weekday, n)
    ensures t == NthWeekday(y, m, weekday, n)
  {
    DowIsWeekday(t);
    assert NthWeekday(y, m, weekday, n).d == FirstDay(y, m, weekday) + (n - 1) * 7;
    hide Dow, FirstDay, DayNumber;
    FirstDayRange(y, m, weekday);
    WeekdayInMonth(y, m, t.d, weekday);
    CountFormula(y, m, weekday, t.d);
  }

  /** Day 0 of the next month, in December of the next year, is the last day of the month. */
  lemma LastDay(y: int, m: int)
    requires 1 <= m <= 12
    ensures UtcDay(y, m + 1, 0) == DayNumber(Date(y, m, MonthLength(y, m)))
  {
    hide UtcDay, DayNumber, DayFromYear, MonthLength;
    DayInMonth(y, m, MonthLength(y, m));
    if m == 12 { LastOfDecember(y); } else { DayInMonth(y, m + 1, 0); }
  }

  lemma LastOfDecember(y: int)
    ensures UtcDay(y, 13, 0) == DayFromYear(y) + DaysBefore(y, 12) + MonthLength(y, 12) - 1
  {
    YearStep(y);
    YearTotal(y);
    assert UtcDay(y, 13, 0) == DayFromYear(y + 1) + DaysBefore(y + 1, 1) - 1 by {
      hide DayFromYear, DaysBefore;
    }
    assert DaysBefore(y + 1, 1) == 0 && DaysBefore(y, 13) == DaysBefore(y, 12) + MonthLength(y, 12);
    hide DayFromYear, DaysBefore, UtcDay, YearLength;
  }

  /** lastMonday is the last Monday of its month. */
  lemma LastMondayIsLast(y: int, m: int)
    requires 1 <= m <= 12
    ensures IsLastMonday(LastMonday(y, m), y, m)
  {
    hide UtcDay, DaysBefore, DayFromYear, Civil;
    var last := UtcDay(y, m + 1, 0);
    LastDay(y, m);
    var back := (Weekday(last) - MONDAY + 7) % 7;
    MondayBack(last);
    var t := Date(y, m, MonthLength(y, m) - back);
    DayInMonth(y, m, MonthLength(y, m));
    DayInMonth(y, m, t.d);
    CivilInverse(t);
  }

  lemma MondayBack(n: int)
    ensures Weekday(n - (Weekday(n) - MONDAY + 7) % 7) == MONDAY
  {
    var q := (n + 4) / 7;
    assert n + 4 == 7 * q + Weekday(n);
  }

  lemma LastMondayUnique(s: Date, t: Date, y: int, m: int)
    requires 1 <= m <= 12 && IsLastMonday(s, y, m) && IsLastMonday(t, y, m)
    ensures s == t
  {
    hide UtcDay;
    DayInMonth(y, m, s.d);
    DayInMonth(y, m, t.d);
    SameWeekday(DayNumber(s), DayNumber(t));
  }

  lemma SameWeekday(a: int, b: int)
    requires Weekday(a) == Weekday(b) && -7 < a - b < 7
    ensures a == b
  {}

  // --------------------------------------------------------------- observed fixed dates

  lemma ObservedFixedIs(t: Date)
    requires Valid(t)
    ensures IsObserved(ObservedFixed(t), t.y, t.m, t.d)
  {
    hide UtcDay, Civil;
    DowIsWeekday(t);
  }

  /** Dates are determined by their day numbers. */
  lemma DayNumberInjective(s: Date, t: Date)
    requires Valid(s) && Valid(t) && DayNumber(s) == DayNumber(t)
    ensures s == t
  {
    hide DayNumber, Civil;
    CivilInverse(s);
    CivilInverse(t);
  }

  lemma ObservedUnique(t: Date, y: int, m: int, d: int)
    requires Valid(Date(y, m, d)) && IsObserved(t, y, m, d)
    ensures t == ObservedFixed(Date(y, m, d))
  {
    ObservedFixedIs(Date(y, m, d));
    hide DayNumber, ObservedFixed, Weekday;
    DayNumberInjective(t, ObservedFixed(Date(y, m, d)));
  }

  /** A fixed holiday other than New Year stays in its month; New Year may fall back to December 31. */
  lemma ObservedPlace(y: int, m: int, d: int)
    requires Valid(Date(y, m, d)) && d < MonthLength(y, m)
    ensures var o := ObservedFixed(Date(y, m, d));
      && (d > 1 ==> o.y == y && o.m == m && d - 1 <= o.d <= d + 1)
      && (m == d == 1 ==> o == Date(y - 1, 12, 31) || (o.y == y && o.m == 1 && 1 <= o.d <= 2))
      && (m == d == 1 ==> (o.y == y - 1 <==> Weekday(DayNumber(Date(y, 1, 1))) == SATURDAY))
  {
    var t := Date(y, m, d);
    DowIsWeekday(t);
    hide UtcDay, Civil, DayNumber;
    DayInMonth(y, m, d);
    DayInMonth(y, m, d + 1);
    DayInMonth(y, m, d - 1);
    CivilInverse(Date(y, m, d + 1));
    if d > 1 { CivilInverse(Date(y, m, d - 1)); }
    if m == 1 && d == 1 {
      LastOfYear(y);
      CivilInverse(Date(y - 1, 12, 31));
    }
  }

  lemma LastOfYear(y: int)
    ensures DayNumber(Date(y, 1, 1)) == DayNumber(Date(y - 1, 12, 31)) + 1
  {
    hide DayFromYear, UtcDay, DayNumber;
    DayInMonth(y, 1, 1);
    DayInMonth(y - 1, 12, 31);
    YearStep(y - 1);
    YearTotal(y - 1);
    assert DaysBefore(y - 1, 13) == DaysBefore(y - 1, 12) + 31;
  }

  // ------------------------------------------------------------------ the set is exact

  /** The date on which a holiday of year y is observed. */
  function ObservedDate(h: Holiday, y: int): Date {
    match h
    case NewYear => ObservedFixed(Date(y, 1, 1))
    case King => NthWeekday(y, 1, MONDAY, 3)
    case Washington => NthWeekday(y, 2, MONDAY, 3)
    case Memorial => LastMonday(y, 5)
    case Juneteenth => ObservedFixed(Date(y, 6, 19))
    case Independence => ObservedFixed(Date(y, 7, 4))
    case Labor => NthWeekday(y, 9, MONDAY, 1)
    case Columbus => NthWeekday(y, 10, MONDAY, 2)
    case Veterans => ObservedFixed(Date(y, 11, 11))
    case Thanksgiving => NthWeekday(y, 11, THURSDAY, 4)
    case Christmas => ObservedFixed(Date(y, 12, 25))
  }

  lemma ObservedDateObserves(h: Holiday, y: int)
    ensures Observes(h, y, ObservedDate(h, y))
  {
    hide NthWeekday, LastMonday, ObservedFixed, IsNth, IsLastMonday, IsObserved;
    match h
    case NewYear => ObservedFixedIs(Date(y, 1, 1));
    case King => NthWeekdayIsNth(y, 1, MONDAY, 3);
    case Washington => NthWeekdayIsNth(y, 2, MONDAY, 3);
    case Memorial => LastMondayIsLast(y, 5);
    case Juneteenth => ObservedFixedIs(Date(y, 6, 19));
    case Independence => ObservedFixedIs(Date(y, 7, 4));
    case Labor => NthWeekdayIsNth(y, 9, MONDAY, 1);
    case Columbus => NthWeekdayIsNth(y, 10, MONDAY, 2);
    case Veterans => ObservedFixedIs(Date(y, 11, 11));
    case Thanksgiving => NthWeekdayIsNth(y, 11, THURSDAY, 4);
    case Christmas => ObservedFixedIs(Date(y, 12, 25));
  }

  lemma ObservedDateUnique(h: Holiday, y: int, t: Date)
    requires Observes(h, y, t)
    ensures t == ObservedDate(h, y)
  {
    hide NthWeekday, LastMonday, ObservedFixed, IsNth, IsLastMonday, IsObserved;
    match h
    case NewYear => ObservedUnique(t, y, 1, 1);
    case King => NthWeekdayUnique(t, y, 1, MONDAY, 3);
    case Washington => NthWeekdayUnique(t, y, 2, MONDAY, 3);
    case Memorial => LastMondayIsLast(y, 5); LastMondayUnique(t, LastMonday(y, 5), y, 5);
    case Juneteenth => ObservedUnique(t, y, 6, 19);
    case Independence => ObservedUnique(t, y, 7, 4);
    case Labor => NthWeekdayUnique(t, y, 9, MONDAY, 1);
    case Columbus => NthWeekdayUnique(t, y, 10, MONDAY, 2);
    case Veterans => ObservedUnique(t, y, 11, 11);
    case Thanksgiving => NthWeekdayUnique(t, y, 11, THURSDAY, 4);
    case Christmas => ObservedUnique(t, y, 12, 25);
  }

  /** Only New Year can be observed in another year. */
  lemma ObservedYear(h: Holiday, y: int)
    ensures h != NewYear ==> ObservedDate(h, y).y == y
    ensures ObservedDate(NewYear, y).y == y || ObservedDate(NewYear, y) == Date(y - 1, 12, 31)
  {
    ObservedDateObserves(h, y);
    hide NthWeekday, LastMonday, ObservedFixed, IsObserved;
    ObservedPlace(y, 1, 1);
    ObservedPlace(y, 6, 19);
    ObservedPlace(y, 7, 4);
    ObservedPlace(y, 11, 11);
    ObservedPlace(y, 12, 25);
  }

  function FixedDates(y: int): set<Date> {
    {ObservedDate(NewYear, y), ObservedDate(Juneteenth, y), ObservedDate(Independence, y),
     ObservedDate(Veterans, y), ObservedDate(Christmas, y)}
  }

  lemma InFixed(year: int, t: Date)
    ensures t in FixedIn(year, 5) <==> t.y == year && t in FixedDates(year)
  {
    hide ObservedFixed;
    var o1, o2, o3 := ObservedFixed(Date(year, 1, 1)), ObservedFixed(Date(year, 6, 19)),
      ObservedFixed(Date(year, 7, 4));
    assert t in FixedIn(year, 1) <==> t == o1 && t.y == year;
    assert t in FixedIn(year, 2) <==> t in FixedIn(year, 1) || (t == o2 && t.y == year);
    assert t in FixedIn(year, 3) <==> t in FixedIn(year, 2) || (t == o3 && t.y == year);
    assert t in FixedIn(year, 4) <==> t in FixedIn(year, 3) || (t == ObservedFixed(Date(year, 11, 11)) && t.y == year);
  }

  /** Membership, without the set: a holiday of this year observed in it, or next New Year on its last day. */
  lemma InHolidaySet(year: int, t: Date)
    ensures t in HolidaySet(year) <==> t.y == year && exists h, y :: t == ObservedDate(h, y)
  {
    InFixed(year, t);
    ObservedYear(NewYear, year + 1);
    hide FixedIn, NthWeekday, LastMonday, ObservedFixed;
    if t in HolidaySet(year) {
      if t in YearEnd(year) {
        assert t == ObservedDate(NewYear, year + 1);
      } else {
        SomeHoliday(year, t);
      }
    }
    if t.y == year && exists h, y :: t == ObservedDate(h, y) {
      var h, y :| t == ObservedDate(h, y);
      ObservedYear(h, y);
    }
  }

  lemma SomeHoliday(year: int, t: Date)
    requires t in FixedIn(year, 5) || t in Floating(year)
    ensures t.y == year && exists h, y :: t == ObservedDate(h, y)
  {
    InFixed(year, t);
    hide FixedIn, NthWeekday, LastMonday, ObservedFixed;
    ObservedYear(King, year); ObservedYear(Washington, year); ObservedYear(Memorial, year);
    ObservedYear(Labor, year); ObservedYear(Columbus, year); ObservedYear(Thanksgiving, year);
    assert t == ObservedDate(NewYear, year) || t == ObservedDate(Juneteenth, year)
      || t == ObservedDate(Independence, year)
      || t == ObservedDate(Veterans, year) || t == ObservedDate(Christmas, year) || t == ObservedDate(King, year)
      || t == ObservedDate(Washington, year) || t == ObservedDate(Memorial, year) || t == ObservedDate(Labor, year)
      || t == ObservedDate(Columbus, year) || t == ObservedDate(Thanksgiving, year);
  }

  /** A date is in the set of its own year iff some holiday of some year is observed on it. */
  lemma HolidaySetExact(t: Date)
    ensures t in HolidaySet(t.y) <==> exists h, y :: Observes(h, y, t)
  {
    InHolidaySet(t.y, t);
    hide HolidaySet, ObservedDate, Observes;
    if h, y :| t == ObservedDate(h, y) { ObservedDateObserves(h, y); }
    if h, y :| Observes(h, y, t) { ObservedDateUnique(h, y, t); }
  }

  // ---------------------------------------------------- holidays are a week or more apart

  /** Holidays in the order of the year. */
  function ByRank(i: int): Holiday
    requires 0 <= i <= 10
  {
    [NewYear, King, Washington, Memorial, Juneteenth, Independence, Labor, Columbus, Veterans, Thanksgiving,
     Christmas][i]
  }

  function RankOf(h: Holiday): (i: int)
    ensures 0 <= i <= 10 && ByRank(i) == h
  {
    match h
    case NewYear => 0 case King => 1 case Washington => 2 case Memorial => 3 case Juneteenth => 4 case Independence => 5
    case Labor => 6 case Columbus => 7 case Veterans => 8 case Thanksgiving => 9 case Christmas => 10
  }

  /** Earliest day of the year, in a common year, on which the holiday can be observed. */
  function Least(h: Holiday): int {
    match h
    case NewYear => -1 case King => 14 case Washington => 45 case Memorial => 144 case Juneteenth => 168
    case Independence => 183 case Labor => 243 case Columbus => 280 case Veterans => 313 case Thanksgiving => 325
    case Christmas => 357
  }

  function Span(h: Holiday): int {
    match h
    case NewYear => 2 case Juneteenth => 2 case Independence => 2 case Veterans => 2 case Christmas => 2
    case _ => 6
  }

  /** The leap day, for holidays after February. */
  function LeapDay(h: Holiday, y: int): int {
    if h.NewYear? || h.King? || h.Washington? || !Leap(y) then 0 else 1
  }

  function ObservedDay(h: Holiday, y: int): int {
    DayNumber(ObservedDate(h, y))
  }

  lemma NthOffset(y: int, m: int, weekday: int, n: int)
    requires 1 <= m <= 12 && 0 <= weekday <= 6 && 1 <= n <= 4
    ensures var k := DayNumber(NthWeekday(y, m, weekday, n)) - DayFromYear(y) - DaysBefore(y, m);
      7 * n - 7 <= k <= 7 * n - 1
  {
    NthWeekdayIsNth(y, m, weekday, n);
    hide Dow, DaysBefore, DayFromYear, CountUpTo;
    DayInMonth(y, m, NthWeekday(y, m, weekday, n).d);
  }

  lemma FixedOffset(y: int, m: int, d: int)
    requires Valid(Date(y, m, d))
    ensures var k := DayNumber(ObservedFixed(Date(y, m, d))) - DayFromYear(y) - DaysBefore(y, m);
      d - 2 <= k <= d
  {
    ObservedFixedIs(Date(y, m, d));
    hide ObservedFixed, DaysBefore, DayFromYear, Weekday;
    DayInMonth(y, m, d);
  }

  lemma MemorialOffset(y: int)
    ensures 24 <= DayNumber(LastMonday(y, 5)) - DayFromYear(y) - DaysBefore(y, 5) <= 30
  {
    LastMondayIsLast(y, 5);
    hide LastMonday, DaysBefore, DayFromYear, Weekday;
    DayInMonth(y, 5, LastMonday(y, 5).d);
  }

  predicate InWindow(h: Holiday, y: int) {
    Least(h) + LeapDay(h, y) <= ObservedDay(h, y) - DayFromYear(y) <= Least(h) + LeapDay(h, y) + Span(h)
  }

  lemma FixedWindow(h: Holiday, y: int, m: int, d: int)
    requires Valid(Date(y, m, d)) && ObservedDate(h, y) == ObservedFixed(Date(y, m, d))
    requires DaysBefore(y, m) + d - 2 == Least(h) + LeapDay(h, y) && Span(h) == 2
    ensures InWindow(h, y)
  {
    hide ObservedFixed, ObservedDate, DaysBefore, DayFromYear, DayNumber, Leap, LeapDay;
    FixedOffset(y, m, d);
  }

  lemma NthWindow(h: Holiday, y: int, m: int, weekday: int, n: int)
    requires 1 <= m <= 12 && 0 <= weekday <= 6 && 1 <= n <= 4 && ObservedDate(h, y) == NthWeekday(y, m, weekday, n)
    requires DaysBefore(y, m) + 7 * n - 7 == Least(h) + LeapDay(h, y) && Span(h) == 6
    ensures InWindow(h, y)
  {
    hide NthWeekday, ObservedDate, DaysBefore, DayFromYear, DayNumber, Leap, LeapDay;
    NthOffset(y, m, weekday, n);
  }

  lemma NewYearWindow(y: int)
    ensures InWindow(NewYear, y)
  {
    assert DaysBefore(y, 1) == 0;
    hide ObservedFixed, DaysBefore, Leap, InWindow;
    FixedWindow(NewYear, y, 1, 1);
  }

  lemma KingWindow(y: int)
    ensures InWindow(King, y)
  {
    assert DaysBefore(y, 1) == 0;
    hide NthWeekday, DaysBefore, Leap, InWindow;
    NthWindow(King, y, 1, MONDAY, 3);
  }

  lemma WashingtonWindow(y: int)
    ensures InWindow(Washington, y)
  {
    assert DaysBefore(y, 2) == 31 by { YearTable(y); }
    hide NthWeekday, DaysBefore, Leap, InWindow;
    NthWindow(Washington, y, 2, MONDAY, 3);
  }

  lemma JuneteenthWindow(y: int)
    ensures InWindow(Juneteenth, y)
  {
    BeforeMonth(y, 6);
    hide ObservedFixed, DaysBefore, Leap, InWindow;
    FixedWindow(Juneteenth, y, 6, 19);
  }

  lemma IndependenceWindow(y: int)
    ensures InWindow(Independence, y)
  {
    BeforeMonth(y, 7);
    hide ObservedFixed, DaysBefore, Leap, InWindow;
    FixedWindow(Independence, y, 7, 4);
  }

  lemma LaborWindow(y: int)
    ensures InWindow(Labor, y)
  {
    BeforeMonth(y, 9);
    hide NthWeekday, DaysBefore, Leap, InWindow;
    NthWindow(Labor, y, 9, MONDAY, 1);
  }

  lemma ColumbusWindow(y: int)
    ensures InWindow(Columbus, y)
  {
    BeforeMonth(y, 10);
    hide NthWeekday, DaysBefore, Leap, InWindow;
    NthWindow(Columbus, y, 10, MONDAY, 2);
  }

  lemma VeteransWindow(y: int)
    ensures InWindow(Veterans, y)
  {
    BeforeMonth(y, 11);
    hide ObservedFixed, DaysBefore, Leap, InWindow;
    FixedWindow(Veterans, y, 11, 11);
  }

  lemma ThanksgivingWindow(y: int)
    ensures InWindow(Thanksgiving, y)
  {
    BeforeMonth(y, 11);
    hide NthWeekday, DaysBefore, Leap, InWindow;
    NthWindow(Thanksgiving, y, 11, THURSDAY, 4);
  }

  lemma ChristmasWindow(y: int)
    ensures InWindow(Christmas, y)
  {
    BeforeMonth(y, 12);
    hide ObservedFixed, DaysBefore, Leap, InWindow;
    FixedWindow(Christmas, y, 12, 25);
  }

  lemma MemorialWindow(y: int)
    ensures InWindow(Memorial, y)
  {
    BeforeMonth(y, 5);
    MemorialOffset(y);
    hide LastMonday, DaysBefore, DayFromYear, DayNumber, Leap;
  }

  lemma ObservedWindow(h: Holiday, y: int)
    ensures InWindow(h, y)
  {
    hide InWindow;
    match h
    case NewYear => NewYearWindow(y);
    case King => KingWindow(y);
    case Washington => WashingtonWindow(y);
    case Memorial => MemorialWindow(y);
    case Juneteenth => JuneteenthWindow(y);
    case Independence => IndependenceWindow(y);
    case Labor => LaborWindow(y);
    case Columbus => ColumbusWindow(y);
    case Veterans => VeteransWindow(y);
    case Thanksgiving => ThanksgivingWindow(y);
    case Christmas => ChristmasWindow(y);
  }

  lemma NextInYear(i: int, y: int)
    requires 0 <= i < 10
    ensures ObservedDay(ByRank(i + 1), y) >= ObservedDay(ByRank(i), y) + 7
  {
    hide ObservedDay, DayFromYear, Leap;
    ObservedWindow(ByRank(i), y);
    ObservedWindow(ByRank(i + 1), y);
  }

  lemma NewYearAfterChristmas(y: int)
    ensures DayNumber(Date(y + 1, 1, 1)) == DayNumber(Date(y, 12, 25)) + 7
  {
    hide UtcDay, DayNumber, DaysBefore, DayFromYear;
    LastOfYear(y + 1);
    DayInMonth(y, 12, 25);
    DayInMonth(y, 12, 31);
  }

  lemma SameWeekdayNextWeek(n: int)
    ensures Weekday(n + 7) == Weekday(n)
  {}

  /** The day on which a fixed holiday that falls on day n is observed. */
  function Shift(n: int): int {
    if Weekday(n) == SATURDAY then n - 1 else if Weekday(n) == SUNDAY then n + 1 else n
  }

  lemma ShiftedDay(t: Date)
    requires Valid(t)
    ensures DayNumber(ObservedFixed(t)) == Shift(DayNumber(t))
  {
    ObservedFixedIs(t);
    hide ObservedFixed, DayNumber, Weekday;
  }

  lemma ShiftWeek(n: int)
    ensures Shift(n + 7) == Shift(n) + 7
  {
    SameWeekdayNextWeek(n);
    hide Weekday;
  }

  lemma ObservedDays(y: int)
    ensures ObservedDay(NewYear, y) == DayNumber(ObservedFixed(Date(y, 1, 1)))
    ensures ObservedDay(Christmas, y) == DayNumber(ObservedFixed(Date(y, 12, 25)))
  {
    hide ObservedFixed, DayNumber;
  }

  /** New Year is observed exactly one week after Christmas. */
  lemma ChristmasToNewYear(y: int)
    ensures ObservedDay(NewYear, y + 1) == ObservedDay(Christmas, y) + 7
  {
    ObservedDays(y);
    ObservedDays(y + 1);
    hide ObservedFixed, DayNumber, ObservedDay, Shift;
    ShiftedDay(Date(y, 12, 25));
    ShiftedDay(Date(y + 1, 1, 1));
    NewYearAfterChristmas(y);
    ShiftWeek(DayNumber(Date(y, 12, 25)));
  }

  /** All observed days in one row, eleven a year. */
  function RowDay(k: int): int {
    ObservedDay(ByRank(k % 11), k / 11)
  }

  lemma RowStep(k: int)
    ensures RowDay(k + 1) >= RowDay(k) + 7
  {
    hide ObservedDay;
    if k % 11 == 10 {
      assert (k + 1) / 11 == k / 11 + 1 && (k + 1) % 11 == 0;
      ChristmasToNewYear(k / 11);
    } else {
      assert (k + 1) / 11 == k / 11 && (k + 1) % 11 == k % 11 + 1;
      NextInYear(k % 11, k / 11);
    }
  }

  lemma {:induction false} RowApart(k: int, l: int)
    requires k < l
    ensures RowDay(l) >= RowDay(k) + 7
    decreases l - k
  {
    hide RowDay;
    if k + 1 < l { RowApart(k, l - 1); }
    RowStep(l - 1);
  }

  lemma InRow(h: Holiday, y: int)
    ensures RowDay(11 * y + RankOf(h)) == ObservedDay(h, y)
  {
    hide ObservedDay;
    assert (11 * y + RankOf(h)) / 11 == y && (11 * y + RankOf(h)) % 11 == RankOf(h);
  }

  predicate IsHoliday(n: int) {
    Civil(n) in HolidaySet(Civil(n).y)
  }

  lemma HolidayInRow(n: int) returns (k: int)
    requires IsHoliday(n)
    ensures RowDay(k) == n
  {
    InHolidaySet(Civil(n).y, Civil(n));
    hide HolidaySet, ObservedDate, RowDay;
    var h, y :| Civil(n) == ObservedDate(h, y);
    k := 11 * y + RankOf(h);
    InRow(h, y);
  }

  /** Two observed holidays are the same day or at least a week apart, in every year and across year ends. */
  lemma HolidaysAWeekApart(a: int, b: int)
    requires IsHoliday(a) && IsHoliday(b) && a < b
    ensures b >= a + 7
  {
    hide IsHoliday, RowDay;
    var k := HolidayInRow(a);
    var l := HolidayInRow(b);
    if k < l { RowApart(k, l); }
    if l < k { RowApart(l, k); }
  }

  // ------------------------------------------------------------------- how many there are

  lemma ObservedMonths(y: int)
    ensures ObservedDate(King, y).m == 1 && 15 <= ObservedDate(King, y).d
    ensures ObservedDate(Washington, y).m == 2 && ObservedDate(Memorial, y).m == 5 && ObservedDate(Juneteenth, y).m == 6
    ensures ObservedDate(Independence, y).m == 7 && ObservedDate(Labor, y).m == 9 && ObservedDate(Columbus, y).m == 10
    ensures ObservedDate(Veterans, y).m == 11 && ObservedDate(Veterans, y).d <= 12
    ensures ObservedDate(Thanksgiving, y).m == 11 && 22 <= ObservedDate(Thanksgiving, y).d
    ensures ObservedDate(Christmas, y).m == 12 && ObservedDate(Christmas, y).d <= 26
    ensures ObservedDate(NewYear, y).y == y ==> ObservedDate(NewYear, y).m == 1 && ObservedDate(NewYear, y).d <= 2
  {
    LastMondayIsLast(y, 5);
    NthWeekdayIsNth(y, 1, MONDAY, 3);
    NthWeekdayIsNth(y, 11, THURSDAY, 4);
    hide LastMonday, ObservedFixed, Dow;
    ObservedPlace(y, 1, 1);
    ObservedPlace(y, 6, 19);
    ObservedPlace(y, 7, 4);
    ObservedPlace(y, 11, 11);
    ObservedPlace(y, 12, 25);
  }

  function NewYearIn(y: int): set<Date> {
    if ObservedDate(NewYear, y).y == y then {ObservedDate(NewYear, y)} else {}
  }

  lemma FixedAre(y: int)
    ensures FixedIn(y, 5) == NewYearIn(y) + {ObservedDate(Juneteenth, y)} + {ObservedDate(Independence, y)}
      + {ObservedDate(Veterans, y)} + {ObservedDate(Christmas, y)}
  {
    ObservedYear(Juneteenth, y); ObservedYear(Independence, y); ObservedYear(Veterans, y); ObservedYear(Christmas, y);
    hide ObservedFixed;
    assert FixedIn(y, 0) == {};
    assert FixedIn(y, 1) == FixedIn(y, 0) + NewYearIn(y);
    assert FixedIn(y, 2) == FixedIn(y, 1) + {ObservedDate(Juneteenth, y)};
    assert FixedIn(y, 3) == FixedIn(y, 2) + {ObservedDate(Independence, y)};
    assert FixedIn(y, 4) == FixedIn(y, 3) + {ObservedDate(Veterans, y)};
    assert FixedIn(y, 5) == FixedIn(y, 4) + {ObservedDate(Christmas, y)};
  }

  function January(y: int): set<Date> { NewYearIn(y) + {ObservedDate(King, y)} }
  function Spring(y: int): set<Date> { {ObservedDate(Washington, y)} + {ObservedDate(Memorial, y)} }
  function Summer(y: int): set<Date> { {ObservedDate(Juneteenth, y)} + {ObservedDate(Independence, y)} }
  function Fall(y: int): set<Date> { {ObservedDate(Labor, y)} + {ObservedDate(Columbus, y)} }
  function November(y: int): set<Date> { {ObservedDate(Veterans, y)} + {ObservedDate(Thanksgiving, y)} }
  function December(y: int): set<Date> { {ObservedDate(Christmas, y)} + YearEnd(y) }

  lemma FloatingAre(y: int)
    ensures Floating(y) == {ObservedDate(King, y), ObservedDate(Washington, y), ObservedDate(Memorial, y),
      ObservedDate(Labor, y), ObservedDate(Columbus, y), ObservedDate(Thanksgiving, y)}
  {
    hide NthWeekday, LastMonday;
  }

  lemma HolidayParts(y: int)
    ensures HolidaySet(y) == January(y) + Spring(y) + Summer(y) + Fall(y) + November(y) + December(y)
  {
    FixedAre(y);
    FloatingAre(y);
    hide FixedIn, Floating, ObservedDate, YearEnd, NewYearIn;
  }

  lemma PartSizes(y: int)
    ensures |January(y)| == |NewYearIn(y)| + 1 && |Spring(y)| == 2 && |Summer(y)| == 2 && |Fall(y)| == 2
    ensures |November(y)| == 2 && |December(y)| == |YearEnd(y)| + 1
  {
    ObservedMonths(y);
    hide ObservedDate;
    OneMore(NewYearIn(y), ObservedDate(King, y));
    Pair(ObservedDate(Washington, y), ObservedDate(Memorial, y));
    Pair(ObservedDate(Juneteenth, y), ObservedDate(Independence, y));
    Pair(ObservedDate(Labor, y), ObservedDate(Columbus, y));
    Pair(ObservedDate(Veterans, y), ObservedDate(Thanksgiving, y));
    OneMore(YearEnd(y), ObservedDate(Christmas, y));
  }

  lemma OneMore(s: set<Date>, t: Date)
    ensures t !in s ==> |s + {t}| == |s| + 1 && |{t} + s| == |s| + 1
  {
    assert {t} + s == s + {t};
  }

  lemma Pair(s: Date, t: Date)
    ensures s != t ==> |{s} + {t}| == 2
  {}

  lemma PartMonths(y: int)
    ensures (forall t :: t in January(y) ==> t.m == 1) && (forall t :: t in Spring(y) ==> 2 <= t.m <= 5)
    ensures (forall t :: t in Summer(y) ==> 6 <= t.m <= 7) && (forall t :: t in Fall(y) ==> 9 <= t.m <= 10)
    ensures (forall t :: t in November(y) ==> t.m == 11) && (forall t :: t in December(y) ==> t.m == 12)
  {
    ObservedMonths(y);
    hide ObservedDate, ObservedFixed;
  }

  lemma SaturdaySizes(y: int)
    ensures |NewYearIn(y)| == if Weekday(DayNumber(Date(y, 1, 1))) == SATURDAY then 0 else 1
    ensures |YearEnd(y)| == if Weekday(DayNumber(Date(y + 1, 1, 1))) == SATURDAY then 1 else 0
  {
    NewYearYear(y);
    NewYearYear(y + 1);
    hide ObservedFixed, ObservedDate, DayNumber, Weekday;
  }

  lemma NewYearYear(y: int)
    ensures ObservedDate(NewYear, y).y == ObservedFixed(Date(y, 1, 1)).y
    ensures ObservedDate(NewYear, y).y == (if Weekday(DayNumber(Date(y, 1, 1))) == SATURDAY then y - 1 else y)
  {
    hide ObservedFixed, DayNumber, Weekday;
    ObservedPlace(y, 1, 1);
  }

  /** Eleven observed dates, less New Year when it falls on a Saturday, plus the next when that one does. */
  lemma HolidayCount(y: int)
    ensures |HolidaySet(y)| ==
      11 - (if Weekday(DayNumber(Date(y, 1, 1))) == SATURDAY then 1 else 0)
         + (if Weekday(DayNumber(Date(y + 1, 1, 1))) == SATURDAY then 1 else 0)
    ensures 10 <= |HolidaySet(y)| <= 12
  {
    hide HolidaySet, NewYearIn, YearEnd, January, Spring, Summer, Fall, November, December, DayNumber, Weekday;
    HolidayParts(y);
    PartSizes(y);
    PartMonths(y);
    SaturdaySizes(y);
    MonthsDisjoint(January(y), Spring(y), Summer(y), Fall(y), November(y), December(y));
  }

  lemma MonthsDisjoint(a: set<Date>, b: set<Date>, c: set<Date>, d: set<Date>, e: set<Date>, f: set<Date>)
    requires (forall t :: t in a ==> t.m == 1) && (forall t :: t in b ==> 2 <= t.m <= 5)
      && (forall t :: t in c ==> 6 <= t.m <= 7)
    requires (forall t :: t in d ==> 9 <= t.m <= 10) && (forall t :: t in e ==> t.m == 11)
      && (forall t :: t in f ==> t.m == 12)
    ensures |a + b + c + d + e + f| == |a| + |b| + |c| + |d| + |e| + |f|
  {
    assert a !! b && (a + b) !! c && (a + b + c) !! d && (a + b + c + d) !! e && (a + b + c + d + e) !! f;
  }
}
