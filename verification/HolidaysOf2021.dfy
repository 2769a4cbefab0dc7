/** One year in full: the observed federal holidays of 2021, when three fixed ones fall on a weekend. */
module HolidaysOf2021 {
  import opened Calendar
  import opened Holidays

  lemma January()
    ensures DayFromYear(2021) == 18628 && DayFromYear(2022) == 18993 && !Leap(2021)
  {}

  /** The days of 2021, counted from 1970-01-01. */
  lemma DayOf2021(m: int, d: int)
    requires 1 <= m <= 12
    ensures var before := [0, 31, 59, 90, 120, 151, 181, 212, 243, 273, 304, 334];
      DayNumber(Date(2021, m, d)) == UtcDay(2021, m, d) == 18628 + before[m - 1] + d - 1
  {
    January();
    DayNumberPlain(Date(2021, m, d));
    DayInMonth(2021, m, d);
    BeforeMonth2021(m);
    hide Leap, UtcDay, DayFromYear, DayNumber, DaysBefore;
  }

  lemma BeforeMonth2021(m: int)
    requires 1 <= m <= 12
    ensures DaysBefore(2021, m) == [0, 31, 59, 90, 120, 151, 181, 212, 243, 273, 304, 334][m - 1]
  {
    January();
    if m >= 3 { BeforeMonth(2021, m); }
    hide Leap, DayFromYear;
  }

  lemma NewYear2022()
    ensures UtcDay(2022, 1, 1) == DayNumber(Date(2022, 1, 1)) == 18993
  {
    January();
    DayNumberPlain(Date(2022, 1, 1));
  }

  /** The first days of the months that have floating holidays. */
  lemma FirstDays()
    ensures UtcDay(2021, 1, 1) == 18628 && UtcDay(2021, 2, 1) == 18659
    ensures UtcDay(2021, 9, 1) == 18871 && UtcDay(2021, 10, 1) == 18901 && UtcDay(2021, 11, 1) == 18932
  {
    hide *;
    DayOf2021(1, 1);
    DayOf2021(2, 1);
    DayOf2021(9, 1);
    DayOf2021(10, 1);
    DayOf2021(11, 1);
  }

  lemma Floats()
    ensures Floating(2021) == { Date(2021, 1, 18), Date(2021, 2, 15), Date(2021, 5, 31), Date(2021, 9, 6),
                                Date(2021, 10, 11), Date(2021, 11, 25) }
  {
    hide UtcDay, LastMonday;
    FirstDays();
    MemorialDay();
  }

  lemma MemorialDay()
    ensures LastMonday(2021, 5) == Date(2021, 5, 31)
  {
    hide UtcDay, Civil, DayNumber, DaysBefore, Leap;
    EndOfMay();
    CivilInverse(Date(2021, 5, 31));
  }

  lemma EndOfMay()
    ensures UtcDay(2021, 6, 0) == DayNumber(Date(2021, 5, 31)) == 18778
  {
    hide *;
    DayOf2021(5, 31);
    DayOf2021(6, 0);
  }

  /** A fixed holiday is observed on the weekday next to it. */
  lemma ObservedOn(t: Date, o: Date, shift: int)
    requires Valid(t) && Valid(o) && DayNumber(o) == DayNumber(t) + shift
    requires shift == if Weekday(DayNumber(t)) == SATURDAY then -1 else if Weekday(DayNumber(t)) == SUNDAY then 1 else 0
    ensures ObservedFixed(t) == o
  {
    DowIsWeekday(t);
    CivilInverse(o);
    hide DayNumber, Civil, Dow, Weekday;
    if shift == 0 { DayNumberInjective(t, o); }
  }

  lemma Fixed()
    ensures FixedIn(2021, 5) == { Date(2021, 1, 1), Date(2021, 6, 18), Date(2021, 7, 5), Date(2021, 11, 11),
                                  Date(2021, 12, 24) }
    ensures YearEnd(2021) == { Date(2021, 12, 31) }
  {
    FixedDays();
    hide ObservedFixed;
    assert FixedIn(2021, 1) == { Date(2021, 1, 1) };
    assert FixedIn(2021, 2) == { Date(2021, 1, 1), Date(2021, 6, 18) };
    assert FixedIn(2021, 3) == { Date(2021, 1, 1), Date(2021, 6, 18), Date(2021, 7, 5) };
    assert FixedIn(2021, 4) == { Date(2021, 1, 1), Date(2021, 6, 18), Date(2021, 7, 5), Date(2021, 11, 11) };
  }

  lemma FixedNumbers()
    ensures DayNumber(Date(2021, 1, 1)) == 18628
    ensures DayNumber(Date(2021, 6, 19)) == 18797 && DayNumber(Date(2021, 6, 18)) == 18796
    ensures DayNumber(Date(2021, 7, 4)) == 18812 && DayNumber(Date(2021, 7, 5)) == 18813
    ensures DayNumber(Date(2021, 11, 11)) == 18942
    ensures DayNumber(Date(2021, 12, 25)) == 18986 && DayNumber(Date(2021, 12, 24)) == 18985
    ensures DayNumber(Date(2021, 12, 31)) == 18992 && DayNumber(Date(2022, 1, 1)) == 18993
  {
    hide *;
    DayOf2021(1, 1);
    DayOf2021(6, 19);
    DayOf2021(6, 18);
    DayOf2021(7, 4);
    DayOf2021(7, 5);
    DayOf2021(11, 11);
    DayOf2021(12, 25);
    DayOf2021(12, 24);
    DayOf2021(12, 31);
    NewYear2022();
  }

  lemma FixedDays()
    ensures ObservedFixed(Date(2021, 1, 1)) == Date(2021, 1, 1)
    ensures ObservedFixed(Date(2021, 6, 19)) == Date(2021, 6, 18)
    ensures ObservedFixed(Date(2021, 7, 4)) == Date(2021, 7, 5)
    ensures ObservedFixed(Date(2021, 11, 11)) == Date(2021, 11, 11)
    ensures ObservedFixed(Date(2021, 12, 25)) == Date(2021, 12, 24)
    ensures ObservedFixed(Date(2022, 1, 1)) == Date(2021, 12, 31)
  {
    hide DayNumber, ObservedFixed;
    FixedNumbers();
    ObservedOn(Date(2021, 1, 1), Date(2021, 1, 1), 0);
    ObservedOn(Date(2021, 6, 19), Date(2021, 6, 18), -1);
    ObservedOn(Date(2021, 7, 4), Date(2021, 7, 5), 1);
    ObservedOn(Date(2021, 11, 11), Date(2021, 11, 11), 0);
    ObservedOn(Date(2021, 12, 25), Date(2021, 12, 24), -1);
    ObservedOn(Date(2022, 1, 1), Date(2021, 12, 31), -1);
  }

  /** Juneteenth, Christmas and the New Year of 2022 fall on a Saturday, Independence Day on a Sunday. */
  lemma HolidaysOf2021()
    ensures HolidaySet(2021) == {
      Date(2021, 1, 1), Date(2021, 1, 18), Date(2021, 2, 15), Date(2021, 5, 31), Date(2021, 6, 18), Date(2021, 7, 5),
      Date(2021, 9, 6), Date(2021, 10, 11), Date(2021, 11, 11), Date(2021, 11, 25), Date(2021, 12, 24),
      Date(2021, 12, 31) }
  {
    Floats();
    Fixed();
    hide Floating, FixedIn, YearEnd;
  }

  /** The first week of 1970 names the days. */
  lemma WeekdaysNamed()
    ensures Weekday(DayNumber(Date(1970, 1, 1))) == THURSDAY && Weekday(DayNumber(Date(1970, 1, 3))) == SATURDAY
    ensures Weekday(DayNumber(Date(1970, 1, 4))) == SUNDAY && Weekday(DayNumber(Date(1970, 1, 5))) == MONDAY
  {}
}
