/** Deadlines under Rule 6 of the Federal Rules of Civil Procedure. Days are day numbers; Civil gives the date back. */
module Deadlines {
  import opened Calendar
  import opened Holidays

  predicate BusinessDay(n: int) {
    IsBusinessDay(Civil(n))
  }

  lemma BusinessDayIs(n: int)
    ensures BusinessDay(n) <==> 1 <= Weekday(n) <= 5 && !IsHoliday(n)
  {
    DowIsWeekday(Civil(n));
    hide HolidaySet, Dow;
  }

  /** In a week that begins on weekday w and holds its one holiday h days in, or none for -1: is day i open? */
  predicate Open(w: int, h: int, i: int) {
    1 <= (w + i) % 7 <= 5 && h != i
  }

  predicate HolidayAt(n: int, i: int) {
    IsHoliday(n + i)
  }

  lemma WeekdayAhead(n: int, i: int)
    ensures Weekday(n + i) == (Weekday(n) + i) % 7
  {}

  /** A week is settled by its first weekday and the single holiday it may hold. */
  lemma Week(n: int) returns (h: int)
    ensures -1 <= h <= 6
    ensures forall i :: 0 <= i <= 6 ==> Open(Weekday(n), h, i) == BusinessDay(n + i)
  {
    hide BusinessDay, IsHoliday, Weekday;
    h := if i :| 0 <= i <= 6 && HolidayAt(n, i) then i else -1;
    forall i | 0 <= i <= 6 ensures Open(Weekday(n), h, i) == BusinessDay(n + i) {
      assert HolidayAt(n, i) == IsHoliday(n + i);
      if h >= 0 && IsHoliday(n + i) {
        if h < i { HolidaysAWeekApart(n + h, n + i); }
        if i < h { HolidaysAWeekApart(n + i, n + h); }
      }
      BusinessDayIs(n + i);
      WeekdayAhead(n, i);
    }
  }

  /** No four consecutive days are all non-business days. */
  lemma NoFourClosedDays(n: int)
    ensures BusinessDay(n) || BusinessDay(n + 1) || BusinessDay(n + 2) || BusinessDay(n + 3)
  {
    hide BusinessDay;
    var h := Week(n);
    OpenSoon(Weekday(n), h);
  }

  lemma OpenSoon(w: int, h: int)
    requires 0 <= w <= 6
    ensures Open(w, h, 0) || Open(w, h, 1) || Open(w, h, 2) || Open(w, h, 3)
  {}

  ghost predicate NoneBetween(from: int, to: int) {
    forall k :: from <= k < to ==> !BusinessDay(k)
  }

  /** r is the first business day at or after n. */
  ghost predicate IsNext(n: int, r: int) {
    n <= r && BusinessDay(r) && NoneBetween(n, r)
  }

  /** r is the last business day at or before n. */
  ghost predicate IsPrevious(n: int, r: int) {
    r <= n && BusinessDay(r) && NoneBetween(r + 1, n + 1)
  }

  method RollForward(start: int) returns (day: int)
    ensures IsNext(start, day) && day <= start + 3
  {
    hide BusinessDay;
    NoFourClosedDays(start);
    day := start;
    while !BusinessDay(day)
      invariant start <= day <= start + 3 && NoneBetween(start, day)
      decreases start + 3 - day
    {
      day := day + 1;
    }
  }

  method RollBackward(start: int) returns (day: int)
    ensures IsPrevious(start, day) && start - 3 <= day
  {
    hide BusinessDay;
    NoFourClosedDays(start - 3);
    day := start;
    while !BusinessDay(day)
      invariant start - 3 <= day <= start && NoneBetween(day + 1, start + 1)
      decreases day - (start - 3)
    {
      day := day - 1;
    }
  }

  // ---------------------------------------------------------------- the computation

  datatype Direction = Forward | Backward

  /** days is a number, so it may be negative or fractional. */
  datatype Input = Input(triggerDate: Date, days: real, direction: Direction, serviceByMail: bool, jurisdiction: string)

  datatype Outcome =
    | Unsupported(reason: string)
    | Supported(triggerDate: Date, days: real, direction: Direction, serviceByMail: bool, deadline: Date)

  predicate IsInteger(x: real) {
    x.Floor as real == x
  }

  predicate IsCount(n: nat, x: real) {
    n > 0 && n as real == x
  }

  /** The period is a positive whole number of days. */
  ghost predicate WholeDays(x: real) {
    exists n: nat :: IsCount(n, x)
  }

  lemma WholeDaysIs(x: real)
    ensures WholeDays(x) <==> IsInteger(x) && x > 0.0
  {
    if IsInteger(x) && x > 0.0 { assert IsCount(x.Floor, x); }
  }

  /** What Rule 6 asks of the deadline, for a period of that many days from the trigger. */
  ghost predicate Rule6(trigger: int, days: int, direction: Direction, mail: bool, deadline: int) {
    match direction
    case Forward =>
      if mail then
        exists base {:trigger IsNext(trigger + days, base)} ::
          IsNext(trigger + days, base) && IsNext(base + 3, deadline)
      else IsNext(trigger + days, deadline)
    case Backward => IsPrevious(trigger - days, deadline)
  }

  method ComputeDeadline(x: Input) returns (r: Outcome)
    ensures r.Supported? <==>
      x.jurisdiction == "US-FED" && WholeDays(x.days) && !(x.serviceByMail && x.direction.Backward?)
    ensures r == Unsupported("unsupported_jurisdiction") <==> x.jurisdiction != "US-FED"
    ensures r == Unsupported("invalid_days") <==> x.jurisdiction == "US-FED" && !WholeDays(x.days)
    ensures r == Unsupported("mail_rule_forward_only") <==>
      x.jurisdiction == "US-FED" && WholeDays(x.days) && x.serviceByMail && x.direction.Backward?
    ensures r.Supported? ==>
      && (r.triggerDate, r.days, r.direction, r.serviceByMail) == (x.triggerDate, x.days, x.direction, x.serviceByMail)
      && Valid(r.deadline)
      && Rule6(DayNumber(x.triggerDate), x.days.Floor, x.direction, x.serviceByMail, DayNumber(r.deadline))
  {
    hide IsNext, IsPrevious, WholeDays, IsInteger, DayNumber, Valid, BusinessDay;
    WholeDaysIs(x.days);
    if x.jurisdiction != "US-FED" { return Unsupported("unsupported_jurisdiction"); }
    if !IsInteger(x.days) || x.days <= 0.0 { return Unsupported("invalid_days"); }
    if x.serviceByMail && x.direction.Backward? { return Unsupported("mail_rule_forward_only"); }
    var trigger := DayNumber(x.triggerDate);
    if x.direction.Forward? {
      var raw := trigger + x.days.Floor;
      var base := RollForward(raw);
      if x.serviceByMail {
        var final := RollForward(base + 3);
        return Supported(x.triggerDate, x.days, x.direction, true, Civil(final));
      }
      return Supported(x.triggerDate, x.days, x.direction, false, Civil(base));
    }
    var raw := trigger - x.days.Floor;
    var deadline := RollBackward(raw);
    return Supported(x.triggerDate, x.days, x.direction, false, Civil(deadline));
  }

  // ------------------------------------------------------------------ what the rule gives

  lemma NextMonotone(m: int, r: int, n: int, s: int)
    requires m <= n && IsNext(m, r) && IsNext(n, s)
    ensures r <= s
  {}

  lemma PreviousMonotone(m: int, r: int, n: int, s: int)
    requires m <= n && IsPrevious(m, r) && IsPrevious(n, s)
    ensures r <= s
  {}

  lemma NextWithinThree(n: int, r: int)
    requires IsNext(n, r)
    ensures r <= n + 3
  {
    hide BusinessDay;
    NoFourClosedDays(n);
  }

  lemma PreviousWithinThree(n: int, r: int)
    requires IsPrevious(n, r)
    ensures n - 3 <= r
  {
    hide BusinessDay;
    NoFourClosedDays(n - 3);
  }

  /** Every period has exactly one deadline, on a business day. */
  lemma DeadlineUnique(trigger: int, days: int, direction: Direction, mail: bool, a: int, b: int)
    requires Rule6(trigger, days, direction, mail, a) && Rule6(trigger, days, direction, mail, b)
    ensures a == b && BusinessDay(a)
  {
    hide BusinessDay;
    match direction
    case Backward =>
      PreviousMonotone(trigger - days, a, trigger - days, b);
      PreviousMonotone(trigger - days, b, trigger - days, a);
    case Forward =>
      DeadlineMonotone(trigger, days, mail, a, trigger, days, b);
      DeadlineMonotone(trigger, days, mail, b, trigger, days, a);
  }

  /** A later trigger or a longer period never gives an earlier forward deadline, with or without mail. */
  lemma DeadlineMonotone(trigger: int, days: int, mail: bool, a: int, later: int, longer: int, b: int)
    requires trigger + days <= later + longer
    requires Rule6(trigger, days, Forward, mail, a) && Rule6(later, longer, Forward, mail, b)
    ensures a <= b
  {
    hide IsNext;
    if mail {
      var r :| IsNext(trigger + days, r) && IsNext(r + 3, a);
      var s :| IsNext(later + longer, s) && IsNext(s + 3, b);
      NextMonotone(trigger + days, r, later + longer, s);
      NextMonotone(r + 3, a, s + 3, b);
    } else {
      NextMonotone(trigger + days, a, later + longer, b);
    }
  }

  /** A backward deadline moves the other way: a longer period ends no later. */
  lemma BackwardMonotone(trigger: int, days: int, a: int, later: int, shorter: int, b: int)
    requires trigger - days <= later - shorter
    requires Rule6(trigger, days, Backward, false, a) && Rule6(later, shorter, Backward, false, b)
    ensures a <= b
  {
    PreviousMonotone(trigger - days, a, later - shorter, b);
  }

  /** Deadlines lie close to the end of the counted period: with mail 3 to 6 days past it, not up to 9. */
  lemma DeadlineBounds(trigger: int, days: int, direction: Direction, mail: bool, a: int)
    requires Rule6(trigger, days, direction, mail, a)
    ensures direction.Backward? ==> trigger - days - 3 <= a <= trigger - days
    ensures direction.Forward? && !mail ==> trigger + days <= a <= trigger + days + 3
    ensures direction.Forward? && mail ==> trigger + days + 3 <= a <= trigger + days + 6
  {
    hide IsNext, IsPrevious;
    match direction
    case Backward => PreviousWithinThree(trigger - days, a); PreviousBelow(trigger - days, a);
    case Forward =>
      if mail {
        var base :| IsNext(trigger + days, base) && IsNext(base + 3, a);
        MailWithinSix(trigger + days, base, a);
      } else {
        NextWithinThree(trigger + days, a);
        NextAbove(trigger + days, a);
      }
  }

  lemma NextAbove(n: int, r: int)
    requires IsNext(n, r)
    ensures n <= r
  {}

  lemma PreviousBelow(n: int, r: int)
    requires IsPrevious(n, r)
    ensures r <= n
  {}

  /** Two rolls never add up: a week holds one weekend and at most one holiday. */
  lemma MailWithinSix(raw: int, base: int, a: int)
    requires IsNext(raw, base) && IsNext(base + 3, a)
    ensures raw + 3 <= a <= raw + 6
  {
    hide BusinessDay, Weekday, Open;
    NextWithinThree(raw, base);
    var h := Week(raw);
    var k := base - raw;
    assert base == raw + k;
    forall i | 0 <= i < k ensures !Open(Weekday(raw), h, i) {
      assert !BusinessDay(raw + i);
    }
    var i := OpenLater(Weekday(raw), h, k);
    assert BusinessDay(raw + i);
  }

  lemma OpenLater(w: int, h: int, k: int) returns (i: int)
    requires 0 <= w <= 6 && 0 <= k <= 3 && Open(w, h, k) && (forall j :: 0 <= j < k ==> !Open(w, h, j))
    ensures k + 3 <= i <= 6 && Open(w, h, i)
  {
    assert k > 0 ==> !Open(w, h, 0);
    assert k > 1 ==> !Open(w, h, 1);
    assert k > 2 ==> !Open(w, h, 2);
    i :=
      if Open(w, h, k + 3) then k + 3
      else if Open(w, h, 4) && k <= 1 then 4
      else if Open(w, h, 5) && k <= 2 then 5
      else 6;
  }

  /** The roll takes all three days exactly when a holiday stands on the Friday before or the Monday after the
      weekend. */
  lemma RollOfThreeIff(n: int, r: int)
    requires IsNext(n, r)
    ensures r == n + 3 <==>
      || (Weekday(n) == 5 && IsHoliday(n))
      || (Weekday(n) == SATURDAY && IsHoliday(n + 2))
  {
    hide BusinessDay, IsHoliday;
    NextWithinThree(n, r);
    var h := Week(n);
    BusinessDayIs(n);
    BusinessDayIs(n + 2);
    WeekdayAhead(n, 2);
    assert Open(Weekday(n), h, 0) == BusinessDay(n + 0) && Open(Weekday(n), h, 1) == BusinessDay(n + 1)
      && Open(Weekday(n), h, 2) == BusinessDay(n + 2) && Open(Weekday(n), h, 3) == BusinessDay(n + 3);
    hide Weekday;
    assert r > n ==> !BusinessDay(n);
    assert r > n + 1 ==> !BusinessDay(n + 1);
    assert r > n + 2 ==> !BusinessDay(n + 2);
  }

  /** Both bounds are met whenever the counted period ends on a Saturday and the Monday is a holiday. */
  lemma BoundsAreTight(raw: int)
    requires Weekday(raw) == SATURDAY && IsHoliday(raw + 2)
    ensures IsNext(raw, raw + 3) && IsNext(raw + 3 + 3, raw + 6)
  {
    hide BusinessDay, IsHoliday;
    var h := Week(raw);
    BusinessDayIs(raw + 2);
    assert Open(SATURDAY, h, 2) == BusinessDay(raw + 2);
    assert Open(SATURDAY, h, 0) == BusinessDay(raw + 0) && Open(SATURDAY, h, 1) == BusinessDay(raw + 1);
    assert Open(SATURDAY, h, 3) == BusinessDay(raw + 3) && Open(SATURDAY, h, 6) == BusinessDay(raw + 6);
  }

  /** Which happened on 2023-12-23, two days before Christmas. */
  lemma TightInDecember2023()
    ensures var raw := DayNumber(Date(2023, 12, 23)); Weekday(raw) == SATURDAY && IsHoliday(raw + 2)
  {
    DecemberDays();
    hide DayNumber, IsHoliday;
    ChristmasIsHoliday(2023);
  }

  lemma DecemberDays()
    ensures DayNumber(Date(2023, 12, 23)) == 19714 && DayNumber(Date(2023, 12, 25)) == 19716
  {
    BeforeMonth(2023, 12);
    YearStart();
    hide DaysBefore, DayFromYear, DayNumber, Leap;
    DayNumberPlain(Date(2023, 12, 23));
    DayNumberPlain(Date(2023, 12, 25));
  }

  lemma YearStart()
    ensures DayFromYear(2023) == 19358 && !Leap(2023)
  {}

  lemma ChristmasIsHoliday(y: int)
    requires 1 <= Weekday(DayNumber(Date(y, 12, 25))) <= 5
    ensures IsHoliday(DayNumber(Date(y, 12, 25)))
  {
    var t := Date(y, 12, 25);
    ShiftedDay(t);
    hide ObservedFixed, DayNumber, Weekday, HolidaySet;
    DayNumberInjective(t, ObservedFixed(t));
    CivilInverse(t);
    assert t == ObservedDate(Christmas, y);
    InHolidaySet(y, t);
  }
}
