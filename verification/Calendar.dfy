/** The Gregorian calendar, defined apart from the decoding of ordinals: leap years, lengths of
    months, and the count of days before a year.  Every date of every year is decoded to itself. */
module Calendar {
  import opened Prelude
  import opened Models

  predicate IsLeap(year: int) {
    year % 4 == 0 && (year % 100 != 0 || year % 400 == 0)
  }

  function MonthLength(month: int, leap: bool): int {
    match month
    case 4 => 30
    case 6 => 30
    case 9 => 30
    case 11 => 30
    case 2 => if leap then 29 else 28
    case _ => 31
  }

  predicate IsCalendarDay(year: int, month: int, day: int) {
    year >= 1 && 1 <= month <= 12 && 1 <= day <= MonthLength(month, IsLeap(year))
  }

  function DaysBeforeYear(year: int): int {
    365 * (year - 1) + (year - 1) / 4 - (year - 1) / 100 + (year - 1) / 400
  }

  /** The days of the months before `month`. */
  function DaysInMonthsBefore(month: int, leap: bool): int {
    if month <= 1 then 0 else DaysInMonthsBefore(month - 1, leap) + MonthLength(month - 1, leap)
  }

  /** The ordinal of a calendar day. */
  function Ordinal(year: int, month: int, day: int): Date {
    DaysBeforeYear(year) + DaysInMonthsBefore(month, IsLeap(year)) + day
  }

  lemma {:induction false} MonthsBefore(month: int, leap: bool)
    requires 1 <= month <= 12
    ensures DaysInMonthsBefore(month, leap) == DaysBeforeMonth(month, leap)
    ensures DaysInMonthsBefore(month, leap) >= 0
    ensures DaysInMonthsBefore(month, leap) + MonthLength(month, leap)
      == if month == 12 then (if leap then 366 else 365) else DaysBeforeMonth(month + 1, leap)
  {
    if month > 1 { MonthsBefore(month - 1, leap); }
  }

  /** The month of a day of the year is the one it was counted in. */
  lemma {:induction false} MonthIsFound(month: int, day: int, leap: bool)
    requires 1 <= month <= 12 && 1 <= day <= MonthLength(month, leap)
    ensures 0 <= DaysInMonthsBefore(month, leap) + day - 1 < (if leap then 366 else 365)
    ensures MonthContaining(DaysInMonthsBefore(month, leap) + day - 1, leap) == month
  {
    MonthsBefore(month, leap);
  }

  lemma {:induction false} MultipleAtLeast(divisor: int, factor: int)
    requires divisor > 0 && factor >= 1
    ensures divisor * factor >= divisor
  {
  }

  lemma {:induction false} DivideUniquely(x: int, divisor: int, quotient: int, rest: int)
    requires divisor > 0 && x == divisor * quotient + rest && 0 <= rest < divisor
    ensures x / divisor == quotient && x % divisor == rest
  {
    var more := x / divisor - quotient;
    assert divisor * more == divisor * (x / divisor) - divisor * quotient == rest - x % divisor;
    if more >= 1 {
      MultipleAtLeast(divisor, more);
    } else if more <= -1 {
      MultipleAtLeast(divisor, -more);
    }
  }

  /** Leap years by their place in the cycles of 400, 100, 4 and 1 years. */
  lemma {:induction false} LeapInCycles(year: int, a: int, c: int, q: int, s: int)
    requires year - 1 == 400 * a + 100 * c + 4 * q + s
    requires 0 <= c < 4 && 0 <= q < 25 && 0 <= s < 4
    ensures IsLeap(year) <==> s == 3 && (q != 24 || c == 3)
  {
    if s < 3 {
      DivideUniquely(year, 4, 100 * a + 25 * c + q, s + 1);
    } else {
      DivideUniquely(year, 4, 100 * a + 25 * c + q + 1, 0);
      if q < 24 {
        DivideUniquely(year, 100, 4 * a + c, 4 * q + 4);
      } else {
        DivideUniquely(year, 100, 4 * a + c + 1, 0);
        if c < 3 {
          DivideUniquely(year, 400, a, 100 * c + 100);
        } else {
          DivideUniquely(year, 400, a + 1, 0);
        }
      }
    }
  }

  lemma {:induction false} DaysInCycles(year: int, a: int, c: int, q: int, s: int)
    requires year - 1 == 400 * a + 100 * c + 4 * q + s
    requires 0 <= c < 4 && 0 <= q < 25 && 0 <= s < 4
    ensures DaysBeforeYear(year) == 146097 * a + 36524 * c + 1461 * q + 365 * s
  {
    DivideUniquely(year - 1, 4, 100 * a + 25 * c + q, s);
    DivideUniquely(year - 1, 100, 4 * a + c, 4 * q + s);
    DivideUniquely(year - 1, 400, a, 100 * c + 4 * q + s);
  }

  lemma {:induction false} YearInCycles(year: int) returns (a: int, c: int, q: int, s: int)
    ensures year - 1 == 400 * a + 100 * c + 4 * q + s
    ensures 0 <= c < 4 && 0 <= q < 25 && 0 <= s < 4
    ensures DaysBeforeYear(year) == 146097 * a + 36524 * c + 1461 * q + 365 * s
    ensures IsLeap(year) <==> s == 3 && (q != 24 || c == 3)
  {
    hide IsLeap, DaysBeforeYear;
    a, s := (year - 1) / 400, (year - 1) % 400;
    c, s := s / 100, s % 100;
    q, s := s / 4, s % 4;
    LeapInCycles(year, a, c, q, s);
    DaysInCycles(year, a, c, q, s);
  }

  /** Days of the year counted from zero: whatever year of the cycles they lie in, the decoding
      finds the month. */
  lemma {:induction false} CycleDayIsDecoded(a: int, c: int, q: int, s: int, month: int, day: int)
    requires 0 <= c < 4 && 0 <= q < 25 && 0 <= s < 4 && 1 <= month <= 12
    requires 1 <= day <= MonthLength(month, s == 3 && (q != 24 || c == 3))
    ensures
      var leap := s == 3 && (q != 24 || c == 3);
      MonthDayOf(146097 * a + 36524 * c + 1461 * q + 365 * s + DaysInMonthsBefore(month, leap) + day) == MonthDay(month, day)
  {
    hide MonthContaining, DaysBeforeMonth, DaysInMonthsBefore, MonthLength;
    var leap := s == 3 && (q != 24 || c == 3);
    MonthIsFound(month, day, leap);
    MonthsBefore(month, leap);
    var n := DaysInMonthsBefore(month, leap) + day - 1;
    var in4 := 365 * s + n;
    var in100 := 1461 * q + in4;
    var in400 := 36524 * c + in100;
    DivideUniquely(146097 * a + in400, 146097, a, in400);
    if n == 365 {
      LastDayOfLeapYear(month, day);
      if q != 24 {
        DivideUniquely(in400, 36524, c, in100);
        DivideUniquely(in100, 1461, q, in4);
      }
    } else {
      DivideUniquely(in400, 36524, c, in100);
      DivideUniquely(in100, 1461, q, in4);
      DivideUniquely(in4, 365, s, n);
    }
  }

  lemma {:induction false} LastDayOfLeapYear(month: int, day: int)
    requires 1 <= month <= 12 && 1 <= day <= MonthLength(month, true)
    requires DaysInMonthsBefore(month, true) + day == 366
    ensures month == 12 && day == 31
  {
    MonthsBefore(month, true);
  }

  /** Every calendar day of every year is decoded to its own month and day. */
  lemma {:induction false} OrdinalIsDecoded(year: int, month: int, day: int)
    requires IsCalendarDay(year, month, day)
    ensures MonthDayOf(Ordinal(year, month, day)) == MonthDay(month, day)
  {
    hide MonthDayOf, DaysInMonthsBefore, MonthLength, DaysBeforeYear, IsLeap;
    var a, c, q, s := YearInCycles(year);
    CycleDayIsDecoded(a, c, q, s, month, day);
  }

  /** Years follow each other without a gap. */
  lemma {:induction false} YearFollowsYear(year: int)
    ensures DaysBeforeYear(year + 1) == DaysBeforeYear(year) + (if IsLeap(year) then 366 else 365)
  {
    hide IsLeap, DaysBeforeYear;
    var a, c, q, s := YearInCycles(year);
    if s < 3 {
      DaysInCycles(year + 1, a, c, q, s + 1);
    } else if q < 24 {
      DaysInCycles(year + 1, a, c, q + 1, 0);
    } else if c < 3 {
      DaysInCycles(year + 1, a, c + 1, 0, 0);
    } else {
      DaysInCycles(year + 1, a + 1, 0, 0, 0);
    }
  }

  lemma {:induction false} YearOf(date: Date) returns (year: int)
    requires date >= 1
    ensures year >= 1 && DaysBeforeYear(year) < date <= DaysBeforeYear(year + 1)
    decreases date
  {
    hide IsLeap, DaysBeforeYear;
    YearFollowsYear(1);
    assert DaysBeforeYear(1) == 0 by { FirstYear(); }
    if date <= 365 {
      year := 1;
    } else {
      var before := YearOf(date - 365);
      YearFollowsYear(before);
      YearFollowsYear(before + 1);
      year := if date <= DaysBeforeYear(before + 1) then before else before + 1;
    }
  }

  lemma {:induction false} FirstYear()
    ensures DaysBeforeYear(1) == 0
  {
  }

  /** Every ordinal from 1 on is exactly one calendar day, and that is the day it is decoded to. */
  lemma {:induction false} EveryDateIsACalendarDay(date: Date) returns (year: int)
    requires date >= 1
    ensures
      var md := MonthDayOf(date);
      IsCalendarDay(year, md.month, md.day) && Ordinal(year, md.month, md.day) == date
  {
    hide MonthDayOf, DaysInMonthsBefore, DaysBeforeYear, IsLeap, MonthContaining, DaysBeforeMonth;
    year := YearOf(date);
    YearFollowsYear(year);
    var leap, n := IsLeap(year), date - DaysBeforeYear(year) - 1;
    var month := MonthContaining(n, leap);
    MonthsBefore(month, leap);
    var day := n - DaysInMonthsBefore(month, leap) + 1;
    DayFitsMonth(n, leap);
    OrdinalIsDecoded(year, month, day);
  }

  lemma {:induction false} DayFitsMonth(n: int, leap: bool)
    requires 0 <= n < (if leap then 366 else 365)
    ensures
      var month := MonthContaining(n, leap);
      DaysBeforeMonth(month, leap) <= n < DaysBeforeMonth(month, leap) + MonthLength(month, leap)
  {
  }

  // ---- what the calendar is read for ----------------------------------------------------------------

  predicate NotAfter(a: MonthDay, b: MonthDay) {
    a.month < b.month || (a.month == b.month && a.day <= b.day)
  }

  /** A recurring rule covers the days of every year from its first to its last day, and those
      outside of the gap between them if it wraps the year. */
  lemma {:induction false} RuleCoversCalendarDays(rule: TimeRule, year: int, month: int, day: int)
    requires IsCalendarDay(year, month, day) && ValidMonthDay(rule.start) && ValidMonthDay(rule.end)
    ensures Matches(rule, Ordinal(year, month, day)) <==>
      var today := MonthDay(month, day);
      if NotAfter(rule.start, rule.end) then NotAfter(rule.start, today) && NotAfter(today, rule.end)
      else NotAfter(rule.start, today) || NotAfter(today, rule.end)
  {
    hide MonthDayOf, Ordinal, IsLeap;
    OrdinalIsDecoded(year, month, day);
  }

  /** Weekdays follow each other from Monday to Sunday, and 1 May 2023 was a Monday. */
  lemma {:induction false} WeekdaysFollow(date: Date)
    ensures 1 <= IsoWeekday(date) <= 7
    ensures IsoWeekday(date + 1) == if IsoWeekday(date) == 7 then 1 else IsoWeekday(date) + 1
    ensures IsoWeekday(Ordinal(2023, 5, 1)) == 1
  {
    assert Ordinal(2023, 5, 1) == 738641 by {
      MonthsBefore(5, false);
    }
  }
}
