/**
 * The proleptic Gregorian calendar as Python's `datetime` module implements it:
 * dates of the years 1 to 9999, the constructors that reject anything else, and
 * `date + timedelta(days=1)`. The ordinal (day 1 is 0001-01-01, as in
 * `date.toordinal`) is the reference the successor day is proved against.
 */
module Calendar {
  import opened Wrappers

  const MIN_YEAR: int := 1
  const MAX_YEAR: int := 9999

  datatype Date = Date(year: int, month: int, day: int)

  datatype DateTime = DateTime(date: Date, hour: int, minute: int, second: int)

  /** The last date `datetime.date` can hold. */
  const MAX_DATE: Date := Date(MAX_YEAR, 12, 31)

  predicate IsLeapYear(year: int)
  {
    year % 4 == 0 && (year % 100 != 0 || year % 400 == 0)
  }

  function DaysInMonth(year: int, month: int): int
    requires 1 <= month <= 12
  {
    if month == 2 then (if IsLeapYear(year) then 29 else 28)
    else if month == 4 || month == 6 || month == 9 || month == 11 then 30
    else 31
  }

  function DaysInYear(year: int): int
  {
    if IsLeapYear(year) then 366 else 365
  }

  /** What `datetime.date(year, month, day)` accepts. */
  predicate ValidDate(d: Date)
  {
    MIN_YEAR <= d.year <= MAX_YEAR && 1 <= d.month <= 12 && 1 <= d.day <= DaysInMonth(d.year, d.month)
  }

  /** What `datetime.datetime(...)` accepts beyond a valid date. */
  predicate ValidDateTime(dt: DateTime)
  {
    ValidDate(dt.date) && 0 <= dt.hour < 24 && 0 <= dt.minute < 60 && 0 <= dt.second < 60
  }

  /** Chronological order on dates: year, then month, then day. */
  predicate Before(a: Date, b: Date)
  {
    a.year < b.year || (a.year == b.year && (a.month < b.month || (a.month == b.month && a.day < b.day)))
  }

  /** The range of a C `int`: CPython's `date` and `datetime` constructors
      convert every argument to one before any other check. */
  const C_INT_MIN: int := -0x8000_0000
  const C_INT_MAX: int := 0x7fff_ffff

  predicate IsCInt(x: int)
  {
    C_INT_MIN <= x <= C_INT_MAX
  }

  /** Every component of the date fits a C `int`. */
  predicate CIntDate(d: Date)
  {
    IsCInt(d.year) && IsCInt(d.month) && IsCInt(d.day)
  }

  predicate CIntDateTime(dt: DateTime)
  {
    CIntDate(dt.date) && IsCInt(dt.hour) && IsCInt(dt.minute) && IsCInt(dt.second)
  }

  /** What the constructor raises for a date it rejects: OverflowError for a
      component beyond a C `int`, else ValueError. */
  function DateError(d: Date): Exception
  {
    if CIntDate(d) then ValueError else OverflowError
  }

  function DateTimeError(dt: DateTime): Exception
  {
    if CIntDateTime(dt) then ValueError else OverflowError
  }

  /** `datetime.date(year, month, day)`: OverflowError for an argument beyond a
      C `int`, ValueError for any other invalid date. */
  function MakeDate(year: int, month: int, day: int): (r: Result<Date>)
    ensures r.Ok? <==> ValidDate(Date(year, month, day))
    ensures r.Ok? ==> r.value == Date(year, month, day)
    ensures r.Raise? ==> r.exception == DateError(Date(year, month, day))
  {
    var d := Date(year, month, day);
    if !CIntDate(d) then Raise(OverflowError)
    else if ValidDate(d) then Ok(d) else Raise(ValueError)
  }

  /** `datetime.datetime(year, month, day, hour, minute, second)`. */
  function MakeDateTime(year: int, month: int, day: int, hour: int, minute: int, second: int): (r: Result<DateTime>)
    ensures r.Ok? <==> ValidDateTime(DateTime(Date(year, month, day), hour, minute, second))
    ensures r.Ok? ==> r.value == DateTime(Date(year, month, day), hour, minute, second)
    ensures r.Raise? ==> r.exception == DateTimeError(DateTime(Date(year, month, day), hour, minute, second))
  {
    var dt := DateTime(Date(year, month, day), hour, minute, second);
    if !CIntDateTime(dt) then Raise(OverflowError)
    else if ValidDateTime(dt) then Ok(dt) else Raise(ValueError)
  }

  // ----- the ordinal: days counted from 0001-01-01 -----

  function DaysBeforeYear(year: int): nat
    requires year >= MIN_YEAR
    decreases year
  {
    if year == MIN_YEAR then 0 else DaysBeforeYear(year - 1) + DaysInYear(year - 1)
  }

  function DaysBeforeMonth(year: int, month: int): nat
    requires 1 <= month <= 12
    decreases month
  {
    if month == 1 then 0 else DaysBeforeMonth(year, month - 1) + DaysInMonth(year, month - 1)
  }

  /** The day number of a valid date; 0001-01-01 is day 1. */
  function Ordinal(d: Date): nat
    requires ValidDate(d)
  {
    DaysBeforeYear(d.year) + DaysBeforeMonth(d.year, d.month) + d.day
  }

  /** The day after a valid date that is not the last one: next day of the
      month, else the first of the next month, else New Year's Day. */
  function NextDay(d: Date): Date
    requires ValidDate(d) && d != MAX_DATE
  {
    if d.day < DaysInMonth(d.year, d.month) then Date(d.year, d.month, d.day + 1)
    else if d.month < 12 then Date(d.year, d.month + 1, 1)
    else Date(d.year + 1, 1, 1)
  }

  /** `date + timedelta(days=1)`: the date one day later, or OverflowError past 9999-12-31. */
  function AddOneDay(d: Date): (r: Result<Date>)
    requires ValidDate(d)
    ensures r.Ok? <==> d != MAX_DATE
    ensures r.Raise? ==> r.exception == OverflowError
    ensures r.Ok? ==> ValidDate(r.value) && Ordinal(r.value) == Ordinal(d) + 1
    ensures r.Ok? ==> Before(d, r.value)
  {
    if d == MAX_DATE then Raise(OverflowError)
    else
      NextDayIsNextOrdinal(d);
      Ok(NextDay(d))
  }

  // ----- lemmas -----

  /** The twelve months of a year add up to its length. */
  lemma MonthsFillYear(year: int)
    ensures DaysBeforeMonth(year, 12) + DaysInMonth(year, 12) == DaysInYear(year)
  {
    assert DaysBeforeMonth(year, 2) == 31;
    assert DaysBeforeMonth(year, 3) == 31 + DaysInMonth(year, 2);
    assert DaysBeforeMonth(year, 4) == 62 + DaysInMonth(year, 2);
    assert DaysBeforeMonth(year, 5) == 92 + DaysInMonth(year, 2);
    assert DaysBeforeMonth(year, 6) == 123 + DaysInMonth(year, 2);
    assert DaysBeforeMonth(year, 7) == 153 + DaysInMonth(year, 2);
    assert DaysBeforeMonth(year, 8) == 184 + DaysInMonth(year, 2);
    assert DaysBeforeMonth(year, 9) == 215 + DaysInMonth(year, 2);
    assert DaysBeforeMonth(year, 10) == 245 + DaysInMonth(year, 2);
    assert DaysBeforeMonth(year, 11) == 276 + DaysInMonth(year, 2);
    assert DaysBeforeMonth(year, 12) == 306 + DaysInMonth(year, 2);
  }

  /** The successor day is a valid date whose ordinal is one more. */
  lemma NextDayIsNextOrdinal(d: Date)
    requires ValidDate(d) && d != MAX_DATE
    ensures ValidDate(NextDay(d))
    ensures Ordinal(NextDay(d)) == Ordinal(d) + 1
  {
    var n := NextDay(d);
    if d.day < DaysInMonth(d.year, d.month) {
      assert n == Date(d.year, d.month, d.day + 1);
    } else if d.month < 12 {
      assert n == Date(d.year, d.month + 1, 1);
      assert DaysBeforeMonth(d.year, d.month + 1) == DaysBeforeMonth(d.year, d.month) + DaysInMonth(d.year, d.month);
    } else {
      assert d.year < MAX_YEAR;
      assert n == Date(d.year + 1, 1, 1);
      assert DaysBeforeYear(d.year + 1) == DaysBeforeYear(d.year) + DaysInYear(d.year);
      MonthsFillYear(d.year);
    }
  }

  /** Months before month m (and the days of m itself) never exceed those before a later month. */
  lemma {:induction false} DaysBeforeMonthGrows(year: int, m1: int, m2: int)
    requires 1 <= m1 < m2 <= 12
    ensures DaysBeforeMonth(year, m1) + DaysInMonth(year, m1) <= DaysBeforeMonth(year, m2)
  {
    if m1 < m2 - 1 {
      DaysBeforeMonthGrows(year, m1, m2 - 1);
    }
  }

  /** A whole year lies before the start of every later year. */
  lemma {:induction false} DaysBeforeYearGrows(y1: int, y2: int)
    requires MIN_YEAR <= y1 < y2
    ensures DaysBeforeYear(y1) + DaysInYear(y1) <= DaysBeforeYear(y2)
  {
    if y1 < y2 - 1 {
      DaysBeforeYearGrows(y1, y2 - 1);
    }
  }

  /** The ordinal follows chronological order, so it numbers valid dates one to one. */
  lemma OrdinalMonotone(a: Date, b: Date)
    requires ValidDate(a) && ValidDate(b) && Before(a, b)
    ensures Ordinal(a) < Ordinal(b)
  {
    if a.year < b.year {
      if a.month < 12 {
        DaysBeforeMonthGrows(a.year, a.month, 12);
      }
      MonthsFillYear(a.year);
      DaysBeforeYearGrows(a.year, b.year);
    } else if a.month < b.month {
      DaysBeforeMonthGrows(a.year, a.month, b.month);
    }
  }

  /** The successor day follows d and no valid date lies strictly between the two. */
  lemma NextDayIsImmediateSuccessor(d: Date, e: Date)
    requires ValidDate(d) && d != MAX_DATE && ValidDate(e)
    ensures Before(d, NextDay(d))
    ensures !(Before(d, e) && Before(e, NextDay(d)))
  {
    NextDayIsNextOrdinal(d);
    if Before(d, e) && Before(e, NextDay(d)) {
      OrdinalMonotone(d, e);
      OrdinalMonotone(e, NextDay(d));
    }
  }

  /** 28 February rolls over to 29 February exactly in leap years, and 29 February to 1 March. */
  lemma LeapDayRollover(year: int)
    requires MIN_YEAR <= year <= MAX_YEAR
    ensures NextDay(Date(year, 2, 28)) == (if IsLeapYear(year) then Date(year, 2, 29) else Date(year, 3, 1))
    ensures IsLeapYear(year) ==> NextDay(Date(year, 2, 29)) == Date(year, 3, 1)
    ensures year < MAX_YEAR ==> NextDay(Date(year, 12, 31)) == Date(year + 1, 1, 1)
  {
  }
}
