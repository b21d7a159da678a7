/** Civil dates as Python's `datetime.date` treats them: the proleptic
    Gregorian calendar over years 1..9999, a day number counted from
    0001-01-01 (Python's `toordinal() - 1`), the weekday with Monday = 0,
    and subtraction of a `timedelta` of whole days, which raises when the
    result would fall before 0001-01-01. */
module Calendar {
  import opened Stats

  datatype Date = Date(year: int, month: int, day: int)

  predicate IsLeap(y: int)
  {
    y % 4 == 0 && (y % 100 != 0 || y % 400 == 0)
  }

  function DaysInYear(y: int): int
  {
    if IsLeap(y) then 366 else 365
  }

  function DaysInMonth(y: int, m: int): (n: int)
    requires 1 <= m <= 12
    ensures 28 <= n <= 31
  {
    if m == 2 then (if IsLeap(y) then 29 else 28)
    else if m == 4 || m == 6 || m == 9 || m == 11 then 30
    else 31
  }

  predicate Valid(d: Date)
  {
    && 1 <= d.year <= 9999
    && 1 <= d.month <= 12
    && 1 <= d.day <= DaysInMonth(d.year, d.month)
  }

  /** Days in the years before `y`. */
  function DaysBeforeYear(y: int): int
    requires y >= 1
  {
    var p := y - 1;
    365 * p + p / 4 - p / 100 + p / 400
  }

  /** Days in the months of year `y` before month `m`. */
  function DaysBeforeMonth(y: int, m: int): int
    requires 1 <= m <= 12
  {
    var common := [0, 31, 59, 90, 120, 151, 181, 212, 243, 273, 304, 334];
    common[m - 1] + (if m > 2 && IsLeap(y) then 1 else 0)
  }

  /** The day number: 0 for 0001-01-01. */
  function ToDays(d: Date): int
    requires Valid(d)
  {
    DaysBeforeYear(d.year) + DaysBeforeMonth(d.year, d.month) + d.day - 1
  }

  /** `date.weekday()`: 0001-01-01 was a Monday, the weekday 0. */
  function Weekday(d: Date): (w: int)
    requires Valid(d)
    ensures 0 <= w < 7
  {
    ToDays(d) % 7
  }

  // ---------------------------------------------------------------------
  // Day numbers are well placed

  lemma YearLength(y: int)
    requires y >= 1
    ensures DaysBeforeYear(y + 1) == DaysBeforeYear(y) + DaysInYear(y)
  {
    var p := y - 1;
    assert y / 4 == p / 4 + (if y % 4 == 0 then 1 else 0);
    assert y / 100 == p / 100 + (if y % 100 == 0 then 1 else 0);
    assert y / 400 == p / 400 + (if y % 400 == 0 then 1 else 0);
  }

  lemma MonthLength(y: int, m: int)
    requires 1 <= m < 12
    ensures DaysBeforeMonth(y, m + 1) == DaysBeforeMonth(y, m) + DaysInMonth(y, m)
  {
  }

  lemma LastMonthLength(y: int)
    ensures DaysBeforeMonth(y, 12) + DaysInMonth(y, 12) == DaysInYear(y)
  {
  }

  lemma {:induction false} YearsAhead(y1: int, y2: int)
    requires 1 <= y1 < y2
    ensures DaysBeforeYear(y1) + DaysInYear(y1) <= DaysBeforeYear(y2)
    decreases y2 - y1
  {
    YearLength(y1);
    if y1 + 1 < y2 {
      YearsAhead(y1 + 1, y2);
      YearLength(y1 + 1);
    }
  }

  lemma {:induction false} MonthsAhead(y: int, m1: int, m2: int)
    requires 1 <= m1 < m2 <= 12
    ensures DaysBeforeMonth(y, m1) + DaysInMonth(y, m1) <= DaysBeforeMonth(y, m2)
    decreases m2 - m1
  {
    MonthLength(y, m1);
    if m1 + 1 < m2 {
      MonthsAhead(y, m1 + 1, m2);
    }
  }

  /** The day of the year of a valid date is below the year's length. */
  lemma InYear(d: Date)
    requires Valid(d)
    ensures 0 <= ToDays(d) - DaysBeforeYear(d.year) < DaysInYear(d.year)
  {
    if d.month < 12 {
      MonthsAhead(d.year, d.month, 12);
    }
    LastMonthLength(d.year);
  }

  /** Calendar order, as ISO date strings compare. */
  predicate Before(a: Date, b: Date)
  {
    || a.year < b.year
    || (a.year == b.year && a.month < b.month)
    || (a.year == b.year && a.month == b.month && a.day < b.day)
  }

  /** Day numbers follow calendar order. */
  lemma ToDaysOrdered(a: Date, b: Date)
    requires Valid(a) && Valid(b) && Before(a, b)
    ensures ToDays(a) < ToDays(b)
  {
    if a.year < b.year {
      InYear(a);
      YearsAhead(a.year, b.year);
    } else if a.month < b.month {
      MonthsAhead(a.year, a.month, b.month);
    }
  }

  lemma ToDaysInjective(a: Date, b: Date)
    requires Valid(a) && Valid(b) && ToDays(a) == ToDays(b)
    ensures a == b
  {
    if Before(a, b) {
      ToDaysOrdered(a, b);
    } else if Before(b, a) {
      ToDaysOrdered(b, a);
    }
  }

  // ---------------------------------------------------------------------
  // Subtracting days

  /** The day before `d`. */
  function PrevDay(d: Date): (r: Date)
    requires Valid(d) && (d.year > 1 || d.month > 1 || d.day > 1)
    ensures Valid(r)
  {
    if d.day > 1 then Date(d.year, d.month, d.day - 1)
    else if d.month > 1 then Date(d.year, d.month - 1, DaysInMonth(d.year, d.month - 1))
    else Date(d.year - 1, 12, 31)
  }

  lemma PrevDayDays(d: Date)
    requires Valid(d) && (d.year > 1 || d.month > 1 || d.day > 1)
    ensures ToDays(PrevDay(d)) == ToDays(d) - 1
  {
    if d.day == 1 {
      if d.month > 1 {
        MonthLength(d.year, d.month - 1);
      } else {
        YearLength(d.year - 1);
        LastMonthLength(d.year - 1);
      }
    }
  }

  /** `d - timedelta(days=k)`: absent when it would precede 0001-01-01,
      where Python raises `OverflowError`. */
  function MinusDays(d: Date, k: nat): (r: Option<Date>)
    requires Valid(d)
    ensures r.Some? <==> k <= ToDays(d)
    ensures r.Some? ==> Valid(r.value) && ToDays(r.value) == ToDays(d) - k
    decreases k
  {
    if k == 0 then Some(d)
    else if d.year == 1 && d.month == 1 && d.day == 1 then None
    else
      PrevDayDays(d);
      MinusDays(PrevDay(d), k - 1)
  }
}
