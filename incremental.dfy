/** The date logic of the incremental K-line refresh: same-week and
    same-month tests, the start of a week and of a month, and the choice of
    where each refresh of daily, weekly and monthly bars starts. Dates arrive
    as "%Y-%m-%d" strings in the source; here they are already parsed. The
    database reads and writes and the network fetch around these choices are
    not modelled; `today` and the stored last date are parameters. */
module Incremental {
  import opened Stats
  import opened Calendar

  /** `get_week_start`: the Monday of the week holding `d`. */
  function WeekStart(d: Date): (r: Date)
    requires Valid(d)
    ensures Valid(r)
    ensures ToDays(r) == ToDays(d) - Weekday(d)
  {
    MinusDays(d, Weekday(d)).value
  }

  /** `get_month_start`: day 1 of the month holding `d`. */
  function MonthStart(d: Date): (r: Date)
    requires Valid(d)
    ensures Valid(r)
  {
    Date(d.year, d.month, 1)
  }

  /** `is_same_week`: the two Mondays coincide. */
  predicate IsSameWeek(a: Date, b: Date)
    requires Valid(a) && Valid(b)
  {
    WeekStart(a) == WeekStart(b)
  }

  /** `is_same_month`. */
  predicate IsSameMonth(a: Date, b: Date)
  {
    a.year == b.year && a.month == b.month
  }

  /** The week start is a Monday, no later than `d` and at most six days
      before it. */
  lemma WeekStartIsMonday(d: Date)
    requires Valid(d)
    ensures Weekday(WeekStart(d)) == 0
    ensures ToDays(d) - 6 <= ToDays(WeekStart(d)) <= ToDays(d)
    ensures !Before(d, WeekStart(d))
  {
    var w := WeekStart(d);
    var t := ToDays(d);
    assert ToDays(w) == 7 * (t / 7);
    MultipleOfSeven(t / 7);
    if Before(d, w) {
      ToDaysOrdered(d, w);
    }
  }

  lemma MultipleOfSeven(q: int)
    ensures (7 * q) % 7 == 0
  {
  }

  /** Two dates share a week exactly when their day numbers fall in the
      same block of seven counted from 0001-01-01, a Monday. */
  lemma SameWeekIsSameBlock(a: Date, b: Date)
    requires Valid(a) && Valid(b)
    ensures IsSameWeek(a, b) <==> ToDays(a) / 7 == ToDays(b) / 7
  {
    var wa, wb := WeekStart(a), WeekStart(b);
    assert ToDays(wa) == 7 * (ToDays(a) / 7);
    assert ToDays(wb) == 7 * (ToDays(b) / 7);
    if ToDays(a) / 7 == ToDays(b) / 7 {
      ToDaysInjective(wa, wb);
    }
  }

  /** A date's own Monday and month start lie in its week and month. */
  lemma StartsBelongToPeriod(d: Date)
    requires Valid(d)
    ensures IsSameWeek(d, WeekStart(d))
    ensures IsSameMonth(d, MonthStart(d))
    ensures MonthStart(d).day == 1
  {
    var w := WeekStart(d);
    SameWeekIsSameBlock(d, w);
  }

  lemma SameWeekSymmetric(a: Date, b: Date)
    requires Valid(a) && Valid(b)
    ensures IsSameWeek(a, a)
    ensures IsSameWeek(a, b) <==> IsSameWeek(b, a)
    ensures IsSameWeek(a, b) ==> -6 <= ToDays(a) - ToDays(b) <= 6
  {
    SameWeekIsSameBlock(a, b);
  }

  lemma SameMonthSymmetric(a: Date, b: Date)
    requires Valid(a) && Valid(b)
    ensures IsSameMonth(a, a)
    ensures IsSameMonth(a, b) <==> IsSameMonth(b, a)
    ensures IsSameMonth(a, b) <==> MonthStart(a) == MonthStart(b)
  {
  }

  // ---------------------------------------------------------------------
  // Where a refresh starts

  /** A refresh fetches bars from `start` to today; `deleteFrom`, when
      present, is the date from which stored bars are deleted first. */
  datatype Refetch = Refetch(start: Date, deleteFrom: Option<Date>)

  /** `update_daily`: from the stored last date itself (it is refetched and
      replaced), or 365 days back for an instrument with no rows. Absent when
      that subtraction raises. */
  function DailyRefetch(last: Option<Date>, today: Date): (r: Option<Refetch>)
    requires last.Some? ==> Valid(last.value)
    requires Valid(today)
  {
    match last
    case Some(l) => Some(Refetch(l, None))
    case None =>
      match MinusDays(today, 365)
      case Some(s) => Some(Refetch(s, None))
      case None => None
  }

  /** `update_weekly`: when the stored last bar lies in today's week, that
      week's bars are deleted and refetched from its Monday; otherwise the
      refresh starts at the last date; an instrument with no rows gets five
      years of 365 days. */
  function WeeklyRefetch(last: Option<Date>, today: Date): (r: Option<Refetch>)
    requires last.Some? ==> Valid(last.value)
    requires Valid(today)
  {
    match last
    case Some(l) =>
      if IsSameWeek(l, today) then Some(Refetch(WeekStart(today), Some(WeekStart(today))))
      else Some(Refetch(l, None))
    case None =>
      match MinusDays(today, 365 * 5)
      case Some(s) => Some(Refetch(s, None))
      case None => None
  }

  /** `update_monthly`: the same rule with months and ten years. */
  function MonthlyRefetch(last: Option<Date>, today: Date): (r: Option<Refetch>)
    requires last.Some? ==> Valid(last.value)
    requires Valid(today)
  {
    match last
    case Some(l) =>
      if IsSameMonth(l, today) then Some(Refetch(MonthStart(today), Some(MonthStart(today))))
      else Some(Refetch(l, None))
    case None =>
      match MinusDays(today, 365 * 10)
      case Some(s) => Some(Refetch(s, None))
      case None => None
  }

  /** What the daily rule does in each case. */
  lemma DailyRefetchRule(last: Option<Date>, today: Date)
    requires last.Some? ==> Valid(last.value)
    requires Valid(today)
    ensures last.Some? ==> DailyRefetch(last, today) == Some(Refetch(last.value, None))
    ensures last.None? ==>
      (DailyRefetch(last, today).Some? <==> ToDays(today) >= 365)
    ensures last.None? && DailyRefetch(last, today).Some? ==>
      ToDays(DailyRefetch(last, today).value.start) == ToDays(today) - 365
  {
  }

  /** A weekly refresh never leaves a gap after the stored bars: it starts
      no later than the last stored date, and whatever it deletes it
      refetches (the delete and the fetch start at the same Monday). */
  lemma WeeklyRefetchCoversLast(last: Option<Date>, today: Date)
    requires last.Some? ==> Valid(last.value)
    requires Valid(today)
    ensures last.Some? ==> WeeklyRefetch(last, today).Some?
    ensures last.Some? ==> ToDays(WeeklyRefetch(last, today).value.start) <= ToDays(last.value)
    ensures last.Some? && IsSameWeek(last.value, today) ==>
      WeeklyRefetch(last, today).value.start == WeekStart(today) &&
      WeeklyRefetch(last, today).value.deleteFrom == Some(WeekStart(today))
    ensures last.Some? && !IsSameWeek(last.value, today) ==>
      WeeklyRefetch(last, today) == Some(Refetch(last.value, None))
    ensures last.None? && WeeklyRefetch(last, today).Some? ==>
      ToDays(WeeklyRefetch(last, today).value.start) == ToDays(today) - 365 * 5
  {
    if last.Some? && IsSameWeek(last.value, today) {
      WeekStartIsMonday(last.value);
    }
  }

  /** The same for the monthly refresh, whose restart is day 1 of the
      month. */
  lemma MonthlyRefetchCoversLast(last: Option<Date>, today: Date)
    requires last.Some? ==> Valid(last.value)
    requires Valid(today)
    ensures last.Some? ==> MonthlyRefetch(last, today).Some?
    ensures last.Some? ==> ToDays(MonthlyRefetch(last, today).value.start) <= ToDays(last.value)
    ensures last.Some? && IsSameMonth(last.value, today) ==>
      MonthlyRefetch(last, today).value.start == MonthStart(last.value) &&
      MonthlyRefetch(last, today).value.deleteFrom == Some(MonthStart(today))
    ensures last.Some? && !IsSameMonth(last.value, today) ==>
      MonthlyRefetch(last, today) == Some(Refetch(last.value, None))
    ensures last.None? && MonthlyRefetch(last, today).Some? ==>
      ToDays(MonthlyRefetch(last, today).value.start) == ToDays(today) - 365 * 10
  {
    if last.Some? && IsSameMonth(last.value, today) {
      var l := last.value;
      if Before(l, MonthStart(l)) {
      } else if l != MonthStart(l) {
        ToDaysOrdered(MonthStart(l), l);
      }
    }
  }
}
