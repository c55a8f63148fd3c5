/** Dates as the views compare them. An instant carries its absolute time in
    milliseconds together with its local calendar fields (year, month as
    `getMonth` numbers it from 0, day of the month); the fields are taken to
    be the local-time reading of `ms`. */
module Calendar {

  datatype Instant = Instant(ms: int, year: int, month: int, day: int)

  /** Months counted from year 0, so that consecutive months differ by one. */
  function MonthNumber(t: Instant): int {
    t.year * 12 + t.month
  }

  /** `isSameDay(a, b)`. */
  predicate SameDay(a: Instant, b: Instant) {
    a.year == b.year && a.month == b.month && a.day == b.day
  }

  /** `isWithinInterval(t, { start: startOfMonth(now), end: endOfMonth(now) })`:
      the calendar month of `now`. */
  predicate InMonthOf(t: Instant, now: Instant) {
    MonthNumber(t) == MonthNumber(now)
  }

  /** `t >= startOfMonth(now)`. */
  predicate OnOrAfterStartOfMonth(t: Instant, now: Instant) {
    MonthNumber(t) >= MonthNumber(now)
  }

  /** Within `[startOfMonth(subMonths(now, 1)), endOfMonth(subMonths(now, 1))]`. */
  predicate InPreviousMonthOf(t: Instant, now: Instant) {
    MonthNumber(t) == MonthNumber(now) - 1
  }

  /** What `format(t, "dd MMM")` shows: the day and the month, not the year. */
  datatype DayLabel = DayLabel(day: int, month: int)

  function LabelOf(t: Instant): (l: DayLabel)
    ensures l.day == t.day && l.month == t.month
  {
    DayLabel(t.day, t.month)
  }

  /** Instants of the same calendar day carry the same label, and so do the
      same day and month of different years. */
  lemma LabelIgnoresYear(a: Instant, b: Instant)
    requires a.month == b.month && a.day == b.day
    ensures LabelOf(a) == LabelOf(b)
  {
  }

  /** The current month lies on or after its own start, the previous month
      lies before it, and the two do not overlap. */
  lemma MonthWindows(t: Instant, now: Instant)
    ensures InMonthOf(t, now) ==> OnOrAfterStartOfMonth(t, now)
    ensures !(InMonthOf(t, now) && InPreviousMonthOf(t, now))
    ensures InPreviousMonthOf(t, now) ==> !OnOrAfterStartOfMonth(t, now)
  {
  }
}
