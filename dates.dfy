/** Instants as the vaccine projection in lib/api.ts uses them: it only ever moves a
    date by whole months (`setMonth(getMonth() + n)`), replaces it by "now", compares
    two instants with `<` and keeps the calendar day of the ISO form. */
module Dates {
  import opened Domain

  /** An instant. `months` counts months since year 0 (year * 12 + the zero-based
      month that `getMonth` returns); `day` is the day of the month and `millis` the
      time within that day. */
  datatype Instant = Instant(months: int, day: int, millis: int)

  /** `new Date('YYYY-MM-DD')`: midnight at the start of that calendar day. */
  function FromDate(d: CalendarDate): Instant {
    Instant(d.year * 12 + (d.month - 1), d.day, 0)
  }

  /** `toISOString().split('T')[0]`: the calendar day of an instant. */
  function DatePart(i: Instant): CalendarDate {
    CalendarDate(i.months / 12, i.months % 12 + 1, i.day)
  }

  /** `setMonth(getMonth() + n)`: moves the month by `n`, carrying into the year
      (JavaScript normalises an out-of-range month the same way) and keeping the
      day and the time of day. A forward move lands strictly later, a backward one
      strictly earlier, and only a zero move leaves the instant unchanged. */
  function AddMonths(i: Instant, n: int): (r: Instant)
    ensures Before(i, r) <==> n > 0
    ensures Before(r, i) <==> n < 0
    ensures n == 0 <==> r == i
  {
    Instant(i.months + n, i.day, i.millis)
  }

  /** Two month moves in a row are one move by their sum, so `k` steps of `step`
      months are one move by `k * step`. */
  lemma AddMonthsComposes(i: Instant, a: int, b: int)
    ensures AddMonths(AddMonths(i, a), b) == AddMonths(i, a + b)
  {
  }

  /** `a < b` on two dates: `a` is strictly earlier. */
  predicate Before(a: Instant, b: Instant) {
    || a.months < b.months
    || (a.months == b.months && (a.day < b.day || (a.day == b.day && a.millis < b.millis)))
  }

  /** `Before` is a strict total order: irreflexive, transitive and total on
      distinct instants, so "not before now" means "now or later". */
  lemma BeforeIsStrictTotalOrder(a: Instant, b: Instant, c: Instant)
    ensures !Before(a, a)
    ensures Before(a, b) && Before(b, c) ==> Before(a, c)
    ensures a != b ==> Before(a, b) || Before(b, a)
    ensures !(Before(a, b) && Before(b, a))
  {
  }

  /** Reading a well-formed calendar day as an instant and taking its calendar day
      back gives the day that was read. */
  lemma DatePartFromDate(d: CalendarDate)
    requires 1 <= d.month <= 12
    ensures DatePart(FromDate(d)) == d
  {
  }
}
