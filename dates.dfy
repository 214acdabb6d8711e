/** Calendar dates as the flow compares them. */
module Dates {

  /** A calendar date; it stands for the value `datetime.strptime(s, "%Y-%m-%d")`
      yields for an ISO date string `s`. */
  datatype Date = Date(year: int, month: int, day: int)

  /** Strict chronological order on dates: lexicographic on (year, month, day). */
  predicate Before(a: Date, b: Date)
  {
    || a.year < b.year
    || (a.year == b.year && a.month < b.month)
    || (a.year == b.year && a.month == b.month && a.day < b.day)
  }

  /** The inclusive window `date_min to date_max` that one run covers. */
  datatype DateRange = DateRange(dateMin: Date, dateMax: Date)

  /** `Before` is a strict total order, so "the window is empty" (`date_max` before
      `date_min`) and "the window is actionable" (`date_min` not after `date_max`)
      split every pair of dates. */
  lemma BeforeIsStrictTotalOrder(a: Date, b: Date, c: Date)
    ensures !Before(a, a)
    ensures Before(a, b) ==> !Before(b, a)
    ensures Before(a, b) && Before(b, c) ==> Before(a, c)
    ensures a == b || Before(a, b) || Before(b, a)
  {
  }
}
