/**
 * Points in time and calendar day addition. A `Date` is a whole number of
 * seconds relative to the reference date; a day is 86400 seconds. Adding days
 * fails when the result leaves the range the calendar can represent.
 */
module Calendar {
  import opened Wrappers

  type Date = int

  const SecondsPerDay: int := 86400

  /**
   * Earliest and latest dates of the model's calendar. The bound is a choice of
   * this model, set at the values of Foundation's `distantPast` and `distantFuture`.
   */
  const DistantPast: Date := -63114076800
  const DistantFuture: Date := 63113904000

  predicate Representable(date: Date) {
    DistantPast <= date <= DistantFuture
  }

  /**
   * `Calendar.date(byAdding: .day, value: days, to: date)`. The model's calendar
   * yields no date (`None`) when the result falls outside its chosen bounds.
   */
  function DateByAddingDays(days: int, date: Date): (r: Option<Date>)
    ensures r.Some? ==> Representable(r.value) && r.value - date == days * SecondsPerDay
  {
    var moved := date + days * SecondsPerDay;
    if Representable(moved) then Some(moved) else None
  }
}
