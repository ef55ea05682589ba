/** Points in time as pandas compares them once a date column has been coerced. */
module Dates {

  /** A timestamp: the calendar day plus the time of day in nanoseconds since
      midnight. For the values pandas produces (month 1..12, a day within the
      month, a time of day below 24 hours) comparing the four fields
      lexicographically is comparing the instants. */
  datatype Timestamp = Timestamp(year: int, month: int, day: int, nanos: int)

  /** A `YYYY-MM-DD` string parses to midnight of that day. */
  function Midnight(year: int, month: int, day: int): Timestamp {
    Timestamp(year, month, day, 0)
  }

  /** `a <= b` on timestamps: chronological order, time of day included. */
  predicate NotAfter(a: Timestamp, b: Timestamp) {
    || a.year < b.year
    || (a.year == b.year && a.month < b.month)
    || (a.year == b.year && a.month == b.month && a.day < b.day)
    || (a.year == b.year && a.month == b.month && a.day == b.day && a.nanos <= b.nanos)
  }

  /** The comparison is a total order, so a window is a contiguous span of time. */
  lemma NotAfterIsTotalOrder(a: Timestamp, b: Timestamp, c: Timestamp)
    ensures NotAfter(a, a)
    ensures NotAfter(a, b) && NotAfter(b, a) ==> a == b
    ensures NotAfter(a, b) && NotAfter(b, c) ==> NotAfter(a, c)
    ensures NotAfter(a, b) || NotAfter(b, a)
  {
  }
}
