/** The fixed table of the twelve selectable periods and their windows. */
module Periods {
  import opened Wrappers
  import opened Dates
  import opened Records

  /** `month_ranges[id]`: the literal window of period `id`, parsed to
      midnight timestamps; an id outside the table is a KeyError (None).
      The literals of periods 1..4 start after they end and are kept so. */
  function MonthRange(id: int): (r: Option<Window>)
    ensures r.Some? <==> 1 <= id <= 12
    ensures r.Some? ==> r.value.start.nanos == 0 && r.value.end.nanos == 0
    ensures r.Some? && id <= 4 ==> !NotAfter(r.value.start, r.value.end)
    ensures r.Some? && 5 <= id ==> NotAfter(r.value.start, r.value.end)
  {
    match id
    case 1 => Some(Window(Midnight(2025, 1, 11), Midnight(2024, 12, 9)))
    case 2 => Some(Window(Midnight(2025, 2, 11), Midnight(2025, 1, 9)))
    case 3 => Some(Window(Midnight(2025, 3, 11), Midnight(2025, 2, 9)))
    case 4 => Some(Window(Midnight(2025, 4, 11), Midnight(2025, 3, 9)))
    case 5 => Some(Window(Midnight(2025, 1, 11), Midnight(2025, 4, 9)))
    case 6 => Some(Window(Midnight(2025, 2, 11), Midnight(2025, 5, 9)))
    case 7 => Some(Window(Midnight(2025, 3, 11), Midnight(2025, 6, 9)))
    case 8 => Some(Window(Midnight(2025, 4, 11), Midnight(2025, 7, 9)))
    case 9 => Some(Window(Midnight(2025, 5, 11), Midnight(2025, 8, 9)))
    case 10 => Some(Window(Midnight(2025, 6, 11), Midnight(2025, 9, 9)))
    case 11 => Some(Window(Midnight(2025, 7, 11), Midnight(2025, 10, 9)))
    case 12 => Some(Window(Midnight(2025, 8, 11), Midnight(2025, 11, 9)))
    case _ => None
  }

  /** Periods 1..4 show no records, whatever the table holds. */
  lemma InvertedPeriodsSelectNothing(id: int, rs: seq<Record>)
    requires 1 <= id <= 4
    ensures MonthRange(id).Some? && Filter(rs, MonthRange(id).value) == []
  {
    FilterInvertedWindow(rs, MonthRange(id).value);
  }

  /** In periods 5..12 a record dated on the first or the last day of the
      window (at midnight) belongs to the period: both ends are inclusive. */
  lemma ForwardPeriodBoundsIncluded(id: int, hours: real, pay: real)
    requires 5 <= id <= 12
    ensures MonthRange(id).Some?
    ensures InWindow(Record(Some(MonthRange(id).value.start), hours, pay), MonthRange(id).value)
    ensures InWindow(Record(Some(MonthRange(id).value.end), hours, pay), MonthRange(id).value)
  {
  }

  /** Consecutive periods among 5..12 overlap: the first day of period
      `id + 1` also lies in period `id`, so a record can belong to both. */
  lemma ConsecutivePeriodsOverlap(id: int, hours: real, pay: real)
    requires 5 <= id < 12
    ensures MonthRange(id).Some? && MonthRange(id + 1).Some?
    ensures InWindow(Record(Some(MonthRange(id + 1).value.start), hours, pay), MonthRange(id).value)
  {
  }
}
