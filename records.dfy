/** Work records and the inclusive date-window mask applied to them. */
module Records {
  import opened Wrappers
  import opened Dates

  /** One row of the table: the coerced date (None where pandas produced NaT),
      the hours and the reference pay ("payforaverage"), both already defaulted
      to 0 when they were not numeric. */
  datatype Record = Record(date: Option<Timestamp>, hours: real, payForAverage: real)

  /** A period's window, both ends inclusive. */
  datatype Window = Window(start: Timestamp, end: Timestamp)

  /** The mask `start <= date <= end`; any comparison with NaT is false. */
  predicate InWindow(r: Record, w: Window)
    ensures InWindow(r, w) ==> r.date.Some? && NotAfter(w.start, w.end)
  {
    r.date.Some? && NotAfter(w.start, r.date.value) && NotAfter(r.date.value, w.end)
  }

  /** Boolean-mask indexing: the records, in input order, whose mask value is
      `inside`. `inside == false` is the negated mask used when saving. */
  function Select(rs: seq<Record>, w: Window, inside: bool): (out: seq<Record>)
    ensures |out| <= |rs|
    ensures forall r :: r in out <==> r in rs && InWindow(r, w) == inside
  {
    if rs == [] then []
    else (if InWindow(rs[0], w) == inside then [rs[0]] else []) + Select(rs[1..], w, inside)
  }

  /** The records of a period: `df[(df.date >= start) & (df.date <= end)]`. */
  function Filter(rs: seq<Record>, w: Window): (out: seq<Record>)
    ensures forall r :: r in out <==> r in rs && InWindow(r, w)
    ensures forall r :: r in out ==> r.date.Some?
  {
    Select(rs, w, true)
  }

  /** The records outside a period: `df[~((df.date >= start) & (df.date <= end))]`. */
  function Exclude(rs: seq<Record>, w: Window): (out: seq<Record>)
    ensures forall r :: r in out <==> r in rs && !InWindow(r, w)
    ensures forall r :: r in rs && r.date.None? ==> r in out
  {
    Select(rs, w, false)
  }

  /** Selection distributes over concatenation: it keeps input order. */
  lemma {:induction false} SelectAppend(a: seq<Record>, b: seq<Record>, w: Window, inside: bool)
    ensures Select(a + b, w, inside) == Select(a, w, inside) + Select(b, w, inside)
  {
    if a == [] {
      assert a + b == b;
    } else {
      assert (a + b)[1..] == a[1..] + b;
      SelectAppend(a[1..], b, w, inside);
    }
  }

  /** Every record is kept with its multiplicity or dropped entirely:
      duplicates are neither merged nor invented. */
  lemma {:induction false} SelectCount(rs: seq<Record>, w: Window, inside: bool, r: Record)
    ensures multiset(Select(rs, w, inside))[r]
            == if InWindow(r, w) == inside then multiset(rs)[r] else 0
  {
    if rs != [] {
      assert rs == [rs[0]] + rs[1..];
      SelectCount(rs[1..], w, inside, r);
    }
  }

  /** A sequence whose every record already has the wanted mask value is kept whole. */
  lemma {:induction false} SelectKeepsAll(rs: seq<Record>, w: Window, inside: bool)
    requires forall i :: 0 <= i < |rs| ==> InWindow(rs[i], w) == inside
    ensures Select(rs, w, inside) == rs
  {
    if rs != [] {
      SelectKeepsAll(rs[1..], w, inside);
    }
  }

  /** A sequence none of whose records has the wanted mask value selects nothing. */
  lemma {:induction false} SelectKeepsNone(rs: seq<Record>, w: Window, inside: bool)
    requires forall i :: 0 <= i < |rs| ==> InWindow(rs[i], w) != inside
    ensures Select(rs, w, inside) == []
  {
    if rs != [] {
      SelectKeepsNone(rs[1..], w, inside);
    }
  }

  /** Filtering twice over the same window is filtering once. */
  lemma FilterIdempotent(rs: seq<Record>, w: Window)
    ensures Filter(Filter(rs, w), w) == Filter(rs, w)
  {
    var once := Filter(rs, w);
    forall i | 0 <= i < |once| ensures InWindow(once[i], w) {
      assert once[i] in once;
    }
    SelectKeepsAll(once, w, true);
  }

  /** A window whose start lies after its end selects nothing. */
  lemma FilterInvertedWindow(rs: seq<Record>, w: Window)
    requires !NotAfter(w.start, w.end)
    ensures Filter(rs, w) == []
  {
    SelectKeepsNone(rs, w, true);
  }

  /** The mask and its negation split the table: together they hold every
      record exactly as often as the table does. */
  lemma {:induction false} FilterExcludePartition(rs: seq<Record>, w: Window)
    ensures |Filter(rs, w)| + |Exclude(rs, w)| == |rs|
    ensures multiset(Filter(rs, w)) + multiset(Exclude(rs, w)) == multiset(rs)
  {
    if rs != [] {
      FilterExcludePartition(rs[1..], w);
      assert rs == [rs[0]] + rs[1..];
    }
  }

  /** Comparisons use the full timestamp: a record stamped after midnight on
      the last day of a window that ends at midnight is outside the window. */
  lemma LaterOnEndDayIsOutside(r: Record, w: Window)
    requires w.end.nanos == 0
    requires r.date.Some? && r.date.value.nanos > 0
    requires r.date.value.year == w.end.year && r.date.value.month == w.end.month
    requires r.date.value.day == w.end.day
    ensures !InWindow(r, w)
  {
  }
}
