/** The figures shown by Calculate for a set of records. */
module Metrics {
  import opened Wrappers
  import opened Records

  /** `filtered['hours'].sum()`; the sum of an empty column is 0. */
  function TotalHours(rs: seq<Record>): (total: real)
    ensures rs == [] ==> total == 0.0
  {
    if rs == [] then 0.0 else rs[0].hours + TotalHours(rs[1..])
  }

  /** `filtered['payforaverage'].sum()`. */
  function TotalPay(rs: seq<Record>): (total: real)
    ensures rs == [] ==> total == 0.0
  {
    if rs == [] then 0.0 else rs[0].payForAverage + TotalPay(rs[1..])
  }

  /** `len(filtered[filtered['hours'] > 0])`: the number of working days. */
  function WorkDays(rs: seq<Record>): (n: nat)
    ensures n <= |rs|
  {
    if rs == [] then 0 else (if rs[0].hours > 0.0 then 1 else 0) + WorkDays(rs[1..])
  }

  datatype Metrics = Metrics(
    totalHours: real,
    totalPay: real,
    workDays: nat,
    avgHours: real,
    avgPay: real,
    payPerHour: real)

  const NO_DATA := Metrics(0.0, 0.0, 0, 0.0, 0.0, 0.0)

  /** `x / d if d > 0 else 0`: the zero-denominator policy of all three quotients. */
  function GuardedRatio(x: real, d: real): (q: real)
    ensures d > 0.0 ==> q * d == x
    ensures d <= 0.0 ==> q == 0.0
  {
    if d > 0.0 then x / d else 0.0
  }

  /** The six figures, each quotient guarded: a zero denominator gives 0. */
  function Summarize(rs: seq<Record>): (m: Metrics)
    ensures m.totalHours == TotalHours(rs) && m.totalPay == TotalPay(rs)
    ensures m.workDays == WorkDays(rs)
    ensures m.workDays <= |rs|
    ensures m.workDays > 0 ==> m.avgHours * (m.workDays as real) == m.totalHours
    ensures m.workDays > 0 ==> m.avgPay * (m.workDays as real) == m.totalPay
    ensures m.workDays == 0 ==> m.avgHours == 0.0 && m.avgPay == 0.0
    ensures m.totalHours > 0.0 ==> m.payPerHour * m.totalHours == m.totalPay
    ensures m.totalHours <= 0.0 ==> m.payPerHour == 0.0
    ensures rs == [] ==> m == NO_DATA
  {
    var totalHours := TotalHours(rs);
    var totalPay := TotalPay(rs);
    var workDays := WorkDays(rs);
    Metrics(
      totalHours,
      totalPay,
      workDays,
      GuardedRatio(totalHours, workDays as real),
      GuardedRatio(totalPay, workDays as real),
      GuardedRatio(totalPay, totalHours))
  }


  /** The three folds add up over a concatenation. */
  lemma {:induction false} TotalsAppend(a: seq<Record>, b: seq<Record>)
    ensures TotalHours(a + b) == TotalHours(a) + TotalHours(b)
    ensures TotalPay(a + b) == TotalPay(a) + TotalPay(b)
    ensures WorkDays(a + b) == WorkDays(a) + WorkDays(b)
  {
    if a == [] {
      assert a + b == b;
    } else {
      assert (a + b)[1..] == a[1..] + b;
      TotalsAppend(a[1..], b);
    }
  }

  /** Taking one record out of a table takes its share out of each fold. */
  lemma TotalsWithout(before: seq<Record>, x: Record, after: seq<Record>)
    ensures TotalHours(before + [x] + after) == x.hours + TotalHours(before + after)
    ensures TotalPay(before + [x] + after) == x.payForAverage + TotalPay(before + after)
    ensures WorkDays(before + [x] + after) == WorkDays([x]) + WorkDays(before + after)
  {
    TotalsAppend(before + [x], after);
    TotalsAppend(before, [x]);
    TotalsAppend(before, after);
  }

  /** The folds only depend on which records there are, not on their order. */
  lemma {:induction false} TotalsIgnoreOrder(a: seq<Record>, b: seq<Record>)
    requires multiset(a) == multiset(b)
    ensures TotalHours(a) == TotalHours(b)
    ensures TotalPay(a) == TotalPay(b)
    ensures WorkDays(a) == WorkDays(b)
    decreases |a|
  {
    if a == [] {
      assert |multiset(b)| == 0;
    } else {
      var x := a[0];
      assert x in multiset(b);
      var i :| 0 <= i < |b| && b[i] == x;
      var before, after := b[..i], b[i + 1..];
      assert b == before + [x] + after;
      assert a == [] + [x] + a[1..];
      assert multiset(a[1..]) == multiset(before + after) by {
        assert multiset(b) == multiset(before) + multiset([x]) + multiset(after);
        assert multiset(a) == multiset([x]) + multiset(a[1..]);
        assert multiset(before + after) == multiset(before) + multiset(after);
        assert multiset(a[1..]) == multiset(a) - multiset([x]);
        assert multiset(before + after) == multiset(b) - multiset([x]);
      }
      TotalsIgnoreOrder(a[1..], before + after);
      TotalsWithout(before, x, after);
      TotalsWithout([], x, a[1..]);
    }
  }

  /** The summary only depends on which records there are, not on their order. */
  lemma SummarizeIgnoresOrder(a: seq<Record>, b: seq<Record>)
    requires multiset(a) == multiset(b)
    ensures Summarize(a) == Summarize(b)
  {
    TotalsIgnoreOrder(a, b);
  }

  /** A table's totals are its period's totals plus those of the rest. */
  lemma {:induction false} TotalsPartition(rs: seq<Record>, w: Window)
    ensures TotalHours(rs) == TotalHours(Filter(rs, w)) + TotalHours(Exclude(rs, w))
    ensures TotalPay(rs) == TotalPay(Filter(rs, w)) + TotalPay(Exclude(rs, w))
    ensures WorkDays(rs) == WorkDays(Filter(rs, w)) + WorkDays(Exclude(rs, w))
  {
    if rs != [] {
      TotalsPartition(rs[1..], w);
      var head := [rs[0]];
      if InWindow(rs[0], w) {
        TotalsAppend(head, Filter(rs[1..], w));
        TotalsAppend([], Exclude(rs[1..], w));
      } else {
        TotalsAppend(head, Exclude(rs[1..], w));
        TotalsAppend([], Filter(rs[1..], w));
      }
    }
  }

  /** Non-negative entries give non-negative totals. */
  lemma {:induction false} TotalsNonNegative(rs: seq<Record>)
    ensures (forall i :: 0 <= i < |rs| ==> rs[i].hours >= 0.0) ==> TotalHours(rs) >= 0.0
    ensures (forall i :: 0 <= i < |rs| ==> rs[i].payForAverage >= 0.0) ==> TotalPay(rs) >= 0.0
  {
    if rs != [] {
      TotalsNonNegative(rs[1..]);
    }
  }

  /** No working day exactly when no record has positive hours; every record
      is a working day exactly when all have positive hours. */
  lemma {:induction false} WorkDaysExtremes(rs: seq<Record>)
    ensures WorkDays(rs) == 0 <==> forall i :: 0 <= i < |rs| ==> rs[i].hours <= 0.0
    ensures WorkDays(rs) == |rs| <==> forall i :: 0 <= i < |rs| ==> rs[i].hours > 0.0
  {
    if rs != [] {
      WorkDaysExtremes(rs[1..]);
      assert forall i :: 1 <= i < |rs| ==> rs[i] == rs[1..][i - 1];
    }
  }

  /** With no negative hours, the two guards agree: there are hours in total
      exactly when there is a working day. */
  lemma {:induction false} PositiveHoursIffWorkDays(rs: seq<Record>)
    requires forall i :: 0 <= i < |rs| ==> rs[i].hours >= 0.0
    ensures TotalHours(rs) > 0.0 <==> WorkDays(rs) > 0
  {
    if rs != [] {
      PositiveHoursIffWorkDays(rs[1..]);
      TotalsNonNegative(rs[1..]);
    }
  }

  /** One 8-hour day paid 100 and one day off. */
  lemma WorkedExample()
    ensures Summarize([Record(None, 8.0, 100.0), Record(None, 0.0, 0.0)])
            == Metrics(8.0, 100.0, 1, 8.0, 100.0, 12.5)
  {
  }
}
