/** `processTransactions`, which the two line charts repeat with their own
    field names (`src/components/manager/LoanGraph.jsx:20-43`,
    `src/components/accountant/DepositeWithdrawLIne.jsx:21-44`): one pass
    over the transactions adds each amount to its month's entry in a
    dictionary, then the twelve months are read out in calendar order. A
    month is the date's month of the year, whatever the year. */
module MonthlySeries {
  import opened Seqs
  import opened Ledger

  const MonthNames: seq<string> := ["Jan", "Feb", "Mar", "Apr", "May", "Jun", "Jul", "Aug", "Sep", "Oct", "Nov", "Dec"]

  /** One point of a chart: the month's label and its two sums (loans and
      repayments, or deposits and withdrawals). */
  datatype Bucket = Bucket(month: string, first: int, second: int)

  /** The amounts of the transactions of `kind` made in month `m` of any year. */
  function MonthTotal(ts: seq<Transaction>, kind: string, m: int): int
  {
    if ts == [] then 0
    else
      var t := ts[|ts| - 1];
      MonthTotal(ts[..|ts| - 1], kind, m) + (if t.kind == kind && t.createdAt.month == m then t.amount else 0)
  }

  /** One more transaction moves only the total of its own kind and month. */
  lemma MonthTotalStep(ts: seq<Transaction>, i: nat, kind: string)
    requires i < |ts|
    ensures forall m :: MonthTotal(ts[..i + 1], kind, m) ==
              MonthTotal(ts[..i], kind, m) + (if ts[i].kind == kind && ts[i].createdAt.month == m then ts[i].amount else 0)
  {
    assert ts[..i + 1][..i] == ts[..i];
  }

  /** The amounts of all the transactions of `kind`. */
  function KindTotal(ts: seq<Transaction>, kind: string): int
  {
    if ts == [] then 0
    else
      var t := ts[|ts| - 1];
      KindTotal(ts[..|ts| - 1], kind) + (if t.kind == kind then t.amount else 0)
  }

  /** The chart: twelve points from January to December. */
  function Series(ts: seq<Transaction>, firstKind: string, secondKind: string): (r: seq<Bucket>)
    ensures |r| == 12
    ensures forall m :: 0 <= m < 12 ==> r[m].month == MonthNames[m]
  {
    seq(12, m requires 0 <= m < 12 => Bucket(MonthNames[m], MonthTotal(ts, firstKind, m), MonthTotal(ts, secondKind, m)))
  }

  /** `processTransactions(transactions)`: `monthlyData` is filled in one
      pass, then read out in the order of `monthsOrder`, with zeros for a
      month no transaction fell in. */
  method Process(ts: seq<Transaction>, firstKind: string, secondKind: string) returns (series: seq<Bucket>)
    requires firstKind != secondKind
    ensures series == Series(ts, firstKind, secondKind)
  {
    var monthly: map<int, Bucket> := map[];
    var i := 0;
    while i < |ts|
      invariant 0 <= i <= |ts|
      invariant forall m :: m in monthly ==>
                  monthly[m] == Bucket(if 0 <= m < 12 then MonthNames[m] else "", MonthTotal(ts[..i], firstKind, m), MonthTotal(ts[..i], secondKind, m))
      invariant forall m :: m !in monthly ==> MonthTotal(ts[..i], firstKind, m) == 0 && MonthTotal(ts[..i], secondKind, m) == 0
    {
      var t := ts[i];
      var m := t.createdAt.month;
      MonthTotalStep(ts, i, firstKind);
      MonthTotalStep(ts, i, secondKind);
      if m !in monthly {
        monthly := monthly[m := Bucket(if 0 <= m < 12 then MonthNames[m] else "", 0, 0)];
      }
      if t.kind == firstKind {
        monthly := monthly[m := monthly[m].(first := monthly[m].first + t.amount)];
      } else if t.kind == secondKind {
        monthly := monthly[m := monthly[m].(second := monthly[m].second + t.amount)];
      }
      i := i + 1;
    }
    assert ts[..|ts|] == ts;
    series := seq(12, m requires 0 <= m < 12 => if m in monthly then monthly[m] else Bucket(MonthNames[m], 0, 0));
  }

  /** Month totals for the months below `n`, added up. */
  function MonthsUpTo(ts: seq<Transaction>, kind: string, n: nat): int
  {
    if n == 0 then 0 else MonthsUpTo(ts, kind, n - 1) + MonthTotal(ts, kind, n - 1)
  }

  lemma {:induction false} MonthsUpToStep(ts: seq<Transaction>, t: Transaction, kind: string, n: nat)
    ensures MonthsUpTo(ts + [t], kind, n) ==
            MonthsUpTo(ts, kind, n) + (if t.kind == kind && 0 <= t.createdAt.month < n then t.amount else 0)
  {
    assert (ts + [t])[..|ts + [t]| - 1] == ts;
    if n > 0 {
      MonthsUpToStep(ts, t, kind, n - 1);
    }
  }

  /** With every date in a month of the calendar, the twelve month totals add
      up to the total of the kind. */
  lemma {:induction false} MonthsAddUp(ts: seq<Transaction>, kind: string)
    requires forall t :: t in ts ==> 0 <= t.createdAt.month < 12
    ensures MonthsUpTo(ts, kind, 12) == KindTotal(ts, kind)
  {
    if ts != [] {
      var front, last := ts[..|ts| - 1], ts[|ts| - 1];
      assert ts == front + [last];
      assert last in ts;
      assert forall t :: t in front ==> t in ts;
      MonthsAddUp(front, kind);
      MonthsUpToStep(front, last, kind, 12);
    } else {
      NothingUpTo(kind, 12);
    }
  }

  lemma {:induction false} NothingUpTo(kind: string, n: nat)
    ensures MonthsUpTo([], kind, n) == 0
  {
    if n > 0 {
      NothingUpTo(kind, n - 1);
    }
  }

  function First(b: Bucket): int { b.first }
  function Second(b: Bucket): int { b.second }

  lemma {:induction false} ChartPrefixSums(ts: seq<Transaction>, firstKind: string, secondKind: string, n: nat)
    requires n <= 12
    ensures var s := Series(ts, firstKind, secondKind);
            SumBy(s[..n], First) == MonthsUpTo(ts, firstKind, n) &&
            SumBy(s[..n], Second) == MonthsUpTo(ts, secondKind, n)
  {
    var s := Series(ts, firstKind, secondKind);
    if n > 0 {
      ChartPrefixSums(ts, firstKind, secondKind, n - 1);
      assert s[..n] == s[..n - 1] + [s[n - 1]];
      SumConcat(s[..n - 1], [s[n - 1]], First);
      SumConcat(s[..n - 1], [s[n - 1]], Second);
      assert SumBy([s[n - 1]], First) == First(s[n - 1]) + SumBy([s[n - 1]][1..], First);
      assert SumBy([s[n - 1]], Second) == Second(s[n - 1]) + SumBy([s[n - 1]][1..], Second);
    }
  }

  /** The points of each line add up to the amounts of its kind: no amount
      is lost or counted twice. */
  lemma ChartAddsUp(ts: seq<Transaction>, firstKind: string, secondKind: string)
    requires forall t :: t in ts ==> 0 <= t.createdAt.month < 12
    ensures SumBy(Series(ts, firstKind, secondKind), First) == KindTotal(ts, firstKind)
    ensures SumBy(Series(ts, firstKind, secondKind), Second) == KindTotal(ts, secondKind)
  {
    var s := Series(ts, firstKind, secondKind);
    ChartPrefixSums(ts, firstKind, secondKind, 12);
    assert s[..12] == s;
    MonthsAddUp(ts, firstKind);
    MonthsAddUp(ts, secondKind);
  }

  /** A month no transaction of either kind fell in is a zero point. */
  lemma {:induction false} EmptyMonthIsZero(ts: seq<Transaction>, kind: string, m: int)
    requires forall t :: t in ts ==> !(t.kind == kind && t.createdAt.month == m)
    ensures MonthTotal(ts, kind, m) == 0
  {
    if ts != [] {
      assert ts[|ts| - 1] in ts;
      assert forall t :: t in ts[..|ts| - 1] ==> t in ts;
      EmptyMonthIsZero(ts[..|ts| - 1], kind, m);
    }
  }
}
