/** The accountant's deposit chart (`src/components/accountant/DepositeWithdrawLIne.jsx`):
    approved deposits and approved withdrawals per month. */
module DepositWithdrawLine {
  import opened Seqs
  import opened Ledger
  import opened MonthlySeries

  /** `validTransactions`: approved deposits and approved withdrawals. */
  predicate Charted(t: Transaction)
  {
    (t.kind == "deposit" || t.kind == "withdrawal") && IsApproved(t)
  }

  function ValidTransactions(ts: seq<Transaction>): (r: seq<Transaction>)
    ensures forall t :: t in r <==> t in ts && Charted(t)
  {
    Filter(ts, Charted)
  }

  /** `financialData`: deposits on the first line, withdrawals on the second. */
  method FinancialData(ts: seq<Transaction>) returns (data: seq<Bucket>)
    ensures data == Series(ValidTransactions(ts), "deposit", "withdrawal")
  {
    var valid := Filter(ts, Charted);
    data := Process(valid, "deposit", "withdrawal");
  }

  /** A transaction that is not charted leaves the chart as it was: pending
      and rejected requests, and every other type, are not drawn. */
  lemma NotChartedLeavesChart(ts: seq<Transaction>, t: Transaction)
    requires !Charted(t)
    ensures Series(ValidTransactions(ts + [t]), "deposit", "withdrawal") ==
            Series(ValidTransactions(ts), "deposit", "withdrawal")
  {
    FilterConcat(ts, [t], Charted);
    assert [t][1..] == [];
    assert Filter([t], Charted) == [];
    assert ValidTransactions(ts + [t]) == ValidTransactions(ts);
  }

  /** Each line adds up to the approved amounts of its kind. */
  lemma LinesAddUp(ts: seq<Transaction>)
    requires forall t :: t in ts ==> 0 <= t.createdAt.month < 12
    ensures SumBy(Series(ValidTransactions(ts), "deposit", "withdrawal"), First) == KindTotal(ValidTransactions(ts), "deposit")
    ensures SumBy(Series(ValidTransactions(ts), "deposit", "withdrawal"), Second) == KindTotal(ValidTransactions(ts), "withdrawal")
  {
    ChartAddsUp(ValidTransactions(ts), "deposit", "withdrawal");
  }
}
