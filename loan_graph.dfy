/** The manager's loan chart (`src/components/manager/LoanGraph.jsx`):
    approved loans and approved repayments per month. */
module LoanGraph {
  import opened Seqs
  import opened Ledger
  import opened MonthlySeries

  /** `validTransactions`: approved loans and approved repayments. */
  predicate Charted(t: Transaction)
  {
    (t.kind == "loan" || t.kind == "loan repayment") && IsApproved(t)
  }

  function ValidTransactions(ts: seq<Transaction>): (r: seq<Transaction>)
    ensures forall t :: t in r <==> t in ts && Charted(t)
  {
    Filter(ts, Charted)
  }

  /** `financialData`: loans on the first line, repayments on the second. */
  method FinancialData(ts: seq<Transaction>) returns (data: seq<Bucket>)
    ensures data == Series(ValidTransactions(ts), "loan", "loan repayment")
  {
    var valid := Filter(ts, Charted);
    data := Process(valid, "loan", "loan repayment");
  }

  /** A transaction that is not charted leaves the chart as it was: pending
      and rejected requests, and every other type, are not drawn. */
  lemma NotChartedLeavesChart(ts: seq<Transaction>, t: Transaction)
    requires !Charted(t)
    ensures Series(ValidTransactions(ts + [t]), "loan", "loan repayment") ==
            Series(ValidTransactions(ts), "loan", "loan repayment")
  {
    FilterConcat(ts, [t], Charted);
    assert [t][1..] == [];
    assert Filter([t], Charted) == [];
    assert ValidTransactions(ts + [t]) == ValidTransactions(ts);
  }

  /** Each line adds up to the approved amounts of its kind. */
  lemma LinesAddUp(ts: seq<Transaction>)
    requires forall t :: t in ts ==> 0 <= t.createdAt.month < 12
    ensures SumBy(Series(ValidTransactions(ts), "loan", "loan repayment"), First) == KindTotal(ValidTransactions(ts), "loan")
    ensures SumBy(Series(ValidTransactions(ts), "loan", "loan repayment"), Second) == KindTotal(ValidTransactions(ts), "loan repayment")
  {
    ChartAddsUp(ValidTransactions(ts), "loan", "loan repayment");
  }
}
