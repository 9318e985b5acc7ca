/** The accountant's report page (`src/components/accountant/ViewReport.jsx`):
    deposit and withdrawal amounts and loan counts between two dates,
    by default over the current month. */
module ViewReport {
  import opened JsValues
  import opened Seqs
  import opened Dates
  import opened Ledger

  /** `new Date(created_at) >= startDate && new Date(created_at) <= endDate`:
      both ends included. */
  predicate Between(d: DateTime, start: DateTime, end: DateTime)
  {
    Ordinal(start) <= Ordinal(d) <= Ordinal(end)
  }

  function InRangeOf(kind: string, start: DateTime, end: DateTime): Transaction -> bool
  {
    (t: Transaction) => t.kind == kind && Between(t.createdAt, start, end)
  }

  /** The two charts: amounts of deposits and of withdrawals (negated, since
      withdrawals are recorded negative), and numbers of loan applications
      and repayments. */
  datatype Report = Report(deposits: int, withdrawals: int, loanApplications: nat, loanRepayments: nat)

  function Negated(t: Transaction): int { -t.amount }

  /** The in-range amount of one type, with `f` giving each transaction's share. */
  function RangeSum(ts: seq<Transaction>, kind: string, start: DateTime, end: DateTime, f: Transaction -> int): int
  {
    SumBy(Filter(ts, InRangeOf(kind, start, end)), f)
  }

  /** The in-range number of transactions of one type. */
  function RangeCount(ts: seq<Transaction>, kind: string, start: DateTime, end: DateTime): nat
  {
    Count(ts, InRangeOf(kind, start, end))
  }

  /** `generateChartData(transactions, startDate, endDate)`. The status is
      not looked at. */
  function GenerateChartData(ts: seq<Transaction>, start: DateTime, end: DateTime): Report
  {
    Report(
      RangeSum(ts, "deposit", start, end, Amount),
      RangeSum(ts, "withdrawal", start, end, Negated),
      RangeCount(ts, "loan", start, end),
      RangeCount(ts, "loan repayment", start, end))
  }

  /** No transaction is both a loan and a repayment: the loan chart counts
      each transaction at most once. */
  lemma {:induction false} LoanCountsBounded(ts: seq<Transaction>, start: DateTime, end: DateTime)
    ensures RangeCount(ts, "loan", start, end) + RangeCount(ts, "loan repayment", start, end) <= |ts|
  {
    if ts != [] {
      assert ts == [ts[0]] + ts[1..];
      LoanCountsBounded(ts[1..], start, end);
      CountConcat([ts[0]], ts[1..], InRangeOf("loan", start, end));
      CountConcat([ts[0]], ts[1..], InRangeOf("loan repayment", start, end));
    }
  }

  /** What one more transaction adds to the report. */
  function Contribution(t: Transaction, start: DateTime, end: DateTime): Report
  {
    var inside := Between(t.createdAt, start, end);
    Report(
      if inside && t.kind == "deposit" then t.amount else 0,
      if inside && t.kind == "withdrawal" then -t.amount else 0,
      if inside && t.kind == "loan" then 1 else 0,
      if inside && t.kind == "loan repayment" then 1 else 0)
  }

  function Plus(a: Report, b: Report): Report
  {
    Report(a.deposits + b.deposits, a.withdrawals + b.withdrawals,
           a.loanApplications + b.loanApplications, a.loanRepayments + b.loanRepayments)
  }

  /** `Plus` is field-wise addition. */
  lemma PlusByFields(sum: Report, a: Report, b: Report)
    requires sum.deposits == a.deposits + b.deposits
    requires sum.withdrawals == a.withdrawals + b.withdrawals
    requires sum.loanApplications == a.loanApplications + b.loanApplications
    requires sum.loanRepayments == a.loanRepayments + b.loanRepayments
    ensures sum == Plus(a, b)
  {
  }

  lemma {:induction false} RangeSumStep(ts: seq<Transaction>, t: Transaction, kind: string, start: DateTime, end: DateTime, f: Transaction -> int)
    ensures RangeSum(ts + [t], kind, start, end, f) ==
            RangeSum(ts, kind, start, end, f) + (if t.kind == kind && Between(t.createdAt, start, end) then f(t) else 0)
  {
    var p := InRangeOf(kind, start, end);
    assert [t][1..] == [];
    FilterConcat(ts, [t], p);
    SumConcat(Filter(ts, p), Filter([t], p), f);
    assert SumBy([t], f) == f(t) + SumBy([t][1..], f);
  }

  lemma {:induction false} RangeCountStep(ts: seq<Transaction>, t: Transaction, kind: string, start: DateTime, end: DateTime)
    ensures RangeCount(ts + [t], kind, start, end) ==
            RangeCount(ts, kind, start, end) + (if t.kind == kind && Between(t.createdAt, start, end) then 1 else 0)
  {
    assert [t][1..] == [];
    CountConcat(ts, [t], InRangeOf(kind, start, end));
  }

  /** The report is a sum over the transactions: each one adds its own
      contribution, so only in-range transactions of the four types count,
      whatever their status. */
  lemma {:induction false} ReportStep(ts: seq<Transaction>, t: Transaction, start: DateTime, end: DateTime)
    ensures GenerateChartData(ts + [t], start, end) == Plus(GenerateChartData(ts, start, end), Contribution(t, start, end))
  {
    var c := Contribution(t, start, end);
    var before := GenerateChartData(ts, start, end);
    var after := GenerateChartData(ts + [t], start, end);
    assert after.deposits == before.deposits + c.deposits by {
      RangeSumStep(ts, t, "deposit", start, end, Amount);
    }
    assert after.withdrawals == before.withdrawals + c.withdrawals by {
      RangeSumStep(ts, t, "withdrawal", start, end, Negated);
    }
    assert after.loanApplications == before.loanApplications + c.loanApplications by {
      RangeCountStep(ts, t, "loan", start, end);
    }
    assert after.loanRepayments == before.loanRepayments + c.loanRepayments by {
      RangeCountStep(ts, t, "loan repayment", start, end);
    }
    PlusByFields(after, before, c);
  }

  /** Pending and rejected transactions are reported like approved ones. */
  lemma StatusIgnored(ts: seq<Transaction>, t: Transaction, status: string, start: DateTime, end: DateTime)
    ensures GenerateChartData(ts + [t.(status := status)], start, end) == GenerateChartData(ts + [t], start, end)
  {
    var u := t.(status := status);
    assert u.kind == t.kind && u.createdAt == t.createdAt;
    assert Contribution(u, start, end) == Contribution(t, start, end);
    ReportStep(ts, t, start, end);
    ReportStep(ts, u, start, end);
  }

  /** `new Date(y, m, 1)`: midnight starting the first day of the month. */
  function MonthStart(ym: YearMonth): DateTime
    requires 0 <= ym.month < 12
  {
    DateTime(ym.year, ym.month, 1, 0)
  }

  /** `new Date(y, m + 1, 0)` as written: midnight starting the LAST day. */
  function MonthEndAsWritten(ym: YearMonth): DateTime
    requires 0 <= ym.month < 12
  {
    DateTime(ym.year, ym.month, DaysInMonth(ym.year, ym.month), 0)
  }

  /** A deposit at ten in the morning of 31 March is not in March's report. */
  lemma LastDayDroppedAsWritten()
    ensures var march := YearMonth(2025, 2);
            var d := DateTime(2025, 2, 31, 36_000_000);
            Valid(d) && MonthOf(d) == march && !Between(d, MonthStart(march), MonthEndAsWritten(march))
  {
  }

  /** The last millisecond of the month: the end the default range means. */
  function MonthEnd(ym: YearMonth): (e: DateTime)
    requires 0 <= ym.month < 12
    ensures Valid(e) && MonthOf(e) == ym
  {
    DateTime(ym.year, ym.month, DaysInMonth(ym.year, ym.month), MillisPerDay - 1)
  }

  /** With that end, the default range holds exactly the dates of the month. */
  lemma MonthRangeIsMonth(d: DateTime, ym: YearMonth)
    requires Valid(d) && 0 <= ym.month < 12
    ensures Between(d, MonthStart(ym), MonthEnd(ym)) <==> MonthOf(d) == ym
  {
    if Between(d, MonthStart(ym), MonthEnd(ym)) {
      OrdinalOrdersMonths(MonthStart(ym), d);
      OrdinalOrdersMonths(d, MonthEnd(ym));
    }
  }

  const PickBothDates: string := "Please select both start and end dates."
  const Generated: string := "Report generated successfully!"

  /** The page's state. */
  class ReportPage {
    var startDate: Option<DateTime>
    var endDate: Option<DateTime>
    var chartData: Option<Report>
    var generatedReportData: Option<Report>
    var isModalOpen: bool

    constructor()
      ensures startDate.None? && endDate.None? && chartData.None? && generatedReportData.None? && !isModalOpen
    {
      startDate, endDate := None, None;
      chartData, generatedReportData := None, None;
      isModalOpen := false;
    }

    /** The mount effect's date range: the current month, ending as written
        at midnight starting its last day (see `LastDayDroppedAsWritten`). */
    method SetCurrentMonth(now: DateTime)
      requires Valid(now)
      modifies this
      ensures startDate == Some(MonthStart(MonthOf(now))) && endDate == Some(MonthEndAsWritten(MonthOf(now)))
      ensures chartData == old(chartData) && generatedReportData == old(generatedReportData)
      ensures isModalOpen == old(isModalOpen)
    {
      startDate := Some(MonthStart(MonthOf(now)));
      endDate := Some(MonthEndAsWritten(MonthOf(now)));
    }

    /** The effect on `[transactions, startDate, endDate]`: the first chart,
        once there are transactions and both dates. */
    method OnTransactions(ts: seq<Transaction>)
      modifies this
      ensures ts != [] && startDate.Some? && endDate.Some? ==>
                chartData == Some(GenerateChartData(ts, startDate.value, endDate.value))
      ensures ts == [] || startDate.None? || endDate.None? ==> chartData == old(chartData)
      ensures startDate == old(startDate) && endDate == old(endDate)
      ensures generatedReportData == old(generatedReportData) && isModalOpen == old(isModalOpen)
    {
      if ts != [] && startDate.Some? && endDate.Some? {
        SetChart(GenerateChartData(ts, startDate.value, endDate.value));
      }
    }

    /** The start date picker's `onChange`: the picked date, or `None` when
        the picker is cleared. */
    method SetStartDate(date: Option<DateTime>)
      modifies this
      ensures startDate == date && endDate == old(endDate)
      ensures chartData == old(chartData) && generatedReportData == old(generatedReportData)
      ensures isModalOpen == old(isModalOpen)
    {
      startDate := date;
    }

    /** The end date picker's `onChange`. */
    method SetEndDate(date: Option<DateTime>)
      modifies this
      ensures endDate == date && startDate == old(startDate)
      ensures chartData == old(chartData) && generatedReportData == old(generatedReportData)
      ensures isModalOpen == old(isModalOpen)
    {
      endDate := date;
    }

    /** `setChartData(report)`. */
    method SetChart(report: Report)
      modifies this
      ensures chartData == Some(report)
      ensures startDate == old(startDate) && endDate == old(endDate)
      ensures generatedReportData == old(generatedReportData) && isModalOpen == old(isModalOpen)
    {
      chartData := Some(report);
    }

    /** `handleGenerateReport`: without both dates only an error is shown;
        otherwise the report is stored and the dialog closes. */
    method GenerateReport(ts: seq<Transaction>) returns (message: string)
      modifies this
      ensures startDate.None? || endDate.None? ==>
                message == PickBothDates && generatedReportData == old(generatedReportData) &&
                isModalOpen == old(isModalOpen)
      ensures startDate.Some? && endDate.Some? ==>
                message == Generated && !isModalOpen &&
                generatedReportData == Some(GenerateChartData(ts, startDate.value, endDate.value))
      ensures startDate == old(startDate) && endDate == old(endDate) && chartData == old(chartData)
    {
      if startDate.None? || endDate.None? {
        return PickBothDates;
      }
      var report := GenerateChartData(ts, startDate.value, endDate.value);
      generatedReportData := Some(report);
      isModalOpen := false;
      message := Generated;
    }
  }
}
