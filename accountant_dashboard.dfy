/** The accountant's dashboard (`src/components/accountant/AccountantDashboard.jsx`):
    the requests waiting for the accountant, the approved totals per
    transaction type, and how many requests were waiting yesterday. */
module AccountantDashboard {
  import opened JsValues
  import opened Seqs
  import opened Dates
  import opened Ledger

  const Limit: nat := 5

  /** A request the accountant has to process: pending and not a loan
      (loans go to the loan committee). */
  predicate AwaitsAccountant(t: Transaction)
  {
    IsPending(t) && t.kind != "loan"
  }

  /** `pendingTransactions`. */
  function PendingTransactions(ts: seq<Transaction>): (r: seq<Transaction>)
    ensures forall t :: t in r <==> t in ts && IsPending(t) && !IsLoan(t)
    ensures multiset(r) <= multiset(ts)
  {
    Filter(ts, AwaitsAccountant)
  }

  /** The pending list keeps the order of the store's list: it can be
      computed piecewise. */
  lemma PendingKeepsOrder(a: seq<Transaction>, b: seq<Transaction>)
    ensures PendingTransactions(a + b) == PendingTransactions(a) + PendingTransactions(b)
  {
    FilterConcat(a, b, AwaitsAccountant);
  }

  /** `displayedTransactions`: all pending requests, or the first five. */
  function Displayed(pending: seq<Transaction>, showAll: bool): (r: seq<Transaction>)
    ensures r <= pending
    ensures showAll ==> r == pending
    ensures !showAll ==> |r| == if |pending| < Limit then |pending| else Limit
  {
    if showAll then pending else Prefix(pending, Limit)
  }

  /** The transactions a total adds up: approved ones of one type. */
  function ApprovedOf(kind: string): Transaction -> bool
  {
    (t: Transaction) => t.kind == kind && IsApproved(t)
  }

  /** A total card: the amounts of the approved transactions of `kind`. */
  function ApprovedTotal(ts: seq<Transaction>, kind: string): (total: int)
  {
    SumBy(Filter(ts, ApprovedOf(kind)), Amount)
  }

  /** Totals add up over a split list. */
  lemma {:induction false} ApprovedTotalConcat(a: seq<Transaction>, b: seq<Transaction>, kind: string)
    ensures ApprovedTotal(a + b, kind) == ApprovedTotal(a, kind) + ApprovedTotal(b, kind)
  {
    FilterConcat(a, b, ApprovedOf(kind));
    SumConcat(Filter(a, ApprovedOf(kind)), Filter(b, ApprovedOf(kind)), Amount);
  }

  /** A transaction that is not approved, or of another type, leaves a total
      as it was: pending and rejected requests are never counted. */
  lemma {:induction false} ApprovedTotalIgnores(ts: seq<Transaction>, t: Transaction, kind: string)
    requires !IsApproved(t) || t.kind != kind
    ensures ApprovedTotal(ts + [t], kind) == ApprovedTotal(ts, kind)
  {
    ApprovedTotalConcat(ts, [t], kind);
    assert Filter([t], ApprovedOf(kind)) == [] by {
      assert [t][1..] == [];
    }
  }

  /** An approved transaction of the type adds its amount to the total. */
  lemma {:induction false} ApprovedTotalCounts(ts: seq<Transaction>, t: Transaction)
    requires IsApproved(t)
    ensures ApprovedTotal(ts + [t], t.kind) == ApprovedTotal(ts, t.kind) + t.amount
  {
    ApprovedTotalConcat(ts, [t], t.kind);
    assert [t][1..] == [];
    assert Filter([t], ApprovedOf(t.kind)) == [t];
    assert SumBy([t], Amount) == Amount(t) + SumBy([t][1..], Amount);
  }

  /** The requests of yesterday that are still pending: `date` equal to the
      date part of yesterday's `toISOString()`. */
  function PendingOn(day: Value): Transaction -> bool
  {
    (t: Transaction) => IsPending(t) && t.date == day
  }

  function YesterdayString(now: DateTime): string
    requires Valid(now)
  {
    IsoDate(PreviousDay(now))
  }

  /** `previousDayPending.length`, for `yesterday` the string `YesterdayString`
      gives for the current time. */
  function YesterdayCount(ts: seq<Transaction>, yesterday: string): (n: nat)
    ensures n <= |ts|
  {
    Count(ts, PendingOn(Str(yesterday)))
  }

  /** Yesterday's count counts exactly the pending transactions dated
      `yesterday`, each once: a transaction adds one when it is such a
      transaction and nothing otherwise. */
  lemma {:induction false} YesterdayCountStep(ts: seq<Transaction>, t: Transaction, yesterday: string)
    ensures YesterdayCount([], yesterday) == 0
    ensures YesterdayCount(ts + [t], yesterday) ==
            YesterdayCount(ts, yesterday) + (if IsPending(t) && t.date == Str(yesterday) then 1 else 0)
  {
    CountConcat(ts, [t], PendingOn(Str(yesterday)));
    assert [t][1..] == [];
  }

  /** The text compared with `date` names the calendar day before `now`: a
      transaction counted for yesterday carries that day's date. */
  lemma YesterdayIsPreviousDay(now: DateTime, t: Transaction)
    requires Valid(now) && 0 <= PreviousDay(now).year <= 9999
    requires PendingOn(Str(YesterdayString(now)))(t)
    ensures t.date.Str? && ParseIsoDate(t.date.s) == Some(CalendarDay(PreviousDay(now).year, PreviousDay(now).month, PreviousDay(now).day))
  {
    IsoDateRoundTrip(PreviousDay(now));
  }

  /** Yesterday's count uses a wider rule than today's list: a pending loan
      dated yesterday raises yesterday's count and is not in today's list. */
  lemma {:induction false} YesterdayCountsLoans(ts: seq<Transaction>, t: Transaction, now: DateTime)
    requires Valid(now)
    requires IsPending(t) && IsLoan(t) && t.date == Str(YesterdayString(now))
    ensures YesterdayCount(ts + [t], YesterdayString(now)) == YesterdayCount(ts, YesterdayString(now)) + 1
    ensures PendingTransactions(ts + [t]) == PendingTransactions(ts)
  {
    var p := PendingOn(Str(YesterdayString(now)));
    CountConcat(ts, [t], p);
    assert [t][1..] == [];
    assert Filter([t], p) == [t];
    PendingKeepsOrder(ts, [t]);
    assert Filter([t], AwaitsAccountant) == [];
  }

  const MoreSuffix: string := " more than yesterday"
  const FewerSuffix: string := " fewer than yesterday"

  /** `pendingComparisonText`: the gap between today's and yesterday's
      counts, with "more" only when today's is larger. */
  function ComparisonText(current: nat, previous: nat): (s: string)
    ensures current > previous ==> s == NatToString(current - previous) + MoreSuffix
    ensures current <= previous ==> s == NatToString(previous - current) + FewerSuffix
  {
    if current > previous then NatToString(current - previous) + MoreSuffix
    else NatToString(previous - current) + FewerSuffix
  }

  /** Equal counts read as "0 fewer than yesterday". */
  lemma EqualCountsReadZeroFewer(n: nat)
    ensures ComparisonText(n, n) == "0 fewer than yesterday"
  {
    assert NatToString(0) == "0";
  }

  /** The numbers the dashboard's second effect stores. */
  datatype Figures = Figures(deposits: int, withdrawals: int, loanRepayments: int, previousDayPending: nat)

  /** What the effect computes from a list of transactions. */
  function Summary(ts: seq<Transaction>, yesterday: string): Figures
  {
    Figures(ApprovedTotal(ts, "deposit"), ApprovedTotal(ts, "withdrawal"),
            ApprovedTotal(ts, "loan repayment"), YesterdayCount(ts, yesterday))
  }

  /** What one transaction adds to each of the four figures. */
  function Contribution(t: Transaction, yesterday: string): Figures
  {
    Figures(ApprovedAmount(t, "deposit"), ApprovedAmount(t, "withdrawal"),
            ApprovedAmount(t, "loan repayment"),
            if IsPending(t) && t.date == Str(yesterday) then 1 else 0)
  }

  /** The amount of an approved transaction of `kind`, and 0 for any other. */
  function ApprovedAmount(t: Transaction, kind: string): int
  {
    if t.kind == kind && IsApproved(t) then t.amount else 0
  }

  function AddFigures(f: Figures, g: Figures): Figures
  {
    Figures(f.deposits + g.deposits, f.withdrawals + g.withdrawals,
            f.loanRepayments + g.loanRepayments, f.previousDayPending + g.previousDayPending)
  }

  /** An approved transaction of a type adds its amount to that total only. */
  lemma {:induction false} ApprovedTotalStep(ts: seq<Transaction>, t: Transaction, kind: string)
    ensures ApprovedTotal(ts + [t], kind) == ApprovedTotal(ts, kind) + ApprovedAmount(t, kind)
  {
    if t.kind == kind && IsApproved(t) {
      ApprovedTotalCounts(ts, t);
    } else {
      ApprovedTotalIgnores(ts, t, kind);
    }
  }

  /** The four figures start at zero and every transaction adds its own
      contribution: each approved deposit, withdrawal and loan repayment is
      added to its total once, and each pending transaction dated yesterday
      adds one to yesterday's count. */
  lemma {:induction false} SummaryStep(ts: seq<Transaction>, t: Transaction, yesterday: string)
    ensures Summary([], yesterday) == Figures(0, 0, 0, 0)
    ensures Summary(ts + [t], yesterday) == AddFigures(Summary(ts, yesterday), Contribution(t, yesterday))
  {
    var next, sum, c := Summary(ts + [t], yesterday), Summary(ts, yesterday), Contribution(t, yesterday);
    assert next.deposits == sum.deposits + c.deposits by {
      ApprovedTotalStep(ts, t, "deposit");
    }
    assert next.withdrawals == sum.withdrawals + c.withdrawals by {
      ApprovedTotalStep(ts, t, "withdrawal");
    }
    assert next.loanRepayments == sum.loanRepayments + c.loanRepayments by {
      ApprovedTotalStep(ts, t, "loan repayment");
    }
    assert next.previousDayPending == sum.previousDayPending + c.previousDayPending by {
      YesterdayCountStep(ts, t, yesterday);
    }
    FiguresByFields(next, sum, c);
    assert Summary([], yesterday) == Figures(0, 0, 0, 0) by {
      assert Filter([], ApprovedOf("deposit")) == [];
    }
  }

  lemma FiguresByFields(next: Figures, f: Figures, g: Figures)
    requires next.deposits == f.deposits + g.deposits && next.withdrawals == f.withdrawals + g.withdrawals
    requires next.loanRepayments == f.loanRepayments + g.loanRepayments
    requires next.previousDayPending == f.previousDayPending + g.previousDayPending
    ensures next == AddFigures(f, g)
  {
  }

  /** The dashboard's state: the numbers its second effect stores. */
  class Dashboard {
    /** Never set anywhere: the list always shows at most five requests. */
    const showAll: bool
    var totalDeposits: int
    var totalWithdrawals: int
    var totalLoanRepayments: int
    var previousDayPendingCount: nat

    constructor()
      ensures !showAll
      ensures totalDeposits == 0 && totalWithdrawals == 0 && totalLoanRepayments == 0
      ensures previousDayPendingCount == 0
    {
      showAll := false;
      totalDeposits, totalWithdrawals, totalLoanRepayments := 0, 0, 0;
      previousDayPendingCount := 0;
    }

    /** The list of pending requests on screen. */
    function Shown(ts: seq<Transaction>): (r: seq<Transaction>)
      reads this
      ensures !showAll ==> |r| <= Limit
    {
      Displayed(PendingTransactions(ts), showAll)
    }

    /** The line under the pending card. */
    function Comparison(ts: seq<Transaction>): string
      reads this
    {
      ComparisonText(|PendingTransactions(ts)|, previousDayPendingCount)
    }

    /** The effect on `[transactions]`: a non-empty list sets the three
        totals and yesterday's count; an empty list leaves the previous
        numbers on screen. */
    method OnTransactions(ts: seq<Transaction>, now: DateTime)
      requires Valid(now)
      modifies this
      ensures ts != [] ==>
                totalDeposits == ApprovedTotal(ts, "deposit") &&
                totalWithdrawals == ApprovedTotal(ts, "withdrawal") &&
                totalLoanRepayments == ApprovedTotal(ts, "loan repayment") &&
                previousDayPendingCount == YesterdayCount(ts, YesterdayString(now))
      ensures ts == [] ==> Numbers() == old(Numbers())
    {
      if ts != [] {
        SetFigures(Summary(ts, YesterdayString(now)));
      }
    }

    /** The four `set…` calls of the effect. */
    method SetFigures(f: Figures)
      modifies this
      ensures Numbers() == f
    {
      totalDeposits, totalWithdrawals, totalLoanRepayments := f.deposits, f.withdrawals, f.loanRepayments;
      previousDayPendingCount := f.previousDayPending;
    }

    /** The four numbers on the cards. */
    function Numbers(): Figures
      reads this
    {
      Figures(totalDeposits, totalWithdrawals, totalLoanRepayments, previousDayPendingCount)
    }
  }
}
