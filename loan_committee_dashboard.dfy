/** The loan committee's dashboard (`src/components/loan-commitee/LoanCommitteeDashboard.jsx`):
    the loan requests, how many were approved, rejected or are still open,
    the amount lent, the loans' ages in months and the applicants' names. */
module LoanCommitteeDashboard {
  import opened JsValues
  import opened Seqs
  import opened Dates
  import opened Ledger
  import opened RecordLists

  /** `loanTransactions`. */
  function LoanTransactions(ts: seq<Transaction>): (r: seq<Transaction>)
    ensures forall t :: t in r <==> t in ts && t.kind == "loan"
    ensures multiset(r) <= multiset(ts)
  {
    Filter(ts, IsLoan)
  }

  /** A request neither approved nor rejected: `pendingLoanRequests`. */
  predicate Undecided(t: Transaction)
  {
    !IsApproved(t) && !IsRejected(t)
  }

  /** The three status cards. */
  function ApprovedCount(loans: seq<Transaction>): nat { Count(loans, IsApproved) }
  function RejectedCount(loans: seq<Transaction>): nat { Count(loans, IsRejected) }
  function UndecidedCount(loans: seq<Transaction>): nat { Count(loans, Undecided) }

  /** Every loan is in exactly one of the three counts. */
  lemma {:induction false} StatusCountsPartition(loans: seq<Transaction>)
    ensures ApprovedCount(loans) + RejectedCount(loans) + UndecidedCount(loans) == |loans|
  {
    if loans != [] {
      assert loans == [loans[0]] + loans[1..];
      StatusCountsPartition(loans[1..]);
    }
  }

  /** The Review button is disabled for approved and rejected loans. */
  predicate ReviewEnabled(t: Transaction)
  {
    !(t.status == "approved" || t.status == "rejected")
  }

  /** The loans that can be reviewed are exactly the ones the undecided card counts. */
  lemma ReviewableAreUndecided(ts: seq<Transaction>, t: Transaction)
    ensures t in LoanTransactions(ts) && ReviewEnabled(t) <==> t in Filter(LoanTransactions(ts), Undecided)
  {
  }

  /** A loan that adds to the amount lent: approved, recorded as a negative amount. */
  predicate Disbursed(t: Transaction)
  {
    IsApproved(t) && t.amount < 0
  }

  function Lent(t: Transaction): int { -t.amount }

  /** `totalLoanAmount`: the approved negative amounts, negated and added up. */
  function TotalLoanAmount(loans: seq<Transaction>): (total: int)
    ensures total >= 0
  {
    var counted := Filter(loans, Disbursed);
    SumNonNegative(counted, Lent);
    SumBy(counted, Lent)
  }

  /** Each disbursed loan raises the total by what it lent; other loans leave it. */
  lemma {:induction false} TotalLoanAmountStep(loans: seq<Transaction>, t: Transaction)
    ensures TotalLoanAmount(loans + [t]) == TotalLoanAmount(loans) + (if Disbursed(t) then -t.amount else 0)
  {
    FilterConcat(loans, [t], Disbursed);
    assert [t][1..] == [];
    SumConcat(Filter(loans, Disbursed), Filter([t], Disbursed), Lent);
    assert SumBy([t], Lent) == Lent(t) + SumBy([t][1..], Lent);
  }

  /** `calculateLoanDurationInMonths(created_at)` at the time `now`. */
  function LoanDuration(t: Transaction, now: DateTime): (months: int)
    ensures Valid(t.createdAt) && Valid(now) && Ordinal(t.createdAt) <= Ordinal(now) ==> months >= 0
  {
    if Valid(t.createdAt) && Valid(now) && Ordinal(t.createdAt) <= Ordinal(now) then
      MonthsBetweenNonNegative(t.createdAt, now);
      MonthsBetween(t.createdAt, now)
    else MonthsBetween(t.createdAt, now)
  }

  const UnknownCustomer: string := "Unknown Customer"

  /** `getCustomerName(userId)`: the first customer with that `user_id`, by
      full name. */
  function CustomerName(customers: seq<Record>, userId: Value): (name: string)
    ensures (forall c :: c in customers ==> Get(c, "user_id") != userId) ==> name == UnknownCustomer
    ensures forall i :: 0 <= i < |customers| && Get(customers[i], "user_id") == userId &&
                        (forall j :: 0 <= j < i ==> Get(customers[j], "user_id") != userId) ==>
                        name == FullName(customers[i])
  {
    match FindFirst(customers, "user_id", userId)
    case None => UnknownCustomer
    case Some(c) => FullName(c)
  }

  /** A loan counts towards `prevMonthAmount` when it was made in `month`. */
  function MadeIn(month: YearMonth): Transaction -> bool
  {
    (t: Transaction) => MonthOf(t.createdAt) == month
  }

  /** The amount of the loans made in `month`. */
  function AmountIn(loans: seq<Transaction>, month: YearMonth): int
  {
    SumBy(Filter(loans, MadeIn(month)), Amount)
  }

  /** `prevMonthAmount` as written: the month is found with
      `setMonth(getMonth() - 1)` on today's date. */
  function PrevMonthAmountAsWritten(loans: seq<Transaction>, now: DateTime): int
    requires Valid(now)
  {
    AmountIn(loans, MonthOf(SetMonth(now, now.month - 1)))
  }

  /** On the 31st of March, `setMonth` runs over into March again: the
      "previous month" amount is this month's. */
  lemma SetMonthOverflowCountsThisMonth()
    ensures var now := DateTime(2025, 2, 31, 0);
            var loan := Transaction(Num(1), Num(7), "loan", -500, "pending", DateTime(2025, 2, 3, 0), Null, Null);
            PrevMonthAmountAsWritten([loan], now) == -500 &&
            PrevMonthAmount([loan], now) == 0
  {
    var now := DateTime(2025, 2, 31, 0);
    var loan := Transaction(Num(1), Num(7), "loan", -500, "pending", DateTime(2025, 2, 3, 0), Null, Null);
    assert !IsLeapYear(2025);
    assert MonthOf(SetMonth(now, now.month - 1)) == YearMonth(2025, 2);
    assert [loan][1..] == [];
    assert Filter([loan], MadeIn(YearMonth(2025, 2))) == [loan];
    assert SumBy([loan], Amount) == Amount(loan) + SumBy([loan][1..], Amount);
    assert Filter([loan], MadeIn(YearMonth(2025, 1))) == [];
  }

  /** The previous calendar month's loans: `prevMonthAmount` with the month
      taken from the calendar rather than from a shifted date. */
  function PrevMonthAmount(loans: seq<Transaction>, now: DateTime): int
    requires Valid(now)
  {
    AmountIn(loans, PreviousMonth(MonthOf(now)))
  }

  /** The corrected amount counts a loan exactly when it was made in the
      month whose number is one less than this month's. */
  lemma {:induction false} PrevMonthAmountCountsPreviousMonth(loans: seq<Transaction>, t: Transaction, now: DateTime)
    requires Valid(now) && 0 <= t.createdAt.month < 12
    ensures PrevMonthAmount(loans + [t], now) ==
            PrevMonthAmount(loans, now) +
            (if MonthIndex(MonthOf(t.createdAt)) == MonthIndex(MonthOf(now)) - 1 then t.amount else 0)
  {
    var p := MadeIn(PreviousMonth(MonthOf(now)));
    FilterConcat(loans, [t], p);
    assert [t][1..] == [];
    SumConcat(Filter(loans, p), Filter([t], p), Amount);
    assert SumBy([t], Amount) == Amount(t) + SumBy([t][1..], Amount);
    assert p(t) <==> MonthIndex(MonthOf(t.createdAt)) == MonthIndex(MonthOf(now)) - 1;
  }

  /** Up to the 28th the written code and the corrected one agree. */
  lemma AsWrittenAgreesEarlyInMonth(loans: seq<Transaction>, now: DateTime)
    requires Valid(now) && now.day <= 28
    ensures PrevMonthAmountAsWritten(loans, now) == PrevMonthAmount(loans, now)
  {
    assert MonthOf(SetMonth(now, now.month - 1)) == PreviousMonth(MonthOf(now));
  }
}
