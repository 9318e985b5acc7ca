/** The manager's dashboard (`src/components/manager/ManagerDashboard.jsx`):
    active loans, pending withdrawals and a customer's transaction history.
    Its loan list and loan age repeat the loan committee's code, so the
    definitions of `LoanCommitteeDashboard` are used. */
module ManagerDashboard {
  import opened JsValues
  import opened Seqs
  import opened Ledger
  import LoanCommitteeDashboard

  /** The "Active Loans" card: the approved loans. */
  function ActiveLoans(ts: seq<Transaction>): (n: nat)
    ensures n <= |LoanCommitteeDashboard.LoanTransactions(ts)|
  {
    var loans := LoanCommitteeDashboard.LoanTransactions(ts);
    LoanCommitteeDashboard.StatusCountsPartition(loans);
    LoanCommitteeDashboard.ApprovedCount(loans)
  }

  /** The card counts exactly the approved loans, each once: no transaction
      counts on an empty list, and a transaction adds one exactly when it is
      an approved loan. */
  lemma {:induction false} ActiveLoansStep(ts: seq<Transaction>, t: Transaction)
    ensures ActiveLoans([]) == 0
    ensures ActiveLoans(ts + [t]) == ActiveLoans(ts) + (if IsLoan(t) && IsApproved(t) then 1 else 0)
  {
    var loans := LoanCommitteeDashboard.LoanTransactions(ts);
    FilterConcat(ts, [t], IsLoan);
    assert [t][1..] == [];
    var added := LoanCommitteeDashboard.LoanTransactions([t]);
    assert added == if IsLoan(t) then [t] else [];
    CountConcat(loans, added, IsApproved);
    assert Count(added, IsApproved) == if IsLoan(t) && IsApproved(t) then 1 else 0;
  }

  /** A withdrawal request the accountant has not handled yet. */
  predicate PendingWithdrawal(t: Transaction)
  {
    t.kind == "withdrawal" && IsPending(t)
  }

  /** The "Pending Withdrawals" card: how many, and their amounts added up. */
  function PendingWithdrawalCount(ts: seq<Transaction>): (n: nat)
    ensures n <= |ts|
  {
    Count(ts, PendingWithdrawal)
  }

  function PendingWithdrawalTotal(ts: seq<Transaction>): int
  {
    SumBy(Filter(ts, PendingWithdrawal), Amount)
  }

  /** The count and the total are over the same transactions: a transaction
      moves the total exactly when it moves the count. */
  lemma {:induction false} PendingWithdrawalsStep(ts: seq<Transaction>, t: Transaction)
    ensures PendingWithdrawalCount(ts + [t]) == PendingWithdrawalCount(ts) + (if PendingWithdrawal(t) then 1 else 0)
    ensures PendingWithdrawalTotal(ts + [t]) == PendingWithdrawalTotal(ts) + (if PendingWithdrawal(t) then t.amount else 0)
  {
    FilterConcat(ts, [t], PendingWithdrawal);
    assert [t][1..] == [];
    SumConcat(Filter(ts, PendingWithdrawal), Filter([t], PendingWithdrawal), Amount);
    assert SumBy([t], Amount) == Amount(t) + SumBy([t][1..], Amount);
  }

  /** Withdrawals are recorded with negative amounts, so the card's total
      adds up to zero or less: when no pending withdrawal has a positive
      amount, neither has the total. */
  lemma {:induction false} PendingWithdrawalTotalNotPositive(ts: seq<Transaction>)
    requires forall t :: t in ts && PendingWithdrawal(t) ==> t.amount <= 0
    ensures PendingWithdrawalTotal(ts) <= 0
    decreases |ts|
  {
    if ts != [] {
      var init, last := ts[..|ts| - 1], ts[|ts| - 1];
      assert ts == init + [last];
      assert forall t :: t in init ==> t in ts;
      PendingWithdrawalTotalNotPositive(init);
      PendingWithdrawalsStep(init, last);
    } else {
      assert Filter(ts, PendingWithdrawal) == [];
    }
  }

  function OfUser(userId: Value): Transaction -> bool
  {
    (t: Transaction) => t.userId == userId
  }

  /** The history dialog: the transactions of the selected customer, in the
      store's order. */
  function History(ts: seq<Transaction>, userId: Value): (r: seq<Transaction>)
    ensures forall t :: t in r <==> t in ts && t.userId == userId
    ensures multiset(r) <= multiset(ts)
  {
    Filter(ts, OfUser(userId))
  }

  /** The history keeps the store's order: it can be computed piecewise. */
  lemma HistoryKeepsOrder(a: seq<Transaction>, b: seq<Transaction>, userId: Value)
    ensures History(a + b, userId) == History(a, userId) + History(b, userId)
  {
    FilterConcat(a, b, OfUser(userId));
  }

  /** A customer's history holds every one of their transactions, as often as the store does. */
  lemma HistoryIsComplete(ts: seq<Transaction>, userId: Value, t: Transaction)
    requires t.userId == userId
    ensures multiset(History(ts, userId))[t] == multiset(ts)[t]
  {
    FilterKeepsCount(ts, OfUser(userId), t);
  }
}
