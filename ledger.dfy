/** The typed records the back end returns for transactions, feedback and
    meetings, as the views read them. A transaction's `created_at` is held as
    the date `new Date(created_at)` yields; its `amount` as the number
    `Number(amount)` yields, taken to be a whole number. */
module Ledger {
  import opened JsValues
  import opened Dates

  /** A row of `/api/transactions`. `kind` is `transaction_type`: one of
      "deposit", "withdrawal", "loan", "loan repayment"; `status` one of
      "pending", "approved", "rejected". Loans are recorded with a negative
      amount. `date` is the raw `date` field, which only the accountant's
      dashboard reads. */
  datatype Transaction = Transaction(
    id: Value,
    userId: Value,
    kind: string,
    amount: int,
    status: string,
    createdAt: DateTime,
    date: Value,
    receiptUrl: Value)

  /** A row of `/api/feedbacks`: a customer's message and the accountant's response. */
  datatype Feedback = Feedback(id: Value, userId: Value, message: string, response: Value, createdAt: DateTime)

  /** A row of `/api/meetings`: every field is the text the manager typed in. */
  datatype Meeting = Meeting(
    id: Value,
    title: string,
    date: string,
    time: string,
    location: string,
    attendees: string,
    agenda: string)

  predicate IsApproved(t: Transaction) { t.status == "approved" }
  predicate IsPending(t: Transaction) { t.status == "pending" }
  predicate IsLoan(t: Transaction) { t.kind == "loan" }
  predicate IsRejected(t: Transaction) { t.status == "rejected" }

  /** `transaction.amount`, as the sums read it. */
  function Amount(t: Transaction): int { t.amount }
}
