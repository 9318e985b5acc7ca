/** The customer's home page (`src/components/customer/CustomerDashboard.jsx`):
    the filter panel pinned to the user, and the count of pending requests. */
module CustomerDashboard {
  import opened JsValues
  import opened Seqs
  import opened Http
  import opened QueryFilters
  import opened FilterPanel
  import opened Ledger
  import opened TransactionStore
  import AuthStore

  /** The initial filters: `user_id` is `user.id || ''`. */
  function InitialFilters(userId: Value): (f: Record)
    ensures PageValid(f)
    ensures Get(f, "user_id") == if Truthy(userId) then userId else Str("")
  {
    map["transaction_type" := Str("all"), "status" := Str("all"),
        "user_id" := if Truthy(userId) then userId else Str(""),
        "amount_min" := Str(""), "search" := Str(""), "amount_max" := Str(""),
        "page" := Num(1), "perPage" := Num(5)]
  }

  /** With a falsy user id the first request is not pinned to any user. */
  lemma {:induction false} UnpinnedWithoutUserId(userId: Value)
    requires !Truthy(userId)
    ensures CleanedQuery(ObjectArg(Stripped(InitialFilters(userId)))) == Some(map["page" := Num(1), "perPage" := Num(5)])
  {
    var f := InitialFilters(userId);
    assert Stripped(f) == map["page" := Num(1), "perPage" := Num(5)];
    assert Clean(map["page" := Num(1), "perPage" := Num(5)]) == map["page" := Num(1), "perPage" := Num(5)];
  }

  /** `transactions.filter(t => t.status === 'pending').length`. */
  function PendingCount(ts: seq<Transaction>): (n: nat)
    ensures n <= |ts|
    ensures n == 0 <==> forall t :: t in ts ==> !IsPending(t)
    ensures n == |ts| <==> forall t :: t in ts ==> IsPending(t)
  {
    var pending := Filter(ts, IsPending);
    assert |pending| > 0 ==> pending[0] in pending;
    if forall t :: t in ts ==> IsPending(t) then
      FilterAll(ts, IsPending);
      |pending|
    else
      FilterShorter(ts, IsPending);
      |pending|
  }

  /** The count over a list loaded in two parts is the sum of the parts' counts. */
  lemma PendingCountConcat(a: seq<Transaction>, b: seq<Transaction>)
    ensures PendingCount(a + b) == PendingCount(a) + PendingCount(b)
  {
    FilterConcat(a, b, IsPending);
  }
}
