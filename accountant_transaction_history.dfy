/** The accountant's transaction list (`src/components/accountant/TransactionHistory.jsx`):
    filters by type, status, amount range and text, five rows a page. */
module AccountantTransactionHistory {
  import opened JsValues
  import opened Http
  import opened QueryFilters
  import opened FilterPanel
  import opened Ledger
  import opened TransactionStore
  import AuthStore

  const InitialFilters: Record := map[
    "transaction_type" := Str("all"), "status" := Str("all"), "amount_min" := Str(""),
    "search" := Str(""), "amount_max" := Str(""), "page" := Num(1), "perPage" := Num(5)]

  /** The first request asks for page 1 of five rows and nothing else. */
  lemma InitialRequest()
    ensures Stripped(InitialFilters) == map["page" := Num(1), "perPage" := Num(5)]
    ensures CleanedQuery(ObjectArg(Stripped(InitialFilters))) == Some(map["page" := Num(1), "perPage" := Num(5)])
    ensures PageValid(InitialFilters) && !PreviousEnabled(InitialFilters)
  {
    assert Stripped(InitialFilters) == map["page" := Num(1), "perPage" := Num(5)];
    assert Clean(map["page" := Num(1), "perPage" := Num(5)]) == map["page" := Num(1), "perPage" := Num(5)];
  }
}
