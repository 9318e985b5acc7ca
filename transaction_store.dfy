/** The transaction store (`src/store/useTransactionStore.jsx`): the list of
    transactions the accountant and the dashboards read, its loading flag and
    its error text. The session token is read from the session store and only
    goes into the request header, so it does not appear here. */
module TransactionStore {
  import opened JsValues
  import opened Seqs
  import opened Http
  import opened QueryFilters
  import opened Ledger

  const FetchFallback: string := "Failed to fetch transactions"
  const ProcessFallback: string := "Failed to process transaction"
  /** The `TypeError` `Object.entries(null)` throws. */
  const NullFiltersMessage: string := "Cannot convert undefined or null to object"

  /** The list after the server returns `updated` for a processed transaction:
      every transaction with the returned id is replaced by it. */
  function ApplyProcessed(ts: seq<Transaction>, updated: Transaction): (r: seq<Transaction>)
    ensures |r| == |ts|
    ensures forall i :: 0 <= i < |ts| ==> r[i].id == ts[i].id
    ensures forall i :: 0 <= i < |ts| ==> r[i] == if ts[i].id == updated.id then updated else ts[i]
  {
    UpdateWhere(ts, (t: Transaction) => t.id == updated.id, (t: Transaction) => updated)
  }

  /** Receiving the same processed transaction twice changes nothing more. */
  lemma ApplyProcessedIdempotent(ts: seq<Transaction>, updated: Transaction)
    ensures ApplyProcessed(ApplyProcessed(ts, updated), updated) == ApplyProcessed(ts, updated)
  {
  }

  class TransactionStore {
    var transactions: seq<Transaction>
    var loading: bool
    /** `null` or the text of the last failure. */
    var error: Value

    constructor()
      ensures transactions == [] && !loading && error == Null
    {
      transactions, loading, error := [], false, Null;
    }

    /** `fetchTransactions(filters)`: sends the cleaned filters as the query
        and takes `response.data.data` as the new list. `query` is the query
        sent, `None` when building it threw and nothing was sent. */
    method FetchTransactions(filters: FiltersArg, outcome: Response<seq<Transaction>>) returns (query: Option<Record>)
      modifies this
      ensures query == CleanedQuery(filters)
      ensures !loading
      ensures query.None? ==> transactions == old(transactions) && error == Str(NullFiltersMessage)
      ensures query.Some? && outcome.Success? ==> transactions == outcome.body && error == Null
      ensures query.Some? && outcome.Failure? ==>
                transactions == old(transactions) && error == Describe(outcome.error, FetchFallback)
    {
      loading, error := true, Null;
      query := CleanedQuery(filters);
      if query.None? {
        error := Describe(HttpError(None, NullFiltersMessage), FetchFallback);
        loading := false;
        return;
      }
      match outcome
      case Success(body) =>
        transactions, loading := body, false;
      case Failure(e) =>
        loading, error := false, Describe(e, FetchFallback);
    }

    /** `processTransaction(id, action)`: posts the decision and puts the
        transaction the server returns in place of the one with the same id.
        A failure is recorded and thrown on: `thrown` is the thrown error's text.
        `id` and `action` only go into the request: the list is matched
        against the id of the returned transaction. */
    method ProcessTransaction(id: Value, action: string, outcome: Response<Transaction>) returns (thrown: Option<string>)
      modifies this
      ensures !loading
      ensures outcome.Success? ==>
                thrown.None? && error == Null && transactions == ApplyProcessed(old(transactions), outcome.body)
      ensures outcome.Failure? ==>
                thrown == Some(RethrownMessage(outcome.error, ProcessFallback)) &&
                error == Describe(outcome.error, ProcessFallback) && transactions == old(transactions)
    {
      loading, error := true, Null;
      match outcome {
        case Success(updated) =>
          transactions := ApplyProcessed(transactions, updated);
          thrown := None;
        case Failure(e) =>
          error := Describe(e, ProcessFallback);
          thrown := Some(RethrownMessage(e, ProcessFallback));
      }
      loading := false;
    }
  }
}
