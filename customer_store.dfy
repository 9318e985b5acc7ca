/** The customer store (`src/store/useCustomerStore.jsx`): the customers the
    accountant and the loan committee list, with edit and delete. */
module CustomerStore {
  import opened JsValues
  import opened Http
  import opened QueryFilters
  import opened RecordLists
  import AuthStore

  const FetchFallback: string := "Failed to fetch customers"
  const MissingTokenMessage: string := "Authentication token is missing!"
  const NullFiltersMessage: string := "Cannot convert undefined or null to object"

  class CustomerStore {
    var customers: seq<Record>
    var loading: bool
    var error: Value

    constructor()
      ensures customers == [] && !loading && error == Null
    {
      customers, loading, error := [], false, Null;
    }

    /** `fetchCustomers(filters)`: `body` is `response.data.data` when it is an
        array and `None` otherwise; anything but an array empties the list. */
    method FetchCustomers(filters: FiltersArg, outcome: Response<Option<seq<Record>>>) returns (query: Option<Record>)
      modifies this
      ensures query == CleanedQuery(filters)
      ensures !loading
      ensures query.None? ==> customers == old(customers) && error == Str(NullFiltersMessage)
      ensures query.Some? && outcome.Success? ==>
                error == Null && customers == (if outcome.body.Some? then outcome.body.value else [])
      ensures query.Some? && outcome.Failure? ==>
                customers == old(customers) && error == Describe(outcome.error, FetchFallback)
    {
      loading, error := true, Null;
      query := CleanedQuery(filters);
      if query.None? {
        error := Describe(HttpError(None, NullFiltersMessage), FetchFallback);
        loading := false;
        return;
      }
      match outcome {
        case Success(body) =>
          customers := if body.Some? then body.value else [];
        case Failure(e) =>
          error := Describe(e, FetchFallback);
      }
      loading := false;
    }

    /** `updateCustomer(id, data)`: without a token it fails before sending;
        on success the customers with that id get `data` merged in. A failure
        clears `loading` and records the error (under the fetch wording). */
    method UpdateCustomer(token: Option<string>, id: Value, data: Record, outcome: Response<()>) returns (sent: bool)
      modifies this
      ensures sent <==> AuthStore.HasToken(token)
      ensures !sent ==> customers == old(customers) && !loading && error == Str(MissingTokenMessage)
      ensures sent && outcome.Success? ==>
                customers == MergeWhereId(old(customers), id, data) && loading == old(loading) && error == old(error)
      ensures sent && outcome.Failure? ==>
                customers == old(customers) && !loading && error == Describe(outcome.error, FetchFallback)
    {
      if !AuthStore.HasToken(token) {
        loading, error := false, Describe(HttpError(None, MissingTokenMessage), FetchFallback);
        return false;
      }
      sent := true;
      match outcome {
        case Success(_) =>
          customers := MergeWhereId(customers, id, data);
        case Failure(e) =>
          loading, error := false, Describe(e, FetchFallback);
      }
    }

    /** `deleteCustomer(id)`: on success the customers with that id are
        dropped; a missing token or a failure is only logged. */
    method DeleteCustomer(token: Option<string>, id: Value, outcome: Response<()>) returns (sent: bool)
      modifies this
      ensures sent <==> AuthStore.HasToken(token)
      ensures sent && outcome.Success? ==> customers == RemoveId(old(customers), id)
      ensures !(sent && outcome.Success?) ==> customers == old(customers)
      ensures loading == old(loading) && error == old(error)
    {
      sent := AuthStore.HasToken(token);
      if sent && outcome.Success? {
        customers := RemoveId(customers, id);
      }
    }
  }
}
