/** The customer list (`src/components/accountant/ViewCustomer.jsx`): filters by
    sex, bureau, salary range and text, five rows a page, with its own busy
    flag around each reload. */
module ViewCustomer {
  import opened JsValues
  import opened Http
  import opened QueryFilters
  import opened FilterPanel
  import opened CustomerStore
  import opened RecordLists
  import opened Toasts
  import AuthStore

  const InitialFilters: Record := map[
    "sex" := Str("all"), "search" := Str(""), "salary_min" := Str(""), "salary_max" := Str(""),
    "gov_bureau" := Str("all"), "page" := Num(1), "perPage" := Num(5)]

  const Deleted: string := "Customer deleted successfully"
  const Updated: string := "Customer details updated successfully"

  /** The first request asks for page 1 of five rows and nothing else. */
  lemma InitialRequest()
    ensures CleanedQuery(ObjectArg(Stripped(InitialFilters))) == Some(map["page" := Num(1), "perPage" := Num(5)])
  {
    assert Stripped(InitialFilters) == map["page" := Num(1), "perPage" := Num(5)];
    assert Clean(map["page" := Num(1), "perPage" := Num(5)]) == map["page" := Num(1), "perPage" := Num(5)];
  }

  /** Previous is disabled on page 1 and while a reload is pending. */
  predicate PreviousEnabledHere(f: Record, loading: bool)
  {
    PreviousEnabled(f) && !loading
  }

  /** Next is disabled only while a reload is pending: there is no last page. */
  predicate NextEnabledHere(loading: bool)
  {
    !loading
  }

  /** Going back keeps the page at 1 or more here too. */
  lemma PagerKeepsPageValid(f: Record, loading: bool, direction: int)
    requires PageValid(f)
    requires (direction == -1 && PreviousEnabledHere(f, loading)) || (direction == 1 && NextEnabledHere(loading))
    ensures PageValid(StepPage(f, direction))
  {
    PageStaysPositive(f, direction);
  }

  /** The view's busy flags, its reload effect and its two writes. */
  class CustomerListView {
    var loading: bool
    var loadingDelete: bool
    var loadingEdit: bool

    constructor()
      ensures !loading && !loadingDelete && !loadingEdit
    {
      loading, loadingDelete, loadingEdit := false, false, false;
    }

    /** With a token: set busy, strip the filters, fetch, and clear busy
        whatever happened (the store never throws). */
    method Refresh(store: CustomerStore, token: Option<string>, filters: Record, outcome: Response<Option<seq<Record>>>)
      returns (query: Option<Record>)
      modifies this, store
      ensures !AuthStore.HasToken(token) ==>
                query.None? && loading == old(loading) && store.customers == old(store.customers) &&
                store.loading == old(store.loading) && store.error == old(store.error)
      ensures AuthStore.HasToken(token) ==>
                !loading && query == CleanedQuery(ObjectArg(Stripped(filters))) && query.Some? &&
                store.customers == (if outcome.Success?
                                    then (if outcome.body.Some? then outcome.body.value else [])
                                    else old(store.customers))
    {
      query := None;
      if AuthStore.HasToken(token) {
        loading := true;
        var active := StripDefaults(filters);
        query := store.FetchCustomers(ObjectArg(active), outcome);
        loading := false;
      }
    }
  
    /** `handleDelete(id)`: the store swallows every failure, so the success
        notice is shown whether or not the customer was removed, and the
        delete flag ends false. */
    method Delete(store: CustomerStore, token: Option<string>, id: Value, outcome: Response<()>)
      returns (toast: Toast)
      modifies this, store
      ensures toast == SuccessToast(Deleted)
      ensures !loadingDelete && loading == old(loading) && loadingEdit == old(loadingEdit)
      ensures store.customers == if AuthStore.HasToken(token) && outcome.Success?
                                 then RemoveId(old(store.customers), id) else old(store.customers)
    {
      loadingDelete := true;
      var _ := store.DeleteCustomer(token, id, outcome);
      toast := SuccessToast(Deleted);
      loadingDelete := false;
    }

    /** `handleSaveChanges()` of the details dialog: the store records a
        failure instead of throwing, so none of the dialog's error notices
        (validation, not found, other) can appear; the success notice is shown
        and the edit flag ends false. */
    method SaveChanges(store: CustomerStore, token: Option<string>, id: Value, data: Record, outcome: Response<()>)
      returns (toast: Toast)
      modifies this, store
      ensures toast == SuccessToast(Updated)
      ensures !loadingEdit && loading == old(loading) && loadingDelete == old(loadingDelete)
      ensures store.customers == if AuthStore.HasToken(token) && outcome.Success?
                                 then MergeWhereId(old(store.customers), id, data) else old(store.customers)
    {
      loadingEdit := true;
      var _ := store.UpdateCustomer(token, id, data, outcome);
      toast := SuccessToast(Updated);
      loadingEdit := false;
    }
  }
}
