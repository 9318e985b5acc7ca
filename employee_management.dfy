/** The manager's staff list (`src/components/manager/EmplyeeManagement.jsx`):
    filters by role, department and text, five rows a page, and a delete
    that asks first. */
module EmployeeManagement {
  import opened JsValues
  import opened Http
  import opened FilterPanel
  import opened EmployeeStore
  import AuthStore

  const InitialFilters: Record := map[
    "role" := Str("all"), "search" := Str(""), "department" := Str("all"),
    "page" := Num(1), "perPage" := Num(5)]

  const DeletedToast: string := "Employee deleted successfully!"

  /** The first request asks for page 1 of five rows: the view's `perPage`
      reaches the store's `per_page`, and is sent under its own name too. */
  lemma InitialRequest()
    ensures PageQuery(Stripped(InitialFilters)) ==
            map["page" := Num(1), "perPage" := Num(5), "per_page" := Num(5)]
  {
    assert Stripped(InitialFilters) == map["page" := Num(1), "perPage" := Num(5)];
  }

  /** The effect that fires when the token or the filters change. */
  method Refresh(store: EmployeeStore, token: Option<string>, filters: Record, outcome: Response<EmployeePage>)
    returns (query: Option<Record>)
    modifies store
    ensures !AuthStore.HasToken(token) ==>
              query.None? && store.employees == old(store.employees) && store.error == old(store.error)
    ensures AuthStore.HasToken(token) ==>
              query == Some(PageQuery(Stripped(filters))) && !store.loading &&
              (outcome.Success? ==> store.employees == (if outcome.body.rows.Some? then outcome.body.rows.value else [])) &&
              (outcome.Failure? ==> store.employees == [])
  {
    query := None;
    if AuthStore.HasToken(token) {
      var active := StripDefaults(filters);
      var sent := store.FetchEmployees(active, outcome);
      query := Some(sent);
    }
  }

  /** `handleDeleteEmployee(id)`: deletes only after the user confirms, and
      then reports success whether or not the delete went through. */
  method ConfirmDelete(store: EmployeeStore, id: Value, confirmed: bool, outcome: Response<()>)
    returns (toast: Option<string>)
    modifies store
    ensures !confirmed ==> toast.None? && store.employees == old(store.employees)
    ensures confirmed ==> toast == Some(DeletedToast)
    ensures confirmed && outcome.Success? ==> store.employees == RecordLists.RemoveId(old(store.employees), id)
    ensures confirmed && outcome.Failure? ==> store.employees == old(store.employees)
  {
    toast := None;
    if confirmed {
      store.DeleteEmployee(id, outcome);
      toast := Some(DeletedToast);
    }
  }
}
