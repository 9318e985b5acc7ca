/** The employee store (`src/store/useEmployeeStore.jsx`): the manager's staff
    list with server-side paging. Unlike the other stores it takes the token as
    an argument and keeps the server's error body itself as its error. */
module EmployeeStore {
  import opened JsValues
  import opened Http
  import opened RecordLists

  /** The store's `error`: `null`, the server's whole error body, the body's
      `errors` object of a 422 reply (`None` when the body has none), or a
      message text. */
  datatype EmployeeError =
    | NoError
    | ServerBody(data: Record)
    | FieldErrors(errors: Option<map<string, seq<string>>>)
    | Text(message: string)

  datatype Pagination = Pagination(currentPage: Value, totalPages: Value, perPage: Value)

  const InitialPagination: Pagination := Pagination(Num(1), Num(1), Num(10))
  const FetchFallback: string := "Error fetching employees"

  /** One page of `/api/employees`: `data`, `current_page`, `last_page` and
      `per_page` of the body; `rows` is `None` when `data` is falsy. */
  datatype EmployeePage = EmployeePage(rows: Option<seq<Record>>, currentPage: Value, lastPage: Value, perPage: Value)

  /** The query of a page request: the filters, with `page` and `per_page`
      defaulting to 1 and 10 when the filters leave them falsy. */
  function PageQuery(filters: Record): (q: Record)
    ensures Truthy(Get(q, "page")) && Truthy(Get(q, "per_page"))
    ensures Get(q, "page") == if Truthy(Get(filters, "page")) then Get(filters, "page") else Num(1)
    ensures Get(q, "per_page") == if Truthy(Get(filters, "perPage")) then Get(filters, "perPage") else Num(10)
    ensures forall k :: k != "page" && k != "per_page" ==> Get(q, k) == Get(filters, k)
  {
    Merge(filters, map["page" := OrValue(Get(filters, "page"), Num(1)),
                       "per_page" := OrValue(Get(filters, "perPage"), Num(10))])
  }

  /** The error a failed write leaves: the `errors` of a 422 reply, otherwise
      the client's message. */
  function WriteError(e: HttpError): (r: EmployeeError)
    ensures r.FieldErrors? <==> e.reply.Some? && e.reply.value.status == 422
    ensures r.FieldErrors? ==> r.errors == e.reply.value.fieldErrors
    ensures !r.FieldErrors? ==> r == Text(e.message)
  {
    if e.reply.Some? && e.reply.value.status == 422 then FieldErrors(e.reply.value.fieldErrors)
    else Text(e.message)
  }

  /** How a write ended for its caller: the reply's body, or the error thrown on. */
  datatype Completion<T> = Returned(value: T) | Threw(error: HttpError)

  class EmployeeStore {
    var employees: seq<Record>
    var loading: bool
    var error: EmployeeError
    var pagination: Pagination
    /** `employee`: set by `addEmployee` only, `undefined` until then. */
    var employee: Value

    constructor()
      ensures employees == [] && !loading && error == NoError
      ensures pagination == InitialPagination && employee == Undefined
    {
      employees, loading, error := [], false, NoError;
      pagination, employee := InitialPagination, Undefined;
    }

    /** `fetchEmployees(filters, token)`: a failure empties the list and keeps
        the paging. */
    method FetchEmployees(filters: Record, outcome: Response<EmployeePage>) returns (query: Record)
      modifies this
      ensures query == PageQuery(filters)
      ensures !loading && employee == old(employee)
      ensures outcome.Success? ==>
                var page := outcome.body;
                employees == (if page.rows.Some? then page.rows.value else []) &&
                pagination == Pagination(page.currentPage, page.lastPage, page.perPage) &&
                error == NoError
      ensures outcome.Failure? ==>
                employees == [] && pagination == old(pagination) &&
                error == (if outcome.error.reply.Some? then ServerBody(outcome.error.reply.value.data) else Text(FetchFallback))
    {
      loading, error := true, NoError;
      query := PageQuery(filters);
      match outcome {
        case Success(page) =>
          employees := if page.rows.Some? then page.rows.value else [];
          pagination := Pagination(page.currentPage, page.lastPage, page.perPage);
        case Failure(e) =>
          error := if e.reply.Some? then ServerBody(e.reply.value.data) else Text(FetchFallback);
          employees := [];
      }
      loading := false;
    }

    /** `addEmployee(data, token)`: on success `employee` is the reply's
        `employee` property and the whole reply is returned to the caller;
        the list itself is not touched. */
    method AddEmployee(outcome: Response<Record>) returns (result: Completion<Record>)
      modifies this
      ensures !loading && employees == old(employees) && pagination == old(pagination)
      ensures outcome.Success? ==>
                employee == Get(outcome.body, "employee") && error == NoError && result == Returned(outcome.body)
      ensures outcome.Failure? ==>
                employee == old(employee) && error == WriteError(outcome.error) && result == Threw(outcome.error)
    {
      loading, error := true, NoError;
      match outcome {
        case Success(data) =>
          employee, loading := Get(data, "employee"), false;
          result := Returned(data);
        case Failure(e) =>
          error, loading := WriteError(e), false;
          result := Threw(e);
      }
    }

    /** `updateEmployee(id, data, token)`: the reply replaces every employee
        with that id. On success `loading` is left set. */
    method UpdateEmployee(id: Value, outcome: Response<Record>) returns (result: Completion<Record>)
      modifies this
      ensures pagination == old(pagination) && employee == old(employee)
      ensures outcome.Success? ==>
                employees == ReplaceWhereId(old(employees), id, outcome.body) && loading && error == NoError &&
                result == Returned(outcome.body)
      ensures outcome.Failure? ==>
                employees == old(employees) && !loading && error == WriteError(outcome.error) &&
                result == Threw(outcome.error)
    {
      loading, error := true, NoError;
      match outcome {
        case Success(reply) =>
          employees := ReplaceWhereId(employees, id, reply);
          result := Returned(reply);
        case Failure(e) =>
          error, loading := WriteError(e), false;
          result := Threw(e);
      }
    }

    /** `deleteEmployee(id, token)`: drops the employees with that id; a
        failure is only logged, so the caller cannot tell. */
    method DeleteEmployee(id: Value, outcome: Response<()>)
      modifies this
      ensures employees == if outcome.Success? then RemoveId(old(employees), id) else old(employees)
      ensures loading == old(loading) && error == old(error) && pagination == old(pagination) && employee == old(employee)
    {
      if outcome.Success? {
        employees := RemoveId(employees, id);
      }
    }
  }
}
