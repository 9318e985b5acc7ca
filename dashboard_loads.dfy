/** How the four dashboards load their lists: `fetchTransactions(token)` and
    `fetchCustomers(token)`, with the session token where the stores expect a
    filter object (`src/components/accountant/AccountantDashboard.jsx:35`,
    `src/components/manager/ManagerDashboard.jsx:42-43`,
    `src/components/accountant/ViewReport.jsx:40`,
    `src/components/loan-commitee/LoanCommitteeDashboard.jsx:39-40`). */
module DashboardLoads {
  import opened JsValues
  import opened Http
  import opened QueryFilters
  import TransactionStore
  import CustomerStore
  import AuthStore
  import Ledger

  /** The `filters` argument a dashboard passes: the token, `null` when signed out. */
  function TokenArg(token: Option<string>): (arg: FiltersArg)
    ensures arg.ValueArg?
    ensures arg == ValueArg(Null) <==> token.None?
  {
    if token.Some? then ValueArg(Str(token.value)) else ValueArg(Null)
  }

  /** The query a dashboard's load sends with a signed-in token "ab": the
      token's characters under the keys "0" and "1", where no filter at all
      was meant. */
  lemma TokenBecomesFilters()
    ensures CleanedQuery(TokenArg(Some("ab"))) == Some(map["0" := Str("a"), "1" := Str("b")])
    ensures CleanedQuery(TokenArg(Some("ab"))) != CleanedQuery(ValueArg(Undefined))
  {
    EntriesOfAb();
    CleanKeepsAb();
    NoArgumentSendsEmptyQuery();
  }

  /** `Object.entries("ab")`, collected. */
  lemma EntriesOfAb()
    ensures StringEntries("ab") == map["0" := Str("a"), "1" := Str("b")]
  {
    assert NatToString(0) == "0" && NatToString(1) == "1";
    assert "ab"[..1] == "a";
    assert StringEntries("a") == map["0" := Str("a")];
  }

  /** Both characters are kept by the store's rule. */
  lemma CleanKeepsAb()
    ensures Clean(map["0" := Str("a"), "1" := Str("b")]) == map["0" := Str("a"), "1" := Str("b")]
  {
    assert !Blank("a") by { assert !IsSpace("a"[0]); }
    assert !Blank("b") by { assert !IsSpace("b"[0]); }
    var c := Clean(map["0" := Str("a"), "1" := Str("b")]);
    assert Keeps(Str("a")) && Keeps(Str("b"));
    assert c.Keys == {"0", "1"};
  }

  /** The accountant's, manager's and loan committee's transaction load:
      only with a signed-in token, passed as the filters. */
  method LoadTransactions(store: TransactionStore.TransactionStore, token: Option<string>, outcome: Response<seq<Ledger.Transaction>>)
    returns (query: Option<Record>)
    modifies store
    ensures AuthStore.HasToken(token) ==> query == CleanedQuery(TokenArg(token)) && query.Some?
    ensures !AuthStore.HasToken(token) ==> query.None? && store.transactions == old(store.transactions)
    ensures AuthStore.HasToken(token) && outcome.Success? ==> store.transactions == outcome.body
  {
    query := None;
    if AuthStore.HasToken(token) {
      query := store.FetchTransactions(TokenArg(token), outcome);
    }
  }

  /** The same load without the token argument: the query is empty and the
      list is the server's whole list. */
  method LoadAllTransactions(store: TransactionStore.TransactionStore, token: Option<string>, outcome: Response<seq<Ledger.Transaction>>)
    returns (query: Option<Record>)
    modifies store
    ensures AuthStore.HasToken(token) ==> query == Some(map[])
    ensures !AuthStore.HasToken(token) ==> query.None? && store.transactions == old(store.transactions)
    ensures AuthStore.HasToken(token) && outcome.Success? ==> store.transactions == outcome.body
  {
    query := None;
    if AuthStore.HasToken(token) {
      NoArgumentSendsEmptyQuery();
      query := store.FetchTransactions(ValueArg(Undefined), outcome);
    }
  }

  /** The manager's and loan committee's customer load, with the same token argument. */
  method LoadCustomers(store: CustomerStore.CustomerStore, token: Option<string>, outcome: Response<Option<seq<Record>>>)
    returns (query: Option<Record>)
    modifies store
    ensures AuthStore.HasToken(token) ==> query == CleanedQuery(TokenArg(token)) && query.Some?
    ensures !AuthStore.HasToken(token) ==> query.None? && store.customers == old(store.customers)
  {
    query := None;
    if AuthStore.HasToken(token) {
      query := store.FetchCustomers(TokenArg(token), outcome);
    }
  }

  /** `ViewReport` loads on mount whatever the token: signed out, the filter
      argument is `null`, building the query throws, and the store records
      the `TypeError` instead of sending a request. */
  method LoadTransactionsUnguarded(store: TransactionStore.TransactionStore, token: Option<string>, outcome: Response<seq<Ledger.Transaction>>)
    returns (query: Option<Record>)
    modifies store
    ensures query == CleanedQuery(TokenArg(token))
    ensures token.None? ==> query.None? && store.transactions == old(store.transactions) &&
                            store.error == Str(TransactionStore.NullFiltersMessage)
  {
    query := store.FetchTransactions(TokenArg(token), outcome);
  }
}
