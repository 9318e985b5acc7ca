/** The filter-and-pager pattern five list views share (the accountant's and
    the customer's transaction histories, the customer dashboard, the
    customer list and the employee list): a filter object in component state,
    handlers that update it, a loop that strips default values before the
    list request, and Previous/Next buttons. Each view's own initial filters
    and wiring are in its own module. */
module FilterPanel {
  import opened JsValues
  import opened QueryFilters
  import opened Http
  import opened Ledger
  import opened TransactionStore
  import AuthStore

  /** The views' stripping rule: a key goes when its value is falsy or `"all"`. */
  predicate Dropped(v: Value)
  {
    !Truthy(v) || v == Str("all")
  }

  /** The filters with every dropped entry removed. */
  function Stripped(f: Record): (r: Record)
    ensures r.Keys <= f.Keys
    ensures forall k :: k in r ==> r[k] == f[k] && !Dropped(f[k])
    ensures forall k :: k in f && !Dropped(f[k]) ==> k in r
  {
    map k | k in f && !Dropped(f[k]) :: f[k]
  }

  /** `const active = { ...filters }; Object.keys(active).forEach(key => {
      if (!active[key] || active[key] === 'all') delete active[key]; })`. */
  method StripDefaults(filters: Record) returns (active: Record)
    ensures active == Stripped(filters)
  {
    active := filters;
    var keys := filters.Keys;
    while keys != {}
      invariant keys <= filters.Keys && active.Keys <= filters.Keys
      invariant forall k :: k in active ==> active[k] == filters[k]
      invariant forall k :: k in keys ==> k in active
      invariant forall k :: k in filters && k !in keys ==> (k in active <==> !Dropped(filters[k]))
      decreases keys
    {
      var k :| k in keys;
      if Dropped(active[k]) {
        active := active - {k};
      }
      keys := keys - {k};
    }
  }

  /** The two rules differ: the views also drop `0` and `false`, which the
      stores would send, and the stores also drop white-space strings, which
      the views would keep. */
  lemma RulesDiffer()
    ensures Dropped(Num(0)) && Keeps(Num(0))
    ensures Dropped(Bool(false)) && Keeps(Bool(false))
    ensures !Dropped(Str(" ")) && !Keeps(Str(" "))
  {
    assert IsSpace(" "[0]);
  }

  /** The query a view's list request ends with: what both rules keep. */
  lemma {:induction false} QueryOfStripped(f: Record)
    ensures CleanedQuery(ObjectArg(Stripped(f))).Some?
    ensures forall k :: k in CleanedQuery(ObjectArg(Stripped(f))).value <==>
              k in f && Truthy(f[k]) && f[k] != Str("all") && !(f[k].Str? && Blank(f[k].s))
    ensures forall k :: k in CleanedQuery(ObjectArg(Stripped(f))).value ==> CleanedQuery(ObjectArg(Stripped(f))).value[k] == f[k]
  {
  }

  /** `{ ...prev, [name]: value, page: 1 }`: a text or select change. */
  function WithFilter(prev: Record, name: string, value: Value): (r: Record)
    ensures r.Keys == prev.Keys + {name, "page"}
    ensures Get(r, "page") == Num(1)
    ensures name != "page" ==> Get(r, name) == value
    ensures forall k :: k != name && k != "page" ==> Get(r, k) == Get(prev, k)
  {
    prev[name := value]["page" := Num(1)]
  }

  /** `{ ...prev, [name]: value, page: 1, user_id: id }` (in either order of the
      last two): a change that also pins the list to the signed-in user. */
  function WithPinnedFilter(prev: Record, name: string, value: Value, userId: Value): (r: Record)
    ensures r.Keys == prev.Keys + {name, "page", "user_id"}
    ensures Get(r, "page") == Num(1) && Get(r, "user_id") == userId
    ensures name != "page" && name != "user_id" ==> Get(r, name) == value
    ensures forall k :: k != name && k != "page" && k != "user_id" ==> Get(r, k) == Get(prev, k)
  {
    prev[name := value]["page" := Num(1)]["user_id" := userId]
  }

  /** `{ ...prev, page: prev.page + direction }`. The page is a number in every
      state the handlers produce (see `PageStaysPositive`). */
  function StepPage(prev: Record, direction: int): (r: Record)
    requires Get(prev, "page").Num?
    ensures r.Keys == prev.Keys + {"page"}
    ensures Get(r, "page") == Num(Get(prev, "page").n + direction)
    ensures forall k :: k != "page" ==> Get(r, k) == Get(prev, k)
  {
    prev["page" := Num(prev["page"].n + direction)]
  }

  /** The pager's invariant: the page is a number of at least 1. */
  predicate PageValid(f: Record)
  {
    Get(f, "page").Num? && Get(f, "page").n >= 1
  }

  /** Previous is enabled unless `filters.page === 1`. */
  predicate PreviousEnabled(f: Record)
  {
    Get(f, "page") != Num(1)
  }

  /** Next is disabled when `rows < filters.perPage`: a short page is the last.
      A `perPage` that is not a number compares false and leaves Next enabled;
      no handler stores one. */
  predicate NextEnabled(rows: nat, f: Record)
  {
    !(Get(f, "perPage").Num? && rows < Get(f, "perPage").n)
  }

  /** A filter change goes back to a valid first page. */
  lemma FilterChangeResetsPage(prev: Record, name: string, value: Value, userId: Value)
    ensures PageValid(WithFilter(prev, name, value))
    ensures PageValid(WithPinnedFilter(prev, name, value, userId))
  {
  }

  /** Stepping back only while Previous is enabled, or forward, keeps the page
      at 1 or more. */
  lemma PageStaysPositive(prev: Record, direction: int)
    requires PageValid(prev)
    requires direction == 1 || (direction == -1 && PreviousEnabled(prev))
    ensures PageValid(StepPage(prev, direction))
  {
  }

  /** Previous is disabled exactly on the first page. */
  lemma PreviousDisabledOnFirstPageOnly(f: Record)
    requires PageValid(f)
    ensures !PreviousEnabled(f) <==> Get(f, "page").n == 1
  {
  }

  /** Next is disabled exactly when fewer rows than a page came back, and
      neither a filter change nor a page step touches `perPage`, so the rule
      stays the same as the filters change. */
  lemma NextDisabledOnShortPageOnly(rows: nat, f: Record, name: string, value: Value, userId: Value, direction: int)
    requires Get(f, "perPage").Num? && Get(f, "page").Num?
    requires name != "perPage"
    ensures !NextEnabled(rows, f) <==> rows < Get(f, "perPage").n
    ensures NextEnabled(rows, WithFilter(f, name, value)) == NextEnabled(rows, f)
    ensures NextEnabled(rows, WithPinnedFilter(f, name, value, userId)) == NextEnabled(rows, f)
    ensures NextEnabled(rows, StepPage(f, direction)) == NextEnabled(rows, f)
  {
  }

  /** The reload effect of the three transaction lists: with a token the
      stripped filters go to the store; without one nothing happens. */
  method RefreshTransactions(store: TransactionStore, token: Option<string>, filters: Record, outcome: Response<seq<Transaction>>)
    returns (query: Option<Record>)
    modifies store
    ensures !AuthStore.HasToken(token) ==>
              query.None? && store.transactions == old(store.transactions) &&
              store.loading == old(store.loading) && store.error == old(store.error)
    ensures AuthStore.HasToken(token) ==>
              query == CleanedQuery(ObjectArg(Stripped(filters))) && query.Some? && !store.loading &&
              store.transactions == (if outcome.Success? then outcome.body else old(store.transactions))
  {
    query := None;
    if AuthStore.HasToken(token) {
      var active := StripDefaults(filters);
      query := store.FetchTransactions(ObjectArg(active), outcome);
    }
  }
}
