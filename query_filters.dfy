/** How the transaction and customer stores turn their `filters` argument into
    the query string of a list request: `Object.entries(filters)`, keep the
    entries worth sending, `Object.fromEntries`. */
module QueryFilters {
  import opened JsValues
  import opened Dates

  /** The argument a view passes as `filters`: a filter object, or a bare
      value. The dashboards pass the session token here. */
  datatype FiltersArg = ObjectArg(fields: Record) | ValueArg(v: Value)

  /** `Object.entries` of a string, collected back into an object: one entry
      per character, keyed by its index in decimal. */
  function StringEntries(s: string): (r: Record)
    ensures forall k :: k in r ==> IsDigits(k)
    ensures forall k :: k in r ==> r[k].Str? && |r[k].s| == 1 && r[k].s[0] in s
    ensures |s| > 0 ==> NatToString(|s| - 1) in r && r[NatToString(|s| - 1)] == Str([s[|s| - 1]])
  {
    if s == [] then map[]
    else StringEntries(s[..|s| - 1])[NatToString(|s| - 1) := Str([s[|s| - 1]])]
  }

  /** Each index of a string is an entry holding the character at that
      index. */
  lemma {:induction false} StringEntriesAt(s: string)
    ensures forall i :: 0 <= i < |s| ==> NatToString(i) in StringEntries(s) && StringEntries(s)[NatToString(i)] == Str([s[i]])
  {
    if s != [] {
      var init := s[..|s| - 1];
      StringEntriesAt(init);
      forall i | 0 <= i < |s| - 1
        ensures NatToString(i) in StringEntries(s) && StringEntries(s)[NatToString(i)] == Str([s[i]])
      {
        NatToStringInjective(i, |s| - 1);
        assert NatToString(i) in StringEntries(init) && StringEntries(init)[NatToString(i)] == Str([init[i]]);
      }
    }
  }

  /** `k` is the decimal form of an index below `n`. */
  predicate IsIndexKey(k: string, n: nat)
  {
    exists i: nat :: i < n && k == NatToString(i)
  }

  /** The decimal forms of the indices below `n`, and nothing else. */
  function IndexKeys(n: nat): (keys: set<string>)
    ensures forall i :: 0 <= i < n ==> NatToString(i) in keys
    ensures forall k :: k in keys ==> IsIndexKey(k, n)
  {
    if n == 0 then {}
    else
      var keys := IndexKeys(n - 1) + {NatToString(n - 1)};
      assert forall k :: k in keys ==> IsIndexKey(k, n) by {
        forall k | k in keys
          ensures IsIndexKey(k, n)
        {
          if k == NatToString(n - 1) {
            var last: nat := n - 1;
            assert last < n && k == NatToString(last);
          } else {
            assert IsIndexKey(k, n - 1);
            var i: nat :| i < n - 1 && k == NatToString(i);
            assert i < n && k == NatToString(i);
          }
        }
      }
      keys
  }

  /** A string has no entries besides its indices. */
  lemma {:induction false} StringEntriesOnlyIndices(s: string)
    ensures StringEntries(s).Keys == IndexKeys(|s|)
  {
    if s != [] {
      StringEntriesOnlyIndices(s[..|s| - 1]);
    }
  }

  /** The entries `Object.entries` sees, with the default `filters = {}` applied
      to `undefined`; `None` where it throws (`null`). Numbers and booleans
      have no own enumerable properties. */
  function Entries(arg: FiltersArg): (r: Option<Record>)
    ensures r.None? <==> arg == ValueArg(Null)
  {
    match arg
    case ObjectArg(fields) => Some(fields)
    case ValueArg(v) =>
      match v
      case Undefined => Some(map[])
      case Null => None
      case Str(s) => Some(StringEntries(s))
      case _ => Some(map[])
  }

  /** The store's rule for an entry: a string is sent unless it is blank or
      `"all"`; any other value unless it is `undefined` or `null`. */
  predicate Keeps(v: Value)
  {
    if v.Str? then !Blank(v.s) && v.s != "all"
    else v != Undefined && v != Null
  }

  /** `Keeps` is the store's filter callback: `typeof value === 'string'
      ? value.trim() !== '' && value !== 'all' : value !== undefined && value !== null`. */
  lemma KeepsIsTrimRule(v: Value)
    ensures Keeps(v) <==> if v.Str? then Trim(v.s) != "" && v.s != "all" else v != Undefined && v != Null
  {
    if v.Str? { TrimEmptyIffBlank(v.s); }
  }

  /** `Object.fromEntries(Object.entries(r).filter(...))`. */
  function Clean(r: Record): (c: Record)
    ensures c.Keys <= r.Keys
    ensures forall k :: k in c ==> c[k] == r[k] && Keeps(r[k])
    ensures forall k :: k in r && Keeps(r[k]) ==> k in c
  {
    map k | k in r && Keeps(r[k]) :: r[k]
  }

  /** Cleaning a clean query changes nothing. */
  lemma CleanIdempotent(r: Record)
    ensures Clean(Clean(r)) == Clean(r)
  {
  }

  /** The query the store sends for `filters`, or `None` when building it throws. */
  function CleanedQuery(arg: FiltersArg): (q: Option<Record>)
    ensures q.None? <==> arg == ValueArg(Null)
  {
    match Entries(arg)
    case None => None
    case Some(r) => Some(Clean(r))
  }

  /** A query holds no `"all"`, no blank string, and no `null` or `undefined`. */
  lemma CleanedQueryHasNoDefaults(arg: FiltersArg, k: string)
    requires CleanedQuery(arg).Some? && k in CleanedQuery(arg).value
    ensures var v := CleanedQuery(arg).value[k];
            v != Undefined && v != Null && v != Str("all") && (v.Str? ==> !Blank(v.s))
  {
  }

  /** A token passed where filters belong is sent character by character under
      the keys "0", "1", …: no key of the query names a filter. */
  lemma TokenQueryHasOnlyIndexKeys(token: string)
    ensures CleanedQuery(ValueArg(Str(token))).Some?
    ensures forall k :: k in CleanedQuery(ValueArg(Str(token))).value ==> IsDigits(k)
  {
  }

  /** A token whose last character is not white space yields a non-empty query. */
  lemma TokenQueryNotEmpty(token: string)
    requires |token| > 0 && !IsSpace(token[|token| - 1])
    ensures NatToString(|token| - 1) in CleanedQuery(ValueArg(Str(token))).value
  {
    var last := Str([token[|token| - 1]]);
    assert !Blank(last.s) by { assert !IsSpace(last.s[0]); }
    assert last.s != "all";
  }

  /** A call with no argument sends an empty query. */
  lemma NoArgumentSendsEmptyQuery()
    ensures CleanedQuery(ValueArg(Undefined)) == Some(map[])
  {
  }
}
