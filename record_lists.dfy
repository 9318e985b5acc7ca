/** The list updates the customer, user and employee stores apply after a
    successful write: patch, replace or drop the records whose `id` is strictly
    equal (`===`) to the one written. */
module RecordLists {
  import opened JsValues
  import opened Seqs

  /** `record.id`. */
  function IdOf(r: Record): Value
  {
    Get(r, "id")
  }

  /** `list.map(r => r.id === id ? { ...r, ...patch } : r)`. */
  function MergeWhereId(xs: seq<Record>, id: Value, patch: Record): (r: seq<Record>)
    ensures |r| == |xs|
    ensures forall i :: 0 <= i < |xs| && IdOf(xs[i]) != id ==> r[i] == xs[i]
    ensures forall i :: 0 <= i < |xs| && IdOf(xs[i]) == id ==> r[i] == Merge(xs[i], patch)
  {
    UpdateWhere(xs, (c: Record) => IdOf(c) == id, (c: Record) => Merge(c, patch))
  }

  /** `list.map(r => r.id === id ? replacement : r)`. */
  function ReplaceWhereId(xs: seq<Record>, id: Value, replacement: Record): (r: seq<Record>)
    ensures |r| == |xs|
    ensures forall i :: 0 <= i < |xs| ==> r[i] == if IdOf(xs[i]) == id then replacement else xs[i]
  {
    UpdateWhere(xs, (c: Record) => IdOf(c) == id, (c: Record) => replacement)
  }

  /** `list.filter(r => r.id !== id)`. */
  function RemoveId(xs: seq<Record>, id: Value): (r: seq<Record>)
    ensures forall c :: c in r <==> c in xs && IdOf(c) != id
    ensures multiset(r) <= multiset(xs)
  {
    Filter(xs, (c: Record) => IdOf(c) != id)
  }

  /** A patch that does not move a record to another id: applying it twice is
      the same as applying it once. */
  lemma MergeWhereIdIdempotent(xs: seq<Record>, id: Value, patch: Record)
    requires "id" in patch ==> patch["id"] == id
    ensures MergeWhereId(MergeWhereId(xs, id, patch), id, patch) == MergeWhereId(xs, id, patch)
  {
    var once := MergeWhereId(xs, id, patch);
    forall i | 0 <= i < |xs|
      ensures MergeWhereId(once, id, patch)[i] == once[i]
    {
      if IdOf(xs[i]) == id {
        assert IdOf(once[i]) == id;
        assert Merge(once[i], patch) == once[i];
      }
    }
  }

  /** Removing a record leaves every record with another id, as often as it was there. */
  lemma RemoveIdKeepsOthers(xs: seq<Record>, id: Value, c: Record)
    requires IdOf(c) != id
    ensures multiset(RemoveId(xs, id))[c] == multiset(xs)[c]
  {
    FilterKeepsCount(xs, (d: Record) => IdOf(d) != id, c);
  }

  /** Removal keeps the order of what remains: it works piecewise on a split list. */
  lemma RemoveIdConcat(a: seq<Record>, b: seq<Record>, id: Value)
    ensures RemoveId(a + b, id) == RemoveId(a, id) + RemoveId(b, id)
  {
    FilterConcat(a, b, (d: Record) => IdOf(d) != id);
  }

  /** Removing an id that no record has changes nothing. */
  lemma RemoveAbsentId(xs: seq<Record>, id: Value)
    requires forall c :: c in xs ==> IdOf(c) != id
    ensures RemoveId(xs, id) == xs
  {
    FilterAll(xs, (d: Record) => IdOf(d) != id);
  }

  /** `list.find(r => r[key] === v)`: the first record whose `key` is `v`. */
  function FindFirst(xs: seq<Record>, key: string, v: Value): (r: Option<Record>)
    ensures r.None? <==> forall c :: c in xs ==> Get(c, key) != v
    ensures r.Some? ==> exists i :: 0 <= i < |xs| && xs[i] == r.value && Get(xs[i], key) == v &&
                                    forall j :: 0 <= j < i ==> Get(xs[j], key) != v
  {
    if xs == [] then None
    else if Get(xs[0], key) == v then Some(xs[0])
    else
      var r := FindFirst(xs[1..], key, v);
      assert forall c :: c in xs[1..] ==> c in xs;
      assert forall c :: c in xs ==> c == xs[0] || c in xs[1..];
      if r.Some? then
        var i :| 0 <= i < |xs[1..]| && xs[1..][i] == r.value && Get(xs[1..][i], key) == v &&
                 forall j :: 0 <= j < i ==> Get(xs[1..][j], key) != v;
        assert xs[i + 1] == r.value;
        assert forall j :: 1 <= j < i + 1 ==> Get(xs[j], key) != v by {
          forall j | 1 <= j < i + 1 ensures Get(xs[j], key) != v {
            assert xs[j] == xs[1..][j - 1];
          }
        }
        r
      else r
  }

  /** `${customer.fname} ${customer.lname}`. */
  function FullName(c: Record): string
  {
    ToJsString(Get(c, "fname")) + " " + ToJsString(Get(c, "lname"))
  }
}
