/** The customer's own transaction list (`src/components/customer/TransactionHistory.jsx`):
    the shared filter panel pinned to the signed-in user, and a receipt
    dialog for approved transactions. */
module CustomerTransactionHistory {
  import opened JsValues
  import opened Http
  import opened QueryFilters
  import opened FilterPanel
  import opened RecordLists
  import opened Ledger
  import opened TransactionStore
  import opened CustomerStore
  import AuthStore

  /** The initial filters, with `user_id` set to the signed-in user's id. */
  function InitialFilters(userId: Value): (f: Record)
    ensures PageValid(f) && Get(f, "user_id") == userId
  {
    map["transaction_type" := Str("all"), "status" := Str("all"), "amount_min" := Str(""),
        "search" := Str(""), "user_id" := userId, "amount_max" := Str(""),
        "page" := Num(1), "perPage" := Num(5)]
  }

  /** Stripping the initial filters leaves the page, the page size and the
      user's id unless the id is falsy. */
  lemma StrippedInitialFilters(userId: Value)
    ensures Stripped(InitialFilters(userId)) ==
            if Dropped(userId) then map["page" := Num(1), "perPage" := Num(5)]
            else map["user_id" := userId, "page" := Num(1), "perPage" := Num(5)]
  {
    var f := InitialFilters(userId);
    var s := Stripped(f);
    assert s.Keys == if Dropped(userId) then {"page", "perPage"} else {"user_id", "page", "perPage"} by {
      forall k | k in f ensures k in s <==> k == "page" || k == "perPage" || (k == "user_id" && !Dropped(userId)) {
      }
    }
  }

  /** The store keeps the page and the page size, and the user's id when its
      own rule keeps it. */
  lemma CleanPinnedRequest(userId: Value)
    ensures Clean(map["user_id" := userId, "page" := Num(1), "perPage" := Num(5)]) ==
            if Keeps(userId) then map["user_id" := userId, "page" := Num(1), "perPage" := Num(5)]
            else map["page" := Num(1), "perPage" := Num(5)]
  {
    var pinned := map["user_id" := userId, "page" := Num(1), "perPage" := Num(5)];
    var c := Clean(pinned);
    assert Keeps(Num(1)) && Keeps(Num(5));
    if Keeps(userId) {
      assert c.Keys == pinned.Keys;
    } else {
      assert c.Keys == {"page", "perPage"};
    }
  }

  /** The first request asks for page 1 of five rows, pinned to the user
      exactly when the user's id passes both stripping rules. */
  lemma {:induction false} InitialRequest(userId: Value)
    ensures CleanedQuery(ObjectArg(Stripped(InitialFilters(userId)))) ==
            Some(if !Dropped(userId) && Keeps(userId)
                 then map["user_id" := userId, "page" := Num(1), "perPage" := Num(5)]
                 else map["page" := Num(1), "perPage" := Num(5)])
  {
    var s := Stripped(InitialFilters(userId));
    var base := map["page" := Num(1), "perPage" := Num(5)];
    StrippedInitialFilters(userId);
    assert CleanedQuery(ObjectArg(s)) == Some(Clean(s));
    if Dropped(userId) {
      assert s == base;
      assert Clean(base) == base;
    } else {
      CleanPinnedRequest(userId);
    }
  }

  /** A receipt button is shown only for approved transactions. */
  predicate ReceiptOffered(t: Transaction)
  {
    t.status == "approved"
  }

  /** The action the receipt dialog shows: "approve" for an approved
      transaction, "reject" for anything else. */
  function ProcessedAction(status: string): (a: string)
    ensures a == "approve" <==> status == "approved"
    ensures a == "approve" || a == "reject"
  {
    if status == "approved" then "approve" else "reject"
  }

  /** Every receipt the page can open says "approve". */
  lemma ReceiptsShowApproval(t: Transaction)
    requires ReceiptOffered(t)
    ensures ProcessedAction(t.status) == "approve"
  {
  }

  datatype Colour = Red | Green

  /** The amount cell: red for a negative amount, green otherwise, showing
      `Math.abs(amount)`. */
  function AmountCell(amount: int): (cell: (Colour, nat))
    ensures cell.0 == Red <==> amount < 0
    ensures cell.1 == amount || cell.1 == -amount
  {
    (if amount < 0 then Red else Green, if amount < 0 then -amount else amount)
  }

  /** The sign is carried by the colour alone: an amount and its negation show
      the same number, in different colours unless zero. */
  lemma AmountSignOnlyInColour(amount: int)
    ensures AmountCell(amount).1 == AmountCell(-amount).1
    ensures amount != 0 ==> AmountCell(amount).0 != AmountCell(-amount).0
  {
  }

  /** What opening a receipt does about the customer's name: with no
      customers loaded it asks for them (with no filters); otherwise it shows
      the first customer with the receipt's `user_id`, if there is one. */
  datatype NameLookup = FetchAllCustomers | ShowName(name: string) | KeepName

  function ReceiptNameLookup(customers: seq<Record>, receiptUserId: Value): (r: NameLookup)
    requires Truthy(receiptUserId)
    ensures r == FetchAllCustomers <==> customers == []
    ensures r.ShowName? ==> exists c :: c in customers && Get(c, "user_id") == receiptUserId && r.name == FullName(c)
    ensures r == KeepName <==> customers != [] && forall c :: c in customers ==> Get(c, "user_id") != receiptUserId
  {
    if customers == [] then FetchAllCustomers
    else match FindFirst(customers, "user_id", receiptUserId)
      case Some(c) => ShowName(FullName(c))
      case None => KeepName
  }
}
