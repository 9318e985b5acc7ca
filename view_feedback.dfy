/** The feedback page (`src/components/accountant/ViewFeedback.jsx`), routed
    for the accountant, the admin, the loan committee and the manager: the
    customers' feedback, newest first, with a response box per feedback that
    only the accountant may send. */
module ViewFeedback {
  import opened JsValues
  import opened Seqs
  import opened Dates
  import opened Http
  import opened Ledger
  import opened FeedbackStore
  import Routes

  const EmptyResponse: string := "Response cannot be empty."

  /** The sort key of `(a, b) => new Date(b.created_at) - new Date(a.created_at)`:
      later feedback has the smaller key. */
  function NewestFirst(f: Feedback): int
  {
    -Ordinal(f.createdAt)
  }

  /** The order the page lists feedback in. */
  lemma {:induction false} SortedIsNewestFirst(fs: seq<Feedback>)
    requires SortedBy(fs, NewestFirst)
    ensures forall i, j :: 0 <= i < j < |fs| ==> Ordinal(fs[j].createdAt) <= Ordinal(fs[i].createdAt)
  {
    forall i, j | 0 <= i < j < |fs|
      ensures Ordinal(fs[j].createdAt) <= Ordinal(fs[i].createdAt)
    {
      assert NewestFirst(fs[i]) <= NewestFirst(fs[j]);
    }
  }

  /** `disabled={user?.role !== 'accountant'}`: Respond is enabled for the
      accountant only. */
  predicate RespondEnabled(user: Option<Record>)
  {
    user.Some? && Get(user.value, "role") == Str("accountant")
  }

  /** Of the four roles the page is routed for, only the accountant can
      respond; the others see the list read-only. */
  lemma OnlyAccountantResponds(path: string, user: Record)
    requires path in {"/accountant/view-feedback", "/admin/view-feedback", "/loan-committee/view-feedback", "/manager/view-feedback"}
    requires Routes.Access(path, Get(user, "role")) == Routes.Render
    ensures path in Routes.Groups
    ensures RespondEnabled(Some(user)) <==> Routes.Groups[path] == "accountant"
  {
    Routes.GuardedPageShownToItsRoleOnly(path, Get(user, "role"));
  }

  /** `!response || response.trim() === ""`: no text, or only white space. */
  predicate Unanswerable(responses: map<Value, string>, id: Value)
  {
    id !in responses || Blank(responses[id])
  }

  /** The page's own state: the text typed for each feedback and the error
      shown under it, both keyed by feedback id. */
  class FeedbackPage {
    var responses: map<Value, string>
    var errors: map<Value, Value>

    constructor()
      ensures responses == map[] && errors == map[]
    {
      responses, errors := map[], map[];
    }

    /** `handleInputChange(id, value)`: only that feedback's text changes. */
    method InputChange(id: Value, value: string)
      modifies this
      ensures responses == old(responses)[id := value]
      ensures errors == old(errors)
    {
      responses := responses[id := value];
    }

    /** `handleRespond(id)`: a blank response only raises that feedback's
        error. Otherwise the response goes to the store; since the store
        never throws, that feedback's text is then cleared and its error
        removed whatever the server answered. */
    method Respond(store: FeedbackStore, token: Option<string>, id: Value, outcome: Response<Value>)
      returns (sent: bool)
      modifies this, store
      ensures Unanswerable(old(responses), id) ==>
                !sent && responses == old(responses) && errors == old(errors)[id := Str(EmptyResponse)] &&
                store.feedbacks == old(store.feedbacks) && store.error == old(store.error)
      ensures !Unanswerable(old(responses), id) ==>
                responses == old(responses)[id := ""] && errors == old(errors)[id := Null] &&
                (sent <==> AuthStore.HasToken(token)) &&
                (sent && outcome.Success? ==>
                   store.feedbacks == ApplyResponse(old(store.feedbacks), id, outcome.body)) &&
                (!sent || outcome.Failure? ==> store.feedbacks == old(store.feedbacks))
    {
      if Unanswerable(responses, id) {
        errors := errors[id := Str(EmptyResponse)];
        return false;
      }
      sent := store.RespondToFeedback(token, id, responses[id], outcome);
      responses := responses[id := ""];
      errors := errors[id := Null];
    }
  }

  /** `feedbacks.sort(...)` on the store's own array: the store's list is
      reordered newest first, and nothing is added or lost. */
  method SortStoreNewestFirst(store: FeedbackStore)
    modifies store
    ensures store.feedbacks == SortBy(old(store.feedbacks), NewestFirst)
    ensures multiset(store.feedbacks) == multiset(old(store.feedbacks))
    ensures forall i, j :: 0 <= i < j < |store.feedbacks| ==>
              Ordinal(store.feedbacks[j].createdAt) <= Ordinal(store.feedbacks[i].createdAt)
    ensures store.loading == old(store.loading) && store.error == old(store.error)
  {
    var sorted := SortBy(store.feedbacks, NewestFirst);
    SortedIsNewestFirst(sorted);
    store.feedbacks := sorted;
  }
}
