/** The customer's feedback page (`src/components/customer/SendFeedback.jsx`):
    a form that posts a message, and the customer's own feedback, newest
    first. */
module SendFeedback {
  import opened JsValues
  import opened Seqs
  import opened Dates
  import opened Http
  import opened Ledger
  import opened ViewFeedback

  const Sent: string := "Feedback submitted successfully!"
  const SendFailed: string := "Error submitting feedback. Please try again later."

  /** `user?.id`: `undefined` when no one is signed in. */
  function UserId(user: Option<Record>): Value
  {
    if user.Some? then Get(user.value, "id") else Undefined
  }

  function ByAuthor(id: Value): Feedback -> bool
  {
    (f: Feedback) => f.userId == id
  }

  /** `feedbacks.filter(f => f.user_id === user?.id).sort(newest first)`. */
  function OwnFeedback(fs: seq<Feedback>, user: Option<Record>): (r: seq<Feedback>)
    ensures forall f :: f in r <==> f in fs && f.userId == UserId(user)
    ensures forall i, j :: 0 <= i < j < |r| ==> Ordinal(r[j].createdAt) <= Ordinal(r[i].createdAt)
    ensures multiset(r) <= multiset(fs)
  {
    var own := Filter(fs, ByAuthor(UserId(user)));
    var r := SortBy(own, NewestFirst);
    SortedIsNewestFirst(r);
    SameMembers(r, own);
    r
  }

  /** Every feedback of the signed-in customer is listed, as often as the
      store holds it. */
  lemma {:induction false} OwnFeedbackComplete(fs: seq<Feedback>, user: Option<Record>, f: Feedback)
    requires f.userId == UserId(user)
    ensures multiset(OwnFeedback(fs, user))[f] == multiset(fs)[f]
  {
    FilterKeepsCount(fs, ByAuthor(UserId(user)), f);
  }

  /** The form's state. */
  class FeedbackForm {
    var feedbackText: string
    var loading: bool
    var error: Option<string>
    var success: Option<string>

    constructor()
      ensures feedbackText == "" && !loading && error.None? && success.None?
    {
      feedbackText, loading, error, success := "", false, None, None;
    }

    /** `handleSubmit`: the typed text is posted. On success the box is
        cleared and the success message shown; on failure the text stays and
        the error is shown. Both messages are cleared first, and `loading`
        ends false. */
    method Submit(outcome: Response<Value>) returns (message: string)
      modifies this
      ensures message == old(feedbackText)
      ensures !loading
      ensures outcome.Success? ==> feedbackText == "" && success == Some(Sent) && error.None?
      ensures outcome.Failure? ==> feedbackText == old(feedbackText) && error == Some(SendFailed) && success.None?
    {
      loading := true;
      error := None;
      success := None;
      message := feedbackText;
      if outcome.Success? {
        feedbackText := "";
        success := Some(Sent);
      } else {
        error := Some(SendFailed);
      }
      loading := false;
    }
  }
}
