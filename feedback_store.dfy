/** The feedback store (`src/store/useFeedbackStore.jsx`): customers' feedback
    and the accountant's responses. */
module FeedbackStore {
  import opened JsValues
  import opened Seqs
  import opened Http
  import opened Ledger
  import AuthStore

  const NotSignedInMessage: string := "User not authenticated"

  /** `error.response?.data?.message || error.message`: without a fallback,
      so the text can be empty. */
  function FailureText(e: HttpError): (v: Value)
    ensures Truthy(ServerMessage(e)) ==> v == ServerMessage(e)
    ensures !Truthy(ServerMessage(e)) ==> v == Str(e.message)
  {
    OrValue(ServerMessage(e), Str(e.message))
  }

  /** The list after the server answers a response to feedback `id`: the
      feedback with that id takes the stored response, the rest is unchanged. */
  function ApplyResponse(fs: seq<Feedback>, id: Value, response: Value): (r: seq<Feedback>)
    ensures |r| == |fs|
    ensures forall i :: 0 <= i < |fs| ==>
              r[i] == if fs[i].id == id then fs[i].(response := response) else fs[i]
  {
    UpdateWhere(fs, (f: Feedback) => f.id == id, (f: Feedback) => f.(response := response))
  }

  /** Responding changes the responses only: ids, authors, messages and dates stay. */
  lemma ApplyResponseKeepsFeedback(fs: seq<Feedback>, id: Value, response: Value, i: int)
    requires 0 <= i < |fs|
    ensures var g := ApplyResponse(fs, id, response)[i];
            g.id == fs[i].id && g.userId == fs[i].userId && g.message == fs[i].message && g.createdAt == fs[i].createdAt
  {
  }

  class FeedbackStore {
    var feedbacks: seq<Feedback>
    var loading: bool
    var error: Value

    constructor()
      ensures feedbacks == [] && !loading && error == Null
    {
      feedbacks, loading, error := [], false, Null;
    }

    /** `fetchFeedbacks()`: `response.data.feedbacks` becomes the list.
        Without a token only the error is set. */
    method FetchFeedbacks(token: Option<string>, outcome: Response<seq<Feedback>>) returns (sent: bool)
      modifies this
      ensures sent <==> AuthStore.HasToken(token)
      ensures !sent ==> feedbacks == old(feedbacks) && loading == old(loading) && error == Str(NotSignedInMessage)
      ensures sent ==> !loading
      ensures sent && outcome.Success? ==> feedbacks == outcome.body && error == Null
      ensures sent && outcome.Failure? ==> feedbacks == old(feedbacks) && error == FailureText(outcome.error)
    {
      if !AuthStore.HasToken(token) {
        error := Str(NotSignedInMessage);
        return false;
      }
      sent := true;
      loading, error := true, Null;
      match outcome {
        case Success(body) =>
          feedbacks := body;
        case Failure(e) =>
          error := FailureText(e);
      }
      loading := false;
    }

    /** `respondToFeedback(id, response)`: `outcome` carries the `response`
        field of the server's reply, which is what the list records. */
    method RespondToFeedback(token: Option<string>, id: Value, response: string, outcome: Response<Value>) returns (sent: bool)
      modifies this
      ensures sent <==> AuthStore.HasToken(token)
      ensures !sent ==> feedbacks == old(feedbacks) && loading == old(loading) && error == Str(NotSignedInMessage)
      ensures sent ==> !loading
      ensures sent && outcome.Success? ==> feedbacks == ApplyResponse(old(feedbacks), id, outcome.body) && error == Null
      ensures sent && outcome.Failure? ==> feedbacks == old(feedbacks) && error == FailureText(outcome.error)
    {
      if !AuthStore.HasToken(token) {
        error := Str(NotSignedInMessage);
        return false;
      }
      sent := true;
      loading, error := true, Null;
      match outcome {
        case Success(stored) =>
          feedbacks := ApplyResponse(feedbacks, id, stored);
        case Failure(e) =>
          error := FailureText(e);
      }
      loading := false;
    }

    /** `clearFeedbacks()`. */
    method ClearFeedbacks()
      modifies this
      ensures feedbacks == [] && loading == old(loading) && error == old(error)
    {
      feedbacks := [];
    }
  }
}
