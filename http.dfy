/** What a request to the back end can come back with, as the stores see it
    through axios: a body on success, or an error that may carry the server's
    reply. The network itself is outside the model: every operation that
    sends a request takes its outcome as a parameter. */
module Http {
  import opened JsValues

  /** `error.response`: the status and the JSON body of a failed request.
      `fieldErrors` is the body's `errors` object (field name to messages),
      which Laravel sends with status 422. */
  datatype ErrorReply = ErrorReply(status: int, data: Record, fieldErrors: Option<map<string, seq<string>>>)

  /** An axios error: the server's reply when there was one, and `error.message`. */
  datatype HttpError = HttpError(reply: Option<ErrorReply>, message: string)

  datatype Response<T> = Success(body: T) | Failure(error: HttpError)

  /** `error.response?.data?.message`: `undefined` when the request got no reply. */
  function ServerMessage(e: HttpError): Value
  {
    match e.reply
    case None => Undefined
    case Some(r) => Get(r.data, "message")
  }

  /** `a || b` on values: `a` when it is truthy, `b` otherwise. */
  function OrValue(a: Value, b: Value): (r: Value)
    ensures Truthy(a) ==> r == a
    ensures !Truthy(a) ==> r == b
  {
    if Truthy(a) then a else b
  }

  /** `error.response?.data?.message || error.message || fallback`: the error
      text the stores keep. The server's message wins, then the client's, and
      the text is never empty. */
  function Describe(e: HttpError, fallback: string): (v: Value)
    requires fallback != ""
    ensures Truthy(v)
    ensures Truthy(ServerMessage(e)) ==> v == ServerMessage(e)
    ensures !Truthy(ServerMessage(e)) && e.message != "" ==> v == Str(e.message)
    ensures !Truthy(ServerMessage(e)) && e.message == "" ==> v == Str(fallback)
  {
    OrValue(OrValue(ServerMessage(e), Str(e.message)), Str(fallback))
  }

  /** `new Error(error.response?.data?.message || fallback).message`: the text
      of the error a store throws on to its caller. A server message wins
      (printed as `String` prints it); the client's own `error.message` is
      never used, unlike in `Describe`. */
  function RethrownMessage(e: HttpError, fallback: string): (s: string)
    requires fallback != ""
    ensures s != ""
    ensures Truthy(ServerMessage(e)) ==> s == ToJsString(ServerMessage(e))
    ensures !Truthy(ServerMessage(e)) ==> s == fallback
    ensures ServerMessage(e).Str? && ServerMessage(e).s != "" ==> s == ServerMessage(e).s
  {
    ToJsString(OrValue(ServerMessage(e), Str(fallback)))
  }
}
