/** Values exchanged with the remote REST service, which is otherwise left abstract:
    every call is reduced to the outcome the application sees. */
module Remote {

  datatype Option<+T> = None | Some(value: T)

  /** The outcome of one remote call: the response body, or a failure that carries
      the `message` field of the error body when the server sent one. A network error
      or a thrown exception is a failure without a message. */
  datatype Reply<+T> = Ok(data: T) | Fail(message: Option<string>)

  /** The error text shown for a failed call, `err.response?.data?.message || fallback`:
      the server's message when it is a non-empty string, the fallback otherwise. */
  function MessageOr(message: Option<string>, fallback: string): (r: string)
    ensures r == fallback || (message == Some(r) && r != "")
    ensures message.Some? && message.value != "" ==> r == message.value
    ensures fallback != "" ==> r != ""
  {
    match message
    case Some(m) => if m != "" then m else fallback
    case None => fallback
  }
}
