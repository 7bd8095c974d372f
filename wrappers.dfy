/** Small value wrappers shared by every component model. */
module Wrappers {

  /** An optional value: `null`/`undefined` in the components becomes None. */
  datatype Option<+T> = None | Some(value: T)

  /** What an awaited `fetch(...)` followed by `response.json()` gives a handler:
      a parsed body, a response whose `ok` flag is false, or a thrown error
      (`message` is None when the thrown value is not an `Error`). */
  datatype Response<+T> = Ok(body: T) | NotOk | Thrown(message: Option<string>)

  /** The text a `catch (err)` block stores:
      `err instanceof Error ? err.message : "An unknown error occurred"`. */
  function CaughtMessage(thrown: Option<string>): (r: string)
    ensures thrown.Some? ==> r == thrown.value
    ensures thrown.None? ==> r == "An unknown error occurred"
  {
    match thrown
    case Some(m) => m
    case None => "An unknown error occurred"
  }
}
