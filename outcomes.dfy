/** How the screens' calls to the remote API end. The HTTP client itself is not
    part of this model: every awaited call is an input that says how it ended. */
module Outcomes {

  datatype Option<+T> = None | Some(value: T)

  /** An awaited call whose result the screen does not use. A call that
      rejects carries the `message` of the thrown error. */
  datatype Outcome = Done | Failed(message: string)

  /** An awaited call whose resolved value the screen uses. */
  datatype Response<+T> = Success(value: T) | Failure(message: string)

  /** JavaScript's `message || fallback`: the empty string is falsy. */
  function MessageOr(message: string, fallback: string): (m: string)
    ensures fallback != "" ==> m != ""
    ensures m == message || (message == "" && m == fallback)
  {
    if message != "" then message else fallback
  }
}
