/** Failure-carrying values shared by every module: an optional value, a value-or-error, a pass-or-error,
    and the shape of a JavaScript `Error` as the wallet and the contract layer raise it. */
module Outcomes {

  datatype Option<+T> = None | Some(value: T)

  datatype Result<+R, +E> = Success(value: R) | Failure(error: E)

  datatype Outcome<+E> = Pass | Fail(error: E)

  /** A thrown JavaScript error: the optional numeric `code` (EIP-1193 wallet errors carry one) and `message`
      (an absent message is the empty string). */
  datatype JsError = JsError(code: Option<int>, message: string)

  /** `err.message || fallback`: the empty message is falsy and gives way to the fallback. */
  function MessageOr(message: string, fallback: string): (r: string)
    ensures message != "" ==> r == message
    ensures message == "" ==> r == fallback
  {
    if message == "" then fallback else message
  }
}
