/** What a JavaScript callee can hand back: a value, or something thrown. */
module JsErrors {

  /** A thrown value: an `Error` instance, with its `name` and `message`, or
      any other value (`throw "x"`, `throw 42`). */
  datatype Thrown = ErrorObject(name: string, message: string) | NonErrorValue

  /** A plain `new Error(message)`. */
  function PlainError(message: string): Thrown {
    ErrorObject("Error", message)
  }

  /** `error instanceof Error ? error.message : "Unknown error"`, the message
      every catch block of the core reports. */
  function MessageOf(t: Thrown): string {
    match t
    case ErrorObject(_, m) => m
    case NonErrorValue => "Unknown error"
  }

  /** A settled promise: the awaited call either returned or threw. */
  datatype Settled<+T> = Fulfilled(value: T) | Rejected(reason: Thrown)
}
