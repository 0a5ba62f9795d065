/**
 * The few JavaScript runtime notions the pages rely on: a thrown value is
 * either an `Error` object (with a message) or some other value, and an
 * awaited promise either fulfils with a value or rejects with a thrown value.
 */
module Js {

  /** What a `throw` or a rejected promise carries. */
  datatype Thrown = ErrorObject(message: string) | NonError

  /** The settled state of an awaited promise. */
  datatype Settled<+T> = Fulfilled(value: T) | Rejected(reason: Thrown)

  const UnknownError: string := "An unknown error occurred."

  /**
   * The text a `catch` block shows: `e instanceof Error ? e.message : "An
   * unknown error occurred."` (upload.tsx and resume.tsx use the same rule).
   */
  function ErrorMessage(e: Thrown): (m: string)
    ensures e.ErrorObject? ==> m == e.message
    ensures e.NonError? ==> m == UnknownError
  {
    match e
    case ErrorObject(msg) => msg
    case NonError => UnknownError
  }
}
