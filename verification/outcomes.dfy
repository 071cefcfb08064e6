/** Kotlin's nullable values and `kotlin.Result`, as the view models see them.
    A repository call never throws here: it returns a `Result` whose failure
    carries the exception, and an exception's `message` may be null. */
module Outcomes {

  /** A Kotlin nullable value: `None` is `null`. */
  datatype Option<+T> = None | Some(value: T)

  /** The thrown exception of a failed call; only its message is observable. */
  datatype Fault = Fault(message: Option<string>)

  /** `kotlin.Result<T>`. */
  datatype Result<+T> = Success(value: T) | Failure(fault: Fault)

  /** `e.message ?: fallback` — the elvis operator on an exception message. */
  function MessageOr(f: Fault, fallback: string): (m: string)
    ensures f.message.Some? ==> m == f.message.value
    ensures f.message.None? ==> m == fallback
  {
    match f.message
    case Some(text) => text
    case None => fallback
  }
}
