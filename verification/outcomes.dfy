/** Optional values and the outcome of an awaited call that either returns or throws. */
module Outcomes {

  datatype Option<+T> = None | Some(value: T)

  /** What an `await` on an external service yields: a value, or a thrown error with its message. */
  datatype Outcome<+T> = Returned(value: T) | Threw(message: string)
}
