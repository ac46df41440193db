/** Option and Result values for the places where the modelled code returns null or throws. */
module Wrappers {

  /** A value that may be absent (Kotlin's `T?`, a Java reference that may be null). */
  datatype Option<+T> = None | Some(value: T)

  /** The result of a computation that may throw; `reason` names the exception. */
  datatype Result<+T> = Ok(value: T) | Err(reason: string)

  /** The end of a call that returns nothing (Kotlin's `Unit`) or throws; `reason` names the exception. */
  datatype Outcome = Done | Thrown(reason: string)
}
