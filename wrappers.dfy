/** Failure-carrying values shared by the plugin modules. */
module Wrappers {

  datatype Option<+T> = None | Some(value: T)

  /** The outcome of an operation that can raise: `Err` carries the text of
      the exception (what `str(e)` would give). */
  datatype Result<+T> = Ok(value: T) | Err(error: string)

  /** The outcome of an administrative operation that returns nothing on
      success and raises an exception with a message otherwise. */
  datatype Status = Done | Raised(message: string)
}
