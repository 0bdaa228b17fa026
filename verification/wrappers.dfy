/** Failure-carrying results used by the manager's operations in place of
    Java's `null` and `throw new Exception("error")`. */
module Wrappers {

  /** A possibly absent reference (`null` in the source). */
  datatype Option<+T> = None | Some(value: T)

  /** The outcome of a command: the new state, or the reason it was refused. */
  datatype Result<+R, +E> = Ok(value: R) | Err(error: E)
}
