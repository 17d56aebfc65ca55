/** The results of the guarded mutators: either a call went through, or it
    was refused with an error value and changed nothing. */
module Outcomes {

  /** The outcome of a mutator that returns nothing on success. */
  datatype Outcome<+E> = Pass | Fail(error: E)

  /** A value computed on success, or the reason it was refused. */
  datatype Result<+T, +E> = Ok(value: T) | Err(error: E)

  datatype Option<+T> = None | Some(value: T)
}
