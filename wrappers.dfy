/** The two sum types the crate leans on, spelled as in Rust. */
module Wrappers {

  /** `Option<T>`: a value that may be absent. */
  datatype Option<+T> = None | Some(value: T) {

    /** Lets `:-` stop at `None`. */
    predicate IsFailure() {
      None?
    }

    function PropagateFailure<U>(): Option<U>
      requires None?
    {
      None
    }

    function Extract(): T
      requires Some?
    {
      value
    }
  }

  /** `Result<T, E>`: a success value or an error value. */
  datatype Result<+T, +E> = Ok(value: T) | Err(error: E)
}
