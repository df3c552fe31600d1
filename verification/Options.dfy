/** Shared result types. */
module Options {
  datatype Option<+T> = None | Some(value: T)

  datatype Result<+T, +E> = Ok(value: T) | Err(error: E)

  /** The result of an operation that either succeeds or raises. */
  datatype Outcome<+E> = Pass | Raised(error: E) {
    predicate IsFailure() {
      Raised?
    }

    function PropagateFailure(): Outcome<E>
      requires Raised?
    {
      this
    }
  }

  newtype byte = b: int | 0 <= b < 256
}
