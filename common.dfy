/** Small wrappers shared by the other modules. */
module Common {

  /** A nullable value: a null column or a missing row. */
  datatype Option<+T> = None | Some(value: T)

  /** The outcome of a validation step. */
  datatype Result<+T, +E> = Success(value: T) | Failure(error: E)
}
