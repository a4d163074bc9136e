/** Option and Result values used for the error paths of the model. */
module Wrappers {
  datatype Option<T> = None | Some(value: T)

  /**
   * `Fail` carries the innermost message of the exception the source
   * throws, without the context its callers wrap around it; a message the
   * source builds from numbers is abbreviated to its fixed text.
   */
  datatype Result<T> = Ok(value: T) | Fail(message: string)
  {
    predicate IsOk() { Ok? }
  }
}
