/** Option and Result, used for empty callables, optional values and the external parser. */
module Wrappers {

  /** An optional value: `std::optional<T>`, or a `std::function` that may be empty. */
  datatype Option<+T> = None | Some(value: T)

  /** A value or an error: the outcome of the external conversion `parse<T>`. */
  datatype Result<+T, +E> = Ok(value: T) | Err(error: E)
}
