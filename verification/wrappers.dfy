/** Option and Result values used for Kotlin's nullable results and thrown exceptions. */
module Wrappers {

  /** A nullable value: `None` stands for Kotlin's `null`. */
  datatype Option<+T> = None | Some(value: T)
  {
    /** `this ?: other`: this value when present, otherwise `other`. */
    function Or(other: Option<T>): Option<T> {
      if Some? then this else other
    }
  }

  /** The outcome of an operation that may throw: `Err` carries the exception. */
  datatype Result<+T, +E> = Ok(value: T) | Err(error: E)
}
