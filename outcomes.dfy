/** Failure-carrying values shared by the NutriScale modules. */
module Outcomes {

  /** A value that may be absent; `None` stands for an entry that Python's `int()`/`float()`
      could not parse, or for a database fetch that raised `sqlite3.Error`. */
  datatype Option<+T> = None | Some(value: T)

  /** The outcome of a check that either produces a value or reports why it refused the input. */
  datatype Result<+T, +E> = Ok(value: T) | Err(error: E)
}
