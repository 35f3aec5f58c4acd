/** Failure-carrying values shared by the modules of this model. */
module Results {

  /** A value, or a missing value (pandas' NaN in a column that a left join left empty). */
  datatype Option<+T> = None | Some(value: T)

  /** The outcome of a step that the Python code can abort with an exception. */
  datatype Result<+T, +E> = Ok(value: T) | Err(error: E)
}
