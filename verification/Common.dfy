/** Small value types shared by the models. */
module Common {

  datatype Option<+T> = None | Some(value: T)

  /** The outcome of an operation that can fail without a further distinction of errors. */
  datatype Result<+T> = Ok(value: T) | Err

  /** The contents of a directory: file names to bytes. */
  type Files = map<string, string>
}
