/** A value that may be absent, and one that a call may fail to give. */
module Options {

  /** The source's null, undefined and omitted fields. */
  datatype Option<+T> = None | Some(value: T)

  /** The source's returns and exceptions. */
  datatype Result<+T, +E> = Ok(value: T) | Err(error: E)
}
