/** Option and Result values for the error paths of the model. */
module Wrappers {

  datatype Option<+T> = None | Some(value: T)

  /** `Err` stands for an exception the Python code raises. */
  datatype Result<+T> = Ok(value: T) | Err(reason: string)
}
