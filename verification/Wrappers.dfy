/** The two outcome types shared by every module of the model. */
module Wrappers {

  datatype Option<+T> = None | Some(value: T)

  /** An `Err` stands for an exception raised by the modelled code. */
  datatype Result<+T, +E> = Ok(value: T) | Err(error: E)
}
