/** Option and Result: the model's stand-ins for C# null and for thrown exceptions. */
module Wrappers {

  /** `None` stands for a C# `null` reference (or a field left unset). */
  datatype Option<+T> = None | Some(value: T)

  /** `Failure` stands for an exception thrown by the operation. */
  datatype Result<+R, +E> = Success(value: R) | Failure(error: E)
}
