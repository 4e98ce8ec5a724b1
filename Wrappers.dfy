/** Option and Result, used for C# nullable references and for the builder's error path. */
module Wrappers {

  /** `None` stands for a C# null reference. */
  datatype Option<+T> = None | Some(value: T)

  /** The outcome of an operation that throws in C#: `Err` stands for the exception. */
  datatype Result<+R, +E> = Ok(value: R) | Err(error: E)
}
