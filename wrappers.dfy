/** Option and Result, used for the source's null references and thrown exceptions. */
module Wrappers {

  /** `None` stands for a C# null reference. */
  datatype Option<+T> = None | Some(value: T)

  /** `Failure` stands for an exception the source throws or a read the collector rejects. */
  datatype Result<+T, +E> = Success(value: T) | Failure(error: E)
}
