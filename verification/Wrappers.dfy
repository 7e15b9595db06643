/** Absent values and the source's raised exceptions. */
module Wrappers {

  datatype Option<+T> = None | Some(value: T)

  /** `Failure` stands for a raised exception; the text names which one. */
  datatype Result<+T> = Success(value: T) | Failure(error: string)
}
