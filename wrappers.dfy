/** Small value types shared by every module of the model. */
module Wrappers {

  /** A value that may be absent; stands for a C# null reference. */
  datatype Option<+T> = None | Some(value: T)

  /** The value of an operation, or the exception it throws. */
  datatype Result<+T, +E> = Success(value: T) | Failure(error: E)

  /** Normal completion of a void operation, or the exception it throws. */
  datatype Outcome<+E> = Pass | Fail(error: E)

  /** A C# `int`. */
  type int32 = x: int | -0x8000_0000 <= x < 0x8000_0000

  /** A C# `byte`. */
  type byte = x: int | 0 <= x < 0x100
}
