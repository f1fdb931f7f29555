/** Plain wrappers: `Option` stands for a C# nullable reference
    (`string?`), `Result` for an operation that either returns a value or
    throws. */
module Wrappers {

  datatype Option<+T> = None | Some(value: T)

  datatype Result<+T, +E> = Success(value: T) | Failure(error: E)
}
