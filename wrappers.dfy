/** Failure-carrying datatypes shared by the whole model. */
module Wrappers {

  datatype Option<+T> = None | Some(value: T)

  /** The .NET exceptions the modelled code throws. */
  datatype Exception =
    | InvalidOperation    // InvalidOperationException
    | NullReference       // NullReferenceException
    | DivideByZero        // DivideByZeroException
    | ArgumentOutOfRange  // ArgumentOutOfRangeException
    | Argument            // ArgumentException

  /** How a `void` method of the source ends: normally, or by throwing. */
  datatype Status = Completed | Threw(exception: Exception)

  /** A value, or the exception thrown instead of producing it. */
  datatype Result<+T> = Success(value: T) | Failure(exception: Exception)
}
