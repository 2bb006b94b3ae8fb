/** Values shared by every part of the economy core: the exceptions the core
    throws, and the outcome of a call that may throw. */
module Common {

  /** The .NET exceptions the core raises. */
  datatype Exception =
    | ArgumentException(message: string)
    | ArgumentNullException(paramName: string)
    | NullReferenceException

  /** What a call gives back: the value it returned, or the exception it threw.
      A call that returns nothing returns `()`. */
  datatype Outcome<+T> = Returned(value: T) | Threw(exception: Exception)
}
