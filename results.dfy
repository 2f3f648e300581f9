/** Option, Result and the exception kinds the modelled code throws. */
module Results {

  /** `None` stands for a null reference wherever the source accepts one. */
  datatype Option<+T> = None | Some(value: T)

  /** A value, or the exception the source throws instead of returning. */
  datatype Result<+R, +E> = Success(value: R) | Failure(error: E)

  /** The .NET exception types raised by the modelled members, with the
      string they are constructed with: ArgumentException(string) takes a
      message, ArgumentOutOfRangeException(string) a parameter name. */
  datatype Exception =
    | ArgumentException(message: string)
    | ArgumentOutOfRangeException(paramName: string)
    | FormatException(message: string)
    | NullReferenceException
}
