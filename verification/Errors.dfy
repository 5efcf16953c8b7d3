/** Failure-carrying values shared by the GridNet model. */
module Errors {

  datatype Option<+T> = None | Some(value: T)

  /** The ways the modelled code stops with an exception. */
  datatype Error =
    | ShapeError         // torch.reshape: the element count does not fit the requested shape
    | NegativeLength     // Tensor.narrow called with a negative length
    | EmptyConcat        // torch.cat called on an empty list of chunks
    | DimensionMismatch  // the "Output tensor does not match label dimensions!" assertion
    | TargetOutOfBounds  // nn.CrossEntropyLoss given a class index outside [0, nClasses)
    | DivisionByZero     // Python ZeroDivisionError (a zero modulus or an empty dataset)

  datatype Result<+T> = Ok(value: T) | Err(error: Error)
}
