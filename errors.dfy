/** The failures the bounding-box core reports, and the result types that carry them. */
module Errors {

  /** One constructor per way an operation of the core can fail. */
  datatype Error =
    | PairLength(length: nat)                    // `pair` got an object whose length is not 2
    | InvalidMode                                // the coordinate convention is not xyxy, xywh or ccwh
    | BadShape(rows: nat, cols: nat)             // the trailing dimension of the input is not 4
    | BroadcastMismatch(left: nat, right: nat)   // two batch lengths that numpy cannot broadcast together
    | IndexOutOfRange(index: int, length: nat)   // an integer index outside the batch
    | DivisionByZero                             // `/` by a zero factor
    | AxisOutOfBounds(axis: int, ndim: nat)      // `AxisError` raised by `stack`

  /** A value, or the error that prevented computing it. */
  datatype Result<T> = Ok(value: T) | Err(error: Error)

  /** The outcome of an operation that changes state and returns nothing else. */
  datatype Outcome = Pass | Fail(error: Error)
}
