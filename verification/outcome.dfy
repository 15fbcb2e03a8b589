/** Results of the interpolation routines: an interpolated series, or the
    reason none is produced. */
module Outcome {

  datatype Option<T> = None | Some(value: T)

  datatype Error =
    | LengthMismatch  // period values and period lengths differ in number
    | EmptyInput      // no periods at all, where the routine needs one

  datatype Result<T> = Success(value: T) | Failure(error: Error)
}
