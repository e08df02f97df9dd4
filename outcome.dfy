/** Option and Result values, and the Python exceptions the two scripts can raise. */
module Outcome {

  datatype Option<+T> = None | Some(value: T)

  /** The exceptions the modelled code raises or catches. */
  datatype PyError =
    | ZeroDivisionError  // `w/ht` with a zero height
    | ValueError         // numpy argmax over an empty axis
    | IndexError         // `result[0]` on an empty array
    | KeyError           // a dictionary lookup with a missing key
    | NameError          // a loop variable that was never bound

  /** Either a value or the exception raised instead; usable with `:-`. */
  datatype Result<+R> = Success(value: R) | Failure(error: PyError) {

    predicate IsFailure() {
      Failure?
    }

    function PropagateFailure<U>(): Result<U>
      requires Failure?
    {
      Failure(error)
    }

    function Extract(): R
      requires Success?
    {
      value
    }
  }
}
