/** Failure-carrying values used throughout the model: an optional value
    (a missing query parameter, a missing `values` field) and a result that
    is either a value or one of the errors the backend throws. */
module Wrappers {

  datatype Option<+T> = None | Some(value: T) {
    /** The value, or `default` when absent (JavaScript's `x || default`
        for values whose only falsy form is absence). */
    function GetOr(default: T): T {
      match this
      case Some(v) => v
      case None => default
    }
  }

  datatype Result<+R, +E> = Success(value: R) | Failure(error: E) {
    predicate IsFailure() {
      Failure?
    }

    function PropagateFailure<U>(): Result<U, E>
      requires Failure?
    {
      Failure(error)
    }

    function Extract(): R
      requires Success?
    {
      value
    }
  }

  /** The errors the backend raises on a request path. Each becomes an HTTP
      500 at the route boundary, which is outside this model. */
  datatype Error =
    | InvalidSheetName(input: string)    // resolveSheetName: not one of the 36 sheet names
    | ApiNotInitialized                  // getSheetData: the Sheets client is not set up
    | NoData(sheet: string)              // getSheetData: fewer than two rows fetched
    | Transport(message: string)         // the data source failed; its message is passed on
}
