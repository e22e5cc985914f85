/** Optional values and results shared by the aggregation scripts. */
module Outcomes {

  /** A value that may be absent (a missing dictionary key, `None`). */
  datatype Option<+T> = None | Some(value: T)

  /** The outcome of a step that can fail with an error of type E. */
  datatype Result<+T, +E> = Ok(value: T) | Err(error: E)

  /** Why a day produced no new aggregate. */
  datatype Skip =
    | FetchError   // an API reply lacked the field the script indexes next
    | NoData       // the day's ADI total (or raw crash count) was zero

  /** An exception that ends a run before anything is written. */
  datatype Fault =
    | KeyError(key: string)    // a dictionary lookup of a missing key
    | NameError(name: string)  // a name that is not defined
    | TypeError                // an operation applied to `None`
}
