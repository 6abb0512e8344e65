/** Outcome types shared by the whole fetcher: Python's exceptions become `Err` values. */
module Basics {

  datatype Option<+T> = None | Some(value: T)

  /** Every way a fetch can end without rows, one per exception the script can raise. */
  datatype Error =
    | Transport                 // requests raised before any status arrived (timeout, reset, DNS)
    | Throttled(status: int)    // a status in (429, 403, 502, 503, 504), raised as a RuntimeError
    | HttpError(status: int)    // raise_for_status on any other 4xx or 5xx status
    | BadJson                   // the body did not decode as JSON
    | NoAttempt                 // RuntimeError("Unknown error"): the retry loop ran zero times
    | NotAnObject               // payload.get(...) on a JSON value that is not an object
    | MissingSegment(key: string) // SEGMENTS[seg_key] with an unknown key

  datatype Result<+T> = Ok(value: T) | Err(error: Error)
}
