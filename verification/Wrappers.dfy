/** Optional values and results that may carry an error, used by every other module. */
module Wrappers {
  datatype Option<+T> = None | Some(value: T) {
    function GetOr(default: T): T {
      if Some? then value else default
    }
  }

  /** What an exception carries: `code` and `message` of the source's domain errors. */
  datatype Error = Error(code: string, message: string)

  datatype Result<+T> = Success(value: T) | Failure(error: Error)
}
