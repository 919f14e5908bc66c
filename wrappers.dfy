/** Option and Result, used wherever the TypeScript code returns `undefined`/`null` or throws. */
module Wrappers {

  datatype Option<T> = None | Some(value: T)
  {
    function UnwrapOr(default: T): T
    {
      if Some? then value else default
    }
  }

  /** `Failure` carries the JavaScript error message the original throws. */
  datatype Result<T> = Success(value: T) | Failure(error: string)
}
