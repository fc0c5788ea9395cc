/** Option and Result values standing in for Python's `None` and raised exceptions. */
module Wrappers {
  datatype Option<T> = None | Some(value: T)
  {
    /** `d.get(key, default)` once the lookup has been made. */
    function GetOr(default: T): T
    {
      if Some? then value else default
    }
  }

  /** A raised exception is an `Err` carrying the exception's message. */
  datatype Result<T> = Ok(value: T) | Err(error: string)
}
