/** Option and Result: the absent values and the thrown exceptions of the source. */
module Wrappers {
  datatype Option<T> = None | Some(value: T)
  {
    /** `x ?? d` */
    function GetOr(d: T): T
    {
      if Some? then value else d
    }
  }

  datatype Result<T, E> = Ok(value: T) | Err(error: E)
}
