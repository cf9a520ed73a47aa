/** Optional values and results with an error, the two shapes the
    game uses for "may be absent" (`undefined`, `null`) and "may fail". */
module Wrappers {

  datatype Option<+T> = None | Some(value: T)

  datatype Result<+T, +E> = Ok(value: T) | Err(error: E)
}
