/** Optional values and error outcomes shared by the environment models.
    Python's `None` becomes `None`; an exception the source raises becomes `Err`. */
module Wrappers {

  datatype Option<+T> = None | Some(value: T)

  datatype Result<+T, +E> = Ok(value: T) | Err(error: E)
}
