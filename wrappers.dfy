/** Optional values and results with an error, used for the event's optional
    attributes and for the exceptions the capture code lets escape. */
module Wrappers {

  datatype Option<+T> = None | Some(value: T)

  datatype Result<+T, +E> = Ok(value: T) | Err(error: E)
}
