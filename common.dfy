/** Small wrappers shared by the other modules: an optional value and a
    value-or-error result, as used for Python's `None` and raised exceptions. */
module Common {

  datatype Option<+T> = None | Some(value: T)

  datatype Result<+T, +E> = Ok(value: T) | Err(error: E)
}
