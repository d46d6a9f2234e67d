/** Small value types shared by every module of the model. */
module Values {

  /** A value that may be absent: Python's `None` or a plain value. */
  datatype Option<+T> = None | Some(value: T)

  /** The result of a call into the device's HTTP client: a value, or the
      `ConnectionError` the client raises when the device does not answer. */
  datatype Outcome<+T> = Ok(value: T) | ConnectionError

  /** The result of an expression that indexes a dictionary with `d[k]`:
      the value, or the `KeyError` raised for the first missing key. */
  datatype Raised<+T> = Returned(value: T) | KeyError(key: string)
}
