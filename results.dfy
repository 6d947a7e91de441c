/** The outcomes of Python calls that may raise: a value, or the exception raised. */
module Results {

  /** The exceptions the modelled helpers can raise or let through. */
  datatype Exception =
    | KeyError(key: string)        // `d[key]` on a dict without that key
    | TypeError                    // `x[key]` or `key in x` on a value that does not support it
    | JsonDecodeError              // `json.loads` on text that is not JSON
    | DriverError(name: string)    // a database-driver failure that is not caught

  datatype Result<T> = Ok(value: T) | Raised(error: Exception)

  /** A Python argument that may be `None`. */
  datatype Option<T> = None | Some(value: T)
}
