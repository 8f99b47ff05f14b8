/** Optional values and results with an error, as the source's `null`
    returns and thrown errors are modelled. */
module Outcomes {
  datatype Option<T> = None | Some(value: T)

  datatype Result<T, E> = Ok(value: T) | Err(error: E)

  /** An HTTP error as the handlers pass it to `next(...)`. */
  datatype HttpError = HttpError(status: int, message: string)
}
