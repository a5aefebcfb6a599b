/** Optional values, upstream replies and call outcomes. */
module Wrappers {

  /** A value that may be `undefined`. */
  datatype Option<+T> = None | Some(value: T)

  /** What an outbound HTTP call produced: the response body, or the thrown
      error together with the `response.data.error` text when there was one. */
  datatype Reply<T> = Ok(payload: T) | Err(errorText: Option<string>)

  /** How an async function ended: it returned a value, or it threw. */
  datatype Outcome<T> = Returned(value: T) | Threw
}
