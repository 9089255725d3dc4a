/** Exceptions of the weather station, and the result types that carry them.

    The Python code signals failure by raising; the model returns a `Result`
    whose error names the exception class that would have been raised. */
module Errors {

  /** The exception classes that matter to the control flow. `_get_weather`
      catches `TypeError` and `KeyError` from an expiry predicate and lets
      every other class through. */
  datatype Error =
    | TypeError            // wrong shape: subscripting a list with a string, a non-string to strptime, ...
    | KeyError             // a missing dictionary key
    | IndexError           // `[0]` on an empty list
    | ValueError           // strptime mismatch, an unknown icon number
    | NotImplementedError  // a capability a provider does not have
    | JsonDecodeError      // a cache file that is not JSON at all
    | FileNotFoundError    // a missing snapshot or icon file
    | FetchError           // whatever the network layer raises
    | AttributeError       // a text operation on a value that is not text

  datatype Option<+T> = None | Some(value: T)

  /** A value or the exception raised instead; usable with `:-`. */
  datatype Result<+T> = Ok(value: T) | Err(error: Error) {
    predicate IsFailure() {
      Err?
    }

    function PropagateFailure<U>(): Result<U>
      requires Err?
    {
      Err(error)
    }

    function Extract(): T
      requires Ok?
    {
      value
    }
  }

  /** True for the two exception classes that `_get_weather` catches
      around the expiry check (weather_client.py line 39). */
  predicate IsCaughtByCacheCheck(e: Error) {
    e == TypeError || e == KeyError
  }
}
