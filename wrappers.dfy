/** Optional values and the outcome of an operation that may raise. */
module Wrappers {

  datatype Option<+T> = None | Some(value: T)

  /** The Python exceptions the converters can raise on malformed or missing data. */
  datatype Fault =
    | TransportError  // the HTTP request failed (after any retries)
    | KeyError        // a JSON object lacked a key that is read with [...]
    | IndexError      // a split produced fewer parts than are indexed
    | ValueError      // int() was given text that is not a number
    | TypeError       // iteration over a JSON null

  datatype Result<+T> = Ok(value: T) | Err(fault: Fault)

  /**
   * How a guide walk ended: normally, with an exception that aborts the run,
   * or at the page bound the model imposes on a loop that need not terminate.
   */
  datatype Status = Finished | Failed(fault: Fault) | OutOfFuel
}
