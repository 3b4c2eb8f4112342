/** Result values shared by every step of the weather bot.

    The Python program signals trouble in two different ways, and the model keeps
    them apart:
    - a step that reports a problem prints a message and returns None (a `Failure`);
    - an operation outside any `try` that raises escapes to the interpreter and ends
      the process with a traceback (a `Fault`, named after the Python exception).
 */
module Outcomes {

  datatype Option<+T> = None | Some(value: T)

  /** The failures a request step reports and then returns None for. */
  datatype Failure =
    | TimedOut                     // requests.exceptions.Timeout
    | NetworkError(detail: string) // any other requests.exceptions.RequestException
    | HttpStatus(code: int)        // a final status other than 200
    | NotFound(city: string)       // a 200 from the geocoder with no usable results

  /** The Python exceptions the modelled code can raise without catching them. */
  datatype Fault =
    | AttributeError   // `.get` called on something that is not a dict
    | TypeError        // indexing a scalar, or hashing a list or dict
    | KeyError         // indexing a dict with 0
    | IndexError       // indexing an empty sequence
    | JSONDecodeError  // `r.json()` on a body that is not JSON

  datatype Result<+T> = Ok(value: T) | Fail(failure: Failure) | Crash(fault: Fault)
}
