/** Option, Result and the kinds of exception that abort a model load. */
module Wrappers {

  datatype Option<+T> = None | Some(value: T)

  /** The Python exceptions that can escape from loading or rendering a model.
      Any of them aborts the whole operation; none is caught by the loader
      (texture loading catches its own failures and never raises). */
  datatype LoadError =
    | AssertionError     // a failed `assert` on a token count
    | ValueError         // float() or int() rejected a token
    | IndexError         // a list index out of range
    | KeyError           // a dict lookup of a missing key
    | FileNotFound       // open() could not read a file
    | ZeroDivisionError  // a division by a zero length
    | TypeError          // a call with arguments the callee does not accept
    | RecursionError     // the interpreter's recursion limit was reached
    | LinAlgError        // numpy could not invert a singular matrix

  datatype Result<+T> = Ok(value: T) | Err(error: LoadError)
}
