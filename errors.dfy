/** The Python exceptions that the client raises or lets escape. */
module Errors {

  datatype Error =
    | AssertionError(message: string)  // a failed `assert` statement
    | KeyError(key: string)            // a missing key in a dict
    | TypeError                        // a non-dict indexed by a string key
    | IndexError                       // a list indexed past its end
    | ZeroDivisionError                // a division by zero
    | AttributeError(name: string)     // a missing attribute on `self`

  /** `httplib.OK`. */
  const HttpOk: int := 200
}
