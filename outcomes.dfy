/** Success and failure values shared by the interpreter's modules. */
module Outcomes {

  datatype Option<+T> = None | Some(value: T)

  /** The Python exceptions the interpreter's code can raise on malformed input. */
  datatype Failure =
    | IndexError      // a pop from an empty list, or a missing tokens[i]
    | KeyError        // an operator that is missing from a lookup table
    | ValueError      // int() of a token that is not an integer literal
    | AssertionError  // a failed assert in the parser
    | NameError       // a name the module never defines

  datatype Result<+T> = Ok(value: T) | Err(failure: Failure)

  /** The result of a procedure that returns nothing, or raises. */
  datatype Outcome = Pass | Fail(failure: Failure)
}
