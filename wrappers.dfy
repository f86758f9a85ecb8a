/** Shared result types: `Option` for the source's `None` returns and `Result`
    for the exceptions it raises. */
module Wrappers {

  datatype Option<+T> = None | Some(value: T)

  /** The error cases the solvers raise, named after the exception the source raises. */
  datatype Error =
    | IndexError      // a list or string index out of range
    | KeyError        // a dictionary lookup of a missing key
    | ValueError      // `list.index` of a missing value, or unpacking the wrong number of values
    | RuntimeError    // an explicit `raise RuntimeError(...)`
    | AssertionError  // a failed `assert` in the source
    | TypeError       // unpacking `None` into a pair
    | OutOfFuel       // the model's bound on an unbounded loop was reached

  datatype Result<+T> = Ok(value: T) | Err(error: Error)
}
