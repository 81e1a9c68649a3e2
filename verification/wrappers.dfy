/** Option and Result, the failure-compatible wrappers the rest of the model
    uses in place of Python's None and raised exceptions. */
module Wrappers {

  datatype Option<+T> = None | Some(value: T) {
    predicate IsFailure() { None? }

    function PropagateFailure<U>(): Option<U>
      requires None?
    {
      None
    }

    function Extract(): T
      requires Some?
    {
      value
    }
  }

  datatype Result<+T, +E> = Ok(value: T) | Err(error: E) {
    predicate IsFailure() { Err? }

    function PropagateFailure<U>(): Result<U, E>
      requires Err?
    {
      Err(error)
    }

    function Extract(): T
      requires Ok?
    {
      value
    }
  }
}

/** The Python exceptions the modelled code can raise, as values. */
module Errors {

  datatype Error =
    | ValueError(message: string)    // bad unpacking, unsupported model name, missing key, str.format syntax
    | KeyError(key: string)          // str.format field with no value
    | IndexError                     // indexing an empty list
    | AssertionError                 // a failed `assert isinstance(...)`
    | ValidationError(detail: string) // pydantic rejected a payload
    | EndOfInput                     // input() at the end of standard input (EOFError)
    | RecursionLimit                 // LangGraph stopped a graph run that took too many steps
}
