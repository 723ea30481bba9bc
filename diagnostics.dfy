/** Error values of the pipeline and the failure-compatible wrappers that carry them.
    The source prints a diagnostic and exits the process on the first error; here the
    error is returned instead. */
module Diagnostics {

  /** The four diagnostics the source can produce. */
  datatype Error =
    | UnknownWord(word: string)   // lexer: a letter run that is neither a keyword nor one letter
    | UnknownChar(ch: string)     // lexer: any other character; "" when the input ran out
    | Expected(what: string)      // parser: a missing "(", ")", "while" or ";"
    | SyntaxError                 // parser: a token other than EOF after the program statement

  predicate IsLexical(e: Error) {
    e.UnknownWord? || e.UnknownChar?
  }

  datatype Option<+T> = None | Some(value: T)

  datatype Result<+T> = Ok(value: T) | Err(error: Error) {
    predicate IsFailure() { Err? }

    function PropagateFailure<U>(): Result<U>
      requires Err?
    {
      Err(error)
    }

    function Extract(): T
      requires Ok?
    {
      value
    }
  }

  /** The outcome of an action that produces no value. */
  datatype Outcome = Pass | Fail(error: Error) {
    predicate IsFailure() { Fail? }

    function PropagateFailure<U>(): Result<U>
      requires Fail?
    {
      Err(error)
    }
  }
}
