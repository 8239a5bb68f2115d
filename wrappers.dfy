/** Option and Result wrappers shared by the lexer, the parser and the emitter. */
module Wrappers {

  datatype Option<+T> = None | Some(value: T)

  /** A value, or the error the source would have thrown instead. */
  datatype Result<+R, +E> = Success(value: R) | Failure(error: E)
}
