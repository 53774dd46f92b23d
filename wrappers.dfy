/** Option and Result values shared by every module of the model. */
module Wrappers {

  /** A value that may be absent; Python's `None` is `None`. */
  datatype Option<+T> = None | Some(value: T) {
    /** The value, or `default` when absent. */
    function GetOr(default: T): T
    {
      match this
      case Some(v) => v
      case None => default
    }
  }

  /** The outcome of an operation that may raise: `Failure` carries the exception's message. */
  datatype Result<+T, +E> = Success(value: T) | Failure(error: E)

  /** Python's `arg or fallback` for an optional integer: `None` and `0` are falsy. */
  function OrElse(arg: Option<int>, fallback: int): int
  {
    if arg.Some? && arg.value != 0 then arg.value else fallback
  }
}
