/** Option values for the nullable references of the bot, and the outcome of an
    operation that may leave through an unhandled exception. */
module Wrappers {

  datatype Option<+T> = None | Some(value: T) {

    /** The value, or `default` when there is none (C#'s `x ?? default`). */
    function GetOr(default: T): T {
      match this
      case Some(v) => v
      case None => default
    }
  }

  /** C#'s null-coalescing `a ?? b` on two nullable references. */
  function OrElse<T>(a: Option<T>, b: Option<T>): (r: Option<T>)
    ensures a.Some? ==> r == a
    ensures a.None? ==> r == b
  {
    if a.Some? then a else b
  }

  /** How a C# member leaves: it returns a value, or an exception that it does
      not catch (a null dereference, a missing dictionary key) escapes to the
      caller. */
  datatype Exit<+T> = Returned(value: T) | Raised
}
