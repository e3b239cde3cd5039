/** Option and Result values, plus the three-way JavaScript argument
    (absent, null, or given) that decides whether a default parameter applies. */
module Wrappers {

  datatype Option<+T> = None | Some(value: T) {
    function GetOr(default: T): T {
      match this
      case Some(v) => v
      case None => default
    }
  }

  datatype Result<+T, +E> = Ok(value: T) | Err(error: E)

  /** A JavaScript argument: `undefined` (so a default parameter applies),
      `null`, or a value. */
  datatype Arg<+T> = Undefined | Null | Given(value: T) {
    /** Applies a default parameter: only `undefined` is replaced. */
    function Defaulted(default: T): Option<T> {
      match this
      case Undefined => Some(default)
      case Null => None
      case Given(v) => Some(v)
    }
  }
}
