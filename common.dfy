/** Wrappers shared by both domains: optional values, the outcome of an operation that the
    source either completes or rejects by throwing, and the field merge of `{ ...current, ...patch }`. */
module Common {

  datatype Option<+T> = None | Some(value: T) {
    function GetOr(default: T): T {
      match this
      case Some(v) => v
      case None => default
    }
  }

  /** A value, or the error a source method would have thrown. */
  datatype Result<+T, +E> = Ok(value: T) | Err(error: E)

  /** Completion of a source method that returns nothing (`Promise<void>`) but may throw. */
  datatype Outcome<+E> = Pass | Fail(error: E)

  /** The value a field takes in `{ ...current, ...patch }`: the patch's value when the patch carries the field. */
  function Merge<T>(patch: Option<T>, current: T): T {
    match patch
    case Some(v) => v
    case None => current
  }
}
