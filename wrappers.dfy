/** Option, Result and Panics: how the model writes Rust's `Option`, `Result` and the calls that
    abort the program (`unwrap` on `None`, an out-of-range slice, `todo!()`). */
module Wrappers {

  datatype Option<+T> = None | Some(value: T) {
    /** `unwrap_or`: the carried value, or `default` when there is none. */
    function GetOr(default: T): T {
      match this
      case Some(v) => v
      case None => default
    }
  }

  datatype Result<+T, +E> = Ok(value: T) | Err(error: E)

  /** The outcome of a call that may abort: it returns a value or it panics for the given reason. */
  datatype Panics<+T> = Returns(value: T) | Panic(reason: string)

  /** Rust's `Ordering`. */
  datatype Ordering = Less | Equal | Greater

  /** `a.cmp(&b)` on integers. */
  function CompareInt(a: int, b: int): (o: Ordering)
    ensures o == Equal <==> a == b
    ensures o == Less <==> a < b
  {
    if a < b then Less else if a == b then Equal else Greater
  }
}
