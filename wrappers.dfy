/** Small result types shared by the whole model. */
module Wrappers {

  datatype Option<T> = None | Some(value: T)
  {
    function UnwrapOr(default: T): T
    {
      match this
      case None => default
      case Some(v) => v
    }
  }

  /**
   * The outcome of a computation that may panic: `Panics` stands for a Rust
   * `panic!`, a failed `unwrap()` or a failed `expect(..)`, which abort the
   * caller instead of returning a value.
   */
  datatype Outcome<T> = Returns(value: T) | Panics

  /** `Result<T, E>` of the source, used where it returns errors as values. */
  datatype Result<T, E> = Ok(value: T) | Err(error: E)

  /** Sequence concatenation is associative (stated once, for any element type). */
  lemma ConcatAssoc<T>(a: seq<T>, b: seq<T>, c: seq<T>)
    ensures (a + b) + c == a + (b + c)
  {
  }
}
