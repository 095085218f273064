/** Option and Result types shared by every module, and the integer widths
    the Rust source works with. */
module Basics {

  datatype Option<+T> = None | Some(value: T)

  /** A failure-compatible result, so that `:-` can propagate errors the way
      the `?` operator does in the source. */
  datatype Result<+T, +E> = Ok(value: T) | Err(error: E) {

    predicate IsFailure() {
      Err?
    }

    function PropagateFailure<U>(): Result<U, E>
      requires Err?
    {
      Err(error)
    }

    function Extract(): T
      requires Ok?
    {
      value
    }
  }

  const U32_MAX: int := 0xFFFF_FFFF

  /** Rust's `u32`. */
  type U32 = x: int | 0 <= x <= U32_MAX

  function Min(a: int, b: int): int {
    if a <= b then a else b
  }

  function Max(a: int, b: int): int {
    if a >= b then a else b
  }
}
