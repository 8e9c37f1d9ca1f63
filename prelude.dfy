/** Small value types shared by every package of the service. */
module Prelude {

  /** An optional value; `None` stands for Go's `nil` error or pointer. */
  datatype Option<+T> = None | Some(value: T)

  /** A value or the error that prevented it, for Go's `(T, error)` returns. */
  datatype Result<+T, +E> = Success(value: T) | Failure(error: E) {
    predicate IsFailure() {
      Failure?
    }

    function PropagateFailure<U>(): Result<U, E>
      requires Failure?
    {
      Failure(error)
    }

    function Extract(): T
      requires Success?
    {
      value
    }
  }

  /** Go's `byte`. */
  newtype byte = x: int | 0 <= x < 0x100

  /** Go's `uint32`. */
  newtype uint32 = x: int | 0 <= x < 0x1_0000_0000

  const MaxUint32: uint32 := 0xFFFF_FFFF
}
