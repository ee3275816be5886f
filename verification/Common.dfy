/** Identifiers, options and results shared by every module. */
module Common {

  // Document ids are opaque in Convex; only equality on them matters.
  type UserId = nat
  type ShowId = nat
  type TierId = nat
  type EntryId = nat
  type CallId = nat
  type AttemptId = nat
  type RefundId = nat
  type DisputeId = nat
  type ItemId = nat

  /** Milliseconds since the epoch, as `Date.now()` returns them. */
  type Millis = nat

  datatype Option<+T> = None | Some(value: T)

  datatype Result<+T, +E> = Ok(value: T) | Err(error: E)

  function Min(a: int, b: int): int {
    if a <= b then a else b
  }
}
