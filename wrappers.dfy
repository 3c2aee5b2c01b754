/** Optional values: Swift's `T?`, and the `nil` that getNextTask returns on an empty queue. */
module Wrappers {

  datatype Option<T> = None | Some(value: T)

  /** The smaller of two naturals. */
  function Min(a: nat, b: nat): (m: nat)
    ensures m <= a && m <= b && (m == a || m == b)
  {
    if a <= b then a else b
  }
}
