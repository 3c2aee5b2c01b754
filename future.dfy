/**
 * The one-shot result cell `Future<T>` of asynctasks.swift.
 *
 * The Swift class pairs an optional value with an `NSLock` that `init` takes
 * at once; `set` stores the value and releases the lock, and `get` waits for
 * the lock, reads the value and releases the lock again. The lock's state is
 * modelled as `isSet` (released) and the wait in `get` as a precondition.
 */
module Futures {
  import opened Wrappers

  class Future<T> {
    /** The Swift `future` field, of type `T?`. */
    var future: Option<T>
    /** True once `set` has released the lock that `init` took. */
    var isSet: bool

    /** A new cell is unset and holds `nil`. */
    constructor ()
      ensures !isSet && future == None
    {
      future := None;
      isSet := false;
    }

    /**
     * Stores `t` and releases the lock. A second `set` would release a lock
     * that is not held, which `NSLock` does not allow.
     */
    method Set(t: Option<T>)
      requires !isSet
      modifies this
      ensures isSet && future == t
    {
      future := t;
      isSet := true;
    }

    /** Returns the stored value; only reachable once the cell is set, and it changes nothing. */
    method Get() returns (r: Option<T>)
      requires isSet
      ensures r == future
    {
      r := future;
    }
  }

  /** Single assignment: after `set(t)` on an unset cell, any number of `get` calls all return `t`. */
  method SetThenGet<T>(f: Future<T>, t: Option<T>) returns (first: Option<T>, second: Option<T>)
    requires !f.isSet
    modifies f
    ensures f.isSet && first == t && second == t
  {
    f.Set(t);
    first := f.Get();
    second := f.Get();
  }
}
