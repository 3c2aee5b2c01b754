/**
 * The executor's shared FIFO buffer, `ArrayBlockingQueue<T>` in asynctasks.swift.
 *
 * The Swift class keeps its elements in an array that `insert` appends to and
 * `next` removes index 0 from, each under a spin-acquired lock. Here every
 * locked call is one atomic step on a `seq` field. Beside the class sits a
 * reference semantics for sequential runs of calls (`Step`, `Run`), and the
 * lemmas that make "first in, first out" precise.
 */
module BlockingQueue {
  import opened Wrappers

  class ArrayBlockingQueue<T> {
    /** The Swift `array` field: the queued elements, head first. */
    var items: seq<T>

    constructor ()
      ensures items == []
    {
      items := [];
    }

    /** Appends at the tail. */
    method Insert(element: T)
      modifies this
      ensures items == old(items) + [element]
      ensures |items| == old(|items|) + 1
      ensures Step(old(items), InsertOp(element)) == Done(None, items)
    {
      items := items + [element];
    }

    /**
     * Removes and returns the head. Swift's `remove(at: 0)` traps on an
     * empty array, so callers must only call this on a non-empty queue.
     */
    method Next() returns (head: T)
      requires items != []
      modifies this
      ensures head == old(items)[0] && items == old(items)[1..]
      ensures [head] + items == old(items)
      ensures Step(old(items), NextOp) == Done(Some(head), items)
    {
      head := items[0];
      items := items[1..];
    }

    /** The current element count; the contents are left as they are. */
    method Size() returns (n: int)
      ensures n == |items|
      ensures n == 0 <==> items == []
    {
      n := |items|;
    }
  }

  /** One call on the queue, as a caller issues it. */
  datatype Op<T> = InsertOp(element: T) | NextOp

  /** What one call does: `next` on an empty queue traps; otherwise the value it returns (if any) and the new contents. */
  datatype Outcome<T> = Trap | Done(returned: Option<T>, contents: seq<T>)

  /** The effect of one atomic call on contents `q`. */
  function Step<T>(q: seq<T>, op: Op<T>): (r: Outcome<T>)
    ensures r.Trap? <==> op.NextOp? && q == []
    ensures op.InsertOp? ==> r == Done(None, q + [op.element])
    ensures r.Done? && op.NextOp? ==> r.returned.Some? && [r.returned.value] + r.contents == q
  {
    match op
    case InsertOp(x) => Done(None, q + [x])
    case NextOp => if q == [] then Trap else Done(Some(q[0]), q[1..])
  }

  /**
   * A sequential run of calls from contents `q`: the values `next` returned,
   * in order, and the final contents; None if some `next` trapped.
   */
  function Run<T>(q: seq<T>, ops: seq<Op<T>>): Option<(seq<T>, seq<T>)>
    decreases |ops|
  {
    if ops == [] then Some(([], q))
    else match Step(q, ops[0])
      case Trap => None
      case Done(out, q') =>
        match Run(q', ops[1..])
        case None => None
        case Some(res) =>
          Some(((if out.Some? then [out.value] else []) + res.0, res.1))
  }

  /** The elements the inserts of `ops` add, in call order. */
  function Inserted<T>(ops: seq<Op<T>>): seq<T>
    decreases |ops|
  {
    if ops == [] then []
    else (if ops[0].InsertOp? then [ops[0].element] else []) + Inserted(ops[1..])
  }

  /** How many `next` calls `ops` holds. */
  function NextCount<T>(ops: seq<Op<T>>): nat
    decreases |ops|
  {
    if ops == [] then 0 else (if ops[0].NextOp? then 1 else 0) + NextCount(ops[1..])
  }

  /** One `insert` per element of `xs`, in order. */
  function Inserts<T>(xs: seq<T>): (ops: seq<Op<T>>)
    ensures |ops| == |xs|
    ensures forall i :: 0 <= i < |xs| ==> ops[i] == InsertOp(xs[i])
  {
    seq(|xs|, i requires 0 <= i < |xs| => InsertOp(xs[i]))
  }

  /** `n` calls of `next`. */
  function Nexts<T>(n: nat): (ops: seq<Op<T>>)
    ensures |ops| == n
    ensures forall i :: 0 <= i < n ==> ops[i] == NextOp
  {
    seq(n, i => NextOp)
  }

  /**
   * Conservation: in any run that does not trap, what was returned followed
   * by what is left is exactly the old contents followed by what was
   * inserted. Nothing is lost, duplicated or reordered, and every `next`
   * returned one element.
   */
  lemma {:induction false} RunConserves<T>(q: seq<T>, ops: seq<Op<T>>)
    requires Run(q, ops).Some?
    ensures Run(q, ops).value.0 + Run(q, ops).value.1 == q + Inserted(ops)
    ensures |Run(q, ops).value.0| == NextCount(ops)
    decreases |ops|
  {
    if ops != [] {
      var o := Step(q, ops[0]);
      RunConserves(o.contents, ops[1..]);
      var res := Run(o.contents, ops[1..]).value;
      match ops[0]
      case InsertOp(x) =>
        calc {
          res.0 + res.1;
          q + [x] + Inserted(ops[1..]);
          q + ([x] + Inserted(ops[1..]));
        }
      case NextOp =>
        calc {
          [q[0]] + res.0 + res.1;
          [q[0]] + (res.0 + res.1);
          [q[0]] + (q[1..] + Inserted(ops[1..]));
          { assert [q[0]] + q[1..] == q; }
          q + Inserted(ops[1..]);
        }
    }
  }

  /** A run of inserts from `q` returns nothing and leaves `q + xs`; whatever follows sees that queue. */
  lemma {:induction false} RunInserts<T>(q: seq<T>, xs: seq<T>, rest: seq<Op<T>>)
    ensures Run(q, Inserts(xs) + rest) == Run(q + xs, rest)
    decreases |xs|
  {
    if xs != [] {
      var ops := Inserts(xs) + rest;
      assert ops[0] == InsertOp(xs[0]);
      assert ops[1..] == Inserts(xs[1..]) + rest;
      RunInserts(q + [xs[0]], xs[1..], rest);
      assert q + [xs[0]] + xs[1..] == q + xs;
      match Run(q + [xs[0]], ops[1..])
      case None =>
      case Some(res) => assert [] + res.0 == res.0;
    } else {
      assert Inserts(xs) + rest == rest && q + xs == q;
    }
  }

  /** `n` calls of `next` on `q` return its first `n` elements when there are that many, and trap otherwise. */
  lemma {:induction false} RunNexts<T>(q: seq<T>, n: nat)
    ensures n <= |q| ==> Run(q, Nexts(n)) == Some((q[..n], q[n..]))
    ensures n > |q| ==> Run(q, Nexts(n)) == None
    decreases n
  {
    if n > 0 {
      var ops: seq<Op<T>> := Nexts(n);
      assert ops[0] == NextOp;
      assert ops[1..] == Nexts(n - 1);
      if q != [] {
        RunNexts(q[1..], n - 1);
        if n <= |q| {
          assert [q[0]] + q[1..][..n - 1] == q[..n];
          assert q[1..][n - 1..] == q[n..];
        }
      }
    } else {
      assert q[..0] == [] && q[0..] == q;
    }
  }

  /**
   * First in, first out: inserting `xs` into `q` and then calling `next`
   * `n` times returns the first `n` elements of `q + xs` in order and leaves
   * the rest, exactly when there are at least `n` of them; with more calls
   * the run traps.
   */
  lemma InsertsThenNexts<T>(q: seq<T>, xs: seq<T>, n: nat)
    ensures n <= |q| + |xs| ==> Run(q, Inserts(xs) + Nexts(n)) == Some(((q + xs)[..n], (q + xs)[n..]))
    ensures n > |q| + |xs| ==> Run(q, Inserts(xs) + Nexts(n)) == None
  {
    RunInserts(q, xs, Nexts(n));
    RunNexts(q + xs, n);
  }

  /** From an empty queue, `|xs|` inserts followed by `|xs|` nexts return `xs` in insertion order and leave the queue empty. */
  lemma FifoOrder<T>(xs: seq<T>)
    ensures Run([], Inserts(xs) + Nexts(|xs|)) == Some((xs, []))
  {
    InsertsThenNexts([], xs, |xs|);
    var all: seq<T> := [] + xs;
    assert all == xs && all[..|xs|] == xs && all[|xs|..] == [];
  }
}
