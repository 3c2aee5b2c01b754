/**
 * The thread pool of asynctasks.swift: `ExecutorService`, its worker
 * `SwiftyThread`, and the work items that `submit` puts on the shared
 * `ArrayBlockingQueue`.
 *
 * Task bodies are opaque: a runnable is its identity, a callable is its
 * identity and the value its `call()` returns. Running a task is taking it
 * from the queue (recorded in the ghost log `dispatched`) and, for a
 * callable, storing its value in the future that `submit` handed out.
 * Each locked queue call is one atomic step; threads, sleeping and the
 * spinning on locks are not modelled.
 */
module Executor {
  import opened Wrappers
  import opened BlockingQueue
  import opened Futures

  /** A fire-and-forget task (Swift `Runnable`), known by its identity. */
  datatype Runnable = Runnable(id: nat)

  /** A value-producing task (Swift `Callable<T>`): its identity and what `call()` returns. */
  datatype Callable<R> = Callable(id: nat, result: Option<R>)

  /** The closure that a `submit` builds and enqueues. */
  datatype WorkItem<R> =
    | RunTask(runnable: Runnable)
    | CallTask(callable: Callable<R>, future: Future<R>)
  {
    function Id(): nat {
      match this
      case RunTask(r) => r.id
      case CallTask(c, _) => c.id
    }
  }

  /** The identities of a run of work items, in order. */
  function Ids<R>(items: seq<WorkItem<R>>): (ids: seq<nat>)
    ensures |ids| == |items|
  {
    if items == [] then [] else [items[0].Id()] + Ids(items[1..])
  }

  /** Identities distribute over concatenation. */
  lemma {:induction false} IdsAppend<R>(a: seq<WorkItem<R>>, b: seq<WorkItem<R>>)
    ensures Ids(a + b) == Ids(a) + Ids(b)
    decreases |a|
  {
    if a != [] {
      assert (a + b)[1..] == a[1..] + b;
      IdsAppend(a[1..], b);
    } else {
      assert a + b == b;
    }
  }

  /** The futures that queued callables will set when they run. */
  ghost function PendingFutures<R>(items: seq<WorkItem<R>>): set<Future<R>>
  {
    set i | 0 <= i < |items| && items[i].CallTask? :: items[i].future
  }

  /** No two queued callables share a future. */
  ghost predicate FuturesDistinct<R>(items: seq<WorkItem<R>>)
  {
    forall i, j :: 0 <= i < j < |items| && items[i].CallTask? && items[j].CallTask? ==>
      items[i].future != items[j].future
  }

  /** Every queued callable's future is still unset. */
  ghost predicate AllUnset<R>(items: seq<WorkItem<R>>)
    reads PendingFutures(items)
  {
    forall i :: 0 <= i < |items| && items[i].CallTask? ==> !items[i].future.isSet
  }

  /** Taking the head keeps the queue's futures distinct and unset. */
  lemma TailKeepsFutures<R>(items: seq<WorkItem<R>>)
    requires items != [] && FuturesDistinct(items) && AllUnset(items)
    ensures FuturesDistinct(items[1..]) && AllUnset(items[1..])
    ensures items[0].CallTask? ==> !items[0].future.isSet && items[0].future !in PendingFutures(items[1..])
  {
    PendingFuturesOfSuffix(items, 1);
  }

  /** The future the head task will set when it runs, if the head is a callable. */
  ghost function HeadFuture<R>(items: seq<WorkItem<R>>): set<Future<R>>
  {
    if items != [] && items[0].CallTask? then {items[0].future} else {}
  }

  /** What running `item` leaves behind: a callable's future holds the callable's result. */
  ghost predicate Ran<R>(item: WorkItem<R>)
    reads if item.CallTask? then {item.future} else {}
  {
    item.CallTask? ==> item.future.isSet && item.future.future == item.callable.result
  }

  lemma PendingFuturesOfSuffix<R>(items: seq<WorkItem<R>>, k: nat)
    requires k <= |items|
    ensures PendingFutures(items[k..]) <= PendingFutures(items)
    ensures FuturesDistinct(items) ==> FuturesDistinct(items[k..])
    ensures FuturesDistinct(items) ==>
      forall j :: 0 <= j < k && items[j].CallTask? ==> items[j].future !in PendingFutures(items[k..])
  {
    forall f | f in PendingFutures(items[k..]) ensures f in PendingFutures(items) {
      var i :| 0 <= i < |items[k..]| && items[k..][i].CallTask? && items[k..][i].future == f;
      assert items[k + i] == items[k..][i];
    }
  }

  lemma PendingFuturesAppend<R>(items: seq<WorkItem<R>>, item: WorkItem<R>)
    ensures PendingFutures(items + [item]) ==
      PendingFutures(items) + (if item.CallTask? then {item.future} else {})
  {
    var all := items + [item];
    forall f | f in PendingFutures(items) ensures f in PendingFutures(all) {
      var i :| 0 <= i < |items| && items[i].CallTask? && items[i].future == f;
      assert all[i] == items[i];
    }
    if item.CallTask? {
      assert all[|items|] == item;
    }
  }

  /**
   * What `getNextTask` does to the queued items: `nil` and no change when
   * the queue is empty, otherwise the head and the rest. It calls `next()`
   * exactly when `next()` cannot trap, and returns what `next()` returns.
   */
  function NextTask<T>(items: seq<T>): (r: (Option<T>, seq<T>))
    ensures r.0.None? <==> items == []
    ensures r.0.None? ==> r.1 == items
    ensures r.0.Some? ==> [r.0.value] + r.1 == items
    ensures r.0.Some? <==> Step(items, NextOp).Done?
    ensures r.0.Some? ==> Step(items, NextOp) == Done(r.0, r.1)
  {
    if |items| > 0 then (Some(items[0]), items[1..]) else (None, items)
  }

  /** `n` successive `getNextTask` calls on `items`: the tasks handed out, in order, and what is left. */
  function Poll<T>(items: seq<T>, n: nat): (seq<T>, seq<T>)
    decreases n
  {
    if n == 0 then ([], items)
    else
      var (t, rest) := NextTask(items);
      var (later, left) := Poll(rest, n - 1);
      ((if t.Some? then [t.value] else []) + later, left)
  }

  /**
   * Dispatch hands out every queued task exactly once and in queue order:
   * `n` polls return the first `n` items (all of them when `n` is large)
   * and leave the rest; polls on an empty queue return `nil` and change
   * nothing.
   */
  lemma {:induction false} PollDrains<T>(items: seq<T>, n: nat)
    ensures Poll(items, n) == (items[..Min(n, |items|)], items[Min(n, |items|)..])
    decreases n
  {
    if n == 0 {
      assert items[..0] == [] && items[0..] == items;
    } else if items == [] {
      PollDrains(items, n - 1);
      assert [] + Poll(items, n - 1).0 == Poll(items, n - 1).0;
    } else {
      PollDrains(items[1..], n - 1);
      var k := Min(n, |items|);
      assert [items[0]] + items[1..][..k - 1] == items[..k];
      assert items[1..][k - 1..] == items[k..];
    }
  }

  class ExecutorService<R> {
    /** The workers, built once by the constructor. */
    var threads: seq<SwiftyThread<R>>
    /** The shared queue of work items; the Swift field is never reassigned after `init`. */
    const queue: ArrayBlockingQueue<WorkItem<R>>
    /** Identities of all submitted tasks, in submission order. */
    ghost var submitted: seq<nat>
    /** Identities of the tasks handed to workers, in dispatch order. */
    ghost var dispatched: seq<nat>

    /**
     * Every submitted task is either dispatched or still queued, exactly
     * once and in submission order; every queued callable owns its own
     * future, and that future is still unset.
     */
    ghost predicate Valid()
      reads this, queue, PendingFutures(queue.items)
    {
      && dispatched + Ids(queue.items) == submitted
      && FuturesDistinct(queue.items)
      && AllUnset(queue.items)
    }

    /** Builds exactly `threadCount` workers around an empty queue; Swift's `0..<threadCount` traps on a negative count. */
    constructor (threadCount: int := 1)
      requires threadCount >= 0
      ensures Valid()
      ensures |threads| == threadCount
      ensures forall a, b :: 0 <= a < b < |threads| ==> threads[a] != threads[b]
      ensures forall t :: t in threads ==> fresh(t) && t.delegate == this && !t.cancelled
      ensures fresh(queue) && queue.items == []
      ensures submitted == [] && dispatched == []
    {
      queue := new ArrayBlockingQueue();
      threads := [];
      submitted, dispatched := [], [];
      new;
      for i := 0 to threadCount
        invariant |threads| == i
        invariant forall a, b :: 0 <= a < b < |threads| ==> threads[a] != threads[b]
        invariant forall t :: t in threads ==> fresh(t) && t.delegate == this && !t.cancelled
        invariant queue.items == [] && submitted == [] && dispatched == []
      {
        var t := new SwiftyThread(this);
        threads := threads + [t];
      }
    }

    /** Takes the head task if there is one (a size check guarding `next()`), otherwise returns `nil`. */
    method GetNextTask() returns (task: Option<WorkItem<R>>)
      requires Valid()
      modifies this, queue
      ensures Valid()
      ensures (task, queue.items) == NextTask(old(queue.items))
      ensures dispatched == old(dispatched) + (if task.Some? then [task.value.Id()] else [])
      ensures submitted == old(submitted) && threads == old(threads)
      ensures task.Some? && task.value.CallTask? ==>
        !task.value.future.isSet && task.value.future !in PendingFutures(queue.items)
    {
      var n := queue.Size();
      if n > 0 {
        ghost var q := queue.items;
        TailKeepsFutures(q);
        var t := queue.Next();
        task := Some(t);
        dispatched := dispatched + [t.Id()];
      } else {
        task := None;
      }
    }

    /** Wraps the callable as one work item that sets a fresh, unset future, enqueues it, and returns the future. */
    method SubmitCallable(callable: Callable<R>) returns (future: Future<R>)
      requires Valid()
      modifies this, queue
      ensures Valid()
      ensures fresh(future) && !future.isSet && future.future == None
      ensures queue.items == old(queue.items) + [CallTask(callable, future)]
      ensures submitted == old(submitted) + [callable.id]
      ensures dispatched == old(dispatched) && threads == old(threads)
    {
      future := new Future();
      var task := CallTask(callable, future);
      PendingFuturesAppend(queue.items, task);
      IdsAppend(queue.items, [task]);
      queue.Insert(task);
      submitted := submitted + [callable.id];
    }

    /** Wraps the runnable as one work item and enqueues it. */
    method SubmitRunnable(runnable: Runnable)
      requires Valid()
      modifies this, queue
      ensures Valid()
      ensures queue.items == old(queue.items) + [RunTask(runnable)]
      ensures submitted == old(submitted) + [runnable.id]
      ensures dispatched == old(dispatched) && threads == old(threads)
    {
      var task := RunTask(runnable);
      PendingFuturesAppend(queue.items, task);
      IdsAppend(queue.items, [task]);
      queue.Insert(task);
      submitted := submitted + [runnable.id];
    }

    /** Marks every worker cancelled; the queue, the futures and the worker list stay as they are. */
    method ShutdownNow()
      modifies set t | t in threads
      ensures forall t :: t in threads ==> t.cancelled
      ensures unchanged(this, queue)
    {
      for i := 0 to |threads|
        invariant forall k :: 0 <= k < i ==> threads[k].cancelled
      {
        threads[i].Cancel();
      }
    }
  }

  class SwiftyThread<R> {
    /** The executor this worker pulls tasks from. */
    const delegate: ExecutorService<R>
    /** Swift's `Thread.isCancelled`, set by `cancel()`. */
    var cancelled: bool

    constructor (delegate: ExecutorService<R>)
      ensures this.delegate == delegate && !cancelled
    {
      this.delegate := delegate;
      cancelled := false;
    }

    method Cancel()
      modifies this
      ensures cancelled
    {
      cancelled := true;
    }

    /**
     * One iteration of `main`: if the executor hands out a task, run it
     * (a callable sets its future to its result); otherwise nothing changes.
     * The cancelled flag is neither read nor changed.
     */
    method Step()
      requires delegate.Valid()
      modifies delegate, delegate.queue, HeadFuture(delegate.queue.items)
      ensures delegate.Valid()
      ensures old(delegate.queue.items) == [] ==>
        delegate.queue.items == [] && delegate.dispatched == old(delegate.dispatched)
      ensures old(delegate.queue.items) != [] ==>
        && delegate.queue.items == old(delegate.queue.items)[1..]
        && delegate.dispatched == old(delegate.dispatched) + [old(delegate.queue.items)[0].Id()]
        && Ran(old(delegate.queue.items)[0])
      ensures forall j :: 1 <= j < |old(delegate.queue.items)| && old(delegate.queue.items)[j].CallTask? ==>
        unchanged(old(delegate.queue.items)[j].future)
      ensures delegate.submitted == old(delegate.submitted) && delegate.threads == old(delegate.threads)
    {
      var task := delegate.GetNextTask();
      match task
      case None =>
      case Some(item) =>
        match item
        case RunTask(_) =>
        case CallTask(callable, future) =>
          future.Set(callable.result);
    }

    /**
     * One pass of the worker loop, seen against the queue `q` that
     * `MainLoop` started from: the first `k` tasks of `q` have already run,
     * and the pass runs task `k` if there is one.
     */
    method PassOver(ghost q: seq<WorkItem<R>>, ghost d: seq<nat>, ghost k: nat) returns (ghost k': nat)
      requires delegate.Valid() && FuturesDistinct(q) && k <= |q|
      requires delegate.queue.items == q[k..] && delegate.dispatched == d + Ids(q[..k])
      requires forall j :: 0 <= j < k ==> Ran(q[j])
      modifies delegate, delegate.queue, HeadFuture(delegate.queue.items)
      ensures k' == if k < |q| then k + 1 else k
      ensures delegate.Valid()
      ensures delegate.queue.items == q[k'..] && delegate.dispatched == d + Ids(q[..k'])
      ensures forall j :: 0 <= j < k' ==> Ran(q[j])
      ensures forall j :: k' <= j < |q| && q[j].CallTask? ==> unchanged(q[j].future)
      ensures delegate.submitted == old(delegate.submitted) && delegate.threads == old(delegate.threads)
    {
      Step();
      k' := k;
      if k < |q| {
        ghost var head := q[k];
        assert q[k..][0] == head;
        assert q[k..][1..] == q[k + 1..];
        assert forall j :: k < j < |q| ==> q[j] == q[k..][j - k];
        assert q[..k + 1] == q[..k] + [head];
        IdsAppend(q[..k], [head]);
        forall j | 0 <= j < k
          ensures Ran(q[j])
        {
          assert q[j].CallTask? && head.CallTask? ==> q[j].future != head.future;
        }
        k' := k + 1;
      }
    }

    /**
     * `iterations` passes of the worker loop of `main` (the Swift loop never
     * ends) do what `iterations` polls of `getNextTask` do: the tasks `Poll`
     * hands out are run in that order, and what `Poll` leaves stays queued
     * with its futures untouched.
     */
    method MainLoop(iterations: nat)
      requires delegate.Valid()
      modifies delegate, delegate.queue, PendingFutures(delegate.queue.items)
      ensures delegate.Valid()
      ensures
        var (taken, left) := Poll(old(delegate.queue.items), iterations);
        && delegate.queue.items == left
        && delegate.dispatched == old(delegate.dispatched) + Ids(taken)
        && forall j :: 0 <= j < |taken| ==> Ran(taken[j])
      ensures
        var q := old(delegate.queue.items);
        forall j :: |Poll(q, iterations).0| <= j < |q| && q[j].CallTask? ==> unchanged(q[j].future)
      ensures delegate.submitted == old(delegate.submitted) && delegate.threads == old(delegate.threads)
    {
      ghost var q := delegate.queue.items;
      ghost var d := delegate.dispatched;
      ghost var k := 0;
      var i := 0;
      while i < iterations
        invariant i <= iterations && k == Min(i, |q|)
        invariant delegate.Valid()
        invariant FuturesDistinct(q)
        invariant delegate.queue.items == q[k..]
        invariant delegate.dispatched == d + Ids(q[..k])
        invariant forall j :: 0 <= j < k ==> Ran(q[j])
        invariant forall j :: k <= j < |q| && q[j].CallTask? ==> unchanged(q[j].future)
        invariant delegate.submitted == old(delegate.submitted) && delegate.threads == old(delegate.threads)
      {
        if k < |q| && q[k].CallTask? {
          assert q[k].future in PendingFutures(q);
        }
        k := PassOver(q, d, k);
        i := i + 1;
      }
      PollDrains(q, iterations);
    }
  }

  /**
   * `submit(callable)` onto a queue holding `n` tasks, then `n + 1` worker
   * passes: every earlier task runs first, in order, then the callable, and
   * the caller's `get()` returns what the callable computed.
   */
  method SubmitRunGet<R>(pool: ExecutorService<R>, worker: SwiftyThread<R>, callable: Callable<R>)
    returns (r: Option<R>)
    requires pool.Valid() && worker.delegate == pool
    modifies pool, pool.queue, PendingFutures(pool.queue.items)
    ensures pool.Valid()
    ensures r == callable.result
    ensures pool.queue.items == []
    ensures pool.dispatched == old(pool.dispatched) + Ids(old(pool.queue.items)) + [callable.id]
  {
    ghost var q := pool.queue.items;
    var n := pool.queue.Size();
    var future := pool.SubmitCallable(callable);
    ghost var all := pool.queue.items;
    PendingFuturesAppend(q, CallTask(callable, future));
    worker.MainLoop(n + 1);
    PollDrains(all, n + 1);
    assert all[..n + 1] == all && all[n + 1..] == [];
    assert all[n] == CallTask(callable, future);
    IdsAppend(q, [CallTask(callable, future)]);
    r := future.Get();
  }

  // getNextTask as written: `size()` and `next()` take the queue's lock
  // separately, so two workers can both pass the size check on a queue
  // holding one task.

  /** Where a worker is inside getNextTask as written: before the size check, or past it and about to call `next()`. */
  datatype Phase = Polling | SawTask

  /** The shared queue and each worker's phase; `Trapped` once some `next()` ran on an empty queue. */
  datatype Interleaving<T> = Trapped | At(items: seq<T>, phases: seq<Phase>)

  /** Worker `w` takes its next locked step of getNextTask as written. */
  function SplitStep<T>(s: Interleaving<T>, w: nat): Interleaving<T>
  {
    match s
    case Trapped => Trapped
    case At(items, phases) =>
      if w >= |phases| then s
      else match phases[w]
        case Polling => if |items| > 0 then At(items, phases[w := SawTask]) else s
        case SawTask =>
          match Step(items, NextOp)
          case Trap => Trapped
          case Done(_, rest) => At(rest, phases[w := Polling])
  }

  /** Runs the workers' steps in the order `schedule` names them. */
  function RunSchedule<T>(s: Interleaving<T>, schedule: seq<nat>): Interleaving<T>
    decreases |schedule|
  {
    if schedule == [] then s else RunSchedule(SplitStep(s, schedule[0]), schedule[1..])
  }

  /**
   * Two workers and one queued task: both pass the size check, the first
   * takes the task, and the second `next()` runs on the empty queue.
   */
  lemma SplitPollRace<T>(x: T)
    ensures RunSchedule(At([x], [Polling, Polling]), [0, 1, 0, 1]) == Trapped
  {
    var s0 := At([x], [Polling, Polling]);
    var s1 := SplitStep(s0, 0);
    assert s1 == At([x], [SawTask, Polling]);
    var s2 := SplitStep(s1, 1);
    assert s2 == At([x], [SawTask, SawTask]);
    var s3 := SplitStep(s2, 0);
    assert s3 == At([], [Polling, SawTask]);
    assert SplitStep(s3, 1) == Trapped;
    assert [0, 1, 0, 1][1..] == [1, 0, 1];
    assert [1, 0, 1][1..] == [0, 1];
    assert [0, 1][1..] == [1];
    assert [1][1..] == [];
  }
}
