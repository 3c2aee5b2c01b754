# Swifty-AsyncTasks: a Dafny model of the executor

Swifty-AsyncTasks is a small executor service in Swift, shaped after Java's
`ExecutorService`. A fixed set of worker threads pulls closures from a shared
`ArrayBlockingQueue`. Callers submit either a `Runnable`, which runs and is
forgotten, or a `Callable`. For a callable they get back a `Future` that the
worker fills in.

This project models that executor one locked call at a time. Each call on
the queue or a future is one atomic step, so threads and locks are not part
of the model.

- `wrappers.dfy` (module `Wrappers`): `Option`, which stands for Swift's `T?`, and `Min`.
- `queue.dfy` (module `BlockingQueue`): the class `ArrayBlockingQueue<T>`,
  whose `items` field holds the Swift `array` and is changed in place by
  `Insert` and `Next`. Beside it is a reference semantics for runs of
  calls (`Step`, `Run`). The lemmas over `Run` state first-in, first-out
  order, and they state that the queue never loses, duplicates or reorders
  an element.
- `future.dfy` (module `Futures`): the class `Future<T>`. Its `isSet` flag
  says whether the lock taken in `init` has been released.
- `executor.dfy` (module `Executor`): `ExecutorService<R>`, `SwiftyThread<R>`
  and the work items that `submit` enqueues.
  - Task bodies are opaque. A runnable is its identity. A callable is its
    identity and the value its `call()` returns.
  - Two ghost logs record the identities of the submitted and of the
    dispatched tasks.
  - The executor's invariant `Valid()` says that the dispatched tasks
    followed by the queued ones are exactly the submitted ones, in
    submission order. It also says that every queued callable has its own
    future, and that this future is still unset.
  - A worker's pass through `main` is `Step`, and `MainLoop` runs a given
    number of passes.
  - `NextTask` and `Poll` give the dispatch semantics as functions.

Some behaviour of the code is easy to mistake for a fuller shutdown, and the model keeps it as written:
- `submit` after `shutdownNow` is accepted.
- `shutdownNow` only sets each thread's cancelled flag, and `main` never reads that flag. In the model, `SwiftyThread.Step` neither requires nor changes `cancelled`.
- `shutdownNow` does not release callers waiting in `get()`. The workers never stop, so such a caller returns once a worker runs its task; with no workers it waits forever.
- `init(threadCount: 0)` builds no workers, and a negative count traps.

## Model

| member | source | states |
|---|---|---|
| `BlockingQueue.ArrayBlockingQueue.constructor` | asynctasks.swift:85-88 | A new queue holds no elements. |
| `BlockingQueue.ArrayBlockingQueue.Insert` | asynctasks.swift:90-94 | The contents become the old contents with the element at the tail, the size grows by exactly one, and this is the `insert` step of the reference semantics. |
| `BlockingQueue.ArrayBlockingQueue.Next` | asynctasks.swift:96-100 | Requires a non-empty queue, because `remove(at: 0)` traps on an empty one. Returns the old head and leaves the old contents without it, matching the `next` step of the reference semantics. |
| `BlockingQueue.ArrayBlockingQueue.Size` | asynctasks.swift:102-106 | Returns the current element count, which is zero exactly when the queue is empty, and changes nothing. |
| `BlockingQueue.Step` | asynctasks.swift:90-100 | One call traps exactly when it is `next` on an empty queue. `insert` appends at the tail. A `next` that does not trap returns the head, and the head followed by the new contents is the old contents. |
| `BlockingQueue.RunConserves` | asynctasks.swift:90-100 | In any run of calls that does not trap, the values returned followed by the final contents equal the initial contents followed by everything inserted. Each `next` returns exactly one element, so nothing is lost, duplicated or reordered. |
| `BlockingQueue.RunInserts` | asynctasks.swift:90-94 | A run of inserts returns nothing and leaves exactly the old contents followed by the inserted elements, in call order. |
| `BlockingQueue.RunNexts` | asynctasks.swift:96-100 | `n` calls of `next` return the first `n` elements in order and leave the rest when there are at least `n` elements, and trap otherwise. |
| `BlockingQueue.InsertsThenNexts` | asynctasks.swift:90-100 | Inserting `xs` and then calling `next` `n` times returns the first `n` elements of old contents followed by `xs`, in that order, if and only if there are at least `n` of them. Otherwise the run traps. |
| `BlockingQueue.FifoOrder` | asynctasks.swift:90-100 | From an empty queue, inserting `xs` and then calling `next` `|xs|` times returns exactly `xs` in insertion order and leaves the queue empty. |
| `Futures.Future.constructor` | asynctasks.swift:124-132 | A new future is unset (`init` takes its lock) and holds `nil`. |
| `Futures.Future.Set` | asynctasks.swift:140-143 | Requires the future to be unset, because a second `set` would unlock a lock that is not held. Afterwards the future is set and holds the given value. |
| `Futures.Future.Get` | asynctasks.swift:134-138 | Only returns once the future is set. It then returns the stored value and changes nothing. |
| `Futures.SetThenGet` | asynctasks.swift:134-143 | After `set(t)` on an unset future, repeated `get()` calls all return `t`. |
| `Executor.NextTask` | asynctasks.swift:35-41 | `getNextTask` returns `nil` exactly when the queue is empty and then leaves it unchanged. Otherwise it returns the head and leaves the rest. It calls `next()` exactly when `next()` cannot trap, and returns what `next()` returns. |
| `Executor.PollDrains` | asynctasks.swift:35-41 | `n` successive `getNextTask` calls hand out the first `n` queued tasks (all of them when `n` is larger), each exactly once and in queue order, and leave the rest. Calls on an empty queue return `nil` and change nothing. |
| `Executor.ExecutorService.constructor` | asynctasks.swift:18-29 | Requires a non-negative count, because `0..<threadCount` traps on a negative one. Builds exactly `threadCount` fresh, pairwise distinct, uncancelled workers that point back to this executor, with an empty queue, and establishes the invariant. |
| `Executor.ExecutorService.GetNextTask` | asynctasks.swift:35-41 | The result and the new queue are `NextTask` of the old queue. A dispatched task is logged once, and the invariant is kept. A dispatched callable's future is unset and belongs to no task still queued. |
| `Executor.ExecutorService.SubmitCallable` | asynctasks.swift:43-48 | Appends exactly one work item at the tail and leaves the queued items unchanged and in order. That item pairs the callable with a fresh, unset future, which is returned. The invariant is kept. |
| `Executor.ExecutorService.SubmitRunnable` | asynctasks.swift:50-53 | Appends exactly one work item wrapping the runnable at the tail and leaves the queued items unchanged and in order. The invariant is kept. |
| `Executor.ExecutorService.ShutdownNow` | asynctasks.swift:55-59 | Every worker is marked cancelled. The executor's own state and the queue are unchanged. |
| `Executor.SwiftyThread.constructor` | asynctasks.swift:66-70 | A new worker points to its executor and is not cancelled. |
| `Executor.SwiftyThread.Cancel` | asynctasks.swift:57 | Marks the worker cancelled. |
| `Executor.SwiftyThread.Step` | asynctasks.swift:72-81 | One pass of the worker loop. On an empty queue nothing changes. Otherwise the head task is removed and logged as dispatched, and a callable's future is set to the callable's result. That future is the only one it may change, and the futures of the tasks still queued are unchanged. The invariant is kept, and the cancelled flag plays no part. |
| `Executor.SwiftyThread.MainLoop` | asynctasks.swift:72-81 | `n` passes do what `n` calls of `getNextTask` do (`Poll`). The tasks handed out are run in queue order, their identities are appended to the dispatch log, and every callable among them has its future set to its result. The tasks left stay queued, with their futures unchanged. |
| `Executor.SubmitRunGet` | asynctasks.swift:43-48 | `submit(callable)` onto a queue holding `n` tasks, followed by `n + 1` worker passes, runs every earlier task first, in order, and then the callable, leaving the queue empty and the executor's invariant kept. The caller's `get()` then returns exactly what the callable computed. |
| `Executor.SplitPollRace` | asynctasks.swift:35-41 | The source's `getNextTask` checks the size and calls `next()` under separate lock acquisitions. With two workers and one queued task, the schedule 0, 1, 0, 1 makes the second `next()` run on an empty queue and trap. |

## Findings

| source | as written | input that shows it | evidently intended | confidence | as-written member | corrected member |
|---|---|---|---|---|---|---|
| asynctasks.swift:35-41 | `getNextTask` calls `queue.size()` and then `queue.next()`, each of which takes and releases the queue lock on its own. | Two workers and a queue holding one task. Worker 0 sees size 1, worker 1 sees size 1, worker 0 takes the task, and worker 1 calls `next()` on the empty queue, so `remove(at: 0)` traps. | The size check and the removal happen under one acquisition of the lock, so `next()` never runs on an empty queue. | high (not executed) | `Executor.SplitPollRace` | `Executor.PollDrains` |

`Executor.ExecutorService.GetNextTask` calls `Size()` and then `Next()`, as the
source does. Run by one worker at a time, that is the code as written, and
it matches `NextTask`. The two calls differ from `NextTask` only when other
workers' calls can fall between them. `SplitStep` models that interleaving.
The corrected dispatch is `NextTask` taken as one atomic step: it calls
`next()` only when `next()` cannot trap. `PollDrains` proves that any
sequence of such steps, from any workers, hands out every queued task exactly
once and in order.

## Left out

- Threads, `Thread.start()`, `QualityOfService` and `Thread.sleep`: these are OS scheduling and timing. The idle branch of the worker loop changes no state and is modelled as a no-op.
- The `NSLock` spin loops (`while (!lock.try()) { }`) and mutual exclusion: every locked method is one atomic step. The race between separately locked calls is stated under Findings.
- `Futures.Future.Get` waiting before `set`: the wait is modelled as the precondition `isSet`, not as a blocked thread.
- `deinit` calling `shutdownNow`: it depends on object lifetime in the Swift runtime.
- The `print` tracing: it is logging only.
- The `Runnable` and `Callable` base classes and the `CustomRunnable` and `CustomCallable` demo subclasses: a runnable is modelled as an identity, and a callable as an identity with the value its `call()` returns. Running a runnable has no effect in the model beyond being dispatched.
- `Executor.ExecutorService.SubmitCallable`: Swift's `submit<T>` is generic per call. The model fixes one callable result type `R` per executor.
- `Executor.SwiftyThread.MainLoop`: Swift's `while (true)` never ends. The model runs a given number of passes.
- `BlockingQueue.ArrayBlockingQueue.Size`: Swift's `Int` is 64 bits wide. The count is unbounded in the model, because no array can reach that many elements.
- A thread's `isCancelled` flag is Foundation state. It is modelled as the field `cancelled`, which `cancel()` sets.
