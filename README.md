# workerpool in Dafny

A model of the generic worker pool of `workerpool` (Go) and of its timed variant, with
proofs about both.

- **Pool** (`pool.go`). A bounded FIFO channel of tasks has capacity equal to the worker count. A
  wait-group counter counts the running loops. Worker loops repeatedly take either the
  cancellation case or the front task, which they hand to the worker function. `Start` spawns
  one loop per worker, or none when the worker is nil. `Close` waits for the counter to reach
  zero and then closes the channel.
- **TimedPool** (`timed_pool.go`). A pool is fed by a dispatch loop:
  - The dispatch loop ticks once straight away, then once each time the ticker fires, until the
    context is done.
  - A tick calls the dispatcher.
  - On an error with a handler set, it calls the handler and stops.
  - On an empty batch, it re-arms the ticker at ten times the base period.
  - Otherwise it pushes the batch in order, checking cancellation before each push. If every
    push goes ahead, it re-arms the ticker at the base period.
- **Shutdown**. How the goroutines left after cancellation can move, with the code as written
  and with the corrected send (see Findings).

The abstractions:
- Durations are whole milliseconds (`nat`).
- A context is reduced to what a select sees of it:
  - `ctxDone` and `preferDone` for a worker's select (Go picks at random among ready cases);
  - `cancelAt` for the pushes of a batch: the number of pushes that go ahead before the check
    sees the context done;
  - a `Round` (`DoneRound` or `Fire(batch, cancelAt)`) for each pass of the dispatch loop's
    select.
- The dispatcher's answer is an input `Batch(tasks, err)`.
- The worker, dispatcher and error-handler bodies are not modelled. Their calls are recorded:
  - `executed` holds the worker invocations, in order;
  - `handled` holds the errors passed to the handler;
  - `calls` counts dispatcher calls.
- A blocking operation becomes a precondition saying it can proceed. A panic (closing twice, a
  non-positive ticker period) also becomes a precondition.
- Each source file has two parts:
  - a datatype of abstract states, with functions for the operations, and lemmas over whole
    runs;
  - a class whose fields the methods update in place, as the Go code does. Each method is
    proved to move its state exactly as the matching function says.

Notes on the code, which the model follows:
- The backoff does not compound. `timed_pool.go:84` re-arms at the *base* period times ten,
  not at the current period times ten, so two empty batches in a row still give ten times the
  base.
- An error with a nil handler does not stop the tick (`timed_pool.go:78`). The tasks returned
  with it go through the empty and non-empty rules.
- Cancellation does not stop workers from taking tasks. When both cases of a worker's select
  are ready, Go may still pick the task (`pool.go:55-60`), so worker invocations can start after
  cancellation.
- A cancelled batch leaves the ticker as it was. The tick returns before `ticker.Reset`.

## Model

| member | source | states |
|---|---|---|
| `Pool.NewPool` | pool.go:19-25 | the new pool's capacity and worker count equal `workersCount`; the channel is empty and open, no loop runs, nothing has been submitted |
| `Pool.PoolState.QueueSize` | pool.go:70-72 | the queue length never exceeds the worker count |
| `Pool.PoolState.AddTask` | pool.go:65-67 | when there is room and the channel is open, the task goes at the back: the size rises by one, earlier elements are unchanged, the submitted history gains exactly that task, and nothing else changes |
| `Pool.PoolState.Iterate` | pool.go:51-62 | taking ctx.Done removes no task and lowers the wait group by exactly one; taking a task removes exactly the front, hands it to the worker and lowers the size by one; the submitted history and the invariant are kept |
| `Pool.PoolState.Add` | pool.go:46 | `wg.Add(n)` raises the counter by n and changes nothing else |
| `Pool.PoolState.Done` | pool.go:52 | `wg.Done()` lowers a positive counter by exactly one |
| `Pool.PoolState.Start` | pool.go:40-49 | with a nil worker the counter is unchanged; otherwise it rises by exactly `WorkersCount()`; the channel is untouched |
| `Pool.PoolState.Close` | pool.go:33-37 | allowed only once the counter is zero and the channel is open; afterwards the channel is closed and nothing else changes |
| `Pool.Step` | pool.go:40-67 | any one operation that can proceed (AddTask, a worker iteration, Start, Close) keeps the capacity and the worker flag and the bound on the channel; only AddTask adds to the submitted history, by exactly its task; worker invocations only grow |
| `Pool.Run` | pool.go:40-67 | a sequence of operations that all proceed ends with the capacity and worker flag it started with |
| `Pool.RunKeepsInvariant` | pool.go:22 | under any interleaving of AddTask, worker iterations, Start and Close that can proceed, the queue stays within capacity and the worker count never changes |
| `Pool.RunIsFifo` | pool.go:58-59 | under any such interleaving, the worker invocations followed by the queued tasks are exactly the earlier submissions followed by the added tasks, in order (FIFO, no loss, no duplication); worker invocations only grow |
| `Pool.WorkerPool.constructor` | pool.go:19-25 | the object's state is `NewPool(hasWorker, workersCount)` |
| `Pool.WorkerPool.WorkersCount` | pool.go:28-30 | returns the channel capacity fixed at construction (a `const`) |
| `Pool.WorkerPool.QueueSize` | pool.go:70-72 | returns the queue length, which is at most `WorkersCount()` |
| `Pool.WorkerPool.AddTask` | pool.go:65-67 | the in-place state moves as `PoolState.AddTask` says |
| `Pool.WorkerPool.Add` | pool.go:46 | the counter moves as `PoolState.Add` says |
| `Pool.WorkerPool.Done` | pool.go:52 | the counter moves as `PoolState.Done` says |
| `Pool.WorkerPool.Start` | pool.go:40-49 | the loop of `wg.Add(1)` calls leaves the state as `PoolState.Start` says |
| `Pool.WorkerPool.Iterate` | pool.go:51-62 | one worker-loop iteration moves the state as `PoolState.Iterate` says; `exited` is true exactly when the ctx.Done case was taken |
| `Pool.WorkerPool.Close` | pool.go:33-37 | the state moves as `PoolState.Close` says |
| `TimedPool.NewConfig` | timed_pool.go:29-43 | the base period is `periodReceivingTasks` milliseconds |
| `TimedPool.PushOne` | timed_pool.go:93 | one blocking push keeps the channel within its capacity |
| `TimedPool.PushOneAppends` | timed_pool.go:93 | one push of `x` on an open pool: with room, `x` goes at the back and nothing else changes; on a full channel a worker first takes the front task, then `x` goes at the back. Either way the submitted history gains exactly `x`, and the wait group and closed flag are unchanged |
| `TimedPool.Feed` | timed_pool.go:88-95 | pushing a batch keeps capacity, the invariant, the wait group and the closed flag; the submitted history gains the batch in order; with room for all of it, the queue is the old queue followed by the batch |
| `TimedPool.TickSpec` | timed_pool.go:76-97 | one dispatcher call per tick. An error with a handler calls the handler once and changes nothing else. Otherwise an empty batch sets the period to ten times the base, whatever it was. A batch cut by cancellation submits exactly its first `cancelAt` tasks and keeps the period. A complete batch is submitted in order and resets the period to base. The period stays in {base, 10*base} |
| `TimedPool.Rounds` | timed_pool.go:66-73 | the passes of the dispatch select keep the pool's capacity and worker flag; dispatcher calls and handled errors only grow |
| `TimedPool.DispatchSpec` | timed_pool.go:57-74 | `dispatch` calls the dispatcher at least once (the first tick runs before any wait) and keeps the pool's capacity and worker flag |
| `TimedPool.RoundsKeepArmed` | timed_pool.go:60-97 | over any sequence of ticks the period is always the base or ten times the base |
| `TimedPool.RoundsCount` | timed_pool.go:57-74 | the dispatch loop calls the dispatcher once per timer fire before the first ctx.Done. It lowers the wait group by one exactly when it returns. The pool keeps its invariant and capacity |
| `TimedPool.RoundsEnqueue` | timed_pool.go:66-95 | successive ticks submit, in tick order, exactly the enqueued prefix of each batch, and the pool stays FIFO |
| `TimedPool.DispatchTicksFirst` | timed_pool.go:57-74 | `dispatch` calls the dispatcher once before any wait, then once per fire. The ticker stays armed at base or 10*base. The pool receives the first batch's prefix, then those of the fired rounds |
| `TimedPool.BackoffDoesNotCompound` | timed_pool.go:83-85 | two empty batches in a row leave the period at ten times the base |
| `TimedPool.BackoffThenReset` | timed_pool.go:83-96 | with a 100 ms base, batches [1,2], [] and [3] arm the ticker at 100, 1000 and 100 ms, and the queue receives 1, 2, 3 in order |
| `TimedPool.HandledErrorChangesNothing` | timed_pool.go:77-81 | an error with a handler reaches the handler once, submits nothing and keeps the period |
| `TimedPool.CancelledBatchSubmitsPrefix` | timed_pool.go:88-92 | cancellation seen before the third push of five submits exactly the first two tasks and does not re-arm the ticker |
| `TimedPool.UnhandledErrorFallsThrough` | timed_pool.go:78 | with a nil handler, an error's tasks are pushed and the ticker is reset to base |
| `TimedPool.Ticker.constructor` | timed_pool.go:60 | `time.NewTicker(d)` arms the ticker at d, which must be positive |
| `TimedPool.Ticker.Reset` | timed_pool.go:84 | `ticker.Reset(d)` re-arms at d, which must be positive |
| `TimedPool.TimedPool.constructor` | timed_pool.go:29-43 | the configuration is `NewConfig(...)` and the embedded pool is `NewPool(worker, workersCount)` |
| `TimedPool.TimedPool.Start` | timed_pool.go:46-55 | with a nil dispatcher nothing changes (no workers, no dispatch loop); otherwise the pool's Start, then one more wait-group count |
| `TimedPool.TimedPool.Tick` | timed_pool.go:76-97 | the pool, ticker period, handler calls and dispatcher calls after `tick` are exactly those `TickSpec` gives |
| `TimedPool.TimedPool.PushBatch` | timed_pool.go:88-95 | the push loop stops exactly when cancellation is seen before a push; the pool is the old one fed the pushed prefix |
| `TimedPool.TimedPool.Dispatch` | timed_pool.go:57-74 | the loop returns exactly when a ctx.Done round occurs; the pool, handler calls and dispatcher calls are those of the first tick and the ticks that follow |
| `Shutdown.Sends` | timed_pool.go:57-94 | the moves of the code as written after cancellation: a worker returns or receives, the blocked send completes only with room in the channel, the dispatch select takes ticker.C (a tick that pushes nothing, since the check at timed_pool.go:89-91 sees ctx.Done) or ctx.Done. Any such move means the wait group is not yet zero |
| `Shutdown.SendsOrQuits` | timed_pool.go:88-94 | the corrected moves are exactly those of the code as written plus giving up a blocked send |
| `Shutdown.Next` | timed_pool.go:57-94 | a goroutine step after cancellation keeps the capacity and the bound on the channel, never raises the wait group, and a post-cancellation tick changes nothing; a finished or abandoned send returns the dispatch loop to its select (timed_pool.go:67-72) |
| `Shutdown.AsWrittenCloseHangs` | timed_pool.go:93 | as written, whenever the dispatch loop is blocked in a send on a full channel, the workers may all take ctx.Done. The run that follows is allowed, after it nothing can move, and the wait group stays at one |
| `Shutdown.AsWrittenCloseHangsWithOneWorker` | timed_pool.go:93 | the same for one worker and a full channel of capacity one: one ctx.Done by the worker leaves the wait group stuck at one |
| `Shutdown.SendsOrQuitsCanMove` | timed_pool.go:88-94 | with the send also selecting on ctx.Done, a move other than a tick is possible while the wait group is not zero |
| `Shutdown.SendsOrQuitsShutsDown` | timed_pool.go:57-94 | with that correction a run after cancellation makes at most `Measure(s)` moves other than ticks, a run of ticks alone changes nothing, and a run after which only ticks are possible has a zero wait group, so Close returns |

## Findings

| source | as written | input that shows it | evidently intended | confidence | as-written member | corrected member |
|---|---|---|---|---|---|---|
| timed_pool.go:88-94 | The cancellation check runs before the send. The send `pool.Pool.AddTask(tasks[i])` (pool.go:66) then waits only for room in the channel. | One worker, capacity one, channel full. The dispatch loop is in the send when the context is cancelled. The worker's select takes ctx.Done. Nothing can receive, the send never completes, the wait group stays at one, and `Close` blocks forever. | The send also gives way to ctx.Done, so after cancellation every goroutine reaches its return after a bounded number of moves other than ticks, and `Close` returns. | medium; not executed | `Shutdown.AsWrittenCloseHangs` | `Shutdown.SendsOrQuitsShutsDown` |

The main model (`TimedPool.TimedPool.PushBatch`) does not let cancellation land while a push is
blocked. When the channel is full, a worker receives before the push goes ahead. This matches
both the code as written and the corrected code whenever the workers are still running.

## Left out

- Goroutines and the randomness of `select` are not modelled. Each choice is an explicit input:
  `ctxDone`/`preferDone`, `cancelAt`, and `Round`.
- Cancellation is not forced to be monotone across rounds. The model allows more behaviours than
  the code, so its safety results still hold.
- Real time and timer jitter are left out. A ticker is only its period in milliseconds; a fire
  is a `Fire` round; `ticker.Stop` has nothing to model.
- `time.Duration`'s 64-bit nanosecond range is not modelled. Overflow of `periodReceivingTasks *
  10` needs an absurdly large period.
- The effects of the worker, dispatcher and error-handler functions are not modelled. These
  bodies are outside the core; only their calls are recorded.
- Worker failures (panics) are left out. The source defines no policy for them.
- An unbuffered channel is not modelled. With `workersCount == 0`, AddTask needs room, so it can
  never proceed. The real hand-off would also block, because `Start` spawns no worker. Go's
  panic on a negative channel size is ruled out by `workersCount: nat`.
- Receiving from a closed, empty channel is not modelled: worker loops started after `Close`
  would get zero values. That only happens when `Start` is misused after `Close`.
- Pool.PoolState.Iterate: requires a positive wait-group count. That count includes the dispatch
  loop, so the model cannot tell a live worker loop from the dispatch loop.
- TimedPool.TimedPool.PushBatch: a worker receives only when the channel is full before a push,
  which is one schedule among many. `Pool.RunIsFifo` covers the other interleavings of producers
  and workers. If the worker is nil, a tick may push no more than the room left, since otherwise
  the real tick would block forever.
- Shutdown.SendsOrQuitsShutsDown: bounds only the moves other than ticks after cancellation. The
  dispatch select may take ticker.C over ctx.Done any number of times; because Go picks at random
  among ready cases, it returns with probability one, which is not modelled.
- `group.go` and `group_test.go` (the wait-group helper and its timing tests) are not part of this
  model.
