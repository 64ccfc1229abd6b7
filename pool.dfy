/**
 * The worker pool of pool.go: a bounded FIFO channel of tasks whose capacity is the
 * worker count, a wait-group counter of running loops, and the worker loops that take
 * tasks from the front of the channel and hand them to the worker function.
 *
 * `PoolState` is the abstract value of a pool and its member functions say what each
 * operation does to it; `WorkerPool` is the object the source mutates in place, and each
 * of its methods is proved to move its state exactly as the matching function says.
 */
module Pool {

  import opened Wrappers

  /** The abstract state of a pool. */
  datatype PoolState<T> = PoolState(
    hasWorker: bool,     // the worker function is non-nil
    capacity: nat,       // cap(tasks), fixed when the pool is made
    queue: seq<T>,       // the buffered tasks, front first
    running: nat,        // the wait-group counter
    closed: bool,        // close(tasks) has happened
    executed: seq<T>)    // the worker invocations so far, in order
  {
    /** The channel never holds more than its capacity. */
    predicate Invariant() {
      |queue| <= capacity
    }

    /** Every task ever added, in the order it was added: those already handed to the
        worker followed by those still waiting. */
    function Submitted(): seq<T> {
      executed + queue
    }

    function WorkersCount(): nat {
      capacity
    }

    function QueueSize(): (n: nat)
      requires Invariant()
      ensures n <= WorkersCount()
    {
      |queue|
    }

    /** AddTask does not block (the buffer has room) and does not panic (the channel is open). */
    predicate CanAdd() {
      !closed && |queue| < capacity
    }

    /** `pool.tasks <- task`: the task goes to the back. */
    function AddTask(task: T): (s: PoolState<T>)
      requires CanAdd()
      ensures s.Invariant() && s.QueueSize() == |queue| + 1
      ensures s.queue[..|queue|] == queue && s.queue[|queue|] == task
      ensures s.Submitted() == Submitted() + [task] && s.executed == executed
      ensures s.capacity == capacity && s.running == running && s.closed == closed
      ensures s.hasWorker == hasWorker
    {
      this.(queue := queue + [task])
    }

    /** One iteration of the worker loop can run: a loop exists and its select has a ready case. */
    predicate CanIterate(ctxDone: bool) {
      hasWorker && running > 0 && (ctxDone || queue != [])
    }

    /** Whether the iteration takes the cancellation case of the select. Go picks uniformly
        among the ready cases; `preferDone` is that choice. */
    static predicate TakesDone(queue: seq<T>, ctxDone: bool, preferDone: bool) {
      ctxDone && (queue == [] || preferDone)
    }

    /** One iteration of `start`: on cancellation the loop returns and its deferred `wg.Done`
        runs; otherwise the front task is received and handed to the worker. */
    function Iterate(ctxDone: bool, preferDone: bool): (s: PoolState<T>)
      requires CanIterate(ctxDone)
      ensures s.capacity == capacity && s.closed == closed && s.hasWorker == hasWorker
      ensures s.Submitted() == Submitted()
      ensures TakesDone(queue, ctxDone, preferDone) ==>
                s.queue == queue && s.executed == executed && s.running == running - 1
      ensures !TakesDone(queue, ctxDone, preferDone) ==>
                s.running == running && s.executed == executed + [queue[0]] &&
                s.queue == queue[1..] && |s.queue| == |queue| - 1
      ensures Invariant() ==> s.Invariant()
    {
      if TakesDone(queue, ctxDone, preferDone) then this.(running := running - 1)
      else this.(queue := queue[1..], executed := executed + [queue[0]])
    }

    /** `wg.Add(n)`. */
    function Add(n: nat): (s: PoolState<T>)
      ensures s.running == running + n && s.queue == queue && s.executed == executed
      ensures s.capacity == capacity && s.closed == closed && s.hasWorker == hasWorker
    {
      this.(running := running + n)
    }

    /** `wg.Done()`: a WaitGroup counter never goes below zero. */
    function Done(): (s: PoolState<T>)
      requires running > 0
      ensures s.running + 1 == running && s.queue == queue && s.executed == executed
      ensures s.capacity == capacity && s.closed == closed && s.hasWorker == hasWorker
    {
      this.(running := running - 1)
    }

    /** `Start`: one running loop per worker, or nothing when the worker is nil. */
    function Start(): (s: PoolState<T>)
      ensures s.queue == queue && s.executed == executed && s.capacity == capacity
      ensures s.closed == closed && s.hasWorker == hasWorker
      ensures !hasWorker ==> s.running == running
      ensures hasWorker ==> s.running == running + WorkersCount()
    {
      if !hasWorker then this else Add(WorkersCount())
    }

    /** `Close` returns once the wait group is zero (otherwise it blocks); closing a closed
        channel panics. */
    predicate CanClose() {
      running == 0 && !closed
    }

    function Close(): (s: PoolState<T>)
      requires CanClose()
      ensures s.closed && s.running == 0 && s.queue == queue && s.executed == executed
      ensures s.capacity == capacity && s.hasWorker == hasWorker
    {
      this.(closed := true)
    }
  }

  /** `NewPool`: an empty, open channel of capacity `workersCount`, no loop running. */
  function NewPool<T>(hasWorker: bool, workersCount: nat): (s: PoolState<T>)
    ensures s.Invariant() && s.WorkersCount() == workersCount && s.QueueSize() == 0
    ensures s.running == 0 && !s.closed && s.Submitted() == [] && s.hasWorker == hasWorker
  {
    PoolState(hasWorker, workersCount, [], 0, false, [])
  }

  /** One operation on a pool, as some goroutine performs it. */
  datatype Op<T> =
    | AddOp(task: T)
    | IterateOp(ctxDone: bool, preferDone: bool)
    | StartOp
    | CloseOp

  /** The operation can proceed now: it neither blocks nor panics. */
  predicate Enabled<T>(s: PoolState<T>, op: Op<T>) {
    match op
    case AddOp(_) => s.CanAdd()
    case IterateOp(ctxDone, _) => s.CanIterate(ctxDone)
    case StartOp => true
    case CloseOp => s.CanClose()
  }

  /** What one operation does: each keeps the configuration and the bound on the channel,
      and only AddOp adds to the submitted history. */
  function Step<T>(s: PoolState<T>, op: Op<T>): (r: PoolState<T>)
    requires Enabled(s, op)
    ensures r.capacity == s.capacity && r.hasWorker == s.hasWorker
    ensures s.Invariant() ==> r.Invariant()
    ensures r.Submitted() == s.Submitted() + (if op.AddOp? then [op.task] else [])
    ensures s.executed <= r.executed
  {
    match op
    case AddOp(task) => s.AddTask(task)
    case IterateOp(ctxDone, preferDone) => s.Iterate(ctxDone, preferDone)
    case StartOp => s.Start()
    case CloseOp => s.Close()
  }

  /** The state after `ops`, one after the other, or None when one of them cannot proceed. */
  function Run<T>(s: PoolState<T>, ops: seq<Op<T>>): (r: Option<PoolState<T>>)
    ensures r.Some? ==> r.value.capacity == s.capacity && r.value.hasWorker == s.hasWorker
    decreases |ops|
  {
    if ops == [] then Some(s)
    else if !Enabled(s, ops[0]) then None
    else Run(Step(s, ops[0]), ops[1..])
  }

  /** The tasks the AddOps of `ops` carry, in order. */
  function Added<T>(ops: seq<Op<T>>): seq<T>
    decreases |ops|
  {
    if ops == [] then []
    else (if ops[0].AddOp? then [ops[0].task] else []) + Added(ops[1..])
  }

  /** Whatever the interleaving of producers, workers, Start and Close, the channel stays
      within its capacity and the configuration never changes. */
  lemma {:induction false} RunKeepsInvariant<T>(s: PoolState<T>, ops: seq<Op<T>>)
    requires s.Invariant() && Run(s, ops).Some?
    ensures Run(s, ops).value.Invariant()
    ensures Run(s, ops).value.WorkersCount() == s.WorkersCount()
    ensures Run(s, ops).value.hasWorker == s.hasWorker
    decreases |ops|
  {
    if ops != [] {
      RunKeepsInvariant(Step(s, ops[0]), ops[1..]);
    }
  }

  /** FIFO with no loss and no duplication: the worker invocations so far, followed by the
      tasks still queued, are exactly the tasks added, in the order they were added; and the
      worker invocations only ever grow. */
  lemma {:induction false} RunIsFifo<T>(s: PoolState<T>, ops: seq<Op<T>>)
    requires Run(s, ops).Some?
    ensures Run(s, ops).value.Submitted() == s.Submitted() + Added(ops)
    ensures s.executed <= Run(s, ops).value.executed
    decreases |ops|
  {
    if ops != [] {
      var t := Step(s, ops[0]);
      RunIsFifo(t, ops[1..]);
      assert Added(ops) == (if ops[0].AddOp? then [ops[0].task] else []) + Added(ops[1..]);
    }
  }

  /** A pool object: the channel buffer, the wait-group counter and the closed flag are
      fields the operations update in place; `executed` records the worker invocations. */
  class WorkerPool<T> {
    const hasWorker: bool
    const capacity: nat
    var tasks: seq<T>
    var running: nat
    var closed: bool
    var executed: seq<T>

    function State(): PoolState<T>
      reads this
    {
      PoolState(hasWorker, capacity, tasks, running, closed, executed)
    }

    ghost predicate Valid()
      reads this
    {
      State().Invariant()
    }

    /** `NewPool(worker, workersCount)`. */
    constructor (hasWorker: bool, workersCount: nat)
      ensures Valid() && State() == NewPool(hasWorker, workersCount)
    {
      this.hasWorker := hasWorker;
      capacity := workersCount;
      tasks := [];
      running := 0;
      closed := false;
      executed := [];
    }

    /** `cap(pool.tasks)`. */
    function WorkersCount(): (n: nat)
      reads this
      ensures n == State().WorkersCount()
    {
      capacity
    }

    /** `len(pool.tasks)`: between zero and the worker count. */
    function QueueSize(): (n: nat)
      reads this
      requires Valid()
      ensures n == State().QueueSize() && n <= WorkersCount()
    {
      |tasks|
    }

    method AddTask(task: T)
      requires Valid() && State().CanAdd()
      modifies this
      ensures Valid() && State() == old(State()).AddTask(task)
    {
      tasks := tasks + [task];
    }

    /** `wg.Add(n)`. */
    method Add(n: nat)
      requires Valid()
      modifies this
      ensures Valid() && State() == old(State()).Add(n)
    {
      running := running + n;
    }

    /** `wg.Done()`. */
    method Done()
      requires Valid() && running > 0
      modifies this
      ensures Valid() && State() == old(State()).Done()
    {
      running := running - 1;
    }

    /** `Start`: `wg.Add(1)` once per worker, each followed by the launch of a worker loop. */
    method Start()
      requires Valid()
      modifies this
      ensures Valid() && State() == old(State()).Start()
    {
      if !hasWorker {
        return;
      }
      for i := 0 to WorkersCount()
        invariant Valid()
        invariant State() == old(State()).Add(i)
      {
        Add(1);
      }
    }

    /** One iteration of the worker loop `start`; `exited` says the loop returned. */
    method Iterate(ctxDone: bool, preferDone: bool) returns (exited: bool)
      requires Valid() && State().CanIterate(ctxDone)
      modifies this
      ensures Valid() && State() == old(State()).Iterate(ctxDone, preferDone)
      ensures exited == PoolState.TakesDone(old(tasks), ctxDone, preferDone)
    {
      exited := PoolState.TakesDone(tasks, ctxDone, preferDone);
      if exited {
        Done();
      } else {
        var task := tasks[0];
        tasks := tasks[1..];
        executed := executed + [task];
      }
    }

    /** `Close`: once no loop is running, close the channel. */
    method Close()
      requires Valid() && State().CanClose()
      modifies this
      ensures Valid() && State() == old(State()).Close()
    {
      closed := true;
    }
  }
}
