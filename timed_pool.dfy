/**
 * The timed pool of timed_pool.go: a worker pool fed by a dispatch loop that calls the
 * dispatcher function once at start and then once per ticker fire, pushes the returned
 * batch into the pool, and re-arms the ticker at the base period after a non-empty batch
 * or at ten times the base period after an empty one.
 *
 * Durations are whole milliseconds. The dispatcher's answer for a tick is a `Batch`; the
 * point at which cancellation is observed during the pushes of a batch is `cancelAt`, the
 * number of pushes that go ahead before the check sees the context done; the select of the
 * dispatch loop is a `Round`. The bodies of the dispatcher, the worker and the error handler
 * are not modelled; their calls are recorded.
 */
module TimedPool {

  import opened Wrappers
  import opened Pool

  /** The factor applied to the base period after an empty batch. */
  const Backoff: nat := 10

  /** What one call of the dispatcher returned: its tasks and its error, if any. */
  datatype Batch<T, E> = Batch(tasks: seq<T>, err: Option<E>)

  /** The configuration a TimedPool is made with. */
  datatype Config = Config(hasDispatcher: bool, hasHandler: bool, base: nat)

  /** The state the dispatch loop acts on: the pool, the ticker's period, the errors handed
      to the error handler and the number of dispatcher calls. */
  datatype Dispatching<T, E> = Dispatching(
    pool: PoolState<T>,
    period: nat,
    handled: seq<E>,
    calls: nat)

  /** The two periods the ticker is ever armed with. */
  predicate Armed(c: Config, period: nat) {
    period == c.base || period == c.base * Backoff
  }

  /** `NewTimedPool`: `periodReceivingTasks` milliseconds become the base period. */
  function NewConfig(hasDispatcher: bool, hasHandler: bool, periodReceivingTasks: nat): (c: Config)
    ensures c.base == periodReceivingTasks && Armed(c, periodReceivingTasks)
    ensures c.hasDispatcher == hasDispatcher && c.hasHandler == hasHandler
  {
    Config(hasDispatcher, hasHandler, periodReceivingTasks)
  }

  /** The tick stops at the error handler: an error came back and a handler is set. */
  predicate Handles<T, E>(c: Config, b: Batch<T, E>) {
    b.err.Some? && c.hasHandler
  }

  /** The number of tasks of `b` that a tick pushes into the pool. */
  function Pushed<T, E>(c: Config, b: Batch<T, E>, cancelAt: nat): (n: nat)
    ensures n <= |b.tasks|
  {
    if Handles(c, b) then 0
    else if cancelAt < |b.tasks| then cancelAt
    else |b.tasks|
  }

  /** `n` pushes into `p` can all complete: none of them panics, and each that finds the
      channel full is resumed by a worker that receives its front task. */
  predicate CanFeed<T>(p: PoolState<T>, n: nat) {
    n == 0 ||
    (!p.closed && p.capacity > 0 && p.Invariant() &&
     ((p.hasWorker && p.running > 0) || |p.queue| + n <= p.capacity))
  }

  /** One blocking `AddTask`: when the channel is full, a worker first receives its front. */
  function PushOne<T>(p: PoolState<T>, x: T): (r: PoolState<T>)
    requires !p.closed && p.capacity > 0 && p.Invariant()
    requires |p.queue| == p.capacity ==> p.hasWorker && p.running > 0
    ensures r.Invariant()
  {
    var q := if |p.queue| == p.capacity then p.Iterate(false, false) else p;
    q.AddTask(x)
  }

  /** What one push does: with room, `x` goes at the back and nothing else changes; on a full
      channel the front task goes to the worker first. Either way the submitted history gains
      exactly `x` and the wait group and closed flag are kept. */
  lemma PushOneAppends<T>(p: PoolState<T>, x: T)
    requires !p.closed && p.capacity > 0 && p.Invariant()
    requires |p.queue| == p.capacity ==> p.hasWorker && p.running > 0
    ensures var r := PushOne(p, x);
            r.queue != [] && r.queue[|r.queue| - 1] == x &&
            r.Submitted() == p.Submitted() + [x] && p.executed <= r.executed &&
            r.capacity == p.capacity && r.hasWorker == p.hasWorker &&
            r.running == p.running && r.closed == p.closed
    ensures |p.queue| < p.capacity ==>
              PushOne(p, x).queue == p.queue + [x] && PushOne(p, x).executed == p.executed
    ensures |p.queue| == p.capacity ==>
              PushOne(p, x).queue == p.queue[1..] + [x] &&
              PushOne(p, x).executed == p.executed + [p.queue[0]]
  {
  }

  /** `xs` pushed into `p` one after the other. */
  function Feed<T>(p: PoolState<T>, xs: seq<T>): (r: PoolState<T>)
    requires CanFeed(p, |xs|)
    ensures p.Invariant() ==> r.Invariant()
    ensures r.capacity == p.capacity && r.hasWorker == p.hasWorker
    ensures r.running == p.running && r.closed == p.closed
    ensures r.Submitted() == p.Submitted() + xs
    ensures p.executed <= r.executed
    ensures |p.queue| + |xs| <= p.capacity ==> r.queue == p.queue + xs && r.executed == p.executed
    decreases |xs|
  {
    if xs == [] then p
    else
      var front, last := xs[..|xs| - 1], xs[|xs| - 1];
      assert front + [last] == xs;
      var q := Feed(p, front);
      assert CanFeed(q, 1);
      PushOne(q, last)
  }

  /** What the tick is given makes every push it performs possible. */
  predicate TickReady<T, E>(c: Config, d: Dispatching<T, E>, b: Batch<T, E>, cancelAt: nat) {
    CanFeed(d.pool, Pushed(c, b, cancelAt))
  }

  /** `tick`: one call of the dispatcher and what follows from its answer. */
  function TickSpec<T, E>(c: Config, d: Dispatching<T, E>, b: Batch<T, E>, cancelAt: nat)
    : (r: Dispatching<T, E>)
    requires TickReady(c, d, b, cancelAt)
    // every tick calls the dispatcher once; the pool enqueues exactly the first Pushed tasks
    ensures r.calls == d.calls + 1
    ensures r.pool.Submitted() == d.pool.Submitted() + b.tasks[..Pushed(c, b, cancelAt)]
    ensures r.pool.running == d.pool.running && r.pool.capacity == d.pool.capacity
    ensures r.pool.hasWorker == d.pool.hasWorker && r.pool.closed == d.pool.closed
    ensures d.pool.Invariant() ==> r.pool.Invariant()
    // an error with a handler: the handler is called once, nothing else changes
    ensures Handles(c, b) ==>
              r.handled == d.handled + [b.err.value] && r.period == d.period && r.pool == d.pool
    ensures !Handles(c, b) ==> r.handled == d.handled
    // an empty batch re-arms the ticker at ten times the base, whatever it was before
    ensures !Handles(c, b) && b.tasks == [] ==> r.period == c.base * Backoff && r.pool == d.pool
    // a batch cut by cancellation leaves the period alone; a complete one resets it to base
    ensures !Handles(c, b) && b.tasks != [] ==>
              r.period == (if cancelAt < |b.tasks| then d.period else c.base)
    ensures Armed(c, d.period) ==> Armed(c, r.period)
  {
    var d := d.(calls := d.calls + 1);
    if Handles(c, b) then
      d.(handled := d.handled + [b.err.value])
    else if |b.tasks| == 0 then
      d.(period := c.base * Backoff)
    else if cancelAt < |b.tasks| then
      d.(pool := Feed(d.pool, b.tasks[..cancelAt]))
    else
      assert b.tasks[..|b.tasks|] == b.tasks;
      d.(pool := Feed(d.pool, b.tasks), period := c.base)
  }

  /** One pass of the select in `dispatch`: the context is done, or the ticker fired and the
      dispatcher answered `batch`. */
  datatype Round<T, E> = DoneRound | Fire(batch: Batch<T, E>, cancelAt: nat)

  /** Every tick the rounds up to the first DoneRound performs is possible. */
  predicate RoundsReady<T, E>(c: Config, d: Dispatching<T, E>, rounds: seq<Round<T, E>>)
    decreases |rounds|
  {
    rounds == [] ||
    match rounds[0]
    case DoneRound => d.pool.running > 0
    case Fire(b, k) => TickReady(c, d, b, k) && RoundsReady(c, TickSpec(c, d, b, k), rounds[1..])
  }

  /** The loop of `dispatch` over `rounds`: one tick per Fire until the first DoneRound, at
      which the loop returns and its deferred `wg.Done` runs. */
  function Rounds<T, E>(c: Config, d: Dispatching<T, E>, rounds: seq<Round<T, E>>)
    : (r: Dispatching<T, E>)
    requires RoundsReady(c, d, rounds)
    ensures r.pool.capacity == d.pool.capacity && r.pool.hasWorker == d.pool.hasWorker
    ensures r.calls >= d.calls && d.handled <= r.handled
    decreases |rounds|
  {
    if rounds == [] then d
    else match rounds[0]
      case DoneRound => d.(pool := d.pool.Done())
      case Fire(b, k) => Rounds(c, TickSpec(c, d, b, k), rounds[1..])
  }

  /** `dispatch`: a ticker armed at the base period, a first tick right away, then the loop. */
  predicate DispatchReady<T, E>(c: Config, d: Dispatching<T, E>, first: Batch<T, E>,
                                firstCancel: nat, rounds: seq<Round<T, E>>)
  {
    var d0 := d.(period := c.base);
    TickReady(c, d0, first, firstCancel) &&
    RoundsReady(c, TickSpec(c, d0, first, firstCancel), rounds)
  }

  function DispatchSpec<T, E>(c: Config, d: Dispatching<T, E>, first: Batch<T, E>,
                              firstCancel: nat, rounds: seq<Round<T, E>>): (r: Dispatching<T, E>)
    requires DispatchReady(c, d, first, firstCancel, rounds)
    ensures r.calls > d.calls
    ensures r.pool.capacity == d.pool.capacity && r.pool.hasWorker == d.pool.hasWorker
  {
    var d0 := d.(period := c.base);
    Rounds(c, TickSpec(c, d0, first, firstCancel), rounds)
  }

  /** The number of Fire rounds before the first DoneRound. */
  function Fired<T, E>(rounds: seq<Round<T, E>>): nat
    decreases |rounds|
  {
    if rounds == [] || rounds[0].DoneRound? then 0 else 1 + Fired(rounds[1..])
  }

  /** The loop stops: some round is a DoneRound. */
  predicate Stops<T, E>(rounds: seq<Round<T, E>>) {
    exists i :: 0 <= i < |rounds| && rounds[i].DoneRound?
  }

  /** The tasks the Fire rounds before the first DoneRound enqueue, in order. */
  function Enqueued<T, E>(c: Config, rounds: seq<Round<T, E>>): seq<T>
    decreases |rounds|
  {
    if rounds == [] || rounds[0].DoneRound? then []
    else
      var b := rounds[0].batch;
      b.tasks[..Pushed(c, b, rounds[0].cancelAt)] + Enqueued(c, rounds[1..])
  }

  /** Over any sequence of ticks the ticker is armed at the base period or ten times it. */
  lemma {:induction false} RoundsKeepArmed<T, E>(c: Config, d: Dispatching<T, E>,
                                                 rounds: seq<Round<T, E>>)
    requires RoundsReady(c, d, rounds) && Armed(c, d.period)
    ensures Armed(c, Rounds(c, d, rounds).period)
    decreases |rounds|
  {
    if rounds != [] && rounds[0].Fire? {
      var b, k := rounds[0].batch, rounds[0].cancelAt;
      RoundsKeepArmed(c, TickSpec(c, d, b, k), rounds[1..]);
    }
  }

  /** The dispatcher is called once per Fire; the loop gives back its wait-group count
      exactly when it stops; the pool keeps its invariant and configuration. */
  lemma {:induction false} RoundsCount<T, E>(c: Config, d: Dispatching<T, E>,
                                             rounds: seq<Round<T, E>>)
    requires RoundsReady(c, d, rounds)
    ensures Rounds(c, d, rounds).calls == d.calls + Fired(rounds)
    ensures Rounds(c, d, rounds).pool.running + (if Stops(rounds) then 1 else 0) == d.pool.running
    ensures d.pool.Invariant() ==> Rounds(c, d, rounds).pool.Invariant()
    ensures Rounds(c, d, rounds).pool.capacity == d.pool.capacity
    decreases |rounds|
  {
    if rounds != [] {
      if rounds[0].DoneRound? {
        assert Stops(rounds);
      } else {
        var b, k := rounds[0].batch, rounds[0].cancelAt;
        RoundsCount(c, TickSpec(c, d, b, k), rounds[1..]);
        assert Stops(rounds) == Stops(rounds[1..]) by {
          if Stops(rounds) {
            var i :| 0 <= i < |rounds| && rounds[i].DoneRound?;
            assert rounds[1..][i - 1].DoneRound?;
          }
          if Stops(rounds[1..]) {
            var i :| 0 <= i < |rounds[1..]| && rounds[1..][i].DoneRound?;
            assert rounds[i + 1].DoneRound?;
          }
        }
      }
    }
  }

  /** Batches reach the pool in tick order, each one's enqueued part being an exact prefix
      of it, and the pool stays FIFO: handed-out tasks followed by queued ones are the
      earlier submissions followed by these prefixes. */
  lemma {:induction false} RoundsEnqueue<T, E>(c: Config, d: Dispatching<T, E>,
                                               rounds: seq<Round<T, E>>)
    requires RoundsReady(c, d, rounds)
    ensures Rounds(c, d, rounds).pool.Submitted() == d.pool.Submitted() + Enqueued(c, rounds)
    decreases |rounds|
  {
    if rounds != [] && rounds[0].Fire? {
      var b, k := rounds[0].batch, rounds[0].cancelAt;
      var d1 := TickSpec(c, d, b, k);
      RoundsEnqueue(c, d1, rounds[1..]);
      assert Enqueued(c, rounds) == b.tasks[..Pushed(c, b, k)] + Enqueued(c, rounds[1..]);
    }
  }

  /** `dispatch` ticks once before it waits for anything: even when the context is
      already done at the first select, the dispatcher has been called. */
  lemma DispatchTicksFirst<T, E>(c: Config, d: Dispatching<T, E>, first: Batch<T, E>,
                                 firstCancel: nat, rounds: seq<Round<T, E>>)
    requires DispatchReady(c, d, first, firstCancel, rounds)
    ensures DispatchSpec(c, d, first, firstCancel, rounds).calls == d.calls + 1 + Fired(rounds)
    ensures Armed(c, DispatchSpec(c, d, first, firstCancel, rounds).period)
    ensures DispatchSpec(c, d, first, firstCancel, rounds).pool.Submitted() ==
            d.pool.Submitted() + first.tasks[..Pushed(c, first, firstCancel)] + Enqueued(c, rounds)
  {
    var d0 := d.(period := c.base);
    var d1 := TickSpec(c, d0, first, firstCancel);
    RoundsCount(c, d1, rounds);
    RoundsKeepArmed(c, d1, rounds);
    RoundsEnqueue(c, d1, rounds);
  }

  /** Backoff does not compound: two empty batches in a row leave the ticker at ten times
      the base period, not a hundred times. */
  lemma BackoffDoesNotCompound<T, E>(c: Config, d: Dispatching<T, E>, e1: Option<E>, e2: Option<E>)
    requires !c.hasHandler && Armed(c, d.period)
    ensures var d1 := TickSpec(c, d, Batch([], e1), 0);
            TickSpec(c, d1, Batch([], e2), 0).period == c.base * Backoff
  {
  }

  /** With a 100 ms base: a batch of two, then an empty batch, then a batch of one arm the
      ticker at 100, 1000 and 100 ms, and the pool receives the three tasks in order. */
  lemma BackoffThenReset(p: PoolState<int>)
    requires p.Invariant() && !p.closed && p.capacity >= 3
    requires |p.queue| == 0
    ensures var c := NewConfig(true, true, 100);
            var d0: Dispatching<int, string> := Dispatching(p, 100, [], 0);
            var d1 := TickSpec(c, d0, Batch([1, 2], None), 2);
            var d2 := TickSpec(c, d1, Batch([], None), 0);
            var d3 := TickSpec(c, d2, Batch([3], None), 1);
            d1.period == 100 && d2.period == 1000 && d3.period == 100 &&
            d3.calls == 3 && d3.pool.queue == [1, 2, 3]
  {
  }

  /** An error with a handler set: the handler sees it once, nothing is submitted and the
      ticker keeps the base period. */
  lemma HandledErrorChangesNothing(p: PoolState<int>)
    requires p.Invariant()
    ensures var c := NewConfig(true, true, 100);
            var d0: Dispatching<int, string> := Dispatching(p, 100, [], 0);
            var d1 := TickSpec(c, d0, Batch([7, 8], Some("down")), 2);
            d1.handled == ["down"] && d1.pool == p && d1.period == 100
  {
  }

  /** Cancellation observed after two pushes of a batch of five: exactly the first two are
      submitted and the ticker is not re-armed. */
  lemma CancelledBatchSubmitsPrefix(p: PoolState<int>)
    requires p.Invariant() && !p.closed && p.capacity >= 2 && p.queue == []
    ensures var c := NewConfig(true, false, 100);
            var d0: Dispatching<int, string> := Dispatching(p, 1000, [], 0);
            var d1 := TickSpec(c, d0, Batch([1, 2, 3, 4, 5], None), 2);
            d1.pool.queue == [1, 2] && d1.period == 1000
  {
  }

  /** Without a handler an error falls through: the batch that came with it is pushed and
      the ticker is reset to the base period. */
  lemma UnhandledErrorFallsThrough(p: PoolState<int>)
    requires p.Invariant() && !p.closed && p.capacity >= 1 && p.queue == []
    ensures var c := NewConfig(true, false, 100);
            var d0: Dispatching<int, string> := Dispatching(p, 1000, [], 0);
            var d1 := TickSpec(c, d0, Batch([9], Some("partial")), 1);
            d1.pool.queue == [9] && d1.period == 100 && d1.handled == []
  {
  }

  /** The ticker of `dispatch`: its period is the only state the model keeps. */
  class Ticker {
    var period: nat

    /** `time.NewTicker(d)`, which panics unless `d` is positive. */
    constructor (d: nat)
      requires d > 0
      ensures period == d
    {
      period := d;
    }

    /** `ticker.Reset(d)`, which panics unless `d` is positive. */
    method Reset(d: nat)
      requires d > 0
      modifies this
      ensures period == d
    {
      period := d;
    }
  }

  /** A timed pool object: the embedded pool and the configuration; `handled` records the
      errors passed to the error handler and `calls` the dispatcher calls. */
  class TimedPool<T, E> {
    const pool: WorkerPool<T>
    const hasDispatcher: bool
    const hasHandler: bool
    const periodReceivingTasks: nat
    var handled: seq<E>
    var calls: nat

    function Cfg(): Config
      reads this
    {
      Config(hasDispatcher, hasHandler, periodReceivingTasks)
    }

    function Snapshot(ticker: Ticker): Dispatching<T, E>
      reads this, pool, ticker
    {
      Dispatching(pool.State(), ticker.period, handled, calls)
    }

    ghost predicate Valid()
      reads this, pool
    {
      pool.Valid()
    }

    /** `NewTimedPool(dispatcher, worker, errorHandler, workersCount, periodReceivingTasks)`. */
    constructor (hasDispatcher: bool, hasWorker: bool, hasHandler: bool,
                 workersCount: nat, periodReceivingTasks: nat)
      ensures Valid() && fresh(pool)
      ensures Cfg() == NewConfig(hasDispatcher, hasHandler, periodReceivingTasks)
      ensures pool.State() == NewPool(hasWorker, workersCount)
      ensures handled == [] && calls == 0
    {
      pool := new WorkerPool(hasWorker, workersCount);
      this.hasDispatcher := hasDispatcher;
      this.hasHandler := hasHandler;
      this.periodReceivingTasks := periodReceivingTasks;
      handled := [];
      calls := 0;
    }

    /** `Start`: nothing without a dispatcher; otherwise the pool's Start, then one more
        wait-group count for the dispatch loop it launches. */
    method Start()
      requires Valid()
      modifies pool
      ensures Valid()
      ensures !hasDispatcher ==> pool.State() == old(pool.State())
      ensures hasDispatcher ==> pool.State() == old(pool.State()).Start().Add(1)
    {
      if !hasDispatcher {
        return;
      }
      pool.Start();
      pool.Add(1);
    }

    /** `tick`, given the dispatcher's answer `b` and the push before which cancellation is
        first observed. */
    method Tick(ticker: Ticker, b: Batch<T, E>, cancelAt: nat)
      requires Valid() && periodReceivingTasks > 0
      requires TickReady(Cfg(), Snapshot(ticker), b, cancelAt)
      modifies this, pool, ticker
      ensures Valid()
      ensures Snapshot(ticker) == TickSpec(Cfg(), old(Snapshot(ticker)), b, cancelAt)
    {
      calls := calls + 1;
      if b.err.Some? && hasHandler {
        handled := handled + [b.err.value];
        return;
      }
      if |b.tasks| == 0 {
        ticker.Reset(periodReceivingTasks * Backoff);
        return;
      }
      var cut := PushBatch(b.tasks, cancelAt);
      if cut {
        return;
      }
      assert b.tasks[..|b.tasks|] == b.tasks;
      ticker.Reset(periodReceivingTasks);
    }

    /** The loop of `tick` over a non-empty batch: before each push the select sees whether
        the context is done (`cut`), and a push into a full channel waits for a worker. */
    method PushBatch(xs: seq<T>, cancelAt: nat) returns (cut: bool)
      requires Valid() && |xs| > 0
      requires CanFeed(pool.State(), if cancelAt < |xs| then cancelAt else |xs|)
      modifies pool
      ensures Valid() && cut == (cancelAt < |xs|)
      ensures pool.State() == Feed(old(pool.State()), xs[..if cut then cancelAt else |xs|])
    {
      ghost var p0 := pool.State();
      for i := 0 to |xs|
        invariant Valid()
        invariant i <= cancelAt
        invariant pool.State() == Feed(p0, xs[..i])
      {
        // the select's ctx.Done case
        if i == cancelAt {
          return true;
        }
        // a full channel blocks AddTask until a worker receives
        if pool.QueueSize() == pool.WorkersCount() {
          var _ := pool.Iterate(false, false);
        }
        pool.AddTask(xs[i]);
        assert xs[..i + 1][..i] == xs[..i];
      }
      return false;
    }

    /** `dispatch`, given the first dispatcher answer and the rounds of its select loop;
        `stopped` says the loop returned on cancellation. */
    method Dispatch(first: Batch<T, E>, firstCancel: nat, rounds: seq<Round<T, E>>)
      returns (stopped: bool)
      requires Valid() && periodReceivingTasks > 0
      requires DispatchReady(Cfg(), Dispatching(pool.State(), 0, handled, calls),
                             first, firstCancel, rounds)
      modifies this, pool
      ensures Valid()
      ensures stopped == Stops(rounds)
      ensures var r := DispatchSpec(Cfg(), Dispatching(old(pool.State()), 0, old(handled), old(calls)),
                                    first, firstCancel, rounds);
              pool.State() == r.pool && handled == r.handled && calls == r.calls
    {
      ghost var d := Dispatching(pool.State(), 0, handled, calls);
      var ticker := new Ticker(periodReceivingTasks);
      assert Snapshot(ticker) == d.(period := Cfg().base);
      Tick(ticker, first, firstCancel);
      ghost var d1 := Snapshot(ticker);
      var i := 0;
      while i < |rounds| && rounds[i].Fire?
        invariant Valid() && i <= |rounds|
        invariant forall j :: 0 <= j < i ==> rounds[j].Fire?
        invariant RoundsReady(Cfg(), Snapshot(ticker), rounds[i..])
        invariant Rounds(Cfg(), Snapshot(ticker), rounds[i..]) == Rounds(Cfg(), d1, rounds)
        decreases |rounds| - i
      {
        assert rounds[i..][1..] == rounds[i + 1..];
        Tick(ticker, rounds[i].batch, rounds[i].cancelAt);
        i := i + 1;
      }
      stopped := i < |rounds|;
      if stopped {
        pool.Done();
      }
    }
  }
}
