/**
 * Shutdown of a timed pool once its context is done, as the goroutines interleave.
 *
 * The dispatch loop may be inside `AddTask` when cancellation arrives: the check in the
 * loop of `tick` happens before the send, and the send itself waits only for room in the
 * channel. Each worker's select then has two ready cases when the channel is not empty,
 * and may take either. `Close` returns only once the wait-group count reaches zero.
 *
 * `Sends` is the code as written: a blocked send completes only when a worker makes room.
 * `SendsOrQuits` puts `ctx.Done` beside the send in a select, so the dispatch loop can
 * also give up a blocked send.
 */
module Shutdown {

  /** Where the dispatch loop is: blocked in the send of one task, back at the select of
      `dispatch`, or returned (its deferred `wg.Done` has run). */
  datatype Dispatch = Sending | Selecting | Returned

  /** What is left after cancellation: the channel fill, the worker loops not yet
      returned, and the dispatch loop. */
  datatype System = System(capacity: nat, queued: nat, workers: nat, dispatch: Dispatch)
  {
    predicate Invariant() {
      queued <= capacity
    }

    /** The wait-group count: one per worker loop and one for the dispatch loop. */
    function WaitCount(): nat {
      workers + (if dispatch == Returned then 0 else 1)
    }
  }

  /** One thing a goroutine does once the context is done. */
  datatype Move =
    | WorkerReturns     // a worker's select takes ctx.Done
    | WorkerReceives    // a worker's select takes the front task
    | SendCompletes     // the blocked send finds room; tick then returns to the select
    | SendQuits         // the send is given up for ctx.Done; tick returns to the select
    | DispatchTicks     // the dispatch select takes ticker.C: a tick that pushes nothing
    | DispatchReturns   // the dispatch select takes ctx.Done

  /** The moves of the code as written. A tick after cancellation pushes nothing, because
      the check before its first push sees the context done. */
  predicate Sends(s: System, m: Move): (b: bool)
    ensures b ==> s.WaitCount() > 0
  {
    match m
    case WorkerReturns => s.workers > 0
    case WorkerReceives => s.workers > 0 && s.queued > 0
    case SendCompletes => s.dispatch == Sending && s.queued < s.capacity
    case SendQuits => false
    case DispatchTicks => s.dispatch == Selecting
    case DispatchReturns => s.dispatch == Selecting
  }

  /** The moves when the send also selects on ctx.Done: those of the code as written, and
      giving up a blocked send. */
  predicate SendsOrQuits(s: System, m: Move): (b: bool)
    ensures Sends(s, m) ==> b
    ensures b && !Sends(s, m) ==> m == SendQuits
    ensures b ==> s.WaitCount() > 0
  {
    match m
    case SendQuits => s.dispatch == Sending
    case _ => Sends(s, m)
  }

  function Next(s: System, m: Move): (r: System)
    requires SendsOrQuits(s, m)
    ensures r.capacity == s.capacity && (s.Invariant() ==> r.Invariant())
    ensures m == DispatchTicks ==> r == s
    ensures r.WaitCount() <= s.WaitCount()
  {
    match m
    case WorkerReturns => s.(workers := s.workers - 1)
    case WorkerReceives => s.(queued := s.queued - 1)
    case SendCompletes => s.(queued := s.queued + 1, dispatch := Selecting)
    case SendQuits => s.(dispatch := Selecting)
    case DispatchTicks => s
    case DispatchReturns => s.(dispatch := Returned)
  }

  /** The moves allowed by the code as written, or by the corrected code. */
  predicate Allowed(s: System, m: Move, corrected: bool) {
    if corrected then SendsOrQuits(s, m) else Sends(s, m)
  }

  /** A run: every move is allowed where it happens. */
  predicate IsRun(s: System, ms: seq<Move>, corrected: bool)
    decreases |ms|
  {
    ms == [] || (Allowed(s, ms[0], corrected) && IsRun(Next(s, ms[0]), ms[1..], corrected))
  }

  function Final(s: System, ms: seq<Move>, corrected: bool): System
    requires IsRun(s, ms, corrected)
    decreases |ms|
  {
    if ms == [] then s else Final(Next(s, ms[0]), ms[1..], corrected)
  }

  /** No goroutine can move. */
  predicate StuckAsWritten(s: System) {
    forall m: Move :: !Sends(s, m)
  }

  /** The workers, one after the other, taking ctx.Done. */
  function AllReturn(n: nat): (ms: seq<Move>)
    ensures |ms| == n && forall i :: 0 <= i < n ==> ms[i] == WorkerReturns
  {
    seq(n, _ => WorkerReturns)
  }

  /** As written, Close can block forever: whenever the dispatch loop is in its send on a
      full channel, the workers may all take ctx.Done; then nothing can move and the wait
      group stays at one. */
  lemma {:induction false} AsWrittenCloseHangs(s: System)
    requires s.capacity > 0 && s.queued == s.capacity && s.dispatch == Sending
    ensures IsRun(s, AllReturn(s.workers), false)
    ensures StuckAsWritten(Final(s, AllReturn(s.workers), false))
    ensures Final(s, AllReturn(s.workers), false).WaitCount() == 1
    decreases s.workers
  {
    var ms := AllReturn(s.workers);
    if s.workers > 0 {
      var t := Next(s, WorkerReturns);
      AsWrittenCloseHangs(t);
      assert ms[1..] == AllReturn(t.workers);
    } else {
      assert ms == [];
      forall m: Move ensures !Sends(s, m) {
      }
    }
  }

  /** For instance: one worker, a full channel of capacity one, and the send in progress. */
  lemma AsWrittenCloseHangsWithOneWorker()
    ensures var s := System(1, 1, 1, Sending);
            IsRun(s, [WorkerReturns], false) && StuckAsWritten(Final(s, [WorkerReturns], false)) &&
            Final(s, [WorkerReturns], false).WaitCount() == 1
  {
    AsWrittenCloseHangs(System(1, 1, 1, Sending));
    assert AllReturn(1) == [WorkerReturns];
  }

  /** A bound on the moves left other than ticks: every other move of the corrected code
      lowers it. */
  function Measure(s: System): nat {
    2 * s.workers + s.queued + (match s.dispatch case Sending => 3 case Selecting => 1 case Returned => 0)
  }

  /** The moves of `ms` other than post-cancellation ticks. */
  function Progress(ms: seq<Move>): nat
    decreases |ms|
  {
    if ms == [] then 0 else (if ms[0] == DispatchTicks then 0 else 1) + Progress(ms[1..])
  }

  /** With the send selecting on ctx.Done, a move other than a tick is always possible while
      the wait group is not zero. */
  lemma SendsOrQuitsCanMove(s: System)
    requires s.WaitCount() > 0
    ensures exists m: Move :: m != DispatchTicks && SendsOrQuits(s, m)
  {
    match s.dispatch
    case Sending => assert SendsOrQuits(s, SendQuits);
    case Selecting => assert SendsOrQuits(s, DispatchReturns);
    case Returned => assert SendsOrQuits(s, WorkerReturns);
  }

  /** With the send selecting on ctx.Done, shutdown is held up only by the dispatch select
      taking ticker.C over ctx.Done: a run makes at most Measure(s) other moves; ticks change
      nothing; and a run after which no other move is possible has brought the wait group to
      zero, so Close returns. Go picks at random among ready cases, so the ticks end with
      probability one. */
  lemma {:induction false} SendsOrQuitsShutsDown(s: System, ms: seq<Move>)
    requires IsRun(s, ms, true)
    ensures Progress(ms) <= Measure(s)
    ensures Progress(ms) == 0 ==> Final(s, ms, true) == s
    ensures (forall m: Move :: m != DispatchTicks ==> !SendsOrQuits(Final(s, ms, true), m)) ==>
              Final(s, ms, true).WaitCount() == 0
    decreases |ms|
  {
    if ms == [] {
      if s.WaitCount() > 0 {
        SendsOrQuitsCanMove(s);
      }
    } else {
      SendsOrQuitsShutsDown(Next(s, ms[0]), ms[1..]);
    }
  }
}
