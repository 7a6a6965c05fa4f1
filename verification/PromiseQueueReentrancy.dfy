/**
What `SinglePromiseQueue` (packages/rivetkit/src/utils.ts) does when an operation
itself calls `enqueue` before its first `await`.

`enqueue` assigns `runningDrainLoop` only after `#drainLoop()` has returned, so
the synchronous prefix of the first operation still sees it unset. This module
keeps that window: it gives the exact condition under which operations stay
one at a time, and shows that PromiseQueues is the queue restricted to it.
*/
module PromiseQueueReentrancy {
  import opened Options
  import opened PromiseQueues

  /** An operation, given by the `enqueue` calls its synchronous prefix makes. */
  datatype NestedOp = NestedOp(syncCalls: seq<NestedOp>)

  /** `flights` counts the operations that some drain loop is awaiting. */
  datatype Loops = Loops(queued: Option<NestedOp>, flights: nat, loopRunning: bool)

  function Enqueue(s: Loops, op: NestedOp): Loops
    decreases op, 1
  {
    if s.loopRunning then
      s.(queued := Some(op))
    else
      CallAll(s.(queued := None, flights := s.flights + 1), op.syncCalls).(loopRunning := true)
  }

  function CallAll(s: Loops, ops: seq<NestedOp>): Loops
    decreases ops, 0
  {
    if ops == [] then s else CallAll(Enqueue(s, ops[0]), ops[1..])
  }

  /** A loop's operation settles; the loop starts the queued one or ends. */
  function Settle(s: Loops): Loops
    requires s.flights > 0
  {
    if s.queued.Some? then
      CallAll(s.(queued := None), s.queued.value.syncCalls)
    else
      s.(flights := s.flights - 1, loopRunning := false)
  }

  /** At most one operation is in flight, and exactly while a loop runs. */
  ghost predicate OneAtATime(s: Loops) {
    && s.flights <= 1
    && (s.loopRunning <==> s.flights == 1)
    && (!s.loopRunning ==> s.queued.None?)
  }

  lemma {:induction false} FlightsNeverDropOnEnqueue(s: Loops, op: NestedOp)
    ensures s.flights <= Enqueue(s, op).flights
    ensures !s.loopRunning ==> s.flights < Enqueue(s, op).flights
    ensures Enqueue(s, op).loopRunning
    decreases op, 1
  {
    if !s.loopRunning {
      FlightsNeverDropOnCalls(s.(queued := None, flights := s.flights + 1), op.syncCalls);
    }
  }

  lemma {:induction false} FlightsNeverDropOnCalls(s: Loops, ops: seq<NestedOp>)
    ensures s.flights <= CallAll(s, ops).flights
    decreases ops, 0
  {
    if ops != [] {
      FlightsNeverDropOnEnqueue(s, ops[0]);
      FlightsNeverDropOnCalls(Enqueue(s, ops[0]), ops[1..]);
    }
  }

  lemma {:induction false} CallsOnlyQueueWhileLoopRuns(s: Loops, ops: seq<NestedOp>)
    requires s.loopRunning
    ensures CallAll(s, ops).flights == s.flights && CallAll(s, ops).loopRunning
    ensures CallAll(s, ops).queued == if ops == [] then s.queued else Some(ops[|ops| - 1])
    decreases |ops|
  {
    if ops != [] {
      CallsOnlyQueueWhileLoopRuns(Enqueue(s, ops[0]), ops[1..]);
    }
  }

  /**
  A call keeps operations one at a time exactly when a drain loop is already
  running or the operation makes no synchronous call of its own.
  */
  lemma EnqueueStaysSingleIff(s: Loops, op: NestedOp)
    requires OneAtATime(s)
    ensures OneAtATime(Enqueue(s, op)) <==> s.loopRunning || op.syncCalls == []
  {
    if !s.loopRunning && op.syncCalls != [] {
      var s1 := s.(queued := None, flights := s.flights + 1);
      FlightsNeverDropOnEnqueue(s1, op.syncCalls[0]);
      FlightsNeverDropOnCalls(Enqueue(s1, op.syncCalls[0]), op.syncCalls[1..]);
    }
  }

  /**
  An operation the loop itself starts may enqueue synchronously: its calls only queue,
  and the last of them runs next.
  */
  lemma SettleStaysSingle(s: Loops)
    requires OneAtATime(s) && s.flights > 0
    ensures OneAtATime(Settle(s))
    ensures Settle(s).loopRunning <==> s.queued.Some?
    ensures s.queued.Some? ==>
              var calls := s.queued.value.syncCalls;
              Settle(s).queued == if calls == [] then None else Some(calls[|calls| - 1])
  {
    if s.queued.Some? {
      CallsOnlyQueueWhileLoopRuns(s.(queued := None), s.queued.value.syncCalls);
    }
  }

  /** The reentrant queue as PromiseQueues sees it. */
  ghost predicate Matches(s: Loops, q: Queue<NestedOp>) {
    && s.queued == q.queuedOp
    && s.flights == (if q.running.Some? then 1 else 0)
    && s.loopRunning == q.running.Some?
  }

  /** For operations without synchronous calls the two queues take the same steps. */
  lemma PlainOperationsAgree(s: Loops, q: Queue<NestedOp>, op: NestedOp)
    requires Matches(s, q) && op.syncCalls == []
    requires q.queuedOp.Some? ==> q.queuedOp.value.syncCalls == []
    ensures Matches(Enqueue(s, op), Enqueued(q, op))
    ensures q.running.Some? ==> Matches(Settle(s), Settled(q))
  {
  }
}
