/**
The coalescing queue that serialises writes: `SinglePromiseQueue` in
packages/rivetkit/src/utils.ts.

A resolver is named by the number of the cycle it belongs to. One block of
JavaScript that runs to completion is one step: a call to `enqueue`, or the
continuation of the drain loop once the operation it awaits has settled.
*/
module PromiseQueues {
  import opened Options

  /** The operation the drain loop is awaiting and the resolver it captured for it. */
  datatype Flight<+Op> = Flight(op: Op, resolver: Option<nat>)

  datatype Queue<+Op> = Queue(queuedOp: Option<Op>,
                              pending: Option<nat>,
                              running: Option<Flight<Op>>,
                              nextCycle: nat)

  function Empty<Op>(): Queue<Op> {
    Queue(None, None, None, 0)
  }

  /** One turn of the drain loop: start the queued operation, or end the loop. */
  function DrainTurn<Op>(q: Queue<Op>): Queue<Op> {
    if q.queuedOp.Some? then
      q.(queuedOp := None, pending := None, running := Some(Flight(q.queuedOp.value, q.pending)))
    else
      q.(running := None)
  }

  /** The cycle that a call to `enqueue` joins. */
  function JoinedCycle<Op>(q: Queue<Op>): nat {
    if q.pending.Some? then q.pending.value else q.nextCycle
  }

  function Enqueued<Op>(q: Queue<Op>, op: Op): Queue<Op> {
    var q' := Queue(Some(op), Some(JoinedCycle(q)), q.running,
                    if q.pending.Some? then q.nextCycle else q.nextCycle + 1);
    if q.running.None? then DrainTurn(q') else q'
  }

  /** The awaited operation settled: its resolver is called and the loop goes round. */
  function Settled<Op>(q: Queue<Op>): Queue<Op>
    requires q.running.Some?
  {
    DrainTurn(q)
  }

  ghost predicate WellFormed<Op>(q: Queue<Op>) {
    && (q.pending.Some? <==> q.queuedOp.Some?)
    && (q.running.None? ==> q.queuedOp.None?)
    && (q.pending.Some? ==> q.pending.value < q.nextCycle)
    && (q.running.Some? ==>
          && q.running.value.resolver.Some?
          && q.running.value.resolver.value < q.nextCycle
          && q.running.value.resolver != q.pending)
  }

  // MARK: Runs of the queue with their history

  /** A call to `enqueue`: what it asked for, the cycle it joined and the step at which it was made. */
  datatype CallRecord<+Op> = CallRecord(op: Op, cycle: nat, at: nat)

  datatype StartRecord<+Op> = StartRecord(op: Op, at: nat)

  datatype Trace<+Op> = Trace(queue: Queue<Op>,
                              clock: nat,
                              calls: seq<CallRecord<Op>>,
                              starts: map<nat, StartRecord<Op>>,
                              resolved: map<nat, nat>)

  datatype Step<+Op> = Call(op: Op) | OpSettles

  function Begin<Op>(): Trace<Op> {
    Trace(Empty(), 0, [], map[], map[])
  }

  /** The starts recorded when the queue goes from a state to one with operation `q.running`. */
  function RecordStart<Op>(starts: map<nat, StartRecord<Op>>, q: Queue<Op>, at: nat): map<nat, StartRecord<Op>> {
    if q.running.Some? && q.running.value.resolver.Some?
    then starts[q.running.value.resolver.value := StartRecord(q.running.value.op, at)]
    else starts
  }

  function RecordResolve<Op>(resolved: map<nat, nat>, q: Queue<Op>, at: nat): map<nat, nat> {
    if q.running.Some? && q.running.value.resolver.Some?
    then resolved[q.running.value.resolver.value := at]
    else resolved
  }

  predicate Enabled<Op>(t: Trace<Op>, step: Step<Op>) {
    step.OpSettles? ==> t.queue.running.Some?
  }

  function Apply<Op>(t: Trace<Op>, step: Step<Op>): Trace<Op>
    requires Enabled(t, step)
  {
    match step
    case Call(op) =>
      var q' := Enqueued(t.queue, op);
      Trace(q',
            t.clock + 1,
            t.calls + [CallRecord(op, JoinedCycle(t.queue), t.clock)],
            if t.queue.running.None? then RecordStart(t.starts, q', t.clock) else t.starts,
            t.resolved)
    case OpSettles =>
      var q' := Settled(t.queue);
      Trace(q',
            t.clock + 1,
            t.calls,
            RecordStart(t.starts, q', t.clock),
            RecordResolve(t.resolved, t.queue, t.clock))
  }

  ghost predicate ValidRun<Op>(t: Trace<Op>, steps: seq<Step<Op>>)
    decreases |steps|
  {
    steps == [] || (Enabled(t, steps[0]) && ValidRun(Apply(t, steps[0]), steps[1..]))
  }

  ghost function Run<Op>(t: Trace<Op>, steps: seq<Step<Op>>): Trace<Op>
    requires ValidRun(t, steps)
    decreases |steps|
  {
    if steps == [] then t else Run(Apply(t, steps[0]), steps[1..])
  }

  /** The operation of the last call that joined a cycle. */
  ghost function LastOp<Op>(calls: seq<CallRecord<Op>>, cycle: nat): Option<Op> {
    if calls == [] then None
    else if calls[|calls| - 1].cycle == cycle then Some(calls[|calls| - 1].op)
    else LastOp(calls[..|calls| - 1], cycle)
  }

  ghost predicate RunningIs<Op>(q: Queue<Op>, cycle: nat) {
    q.running.Some? && q.running.value.resolver == Some(cycle)
  }

  ghost predicate CyclesAccounted<Op>(t: Trace<Op>) {
    && (forall c | c in t.starts :: c < t.queue.nextCycle && t.queue.pending != Some(c))
    && (forall c | 0 <= c < t.queue.nextCycle :: c in t.starts || t.queue.pending == Some(c))
    && (forall c | c in t.resolved :: c in t.starts)
    && (forall c | c in t.starts :: c in t.resolved <==> !RunningIs(t.queue, c))
    && (t.queue.running.Some? && t.queue.running.value.resolver.Some? ==>
          t.queue.running.value.resolver.value in t.starts)
  }

  ghost predicate CallsJoined<Op>(t: Trace<Op>) {
    && (forall i | 0 <= i < |t.calls| :: t.calls[i].cycle < t.queue.nextCycle && t.calls[i].at < t.clock)
    && (forall i | 0 <= i < |t.calls| && t.calls[i].cycle in t.starts ::
          t.calls[i].at <= t.starts[t.calls[i].cycle].at)
    && (t.queue.pending.Some? ==> LastOp(t.calls, t.queue.pending.value) == t.queue.queuedOp)
  }

  ghost predicate StartsRight<Op>(t: Trace<Op>) {
    forall c | c in t.starts ::
      && LastOp(t.calls, c) == Some(t.starts[c].op)
      && t.starts[c].at < t.clock
      && (c in t.resolved ==> t.starts[c].at < t.resolved[c] < t.clock)
  }

  ghost predicate Inv<Op>(t: Trace<Op>) {
    && WellFormed(t.queue)
    && CyclesAccounted(t)
    && CallsJoined(t)
    && StartsRight(t)
  }

  lemma LastOpOfExtension<Op>(calls: seq<CallRecord<Op>>, r: CallRecord<Op>, cycle: nat)
    ensures LastOp(calls + [r], cycle) == if r.cycle == cycle then Some(r.op) else LastOp(calls, cycle)
  {
    assert (calls + [r])[..|calls|] == calls;
  }

  lemma CallKeepsCycles<Op>(t: Trace<Op>, op: Op)
    requires Inv(t)
    ensures WellFormed(Apply(t, Call(op)).queue) && CyclesAccounted(Apply(t, Call(op)))
  {
  }

  lemma CallKeepsRecords<Op>(t: Trace<Op>, op: Op)
    requires Inv(t)
    ensures CallsJoined(Apply(t, Call(op))) && StartsRight(Apply(t, Call(op)))
  {
    var t' := Apply(t, Call(op));
    var r := CallRecord(op, JoinedCycle(t.queue), t.clock);
    forall c: nat ensures LastOp(t'.calls, c) == if r.cycle == c then Some(op) else LastOp(t.calls, c) {
      LastOpOfExtension(t.calls, r, c);
    }
  }

  lemma CallKeepsInv<Op>(t: Trace<Op>, op: Op)
    requires Inv(t)
    ensures Inv(Apply(t, Call(op)))
  {
    CallKeepsCycles(t, op);
    CallKeepsRecords(t, op);
  }

  lemma SettleKeepsCycles<Op>(t: Trace<Op>)
    requires Inv(t) && Enabled(t, OpSettles)
    ensures WellFormed(Apply(t, OpSettles).queue) && CyclesAccounted(Apply(t, OpSettles))
  {
  }

  lemma SettleKeepsInv<Op>(t: Trace<Op>)
    requires Inv(t) && Enabled(t, OpSettles)
    ensures Inv(Apply(t, OpSettles))
  {
    SettleKeepsCycles(t);
  }

  lemma {:induction false} RunKeepsInv<Op>(t: Trace<Op>, steps: seq<Step<Op>>)
    requires Inv(t) && ValidRun(t, steps)
    ensures Inv(Run(t, steps))
    decreases |steps|
  {
    if steps != [] {
      match steps[0] {
        case Call(op) => CallKeepsInv(t, op);
        case OpSettles => SettleKeepsInv(t);
      }
      RunKeepsInv(Apply(t, steps[0]), steps[1..]);
    }
  }

  /**
  The contract of the promise `enqueue` returns, over every run: a call whose
  cycle has resolved was answered by an operation that started no earlier than
  the call, finished before the promise resolved, and is the one the last caller
  of that cycle asked for. Started operations that are not finished number at
  most one, a resolver is pending exactly when an operation is queued, and
  nothing is queued while no drain loop runs.
  */
  lemma PromiseContract<Op>(steps: seq<Step<Op>>)
    requires ValidRun(Begin<Op>(), steps)
    ensures var t := Run(Begin<Op>(), steps);
            && (forall i | 0 <= i < |t.calls| && t.calls[i].cycle in t.resolved ::
                  var c := t.calls[i].cycle;
                  && c in t.starts
                  && t.calls[i].at <= t.starts[c].at < t.resolved[c]
                  && LastOp(t.calls, c) == Some(t.starts[c].op))
            && (forall c, d | c in t.starts.Keys - t.resolved.Keys && d in t.starts.Keys - t.resolved.Keys :: c == d)
            && (t.queue.running.Some? <==> t.starts.Keys != t.resolved.Keys)
            && (t.queue.pending.Some? <==> t.queue.queuedOp.Some?)
            && (t.queue.running.None? ==> t.queue.queuedOp.None?)
  {
    RunKeepsInv(Begin<Op>(), steps);
    var t := Run(Begin<Op>(), steps);
    if t.queue.running.Some? {
      var c := t.queue.running.value.resolver.value;
      assert RunningIs(t.queue, c);
      assert c in t.starts.Keys && c !in t.resolved.Keys;
    }
  }

  /** No caller is forgotten: two more settled operations answer every call made so far. */
  lemma TwoSettlesAnswerEveryCall<Op>(t: Trace<Op>)
    requires Inv(t)
    ensures var t1 := if t.queue.running.Some? then Apply(t, OpSettles) else t;
            var t2 := if t1.queue.running.Some? then Apply(t1, OpSettles) else t1;
            forall i | 0 <= i < |t.calls| :: t.calls[i].cycle in t2.resolved
  {
    if t.queue.running.Some? {
      SettleKeepsInv(t);
      var t1 := Apply(t, OpSettles);
      if t1.queue.running.Some? {
        SettleKeepsInv(t1);
        var t2 := Apply(t1, OpSettles);
        assert t2.queue.nextCycle == t.queue.nextCycle && t2.queue.running.None?;
        assert t2.calls == t.calls;
      }
    }
  }

  // MARK: The queue as the source writes it

  class SinglePromiseQueue<Op> {
    var queuedOp: Option<Op>
    var pending: Option<nat>
    var running: Option<Flight<Op>>
    var nextCycle: nat

    ghost function View(): Queue<Op>
      reads this
    {
      Queue(queuedOp, pending, running, nextCycle)
    }

    constructor ()
      ensures View() == Empty()
    {
      queuedOp, pending, running, nextCycle := None, None, None, 0;
    }

    /** Queues `op` in place of any queued one; `started` says whether it began at once. */
    method Enqueue(op: Op) returns (cycle: nat, started: bool)
      modifies this
      ensures View() == Enqueued(old(View()), op)
      ensures cycle == JoinedCycle(old(View()))
      ensures started <==> old(running).None?
    {
      queuedOp := Some(op);
      if pending.None? {
        pending := Some(nextCycle);
        nextCycle := nextCycle + 1;
      }
      cycle := pending.value;
      started := running.None?;
      if started {
        TakeNext();
      }
    }

    /** The part of `#drainLoop` that runs when the awaited operation has settled. */
    method OpSettled() returns (resolved: Option<nat>)
      requires running.Some?
      modifies this
      ensures View() == Settled(old(View()))
      ensures resolved == old(running).value.resolver
    {
      resolved := running.value.resolver;
      TakeNext();
    }

    /** The head of `#drainLoop`: capture the resolver and the operation, or finish. */
    method TakeNext()
      modifies this
      ensures View() == DrainTurn(old(View()))
    {
      if queuedOp.Some? {
        var resolver := pending;
        pending := None;
        running := Some(Flight(queuedOp.value, resolver));
        queuedOp := None;
      } else {
        running := None;
      }
    }
  }
}
