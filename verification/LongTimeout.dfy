/**
Timers longer than a JavaScript timer allows: `setLongTimeout` in
packages/rivetkit/src/utils.ts.
*/
module LongTimeouts {
  import opened Options

  /** 2^31 - 1, the longest delay `setTimeout` takes. */
  const TIMEOUT_MAX := 2147483647.0

  /** An outstanding timer; `next` is what remains after it, or nothing if it calls the listener. */
  datatype Timer = Timer(delay: real, next: Option<real>)

  /** `spent` lists the delays of the timers that have run out. */
  datatype State = State(timeout: Option<Timer>, spent: seq<real>, fired: nat, aborted: bool)

  function StartTimer(remaining: real): Timer {
    if remaining <= TIMEOUT_MAX then Timer(remaining, None)
    else Timer(TIMEOUT_MAX, Some(remaining - TIMEOUT_MAX))
  }

  function Begin(after: real): State {
    State(Some(StartTimer(after)), [], 0, false)
  }

  function Expire(s: State): State
    requires s.timeout.Some?
  {
    var t := s.timeout.value;
    var s' := s.(spent := s.spent + [t.delay]);
    if t.next.Some? then s'.(timeout := Some(StartTimer(t.next.value)))
    else s'.(timeout := None, fired := s.fired + 1)
  }

  function Abort(s: State): State {
    s.(timeout := None, aborted := true)
  }

  class LongTimeout {
    var timeout: Option<Timer>
    var fired: nat
    ghost var spent: seq<real>
    ghost var aborted: bool

    ghost function View(): State
      reads this
    {
      State(timeout, spent, fired, aborted)
    }

    constructor (after: real)
      ensures View() == Begin(after)
    {
      fired, spent, aborted := 0, [], false;
      timeout := Some(if after <= TIMEOUT_MAX then Timer(after, None)
                      else Timer(TIMEOUT_MAX, Some(after - TIMEOUT_MAX)));
    }

    /** The inner `start`: the delay is cut when it is too long. */
    method Start(remaining: real)
      modifies this`timeout
      ensures timeout == Some(StartTimer(remaining))
    {
      if remaining <= TIMEOUT_MAX {
        timeout := Some(Timer(remaining, None));
      } else {
        timeout := Some(Timer(TIMEOUT_MAX, Some(remaining - TIMEOUT_MAX)));
      }
    }

    /** The outstanding timer runs out; `listened` says that the listener was called. */
    method TimerExpires() returns (listened: bool)
      requires timeout.Some?
      modifies this
      ensures View() == Expire(old(View()))
      ensures listened <==> fired == old(fired) + 1
    {
      var t := timeout.value;
      spent := spent + [t.delay];
      if t.next.Some? {
        Start(t.next.value);
        return false;
      }
      timeout := None;
      fired := fired + 1;
      return true;
    }

    method AbortTimeout()
      modifies this
      ensures View() == Abort(old(View()))
    {
      timeout, aborted := None, true;
    }
  }

  // MARK: The chunks

  /** The delays into which a long delay is cut. */
  function Chunks(after: real): seq<real>
    requires after >= 0.0
    decreases after.Floor
  {
    var t := StartTimer(after);
    [t.delay] + (if t.next.Some? then Chunks(t.next.value) else [])
  }

  function Sum(xs: seq<real>): real {
    if xs == [] then 0.0 else xs[0] + Sum(xs[1..])
  }

  /** Every chunk is one `setTimeout` can take, all but the last are the longest, and together they are the delay. */
  lemma {:induction false} ChunksSumToDelay(after: real)
    requires after >= 0.0
    ensures Sum(Chunks(after)) == after
    ensures forall i | 0 <= i < |Chunks(after)| :: 0.0 <= Chunks(after)[i] <= 2147483647.0
    ensures forall i | 0 <= i < |Chunks(after)| - 1 :: Chunks(after)[i] == 2147483647.0
    ensures |Chunks(after)| >= 1
    decreases after.Floor
  {
    if after <= TIMEOUT_MAX {
      assert Chunks(after) == [after] && [after][1..] == [];
    } else {
      ChunksSumToDelay(after - TIMEOUT_MAX);
      assert Chunks(after)[1..] == Chunks(after - TIMEOUT_MAX);
    }
  }

  // MARK: Runs

  datatype Step = Expires | Aborts

  predicate Enabled(s: State, step: Step) {
    step.Expires? ==> s.timeout.Some?
  }

  function Apply(s: State, step: Step): State
    requires Enabled(s, step)
  {
    match step
    case Expires => Expire(s)
    case Aborts => Abort(s)
  }

  ghost predicate ValidRun(s: State, steps: seq<Step>)
    decreases |steps|
  {
    steps == [] || (Enabled(s, steps[0]) && ValidRun(Apply(s, steps[0]), steps[1..]))
  }

  ghost function Run(s: State, steps: seq<Step>): State
    requires ValidRun(s, steps)
    decreases |steps|
  {
    if steps == [] then s else Run(Apply(s, steps[0]), steps[1..])
  }

  /** The chunks still to come, with the outstanding timer's first. */
  function Ahead(t: Timer): seq<real>
    requires t.next.Some? ==> t.next.value >= 0.0
  {
    [t.delay] + (if t.next.Some? then Chunks(t.next.value) else [])
  }

  ghost predicate Inv(s: State, after: real)
    requires after >= 0.0
  {
    && s.fired <= 1
    && (s.timeout.Some? ==>
          && (s.timeout.value.next.Some? ==> s.timeout.value.next.value >= 0.0)
          && s.fired == 0 && !s.aborted
          && s.spent + Ahead(s.timeout.value) == Chunks(after))
    && (s.timeout.None? && !s.aborted ==> s.fired == 1)
    && (s.fired == 1 ==> s.timeout.None? && s.spent == Chunks(after))
  }

  lemma StartTimerIsChunks(remaining: real)
    requires remaining >= 0.0
    ensures StartTimer(remaining).next.Some? ==> StartTimer(remaining).next.value >= 0.0
    ensures Ahead(StartTimer(remaining)) == Chunks(remaining)
  {
  }

  lemma StepKeepsInv(s: State, step: Step, after: real)
    requires after >= 0.0 && Inv(s, after) && Enabled(s, step)
    ensures Inv(Apply(s, step), after)
  {
    if step.Expires? {
      var t := s.timeout.value;
      if t.next.Some? {
        StartTimerIsChunks(t.next.value);
        assert s.spent + [t.delay] + Chunks(t.next.value) == s.spent + Ahead(t);
      } else {
        assert s.spent + [t.delay] == s.spent + Ahead(t);
      }
    }
  }

  lemma {:induction false} RunKeepsInv(s: State, steps: seq<Step>, after: real)
    requires after >= 0.0 && Inv(s, after) && ValidRun(s, steps)
    ensures Inv(Run(s, steps), after)
    decreases |steps|
  {
    if steps != [] {
      StepKeepsInv(s, steps[0], after);
      RunKeepsInv(Apply(s, steps[0]), steps[1..], after);
    }
  }

  /**
  Over every run of a long timeout: the listener is called at most once, and when
  it has been, exactly the chunks of the delay have passed; while it has not been
  called and no one aborted, exactly one timer is outstanding and the passed
  chunks begin the delay's.
  */
  lemma FiresOnceAfterTheDelay(after: real, steps: seq<Step>)
    requires after >= 0.0 && ValidRun(Begin(after), steps)
    ensures var s := Run(Begin(after), steps);
            && s.fired <= 1
            && (s.fired == 1 ==> s.spent == Chunks(after) && Sum(s.spent) == after)
            && (!s.aborted ==> (s.fired == 1 <==> s.timeout.None?))
            && (s.timeout.Some? ==> s.fired == 0 && s.spent < Chunks(after) && s.timeout.value.delay <= 2147483647.0)
  {
    StartTimerIsChunks(after);
    assert [] + Chunks(after) == Chunks(after);
    RunKeepsInv(Begin(after), steps, after);
    ChunksSumToDelay(after);
    var s := Run(Begin(after), steps);
    if s.timeout.Some? {
      assert Chunks(after)[|s.spent|] == s.timeout.value.delay;
    }
  }

  /** Nothing is called after an abort. */
  lemma {:induction false} NeverAfterAbort(s: State, steps: seq<Step>)
    requires s.timeout.None? && ValidRun(s, steps)
    ensures Run(s, steps).fired == s.fired && Run(s, steps).timeout.None?
    decreases |steps|
  {
    if steps != [] {
      NeverAfterAbort(Apply(s, steps[0]), steps[1..]);
    }
  }

  /** Without an abort, as many expirations as there are chunks call the listener. */
  lemma {:induction false} ExpiriesReachTheListener(s: State, after: real) returns (steps: seq<Step>)
    requires after >= 0.0 && Inv(s, after) && s.timeout.Some?
    ensures ValidRun(s, steps) && Run(s, steps).fired == 1
    ensures |s.spent| + |steps| == |Chunks(after)|
    ensures forall step | step in steps :: step == Expires
    decreases |Chunks(after)| - |s.spent|
  {
    StepKeepsInv(s, Expires, after);
    var s' := Expire(s);
    if s'.timeout.Some? {
      var rest := ExpiriesReachTheListener(s', after);
      steps := [Expires] + rest;
      assert steps[1..] == rest;
    } else {
      steps := [Expires];
      assert steps[1..] == [];
      assert ValidRun(s', []);
    }
  }
}
