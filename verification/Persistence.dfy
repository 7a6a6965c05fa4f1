/**
Write-behind persistence of an actor instance: `#savePersistThrottled`,
`#savePersistInner`, `saveState` and the flush of `_stop` in
packages/rivetkit/src/actor/instance.ts, over the coalescing write queue.

What is persisted is named by two counters: the number of changes made to
`state`, which set the dirty flag, and the number of changes made to the rest
of the record (connections and scheduled events), which do not.
*/
module Persistence {
  import opened Options
  import opened PromiseQueues

  datatype Version = Version(state: nat, rest: nat)

  datatype SaveOp = SaveOp

  datatype Outcome = Writing | Landed | Failed

  /** The write the queue is awaiting: what its operation captured when it started. */
  datatype Write = Write(snapshot: Version, outcome: Outcome)

  /** How far `_stop` has come; `target` is the version in memory at its flush. */
  datatype Stop =
    | Running
    | Flushing(target: Version, waits: Option<nat>)
    | Draining(target: Version)
    | Drained(target: Version)
    | Stopped(target: Version)

  datatype Waiter = Waiter(cycle: nat, version: nat)

  /** A handler ended at `at` with `state` at `version`. */
  datatype HandlerEnd = HandlerEnd(version: nat, at: int)

  /** The fields of the instance that decide when a write happens. `timer` is the throttle timer's due time. */
  datatype Saver = Saver(dirty: bool, queue: Queue<SaveOp>, lastSaveTime: int, timer: Option<int>)

  /**
  `attempted` is the last snapshot a write captured. `cancelled` says that `_stop`
  found the throttle timer pending: it cancels the timer and leaves the field set.
  Handlers that end after that are kept apart in `lateEnds`.
  */
  datatype State = State(saver: Saver,
                         interval: nat,
                         now: int,
                         current: Version,
                         attempted: Version,
                         write: Option<Write>,
                         stored: Version,
                         lastWriteOk: bool,
                         anyFailed: bool,
                         resolved: set<nat>,
                         waiters: set<Waiter>,
                         handlerEnds: set<HandlerEnd>,
                         cancelled: bool,
                         lateEnds: set<HandlerEnd>,
                         stop: Stop)

  // MARK: The operations on the instance's fields

  /** `#savePersistInner` up to its first `await`; the operation clears the flag as it starts. */
  function SaveInner(v: Saver, now: int): Saver {
    if v.dirty then
      v.(lastSaveTime := now, queue := Enqueued(v.queue, SaveOp), dirty := v.queue.running.Some?)
    else
      v.(lastSaveTime := now)
  }

  function SaveThrottled(v: Saver, now: int, interval: nat): Saver {
    if now - v.lastSaveTime < interval then
      if v.timer.None? then v.(timer := Some(now + (interval - (now - v.lastSaveTime)))) else v
    else
      SaveInner(v, now)
  }

  /** The write settled: the drain loop starts the queued operation or ends. */
  function WriteSettled(v: Saver): Saver
    requires v.queue.running.Some?
  {
    v.(queue := Settled(v.queue), dirty := v.dirty && v.queue.queuedOp.None?)
  }

  // MARK: The whole system, step by step

  datatype Step =
    | ChangeState
    | ChangeRest
    | EndHandler(now: int)
    | SaveImmediate(now: int)
    | FireTimer(now: int)
    | WriteLands
    | WriteFails
    | WriteSettles
    | StopFlush(now: int)
    | StopCheck
    | StopFinish

  predicate Later(s: State, now: int) {
    s.now <= now
  }

  predicate Enabled(s: State, step: Step) {
    match step
    case ChangeState => true
    case ChangeRest => true
    case EndHandler(now) => Later(s, now)
    case SaveImmediate(now) => Later(s, now)
    case FireTimer(now) => Later(s, now) && s.saver.timer.Some? && s.saver.timer.value <= now && !s.cancelled
    case WriteLands => s.write.Some? && s.write.value.outcome.Writing?
    case WriteFails => s.write.Some? && s.write.value.outcome.Writing?
    case WriteSettles => s.saver.queue.running.Some? && s.write.Some? && !s.write.value.outcome.Writing?
    case StopFlush(now) => Later(s, now) && s.stop.Running?
    case StopCheck => s.stop.Flushing? && (s.stop.waits.Some? ==> s.stop.waits.value in s.resolved)
    case StopFinish => s.stop.Drained?
  }

  /** Installs the new fields; if a write began, its operation captured the current version. */
  function WithSaver(s: State, v: Saver, began: bool): State {
    if began then
      s.(saver := v, attempted := s.current, write := Some(Write(s.current, Writing)))
    else
      s.(saver := v)
  }

  /** Whether `SaveInner` starts a write at once. */
  predicate BeginsWrite(v: Saver) {
    v.dirty && v.queue.running.None?
  }

  function AfterSave(s: State, v: Saver, now: int): State {
    WithSaver(s, SaveInner(v, now), BeginsWrite(v)).(now := now)
  }

  /** The cycle a save of the dirty state will wait for. */
  function SaveCycle(v: Saver): Option<nat> {
    if v.dirty then Some(JoinedCycle(v.queue)) else None
  }

  function WithWaiter(s: State, cycle: Option<nat>): State {
    if cycle.Some? then s.(waiters := s.waiters + {Waiter(cycle.value, s.current.state)}) else s
  }

  function Apply(s: State, step: Step): State
    requires Enabled(s, step)
  {
    match step
    case ChangeState =>
      s.(current := s.current.(state := s.current.state + 1), saver := s.saver.(dirty := true))
    case ChangeRest =>
      s.(current := s.current.(rest := s.current.rest + 1))
    case EndHandler(now) =>
      var saves := now - s.saver.lastSaveTime >= s.interval;
      var s' := WithSaver(s, SaveThrottled(s.saver, now, s.interval), saves && BeginsWrite(s.saver)).(now := now);
      var h := HandlerEnd(s.current.state, now);
      if s.cancelled then s'.(lateEnds := s.lateEnds + {h}) else s'.(handlerEnds := s.handlerEnds + {h})
    case SaveImmediate(now) =>
      if s.saver.dirty
      then WithWaiter(AfterSave(s, s.saver, now), SaveCycle(s.saver))
      else s.(now := now)
    case FireTimer(now) =>
      AfterSave(s, s.saver.(timer := None), now)
    case WriteLands =>
      s.(stored := s.write.value.snapshot, write := Some(s.write.value.(outcome := Landed)), lastWriteOk := true)
    case WriteFails =>
      s.(write := Some(s.write.value.(outcome := Failed)), lastWriteOk := false, anyFailed := true)
    case WriteSettles =>
      var resolver := s.saver.queue.running.value.resolver;
      var s' := WithSaver(s.(write := None), WriteSettled(s.saver), s.saver.queue.queuedOp.Some?);
      s'.(resolved := s.resolved + (if resolver.Some? then {resolver.value} else {}),
          stop := if s'.saver.queue.running.None? && s.stop.Draining? then Drained(s.stop.target) else s.stop)
    case StopFlush(now) =>
      var s' := if s.saver.dirty
                then WithWaiter(AfterSave(s, s.saver, now), SaveCycle(s.saver))
                else s.(now := now);
      s'.(stop := Flushing(s.current, SaveCycle(s.saver)), cancelled := s.saver.timer.Some?)
    case StopCheck =>
      s.(stop := if s.saver.queue.running.None? then Drained(s.stop.target) else Draining(s.stop.target))
    case StopFinish =>
      s.(stop := Stopped(s.stop.target))
  }

  ghost predicate ValidRun(s: State, steps: seq<Step>)
    decreases |steps|
  {
    steps == [] || (Enabled(s, steps[0]) && ValidRun(Apply(s, steps[0]), steps[1..]))
  }

  ghost function Run(s: State, steps: seq<Step>): State
    requires ValidRun(s, steps)
    decreases |steps|
  {
    if steps == [] then s else Run(Apply(s, steps[0]), steps[1..])
  }

  /** A started instance whose record has just been read from, or first written to, storage. */
  ghost predicate Loaded(s: State) {
    && s.saver == Saver(false, Empty(), 0, None)
    && s.now >= 0
    && s.current == s.attempted == s.stored
    && s.write == None
    && s.lastWriteOk && !s.anyFailed
    && s.resolved == {} && s.waiters == {} && s.handlerEnds == {}
    && !s.cancelled && s.lateEnds == {} && s.stop == Running
  }

  // MARK: Invariants

  ghost predicate QueueAgrees(s: State) {
    && WellFormed(s.saver.queue)
    && (s.write.Some? <==> s.saver.queue.running.Some?)
    && (s.saver.queue.queuedOp.Some? ==> s.saver.dirty)
    && (forall c | c in s.resolved :: c < s.saver.queue.nextCycle)
    && (forall c | 0 <= c < s.saver.queue.nextCycle ::
          c in s.resolved || s.saver.queue.pending == Some(c) || RunningIs(s.saver.queue, c))
    && (s.saver.queue.pending.Some? ==> s.saver.queue.pending.value !in s.resolved)
    && (s.saver.queue.running.Some? && s.saver.queue.running.value.resolver.Some? ==>
          s.saver.queue.running.value.resolver.value !in s.resolved)
  }

  /** The dirty flag is set exactly while a change to `state` has not been captured. */
  ghost predicate FlagIsExact(s: State) {
    && s.attempted.state <= s.current.state
    && s.attempted.rest <= s.current.rest
    && (s.saver.dirty <==> s.attempted.state < s.current.state)
  }

  ghost predicate StorageAgrees(s: State) {
    && s.stored.state <= s.attempted.state
    && s.stored.rest <= s.attempted.rest
    && (s.write.Some? ==> s.write.value.snapshot == s.attempted)
    && (s.write.Some? && !s.write.value.outcome.Landed? ==> s.stored.state < s.attempted.state)
    && (s.write.Some? && s.write.value.outcome.Landed? ==> s.stored == s.attempted && s.lastWriteOk)
    && (s.write.Some? && s.write.value.outcome.Failed? ==> !s.lastWriteOk)
    && (s.write.None? && s.lastWriteOk ==> s.stored == s.attempted)
    && (s.write.None? && !s.lastWriteOk ==> s.stored.state < s.attempted.state)
    && (!s.lastWriteOk ==> s.anyFailed)
  }

  ghost predicate WaiterAnswered(s: State, w: Waiter) {
    && w.cycle < s.saver.queue.nextCycle
    && w.version <= s.current.state
    && (RunningIs(s.saver.queue, w.cycle) ==> w.version <= s.attempted.state)
    && (w.cycle in s.resolved ==> w.version <= s.attempted.state)
    && (w.cycle in s.resolved && !s.anyFailed ==> w.version <= s.stored.state)
  }

  ghost predicate WaitersAnswered(s: State) {
    forall w | w in s.waiters :: WaiterAnswered(s, w)
  }

  ghost predicate StopAgrees(s: State) {
    match s.stop
    case Running => true
    case Flushing(target, waits) =>
      && target.state <= s.current.state
      && (waits.None? ==> target.state <= s.attempted.state)
      && (waits.Some? ==> Waiter(waits.value, target.state) in s.waiters)
    case Draining(target) => target.state <= s.attempted.state
    case Drained(target) => !s.anyFailed ==> target.state <= s.stored.state
    case Stopped(target) => !s.anyFailed ==> target.state <= s.stored.state
  }

  ghost predicate TimerAgrees(s: State) {
    && 0 <= s.saver.lastSaveTime <= s.now
    && (s.cancelled ==> s.saver.timer.Some? && !s.stop.Running?)
    && (s.saver.timer.Some? ==> s.saver.timer.value <= s.saver.lastSaveTime + s.interval)
  }

  /** A version is captured, or a write is queued, or the throttle timer will fire in time. */
  ghost predicate WillBeSaved(s: State, h: HandlerEnd) {
    || h.version <= s.attempted.state
    || s.saver.queue.queuedOp.Some?
    || (s.saver.timer.Some? && !s.cancelled && s.saver.timer.value <= h.at + s.interval)
  }

  ghost predicate HandlersAgree(s: State) {
    forall h | h in s.handlerEnds :: h.version <= s.current.state && h.at <= s.now && WillBeSaved(s, h)
  }

  ghost predicate Inv(s: State) {
    && QueueAgrees(s)
    && FlagIsExact(s)
    && StorageAgrees(s)
    && WaitersAnswered(s)
    && StopAgrees(s)
    && TimerAgrees(s)
    && HandlersAgree(s)
  }

  /** `SaveInner` by itself, with or without the timer cleared, at a later time. */
  ghost predicate SaveAllowed(s: State, timer: Option<int>, now: int) {
    && Inv(s) && Later(s, now)
    && (timer == s.saver.timer || timer.None?)
    && (timer != s.saver.timer ==> !s.cancelled)
  }

  lemma SaveKeepsQueue(s: State, timer: Option<int>, now: int)
    requires SaveAllowed(s, timer, now)
    ensures var s' := AfterSave(s, s.saver.(timer := timer), now);
            QueueAgrees(s') && FlagIsExact(s') && StorageAgrees(s')
  {
  }

  lemma SaveKeepsInv(s: State, timer: Option<int>, now: int)
    requires SaveAllowed(s, timer, now)
    ensures Inv(AfterSave(s, s.saver.(timer := timer), now))
  {
    SaveKeepsQueue(s, timer, now);
  }

  /** After a save nothing is left uncaptured, unless a write is queued for it. */
  lemma SaveCaptures(s: State, timer: Option<int>, now: int)
    requires SaveAllowed(s, timer, now)
    ensures var s' := AfterSave(s, s.saver.(timer := timer), now);
            s'.current.state <= s'.attempted.state || s'.saver.queue.queuedOp.Some?
  {
  }

  /** The cycle a save of dirty state joins is not resolved yet. */
  lemma SaveJoinsOpenCycle(s: State, now: int)
    requires Inv(s) && Later(s, now) && s.saver.dirty
    ensures var s' := AfterSave(s, s.saver, now);
            && JoinedCycle(s.saver.queue) < s'.saver.queue.nextCycle
            && JoinedCycle(s.saver.queue) !in s'.resolved
            && (RunningIs(s'.saver.queue, JoinedCycle(s.saver.queue)) ==> s'.attempted == s'.current)
  {
  }

  lemma WaiterKeepsInv(s: State, cycle: nat)
    requires Inv(s)
    requires cycle < s.saver.queue.nextCycle && cycle !in s.resolved
    requires RunningIs(s.saver.queue, cycle) ==> s.attempted == s.current
    ensures Inv(WithWaiter(s, Some(cycle)))
  {
  }

  lemma SaveImmediateKeepsInv(s: State, now: int)
    requires Inv(s) && Later(s, now)
    ensures Inv(Apply(s, SaveImmediate(now)))
  {
    SaveKeepsInv(s, s.saver.timer, now);
    if s.saver.dirty {
      SaveJoinsOpenCycle(s, now);
      WaiterKeepsInv(AfterSave(s, s.saver, now), JoinedCycle(s.saver.queue));
    }
  }

  /** Inside the throttle window: a timer is armed unless one already is. */
  lemma ThrottleKeepsInv(s: State, now: int)
    requires Inv(s) && Later(s, now)
    requires now - s.saver.lastSaveTime < s.interval
    ensures var s' := s.(saver := SaveThrottled(s.saver, now, s.interval), now := now);
            Inv(s') && s'.saver.timer.Some? && s'.saver.timer.value <= now + s'.interval
  {
  }

  lemma HandlerEndKeepsInv(s: State, h: HandlerEnd)
    requires Inv(s)
    requires h.version <= s.current.state && h.at <= s.now
    requires WillBeSaved(s, h)
    ensures Inv(s.(handlerEnds := s.handlerEnds + {h}))
  {
  }

  /** What is left of `EndHandler` once the timer is armed or the save made. */
  lemma RecordEndKeepsInv(s': State, cancelled: bool, h: HandlerEnd)
    requires Inv(s')
    requires h.version <= s'.current.state && h.at <= s'.now
    requires !cancelled ==> WillBeSaved(s', h)
    ensures Inv(if cancelled then s'.(lateEnds := s'.lateEnds + {h}) else s'.(handlerEnds := s'.handlerEnds + {h}))
  {
    if !cancelled { HandlerEndKeepsInv(s', h); }
  }

  lemma EndHandlerKeepsInv(s: State, now: int)
    requires Inv(s) && Later(s, now)
    ensures Inv(Apply(s, EndHandler(now)))
  {
    var h := HandlerEnd(s.current.state, now);
    if now - s.saver.lastSaveTime < s.interval {
      ThrottleKeepsInv(s, now);
      RecordEndKeepsInv(s.(saver := SaveThrottled(s.saver, now, s.interval), now := now), s.cancelled, h);
    } else {
      SaveKeepsInv(s, s.saver.timer, now);
      SaveCaptures(s, s.saver.timer, now);
      RecordEndKeepsInv(AfterSave(s, s.saver, now), s.cancelled, h);
    }
  }

  lemma StopFlushKeepsInv(s: State, now: int)
    requires Inv(s) && Enabled(s, StopFlush(now))
    ensures Inv(Apply(s, StopFlush(now)))
  {
    SaveImmediateKeepsInv(s, now);
  }

  lemma WriteSettlesKeepsQueue(s: State)
    requires Inv(s) && Enabled(s, WriteSettles)
    ensures var s' := Apply(s, WriteSettles); QueueAgrees(s') && FlagIsExact(s') && StorageAgrees(s')
  {
  }

  lemma WriteSettlesKeepsPromises(s: State)
    requires Inv(s) && Enabled(s, WriteSettles)
    ensures var s' := Apply(s, WriteSettles); WaitersAnswered(s') && StopAgrees(s')
  {
  }

  lemma WriteSettlesKeepsInv(s: State)
    requires Inv(s) && Enabled(s, WriteSettles)
    ensures Inv(Apply(s, WriteSettles))
  {
    WriteSettlesKeepsQueue(s);
    WriteSettlesKeepsPromises(s);
  }

  lemma ChangeKeepsInv(s: State, step: Step)
    requires Inv(s) && (step.ChangeState? || step.ChangeRest?)
    ensures Inv(Apply(s, step))
  {
  }

  lemma OutcomeKeepsInv(s: State, step: Step)
    requires Inv(s) && Enabled(s, step) && (step.WriteLands? || step.WriteFails?)
    ensures Inv(Apply(s, step))
  {
  }

  lemma StopKeepsInv(s: State, step: Step)
    requires Inv(s) && Enabled(s, step) && (step.StopCheck? || step.StopFinish?)
    ensures Inv(Apply(s, step))
  {
    if step.StopCheck? && s.stop.waits.Some? {
      assert WaiterAnswered(s, Waiter(s.stop.waits.value, s.stop.target.state));
    }
  }

  lemma StepKeepsInv(s: State, step: Step)
    requires Inv(s) && Enabled(s, step)
    ensures Inv(Apply(s, step))
  {
    if step.ChangeState? || step.ChangeRest? {
      ChangeKeepsInv(s, step);
    } else if step.WriteLands? || step.WriteFails? {
      OutcomeKeepsInv(s, step);
    } else if step.StopCheck? || step.StopFinish? {
      StopKeepsInv(s, step);
    } else if step.EndHandler? {
      EndHandlerKeepsInv(s, step.now);
    } else if step.SaveImmediate? {
      SaveImmediateKeepsInv(s, step.now);
    } else if step.FireTimer? {
      SaveKeepsInv(s, None, step.now);
    } else if step.WriteSettles? {
      WriteSettlesKeepsInv(s);
    } else {
      StopFlushKeepsInv(s, step.now);
    }
  }

  lemma {:induction false} RunKeepsInv(s: State, steps: seq<Step>)
    requires Inv(s) && ValidRun(s, steps)
    ensures Inv(Run(s, steps))
    decreases |steps|
  {
    if steps != [] {
      StepKeepsInv(s, steps[0]);
      RunKeepsInv(Apply(s, steps[0]), steps[1..]);
    }
  }

  lemma LoadedSatisfiesInv(s: State)
    requires Loaded(s)
    ensures Inv(s)
  {
  }

  // MARK: Durability

  /**
  Over every run: a clear flag means the latest captured snapshot is the current
  `state`; when in addition no write is under way, storage holds that `state`
  exactly if the last write did not fail (the flag is cleared before the write,
  and the queue swallows its failure).
  */
  lemma CleanMeansCaptured(s: State, steps: seq<Step>)
    requires Loaded(s) && ValidRun(s, steps)
    ensures var t := Run(s, steps);
            && (!t.saver.dirty <==> t.attempted.state == t.current.state)
            && (t.write.Some? ==> t.write.value.snapshot == t.attempted)
            && (t.write.None? && !t.saver.dirty ==> (t.stored.state == t.current.state <==> t.lastWriteOk))
  {
    LoadedSatisfiesInv(s);
    RunKeepsInv(s, steps);
  }

  lemma StepNeverGoesBack(s: State, step: Step)
    requires StorageAgrees(s) && Enabled(s, step)
    ensures s.stored.state <= Apply(s, step).stored.state && s.stored.rest <= Apply(s, step).stored.rest
  {
  }

  /** Storage never goes back to an earlier version. */
  lemma {:induction false} StorageNeverGoesBack(s: State, steps: seq<Step>)
    requires Inv(s) && ValidRun(s, steps)
    ensures s.stored.state <= Run(s, steps).stored.state
    ensures s.stored.rest <= Run(s, steps).stored.rest
    decreases |steps|
  {
    if steps != [] {
      StepKeepsInv(s, steps[0]);
      StepNeverGoesBack(s, steps[0]);
      StorageNeverGoesBack(Apply(s, steps[0]), steps[1..]);
    }
  }

  lemma {:induction false} WaitersStay(s: State, steps: seq<Step>, w: Waiter)
    requires ValidRun(s, steps) && w in s.waiters
    ensures w in Run(s, steps).waiters
    decreases |steps|
  {
    if steps != [] {
      WaitersStay(Apply(s, steps[0]), steps[1..], w);
    }
  }

  /**
  `saveState({immediate: true})` on dirty state: whenever its promise has
  resolved, storage holds at least the version at the call, unless a write failed.
  */
  lemma ImmediateSaveIsDurable(s: State, now: int, steps: seq<Step>)
    requires Inv(s) && s.saver.dirty && Later(s, now)
    requires ValidRun(Apply(s, SaveImmediate(now)), steps)
    ensures var t := Run(Apply(s, SaveImmediate(now)), steps);
            JoinedCycle(s.saver.queue) in t.resolved && !t.anyFailed ==> s.current.state <= t.stored.state
  {
    var s' := Apply(s, SaveImmediate(now));
    var w := Waiter(JoinedCycle(s.saver.queue), s.current.state);
    StepKeepsInv(s, SaveImmediate(now));
    RunKeepsInv(s', steps);
    WaitersStay(s', steps, w);
    assert WaiterAnswered(Run(s', steps), w);
  }

  /** When `_stop` has finished, storage holds at least the version at its flush, unless a write failed. */
  lemma StopIsDurable(s: State, steps: seq<Step>)
    requires Loaded(s) && ValidRun(s, steps)
    ensures var t := Run(s, steps);
            t.stop.Stopped? && !t.anyFailed ==> t.stop.target.state <= t.stored.state
  {
    LoadedSatisfiesInv(s);
    RunKeepsInv(s, steps);
  }

  /**
  Bounded staleness: every version of `state` that existed when a handler ended is
  captured, or a write is queued, or the throttle timer is armed to fire within
  `stateSaveInterval` of that moment. It holds for every handler, before and after
  `_stop`, except those that end after `_stop` cancelled a pending timer.
  */
  lemma StalenessIsBounded(s: State, steps: seq<Step>)
    requires Loaded(s) && ValidRun(s, steps)
    ensures var t := Run(s, steps);
            && (forall h | h in t.handlerEnds :: WillBeSaved(t, h))
            && (t.stop.Running? ==> !t.cancelled)
  {
    LoadedSatisfiesInv(s);
    RunKeepsInv(s, steps);
  }

  /**
  A handler that ends after the timer was cancelled: its changes will be saved
  exactly if there are none to capture, a write is queued already, or the throttle
  window is over. The field of the cancelled timer keeps a new one from being armed.
  */
  lemma LateHandlerIsSavedIff(s: State, now: int)
    requires Inv(s) && Later(s, now) && s.cancelled
    ensures var t := Apply(s, EndHandler(now));
            WillBeSaved(t, HandlerEnd(s.current.state, now))
            <==> !s.saver.dirty || s.saver.queue.queuedOp.Some? || now - s.saver.lastSaveTime >= s.interval
  {
    SaveCaptures(s, s.saver.timer, now);
  }

  /**
  `_stop` flushes the state of the moment: when it has finished, and no write failed,
  storage holds at least that, whatever happened in between.
  */
  lemma FlushIsDurable(s: State, now: int, steps: seq<Step>)
    requires Inv(s) && Enabled(s, StopFlush(now)) && ValidRun(Apply(s, StopFlush(now)), steps)
    ensures var t := Run(Apply(s, StopFlush(now)), steps);
            t.stop.Stopped? && !t.anyFailed ==> s.current.state <= t.stored.state
  {
    StepKeepsInv(s, StopFlush(now));
    RunKeepsInv(Apply(s, StopFlush(now)), steps);
    TargetStays(Apply(s, StopFlush(now)), steps, s.current);
  }

  ghost predicate StopTargets(s: State, target: Version) {
    && (s.stop.Flushing? ==> s.stop.target == target)
    && (s.stop.Draining? ==> s.stop.target == target)
    && (s.stop.Drained? ==> s.stop.target == target)
    && (s.stop.Stopped? ==> s.stop.target == target)
    && !s.stop.Running?
  }

  lemma {:induction false} TargetStays(s: State, steps: seq<Step>, target: Version)
    requires ValidRun(s, steps) && StopTargets(s, target)
    ensures StopTargets(Run(s, steps), target)
    decreases |steps|
  {
    if steps != [] {
      TargetStays(Apply(s, steps[0]), steps[1..], target);
    }
  }

  // MARK: Promises are kept

  /** How many writes must settle before the callers of a cycle are answered. */
  ghost function WritesUntil(s: State, cycle: nat): nat {
    if cycle in s.resolved then 0
    else if RunningIs(s.saver.queue, cycle) then 1
    else 2
  }

  lemma SettlingBringsAnswer(s: State, cycle: nat)
    requires QueueAgrees(s) && Enabled(s, WriteSettles) && cycle < s.saver.queue.nextCycle
    ensures var s' := Apply(s, WriteSettles);
            && cycle < s'.saver.queue.nextCycle
            && (WritesUntil(s, cycle) > 0 ==> WritesUntil(s', cycle) < WritesUntil(s, cycle))
            && (WritesUntil(s, cycle) == 0 ==> WritesUntil(s', cycle) == 0)
  {
  }

  lemma OtherStepsDelayNothing(s: State, step: Step, cycle: nat)
    requires QueueAgrees(s) && Enabled(s, step) && !step.WriteSettles? && cycle < s.saver.queue.nextCycle
    ensures var s' := Apply(s, step);
            cycle < s'.saver.queue.nextCycle && WritesUntil(s', cycle) <= WritesUntil(s, cycle)
  {
  }

  lemma StepBringsAnswer(s: State, step: Step, cycle: nat)
    requires Inv(s) && Enabled(s, step) && cycle < s.saver.queue.nextCycle
    ensures cycle < Apply(s, step).saver.queue.nextCycle
    ensures WritesUntil(Apply(s, step), cycle)
         <= if step.WriteSettles? && WritesUntil(s, cycle) > 0 then WritesUntil(s, cycle) - 1 else WritesUntil(s, cycle)
  {
    if step.WriteSettles? {
      SettlingBringsAnswer(s, cycle);
    } else {
      OtherStepsDelayNothing(s, step, cycle);
    }
  }

  function WritesSettled(steps: seq<Step>): nat {
    if steps == [] then 0 else (if steps[0].WriteSettles? then 1 else 0) + WritesSettled(steps[1..])
  }

  lemma {:induction false} AnswerComes(s: State, steps: seq<Step>, cycle: nat)
    requires Inv(s) && ValidRun(s, steps) && cycle < s.saver.queue.nextCycle
    requires WritesSettled(steps) >= WritesUntil(s, cycle)
    ensures cycle in Run(s, steps).resolved
    decreases |steps|
  {
    if steps != [] {
      StepBringsAnswer(s, steps[0], cycle);
      StepKeepsInv(s, steps[0]);
      AnswerComes(Apply(s, steps[0]), steps[1..], cycle);
    }
  }

  /** The promise of an immediate save of dirty state has resolved after two settled writes at the latest. */
  lemma ImmediateSaveIsAnswered(s: State, now: int, steps: seq<Step>)
    requires Inv(s) && s.saver.dirty && Later(s, now)
    requires ValidRun(Apply(s, SaveImmediate(now)), steps) && WritesSettled(steps) >= 2
    ensures JoinedCycle(s.saver.queue) in Run(Apply(s, SaveImmediate(now)), steps).resolved
  {
    StepKeepsInv(s, SaveImmediate(now));
    SaveJoinsOpenCycle(s, now);
    AnswerComes(Apply(s, SaveImmediate(now)), steps, JoinedCycle(s.saver.queue));
  }

  /** A failure is recorded exactly when a write has failed, and only a landing write changes storage. */
  lemma {:induction false} FailuresAreHistory(s: State, steps: seq<Step>)
    requires ValidRun(s, steps)
    ensures Run(s, steps).anyFailed <==> s.anyFailed || WriteFails in steps
    ensures WriteLands !in steps ==> Run(s, steps).stored == s.stored
    decreases |steps|
  {
    if steps != [] {
      StepRecordsFailure(s, steps[0]);
      FailuresAreHistory(Apply(s, steps[0]), steps[1..]);
      assert forall step :: step in steps <==> step == steps[0] || step in steps[1..];
    }
  }

  lemma StepRecordsFailure(s: State, step: Step)
    requires Enabled(s, step)
    ensures Apply(s, step).anyFailed <==> s.anyFailed || step.WriteFails?
    ensures Apply(s, step).stored == (if step.WriteLands? then s.write.value.snapshot else s.stored)
    ensures Apply(s, step).lastWriteOk
         <==> if step.WriteLands? then true else if step.WriteFails? then false else s.lastWriteOk
  {
  }

  // MARK: The throttle

  /** The step ends a handler outside the throttle window, or is the throttle timer: it saves. */
  predicate ThrottledSave(s: State, step: Step) {
    match step
    case EndHandler(now) => now - s.saver.lastSaveTime >= s.interval
    case FireTimer(_) => true
    case _ => false
  }

  /** The step is an immediate save, or the flush of `_stop`, of dirty state. */
  predicate ImmediateSave(s: State, step: Step) {
    (step.SaveImmediate? || step.StopFlush?) && s.saver.dirty
  }

  /** Every save, and nothing else, sets the time of the last save; only the throttle touches its timer. */
  lemma StepSetsTimes(s: State, step: Step)
    requires Enabled(s, step)
    ensures var t := Apply(s, step);
            && t.interval == s.interval
            && t.saver.lastSaveTime
               == (if ThrottledSave(s, step) || ImmediateSave(s, step) then step.now else s.saver.lastSaveTime)
            && t.saver.timer
               == (match step
                   case FireTimer(_) => None
                   case EndHandler(now) =>
                     if !ThrottledSave(s, step) && s.saver.timer.None?
                     then Some(s.saver.lastSaveTime + s.interval) else s.saver.timer
                   case _ => s.saver.timer)
  {
  }

  /** A step starts a write only for a state that has not been captured. */
  lemma NoRedundantWrites(s: State, step: Step)
    requires Inv(s) && Enabled(s, step)
    ensures Apply(s, step).attempted == s.attempted || s.attempted.state < Apply(s, step).attempted.state
  {
  }

  /** The save leaves an overdue timer behind: a handler's end found the timer not fired yet. */
  predicate LeavesTimer(s: State, step: Step) {
    step.EndHandler? && s.saver.timer.Some?
  }

  /** Nothing in the future of the state can make the throttle save before `due`. */
  ghost predicate NoneBefore(s: State, due: int) {
    && due <= s.saver.lastSaveTime + s.interval
    && (s.saver.timer.Some? ==> due <= s.saver.timer.value)
  }

  lemma StepKeepsNoneBefore(s: State, step: Step, due: int)
    requires NoneBefore(s, due) && Enabled(s, step) && !ThrottledSave(s, step) && s.saver.lastSaveTime <= s.now
    ensures NoneBefore(Apply(s, step), due) && Apply(s, step).saver.lastSaveTime <= Apply(s, step).now
  {
    StepSetsTimes(s, step);
  }

  ghost predicate NoThrottledSave(s: State, steps: seq<Step>)
    requires ValidRun(s, steps)
    decreases |steps|
  {
    steps != [] ==> !ThrottledSave(s, steps[0]) && NoThrottledSave(Apply(s, steps[0]), steps[1..])
  }

  lemma {:induction false} RunKeepsNoneBefore(s: State, steps: seq<Step>, due: int)
    requires ValidRun(s, steps) && NoThrottledSave(s, steps)
    requires NoneBefore(s, due) && s.saver.lastSaveTime <= s.now
    ensures NoneBefore(Run(s, steps), due)
    decreases |steps|
  {
    if steps != [] {
      StepKeepsNoneBefore(s, steps[0], due);
      RunKeepsNoneBefore(Apply(s, steps[0]), steps[1..], due);
    }
  }

  /**
  The throttle: after a save at a handler's end, or by the timer, the next such save is
  at least `interval` later, whatever else is saved in between, unless the first one
  was at a handler's end and left an overdue timer behind.
  */
  lemma ThrottledSavesAreApart(s: State, first: Step, steps: seq<Step>, second: Step)
    requires Inv(s) && Enabled(s, first) && ThrottledSave(s, first) && !LeavesTimer(s, first)
    requires ValidRun(Apply(s, first), steps) && NoThrottledSave(Apply(s, first), steps)
    requires var t := Run(Apply(s, first), steps); Enabled(t, second) && ThrottledSave(t, second)
    ensures second.now >= first.now + s.interval
  {
    StepSetsTimes(s, first);
    RunKeepsNoneBefore(Apply(s, first), steps, first.now + s.interval);
    IntervalStays(Apply(s, first), steps);
  }

  lemma {:induction false} IntervalStays(s: State, steps: seq<Step>)
    requires ValidRun(s, steps)
    ensures Run(s, steps).interval == s.interval
    decreases |steps|
  {
    if steps != [] {
      StepSetsTimes(s, steps[0]);
      IntervalStays(Apply(s, steps[0]), steps[1..]);
    }
  }

  /** The exception is real: a timer that is left behind, and was not cancelled, can save again at once. */
  lemma OverdueTimerSavesAgain(s: State, first: Step)
    requires Inv(s) && Enabled(s, first) && ThrottledSave(s, first) && LeavesTimer(s, first) && !s.cancelled
    ensures var t := Apply(s, first);
            Enabled(t, FireTimer(first.now)) && ThrottledSave(t, FireTimer(first.now))
  {
    StepSetsTimes(s, first);
  }

  /** Until it fires or `_stop` cancels it, a pending timer stays as it was armed. */
  lemma {:induction false} TimerStaysUntilFired(s: State, steps: seq<Step>)
    requires ValidRun(s, steps) && s.saver.timer.Some?
    requires forall step | step in steps :: !step.FireTimer?
    ensures Run(s, steps).saver.timer == s.saver.timer
    decreases |steps|
  {
    if steps != [] {
      StepSetsTimes(s, steps[0]);
      TimerStaysUntilFired(Apply(s, steps[0]), steps[1..]);
    }
  }

  /** `_stop` cancels a pending timer: from its flush on, no run fires the throttle timer. */
  lemma CancelledTimerNeverFires(s: State, now: int, steps: seq<Step>)
    requires Enabled(s, StopFlush(now)) && s.saver.timer.Some?
    requires ValidRun(Apply(s, StopFlush(now)), steps)
    ensures forall step | step in steps :: !step.FireTimer?
  {
    CancelledStays(Apply(s, StopFlush(now)), steps);
  }

  lemma {:induction false} CancelledStays(s: State, steps: seq<Step>)
    requires s.cancelled && !s.stop.Running? && ValidRun(s, steps)
    ensures forall step | step in steps :: !step.FireTimer?
    decreases |steps|
  {
    if steps != [] {
      CancelledStays(Apply(s, steps[0]), steps[1..]);
      assert forall step | step in steps :: step == steps[0] || step in steps[1..];
    }
  }

  // MARK: What `_stop` does not flush

  /** Connections and scheduled events in memory at the flush will be part of a snapshot. */
  ghost predicate RestCaptured(s: State) {
    s.saver.dirty || s.attempted.rest == s.current.rest
  }

  /** A snapshot later than the flush has the rest of the record at the flush; an earlier one does not. */
  ghost predicate OnlyLaterHas(v: Version, target: Version) {
    target.rest <= v.rest <==> target.state < v.state
  }

  /** The rest of the record at the flush is captured or will be, or is only with a later change to `state`. */
  ghost predicate RestFate(s: State, target: Version, captured: bool) {
    && target.rest <= s.current.rest
    && (captured ==> target.rest <= s.attempted.rest || s.saver.queue.queuedOp.Some?)
    && target.state <= s.current.state
    && (!captured ==>
          && target.state <= s.attempted.state
          && OnlyLaterHas(s.attempted, target) && OnlyLaterHas(s.stored, target))
    && (match s.stop
        case Running => false
        case Flushing(t, waits) =>
          && t == target
          && (captured && waits.Some? ==>
                && waits.value < s.saver.queue.nextCycle
                && (waits.value in s.resolved || RunningIs(s.saver.queue, waits.value) ==>
                      target.rest <= s.attempted.rest)
                && (waits.value in s.resolved && !s.anyFailed ==> target.rest <= s.stored.rest))
          && (captured && waits.None? ==> target.rest <= s.attempted.rest)
        case Draining(t) => t == target && (captured ==> target.rest <= s.attempted.rest)
        case Drained(t) => t == target && (captured && !s.anyFailed ==> target.rest <= s.stored.rest)
        case Stopped(t) => t == target && (captured && !s.anyFailed ==> target.rest <= s.stored.rest))
  }

  lemma FlushSettlesRestFate(s: State, now: int)
    requires Inv(s) && Enabled(s, StopFlush(now))
    ensures RestFate(Apply(s, StopFlush(now)), s.current, RestCaptured(s))
  {
  }

  lemma SaveKeepsRestFate(s: State, timer: Option<int>, now: int, target: Version, captured: bool)
    requires Inv(s) && RestFate(s, target, captured)
    ensures RestFate(AfterSave(s, s.saver.(timer := timer), now), target, captured)
  {
  }

  lemma SettleKeepsRestFate(s: State, target: Version, captured: bool)
    requires Inv(s) && Enabled(s, WriteSettles) && RestFate(s, target, captured)
    ensures RestFate(Apply(s, WriteSettles), target, captured)
  {
  }

  lemma StopKeepsRestFate(s: State, step: Step, target: Version, captured: bool)
    requires Inv(s) && Enabled(s, step) && RestFate(s, target, captured)
    requires step.ChangeState? || step.ChangeRest? || step.WriteLands? || step.WriteFails?
             || step.StopCheck? || step.StopFinish?
    ensures RestFate(Apply(s, step), target, captured)
  {
  }

  lemma ThrottleKeepsRestFate(s: State, now: int, target: Version, captured: bool)
    requires RestFate(s, target, captured) && now - s.saver.lastSaveTime < s.interval
    ensures RestFate(s.(saver := SaveThrottled(s.saver, now, s.interval), now := now), target, captured)
  {
  }

  lemma EndHandlerKeepsRestFate(s: State, now: int, target: Version, captured: bool)
    requires Inv(s) && Later(s, now) && RestFate(s, target, captured)
    ensures RestFate(Apply(s, EndHandler(now)), target, captured)
  {
    if now - s.saver.lastSaveTime < s.interval {
      ThrottleKeepsRestFate(s, now, target, captured);
    } else {
      SaveKeepsRestFate(s, s.saver.timer, now, target, captured);
    }
  }

  lemma StepKeepsRestFate(s: State, step: Step, target: Version, captured: bool)
    requires Inv(s) && Enabled(s, step)
    requires RestFate(s, target, captured)
    ensures RestFate(Apply(s, step), target, captured)
  {
    if step.EndHandler? {
      EndHandlerKeepsRestFate(s, step.now, target, captured);
    } else if step.SaveImmediate? {
      SaveKeepsRestFate(s, s.saver.timer, step.now, target, captured);
    } else if step.FireTimer? {
      SaveKeepsRestFate(s, None, step.now, target, captured);
    } else if step.WriteSettles? {
      SettleKeepsRestFate(s, target, captured);
    } else {
      StopKeepsRestFate(s, step, target, captured);
    }
  }

  lemma {:induction false} RunKeepsRestFate(s: State, steps: seq<Step>, target: Version, captured: bool)
    requires Inv(s) && ValidRun(s, steps)
    requires RestFate(s, target, captured)
    ensures Inv(Run(s, steps)) && RestFate(Run(s, steps), target, captured)
    decreases |steps|
  {
    if steps != [] {
      StepKeepsInv(s, steps[0]);
      StepKeepsRestFate(s, steps[0], target, captured);
      RunKeepsRestFate(Apply(s, steps[0]), steps[1..], target, captured);
    }
  }

  /**
  Connections and scheduled events do not set the dirty flag. When `_stop` finishes
  and no write failed, storage holds the connections and events that were in memory at
  the flush exactly if the flag was set then, or nothing but already captured ones were
  there, or a change to `state` made after the flush was stored and took them along.
  */
  lemma RestSurvivesStopIff(s: State, now: int, steps: seq<Step>)
    requires Inv(s) && Enabled(s, StopFlush(now))
    requires ValidRun(Apply(s, StopFlush(now)), steps)
    ensures var t := Run(Apply(s, StopFlush(now)), steps);
            t.stop.Stopped? && !t.anyFailed ==>
              (s.current.rest <= t.stored.rest <==> RestCaptured(s) || s.current.state < t.stored.state)
  {
    StepKeepsInv(s, StopFlush(now));
    FlushSettlesRestFate(s, now);
    RunKeepsRestFate(Apply(s, StopFlush(now)), steps, s.current, RestCaptured(s));
  }

  /** An event scheduled on an otherwise unchanged actor is gone after sleep: a run that shows it. */
  lemma ScheduledEventLostBySleep(s: State)
    requires Loaded(s)
    ensures var steps := [ChangeRest, StopFlush(s.now), StopCheck, StopFinish];
            && ValidRun(s, steps)
            && Run(s, steps).stop.Stopped? && !Run(s, steps).anyFailed
            && Run(s, steps).stored.rest < Run(s, steps).stop.target.rest
  {
    var steps := [ChangeRest, StopFlush(s.now), StopCheck, StopFinish];
    var s1 := Apply(s, steps[0]);
    var s2 := Apply(s1, steps[1]);
    var s3 := Apply(s2, steps[2]);
    var s4 := Apply(s3, steps[3]);
    assert ValidRun(s4, []) && Run(s4, []) == s4;
    assert steps[3..] == [StopFinish] && steps[3..][1..] == [];
    assert ValidRun(s3, steps[3..]) && Run(s3, steps[3..]) == s4;
    assert steps[2..][1..] == steps[3..];
    assert ValidRun(s2, steps[2..]) && Run(s2, steps[2..]) == s4;
    assert steps[1..][1..] == steps[2..];
    assert ValidRun(s1, steps[1..]) && Run(s1, steps[1..]) == s4;
  }

  // MARK: The saving fields of the instance as the source writes them

  class PersistSaver {
    var persistChanged: bool
    var lastSaveTime: int
    var pendingSaveTimeout: Option<int>
    const persistWriteQueue: SinglePromiseQueue<SaveOp>

    ghost function View(): Saver
      reads this, persistWriteQueue
    {
      Saver(persistChanged, persistWriteQueue.View(), lastSaveTime, pendingSaveTimeout)
    }

    constructor ()
      ensures fresh(persistWriteQueue)
      ensures View() == Saver(false, Empty(), 0, None)
    {
      persistChanged, lastSaveTime, pendingSaveTimeout := false, 0, None;
      persistWriteQueue := new SinglePromiseQueue();
    }

    /** Called by the change proxy for `state` and everything below it. */
    method StateChanged()
      modifies this
      ensures View() == old(View()).(dirty := true)
    {
      persistChanged := true;
    }

    method SavePersistThrottled(now: int, saveInterval: nat) returns (began: bool)
      modifies this, persistWriteQueue
      ensures View() == SaveThrottled(old(View()), now, saveInterval)
      ensures began <==> now - old(lastSaveTime) >= saveInterval && BeginsWrite(old(View()))
    {
      began := false;
      var timeSinceLastSave := now - lastSaveTime;
      if timeSinceLastSave < saveInterval {
        if pendingSaveTimeout.None? {
          pendingSaveTimeout := Some(now + (saveInterval - timeSinceLastSave));
        }
      } else {
        var cycle;
        cycle, began := SavePersistInner(now);
      }
    }

    method SaveTimeoutFires(now: int) returns (began: bool)
      requires pendingSaveTimeout.Some?
      modifies this, persistWriteQueue
      ensures View() == SaveInner(old(View()).(timer := None), now)
      ensures began <==> BeginsWrite(old(View()))
    {
      pendingSaveTimeout := None;
      var cycle;
      cycle, began := SavePersistInner(now);
    }

    /** `cycle` is the promise the caller awaits; `began` says that the operation has started. */
    method SavePersistInner(now: int) returns (cycle: Option<nat>, began: bool)
      modifies this, persistWriteQueue
      ensures View() == SaveInner(old(View()), now)
      ensures cycle == SaveCycle(old(View()))
      ensures began <==> BeginsWrite(old(View()))
    {
      lastSaveTime := now;
      cycle, began := None, false;
      if persistChanged {
        var joined;
        joined, began := persistWriteQueue.Enqueue(SaveOp);
        cycle := Some(joined);
        if began {
          persistChanged := false;
        }
      }
    }

    /** The drain loop after a write: resolve its callers, start the queued write if there is one. */
    method WriteDone() returns (resolved: Option<nat>, began: bool)
      requires persistWriteQueue.running.Some?
      modifies this, persistWriteQueue
      ensures View() == WriteSettled(old(View()))
      ensures resolved == old(persistWriteQueue.running).value.resolver
      ensures began <==> old(persistWriteQueue.queuedOp).Some?
    {
      began := persistWriteQueue.queuedOp.Some?;
      resolved := persistWriteQueue.OpSettled();
      if began {
        persistChanged := false;
      }
    }
  }
}
