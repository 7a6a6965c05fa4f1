/**
How a scheduled event reaches the clock: the actor's schedule
(packages/rivetkit/src/actor/instance.ts), the coalescing alarm queue
(packages/rivetkit/src/utils.ts) and the timer of the file-system driver
(packages/rivetkit/src/drivers/file-system/global-state.ts), stepped together
over the life of one actor instance.
*/
module Alarms {
  import opened Basics
  import opened Options
  import opened PromiseQueues
  import opened Schedules

  /** What `setAlarm` is queued after inserting `e`: only when `e` became the first event. */
  function QueueAfterInsert(events: seq<Event>, q: Queue<real>, e: Event): Queue<real> {
    if InsertIndex(events, e.timestamp) == 0 then Enqueued(q, e.timestamp) else q
  }

  /** `setAlarm` for the first of `events`, if there is one. */
  function QueueForFirst(events: seq<Event>, q: Queue<real>): Queue<real> {
    if events == [] then q else Enqueued(q, events[0].timestamp)
  }

  /** `#scheduleAlarmTimeout`: the driver keeps only the earliest timer. */
  function Armed(alarmTimestamp: Option<real>, timestamp: real): Option<real> {
    if alarmTimestamp.Some? && timestamp >= alarmTimestamp.value then alarmTimestamp else Some(timestamp)
  }

  /**
  `persists` says whether the driver writes alarms to disk (the file-system mode)
  or not (the memory mode). `applied` says that the `setAlarm` being awaited has
  already reached `#scheduleAlarmTimeout` or failed. `callbacks` counts timers
  that have fired and whose handler has not yet called `_onAlarm`.
  */
  datatype State = State(persists: bool,
                         started: bool,
                         agenda: Agenda,
                         queue: Queue<real>,
                         applied: bool,
                         alarmTimestamp: Option<real>,
                         callbacks: nat)

  datatype Step =
    | ScheduleEvent(timestamp: real)
    | FinishStart
    | DriverArms
    | DriverRejects
    | SetAlarmSettles
    | TimerFires
    | AlarmCallback(now: real)
    | CallbackFails

  /** Writing the alarm converts the timestamp with `BigInt`, which accepts integers only. */
  predicate DriverAccepts(s: State, timestamp: real) {
    !s.persists || IsInteger(timestamp)
  }

  predicate Enabled(s: State, step: Step) {
    match step
    case ScheduleEvent(_) => true
    case FinishStart => !s.started
    case DriverArms => s.queue.running.Some? && !s.applied && DriverAccepts(s, s.queue.running.value.op)
    case DriverRejects => s.queue.running.Some? && !s.applied && !DriverAccepts(s, s.queue.running.value.op)
    case SetAlarmSettles => s.queue.running.Some? && s.applied
    case TimerFires => s.alarmTimestamp.Some?
    case AlarmCallback(_) => s.callbacks > 0
    case CallbackFails => s.callbacks > 0 && !s.started
  }

  function WithQueue(s: State, q: Queue<real>): State {
    s.(queue := q, applied := s.applied && s.queue.running.Some?)
  }

  function Apply(s: State, step: Step): State
    requires Enabled(s, step)
  {
    match step
    case ScheduleEvent(t) =>
      WithQueue(s, QueueAfterInsert(s.agenda.pending, s.queue, Event(|s.agenda.scheduled|, t)))
      .(agenda := AddEvent(s.agenda, t))
    case FinishStart =>
      WithQueue(s, QueueForFirst(s.agenda.pending, s.queue)).(started := true)
    case DriverArms =>
      s.(applied := true, alarmTimestamp := Armed(s.alarmTimestamp, s.queue.running.value.op))
    case DriverRejects =>
      s.(applied := true)
    case SetAlarmSettles =>
      s.(queue := Settled(s.queue), applied := false)
    case TimerFires =>
      s.(alarmTimestamp := None, callbacks := s.callbacks + 1)
    case AlarmCallback(now) =>
      var agenda' := TakeDue(s.agenda, now);
      WithQueue(s, QueueForFirst(agenda'.pending, s.queue)).(agenda := agenda', callbacks := s.callbacks - 1)
    case CallbackFails =>
      s.(callbacks := s.callbacks - 1)
  }

  ghost predicate ValidRun(s: State, steps: seq<Step>)
    decreases |steps|
  {
    steps == [] || (Enabled(s, steps[0]) && ValidRun(Apply(s, steps[0]), steps[1..]))
  }

  ghost function Run(s: State, steps: seq<Step>): State
    requires ValidRun(s, steps)
    decreases |steps|
  {
    if steps == [] then s else Run(Apply(s, steps[0]), steps[1..])
  }

  /** An instance about to run its start sequence, with whatever the driver already has armed. */
  ghost predicate Fresh(s: State) {
    && !s.started
    && Restored(s.agenda)
    && s.queue == Empty()
    && !s.applied
  }

  // MARK: No event is stranded

  /** The timestamp of the last `setAlarm` that has not reached the driver's timer yet. */
  function LastUnapplied(s: State): Option<real> {
    if s.queue.queuedOp.Some? then s.queue.queuedOp
    else if s.queue.running.Some? && !s.applied then Some(s.queue.running.value.op)
    else None
  }

  /** Something is on its way that will call `_onAlarm` no later than `timestamp`. */
  ghost predicate AlarmComing(s: State, timestamp: real) {
    || s.callbacks > 0
    || LastUnapplied(s) == Some(timestamp)
    || (s.alarmTimestamp.Some? && s.alarmTimestamp.value <= timestamp)
  }

  ghost predicate Covered(s: State) {
    s.started && s.agenda.pending != [] && DriverAccepts(s, s.agenda.pending[0].timestamp) ==>
      AlarmComing(s, s.agenda.pending[0].timestamp)
  }

  ghost predicate Inv(s: State) {
    && Conserved(s.agenda)
    && WellFormed(s.queue)
    && (s.applied ==> s.queue.running.Some?)
    && Covered(s)
  }

  lemma EnqueuedIsLast(s: State, timestamp: real)
    requires WellFormed(s.queue) && (s.applied ==> s.queue.running.Some?)
    ensures var s' := WithQueue(s, Enqueued(s.queue, timestamp));
            && LastUnapplied(s') == Some(timestamp)
            && WellFormed(s'.queue)
            && (s'.applied ==> s'.queue.running.Some?)
  {
  }

  lemma ScheduleKeepsInv(s: State, timestamp: real)
    requires Inv(s)
    ensures Inv(Apply(s, ScheduleEvent(timestamp)))
  {
    AddKeepsConserved(s.agenda, timestamp);
    InsertIndexIsFirstLater(s.agenda.pending, timestamp);
    EnqueuedIsLast(s, timestamp);
  }

  lemma QueueFirstKeepsInv(s: State, agenda: Agenda, callbacks: nat)
    requires Inv(s) && Conserved(agenda)
    ensures Inv(WithQueue(s, QueueForFirst(agenda.pending, s.queue))
                .(agenda := agenda, callbacks := callbacks, started := true))
  {
    if agenda.pending != [] {
      EnqueuedIsLast(s, agenda.pending[0].timestamp);
    }
  }

  lemma StepKeepsInv(s: State, step: Step)
    requires Inv(s) && Enabled(s, step)
    ensures Inv(Apply(s, step))
  {
    match step {
      case ScheduleEvent(t) => ScheduleKeepsInv(s, t);
      case FinishStart => QueueFirstKeepsInv(s, s.agenda, s.callbacks);
      case AlarmCallback(now) =>
        TakeKeepsConserved(s.agenda, now);
        var agenda' := TakeDue(s.agenda, now);
        QueueFirstKeepsInv(s, agenda', s.callbacks - 1);
        if agenda'.pending != [] {
          EnqueuedIsLast(s, agenda'.pending[0].timestamp);
        }
      case _ =>
    }
  }

  lemma {:induction false} RunKeepsInv(s: State, steps: seq<Step>)
    requires Inv(s) && ValidRun(s, steps)
    ensures Inv(Run(s, steps))
    decreases |steps|
  {
    if steps != [] {
      StepKeepsInv(s, steps[0]);
      RunKeepsInv(Apply(s, steps[0]), steps[1..]);
    }
  }

  lemma FreshSatisfiesInv(s: State)
    requires Fresh(s)
    ensures Inv(s)
  {
    assert multiset(s.agenda.scheduled)
        == multiset(s.agenda.pending) + multiset(ExecutedEvents(s.agenda.executed));
  }

  /**
  No alarm is lost: in every state a started instance can reach, by any
  interleaving of scheduling, driver, timer and callback steps, the first pending
  event that the driver accepts has an alarm callback pending, or its own
  `setAlarm` as the last request not yet applied, or a timer armed no later than it.
  */
  lemma NoLostAlarm(s: State, steps: seq<Step>)
    requires Fresh(s) && ValidRun(s, steps)
    ensures Covered(Run(s, steps))
    ensures Conserved(Run(s, steps).agenda)
  {
    FreshSatisfiesInv(s);
    RunKeepsInv(s, steps);
  }

  // MARK: Every pending event is delivered

  /** A step the runtime takes by itself, with the clock past every pending event. */
  ghost predicate Internal(s: State, step: Step) {
    && Enabled(s, step)
    && (step.DriverArms? || step.DriverRejects? || step.SetAlarmSettles? || step.TimerFires? || step.AlarmCallback?)
    && (step.AlarmCallback? ==> forall e | e in s.agenda.pending :: e.timestamp <= step.now)
  }

  ghost predicate InternalRun(s: State, steps: seq<Step>)
    decreases |steps|
  {
    steps == [] || (Internal(s, steps[0]) && InternalRun(Apply(s, steps[0]), steps[1..]))
  }

  ghost predicate Quiet(s: State) {
    s.queue.running.None? && s.alarmTimestamp.None? && s.callbacks == 0
  }

  /** The work left: it drops with every internal step. */
  function Work(s: State): nat {
    5 * |s.agenda.pending|
    + (if s.queue.queuedOp.Some? then 5 else 0)
    + (if s.queue.running.None? then 0 else if s.applied then 1 else 4)
    + (if s.alarmTimestamp.Some? then 2 else 0)
    + s.callbacks
  }

  lemma InternalStepsUseUpWork(s: State, step: Step)
    requires Inv(s) && Internal(s, step)
    ensures Work(Apply(s, step)) < Work(s)
  {
    if step.AlarmCallback? {
      AlarmTakesOnlyTheFirst(s.agenda.pending, step.now);
      assert s.agenda.pending != [] ==> s.agenda.pending[0] in s.agenda.pending;
    }
  }

  lemma {:induction false} LatestTimestamp(events: seq<Event>) returns (t: real)
    ensures forall e | e in events :: e.timestamp <= t
    decreases |events|
  {
    if events == [] {
      t := 0.0;
    } else {
      t := LatestTimestamp(events[1..]);
      t := if events[0].timestamp > t then events[0].timestamp else t;
      assert forall e | e in events :: e == events[0] || e in events[1..];
    }
  }

  /** Unless nothing is under way, some internal step can be taken. */
  lemma NotQuietMeansStep(s: State) returns (step: Step)
    requires Inv(s) && !Quiet(s)
    ensures Internal(s, step)
  {
    if s.callbacks > 0 {
      var t := LatestTimestamp(s.agenda.pending);
      step := AlarmCallback(t);
    } else if s.alarmTimestamp.Some? {
      step := TimerFires;
    } else if s.applied {
      step := SetAlarmSettles;
    } else if DriverAccepts(s, s.queue.running.value.op) {
      step := DriverArms;
    } else {
      step := DriverRejects;
    }
  }

  /** The first pending event is one whose `setAlarm` the driver rejects. */
  ghost predicate Stuck(s: State) {
    s.agenda.pending != [] && !DriverAccepts(s, s.agenda.pending[0].timestamp)
  }

  ghost predicate AllAccepted(s: State) {
    forall e | e in s.agenda.pending :: DriverAccepts(s, e.timestamp)
  }

  lemma InternalKeepsAccepted(s: State, step: Step)
    requires Internal(s, step)
    ensures AllAccepted(s) ==> AllAccepted(Apply(s, step))
    ensures Apply(s, step).started == s.started
    ensures Apply(s, step).persists == s.persists
  {
  }

  /**
  Delivery: once the clock has passed every pending event, the runtime's own steps
  cannot go on for more than `Work(s)` of them, in whatever order they come. When
  none is left to take, every event has been executed, unless the driver rejects the
  first one that is left; if it rejects none of them, all have been executed.
  */
  lemma {:induction false} EveryEventIsDelivered(s: State, steps: seq<Step>)
    requires Inv(s) && s.started
    requires InternalRun(s, steps)
    ensures ValidRun(s, steps)
    ensures |steps| <= Work(s)
    ensures var t := Run(s, steps);
            && (Quiet(t) ==> t.agenda.pending == [] || Stuck(t))
            && (Quiet(t) && AllAccepted(s) ==> t.agenda.pending == [])
    decreases |steps|
  {
    if steps != [] {
      StepKeepsInv(s, steps[0]);
      InternalStepsUseUpWork(s, steps[0]);
      InternalKeepsAccepted(s, steps[0]);
      EveryEventIsDelivered(Apply(s, steps[0]), steps[1..]);
    } else if s.agenda.pending != [] {
      assert s.agenda.pending[0] in s.agenda.pending;
    }
  }

  /** A run to rest: from any state the runtime's own steps can be taken until nothing is under way. */
  lemma {:induction false} RestIsReached(s: State) returns (steps: seq<Step>)
    requires Inv(s) && s.started
    ensures InternalRun(s, steps) && ValidRun(s, steps) && Quiet(Run(s, steps))
    decreases Work(s)
  {
    steps := [];
    if !Quiet(s) {
      var step := NotQuietMeansStep(s);
      StepKeepsInv(s, step);
      InternalStepsUseUpWork(s, step);
      InternalKeepsAccepted(s, step);
      var rest := RestIsReached(Apply(s, step));
      steps := [step] + rest;
      assert steps[1..] == rest;
    }
  }

  // MARK: The driver's timer

  /** In memory every alarm is accepted; on disk, exactly whole milliseconds. */
  lemma DriverAcceptsIff(s: State, timestamp: real)
    ensures DriverAccepts(s, timestamp) <==> !s.persists || timestamp == timestamp.Floor as real
  {
  }

  /** The timestamps set since the timer last fired; `seen` were set before. */
  ghost function SetSinceFiring(s: State, steps: seq<Step>, seen: seq<real>): seq<real>
    requires ValidRun(s, steps)
    decreases |steps|
  {
    if steps == [] then seen else
    SetSinceFiring(Apply(s, steps[0]), steps[1..], NextSeen(s, steps[0], seen))
  }

  function NextSeen(s: State, step: Step, seen: seq<real>): seq<real>
    requires Enabled(s, step)
  {
    match step
    case DriverArms => seen + [s.queue.running.value.op]
    case TimerFires => []
    case _ => seen
  }

  ghost predicate IsEarliest(timer: Option<real>, seen: seq<real>) {
    match timer
    case None => seen == []
    case Some(t) => t in seen && forall x | x in seen :: t <= x
  }

  lemma StepKeepsEarliest(s: State, step: Step, seen: seq<real>)
    requires Enabled(s, step) && IsEarliest(s.alarmTimestamp, seen)
    ensures IsEarliest(Apply(s, step).alarmTimestamp, NextSeen(s, step, seen))
  {
    if step.DriverArms? {
      var t := s.queue.running.value.op;
      assert (seen + [t])[|seen|] == t;
    }
  }

  /** Over every run the driver's timer is armed for the earliest of the alarms set since it last fired. */
  lemma {:induction false} TimerIsEarliest(s: State, steps: seq<Step>, seen: seq<real>)
    requires ValidRun(s, steps) && IsEarliest(s.alarmTimestamp, seen)
    ensures IsEarliest(Run(s, steps).alarmTimestamp, SetSinceFiring(s, steps, seen))
    decreases |steps|
  {
    if steps != [] {
      StepKeepsEarliest(s, steps[0], seen);
      TimerIsEarliest(Apply(s, steps[0]), steps[1..], NextSeen(s, steps[0], seen));
    }
  }

  function NextCallbacks(step: Step, callbacks: int): int {
    match step
    case TimerFires => callbacks + 1
    case AlarmCallback(_) => callbacks - 1
    case CallbackFails => callbacks - 1
    case _ => callbacks
  }

  function CallbacksAfter(steps: seq<Step>, callbacks: int): int
    decreases |steps|
  {
    if steps == [] then callbacks else CallbacksAfter(steps[1..], NextCallbacks(steps[0], callbacks))
  }

  /** Over every run the callbacks pending are the firings less those that have called `_onAlarm` or failed. */
  lemma {:induction false} CallbacksAreCounted(s: State, steps: seq<Step>)
    requires ValidRun(s, steps)
    ensures Run(s, steps).callbacks == CallbacksAfter(steps, s.callbacks)
    ensures Run(s, steps).started <==> s.started || FinishStart in steps
    decreases |steps|
  {
    if steps != [] {
      CallbacksAreCounted(Apply(s, steps[0]), steps[1..]);
      assert forall step :: step in steps <==> step == steps[0] || step in steps[1..];
    }
  }

  // MARK: Events the driver rejects, and those behind them

  /** `ScheduleEvent` on an actor at rest, with the `setAlarm` it queues, if any, carried through. */
  ghost function AfterEvent(s: State, timestamp: real): State
    requires Quiet(s)
  {
    var s1 := Apply(s, ScheduleEvent(timestamp));
    if s1.queue.running.None? then s1 else
    var answer := if DriverAccepts(s1, s1.queue.running.value.op) then DriverArms else DriverRejects;
    Apply(Apply(s1, answer), SetAlarmSettles)
  }

  /** The new event comes before every pending one. */
  predicate ComesFirst(s: State, timestamp: real) {
    s.agenda.pending == [] || timestamp < s.agenda.pending[0].timestamp
  }

  /**
  An event scheduled on any actor at rest has an alarm coming exactly if it comes
  before every pending event and the driver accepts it. Otherwise the actor stays at
  rest with the event pending: `BigInt` threw, or no `setAlarm` was called because an
  event that has none itself comes first.
  */
  lemma ScheduledEventIsCoveredIff(s: State, timestamp: real)
    requires Inv(s) && s.started && Quiet(s)
    ensures var s' := AfterEvent(s, timestamp);
            var covered := && (s.agenda.pending == [] || timestamp < s.agenda.pending[0].timestamp)
                           && (!s.persists || timestamp == timestamp.Floor as real);
            && Inv(s') && s'.started
            && multiset(s'.agenda.pending)
               == multiset(s.agenda.pending) + multiset{Event(|s.agenda.scheduled|, timestamp)}
            && s'.alarmTimestamp == (if covered then Some(timestamp) else None)
            && (AlarmComing(s', timestamp) <==> covered)
            && (Quiet(s') <==> !covered)
  {
    var s1 := Apply(s, ScheduleEvent(timestamp));
    StepKeepsInv(s, ScheduleEvent(timestamp));
    InsertAddsOne(s.agenda.pending, Event(|s.agenda.scheduled|, timestamp));
    InsertIndexIsFirstLater(s.agenda.pending, timestamp);
    assert ComesFirst(s, timestamp) <==> InsertIndex(s.agenda.pending, timestamp) == 0;
    if ComesFirst(s, timestamp) {
      var step := if DriverAccepts(s1, timestamp) then DriverArms else DriverRejects;
      StepKeepsInv(s1, step);
      StepKeepsInv(Apply(s1, step), SetAlarmSettles);
    }
  }

  /** No step of the run schedules an event before `timestamp`. */
  ghost predicate NoneBefore(steps: seq<Step>, timestamp: real) {
    forall i | 0 <= i < |steps| && steps[i].ScheduleEvent? :: timestamp <= steps[i].timestamp
  }

  lemma LaterEventStaysBehind(s: State, timestamp: real)
    requires s.started && Quiet(s) && s.agenda.pending != [] && s.agenda.pending[0].timestamp <= timestamp
    ensures var s' := Apply(s, ScheduleEvent(timestamp));
            && Quiet(s') && s'.started && s'.agenda.executed == s.agenda.executed
            && s'.agenda.pending != [] && s'.agenda.pending[0] == s.agenda.pending[0]
            && multiset(s.agenda.pending) <= multiset(s'.agenda.pending)
            && |s'.agenda.pending| == |s.agenda.pending| + 1
  {
    InsertIndexIsFirstLater(s.agenda.pending, timestamp);
    InsertAddsOne(s.agenda.pending, Event(|s.agenda.scheduled|, timestamp));
  }

  /**
  A rejected event blocks every event behind it. From a state at rest with events
  pending, over every run that schedules none before the first of them, nothing is
  executed and everything scheduled stays pending.
  */
  lemma {:induction false} FirstEventBlocksTheRest(s: State, steps: seq<Step>)
    requires s.started && Quiet(s) && s.agenda.pending != []
    requires ValidRun(s, steps) && NoneBefore(steps, s.agenda.pending[0].timestamp)
    ensures var t := Run(s, steps);
            && Quiet(t) && t.agenda.executed == s.agenda.executed
            && multiset(s.agenda.pending) <= multiset(t.agenda.pending)
            && |t.agenda.pending| == |s.agenda.pending| + |steps|
    decreases |steps|
  {
    if steps != [] {
      assert steps[0].ScheduleEvent?;
      LaterEventStaysBehind(s, steps[0].timestamp);
      FirstEventBlocksTheRest(Apply(s, steps[0]), steps[1..]);
    }
  }

  /** A started actor without events, whose driver writes alarms to disk. */
  function Idle(): State {
    State(true, true, Agenda([], [], []), Empty(), false, None, 0)
  }

  lemma IdleIsAtRest()
    ensures Inv(Idle()) && Idle().started && Quiet(Idle())
  {
    assert multiset(Idle().agenda.scheduled)
        == multiset(Idle().agenda.pending) + multiset(ExecutedEvents(Idle().agenda.executed));
  }

  lemma HalfMillisecondIsStranded()
    ensures var s := AfterEvent(Idle(), 0.5);
            Inv(s) && s.started && s.persists && Quiet(s) && s.agenda.pending == s.agenda.scheduled == [Event(0, 0.5)]
  {
    assert 0.5.Floor == 0;
    IdleIsAtRest();
    ScheduledEventIsCoveredIff(Idle(), 0.5);
  }

  /** An integer scheduled behind it is not delivered either. */
  lemma HalfMillisecondStrandsAnInteger()
    ensures Quiet(AfterEvent(Idle(), 0.5))
    ensures var s := AfterEvent(AfterEvent(Idle(), 0.5), 1.0);
            Quiet(s) && s.agenda.pending == [Event(0, 0.5), Event(1, 1.0)]
  {
    HalfMillisecondIsStranded();
    var s := AfterEvent(Idle(), 0.5);
    assert InsertIndex([Event(0, 0.5)][1..], 1.0) == 0;
    LaterEventStaysBehind(s, 1.0);
    assert Insert(s.agenda.pending, Event(1, 1.0)) == [Event(0, 0.5), Event(1, 1.0)];
  }

  // MARK: The schedule and the driver's timer as the source writes them

  /** The alarm fields of the file-system driver's entry for one actor. */
  class ActorEntry {
    var alarmTimestamp: Option<real>

    constructor ()
      ensures alarmTimestamp == None
    {
      alarmTimestamp := None;
    }

    /** Returns whether a new timer replaced the old one. */
    method ScheduleAlarmTimeout(timestamp: real) returns (replaced: bool)
      modifies this
      ensures alarmTimestamp == Armed(old(alarmTimestamp), timestamp)
      ensures alarmTimestamp.Some? && alarmTimestamp.value <= timestamp
      ensures old(alarmTimestamp).Some? ==> alarmTimestamp.value <= old(alarmTimestamp).value
      ensures alarmTimestamp == Some(timestamp) || alarmTimestamp == old(alarmTimestamp)
      ensures replaced <==> alarmTimestamp != old(alarmTimestamp)
    {
      if alarmTimestamp.Some? && timestamp >= alarmTimestamp.value {
        return false;
      }
      alarmTimestamp := Some(timestamp);
      return true;
    }

    method FireTimer()
      requires alarmTimestamp.Some?
      modifies this
      ensures alarmTimestamp == None
    {
      alarmTimestamp := None;
    }
  }

  /** The scheduling part of an actor instance. */
  class ActorSchedule {
    var scheduledEvents: seq<Event>
    var nextId: nat
    const alarmWriteQueue: SinglePromiseQueue<real>

    constructor (restored: seq<Event>)
      ensures scheduledEvents == restored && nextId == |restored|
      ensures fresh(alarmWriteQueue) && alarmWriteQueue.View() == Empty()
    {
      scheduledEvents := restored;
      nextId := |restored|;
      alarmWriteQueue := new SinglePromiseQueue();
    }

    method ScheduleEventInner(timestamp: real)
      modifies this, alarmWriteQueue
      ensures scheduledEvents == Insert(old(scheduledEvents), Event(old(nextId), timestamp))
      ensures alarmWriteQueue.View()
           == QueueAfterInsert(old(scheduledEvents), old(alarmWriteQueue.View()), Event(old(nextId), timestamp))
      ensures nextId == old(nextId) + 1
    {
      var newEvent := Event(nextId, timestamp);
      nextId := nextId + 1;
      var insertIndex := FindFirstLater(timestamp);
      InsertIndexIsFirstLater(scheduledEvents, timestamp);
      if insertIndex == -1 {
        scheduledEvents := scheduledEvents + [newEvent];
        assert scheduledEvents == Insert(old(scheduledEvents), newEvent);
      } else {
        scheduledEvents := scheduledEvents[..insertIndex] + [newEvent] + scheduledEvents[insertIndex..];
      }
      if insertIndex == 0 || |scheduledEvents| == 1 {
        var _, _ := alarmWriteQueue.Enqueue(newEvent.timestamp);
      }
    }

    /** `findIndex((x) => x.timestamp > timestamp)`. */
    method FindFirstLater(timestamp: real) returns (index: int)
      ensures index == -1 ==> InsertIndex(scheduledEvents, timestamp) == |scheduledEvents|
      ensures index != -1 ==> 0 <= index < |scheduledEvents| && index == InsertIndex(scheduledEvents, timestamp)
    {
      for i := 0 to |scheduledEvents|
        invariant InsertIndex(scheduledEvents, timestamp) == i + InsertIndex(scheduledEvents[i..], timestamp)
      {
        if scheduledEvents[i].timestamp > timestamp {
          return i;
        }
        assert scheduledEvents[i..][1..] == scheduledEvents[i + 1..];
      }
      return -1;
    }

    /** `findIndex((x) => x.timestamp <= now)`. */
    method FindFirstDue(now: real) returns (index: int)
      ensures index == -1 ==> FirstDue(scheduledEvents, now).None?
      ensures index != -1 ==> 0 <= index < |scheduledEvents| && FirstDue(scheduledEvents, now) == Some(index)
    {
      for i := 0 to |scheduledEvents|
        invariant FirstDue(scheduledEvents, now).Some? <==> FirstDue(scheduledEvents[i..], now).Some?
        invariant FirstDue(scheduledEvents[i..], now).Some? ==>
                    FirstDue(scheduledEvents, now).value == i + FirstDue(scheduledEvents[i..], now).value
      {
        if scheduledEvents[i].timestamp <= now {
          return i;
        }
        assert scheduledEvents[i..][1..] == scheduledEvents[i + 1..];
      }
      return -1;
    }

    /** The part of `_onAlarm` up to the first `await`: returns the events to run. */
    method OnAlarm(now: real) returns (due: seq<Event>)
      modifies this, alarmWriteQueue
      ensures scheduledEvents == old(scheduledEvents)[DequeueCount(old(scheduledEvents), now)..]
      ensures due == old(scheduledEvents)[..DequeueCount(old(scheduledEvents), now)]
      ensures alarmWriteQueue.View() == QueueForFirst(scheduledEvents, old(alarmWriteQueue.View()))
      ensures nextId == old(nextId)
    {
      var runIndex := FindFirstDue(now);
      assert DequeueCount(scheduledEvents, now) == runIndex + 1;
      if runIndex == -1 {
        due := [];
        assert scheduledEvents[0..] == scheduledEvents && scheduledEvents[..0] == [];
        if |scheduledEvents| > 0 {
          var _, _ := alarmWriteQueue.Enqueue(scheduledEvents[0].timestamp);
        }
        return;
      }
      due := scheduledEvents[..runIndex + 1];
      scheduledEvents := scheduledEvents[runIndex + 1..];
      if |scheduledEvents| > 0 {
        var _, _ := alarmWriteQueue.Enqueue(scheduledEvents[0].timestamp);
      }
    }
  }
}
