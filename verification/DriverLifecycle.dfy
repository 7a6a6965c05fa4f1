/**
Loading, starting and sleeping actors in the file-system driver: `#upsertEntry`,
`loadActor`, `startActor` and `sleepActor` in
packages/rivetkit/src/drivers/file-system/global-state.ts, with the
`#sleepCalled` guard of `_sleep` in packages/rivetkit/src/actor/instance.ts.

An `ActorEntry` object and an actor instance are named by numbers, their
identity, since asynchronous calls hold on to entries that have left the map.
A task is an asynchronous call that is waiting at one of its `await`s.
*/
module DriverLifecycle {
  import opened Options

  datatype Entry = Entry(id: string, loaded: bool, actor: Option<nat>, starting: bool, removed: bool)

  datatype Instance = Instance(owner: nat, sleepCalled: bool, stopped: bool)

  datatype Task =
    | StartAwaitsLoad(entry: nat)
    | StartAwaitsStart(entry: nat)
    | StartRuns(entry: nat)
    | SleepQueued(instance: nat)
    | SleepAwaits(entry: nat)
    | SleepStops(entry: nat)

  datatype State = State(actors: map<string, nat>,
                         entries: seq<Entry>,
                         instances: seq<Instance>,
                         tasks: multiset<Task>)

  // MARK: The synchronous blocks

  /** Ensures an entry exists for the id. */
  function Upsert(s: State, id: string): State {
    if id in s.actors then s else
    s.(actors := s.actors[id := |s.entries|], entries := s.entries + [Entry(id, false, None, false, false)])
  }

  function Replace(tasks: multiset<Task>, done: Task, next: Option<Task>): multiset<Task> {
    tasks - multiset{done} + (if next.Some? then multiset{next.value} else multiset{})
  }

  /** `startActor` after its `await this.loadActor(...)`. */
  function ContinueStart(s: State, x: nat): State
    requires x < |s.entries|
  {
    var done := StartAwaitsLoad(x);
    var e := s.entries[x];
    if !e.loaded then
      s.(tasks := Replace(s.tasks, done, None))
    else if e.starting then
      s.(tasks := Replace(s.tasks, done, Some(StartAwaitsStart(x))))
    else if e.actor.Some? then
      s.(tasks := Replace(s.tasks, done, None))
    else
      s.(entries := s.entries[x := e.(actor := Some(|s.instances|), starting := true)],
         instances := s.instances + [Instance(x, false, false)],
         tasks := Replace(s.tasks, done, Some(StartRuns(x))))
  }

  /** `sleepActor` when the entry has loaded and started: marks it and calls `_stop`. */
  function BeginStop(s: State, x: nat): State
    requires x < |s.entries|
  {
    s.(entries := s.entries[x := s.entries[x].(removed := true)],
       tasks := Replace(s.tasks, SleepAwaits(x), if s.entries[x].actor.Some? then Some(SleepStops(x)) else None))
  }

  /** `sleepActor` when `_stop` has finished: the id leaves the map. */
  function FinishStop(s: State, x: nat): State
    requires x < |s.entries|
    requires s.entries[x].actor.Some? && s.entries[x].actor.value < |s.instances|
  {
    var i := s.entries[x].actor.value;
    s.(actors := s.actors - {s.entries[x].id},
       instances := s.instances[i := s.instances[i].(stopped := true)],
       tasks := Replace(s.tasks, SleepStops(x), None))
  }

  /**
  A start aborts when the load fails or the registry has no such actor; a call that
  waits for it fails when the start does; a sleep aborts when the load or the start failed.
  */
  datatype Step =
    | Load(id: string)
    | LoadFinishes(entry: nat)
    | CallStart(id: string)
    | StartAborts(entry: nat)
    | StartContinues(entry: nat)
    | StartResumes(entry: nat)
    | StartWaitFails(entry: nat)
    | StartEnds(entry: nat)
    | CallSleep(instance: nat)
    | SleepReachesDriver(instance: nat)
    | SleepAborts(entry: nat)
    | SleepContinues(entry: nat)
    | SleepEnds(entry: nat)

  predicate IsStartStep(step: Step) {
    step.StartAborts? || step.StartContinues? || step.StartResumes? || step.StartWaitFails? || step.StartEnds?
  }

  predicate Enabled(s: State, step: Step) {
    match step
    case Load(_) => true
    case LoadFinishes(x) => x < |s.entries|
    case CallStart(_) => true
    case StartAborts(x) => StartAwaitsLoad(x) in s.tasks
    case StartContinues(x) => StartAwaitsLoad(x) in s.tasks && x < |s.entries|
    case StartResumes(x) => StartAwaitsStart(x) in s.tasks && x < |s.entries| && !s.entries[x].starting
    case StartWaitFails(x) => StartAwaitsStart(x) in s.tasks
    case StartEnds(x) => StartRuns(x) in s.tasks && x < |s.entries|
    case CallSleep(i) => i < |s.instances| && !s.instances[i].sleepCalled
    case SleepReachesDriver(i) => SleepQueued(i) in s.tasks && i < |s.instances| && s.instances[i].owner < |s.entries|
    case SleepAborts(x) => SleepAwaits(x) in s.tasks
    case SleepContinues(x) => SleepAwaits(x) in s.tasks && x < |s.entries| && !s.entries[x].starting
    case SleepEnds(x) =>
      && SleepStops(x) in s.tasks && x < |s.entries|
      && s.entries[x].actor.Some? && s.entries[x].actor.value < |s.instances|
  }

  function Apply(s: State, step: Step): State
    requires Enabled(s, step)
  {
    match step
    case Load(id) => Upsert(s, id)
    case LoadFinishes(x) => s.(entries := s.entries[x := s.entries[x].(loaded := true)])
    case CallStart(id) =>
      var s' := Upsert(s, id);
      s'.(tasks := s.tasks + multiset{StartAwaitsLoad(s'.actors[id])})
    case StartAborts(x) => s.(tasks := Replace(s.tasks, StartAwaitsLoad(x), None))
    case StartContinues(x) => ContinueStart(s, x)
    case StartResumes(x) => s.(tasks := Replace(s.tasks, StartAwaitsStart(x), None))
    case StartWaitFails(x) => s.(tasks := Replace(s.tasks, StartAwaitsStart(x), None))
    case StartEnds(x) =>
      s.(entries := s.entries[x := s.entries[x].(starting := false)], tasks := Replace(s.tasks, StartRuns(x), None))
    case CallSleep(i) =>
      s.(instances := s.instances[i := s.instances[i].(sleepCalled := true)],
         tasks := s.tasks + multiset{SleepQueued(i)})
    case SleepReachesDriver(i) =>
      var id := s.entries[s.instances[i].owner].id;
      s.(tasks := Replace(s.tasks, SleepQueued(i), if id in s.actors then Some(SleepAwaits(s.actors[id])) else None))
    case SleepAborts(x) => s.(tasks := Replace(s.tasks, SleepAwaits(x), None))
    case SleepContinues(x) => BeginStop(s, x)
    case SleepEnds(x) => FinishStop(s, x)
  }

  ghost predicate ValidRun(s: State, steps: seq<Step>)
    decreases |steps|
  {
    steps == [] || (Enabled(s, steps[0]) && ValidRun(Apply(s, steps[0]), steps[1..]))
  }

  ghost function Run(s: State, steps: seq<Step>): State
    requires ValidRun(s, steps)
    decreases |steps|
  {
    if steps == [] then s else Run(Apply(s, steps[0]), steps[1..])
  }

  function Initial(): State {
    State(map[], [], [], multiset{})
  }

  // MARK: Invariants

  ghost predicate IsCurrent(s: State, x: nat) {
    x < |s.entries| && s.entries[x].id in s.actors && s.actors[s.entries[x].id] == x
  }

  ghost predicate MapAgrees(s: State) {
    forall id | id in s.actors :: s.actors[id] < |s.entries| && s.entries[s.actors[id]].id == id
  }

  /** Every instance belongs to one entry, and every entry has had at most one instance. */
  ghost predicate OwnersAgree(s: State) {
    && (forall i | 0 <= i < |s.instances| ::
          s.instances[i].owner < |s.entries| && s.entries[s.instances[i].owner].actor == Some(i))
    && (forall x | 0 <= x < |s.entries| && s.entries[x].actor.Some? ::
          s.entries[x].actor.value < |s.instances| && s.instances[s.entries[x].actor.value].owner == x)
  }

  /** An instance is stopped exactly when its entry has left the map; only such entries leave. */
  ghost predicate StoppedAgrees(s: State) {
    && (forall i | 0 <= i < |s.instances| :: s.instances[i].stopped <==> !IsCurrent(s, s.instances[i].owner))
    && (forall x | 0 <= x < |s.entries| && !IsCurrent(s, x) :: s.entries[x].actor.Some?)
  }

  /** The sleep tasks for instance `i` in entry `x`. */
  ghost function SleepTasks(tasks: multiset<Task>, i: nat, x: nat): nat {
    tasks[SleepQueued(i)] + tasks[SleepAwaits(x)] + tasks[SleepStops(x)]
  }

  predicate IsSleepTask(task: Task, i: nat, x: nat) {
    task == SleepQueued(i) || task == SleepAwaits(x) || task == SleepStops(x)
  }

  lemma SleepTasksAfterReplace(tasks: multiset<Task>, done: Task, next: Option<Task>, i: nat, x: nat)
    requires done in tasks
    ensures SleepTasks(Replace(tasks, done, next), i, x)
         == SleepTasks(tasks, i, x) - (if IsSleepTask(done, i, x) then 1 else 0)
            + (if next.Some? && IsSleepTask(next.value, i, x) then 1 else 0)
  {
  }

  /** The sleep calls on their way for an instance. */
  ghost function SleepsUnderWay(s: State, i: nat): nat
    requires i < |s.instances|
  {
    SleepTasks(s.tasks, i, s.instances[i].owner)
  }

  ghost predicate SleepsAgree(s: State) {
    forall i | 0 <= i < |s.instances| ::
      && SleepsUnderWay(s, i) <= 1
      && (!s.instances[i].sleepCalled || s.instances[i].stopped ==> SleepsUnderWay(s, i) == 0)
      && (s.instances[i].stopped ==> s.instances[i].sleepCalled)
  }

  ghost predicate TaskAgrees(s: State, task: Task) {
    match task
    case StartAwaitsLoad(x) => x < |s.entries|
    case SleepQueued(i) => i < |s.instances|
    case SleepAwaits(x) => x < |s.entries| && s.entries[x].actor.Some?
    case SleepStops(x) => x < |s.entries| && s.entries[x].actor.Some?
    case _ => true
  }

  ghost predicate TasksAgree(s: State) {
    forall task | task in s.tasks :: TaskAgrees(s, task)
  }

  ghost predicate Inv(s: State) {
    MapAgrees(s) && OwnersAgree(s) && StoppedAgrees(s) && SleepsAgree(s) && TasksAgree(s)
  }

  lemma UpsertKeepsInv(s: State, id: string)
    requires Inv(s)
    ensures Inv(Upsert(s, id))
    ensures id in Upsert(s, id).actors && Upsert(s, id).actors[id] < |Upsert(s, id).entries|
  {
    var s' := Upsert(s, id);
    if id !in s.actors {
      forall x | 0 <= x < |s.entries| ensures IsCurrent(s', x) <==> IsCurrent(s, x) {
      }
      assert IsCurrent(s', |s.entries|);
    }
  }

  lemma ReplaceSpec(tasks: multiset<Task>, done: Task, next: Option<Task>)
    requires done in tasks
    ensures forall t :: Replace(tasks, done, next)[t]
                     == tasks[t] - (if t == done then 1 else 0) + (if next == Some(t) then 1 else 0)
  {
  }

  /** Steps that leave the map and the owners alone and add no sleep call. */
  lemma FrameKeepsInv(s: State, s': State)
    requires Inv(s)
    requires s'.actors == s.actors && s'.instances == s.instances && |s'.entries| == |s.entries|
    requires forall x | 0 <= x < |s.entries| ::
               s'.entries[x].id == s.entries[x].id && s'.entries[x].actor == s.entries[x].actor
    requires TasksAgree(s')
    requires forall i: nat :: s'.tasks[SleepQueued(i)] <= s.tasks[SleepQueued(i)]
    requires forall x: nat :: s'.tasks[SleepAwaits(x)] + s'.tasks[SleepStops(x)]
                           <= s.tasks[SleepAwaits(x)] + s.tasks[SleepStops(x)]
    ensures Inv(s')
  {
    forall x | 0 <= x < |s.entries| ensures IsCurrent(s', x) <==> IsCurrent(s, x) {
    }
    forall i | 0 <= i < |s.instances| ensures SleepsUnderWay(s', i) <= SleepsUnderWay(s, i) {
    }
  }

  lemma MovedTasksAgree(s: State, s': State, done: Task, next: Option<Task>)
    requires TasksAgree(s) && done in s.tasks
    requires |s'.instances| == |s.instances| && |s'.entries| == |s.entries|
    requires forall x | 0 <= x < |s.entries| :: s'.entries[x].actor == s.entries[x].actor
    requires s'.tasks == Replace(s.tasks, done, next)
    requires next.Some? ==> TaskAgrees(s, next.value)
    ensures TasksAgree(s')
  {
    forall task | task in s'.tasks ensures TaskAgrees(s', task) {
      assert task in s.tasks || next == Some(task);
      assert TaskAgrees(s, task);
    }
  }

  /** Steps that only move a task on and touch marks of an entry. */
  lemma MoveKeepsInv(s: State, s': State, done: Task, next: Option<Task>)
    requires Inv(s) && done in s.tasks
    requires s'.actors == s.actors && s'.instances == s.instances && |s'.entries| == |s.entries|
    requires forall x | 0 <= x < |s.entries| ::
               s'.entries[x].id == s.entries[x].id && s'.entries[x].actor == s.entries[x].actor
    requires s'.tasks == Replace(s.tasks, done, next)
    requires next.Some? ==> TaskAgrees(s, next.value) && !next.value.SleepQueued? && !next.value.SleepAwaits?
    requires next.Some? && next.value.SleepStops? ==> done == SleepAwaits(next.value.entry)
    ensures Inv(s')
  {
    ReplaceSpec(s.tasks, done, next);
    MovedTasksAgree(s, s', done, next);
    FrameKeepsInv(s, s');
  }

  ghost predicate Instantiates(s: State, x: nat) {
    && Enabled(s, StartContinues(x))
    && s.entries[x].loaded && !s.entries[x].starting && s.entries[x].actor.None?
  }

  lemma InstantiateKeepsOwners(s: State, x: nat)
    requires Inv(s) && Instantiates(s, x)
    ensures var s' := ContinueStart(s, x); MapAgrees(s') && OwnersAgree(s')
  {
    var s' := ContinueStart(s, x);
    forall i | 0 <= i < |s.instances| ensures s.instances[i].owner != x && s'.instances[i] == s.instances[i] {
    }
  }

  lemma InstantiateKeepsStopped(s: State, x: nat)
    requires MapAgrees(s) && OwnersAgree(s) && StoppedAgrees(s) && Instantiates(s, x)
    ensures StoppedAgrees(ContinueStart(s, x))
  {
    var s' := ContinueStart(s, x);
    assert IsCurrent(s, x);
    forall y | 0 <= y < |s.entries| ensures IsCurrent(s', y) <==> IsCurrent(s, y) {
    }
  }

  lemma InstantiateKeepsTasks(s: State, x: nat)
    requires Inv(s) && Instantiates(s, x)
    ensures TasksAgree(ContinueStart(s, x))
  {
    var s' := ContinueStart(s, x);
    ReplaceSpec(s.tasks, StartAwaitsLoad(x), Some(StartRuns(x)));
    forall task | task in s'.tasks ensures TaskAgrees(s', task) {
      assert task in s.tasks || task == StartRuns(x);
    }
  }

  /** No sleep call is under way for an instance that does not exist yet. */
  lemma NoSleepYet(s: State, x: nat)
    requires TasksAgree(s) && Instantiates(s, x)
    ensures s.tasks[SleepQueued(|s.instances|)] == 0
    ensures s.tasks[SleepAwaits(x)] == 0 && s.tasks[SleepStops(x)] == 0
  {
    assert !TaskAgrees(s, SleepQueued(|s.instances|));
    assert !TaskAgrees(s, SleepAwaits(x));
    assert !TaskAgrees(s, SleepStops(x));
  }

  lemma InstantiateKeepsSleeps(s: State, x: nat)
    requires TasksAgree(s) && SleepsAgree(s) && Instantiates(s, x)
    ensures SleepsAgree(ContinueStart(s, x))
  {
    var s' := ContinueStart(s, x);
    var n := |s.instances|;
    NoSleepYet(s, x);
    forall i | 0 <= i <= n
      ensures SleepsUnderWay(s', i) == if i < n then SleepsUnderWay(s, i) else 0
    {
      SleepTasksAfterReplace(s.tasks, StartAwaitsLoad(x), Some(StartRuns(x)), i, s'.instances[i].owner);
    }
  }

  lemma ContinueKeepsInv(s: State, x: nat)
    requires Inv(s) && Enabled(s, StartContinues(x))
    ensures Inv(ContinueStart(s, x))
  {
    if Instantiates(s, x) {
      InstantiateKeepsOwners(s, x);
      InstantiateKeepsStopped(s, x);
      InstantiateKeepsTasks(s, x);
      InstantiateKeepsSleeps(s, x);
    } else {
      var waits := s.entries[x].loaded && s.entries[x].starting;
      MoveKeepsInv(s, ContinueStart(s, x), StartAwaitsLoad(x), if waits then Some(StartAwaitsStart(x)) else None);
    }
  }

  /** The instance a driver-side sleep call is about has not stopped, so its entry is current. */
  lemma SleepIsForCurrent(s: State, i: nat)
    requires Inv(s) && i < |s.instances| && SleepsUnderWay(s, i) > 0
    ensures IsCurrent(s, s.instances[i].owner) && s.instances[i].sleepCalled && SleepsUnderWay(s, i) == 1
  {
  }

  lemma OwnersAreDistinct(s: State, i: nat, j: nat)
    requires OwnersAgree(s) && i < |s.instances| && j < |s.instances| && i != j
    ensures s.instances[i].owner != s.instances[j].owner
  {
  }

  lemma FinishKeepsStopped(s: State, x: nat)
    requires MapAgrees(s) && OwnersAgree(s) && StoppedAgrees(s) && Enabled(s, SleepEnds(x)) && IsCurrent(s, x)
    ensures var s' := FinishStop(s, x); MapAgrees(s') && OwnersAgree(s') && StoppedAgrees(s')
  {
    var s' := FinishStop(s, x);
    forall y | 0 <= y < |s.entries| ensures IsCurrent(s', y) <==> IsCurrent(s, y) && y != x {
    }
  }

  lemma FinishKeepsSleeps(s: State, x: nat)
    requires OwnersAgree(s) && SleepsAgree(s)
    requires Enabled(s, SleepEnds(x)) && SleepsUnderWay(s, s.entries[x].actor.value) == 1
    requires s.instances[s.entries[x].actor.value].sleepCalled
    ensures SleepsAgree(FinishStop(s, x))
  {
    var s' := FinishStop(s, x);
    var i := s.entries[x].actor.value;
    forall j | 0 <= j < |s.instances|
      ensures SleepsUnderWay(s', j) == SleepsUnderWay(s, j) - (if j == i then 1 else 0)
    {
      SleepTasksAfterReplace(s.tasks, SleepStops(x), None, j, s.instances[j].owner);
      if j != i { OwnersAreDistinct(s, i, j); }
    }
  }

  lemma FinishKeepsInv(s: State, x: nat)
    requires Inv(s) && Enabled(s, SleepEnds(x))
    ensures Inv(FinishStop(s, x))
  {
    SleepIsForCurrent(s, s.entries[x].actor.value);
    FinishKeepsStopped(s, x);
    FinishKeepsSleeps(s, x);
    MovedTasksAgree(s, FinishStop(s, x), SleepStops(x), None);
  }

  lemma SleepReachesKeepsSleeps(s: State, i: nat)
    requires OwnersAgree(s) && SleepsAgree(s) && Enabled(s, SleepReachesDriver(i)) && IsCurrent(s, s.instances[i].owner)
    ensures SleepsAgree(Apply(s, SleepReachesDriver(i)))
  {
    var s' := Apply(s, SleepReachesDriver(i));
    var x := s.instances[i].owner;
    forall j | 0 <= j < |s.instances| ensures SleepsUnderWay(s', j) == SleepsUnderWay(s, j) {
      SleepTasksAfterReplace(s.tasks, SleepQueued(i), Some(SleepAwaits(x)), j, s.instances[j].owner);
      if j != i { OwnersAreDistinct(s, i, j); }
    }
  }

  lemma SleepReachesKeepsInv(s: State, i: nat)
    requires Inv(s) && Enabled(s, SleepReachesDriver(i))
    ensures Inv(Apply(s, SleepReachesDriver(i)))
  {
    var s' := Apply(s, SleepReachesDriver(i));
    SleepIsForCurrent(s, i);
    SleepReachesKeepsSleeps(s, i);
    MovedTasksAgree(s, s', SleepQueued(i), Some(SleepAwaits(s.instances[i].owner)));
    forall y | 0 <= y < |s.entries| ensures IsCurrent(s', y) <==> IsCurrent(s, y) {
    }
  }

  lemma CallSleepKeepsInv(s: State, i: nat)
    requires Inv(s) && Enabled(s, CallSleep(i))
    ensures Inv(Apply(s, CallSleep(i)))
  {
    var s' := Apply(s, CallSleep(i));
    forall y | 0 <= y < |s.entries| ensures IsCurrent(s', y) <==> IsCurrent(s, y) {
    }
    forall j | 0 <= j < |s.instances|
      ensures SleepsUnderWay(s', j) == SleepsUnderWay(s, j) + (if j == i then 1 else 0)
    {
    }
  }

  lemma StartStepKeepsInv(s: State, step: Step)
    requires Inv(s) && Enabled(s, step)
    requires IsStartStep(step) || step.LoadFinishes?
    ensures Inv(Apply(s, step))
  {
    match step {
      case LoadFinishes(x) => LoadFinishesKeepsInv(s, x);
      case StartAborts(x) => MoveKeepsInv(s, Apply(s, step), StartAwaitsLoad(x), None);
      case StartContinues(x) => ContinueKeepsInv(s, x);
      case StartResumes(x) => MoveKeepsInv(s, Apply(s, step), StartAwaitsStart(x), None);
      case StartWaitFails(x) => MoveKeepsInv(s, Apply(s, step), StartAwaitsStart(x), None);
      case StartEnds(x) => MoveKeepsInv(s, Apply(s, step), StartRuns(x), None);
    }
  }

  lemma LoadFinishesKeepsInv(s: State, x: nat)
    requires Inv(s) && Enabled(s, LoadFinishes(x))
    ensures Inv(Apply(s, LoadFinishes(x)))
  {
    var s' := Apply(s, LoadFinishes(x));
    forall task | task in s'.tasks ensures TaskAgrees(s', task) {
    }
    FrameKeepsInv(s, s');
  }

  lemma SleepStepKeepsInv(s: State, step: Step)
    requires Inv(s) && Enabled(s, step)
    requires step.CallSleep? || step.SleepReachesDriver? || step.SleepAborts? || step.SleepContinues? || step.SleepEnds?
    ensures Inv(Apply(s, step))
  {
    match step {
      case CallSleep(i) => CallSleepKeepsInv(s, i);
      case SleepReachesDriver(i) => SleepReachesKeepsInv(s, i);
      case SleepAborts(x) => MoveKeepsInv(s, Apply(s, step), SleepAwaits(x), None);
      case SleepContinues(x) =>
        assert TaskAgrees(s, SleepAwaits(x));
        MoveKeepsInv(s, BeginStop(s, x), SleepAwaits(x), Some(SleepStops(x)));
      case SleepEnds(x) => FinishKeepsInv(s, x);
    }
  }

  lemma StepKeepsInv(s: State, step: Step)
    requires Inv(s) && Enabled(s, step)
    ensures Inv(Apply(s, step))
  {
    if step.Load? {
      UpsertKeepsInv(s, step.id);
    } else if step.CallStart? {
      CallStartKeepsInv(s, step.id);
    } else if IsStartStep(step) || step.LoadFinishes? {
      StartStepKeepsInv(s, step);
    } else {
      SleepStepKeepsInv(s, step);
    }
  }

  lemma CallStartKeepsInv(s: State, id: string)
    requires Inv(s)
    ensures Inv(Apply(s, CallStart(id)))
  {
    UpsertKeepsInv(s, id);
    var s1 := Upsert(s, id);
    var s' := Apply(s, CallStart(id));
    forall y | 0 <= y < |s1.entries| ensures IsCurrent(s', y) <==> IsCurrent(s1, y) {
    }
    forall i | 0 <= i < |s1.instances| ensures SleepsUnderWay(s', i) == SleepsUnderWay(s1, i) {
    }
  }

  lemma {:induction false} RunKeepsInv(s: State, steps: seq<Step>)
    requires Inv(s) && ValidRun(s, steps)
    ensures Inv(Run(s, steps))
    decreases |steps|
  {
    if steps != [] {
      StepKeepsInv(s, steps[0]);
      RunKeepsInv(Apply(s, steps[0]), steps[1..]);
    }
  }

  /** The actor id an instance was made for. */
  ghost function IdOf(s: State, i: nat): string
    requires i < |s.instances| && s.instances[i].owner < |s.entries|
  {
    s.entries[s.instances[i].owner].id
  }

  /**
  Single instance: however loads, starts, alarm wake-ups and sleeps interleave,
  no two instances of one actor id are ever both not fully stopped, and the one
  that is not stopped is the one the driver's map leads to.
  */
  lemma SingleInstance(steps: seq<Step>)
    requires ValidRun(Initial(), steps)
    ensures var s := Run(Initial(), steps);
            && (forall i | 0 <= i < |s.instances| :: s.instances[i].owner < |s.entries|)
            && (forall i, j | 0 <= i < |s.instances| && 0 <= j < |s.instances|
                              && !s.instances[i].stopped && !s.instances[j].stopped
                              && IdOf(s, i) == IdOf(s, j) :: i == j)
            && (forall i | 0 <= i < |s.instances| && !s.instances[i].stopped ::
                  IdOf(s, i) in s.actors && s.actors[IdOf(s, i)] == s.instances[i].owner)
  {
    assert Inv(Initial());
    RunKeepsInv(Initial(), steps);
    var s := Run(Initial(), steps);
    forall i | 0 <= i < |s.instances| && !s.instances[i].stopped ensures IsCurrent(s, s.instances[i].owner) {
    }
  }

  // MARK: What a start call hands out

  /** The instance of the entry is being stopped, or has stopped. */
  ghost predicate EntryStops(s: State, x: nat)
    requires x < |s.entries|
  {
    var actor := s.entries[x].actor;
    || SleepStops(x) in s.tasks
    || (actor.Some? && actor.value < |s.instances| && s.instances[actor.value].stopped)
  }

  ghost predicate MarkAgrees(s: State, x: nat)
    requires x < |s.entries|
  {
    var e := s.entries[x];
    && (e.removed <==> EntryStops(s, x))
    && (e.removed ==> !e.starting)
    && (e.actor.Some? ==> e.loaded)
  }

  /** A start runs exactly while its entry is `starting`. */
  ghost predicate StartsAgree(s: State) {
    forall x: nat :: s.tasks[StartRuns(x)] == if x < |s.entries| && s.entries[x].starting then 1 else 0
  }

  /** Also, `removed` is set exactly while the entry's instance is stopping or stopped. */
  ghost predicate MarksAgree(s: State) {
    StartsAgree(s) && forall x | 0 <= x < |s.entries| :: MarkAgrees(s, x)
  }

  lemma LoadKeepsMarks(s: State, step: Step)
    requires Inv(s) && MarksAgree(s) && Enabled(s, step)
    requires step.Load? || step.LoadFinishes? || step.CallStart?
    ensures MarksAgree(Apply(s, step))
  {
    var s' := Apply(s, step);
    assert !TaskAgrees(s, SleepStops(|s.entries|));
    forall x | 0 <= x < |s'.entries| ensures MarkAgrees(s', x) {
      if x < |s.entries| {
        assert MarkAgrees(s, x);
      }
    }
  }

  /** Steps that end a task which neither starts nor stops an entry. */
  lemma MoveKeepsMarks(s: State, s': State, done: Task, next: Option<Task>)
    requires MarksAgree(s) && done in s.tasks
    requires s' == s.(tasks := Replace(s.tasks, done, next))
    requires !done.StartRuns? && !done.SleepStops?
    requires next.Some? ==> !next.value.StartRuns? && !next.value.SleepStops?
    ensures MarksAgree(s')
  {
    ReplaceSpec(s.tasks, done, next);
    forall x | 0 <= x < |s'.entries| ensures MarkAgrees(s', x) {
      assert MarkAgrees(s, x);
    }
  }

  lemma InstantiateKeepsStarts(s: State, x: nat)
    requires StartsAgree(s) && Instantiates(s, x)
    ensures StartsAgree(ContinueStart(s, x))
  {
    ReplaceSpec(s.tasks, StartAwaitsLoad(x), Some(StartRuns(x)));
  }

  lemma InstantiateKeepsMark(s: State, x: nat, y: nat)
    requires OwnersAgree(s) && TasksAgree(s) && Instantiates(s, x)
    requires y < |s.entries| && MarkAgrees(s, y)
    ensures MarkAgrees(ContinueStart(s, x), y)
  {
    var s' := ContinueStart(s, x);
    NoSleepYet(s, x);
    assert SleepStops(y) in s'.tasks <==> SleepStops(y) in s.tasks;
  }

  lemma InstantiateKeepsMarks(s: State, x: nat)
    requires OwnersAgree(s) && TasksAgree(s) && MarksAgree(s) && Instantiates(s, x)
    ensures MarksAgree(ContinueStart(s, x))
  {
    InstantiateKeepsStarts(s, x);
    forall y | 0 <= y < |s.entries| ensures MarkAgrees(ContinueStart(s, x), y) {
      InstantiateKeepsMark(s, x, y);
    }
  }

  lemma StartEndKeepsMarks(s: State, x: nat)
    requires MarksAgree(s) && Enabled(s, StartEnds(x))
    ensures MarksAgree(Apply(s, StartEnds(x)))
  {
    var s' := Apply(s, StartEnds(x));
    ReplaceSpec(s.tasks, StartRuns(x), None);
    forall y | 0 <= y < |s'.entries| ensures MarkAgrees(s', y) {
      assert MarkAgrees(s, y);
    }
  }

  lemma CallSleepKeepsMarks(s: State, i: nat)
    requires MarksAgree(s) && Enabled(s, CallSleep(i))
    ensures MarksAgree(Apply(s, CallSleep(i)))
  {
    var s' := Apply(s, CallSleep(i));
    forall y | 0 <= y < |s'.entries| ensures MarkAgrees(s', y) {
      assert MarkAgrees(s, y);
    }
  }

  lemma BeginStopKeepsMarks(s: State, x: nat)
    requires MarksAgree(s) && Enabled(s, SleepContinues(x)) && s.entries[x].actor.Some?
    ensures MarksAgree(BeginStop(s, x))
  {
    var s' := BeginStop(s, x);
    ReplaceSpec(s.tasks, SleepAwaits(x), Some(SleepStops(x)));
    forall y | 0 <= y < |s'.entries| ensures MarkAgrees(s', y) {
      assert MarkAgrees(s, y);
    }
  }

  lemma FinishStopKeepsMark(s: State, x: nat, y: nat)
    requires OwnersAgree(s) && Enabled(s, SleepEnds(x))
    requires y < |s.entries| && MarkAgrees(s, y) && MarkAgrees(s, x)
    ensures MarkAgrees(FinishStop(s, x), y)
  {
    var s' := FinishStop(s, x);
    if y != x {
      assert SleepStops(y) in s'.tasks <==> SleepStops(y) in s.tasks;
    }
  }

  lemma FinishStopKeepsMarks(s: State, x: nat)
    requires OwnersAgree(s) && MarksAgree(s) && Enabled(s, SleepEnds(x))
    ensures MarksAgree(FinishStop(s, x))
  {
    ReplaceSpec(s.tasks, SleepStops(x), None);
    forall y | 0 <= y < |s.entries| ensures MarkAgrees(FinishStop(s, x), y) {
      FinishStopKeepsMark(s, x, y);
    }
  }

  lemma StartStepKeepsMarks(s: State, step: Step)
    requires Inv(s) && MarksAgree(s) && Enabled(s, step)
    requires IsStartStep(step)
    ensures MarksAgree(Apply(s, step))
  {
    match step {
      case StartAborts(x) => MoveKeepsMarks(s, Apply(s, step), StartAwaitsLoad(x), None);
      case StartContinues(x) =>
        if Instantiates(s, x) {
          InstantiateKeepsMarks(s, x);
        } else {
          var waits := s.entries[x].loaded && s.entries[x].starting;
          MoveKeepsMarks(s, Apply(s, step), StartAwaitsLoad(x), if waits then Some(StartAwaitsStart(x)) else None);
        }
      case StartResumes(x) => MoveKeepsMarks(s, Apply(s, step), StartAwaitsStart(x), None);
      case StartWaitFails(x) => MoveKeepsMarks(s, Apply(s, step), StartAwaitsStart(x), None);
      case StartEnds(x) => StartEndKeepsMarks(s, x);
    }
  }

  lemma StepKeepsMarks(s: State, step: Step)
    requires Inv(s) && MarksAgree(s) && Enabled(s, step)
    ensures MarksAgree(Apply(s, step))
  {
    match step {
      case Load(_) => LoadKeepsMarks(s, step);
      case LoadFinishes(_) => LoadKeepsMarks(s, step);
      case CallStart(_) => LoadKeepsMarks(s, step);
      case CallSleep(i) => CallSleepKeepsMarks(s, i);
      case SleepReachesDriver(i) =>
        var id := s.entries[s.instances[i].owner].id;
        var next := if id in s.actors then Some(SleepAwaits(s.actors[id])) else None;
        MoveKeepsMarks(s, Apply(s, step), SleepQueued(i), next);
      case SleepAborts(x) => MoveKeepsMarks(s, Apply(s, step), SleepAwaits(x), None);
      case SleepContinues(x) =>
        assert TaskAgrees(s, SleepAwaits(x));
        BeginStopKeepsMarks(s, x);
      case SleepEnds(x) => FinishStopKeepsMarks(s, x);
      case _ => StartStepKeepsMarks(s, step);
    }
  }

  lemma {:induction false} RunKeepsMarks(s: State, steps: seq<Step>)
    requires Inv(s) && MarksAgree(s) && ValidRun(s, steps)
    ensures Inv(Run(s, steps)) && MarksAgree(Run(s, steps))
    decreases |steps|
  {
    if steps != [] {
      StepKeepsInv(s, steps[0]);
      StepKeepsMarks(s, steps[0]);
      RunKeepsMarks(Apply(s, steps[0]), steps[1..]);
    }
  }

  /** At this step a start call returns the instance of entry `x`. */
  predicate HandsOut(s: State, step: Step, x: nat) {
    && x < |s.entries| && s.entries[x].actor.Some?
    && (match step
        case StartContinues(y) => x == y && s.entries[x].loaded && !s.entries[x].starting
        case StartResumes(y) => x == y
        case StartEnds(y) => x == y
        case _ => false)
  }

  /**
  Over every run, wherever a start call returns an instance (at once after loading,
  after waiting for another call's start, or after its own), that instance is
  stopping or stopped exactly if its entry is marked `removed`, a mark the code never
  reads. After its own start this does not happen.
  */
  lemma HandsOutStoppingIff(steps: seq<Step>, step: Step, x: nat)
    requires ValidRun(Initial(), steps)
    requires var s := Run(Initial(), steps); Enabled(s, step) && HandsOut(s, step, x)
    ensures var s := Run(Initial(), steps);
            && (EntryStops(s, x) <==> s.entries[x].removed)
            && (step.StartEnds? ==> !s.entries[x].removed)
  {
    assert Inv(Initial()) && MarksAgree(Initial());
    RunKeepsMarks(Initial(), steps);
    var s := Run(Initial(), steps);
    assert MarkAgrees(s, x);
    if step.StartEnds? {
      assert s.tasks[StartRuns(x)] > 0;
    }
  }

  /**
  A start call made while `_stop` runs is handed the stopping instance, or the
  stopped one if `_stop` finishes first.
  */
  lemma StartDuringStopHandsItOut(s: State, x: nat)
    requires Inv(s) && MarksAgree(s) && SleepStops(x) in s.tasks
    ensures x < |s.entries| && s.entries[x].actor.Some? && s.entries[x].actor.value < |s.instances|
    ensures var i := s.entries[x].actor.value;
            var s1 := Apply(s, CallStart(s.entries[x].id));
            && Enabled(s1, StartContinues(x)) && HandsOut(s1, StartContinues(x), x)
            && s1.entries[x].actor == Some(i) && SleepStops(x) in s1.tasks
            && Enabled(s1, SleepEnds(x))
            && var s2 := Apply(s1, SleepEnds(x));
               && Enabled(s2, StartContinues(x)) && HandsOut(s2, StartContinues(x), x)
               && s2.entries[x].actor == Some(i) && s2.instances[i].stopped
  {
    assert TaskAgrees(s, SleepStops(x));
    assert MarkAgrees(s, x);
    SleepIsForCurrent(s, s.entries[x].actor.value);
  }

  lemma {:induction false} RunOfExtension(s: State, steps: seq<Step>, step: Step)
    requires ValidRun(s, steps) && Enabled(Run(s, steps), step)
    ensures ValidRun(s, steps + [step]) && Run(s, steps + [step]) == Apply(Run(s, steps), step)
    decreases |steps|
  {
    if steps == [] {
      assert (steps + [step])[1..] == [];
      assert ValidRun(Apply(s, step), []);
    } else {
      assert (steps + [step])[1..] == steps[1..] + [step];
      RunOfExtension(Apply(s, steps[0]), steps[1..], step);
    }
  }

  ghost predicate Reachable(s: State) {
    exists steps :: ValidRun(Initial(), steps) && Run(Initial(), steps) == s
  }

  lemma ReachStep(s: State, step: Step)
    requires Reachable(s) && Enabled(s, step)
    ensures Reachable(Apply(s, step))
  {
    var steps :| ValidRun(Initial(), steps) && Run(Initial(), steps) == s;
    RunOfExtension(Initial(), steps, step);
  }

  lemma LoadedIsReached(id: string)
    ensures Reachable(State(map[id := 0], [Entry(id, true, None, false, false)], [], multiset{StartAwaitsLoad(0)}))
  {
    assert ValidRun(Initial(), []) && Run(Initial(), []) == Initial();
    var s1 := State(map[id := 0], [Entry(id, false, None, false, false)], [], multiset{StartAwaitsLoad(0)});
    ReachStep(Initial(), CallStart(id));
    assert Apply(Initial(), CallStart(id)) == s1;
    ReachStep(s1, LoadFinishes(0));
    assert Apply(s1, LoadFinishes(0)).entries == [Entry(id, true, None, false, false)];
  }

  lemma StartedIsReached(id: string)
    ensures Reachable(State(map[id := 0], [Entry(id, true, Some(0), false, false)], [Instance(0, false, false)],
                            multiset{}))
  {
    LoadedIsReached(id);
    var s2 := State(map[id := 0], [Entry(id, true, None, false, false)], [], multiset{StartAwaitsLoad(0)});
    ReachStep(s2, StartContinues(0));
    var s3 := State(map[id := 0], [Entry(id, true, Some(0), true, false)], [Instance(0, false, false)],
                    multiset{StartRuns(0)});
    assert Apply(s2, StartContinues(0)) == s3;
    ReachStep(s3, StartEnds(0));
    assert Apply(s3, StartEnds(0)).entries == [Entry(id, true, Some(0), false, false)];
  }

  /** Such a state is reached: the actor is loaded, started and put to sleep. */
  lemma StoppingIsReached(id: string) returns (s: State)
    ensures Reachable(s) && SleepStops(0) in s.tasks
  {
    StartedIsReached(id);
    var s1 := State(map[id := 0], [Entry(id, true, Some(0), false, false)], [Instance(0, false, false)], multiset{});
    ReachStep(s1, CallSleep(0));
    var s2 := State(map[id := 0], s1.entries, [Instance(0, true, false)], multiset{SleepQueued(0)});
    assert Apply(s1, CallSleep(0)) == s2;
    ReachStep(s2, SleepReachesDriver(0));
    var s3 := s2.(tasks := multiset{SleepAwaits(0)});
    assert Apply(s2, SleepReachesDriver(0)) == s3;
    ReachStep(s3, SleepContinues(0));
    s := Apply(s3, SleepContinues(0));
  }

  // MARK: When an instance is made

  /**
  A start call that has loaded makes an instance exactly if the actor exists, is not
  starting and has none; it is new, belongs to the entry, and the entry is starting.
  Otherwise no entry and no instance changes, and the call waits exactly if the actor
  is starting.
  */
  lemma InstanceIsMadeIff(s: State, x: nat)
    requires Enabled(s, StartContinues(x))
    ensures var s' := Apply(s, StartContinues(x));
            var e := s.entries[x];
            var makes := e.loaded && !e.starting && e.actor.None?;
            && s'.actors == s.actors
            && s'.instances == (if makes then s.instances + [Instance(x, false, false)] else s.instances)
            && s'.entries == (if makes then s.entries[x := Entry(e.id, true, Some(|s.instances|), true, e.removed)]
                              else s.entries)
            && (makes ==> s'.tasks[StartRuns(x)] == s.tasks[StartRuns(x)] + 1)
            && (s'.tasks[StartAwaitsStart(x)] > s.tasks[StartAwaitsStart(x)] <==> e.loaded && e.starting)
            && s'.tasks[StartAwaitsLoad(x)] == s.tasks[StartAwaitsLoad(x)] - 1
  {
  }

  /** After an actor has stopped, the next start call gets a new entry and, once loaded, a new instance. */
  lemma StoppedActorStartsAgain(s: State, id: string)
    requires Inv(s) && id !in s.actors
    ensures var x := |s.entries|;
            var s1 := Apply(s, CallStart(id));
            && Enabled(s1, LoadFinishes(x))
            && var s2 := Apply(s1, LoadFinishes(x));
               && Enabled(s2, StartContinues(x))
               && var s3 := Apply(s2, StartContinues(x));
                  && |s3.instances| == |s.instances| + 1 && !s3.instances[|s.instances|].stopped
                  && IsCurrent(s3, x) && s3.entries[x].id == id && s3.entries[x].actor == Some(|s.instances|)
  {
  }

  /** When a stop has finished, the id is free, the instance stopped, and nothing else has changed. */
  lemma StopEndsIt(s: State, x: nat)
    requires Inv(s) && Enabled(s, SleepEnds(x))
    ensures var s' := Apply(s, SleepEnds(x));
            var i := s.entries[x].actor.value;
            && s.entries[x].id in s.actors && s'.actors == s.actors - {s.entries[x].id}
            && s'.entries == s.entries && |s'.instances| == |s.instances| && s'.instances[i].stopped
            && forall j | 0 <= j < |s.instances| && j != i :: s'.instances[j] == s.instances[j]
  {
    SleepIsForCurrent(s, s.entries[x].actor.value);
  }

  // MARK: The driver as the source writes it

  /** What a start call does after loading. */
  datatype StartOutcome = NoSuchActor | AwaitStart | AlreadyLoaded(instance: nat) | Instantiated(instance: nat)

  class FileSystemDriver {
    var actors: map<string, nat>
    var entries: seq<Entry>
    var instances: seq<Instance>
    ghost var tasks: multiset<Task>

    ghost function View(): State
      reads this
    {
      State(actors, entries, instances, tasks)
    }

    constructor ()
      ensures View() == Initial()
    {
      actors, entries, instances, tasks := map[], [], [], multiset{};
    }

    method UpsertEntry(id: string) returns (entry: nat)
      modifies this
      ensures View() == Upsert(old(View()), id)
      ensures id in actors && actors[id] == entry
    {
      if id in actors {
        return actors[id];
      }
      entry := |entries|;
      entries := entries + [Entry(id, false, None, false, false)];
      actors := actors[id := entry];
    }

    method StartAfterLoad(entry: nat) returns (outcome: StartOutcome)
      requires entry < |entries|
      modifies this
      ensures View() == ContinueStart(old(View()), entry)
      ensures outcome.Instantiated? <==> |instances| == |old(instances)| + 1
      ensures outcome.AlreadyLoaded? <==> HandsOut(old(View()), StartContinues(entry), entry)
      ensures outcome.AlreadyLoaded? ==> old(entries)[entry].actor == Some(outcome.instance)
    {
      var e := entries[entry];
      var done := StartAwaitsLoad(entry);
      if !e.loaded {
        tasks := Replace(tasks, done, None);
        return NoSuchActor;
      }
      if e.starting {
        tasks := Replace(tasks, done, Some(StartAwaitsStart(entry)));
        return AwaitStart;
      }
      if e.actor.Some? {
        tasks := Replace(tasks, done, None);
        return AlreadyLoaded(e.actor.value);
      }
      var instance := |instances|;
      instances := instances + [Instance(entry, false, false)];
      entries := entries[entry := e.(actor := Some(instance), starting := true)];
      tasks := Replace(tasks, done, Some(StartRuns(entry)));
      return Instantiated(instance);
    }

    method SleepMarksRemoved(entry: nat)
      requires entry < |entries|
      modifies this
      ensures View() == BeginStop(old(View()), entry)
    {
      entries := entries[entry := entries[entry].(removed := true)];
      tasks := Replace(tasks, SleepAwaits(entry), if entries[entry].actor.Some? then Some(SleepStops(entry)) else None);
    }

    method SleepAfterStop(entry: nat)
      requires entry < |entries|
      requires entries[entry].actor.Some? && entries[entry].actor.value < |instances|
      modifies this
      ensures View() == FinishStop(old(View()), entry)
    {
      var instance := entries[entry].actor.value;
      instances := instances[instance := instances[instance].(stopped := true)];
      actors := actors - {entries[entry].id};
      tasks := Replace(tasks, SleepStops(entry), None);
    }
  }
}
