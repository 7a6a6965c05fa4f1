/**
When an idle actor goes to sleep: `#resetSleepTimer`, `#canSleep`, `_sleep`, the
admission checks and the trackers of raw fetches and sockets in
packages/rivetkit/src/actor/instance.ts, with the connection status of
packages/rivetkit/src/actor/connection.ts and the connection drivers of
packages/rivetkit/src/actor/generic-conn-driver.ts.
*/
module Sleep {
  datatype Kind = WebSocket | Sse | Http

  datatype Status = Connected | Reconnecting

  /** `open` is what the connection's driver reports: neither closed, closing nor missing. */
  datatype Conn = Conn(kind: Kind, status: Status, open: bool, lastSeen: int)

  /** `capable` says that the configuration allows sleeping and the driver supports it. */
  datatype State = State(capable: bool,
                         ready: bool,
                         conns: map<nat, Conn>,
                         fetches: nat,
                         sockets: set<nat>,
                         timerArmed: bool,
                         sleepCalled: bool,
                         stopCalled: bool,
                         sleptByTimer: bool)

  predicate AnyConnected(conns: map<nat, Conn>) {
    exists c | c in conns :: conns[c].status.Connected?
  }

  predicate Busy(s: State) {
    AnyConnected(s.conns) || s.fetches > 0 || s.sockets != {}
  }

  predicate CanSleep(s: State) {
    s.ready && !Busy(s)
  }

  function ResetTimer(s: State): State {
    if !s.capable then s else s.(timerArmed := !s.sleepCalled && CanSleep(s))
  }

  predicate Admits(s: State) {
    s.ready && !s.sleepCalled && !s.stopCalled
  }

  /** A new connection; the HTTP driver always reports open. */
  function NewConn(kind: Kind, open: bool, now: int): Conn {
    Conn(kind, Connected, open || kind.Http?, now)
  }

  function Disconnected(c: Conn): Conn {
    c.(status := Reconnecting, open := c.open && c.kind.Http?)
  }

  function Probed(c: Conn, now: int): Conn {
    if c.open then c.(status := Connected, lastSeen := now) else c.(status := Reconnecting)
  }

  datatype Step =
    | FinishStart
    | CreateConn(conn: nat, kind: Kind, open: bool, now: int)
    | RemoveConn(conn: nat)
    | Disconnect(conn: nat)
    | TransportCloses(conn: nat)
    | Probe(conn: nat, now: int)
    | FetchBegins
    | FetchEnds
    | SocketOpens(socket: nat)
    | SocketCloses(socket: nat)
    | AlarmTriggers
    | TimerFires
    | SleepRequested
    | StopCalled
    | StopDisconnects
    | StopClearsTimer

  predicate Enabled(s: State, step: Step) {
    match step
    case FinishStart => !s.ready
    case Disconnect(c) => c in s.conns
    case TransportCloses(c) => c in s.conns && !s.conns[c].kind.Http?
    case Probe(c, _) => c in s.conns
    case TimerFires => s.timerArmed
    case StopDisconnects => s.stopCalled
    case StopClearsTimer => s.stopCalled
    case _ => true
  }

  function Apply(s: State, step: Step): State
    requires Enabled(s, step)
  {
    match step
    case FinishStart => ResetTimer(s.(ready := true))
    case CreateConn(c, kind, open, now) =>
      if Admits(s) && c !in s.conns then ResetTimer(s.(conns := s.conns[c := NewConn(kind, open, now)])) else s
    case RemoveConn(c) => ResetTimer(s.(conns := s.conns - {c}))
    case Disconnect(c) => s.(conns := s.conns[c := Disconnected(s.conns[c])])
    case TransportCloses(c) => s.(conns := s.conns[c := s.conns[c].(open := false)])
    case Probe(c, now) => s.(conns := s.conns[c := Probed(s.conns[c], now)])
    case FetchBegins => if Admits(s) then ResetTimer(s.(fetches := s.fetches + 1)) else s
    case FetchEnds => ResetTimer(s.(fetches := if s.fetches > 1 then s.fetches - 1 else 0))
    case SocketOpens(w) => if Admits(s) then ResetTimer(s.(sockets := s.sockets + {w})) else s
    case SocketCloses(w) => ResetTimer(s.(sockets := s.sockets - {w}))
    case AlarmTriggers => ResetTimer(s)
    case TimerFires =>
      s.(timerArmed := false, sleepCalled := true, sleptByTimer := s.sleptByTimer || !s.sleepCalled)
    case SleepRequested => s.(sleepCalled := true)
    case StopCalled => s.(stopCalled := true)
    case StopDisconnects => s.(conns := map c | c in s.conns :: Disconnected(s.conns[c]))
    case StopClearsTimer => s.(timerArmed := false)
  }

  ghost predicate ValidRun(s: State, steps: seq<Step>)
    decreases |steps|
  {
    steps == [] || (Enabled(s, steps[0]) && ValidRun(Apply(s, steps[0]), steps[1..]))
  }

  ghost function Run(s: State, steps: seq<Step>): State
    requires ValidRun(s, steps)
    decreases |steps|
  {
    if steps == [] then s else Run(Apply(s, steps[0]), steps[1..])
  }

  /** An instance that is still starting; its restored connections count as connected until they are probed. */
  ghost predicate Starting(s: State) {
    && !s.ready && !s.timerArmed && !s.sleepCalled && !s.stopCalled && !s.sleptByTimer
    && s.fetches == 0 && s.sockets == {}
    && forall c | c in s.conns :: s.conns[c].status.Connected?
  }

  // MARK: Safety

  /** The timer is armed, or has put the actor to sleep, only while nothing is going on. */
  ghost predicate Safe(s: State) {
    s.timerArmed || s.sleptByTimer ==> !Busy(s)
  }

  /** No leak: a ready actor with nothing attached has its timer armed, unless it is on its way out. */
  ghost predicate NoIdleLeak(s: State) {
    s.capable && s.ready && s.conns == map[] && s.fetches == 0 && s.sockets == {} ==>
      s.timerArmed || s.sleepCalled || s.stopCalled
  }

  /** What every step keeps, whatever it is. */
  ghost predicate Inv(s: State) {
    && NoIdleLeak(s)
    && (s.sleptByTimer ==> s.sleepCalled)
    && (s.timerArmed ==> s.capable)
  }

  /** A probe of an open transport, while the timer is armed or has put the actor to sleep. */
  predicate WakesProbed(s: State, step: Step) {
    step.Probe? && step.conn in s.conns && s.conns[step.conn].open && (s.timerArmed || s.sleptByTimer)
  }

  /** Whatever ends in `#resetSleepTimer` leaves the timer right, if the actor was not put to sleep by it. */
  lemma ResetIsSafe(s: State)
    requires (s.sleptByTimer ==> s.sleepCalled && !Busy(s)) && (s.timerArmed ==> s.capable)
    ensures Inv(ResetTimer(s)) && Safe(ResetTimer(s))
  {
    assert s.conns == map[] ==> !AnyConnected(s.conns);
  }

  lemma ResetKeepsInv(s: State)
    requires (s.sleptByTimer ==> s.sleepCalled) && (s.timerArmed ==> s.capable)
    ensures Inv(ResetTimer(s))
  {
    assert s.conns == map[] ==> !AnyConnected(s.conns);
  }

  /** Connections that lose members, or turn from connected to reconnecting, do not make an actor busy. */
  lemma FewerConnected(conns: map<nat, Conn>, conns': map<nat, Conn>)
    requires forall c | c in conns' && conns'[c].status.Connected? :: c in conns && conns[c].status.Connected?
    ensures AnyConnected(conns') ==> AnyConnected(conns)
  {
  }

  predicate IsTracked(step: Step) {
    || step.CreateConn? || step.RemoveConn? || step.FetchBegins? || step.FetchEnds?
    || step.SocketOpens? || step.SocketCloses? || step.AlarmTriggers? || step.FinishStart?
  }

  lemma TrackedStepKeepsInv(s: State, step: Step)
    requires Inv(s) && Enabled(s, step) && IsTracked(step)
    ensures Inv(Apply(s, step))
  {
    match step {
      case CreateConn(c, kind, open, now) =>
        if Admits(s) && c !in s.conns { ResetKeepsInv(s.(conns := s.conns[c := NewConn(kind, open, now)])); }
      case RemoveConn(c) => ResetKeepsInv(s.(conns := s.conns - {c}));
      case FetchBegins => if Admits(s) { ResetKeepsInv(s.(fetches := s.fetches + 1)); }
      case FetchEnds => ResetKeepsInv(s.(fetches := if s.fetches > 1 then s.fetches - 1 else 0));
      case SocketOpens(w) => if Admits(s) { ResetKeepsInv(s.(sockets := s.sockets + {w})); }
      case SocketCloses(w) => ResetKeepsInv(s.(sockets := s.sockets - {w}));
      case AlarmTriggers => ResetKeepsInv(s);
      case FinishStart => ResetKeepsInv(s.(ready := true));
    }
  }

  lemma TrackedStepIsSafe(s: State, step: Step)
    requires Inv(s) && Safe(s) && Enabled(s, step) && IsTracked(step)
    ensures Safe(Apply(s, step))
  {
    match step {
      case CreateConn(c, kind, open, now) =>
        if Admits(s) && c !in s.conns { ResetIsSafe(s.(conns := s.conns[c := NewConn(kind, open, now)])); }
      case RemoveConn(c) =>
        FewerConnected(s.conns, s.conns - {c});
        ResetIsSafe(s.(conns := s.conns - {c}));
      case FetchBegins => if Admits(s) { ResetIsSafe(s.(fetches := s.fetches + 1)); }
      case FetchEnds => ResetIsSafe(s.(fetches := if s.fetches > 1 then s.fetches - 1 else 0));
      case SocketOpens(w) => if Admits(s) { ResetIsSafe(s.(sockets := s.sockets + {w})); }
      case SocketCloses(w) => ResetIsSafe(s.(sockets := s.sockets - {w}));
      case AlarmTriggers => ResetIsSafe(s);
      case FinishStart => ResetIsSafe(s.(ready := true));
    }
  }

  /** Steps that touch connections without resetting the timer. */
  lemma ConnStepKeepsInv(s: State, conns': map<nat, Conn>)
    requires Inv(s) && conns'.Keys == s.conns.Keys
    ensures Inv(s.(conns := conns'))
  {
    assert conns' == map[] ==> s.conns == map[];
  }

  predicate TouchesConns(step: Step) {
    step.Disconnect? || step.TransportCloses? || step.Probe? || step.StopDisconnects?
  }

  lemma TouchedKeys(s: State, step: Step)
    requires Enabled(s, step) && TouchesConns(step)
    ensures Apply(s, step) == s.(conns := Apply(s, step).conns) && Apply(s, step).conns.Keys == s.conns.Keys
  {
    match step {
      case Disconnect(c) => assert s.conns[c := Disconnected(s.conns[c])].Keys == s.conns.Keys;
      case TransportCloses(c) => assert s.conns[c := s.conns[c].(open := false)].Keys == s.conns.Keys;
      case Probe(c, now) => assert s.conns[c := Probed(s.conns[c], now)].Keys == s.conns.Keys;
      case StopDisconnects => assert (map c | c in s.conns :: Disconnected(s.conns[c])).Keys == s.conns.Keys;
    }
  }

  lemma StepKeepsInv(s: State, step: Step)
    requires Inv(s) && Enabled(s, step)
    ensures Inv(Apply(s, step))
  {
    if TouchesConns(step) {
      TouchedKeys(s, step);
      ConnStepKeepsInv(s, Apply(s, step).conns);
    } else if IsTracked(step) {
      TrackedStepKeepsInv(s, step);
    }
  }

  /**
  Of all steps, exactly the probe of an open transport breaks the timer's promise, and
  only while the timer is armed or has put the actor to sleep.
  */
  lemma StepIsSafeIff(s: State, step: Step)
    requires Inv(s) && Safe(s) && Enabled(s, step)
    ensures Safe(Apply(s, step)) <==> !WakesProbed(s, step)
  {
    if step.Probe? {
      ProbeIsSafeIff(s, step.conn, step.now);
    } else if TouchesConns(step) {
      FewerConnected(s.conns, Apply(s, step).conns);
    } else if IsTracked(step) {
      TrackedStepIsSafe(s, step);
    }
  }

  lemma {:induction false} RunKeepsInv(s: State, steps: seq<Step>)
    requires Inv(s) && ValidRun(s, steps)
    ensures Inv(Run(s, steps))
    decreases |steps|
  {
    if steps != [] {
      StepKeepsInv(s, steps[0]);
      RunKeepsInv(Apply(s, steps[0]), steps[1..]);
    }
  }

  /** The timer's promise holds in every state of the run. */
  ghost predicate AlwaysSafe(s: State, steps: seq<Step>)
    requires ValidRun(s, steps)
    decreases |steps|
  {
    Safe(s) && (steps != [] ==> AlwaysSafe(Apply(s, steps[0]), steps[1..]))
  }

  /** No step of the run is such a probe. */
  ghost predicate NoneWakes(s: State, steps: seq<Step>)
    requires ValidRun(s, steps)
    decreases |steps|
  {
    steps != [] ==> !WakesProbed(s, steps[0]) && NoneWakes(Apply(s, steps[0]), steps[1..])
  }

  lemma {:induction false} RunIsSafeIff(s: State, steps: seq<Step>)
    requires Inv(s) && Safe(s) && ValidRun(s, steps)
    ensures AlwaysSafe(s, steps) <==> NoneWakes(s, steps)
    decreases |steps|
  {
    if steps != [] {
      StepKeepsInv(s, steps[0]);
      StepIsSafeIff(s, steps[0]);
      if !WakesProbed(s, steps[0]) {
        RunIsSafeIff(Apply(s, steps[0]), steps[1..]);
      }
    }
  }

  /**
  Over every run: there is never a connected connection, raw fetch or raw socket while
  the sleep timer is armed, or after it has put the actor to sleep, exactly if no open
  transport is probed then. In any case an actor with nothing attached has the timer
  armed unless it is already sleeping or stopping.
  */
  lemma SleepIsSafeIff(s: State, steps: seq<Step>)
    requires Starting(s) && ValidRun(s, steps)
    ensures AlwaysSafe(s, steps) <==> NoneWakes(s, steps)
    ensures NoIdleLeak(Run(s, steps))
  {
    RunIsSafeIff(s, steps);
    RunKeepsInv(s, steps);
  }

  // MARK: Transports that do not report open again

  /** A connection marked as reconnecting has a transport that is not open. */
  ghost predicate NoneReopens(s: State) {
    forall c | c in s.conns && s.conns[c].status.Reconnecting? :: !s.conns[c].open
  }

  /** An HTTP connection is disconnected: its driver does nothing and goes on reporting it open. */
  ghost predicate DisconnectsHttp(s: State, step: Step) {
    || (step.Disconnect? && step.conn in s.conns && s.conns[step.conn].kind.Http? && s.conns[step.conn].open)
    || (step.StopDisconnects? && exists c | c in s.conns :: s.conns[c].kind.Http? && s.conns[c].open)
  }

  /** No step of the run disconnects an open HTTP connection. */
  ghost predicate NoHttpDisconnect(s: State, steps: seq<Step>)
    requires ValidRun(s, steps)
    decreases |steps|
  {
    steps == [] || (!DisconnectsHttp(s, steps[0]) && NoHttpDisconnect(Apply(s, steps[0]), steps[1..]))
  }

  lemma StepReopensNone(s: State, step: Step)
    requires NoneReopens(s) && Enabled(s, step) && !DisconnectsHttp(s, step)
    ensures NoneReopens(Apply(s, step))
  {
  }

  lemma {:induction false} WithoutHttpDisconnectNoneWakes(s: State, steps: seq<Step>)
    requires Inv(s) && Safe(s) && NoneReopens(s) && ValidRun(s, steps) && NoHttpDisconnect(s, steps)
    ensures NoneWakes(s, steps)
    decreases |steps|
  {
    if steps != [] {
      StepKeepsInv(s, steps[0]);
      StepIsSafeIff(s, steps[0]);
      StepReopensNone(s, steps[0]);
      WithoutHttpDisconnectNoneWakes(Apply(s, steps[0]), steps[1..]);
    }
  }

  /** WebSocket and SSE connections alone are safe: a closed transport does not report open again. */
  lemma WithoutHttpDisconnectSleepIsSafe(s: State, steps: seq<Step>)
    requires Starting(s) && ValidRun(s, steps) && NoHttpDisconnect(s, steps)
    ensures AlwaysSafe(s, steps)
  {
    WithoutHttpDisconnectNoneWakes(s, steps);
    RunIsSafeIff(s, steps);
  }

  // MARK: The exact point of failure

  /**
  A liveness probe keeps the timer's promise exactly if the timer is not armed
  (and has not put the actor to sleep) or the driver reports the transport closed.
  */
  lemma ProbeIsSafeIff(s: State, c: nat, now: int)
    requires Safe(s) && c in s.conns
    ensures Safe(Apply(s, Probe(c, now))) <==> !(s.timerArmed || s.sleptByTimer) || !s.conns[c].open
  {
    var s' := Apply(s, Probe(c, now));
    assert c in s'.conns;
    if s.conns[c].open {
      assert s'.conns[c].status.Connected?;
    }
  }

  /** Disconnecting an HTTP connection sets up such a failure: alarm, then probe. */
  lemma HttpDisconnectBreaksSafety(s: State, c: nat, seen: int, now: int)
    requires Inv(s) && Safe(s) && s.capable && s.ready && !s.sleepCalled && s.fetches == 0 && s.sockets == {}
    requires s.conns == map[c := Conn(Http, Connected, true, seen)]
    ensures var s1 := Apply(s, Disconnect(c));
            var s2 := Apply(s1, AlarmTriggers);
            var s3 := Apply(s2, Probe(c, now));
            s2.timerArmed && Busy(s3) && s3.timerArmed
  {
    var s1 := Apply(s, Disconnect(c));
    assert !Busy(s1);
    var s3 := Apply(Apply(s1, AlarmTriggers), Probe(c, now));
    assert c in s3.conns && s3.conns[c].status.Connected?;
  }

  // MARK: Actors that could sleep and have no timer

  /** Everything allows the actor to sleep, but nothing will make it. */
  ghost predicate Leaks(s: State) {
    s.capable && CanSleep(s) && !s.timerArmed && !s.sleepCalled && !s.stopCalled
  }

  ghost predicate OnlyConnected(s: State, c: nat) {
    && c in s.conns && s.conns[c].status.Connected?
    && forall d | d in s.conns && d != c :: !s.conns[d].status.Connected?
  }

  /** The step takes the connected status from `c` without re-evaluating the timer. */
  predicate Unsettles(s: State, step: Step, c: nat) {
    c in s.conns && (step == Disconnect(c) || (step.Probe? && step.conn == c && !s.conns[c].open))
  }

  /**
  Such a state begins exactly when `disconnect`, or a probe that finds the transport
  closed, takes the connected status from the last connection that had it, on a ready
  actor with no raw fetch or socket: neither re-evaluates the timer.
  */
  lemma LeakBeginsIff(s: State, step: Step)
    requires Safe(s) && Enabled(s, step) && !Leaks(s)
    ensures Leaks(Apply(s, step))
            <==> && s.capable && s.ready && !s.sleepCalled && !s.stopCalled && s.fetches == 0 && s.sockets == {}
                 && exists c :: Unsettles(s, step, c) && OnlyConnected(s, c)
  {
    var s' := Apply(s, step);
    if step.Disconnect? || step.Probe? {
      var c := step.conn;
      if AnyConnected(s.conns) {
        UnsettledIff(s, step, c);
      } else if step.Disconnect? || !s.conns[c].open {
        FewerConnected(s.conns, s'.conns);
      }
    } else if step.TransportCloses? {
      assert AnyConnected(s'.conns) <==> AnyConnected(s.conns) by {
        FewerConnected(s.conns, s'.conns);
        FewerConnected(s'.conns, s.conns);
      }
    }
  }

  lemma UnsettledIff(s: State, step: Step, c: nat)
    requires Enabled(s, step) && (step.Disconnect? || step.Probe?) && step.conn == c
    requires AnyConnected(s.conns)
    ensures !AnyConnected(Apply(s, step).conns) <==> Unsettles(s, step, c) && OnlyConnected(s, c)
  {
    var s' := Apply(s, step);
    if !AnyConnected(s'.conns) {
      assert s'.conns[c].status.Reconnecting?;
      forall d | d in s.conns && d != c ensures !s.conns[d].status.Connected? {
        assert d in s'.conns && s'.conns[d] == s.conns[d];
      }
    }
  }

  /** The step ends in `#resetSleepTimer`. */
  predicate Reevaluates(s: State, step: Step) {
    match step
    case FinishStart => true
    case CreateConn(c, _, _, _) => Admits(s) && c !in s.conns
    case RemoveConn(_) => true
    case FetchBegins => Admits(s)
    case FetchEnds => true
    case SocketOpens(_) => Admits(s)
    case SocketCloses(_) => true
    case AlarmTriggers => true
    case _ => false
  }

  /** The state right after the last such step of the run, or `mark` if there is none. */
  ghost function LastReset(mark: State, s: State, steps: seq<Step>): State
    requires ValidRun(s, steps)
    decreases |steps|
  {
    if steps == [] then mark else
    var s' := Apply(s, steps[0]);
    LastReset(if Reevaluates(s, steps[0]) then s' else mark, s', steps[1..])
  }

  ghost predicate TimerShows(s: State, mark: State) {
    s.capable && !s.sleepCalled && !s.stopCalled ==> (s.timerArmed <==> CanSleep(mark))
  }

  lemma StepShowsLastReset(mark: State, s: State, step: Step)
    requires Enabled(s, step) && TimerShows(s, mark)
    ensures TimerShows(Apply(s, step), if Reevaluates(s, step) then Apply(s, step) else mark)
  {
  }

  lemma {:induction false} TimerShowsLastReset(mark: State, s: State, steps: seq<Step>)
    requires ValidRun(s, steps) && TimerShows(s, mark)
    ensures TimerShows(Run(s, steps), LastReset(mark, s, steps))
    decreases |steps|
  {
    if steps != [] {
      StepShowsLastReset(mark, s, steps[0]);
      var s' := Apply(s, steps[0]);
      TimerShowsLastReset(if Reevaluates(s, steps[0]) then s' else mark, s', steps[1..]);
    }
  }

  /**
  Over every run: an actor that could sleep, and is not on its way out, has no timer
  exactly if it could not sleep when the timer was last re-evaluated.
  */
  lemma LeaksIff(s: State, steps: seq<Step>)
    requires Starting(s) && ValidRun(s, steps)
    ensures var t := Run(s, steps);
            t.capable && CanSleep(t) && !t.sleepCalled && !t.stopCalled ==>
              (Leaks(t) <==> !CanSleep(LastReset(s, s, steps)))
  {
    TimerShowsLastReset(s, s, steps);
  }

  // MARK: Nothing is admitted once sleep is called

  ghost predicate NothingNew(s: State, s': State) {
    s'.conns.Keys <= s.conns.Keys && s'.fetches <= s.fetches && s'.sockets <= s.sockets && s'.sleepCalled
  }

  lemma StepAdmitsNothing(s: State, step: Step)
    requires s.sleepCalled && Enabled(s, step)
    ensures NothingNew(s, Apply(s, step))
  {
  }

  /** Once sleep is called, no connection, fetch or socket is added, whatever happens. */
  lemma {:induction false} SleepAdmitsNothing(s: State, steps: seq<Step>)
    requires s.sleepCalled && ValidRun(s, steps)
    ensures NothingNew(s, Run(s, steps))
    decreases |steps|
  {
    if steps != [] {
      StepAdmitsNothing(s, steps[0]);
      SleepAdmitsNothing(Apply(s, steps[0]), steps[1..]);
    }
  }

  // MARK: What the fields record of a run

  function NextFetches(s: State, step: Step, n: int): int {
    match step
    case FetchBegins => if s.ready && !s.sleepCalled && !s.stopCalled then n + 1 else n
    case FetchEnds => n - 1
    case _ => n
  }

  /** The raw fetches under way: those let in less those ended. `n` were under way before. */
  ghost function FetchesUnderWay(s: State, steps: seq<Step>, n: int): int
    requires ValidRun(s, steps)
    decreases |steps|
  {
    if steps == [] then n else FetchesUnderWay(Apply(s, steps[0]), steps[1..], NextFetches(s, steps[0], n))
  }

  /** Every end of a fetch follows the beginning of one that was let in. */
  ghost predicate EndsFollowBegins(s: State, steps: seq<Step>, n: int)
    requires ValidRun(s, steps)
    decreases |steps|
  {
    steps != [] ==>
      && (steps[0].FetchEnds? ==> n > 0)
      && EndsFollowBegins(Apply(s, steps[0]), steps[1..], NextFetches(s, steps[0], n))
  }

  lemma StepCountsFetches(s: State, step: Step)
    requires Enabled(s, step) && (step.FetchEnds? ==> s.fetches > 0)
    ensures Apply(s, step).fetches == NextFetches(s, step, s.fetches)
  {
    if TouchesConns(step) {
      TouchedKeys(s, step);
    }
  }

  lemma {:induction false} FetchesAreCounted(s: State, steps: seq<Step>)
    requires ValidRun(s, steps) && EndsFollowBegins(s, steps, s.fetches)
    ensures Run(s, steps).fetches == FetchesUnderWay(s, steps, s.fetches)
    decreases |steps|
  {
    if steps != [] {
      StepCountsFetches(s, steps[0]);
      FetchesAreCounted(Apply(s, steps[0]), steps[1..]);
    }
  }

  function NextSockets(s: State, step: Step, open: set<nat>): set<nat> {
    match step
    case SocketOpens(w) => if s.ready && !s.sleepCalled && !s.stopCalled then open + {w} else open
    case SocketCloses(w) => open - {w}
    case _ => open
  }

  /** The raw sockets let in and not closed since. */
  ghost function SocketsOpen(s: State, steps: seq<Step>, open: set<nat>): set<nat>
    requires ValidRun(s, steps)
    decreases |steps|
  {
    if steps == [] then open else SocketsOpen(Apply(s, steps[0]), steps[1..], NextSockets(s, steps[0], open))
  }

  lemma StepTracksSockets(s: State, step: Step)
    requires Enabled(s, step)
    ensures Apply(s, step).sockets == NextSockets(s, step, s.sockets)
  {
    if TouchesConns(step) {
      TouchedKeys(s, step);
    }
  }

  lemma {:induction false} SocketsAreTracked(s: State, steps: seq<Step>)
    requires ValidRun(s, steps)
    ensures Run(s, steps).sockets == SocketsOpen(s, steps, s.sockets)
    decreases |steps|
  {
    if steps != [] {
      StepTracksSockets(s, steps[0]);
      SocketsAreTracked(Apply(s, steps[0]), steps[1..]);
    }
  }

  function NextPresent(s: State, step: Step, present: set<nat>): set<nat> {
    match step
    case CreateConn(c, _, _, _) => if s.ready && !s.sleepCalled && !s.stopCalled then present + {c} else present
    case RemoveConn(c) => present - {c}
    case _ => present
  }

  /** The connections let in and not removed since. */
  ghost function ConnsPresent(s: State, steps: seq<Step>, present: set<nat>): set<nat>
    requires ValidRun(s, steps)
    decreases |steps|
  {
    if steps == [] then present
    else ConnsPresent(Apply(s, steps[0]), steps[1..], NextPresent(s, steps[0], present))
  }

  lemma OtherStepsKeepConns(s: State, step: Step)
    requires Enabled(s, step) && !TouchesConns(step) && !step.CreateConn? && !step.RemoveConn?
    ensures Apply(s, step).conns == s.conns
  {
    match step {
      case FinishStart =>
      case FetchBegins =>
      case FetchEnds =>
      case SocketOpens(_) =>
      case SocketCloses(_) =>
      case AlarmTriggers =>
      case _ =>
    }
  }

  lemma StepKeepsPresent(s: State, step: Step)
    requires Enabled(s, step)
    ensures Apply(s, step).conns.Keys == NextPresent(s, step, s.conns.Keys)
  {
    if TouchesConns(step) {
      TouchedKeys(s, step);
    } else if step.CreateConn? {
      assert step.conn in s.conns ==> s.conns.Keys + {step.conn} == s.conns.Keys;
    } else if step.RemoveConn? {
      assert (s.conns - {step.conn}).Keys == s.conns.Keys - {step.conn};
    } else {
      OtherStepsKeepConns(s, step);
    }
  }

  lemma {:induction false} ConnsArePresent(s: State, steps: seq<Step>)
    requires ValidRun(s, steps)
    ensures Run(s, steps).conns.Keys == ConnsPresent(s, steps, s.conns.Keys)
    decreases |steps|
  {
    if steps != [] {
      StepKeepsPresent(s, steps[0]);
      ConnsArePresent(Apply(s, steps[0]), steps[1..]);
    }
  }

  lemma StepSetsFlags(s: State, step: Step)
    requires Enabled(s, step)
    ensures var t := Apply(s, step);
            && (t.ready <==> s.ready || step.FinishStart?)
            && (t.sleepCalled <==> s.sleepCalled || step.TimerFires? || step.SleepRequested?)
            && (t.stopCalled <==> s.stopCalled || step.StopCalled?)
            && (t.sleptByTimer <==> s.sleptByTimer || (step.TimerFires? && !s.sleepCalled))
            && t.capable == s.capable
  {
    if TouchesConns(step) {
      TouchedKeys(s, step);
    }
  }

  /** The flags that decide admission say which of their steps the run has taken. */
  lemma {:induction false} FlagsAreHistory(s: State, steps: seq<Step>)
    requires ValidRun(s, steps)
    ensures var t := Run(s, steps);
            && (t.ready <==> s.ready || FinishStart in steps)
            && (t.sleepCalled <==> s.sleepCalled || TimerFires in steps || SleepRequested in steps)
            && (t.stopCalled <==> s.stopCalled || StopCalled in steps)
            && t.capable == s.capable
    decreases |steps|
  {
    if steps != [] {
      StepSetsFlags(s, steps[0]);
      FlagsAreHistory(Apply(s, steps[0]), steps[1..]);
      assert forall step :: step in steps <==> step == steps[0] || step in steps[1..];
    }
  }

  /** The first call of `_sleep` in the run is the timer's. */
  predicate TimerSleepsFirst(steps: seq<Step>) {
    steps != [] && (steps[0].TimerFires? || (!steps[0].SleepRequested? && TimerSleepsFirst(steps[1..])))
  }

  lemma {:induction false} SleptByTimerIff(s: State, steps: seq<Step>)
    requires ValidRun(s, steps)
    ensures Run(s, steps).sleptByTimer <==> s.sleptByTimer || (!s.sleepCalled && TimerSleepsFirst(steps))
    decreases |steps|
  {
    if steps != [] {
      StepSetsFlags(s, steps[0]);
      SleptByTimerIff(Apply(s, steps[0]), steps[1..]);
    }
  }

  /** While the timer is armed, or has put the actor to sleep, nothing raw is tracked: no run breaks this. */
  ghost predicate NothingRaw(s: State) {
    && (s.timerArmed || s.sleptByTimer ==> s.fetches == 0 && s.sockets == {})
    && (s.sleptByTimer ==> s.sleepCalled)
    && (s.timerArmed ==> s.capable)
  }

  lemma StepKeepsNothingRaw(s: State, step: Step)
    requires NothingRaw(s) && Enabled(s, step)
    ensures NothingRaw(Apply(s, step))
  {
  }

  lemma {:induction false} RunKeepsNothingRaw(s: State, steps: seq<Step>)
    requires NothingRaw(s) && ValidRun(s, steps)
    ensures NothingRaw(Run(s, steps))
    decreases |steps|
  {
    if steps != [] {
      StepKeepsNothingRaw(s, steps[0]);
      RunKeepsNothingRaw(Apply(s, steps[0]), steps[1..]);
    }
  }

  /**
  Over every run from the start: while a fetch that was let in has not ended, or a
  socket that was let in has not closed, the timer is not armed and has not put the
  actor to sleep. What is under way is read off the run, not off the fields.
  */
  lemma NeverArmedWhileServing(s: State, steps: seq<Step>)
    requires Starting(s) && ValidRun(s, steps) && EndsFollowBegins(s, steps, 0)
    ensures var t := Run(s, steps);
            && t.fetches == FetchesUnderWay(s, steps, 0)
            && t.sockets == SocketsOpen(s, steps, {})
            && (FetchesUnderWay(s, steps, 0) > 0 || SocketsOpen(s, steps, {}) != {} ==>
                  !t.timerArmed && !t.sleptByTimer)
  {
    RunKeepsNothingRaw(s, steps);
    FetchesAreCounted(s, steps);
    SocketsAreTracked(s, steps);
  }

  /** Nothing keeps the actor awake: it is ready, not told to sleep, and serves nobody. */
  ghost predicate Free(s: State) {
    && s.ready && !s.sleepCalled && s.fetches == 0 && s.sockets == {}
    && forall c | c in s.conns :: s.conns[c].status.Reconnecting?
  }

  ghost function NextTimer(s: State, step: Step, armed: bool): bool
    requires Enabled(s, step)
  {
    if Reevaluates(s, step) then Free(Apply(s, step))
    else if step.TimerFires? || step.StopClearsTimer? then false
    else armed
  }

  /**
  The timer as the run implies it: set by each step that re-evaluates it, by what then
  keeps the actor awake, and cleared when it fires and by `_stop`.
  */
  ghost function TimerImplied(s: State, steps: seq<Step>, armed: bool): bool
    requires ValidRun(s, steps)
    decreases |steps|
  {
    if steps == [] then armed else TimerImplied(Apply(s, steps[0]), steps[1..], NextTimer(s, steps[0], armed))
  }

  lemma ResetArmsIffFree(s: State)
    requires s.capable
    ensures ResetTimer(s).timerArmed <==> Free(s)
    ensures Free(ResetTimer(s)) <==> Free(s)
  {
  }

  lemma StepSetsTimer(s: State, step: Step)
    requires s.capable && Enabled(s, step)
    ensures Apply(s, step).timerArmed <==> NextTimer(s, step, s.timerArmed)
  {
    if Reevaluates(s, step) {
      match step {
        case FinishStart => ResetArmsIffFree(s.(ready := true));
        case CreateConn(c, kind, open, now) => ResetArmsIffFree(s.(conns := s.conns[c := NewConn(kind, open, now)]));
        case RemoveConn(c) => ResetArmsIffFree(s.(conns := s.conns - {c}));
        case FetchBegins => ResetArmsIffFree(s.(fetches := s.fetches + 1));
        case FetchEnds => ResetArmsIffFree(s.(fetches := Apply(s, step).fetches));
        case SocketOpens(w) => ResetArmsIffFree(s.(sockets := s.sockets + {w}));
        case SocketCloses(w) => ResetArmsIffFree(s.(sockets := s.sockets - {w}));
        case AlarmTriggers => ResetArmsIffFree(s);
      }
    }
  }

  lemma {:induction false} TimerIsImplied(s: State, steps: seq<Step>)
    requires s.capable && ValidRun(s, steps)
    ensures Run(s, steps).timerArmed <==> TimerImplied(s, steps, s.timerArmed)
    decreases |steps|
  {
    if steps != [] {
      StepSetsTimer(s, steps[0]);
      StepSetsFlags(s, steps[0]);
      TimerIsImplied(Apply(s, steps[0]), steps[1..]);
    }
  }

  /**
  A new connection counts as connected; one that is disconnected does not, nor does
  one that a probe finds closed; no step touches the others; and `_stop` disconnects all.
  */
  lemma StatusFollowsSteps(s: State, step: Step, c: nat)
    requires Enabled(s, step) && c in Apply(s, step).conns
    ensures var q := Apply(s, step).conns[c];
            match step
            case CreateConn(d, kind, open, now) =>
              q == if c == d && c !in s.conns then Conn(kind, Connected, open || kind.Http?, now) else s.conns[c]
            case Disconnect(d) =>
              q == if c == d then Conn(s.conns[c].kind, Reconnecting, s.conns[c].open && s.conns[c].kind.Http?,
                                       s.conns[c].lastSeen) else s.conns[c]
            case StopDisconnects =>
              q == Conn(s.conns[c].kind, Reconnecting, s.conns[c].open && s.conns[c].kind.Http?, s.conns[c].lastSeen)
            case TransportCloses(d) =>
              q == if c == d then Conn(s.conns[c].kind, s.conns[c].status, false, s.conns[c].lastSeen) else s.conns[c]
            case Probe(d, now) =>
              q == if c != d then s.conns[c]
                   else if s.conns[c].open then Conn(s.conns[c].kind, Connected, true, now)
                   else Conn(s.conns[c].kind, Reconnecting, false, s.conns[c].lastSeen)
            case _ => q == s.conns[c]
  {
  }

  // MARK: The sleep logic as the source writes it

  predicate Survives(c: Conn, now: int, timeout: int) {
    c.open || now - c.lastSeen < timeout
  }

  /** The connections after a liveness check: open ones are connected and seen, dead ones gone. */
  function Swept(conns: map<nat, Conn>, now: int, timeout: int): map<nat, Conn> {
    map c | c in conns && Survives(conns[c], now, timeout) :: Probed(conns[c], now)
  }

  /** The same with `todo` still to be checked. */
  function SweptExcept(conns: map<nat, Conn>, now: int, timeout: int, todo: set<nat>): map<nat, Conn> {
    map c | c in conns && (c in todo || Survives(conns[c], now, timeout)) ::
      if c in todo then conns[c] else Probed(conns[c], now)
  }

  /** Probing one connection, and removing it if it has not been seen for too long. */
  function CheckedOne(s: State, c: nat, now: int, timeout: int): State
    requires c in s.conns
  {
    var s1 := Apply(s, Probe(c, now));
    if Survives(s.conns[c], now, timeout) then s1 else Apply(s1, RemoveConn(c))
  }

  /** What it leaves of the connections. */
  function CheckedConns(conns: map<nat, Conn>, c: nat, now: int, timeout: int): map<nat, Conn>
    requires c in conns
  {
    if Survives(conns[c], now, timeout) then conns[c := Probed(conns[c], now)] else conns - {c}
  }

  lemma CheckedOneConns(s: State, c: nat, now: int, timeout: int)
    requires c in s.conns
    ensures CheckedOne(s, c, now, timeout).conns == CheckedConns(s.conns, c, now, timeout)
  {
    var probed := s.conns[c := Probed(s.conns[c], now)];
    var s1 := Apply(s, Probe(c, now));
    assert s1.conns == probed && Apply(s1, RemoveConn(c)).conns == probed - {c};
    assert probed - {c} == s.conns - {c};
  }

  lemma SweepOneMore(conns: map<nat, Conn>, now: int, timeout: int, todo: set<nat>, c: nat)
    requires c in todo && todo <= conns.Keys
    ensures var before := SweptExcept(conns, now, timeout, todo);
            && c in before
            && SweptExcept(conns, now, timeout, todo - {c}) == CheckedConns(before, c, now, timeout)
  {
  }

  /** A liveness check that visits the connections in the given order. */
  function Sweep(s: State, order: seq<nat>, now: int, timeout: int): State
    decreases |order|
  {
    if order == [] then s
    else Sweep(if order[0] in s.conns then CheckedOne(s, order[0], now, timeout) else s, order[1..], now, timeout)
  }

  lemma {:induction false} SweepOfExtension(s: State, order: seq<nat>, c: nat, now: int, timeout: int)
    ensures var t := Sweep(s, order, now, timeout);
            Sweep(s, order + [c], now, timeout) == if c in t.conns then CheckedOne(t, c, now, timeout) else t
    decreases |order|
  {
    if order == [] {
      assert (order + [c])[1..] == [];
    } else {
      assert (order + [c])[1..] == order[1..] + [c];
      var s1 := if order[0] in s.conns then CheckedOne(s, order[0], now, timeout) else s;
      SweepOfExtension(s1, order[1..], c, now, timeout);
    }
  }

  lemma {:induction false} RunsConcatenate(s: State, a: seq<Step>, b: seq<Step>)
    requires ValidRun(s, a) && ValidRun(Run(s, a), b)
    ensures ValidRun(s, a + b) && Run(s, a + b) == Run(Run(s, a), b)
    decreases |a|
  {
    if a == [] {
      assert a + b == b;
    } else {
      assert (a + b)[1..] == a[1..] + b;
      RunsConcatenate(Apply(s, a[0]), a[1..], b);
    }
  }

  lemma CheckedOneIsRun(s: State, c: nat, now: int, timeout: int) returns (steps: seq<Step>)
    requires c in s.conns
    ensures ValidRun(s, steps) && Run(s, steps) == CheckedOne(s, c, now, timeout)
  {
    var s1 := Apply(s, Probe(c, now));
    steps := [Probe(c, now)];
    assert ValidRun(s1, []) && steps[1..] == [];
    if !Survives(s.conns[c], now, timeout) {
      steps := [Probe(c, now), RemoveConn(c)];
      assert steps[1..] == [RemoveConn(c)] && steps[1..][1..] == [];
      assert ValidRun(Apply(s1, RemoveConn(c)), []);
      assert ValidRun(s1, steps[1..]) && Run(s1, steps[1..]) == Apply(s1, RemoveConn(c));
    }
  }

  /** A liveness check is a run of probes and removals, so what is proved of runs holds of it. */
  lemma {:induction false} SweepIsRun(s: State, order: seq<nat>, now: int, timeout: int) returns (steps: seq<Step>)
    ensures ValidRun(s, steps) && Run(s, steps) == Sweep(s, order, now, timeout)
    decreases |order|
  {
    if order == [] {
      steps := [];
    } else if order[0] in s.conns {
      var first := CheckedOneIsRun(s, order[0], now, timeout);
      var rest := SweepIsRun(Run(s, first), order[1..], now, timeout);
      RunsConcatenate(s, first, rest);
      steps := first + rest;
    } else {
      steps := SweepIsRun(s, order[1..], now, timeout);
    }
  }

  /** Checking twice at the same time changes nothing more. */
  lemma SweepIsStable(conns: map<nat, Conn>, now: int, timeout: int)
    ensures Swept(Swept(conns, now, timeout), now, timeout) == Swept(conns, now, timeout)
  {
    var once := Swept(conns, now, timeout);
    forall c | c in once ensures Survives(once[c], now, timeout) && Probed(once[c], now) == once[c] {
    }
  }

  // MARK: Which liveness check ends a leak

  /** Nothing but connections keeps the actor from sleeping, and no closed one counts as connected. */
  ghost predicate MayLeak(s: State) {
    && s.capable && s.ready && !s.sleepCalled && !s.stopCalled && s.fetches == 0 && s.sockets == {}
    && forall c | c in s.conns && s.conns[c].status.Connected? :: s.conns[c].open
  }

  /** The timer is armed, or an open connection counts as connected. */
  ghost predicate Settled(s: State) {
    s.timerArmed || AnyConnected(s.conns)
  }

  /** The connection neither reports open nor has been away for the timeout. */
  predicate Lingers(c: Conn, now: int, timeout: int) {
    !c.open && now - c.lastSeen < timeout
  }

  lemma CheckedOneSettles(s: State, c: nat, now: int, timeout: int)
    requires MayLeak(s) && c in s.conns
    ensures var t := CheckedOne(s, c, now, timeout);
            && MayLeak(t)
            && (Settled(t) <==> Settled(s) || !Lingers(s.conns[c], now, timeout))
            && (forall d | d in s.conns && d != c :: d in t.conns && t.conns[d] == s.conns[d])
            && (forall d | d in t.conns :: d in s.conns)
  {
    var s1 := Apply(s, Probe(c, now));
    var t := CheckedOne(s, c, now, timeout);
    assert forall d | d in s.conns && d != c :: s1.conns[d] == s.conns[d];
    if s.conns[c].open {
      assert c in t.conns && t.conns[c].status.Connected?;
    } else {
      assert s.conns[c].status.Reconnecting?;
      ClosedStaysOut(s.conns, s1.conns, c);
      if !Survives(s.conns[c], now, timeout) {
        ClosedStaysOut(s.conns, t.conns, c);
      }
    }
  }

  /** A connection that is not connected makes no difference to whether one is. */
  lemma ClosedStaysOut(conns: map<nat, Conn>, conns': map<nat, Conn>, c: nat)
    requires c in conns && conns[c].status.Reconnecting?
    requires c in conns' ==> conns'[c].status.Reconnecting?
    requires forall d | d != c :: (d in conns' <==> d in conns) && (d in conns ==> conns'[d] == conns[d])
    ensures AnyConnected(conns') <==> AnyConnected(conns)
  {
    FewerConnected(conns, conns');
    FewerConnected(conns', conns);
  }

  lemma {:induction false} SweepSettles(s: State, order: seq<nat>, now: int, timeout: int)
    requires MayLeak(s)
    ensures var t := Sweep(s, order, now, timeout);
            && MayLeak(t)
            && (Settled(s) ==> Settled(t))
            && ((forall c | c in order && c in s.conns :: Lingers(s.conns[c], now, timeout)) && !Settled(s)
                ==> !Settled(t))
            && ((exists c | c in order && c in s.conns :: !Lingers(s.conns[c], now, timeout)) ==> Settled(t))
    decreases |order|
  {
    if order != [] && order[0] in s.conns {
      CheckedOneSettles(s, order[0], now, timeout);
      var s1 := CheckedOne(s, order[0], now, timeout);
      SweepSettles(s1, order[1..], now, timeout);
      if forall c | c in order && c in s.conns :: Lingers(s.conns[c], now, timeout) {
        assert order[0] in order;
        LingeringStays(s, order[0], now, timeout);
      }
    } else if order != [] {
      SweepSettles(s, order[1..], now, timeout);
    }
  }

  lemma LingeringStays(s: State, c: nat, now: int, timeout: int)
    requires MayLeak(s) && c in s.conns && Lingers(s.conns[c], now, timeout)
    ensures CheckedOne(s, c, now, timeout) == s
  {
    assert s.conns[c := s.conns[c]] == s.conns;
  }

  /**
  A liveness check ends a leak exactly if it meets a connection that reports open or
  has not been seen for the timeout. So a leak lasts no longer than the first check
  after that time, in whatever order the connections are visited.
  */
  lemma SweepEndsLeakIff(s: State, order: seq<nat>, now: int, timeout: int)
    requires Leaks(s) && forall c :: c in order <==> c in s.conns
    ensures Leaks(Sweep(s, order, now, timeout)) <==> forall c | c in s.conns :: Lingers(s.conns[c], now, timeout)
  {
    SweepSettles(s, order, now, timeout);
  }

  class SleepController {
    const capable: bool
    var ready: bool
    var connections: map<nat, Conn>
    var activeRawFetchCount: nat
    var activeRawWebSockets: set<nat>
    var sleepTimeout: bool
    var sleepCalled: bool
    var stopCalled: bool
    ghost var sleptByTimer: bool

    ghost function View(): State
      reads this
    {
      State(capable, ready, connections, activeRawFetchCount, activeRawWebSockets,
            sleepTimeout, sleepCalled, stopCalled, sleptByTimer)
    }

    constructor (capable: bool, restored: map<nat, Conn>)
      ensures View() == State(capable, false, restored, 0, {}, false, false, false, false)
    {
      this.capable := capable;
      ready, connections, activeRawFetchCount, activeRawWebSockets := false, restored, 0, {};
      sleepTimeout, sleepCalled, stopCalled, sleptByTimer := false, false, false, false;
    }

    method MaySleep() returns (can: bool)
      ensures can == CanSleep(View())
    {
      if !ready {
        return false;
      }
      var todo := connections.Keys;
      while todo != {}
        invariant todo <= connections.Keys
        invariant forall c | c in connections && c !in todo :: !connections[c].status.Connected?
        decreases |todo|
      {
        var c :| c in todo;
        if connections[c].status.Connected? {
          return false;
        }
        todo := todo - {c};
      }
      if activeRawFetchCount > 0 {
        return false;
      }
      if activeRawWebSockets != {} {
        return false;
      }
      return true;
    }

    method ResetSleepTimer()
      modifies this`sleepTimeout
      ensures View() == ResetTimer(old(View()))
    {
      if !capable {
        return;
      }
      var canSleep := MaySleep();
      sleepTimeout := false;
      if sleepCalled {
        return;
      }
      if canSleep {
        sleepTimeout := true;
      }
    }

    method Connect(c: nat, kind: Kind, open: bool, now: int) returns (admitted: bool)
      modifies this
      ensures View() == Apply(old(View()), CreateConn(c, kind, open, now))
      ensures admitted <==> Admits(old(View())) && c !in old(connections)
    {
      admitted := ready && !sleepCalled && !stopCalled;
      if admitted && c in connections {
        admitted := false;
      }
      if admitted {
        connections := connections[c := NewConn(kind, open, now)];
        ResetSleepTimer();
      }
    }

    method Remove(c: nat)
      modifies this`connections, this`sleepTimeout
      ensures View() == Apply(old(View()), RemoveConn(c))
    {
      connections := connections - {c};
      ResetSleepTimer();
    }

    method BeginFetch() returns (admitted: bool)
      modifies this
      ensures View() == Apply(old(View()), FetchBegins)
      ensures admitted == Admits(old(View()))
    {
      admitted := ready && !sleepCalled && !stopCalled;
      if admitted {
        activeRawFetchCount := activeRawFetchCount + 1;
        ResetSleepTimer();
      }
    }

    method EndFetch()
      modifies this
      ensures View() == Apply(old(View()), FetchEnds)
    {
      activeRawFetchCount := if activeRawFetchCount - 1 > 0 then activeRawFetchCount - 1 else 0;
      ResetSleepTimer();
    }

    method OpenSocket(socket: nat) returns (admitted: bool)
      modifies this
      ensures View() == Apply(old(View()), SocketOpens(socket))
      ensures admitted == Admits(old(View()))
    {
      admitted := ready && !sleepCalled && !stopCalled;
      if admitted {
        activeRawWebSockets := activeRawWebSockets + {socket};
        ResetSleepTimer();
      }
    }

    method CloseSocket(socket: nat)
      modifies this
      ensures View() == Apply(old(View()), SocketCloses(socket))
    {
      activeRawWebSockets := activeRawWebSockets - {socket};
      ResetSleepTimer();
    }

    /** `disconnect`: the status changes at once, the sleep timer does not. */
    method DisconnectConn(c: nat)
      requires c in connections
      modifies this
      ensures View() == Apply(old(View()), Disconnect(c))
    {
      var conn := connections[c];
      connections := connections[c := conn.(status := Reconnecting, open := conn.open && conn.kind.Http?)];
    }

    method CheckLiveness(c: nat, now: int) returns (status: Status, lastSeen: int)
      requires c in connections
      modifies this`connections
      ensures View() == Apply(old(View()), Probe(c, now))
      ensures status == if old(connections)[c].open then Connected else Reconnecting
      ensures lastSeen == if old(connections)[c].open then now else old(connections)[c].lastSeen
    {
      var conn := connections[c];
      status := if conn.open then Connected else Reconnecting;
      if conn.open {
        conn := conn.(lastSeen := now);
      }
      connections := connections[c := conn.(status := status)];
      lastSeen := conn.lastSeen;
    }

    /** One round of the loop below. */
    method CheckOne(c: nat, now: int, timeout: int)
      requires c in connections
      modifies this`connections, this`sleepTimeout
      ensures View() == CheckedOne(old(View()), c, now, timeout)
      ensures connections == CheckedConns(old(connections), c, now, timeout)
    {
      CheckedOneConns(View(), c, now, timeout);
      var status, lastSeen := CheckLiveness(c, now);
      if status.Reconnecting? && now - lastSeen >= timeout {
        Remove(c);
      }
    }

    /**
    Probes every connection and removes those not seen for `timeout`; `order` is the
    order in which the map lists them.
    */
    method CheckConnectionsLiveness(now: int, timeout: int) returns (ghost order: seq<nat>)
      modifies this`connections, this`sleepTimeout
      ensures View() == Sweep(old(View()), order, now, timeout)
      ensures forall c :: c in order <==> c in old(connections)
      ensures connections == Swept(old(connections), now, timeout)
      ensures forall c | c in old(connections) ::
                c in connections <==> old(connections)[c].open || now - old(connections)[c].lastSeen < timeout
    {
      order := [];
      var todo := connections.Keys;
      while todo != {}
        invariant todo <= old(connections).Keys
        invariant forall c :: c in order <==> c in old(connections) && c !in todo
        invariant connections == SweptExcept(old(connections), now, timeout, todo)
        invariant View() == Sweep(old(View()), order, now, timeout)
        decreases |todo|
      {
        var c :| c in todo;
        SweepOfExtension(old(View()), order, c, now, timeout);
        SweepOneMore(old(connections), now, timeout, todo, c);
        CheckOne(c, now, timeout);
        order, todo := order + [c], todo - {c};
      }
    }

    /** The timer's callback: `_sleep`. */
    method SleepTimerFires()
      requires sleepTimeout
      modifies this
      ensures View() == Apply(old(View()), TimerFires)
    {
      sleepTimeout := false;
      if sleepCalled {
        return;
      }
      sleepCalled := true;
      sleptByTimer := true;
    }
  }
}
