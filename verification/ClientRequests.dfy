/**
Action requests of a client connection over a WebSocket: `action`, `#sendMessage`,
the flush in `#handleOnOpen`, and the settling of promises in `#handleOnMessage`
of packages/rivetkit/src/client/actor-conn.ts.

Action requests are the only messages that are not ephemeral, so a message is
named by its action id. What became of handing a message to the socket is
decided by the socket and is an input here.
*/
module ClientRequests {
  import opened Basics
  import opened Options

  /**
  `issued`, `handed` and `dropped` record what `action` sent off, what the socket
  took and what was thrown away; `settled` lists the actions whose promise was
  resolved or rejected, in order.
  */
  datatype State = State(disposed: bool,
                         queue: seq<nat>,
                         inFlight: set<nat>,
                         nextId: nat,
                         issued: seq<nat>,
                         handed: seq<nat>,
                         dropped: seq<nat>,
                         settled: seq<nat>)

  function Initial(): State {
    State(false, [], {}, 0, [], [], [], [])
  }

  // MARK: Operations

  /** `#sendMessage` on a connection that is not disposed of. */
  function SendMessage(s: State, id: nat, taken: bool): State {
    if taken then s.(handed := s.handed + [id]) else s.(queue := s.queue + [id])
  }

  /** `action`; on a disposed connection it throws after registering the action. */
  function CallAction(s: State, taken: bool): State {
    var s' := s.(nextId := s.nextId + 1, inFlight := s.inFlight + {s.nextId});
    if s.disposed then s' else SendMessage(s'.(issued := s.issued + [s.nextId]), s.nextId, taken)
  }

  function SendEach(s: State, ids: seq<nat>, taken: seq<bool>): State
    requires |ids| == |taken|
    decreases |ids|
  {
    if ids == [] then s else SendEach(SendMessage(s, ids[0], taken[0]), ids[1..], taken[1..])
  }

  /**
  The flush of `#handleOnOpen`. On a disposed connection sending throws: for the
  first resubscription if there is a listener, and otherwise for the first queued
  message, when the queue has been taken already.
  */
  function Flush(s: State, listening: bool, taken: seq<bool>): State
    requires |taken| == |s.queue|
  {
    if s.disposed then
      if listening then s else s.(queue := [], dropped := s.dropped + s.queue)
    else
      SendEach(s.(queue := []), s.queue, taken)
  }

  function Settle(s: State, id: nat): State {
    if id in s.inFlight then s.(inFlight := s.inFlight - {id}, settled := s.settled + [id]) else s
  }

  /** An error for an action, or for the connection; `0n` is falsy, so action 0 counts as the latter. */
  function ReceiveError(s: State, actionId: Option<nat>, order: seq<nat>): State {
    if actionId.Some? && actionId.value != 0 then Settle(s, actionId.value)
    else s.(inFlight := {}, settled := s.settled + order)
  }

  // MARK: Runs

  /** `order` lists the actions in flight as the client's map does. */
  datatype Step =
    | Action(taken: bool)
    | InitArrives(listening: bool, outcomes: seq<bool>)
    | ResponseArrives(id: nat)
    | ErrorArrives(actionId: Option<nat>, order: seq<nat>)
    | Dispose

  ghost predicate Lists(order: seq<nat>, ids: set<nat>) {
    NoDuplicates(order) && forall id :: id in order <==> id in ids
  }

  ghost predicate Enabled(s: State, step: Step) {
    match step
    case InitArrives(_, taken) => |taken| == |s.queue|
    case ErrorArrives(_, order) => Lists(order, s.inFlight)
    case _ => true
  }

  ghost function Apply(s: State, step: Step): State
    requires Enabled(s, step)
  {
    match step
    case Action(taken) => CallAction(s, taken)
    case InitArrives(listening, taken) => Flush(s, listening, taken)
    case ResponseArrives(id) => Settle(s, id)
    case ErrorArrives(actionId, order) => ReceiveError(s, actionId, order)
    case Dispose => s.(disposed := true)
  }

  ghost predicate ValidRun(s: State, steps: seq<Step>)
    decreases |steps|
  {
    steps == [] || (Enabled(s, steps[0]) && ValidRun(Apply(s, steps[0]), steps[1..]))
  }

  ghost function Run(s: State, steps: seq<Step>): State
    requires ValidRun(s, steps)
    decreases |steps|
  {
    if steps == [] then s else Run(Apply(s, steps[0]), steps[1..])
  }

  // MARK: Conservation

  ghost predicate Increasing(xs: seq<nat>) {
    forall i, j | 0 <= i < j < |xs| :: xs[i] < xs[j]
  }

  ghost predicate AllBelow(xs: seq<nat>, bound: nat) {
    forall x | x in xs :: x < bound
  }

  ghost predicate MessagesAgree(s: State) {
    && multiset(s.issued) == multiset(s.handed) + multiset(s.queue) + multiset(s.dropped)
    && Increasing(s.issued) && AllBelow(s.issued, s.nextId)
    && Increasing(s.queue) && AllBelow(s.queue, s.nextId)
    && (!s.disposed ==> s.dropped == [])
  }

  /** Every action ever called is in flight or settled, and not both. */
  ghost predicate PromisesAgree(s: State) {
    && NoDuplicates(s.settled)
    && (forall id: nat | id < s.nextId :: id in s.inFlight <==> id !in s.settled)
    && (forall id | id in s.inFlight :: id < s.nextId)
    && (forall id | id in s.settled :: id < s.nextId)
  }

  ghost predicate Inv(s: State) {
    MessagesAgree(s) && PromisesAgree(s)
  }

  lemma AppendIncreasing(xs: seq<nat>, x: nat)
    requires Increasing(xs) && AllBelow(xs, x)
    ensures Increasing(xs + [x]) && AllBelow(xs + [x], x + 1)
  {
    forall i | 0 <= i < |xs| ensures xs[i] < x {
      assert xs[i] in xs;
    }
  }

  lemma ActionKeepsMessages(s: State, taken: bool)
    requires Inv(s)
    ensures MessagesAgree(CallAction(s, taken))
  {
    AppendIncreasing(s.issued, s.nextId);
    AppendIncreasing(s.queue, s.nextId);
    assert multiset(s.issued + [s.nextId]) == multiset(s.issued) + multiset{s.nextId};
  }

  lemma ActionKeepsPromises(s: State, taken: bool)
    requires PromisesAgree(s)
    ensures PromisesAgree(CallAction(s, taken))
  {
    var s' := CallAction(s, taken);
    assert s'.settled == s.settled && s'.inFlight == s.inFlight + {s.nextId} && s'.nextId == s.nextId + 1;
  }

  lemma ActionKeepsInv(s: State, taken: bool)
    requires Inv(s)
    ensures Inv(CallAction(s, taken))
  {
    ActionKeepsMessages(s, taken);
    ActionKeepsPromises(s, taken);
  }

  /** The ids whose message the socket took (or not), in their order. */
  function Picked(ids: seq<nat>, taken: seq<bool>, which: bool): seq<nat>
    requires |ids| == |taken|
    decreases |ids|
  {
    if ids == [] then []
    else (if taken[0] == which then [ids[0]] else []) + Picked(ids[1..], taken[1..], which)
  }

  lemma {:induction false} SendEachSpec(s: State, ids: seq<nat>, taken: seq<bool>)
    requires |ids| == |taken|
    ensures SendEach(s, ids, taken)
         == s.(handed := s.handed + Picked(ids, taken, true), queue := s.queue + Picked(ids, taken, false))
    decreases |ids|
  {
    if ids == [] {
      assert s.handed + [] == s.handed && s.queue + [] == s.queue;
    } else {
      SendEachSpec(SendMessage(s, ids[0], taken[0]), ids[1..], taken[1..]);
      var h, q := Picked(ids[1..], taken[1..], true), Picked(ids[1..], taken[1..], false);
      assert s.handed + [ids[0]] + h == s.handed + ([ids[0]] + h);
      assert s.queue + [ids[0]] + q == s.queue + ([ids[0]] + q);
      assert [] + h == h && [] + q == q;
    }
  }

  lemma {:induction false} PickedSpec(ids: seq<nat>, taken: seq<bool>, which: bool)
    requires |ids| == |taken| && Increasing(ids)
    ensures Increasing(Picked(ids, taken, which))
    ensures forall x | x in Picked(ids, taken, which) :: x in ids
    decreases |ids|
  {
    if ids != [] {
      PickedSpec(ids[1..], taken[1..], which);
      var rest := Picked(ids[1..], taken[1..], which);
      forall x | x in rest ensures x in ids[1..] && x > ids[0] {
      }
      PrependIncreasing(ids[0], rest);
      assert [] + rest == rest;
    }
  }

  lemma PrependIncreasing(x: nat, xs: seq<nat>)
    requires Increasing(xs) && forall y | y in xs :: x < y
    ensures Increasing([x] + xs)
  {
    forall i | 0 <= i < |xs| ensures x < xs[i] {
      assert xs[i] in xs;
    }
  }

  lemma UniqueConcat(xs: seq<nat>, ys: seq<nat>)
    requires NoDuplicates(xs) && NoDuplicates(ys) && forall x | x in xs :: x !in ys
    ensures NoDuplicates(xs + ys)
  {
    forall i, j | 0 <= i < |xs| && 0 <= j < |ys| ensures xs[i] != ys[j] {
      assert xs[i] in xs && ys[j] in ys;
    }
  }

  lemma {:induction false} PickedSplits(ids: seq<nat>, taken: seq<bool>)
    requires |ids| == |taken|
    ensures multiset(ids) == multiset(Picked(ids, taken, true)) + multiset(Picked(ids, taken, false))
    decreases |ids|
  {
    if ids != [] {
      PickedSplits(ids[1..], taken[1..]);
      assert ids == [ids[0]] + ids[1..];
    }
  }

  lemma FlushKeepsInv(s: State, listening: bool, taken: seq<bool>)
    requires Inv(s) && |taken| == |s.queue|
    ensures Inv(Flush(s, listening, taken))
  {
    if !s.disposed {
      SendEachSpec(s.(queue := []), s.queue, taken);
      PickedSpec(s.queue, taken, false);
      PickedSplits(s.queue, taken);
      assert [] + Picked(s.queue, taken, false) == Picked(s.queue, taken, false);
    }
  }

  /**
  A flush hands messages over in queue order and keeps the rest in queue order,
  each message going to exactly one of the two.
  */
  lemma FlushKeepsOrder(s: State, listening: bool, taken: seq<bool>)
    requires Inv(s) && !s.disposed && |taken| == |s.queue|
    ensures var s' := Flush(s, listening, taken);
            exists sent: seq<nat> ::
              && s'.handed == s.handed + sent
              && Increasing(sent) && Increasing(s'.queue)
              && multiset(s.queue) == multiset(sent) + multiset(s'.queue)
  {
    SendEachSpec(s.(queue := []), s.queue, taken);
    PickedSpec(s.queue, taken, true);
    PickedSpec(s.queue, taken, false);
    PickedSplits(s.queue, taken);
    var sent := Picked(s.queue, taken, true);
    assert [] + Picked(s.queue, taken, false) == Picked(s.queue, taken, false);
    assert Flush(s, listening, taken).handed == s.handed + sent;
  }

  /** The messages that have reached the socket or still will: those handed over and those queued. */
  function Kept(s: State): multiset<nat> {
    multiset(s.handed) + multiset(s.queue)
  }

  /**
  Processing Init keeps every message exactly if the connection is not disposed of,
  or has a listener (whose resubscription throws first), or has nothing queued.
  */
  lemma FlushLosesNothingIff(s: State, listening: bool, taken: seq<bool>)
    requires Inv(s) && |taken| == |s.queue|
    ensures Kept(Flush(s, listening, taken)) == Kept(s) <==> !s.disposed || listening || s.queue == []
    ensures Kept(Flush(s, listening, taken)) <= Kept(s)
  {
    if !s.disposed {
      SendEachSpec(s.(queue := []), s.queue, taken);
      PickedSplits(s.queue, taken);
      assert [] + Picked(s.queue, taken, false) == Picked(s.queue, taken, false);
    } else if !listening && s.queue != [] {
      assert |Kept(s)| == |s.handed| + |s.queue|;
      assert |Kept(Flush(s, listening, taken))| == |s.handed|;
    }
  }

  lemma SettleKeepsInv(s: State, id: nat)
    requires Inv(s)
    ensures Inv(Settle(s, id))
  {
  }

  lemma ErrorKeepsInv(s: State, actionId: Option<nat>, order: seq<nat>)
    requires Inv(s) && Lists(order, s.inFlight)
    ensures Inv(ReceiveError(s, actionId, order))
  {
    if actionId.Some? && actionId.value != 0 {
      SettleKeepsInv(s, actionId.value);
    } else {
      var s' := ReceiveError(s, actionId, order);
      UniqueConcat(s.settled, order);
      assert forall id: nat :: id in s'.settled <==> id in s.settled || id in order;
    }
  }

  lemma StepKeepsInv(s: State, step: Step)
    requires Inv(s) && Enabled(s, step)
    ensures Inv(Apply(s, step))
  {
    match step {
      case Action(taken) => ActionKeepsInv(s, taken);
      case InitArrives(listening, taken) => FlushKeepsInv(s, listening, taken);
      case ResponseArrives(id) => SettleKeepsInv(s, id);
      case ErrorArrives(actionId, order) => ErrorKeepsInv(s, actionId, order);
      case Dispose =>
    }
  }

  lemma {:induction false} RunKeepsInv(s: State, steps: seq<Step>)
    requires Inv(s) && ValidRun(s, steps)
    ensures Inv(Run(s, steps))
    decreases |steps|
  {
    if steps != [] {
      StepKeepsInv(s, steps[0]);
      RunKeepsInv(Apply(s, steps[0]), steps[1..]);
    }
  }

  /**
  Over every run: until the connection is disposed of, each issued request is in
  exactly one of "handed to the socket" and the queue; ids are unique and below
  the counter; and every action called so far is either in flight or has been
  settled exactly once.
  */
  lemma RequestsAreConserved(steps: seq<Step>)
    requires ValidRun(Initial(), steps)
    ensures var s := Run(Initial(), steps);
            && (!s.disposed ==> multiset(s.issued) == multiset(s.handed) + multiset(s.queue))
            && multiset(s.issued) == multiset(s.handed) + multiset(s.queue) + multiset(s.dropped)
            && Increasing(s.issued) && AllBelow(s.issued, s.nextId)
            && NoDuplicates(s.settled)
            && (forall id: nat | id < s.nextId :: id in s.inFlight <==> id !in s.settled)
            && (forall id: nat | id in s.inFlight || id in s.settled :: id < s.nextId)
  {
    RunKeepsInv(Initial(), steps);
  }

  // MARK: Where a request is, and whether its action is settled

  /**
  An action on a connection that is not disposed of is the last one handed over if the
  socket takes it, and the last one queued if not; its id is the counter's.
  */
  lemma ActionGoesWhereTaken(s: State, taken: bool)
    ensures var s' := CallAction(s, taken);
            && s'.nextId == s.nextId + 1 && s'.inFlight == s.inFlight + {s.nextId}
            && s'.settled == s.settled && s'.dropped == s.dropped && s'.disposed == s.disposed
            && (if s.disposed then s'.issued == s.issued && s'.handed == s.handed && s'.queue == s.queue
                else && s'.issued == s.issued + [s.nextId]
                     && s'.handed == (if taken then s.handed + [s.nextId] else s.handed)
                     && s'.queue == (if taken then s.queue else s.queue + [s.nextId]))
  {
  }

  /** The queued request is handed over by a flush with these outcomes. */
  predicate TakenBy(queue: seq<nat>, taken: seq<bool>, id: nat) {
    exists i :: 0 <= i < |queue| && i < |taken| && queue[i] == id && taken[i]
  }

  lemma {:induction false} PickedByOutcome(ids: seq<nat>, taken: seq<bool>, which: bool)
    requires |ids| == |taken| && NoDuplicates(ids)
    ensures forall i | 0 <= i < |ids| :: ids[i] in Picked(ids, taken, which) <==> taken[i] == which
    ensures forall id | id in Picked(ids, taken, which) :: id in ids
    decreases |ids|
  {
    if ids != [] {
      PickedByOutcome(ids[1..], taken[1..], which);
      forall i | 0 <= i < |ids| ensures ids[i] in Picked(ids, taken, which) <==> taken[i] == which {
        if i > 0 {
          assert ids[1..][i - 1] == ids[i] && ids[i] != ids[0];
        } else {
          assert ids[0] !in ids[1..];
        }
      }
    }
  }

  lemma FlushFollowsOutcomes(s: State, listening: bool, taken: seq<bool>, id: nat)
    requires Inv(s) && !s.disposed && |taken| == |s.queue|
    ensures id in Flush(s, listening, taken).queue <==> id in s.queue && !TakenBy(s.queue, taken, id)
    ensures id in Flush(s, listening, taken).handed <==> id in s.handed || TakenBy(s.queue, taken, id)
  {
    SendEachSpec(s.(queue := []), s.queue, taken);
    PickedByOutcome(s.queue, taken, true);
    PickedByOutcome(s.queue, taken, false);
    assert [] + Picked(s.queue, taken, false) == Picked(s.queue, taken, false);
    if id in s.queue {
      var i :| 0 <= i < |s.queue| && s.queue[i] == id;
      assert forall j | 0 <= j < |s.queue| && s.queue[j] == id :: j == i;
    }
  }

  datatype Place = Nowhere | Queued | Handed | Dropped

  /** Where the outcomes of sending leave request `id` after a step, if it was at `place` before. */
  ghost function NextPlace(s: State, step: Step, id: nat, place: Place): Place
    requires Enabled(s, step)
  {
    match step
    case Action(taken) =>
      if s.nextId == id && !s.disposed then (if taken then Handed else Queued) else place
    case InitArrives(listening, taken) =>
      if place != Queued then place
      else if s.disposed then (if listening then Queued else Dropped)
      else if TakenBy(s.queue, taken, id) then Handed else Queued
    case _ => place
  }

  ghost function PlaceAfter(s: State, steps: seq<Step>, id: nat, place: Place): Place
    requires ValidRun(s, steps)
    decreases |steps|
  {
    if steps == [] then place else PlaceAfter(Apply(s, steps[0]), steps[1..], id, NextPlace(s, steps[0], id, place))
  }

  ghost predicate IsAt(s: State, id: nat, place: Place) {
    && (id in s.queue <==> place == Queued)
    && (id in s.handed <==> place == Handed)
    && (id in s.dropped <==> place == Dropped)
    && (id >= s.nextId ==> place == Nowhere)
  }

  lemma StepKeepsPlace(s: State, step: Step, id: nat, place: Place)
    requires Inv(s) && Enabled(s, step) && IsAt(s, id, place)
    ensures IsAt(Apply(s, step), id, NextPlace(s, step, id, place))
  {
    match step {
      case InitArrives(listening, taken) =>
        if !s.disposed {
          FlushFollowsOutcomes(s, listening, taken, id);
          SendEachSpec(s.(queue := []), s.queue, taken);
          if TakenBy(s.queue, taken, id) { assert id in s.queue; }
        }
      case _ =>
    }
  }

  lemma {:induction false} RunKeepsPlace(s: State, steps: seq<Step>, id: nat, place: Place)
    requires Inv(s) && ValidRun(s, steps) && IsAt(s, id, place)
    ensures IsAt(Run(s, steps), id, PlaceAfter(s, steps, id, place))
    decreases |steps|
  {
    if steps != [] {
      StepKeepsPlace(s, steps[0], id, place);
      StepKeepsInv(s, steps[0]);
      RunKeepsPlace(Apply(s, steps[0]), steps[1..], id, NextPlace(s, steps[0], id, place));
    }
  }

  /**
  Over every run a request is queued exactly if the socket took it neither when its
  action was called nor at any flush since, and handed over exactly if it took it.
  */
  lemma RequestIsWhereSent(steps: seq<Step>, id: nat)
    requires ValidRun(Initial(), steps)
    ensures IsAt(Run(Initial(), steps), id, PlaceAfter(Initial(), steps, id, Nowhere))
  {
    RunKeepsPlace(Initial(), steps, id, Nowhere);
  }

  /** Whether action `id` awaits its answer after a step: a connection error (or one for action 0) answers all. */
  ghost function NextAwaited(s: State, step: Step, id: nat, awaited: bool): bool
    requires Enabled(s, step)
  {
    match step
    case Action(_) => awaited || s.nextId == id
    case ResponseArrives(answered) => awaited && answered != id
    case ErrorArrives(failed, _) => awaited && failed.Some? && failed.value != 0 && failed.value != id
    case _ => awaited
  }

  ghost function AwaitedAfter(s: State, steps: seq<Step>, id: nat, awaited: bool): bool
    requires ValidRun(s, steps)
    decreases |steps|
  {
    if steps == [] then awaited
    else AwaitedAfter(Apply(s, steps[0]), steps[1..], id, NextAwaited(s, steps[0], id, awaited))
  }

  /** Over every run an action is in flight exactly while neither an answer to it nor a connection error has come. */
  lemma {:induction false} InFlightUntilAnswered(s: State, steps: seq<Step>, id: nat)
    requires ValidRun(s, steps)
    ensures id in Run(s, steps).inFlight <==> AwaitedAfter(s, steps, id, id in s.inFlight)
    decreases |steps|
  {
    if steps != [] {
      InFlightUntilAnswered(Apply(s, steps[0]), steps[1..], id);
      SendingKeepsInFlight(s, steps[0]);
    }
  }

  lemma SendingKeepsInFlight(s: State, step: Step)
    requires Enabled(s, step)
    ensures step.InitArrives? ==> Apply(s, step).inFlight == s.inFlight
  {
    if step.InitArrives? && !s.disposed {
      SendEachSpec(s.(queue := []), s.queue, step.outcomes);
    }
  }

  /** Once the connection is disposed of, no run issues or hands over anything. */
  lemma {:induction false} DisposedSendsNothing(s: State, steps: seq<Step>)
    requires s.disposed && ValidRun(s, steps)
    ensures var t := Run(s, steps);
            t.disposed && t.issued == s.issued && t.handed == s.handed && (t.queue == s.queue || t.queue == [])
    decreases |steps|
  {
    if steps != [] {
      DisposedSendsNothing(Apply(s, steps[0]), steps[1..]);
    }
  }

  /** The connection is disposed of exactly when it has been told to. */
  lemma {:induction false} DisposedIffTold(s: State, steps: seq<Step>)
    requires ValidRun(s, steps)
    ensures Run(s, steps).disposed <==> s.disposed || Dispose in steps
    decreases |steps|
  {
    if steps != [] {
      if steps[0].InitArrives? && !s.disposed {
        SendEachSpec(s.(queue := []), s.queue, steps[0].outcomes);
      }
      DisposedIffTold(Apply(s, steps[0]), steps[1..]);
      assert forall step :: step in steps <==> step == steps[0] || step in steps[1..];
    }
  }

  /** An error that names an action settles that action alone exactly if it is not action 0, or 0 is alone. */
  lemma ErrorHitsOnlyItsActionIff(s: State, id: nat, order: seq<nat>)
    requires Inv(s) && id in s.inFlight && Lists(order, s.inFlight)
    ensures var s' := ReceiveError(s, Some(id), order);
            s'.inFlight == s.inFlight - {id} <==> id != 0 || s.inFlight == {0}
  {
    if id == 0 && s.inFlight != {0} {
      assert s.inFlight == {0} + (s.inFlight - {0});
    } else if id == 0 {
      assert s.inFlight - {0} == {};
    }
  }
}
