/**
Event subscriptions between a client and an actor over WebSockets:
`#addEventSubscription`, `#dispatchEvent`, `#sendSubscription` and the
resubscription in `#handleOnOpen` of packages/rivetkit/src/client/actor-conn.ts,
against the server's handling of subscription requests in
packages/rivetkit/src/actor/protocol/old.ts and
packages/rivetkit/src/actor/instance.ts.
*/
module ClientSubscriptions {
  import opened Options

  datatype Listener = Listener(number: nat, once: bool)

  datatype Request = Request(event: string, subscribe: bool)

  /**
  One WebSocket: requests travel in order. `initDone` says that the client has
  processed the server's Init message on it; `subscribed` is the set that the
  server's connection object holds.
  */
  datatype Link = Closed | Open(initDone: bool, wire: seq<Request>, subscribed: set<string>)

  /**
  `spent` are the events subscribed on this socket whose entry was deleted after a
  dispatch: the client drops them without telling the server.
  */
  datatype State = State(listeners: map<string, set<Listener>>,
                         nextNumber: nat,
                         link: Link,
                         spent: set<string>,
                         disposed: bool)

  function Initial(): State {
    State(map[], 0, Closed, {}, false)
  }

  // MARK: What the application calls

  /** A call of `on` or `once`, of a function that one of them returned, or of `dispose`. */
  datatype Action = CallOn(event: string, once: bool) | CallOff(event: string, listener: Listener) | CallDispose

  /** An ephemeral message: sent on an open socket, dropped otherwise. */
  function Sent(link: Link, request: Request): Link {
    if link.Open? then link.(wire := link.wire + [request]) else link
  }

  /** On a disposed connection the request throws and leaves an empty entry behind. */
  function AddListener(s: State, event: string, once: bool): State {
    var l := Listener(s.nextNumber, once);
    if event in s.listeners then
      s.(listeners := s.listeners[event := s.listeners[event] + {l}], nextNumber := s.nextNumber + 1)
    else if s.disposed then
      s.(listeners := s.listeners[event := {}])
    else
      s.(listeners := s.listeners[event := {l}], nextNumber := s.nextNumber + 1,
         link := Sent(s.link, Request(event, true)), spent := s.spent - {event})
  }

  /** The function that `on` and `once` return; on a disposed connection its request throws at the end. */
  function RemoveListener(s: State, event: string, l: Listener): State {
    if event !in s.listeners then s
    else if s.listeners[event] - {l} == {} then
      s.(listeners := s.listeners - {event},
         link := if s.disposed then s.link else Sent(s.link, Request(event, false)))
    else
      s.(listeners := s.listeners[event := s.listeners[event] - {l}])
  }

  function Do(s: State, action: Action): State {
    match action
    case CallOn(event, once) => AddListener(s, event, once)
    case CallOff(event, l) => RemoveListener(s, event, l)
    case CallDispose => s.(disposed := true)
  }

  // MARK: Dispatching an event

  /**
  The connection while `#dispatchEvent` calls the listeners of one event. `captured`
  is the set object it took from the map at the start; `attached` says that the map
  still holds that very object, so that changes to the one are changes to the other.
  */
  datatype Dispatching = Dispatching(state: State, captured: set<Listener>, attached: bool)

  /** One listener that is called, and what its callback does. */
  datatype Call = Call(listener: Listener, actions: seq<Action>)

  function BeginDispatch(s: State, event: string): Dispatching
    requires event in s.listeners
  {
    Dispatching(s, s.listeners[event], true)
  }

  function CallbackDoes(d: Dispatching, event: string, action: Action): Dispatching {
    var s := Do(d.state, action);
    if !d.attached then d.(state := s)
    else if event in s.listeners then Dispatching(s, s.listeners[event], true)
    else Dispatching(s, {}, false)
  }

  function CallbackRuns(d: Dispatching, event: string, actions: seq<Action>): Dispatching
    decreases |actions|
  {
    if actions == [] then d else CallbackRuns(CallbackDoes(d, event, actions[0]), event, actions[1..])
  }

  /** After its own callback a `once` listener leaves the captured set; the entry stays, even if empty. */
  function AfterCallback(d: Dispatching, event: string, l: Listener): Dispatching {
    if !l.once then d else
    var left := d.captured - {l};
    var s := if d.attached then d.state.(listeners := d.state.listeners[event := left]) else d.state;
    Dispatching(s, left, d.attached)
  }

  function RunCalls(d: Dispatching, event: string, calls: seq<Call>): Dispatching
    decreases |calls|
  {
    if calls == [] then d else
    RunCalls(AfterCallback(CallbackRuns(d, event, calls[0].actions), event, calls[0].listener), event, calls[1..])
  }

  predicate WillHave(link: Link, event: string) {
    link.Open? && event in Eventually(link.wire, link.subscribed)
  }

  /** The end of the dispatch: an empty captured set deletes the event's entry, by name. */
  function CleanUp(d: Dispatching, event: string): State {
    var s := d.state;
    if d.captured != {} || event !in s.listeners then s else
    s.(listeners := s.listeners - {event}, spent := if WillHave(s.link, event) then s.spent + {event} else s.spent)
  }

  /** An event arrives. If the callback of `fails` throws, neither the rest nor the clean-up runs. */
  function Dispatch(s: State, event: string, calls: seq<Call>, fails: Option<Call>): State {
    if event !in s.listeners then s else
    var d := RunCalls(BeginDispatch(s, event), event, calls);
    if fails.Some? then CallbackRuns(d, event, fails.value.actions).state else CleanUp(d, event)
  }

  /** The calls name the event's listeners once each: all of them, or some when one of them throws. */
  ghost predicate CallsEach(ls: set<Listener>, calls: seq<Call>, fails: Option<Call>) {
    var all := if fails.Some? then calls + [fails.value] else calls;
    && (forall i, j | 0 <= i < j < |all| :: all[i].listener != all[j].listener)
    && (forall i | 0 <= i < |all| :: all[i].listener in ls)
    && (fails.None? ==> forall l | l in ls :: exists i :: 0 <= i < |calls| && calls[i].listener == l)
  }

  // MARK: The server

  function SendAll(link: Link, events: seq<string>): (link': Link)
    ensures link'.Open? <==> link.Open?
    decreases |events|
  {
    if events == [] then link else SendAll(Sent(link, Request(events[0], true)), events[1..])
  }

  function Applied(subscribed: set<string>, request: Request): set<string> {
    if request.subscribe then subscribed + {request.event} else subscribed - {request.event}
  }

  /** The server's set once every request on the wire has been applied. */
  function Eventually(wire: seq<Request>, subscribed: set<string>): set<string>
    decreases |wire|
  {
    if wire == [] then subscribed else Eventually(wire[1..], Applied(subscribed, wire[0]))
  }

  // MARK: Runs

  /** `order` is the order in which the client's map lists the events. */
  datatype Step =
    | Acts(action: Action)
    | EventArrives(event: string, calls: seq<Call>, fails: Option<Call>)
    | SocketOpens
    | InitArrives(order: seq<string>)
    | LateInitArrives(order: seq<string>)
    | ServerReceives
    | SocketCloses

  ghost predicate Lists(order: seq<string>, events: set<string>) {
    forall e :: e in order <==> e in events
  }

  ghost predicate Enabled(s: State, step: Step) {
    match step
    case EventArrives(event, calls, fails) => event in s.listeners ==> CallsEach(s.listeners[event], calls, fails)
    case SocketOpens => s.link.Closed?
    case InitArrives(order) => s.link.Open? && Lists(order, s.listeners.Keys)
    case LateInitArrives(order) => Lists(order, s.listeners.Keys)
    case ServerReceives => s.link.Open? && s.link.wire != []
    case _ => true
  }

  ghost function Apply(s: State, step: Step): State
    requires Enabled(s, step)
  {
    match step
    case Acts(action) => Do(s, action)
    case EventArrives(event, calls, fails) => Dispatch(s, event, calls, fails)
    case SocketOpens => s.(link := Open(false, [], {}), spent := {})
    case InitArrives(order) => if s.disposed then s else s.(link := SendAll(s.link, order).(initDone := true))
    case LateInitArrives(order) => if s.disposed then s else s.(link := SendAll(s.link, order))
    case ServerReceives =>
      s.(link := s.link.(wire := s.link.wire[1..], subscribed := Applied(s.link.subscribed, s.link.wire[0])))
    case SocketCloses => s.(link := Closed)
  }

  ghost predicate ValidRun(s: State, steps: seq<Step>)
    decreases |steps|
  {
    steps == [] || (Enabled(s, steps[0]) && ValidRun(Apply(s, steps[0]), steps[1..]))
  }

  ghost function Run(s: State, steps: seq<Step>): State
    requires ValidRun(s, steps)
    decreases |steps|
  {
    if steps == [] then s else Run(Apply(s, steps[0]), steps[1..])
  }

  // MARK: Agreement

  ghost predicate Inv(s: State) {
    !s.disposed ==>
      && s.spent !! s.listeners.Keys
      && (s.link.Open? ==>
            var server := Eventually(s.link.wire, s.link.subscribed);
            && s.spent <= server <= s.listeners.Keys + s.spent
            && (s.link.initDone ==> server == s.listeners.Keys + s.spent))
  }

  lemma {:induction false} EventuallyOfExtension(wire: seq<Request>, subscribed: set<string>, request: Request)
    ensures Eventually(wire + [request], subscribed) == Applied(Eventually(wire, subscribed), request)
    decreases |wire|
  {
    if wire == [] {
      assert (wire + [request])[1..] == [];
    } else {
      assert (wire + [request])[1..] == wire[1..] + [request];
      EventuallyOfExtension(wire[1..], Applied(subscribed, wire[0]), request);
    }
  }

  lemma {:induction false} SendAllSpec(link: Link, events: seq<string>)
    requires link.Open?
    ensures var link' := SendAll(link, events);
            && link'.Open? && link'.initDone == link.initDone && link'.subscribed == link.subscribed
            && forall e :: e in Eventually(link'.wire, link'.subscribed)
                           <==> e in Eventually(link.wire, link.subscribed) || e in events
    decreases |events|
  {
    if events != [] {
      EventuallyOfExtension(link.wire, link.subscribed, Request(events[0], true));
      SendAllSpec(Sent(link, Request(events[0], true)), events[1..]);
      assert forall e :: e in events <==> e == events[0] || e in events[1..];
    }
  }

  lemma {:induction false} SendAllWhenClosed(link: Link, events: seq<string>)
    requires link.Closed?
    ensures SendAll(link, events) == link
    decreases |events|
  {
    if events != [] {
      SendAllWhenClosed(link, events[1..]);
    }
  }

  lemma AddKeepsInv(s: State, event: string, once: bool)
    requires Inv(s)
    ensures Inv(AddListener(s, event, once))
  {
    if s.link.Open? {
      EventuallyOfExtension(s.link.wire, s.link.subscribed, Request(event, true));
    }
  }

  lemma RemoveKeepsInv(s: State, event: string, l: Listener)
    requires Inv(s)
    ensures Inv(RemoveListener(s, event, l))
  {
    if s.link.Open? {
      EventuallyOfExtension(s.link.wire, s.link.subscribed, Request(event, false));
    }
  }

  lemma DoKeepsInv(s: State, action: Action)
    requires Inv(s)
    ensures Inv(Do(s, action))
  {
    match action {
      case CallOn(event, once) => AddKeepsInv(s, event, once);
      case CallOff(event, l) => RemoveKeepsInv(s, event, l);
      case CallDispose =>
    }
  }

  /** While attached, the map's entry is the captured set; a detached captured set is empty for good. */
  ghost predicate CaptureAgrees(d: Dispatching, event: string) {
    && (d.attached ==> event in d.state.listeners && d.state.listeners[event] == d.captured)
    && (!d.attached ==> d.captured == {})
  }

  ghost predicate DispatchInv(d: Dispatching, event: string) {
    Inv(d.state) && CaptureAgrees(d, event)
  }

  lemma {:induction false} CallbackKeepsInv(d: Dispatching, event: string, actions: seq<Action>)
    requires DispatchInv(d, event)
    ensures DispatchInv(CallbackRuns(d, event, actions), event)
    decreases |actions|
  {
    if actions != [] {
      DoKeepsInv(d.state, actions[0]);
      CallbackKeepsInv(CallbackDoes(d, event, actions[0]), event, actions[1..]);
    }
  }

  lemma AfterCallbackKeepsInv(d: Dispatching, event: string, l: Listener)
    requires DispatchInv(d, event)
    ensures DispatchInv(AfterCallback(d, event, l), event)
  {
    var s' := AfterCallback(d, event, l).state;
    assert s'.listeners.Keys == d.state.listeners.Keys;
  }

  lemma {:induction false} CallsKeepInv(d: Dispatching, event: string, calls: seq<Call>)
    requires DispatchInv(d, event)
    ensures DispatchInv(RunCalls(d, event, calls), event)
    decreases |calls|
  {
    if calls != [] {
      CallbackKeepsInv(d, event, calls[0].actions);
      var d1 := CallbackRuns(d, event, calls[0].actions);
      AfterCallbackKeepsInv(d1, event, calls[0].listener);
      CallsKeepInv(AfterCallback(d1, event, calls[0].listener), event, calls[1..]);
    }
  }

  lemma DispatchKeepsInv(s: State, event: string, calls: seq<Call>, fails: Option<Call>)
    requires Inv(s)
    ensures Inv(Dispatch(s, event, calls, fails))
  {
    if event in s.listeners {
      CallsKeepInv(BeginDispatch(s, event), event, calls);
      if fails.Some? {
        CallbackKeepsInv(RunCalls(BeginDispatch(s, event), event, calls), event, fails.value.actions);
      }
    }
  }

  lemma InitKeepsInv(s: State, step: Step)
    requires Inv(s) && Enabled(s, step) && (step.InitArrives? || step.LateInitArrives?)
    ensures Inv(Apply(s, step))
  {
    if s.link.Open? {
      SendAllSpec(s.link, step.order);
      var link' := SendAll(s.link, step.order);
      var server := Eventually(s.link.wire, s.link.subscribed);
      assert Eventually(link'.wire, link'.subscribed) == server + s.listeners.Keys;
    } else {
      SendAllWhenClosed(s.link, step.order);
    }
  }

  lemma StepKeepsInv(s: State, step: Step)
    requires Inv(s) && Enabled(s, step)
    ensures Inv(Apply(s, step))
  {
    match step {
      case Acts(action) => DoKeepsInv(s, action);
      case EventArrives(event, calls, fails) => DispatchKeepsInv(s, event, calls, fails);
      case InitArrives(_) => InitKeepsInv(s, step);
      case LateInitArrives(_) => InitKeepsInv(s, step);
      case _ =>
    }
  }

  lemma {:induction false} RunKeepsInv(s: State, steps: seq<Step>)
    requires Inv(s) && ValidRun(s, steps)
    ensures Inv(Run(s, steps))
    decreases |steps|
  {
    if steps != [] {
      StepKeepsInv(s, steps[0]);
      RunKeepsInv(Apply(s, steps[0]), steps[1..]);
    }
  }

  /**
  Client and server agree across any number of reconnects, whatever callbacks do
  while an event is dispatched and whether or not they throw: from Init until the
  socket closes or the connection is disposed of, once the requests under way are
  applied the server's set is exactly the events the client has an entry for, plus
  those whose entry a dispatch on this socket deleted.
  */
  lemma SubscriptionsAgree(steps: seq<Step>)
    requires ValidRun(Initial(), steps)
    ensures var s := Run(Initial(), steps);
            s.link.Open? && s.link.initDone && !s.disposed ==>
              && Eventually(s.link.wire, s.link.subscribed) == s.listeners.Keys + s.spent
              && s.spent !! s.listeners.Keys
              && (s.link.wire == [] ==> s.listeners.Keys <= s.link.subscribed)
  {
    RunKeepsInv(Initial(), steps);
  }

  // MARK: Which listeners a dispatch keeps

  ghost predicate Listens(s: State, event: string, l: Listener) {
    event in s.listeners && l in s.listeners[event]
  }

  /** After one of the actions the event has no entry: an unsubscription took its last listener away. */
  predicate GoneDuring(s: State, event: string, actions: seq<Action>)
    decreases |actions|
  {
    actions != [] && (event !in Do(s, actions[0]).listeners || GoneDuring(Do(s, actions[0]), event, actions[1..]))
  }

  /** The same for the callbacks of a dispatch. */
  predicate GoneDuringCalls(d: Dispatching, event: string, calls: seq<Call>)
    decreases |calls|
  {
    && calls != []
    && var d1 := CallbackRuns(d, event, calls[0].actions);
       || GoneDuring(d.state, event, calls[0].actions)
       || GoneDuringCalls(AfterCallback(d1, event, calls[0].listener), event, calls[1..])
  }

  lemma {:induction false} DetachedIffGone(d: Dispatching, event: string, actions: seq<Action>)
    requires CaptureAgrees(d, event)
    ensures var d' := CallbackRuns(d, event, actions);
            && CaptureAgrees(d', event)
            && (d'.attached <==> d.attached && !GoneDuring(d.state, event, actions))
    decreases |actions|
  {
    if actions != [] {
      DetachedIffGone(CallbackDoes(d, event, actions[0]), event, actions[1..]);
    }
  }

  lemma {:induction false} DetachedIffGoneDuringCalls(d: Dispatching, event: string, calls: seq<Call>)
    requires CaptureAgrees(d, event)
    ensures var d' := RunCalls(d, event, calls);
            && CaptureAgrees(d', event)
            && (d'.attached <==> d.attached && !GoneDuringCalls(d, event, calls))
    decreases |calls|
  {
    if calls != [] {
      DetachedIffGone(d, event, calls[0].actions);
      var d1 := CallbackRuns(d, event, calls[0].actions);
      DetachedIffGoneDuringCalls(AfterCallback(d1, event, calls[0].listener), event, calls[1..]);
    }
  }

  /**
  The clean-up of a dispatch keeps every listener the event has when the last
  callback returns exactly if it has none, or no callback's unsubscription took the
  event's last listener away meanwhile. Otherwise it loses all of them: they are in
  a new set, and the entry is deleted because the captured one is empty.
  */
  lemma DispatchKeepsListenersIff(s: State, event: string, calls: seq<Call>)
    requires event in s.listeners
    ensures var d := RunCalls(BeginDispatch(s, event), event, calls);
            var s' := Dispatch(s, event, calls, None);
            var lost := && GoneDuringCalls(BeginDispatch(s, event), event, calls)
                        && exists l :: Listens(d.state, event, l);
            && ((forall l :: Listens(s', event, l) <==> Listens(d.state, event, l)) <==> !lost)
            && (lost ==> event !in s'.listeners)
            && (forall other, l | other != event :: Listens(s', other, l) <==> Listens(d.state, other, l))
  {
    DetachedIffGoneDuringCalls(BeginDispatch(s, event), event, calls);
  }

  predicate CallsOff(event: string, actions: seq<Action>) {
    exists i :: 0 <= i < |actions| && actions[i].CallOff? && actions[i].event == event
  }

  lemma {:induction false} NotGoneWithoutOff(s: State, event: string, actions: seq<Action>)
    requires event in s.listeners && !CallsOff(event, actions)
    ensures !GoneDuring(s, event, actions)
    decreases |actions|
  {
    if actions != [] {
      assert !(actions[0].CallOff? && actions[0].event == event);
      assert !CallsOff(event, actions[1..]) by {
        forall i | 0 <= i < |actions| - 1
          ensures !(actions[1..][i].CallOff? && actions[1..][i].event == event)
        {
          assert actions[1..][i] == actions[i + 1];
        }
      }
      NotGoneWithoutOff(Do(s, actions[0]), event, actions[1..]);
    }
  }

  lemma {:induction false} NotGoneDuringCallsWithoutOff(d: Dispatching, event: string, calls: seq<Call>)
    requires CaptureAgrees(d, event) && d.attached
    requires forall i | 0 <= i < |calls| :: !CallsOff(event, calls[i].actions)
    ensures !GoneDuringCalls(d, event, calls)
    decreases |calls|
  {
    if calls != [] {
      NotGoneWithoutOff(d.state, event, calls[0].actions);
      DetachedIffGone(d, event, calls[0].actions);
      var d1 := CallbackRuns(d, event, calls[0].actions);
      NotGoneDuringCallsWithoutOff(AfterCallback(d1, event, calls[0].listener), event, calls[1..]);
    }
  }

  /** Callbacks that do not unsubscribe from the event being dispatched lose no listener of it. */
  lemma WithoutOffNothingIsLost(s: State, event: string, calls: seq<Call>)
    requires event in s.listeners
    requires forall i | 0 <= i < |calls| :: !CallsOff(event, calls[i].actions)
    ensures var d := RunCalls(BeginDispatch(s, event), event, calls);
            forall l :: Listens(Dispatch(s, event, calls, None), event, l) <==> Listens(d.state, event, l)
  {
    NotGoneDuringCallsWithoutOff(BeginDispatch(s, event), event, calls);
    DispatchKeepsListenersIff(s, event, calls);
  }

  // MARK: Who listens

  /** `on` adds one new listener and no other; only on a disposed connection, for a new event, it adds none. */
  lemma OnAddsListener(s: State, event: string, once: bool)
    ensures var s' := AddListener(s, event, once);
            var added := !s.disposed || event in s.listeners;
            && (forall e, l :: Listens(s', e, l)
                  <==> Listens(s, e, l) || (added && e == event && l == Listener(s.nextNumber, once)))
            && s'.nextNumber == (if added then s.nextNumber + 1 else s.nextNumber)
            && s'.disposed == s.disposed
  {
  }

  /** The function that `on` returns takes away its listener and no other, whether or not others remain. */
  lemma OffRemovesListener(s: State, event: string, l: Listener)
    ensures var s' := RemoveListener(s, event, l);
            && (forall e, x :: Listens(s', e, x) <==> Listens(s, e, x) && !(e == event && x == l))
            && s'.nextNumber == s.nextNumber && s'.disposed == s.disposed
  {
    var s' := RemoveListener(s, event, l);
    forall e, x ensures Listens(s', e, x) <==> Listens(s, e, x) && !(e == event && x == l) {
      if e == event && event in s.listeners {
        assert x in s.listeners[event] && x != l ==> x in s.listeners[event] - {l};
      }
    }
  }

  /** A request is sent exactly when the event's entry appears or goes, on a connection not disposed of. */
  lemma RequestsFollowEntries(s: State, action: Action)
    requires s.link.Open?
    ensures var s' := Do(s, action);
            && s'.link.Open? && s'.link.initDone == s.link.initDone && s'.link.subscribed == s.link.subscribed
            && s'.link.wire ==
               (match action
                case CallOn(event, _) =>
                  if event !in s.listeners && !s.disposed then s.link.wire + [Request(event, true)] else s.link.wire
                case CallOff(event, _) =>
                  if event in s.listeners && event !in s'.listeners && !s.disposed
                  then s.link.wire + [Request(event, false)] else s.link.wire
                case CallDispose => s.link.wire)
  {
  }

  lemma DoKeepsSocket(s: State, action: Action)
    ensures var s' := Do(s, action);
            && (s'.disposed <==> s.disposed || action.CallDispose?)
            && (s'.link.Open? <==> s.link.Open?)
            && (s.link.Open? ==> s'.link.initDone == s.link.initDone)
  {
  }

  lemma {:induction false} CallbackKeepsSocket(d: Dispatching, event: string, actions: seq<Action>)
    ensures var s' := CallbackRuns(d, event, actions).state;
            && (s'.link.Open? <==> d.state.link.Open?)
            && (d.state.link.Open? ==> s'.link.initDone == d.state.link.initDone)
    decreases |actions|
  {
    if actions != [] {
      DoKeepsSocket(d.state, actions[0]);
      CallbackKeepsSocket(CallbackDoes(d, event, actions[0]), event, actions[1..]);
    }
  }

  lemma {:induction false} CallsKeepSocket(d: Dispatching, event: string, calls: seq<Call>)
    ensures var s' := RunCalls(d, event, calls).state;
            && (s'.link.Open? <==> d.state.link.Open?)
            && (d.state.link.Open? ==> s'.link.initDone == d.state.link.initDone)
    decreases |calls|
  {
    if calls != [] {
      CallbackKeepsSocket(d, event, calls[0].actions);
      var d1 := CallbackRuns(d, event, calls[0].actions);
      CallsKeepSocket(AfterCallback(d1, event, calls[0].listener), event, calls[1..]);
    }
  }

  datatype Socket = NoSocket | Connecting | Ready

  /** The socket after a step, from the socket events alone. */
  function NextSocket(s: State, step: Step, socket: Socket): Socket {
    match step
    case SocketOpens => Connecting
    case InitArrives(_) => if s.disposed then socket else Ready
    case SocketCloses => NoSocket
    case _ => socket
  }

  ghost function SocketAfter(s: State, steps: seq<Step>, socket: Socket): Socket
    requires ValidRun(s, steps)
    decreases |steps|
  {
    if steps == [] then socket else SocketAfter(Apply(s, steps[0]), steps[1..], NextSocket(s, steps[0], socket))
  }

  predicate IsSocket(link: Link, socket: Socket) {
    match socket
    case NoSocket => link.Closed?
    case Connecting => link.Open? && !link.initDone
    case Ready => link.Open? && link.initDone
  }

  lemma StepKeepsSocket(s: State, step: Step, socket: Socket)
    requires Enabled(s, step) && IsSocket(s.link, socket)
    ensures IsSocket(Apply(s, step).link, NextSocket(s, step, socket))
    ensures step.SocketOpens? ==> Apply(s, step).link == Open(false, [], {})
  {
    match step {
      case Acts(action) => DoKeepsSocket(s, action);
      case EventArrives(event, calls, fails) =>
        if event in s.listeners {
          CallsKeepSocket(BeginDispatch(s, event), event, calls);
          var d := RunCalls(BeginDispatch(s, event), event, calls);
          if fails.Some? { CallbackKeepsSocket(d, event, fails.value.actions); }
        }
      case InitArrives(order) => SendAllKeepsInit(s.link, order);
      case LateInitArrives(order) => SendAllKeepsInit(s.link, order);
      case _ =>
    }
  }

  lemma {:induction false} SendAllKeepsInit(link: Link, events: seq<string>)
    ensures link.Open? ==> SendAll(link, events).initDone == link.initDone
    decreases |events|
  {
    if events != [] {
      SendAllKeepsInit(Sent(link, Request(events[0], true)), events[1..]);
    }
  }

  /** Over every run the model's socket is open, and past Init, exactly as the socket events of the run say. */
  lemma {:induction false} SocketIsHistory(s: State, steps: seq<Step>, socket: Socket)
    requires ValidRun(s, steps) && IsSocket(s.link, socket)
    ensures IsSocket(Run(s, steps).link, SocketAfter(s, steps, socket))
    decreases |steps|
  {
    if steps != [] {
      StepKeepsSocket(s, steps[0], socket);
      SocketIsHistory(Apply(s, steps[0]), steps[1..], NextSocket(s, steps[0], socket));
    }
  }

  // MARK: Callbacks that leave the connection alone

  function Repeating(ls: set<Listener>): set<Listener> {
    set l | l in ls && !l.once
  }

  function Called(calls: seq<Call>): set<Listener> {
    set i | 0 <= i < |calls| :: calls[i].listener
  }

  lemma {:induction false} PlainCallsDropOnce(d: Dispatching, event: string, calls: seq<Call>)
    requires CaptureAgrees(d, event) && d.attached
    requires forall i | 0 <= i < |calls| :: calls[i].actions == []
    ensures var left := set l | l in d.captured && !(l.once && l in Called(calls));
            RunCalls(d, event, calls)
            == Dispatching(d.state.(listeners := d.state.listeners[event := left]), left, true)
    decreases |calls|
  {
    var left := set l | l in d.captured && !(l.once && l in Called(calls));
    if calls == [] {
      assert left == d.captured;
      assert d.state.listeners[event := left] == d.state.listeners;
    } else {
      var l0 := calls[0].listener;
      assert CallbackRuns(d, event, calls[0].actions) == d;
      var d1 := AfterCallback(d, event, l0);
      PlainCallsDropOnce(d1, event, calls[1..]);
      assert Called(calls) == {l0} + Called(calls[1..]) by {
        forall l | l in Called(calls) ensures l in {l0} + Called(calls[1..]) {
          var i :| 0 <= i < |calls| && calls[i].listener == l;
          assert i > 0 ==> calls[1..][i - 1].listener == l;
        }
        forall l | l in Called(calls[1..]) ensures l in Called(calls) {
          var i :| 0 <= i < |calls[1..]| && calls[1..][i].listener == l;
          assert calls[i + 1].listener == l;
        }
      }
      assert left == set l | l in d1.captured && !(l.once && l in Called(calls[1..]));
      assert d1.state.listeners[event := left] == d.state.listeners[event := left];
    }
  }

  lemma EachIsCalled(ls: set<Listener>, calls: seq<Call>)
    requires CallsEach(ls, calls, None)
    ensures Called(calls) == ls
  {
    forall l | l in ls ensures l in Called(calls) {
      var i :| 0 <= i < |calls| && calls[i].listener == l;
    }
  }

  /**
  With such callbacks a dispatch leaves the event's repeating listeners, and deletes
  the entry without a request if there are none.
  */
  lemma PlainDispatchLeavesRepeating(s: State, event: string, calls: seq<Call>)
    requires event in s.listeners && CallsEach(s.listeners[event], calls, None)
    requires forall i | 0 <= i < |calls| :: calls[i].actions == []
    ensures var s' := Dispatch(s, event, calls, None);
            var left := Repeating(s.listeners[event]);
            && s'.listeners == (if left == {} then s.listeners - {event} else s.listeners[event := left])
            && s'.link == s.link
  {
    var ls := s.listeners[event];
    PlainCallsDropOnce(BeginDispatch(s, event), event, calls);
    EachIsCalled(ls, calls);
    var left := Repeating(ls);
    assert left == set l | l in ls && !(l.once && l in Called(calls));
    var d := Dispatching(s.(listeners := s.listeners[event := left]), left, true);
    assert Dispatch(s, event, calls, None) == CleanUp(d, event);
    assert s.listeners[event := left] - {event} == s.listeners - {event};
  }

  /**
  If a callback throws, the once listeners called before it are gone, it and the rest
  stay, and the entry stays even if it is empty: there is no clean-up.
  */
  lemma ThrowingDispatchKeepsTheRest(s: State, event: string, calls: seq<Call>, fails: Call)
    requires event in s.listeners && fails.actions == []
    requires forall i | 0 <= i < |calls| :: calls[i].actions == []
    ensures var s' := Dispatch(s, event, calls, Some(fails));
            var left := set l | l in s.listeners[event] && !(l.once && l in Called(calls));
            s' == s.(listeners := s.listeners[event := left])
  {
    PlainCallsDropOnce(BeginDispatch(s, event), event, calls);
  }

  // MARK: Listeners that are lost

  /** A callback that unsubscribes itself and subscribes again loses the new listener. */
  lemma ResubscribingInCallbackIsLost(s: State, event: string, a: Listener, once: bool)
    requires !s.disposed && event in s.listeners && s.listeners[event] == {a}
    ensures var calls := [Call(a, [CallOff(event, a), CallOn(event, once)])];
            && CallsEach({a}, calls, None)
            && Listens(RunCalls(BeginDispatch(s, event), event, calls).state, event, Listener(s.nextNumber, once))
            && event !in Dispatch(s, event, calls, None).listeners
  {
    OffThenOn(BeginDispatch(s, event), event, a, once);
    var calls := [Call(a, [CallOff(event, a), CallOn(event, once)])];
    assert calls[0].listener == a && calls[1..] == [];
  }

  /** One callback that unsubscribes the last listener left and subscribes a new one. */
  lemma OffThenOn(d: Dispatching, event: string, l: Listener, once: bool)
    requires CaptureAgrees(d, event) && d.attached && d.captured == {l} && !d.state.disposed
    ensures var actions := [CallOff(event, l), CallOn(event, once)];
            var d' := CallbackRuns(d, event, actions);
            && !d'.attached && d'.captured == {}
            && d'.state.listeners == d.state.listeners[event := {Listener(d.state.nextNumber, once)}]
  {
    var actions := [CallOff(event, l), CallOn(event, once)];
    var d1 := CallbackDoes(d, event, actions[0]);
    assert {l} - {l} == {};
    assert d1.state.listeners == d.state.listeners - {event} && !d1.attached;
    var d2 := CallbackDoes(d1, event, actions[1]);
    assert actions[1..][0] == actions[1] && actions[1..][1..] == [];
    assert CallbackRuns(d1, event, actions[1..]) == CallbackRuns(d2, event, []) == d2;
    assert CallbackRuns(d, event, actions) == d2;
  }

  /**
  The same behind a `once` listener: `a` has left the set when `b`'s callback runs,
  so `b` is the last listener although the event had two when it arrived.
  */
  lemma ResubscribingAfterOnceIsLost(s: State, event: string, a: Listener, b: Listener, once: bool)
    requires !s.disposed && event in s.listeners && s.listeners[event] == {a, b}
    requires a != b && a.once
    ensures var calls := [Call(a, []), Call(b, [CallOff(event, b), CallOn(event, once)])];
            && CallsEach({a, b}, calls, None)
            && Listens(RunCalls(BeginDispatch(s, event), event, calls).state, event, Listener(s.nextNumber, once))
            && event !in Dispatch(s, event, calls, None).listeners
  {
    var calls := [Call(a, []), Call(b, [CallOff(event, b), CallOn(event, once)])];
    var d := BeginDispatch(s, event);
    assert calls[0].listener == a && calls[1].listener == b;
    assert CallbackRuns(d, event, calls[0].actions) == d;
    var d1 := AfterCallback(d, event, a);
    assert {a, b} - {a} == {b};
    OffThenOn(d1, event, b, once);
    var d2 := AfterCallback(CallbackRuns(d1, event, calls[1].actions), event, b);
    assert calls[1..][0] == calls[1] && calls[1..][1..] == [];
    assert RunCalls(d1, event, calls[1..]) == RunCalls(d2, event, []) == d2;
    assert RunCalls(d, event, calls) == d2;
  }
}
