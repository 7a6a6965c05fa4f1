/**
The client's connection object, `ActorConnRaw` in
packages/rivetkit/src/client/actor-conn.ts, as it updates its fields. Its action
requests are specified by ClientRequests, its listeners by ClientSubscriptions.
*/
module ClientConn {
  import opened Options
  import Requests = ClientRequests
  import Subs = ClientSubscriptions

  /** What the socket does with each queued message. */
  function Outcomes(link: Subs.Link, sends: seq<bool>): seq<bool> {
    seq(|sends|, i requires 0 <= i < |sends| => link.Open? && sends[i])
  }

  class ActorConn {
    var disposed: bool
    var messageQueue: seq<nat>
    var actionsInFlight: set<nat>
    var actionIdCounter: nat
    var eventSubscriptions: map<string, set<Subs.Listener>>
    var listenerCounter: nat
    var link: Subs.Link

    ghost var issued: seq<nat>
    ghost var handed: seq<nat>
    ghost var dropped: seq<nat>
    ghost var settled: seq<nat>
    ghost var spent: set<string>

    ghost function RequestView(): Requests.State
      reads this
    {
      Requests.State(disposed, messageQueue, actionsInFlight, actionIdCounter, issued, handed, dropped, settled)
    }

    ghost function SubsView(): Subs.State
      reads this
    {
      Subs.State(eventSubscriptions, listenerCounter, link, spent, disposed)
    }

    constructor ()
      ensures RequestView() == Requests.Initial()
      ensures SubsView() == Subs.Initial()
    {
      disposed, messageQueue, actionsInFlight, actionIdCounter := false, [], {}, 0;
      eventSubscriptions, listenerCounter, link := map[], 0, Subs.Closed;
      issued, handed, dropped, settled, spent := [], [], [], [], {};
    }

    /** Sends an action request; `sends` says that serialising and `send` do not throw. */
    method Action(sends: bool) returns (id: nat, thrown: bool)
      modifies this
      ensures RequestView() == Requests.CallAction(old(RequestView()), old(link).Open? && sends)
      ensures SubsView() == old(SubsView())
      ensures id == old(actionIdCounter) && thrown == old(disposed)
    {
      id := actionIdCounter;
      actionIdCounter := actionIdCounter + 1;
      actionsInFlight := actionsInFlight + {id};
      thrown := SendMessage(id, sends);
      if !thrown {
        issued := issued + [id];
      }
    }

    /**
    Throws on a disposed connection. Otherwise the message goes to the socket if it is
    open and does not throw, and is queued if not.
    */
    method SendMessage(id: nat, sends: bool) returns (thrown: bool)
      modifies this
      ensures RequestView()
           == if old(disposed) then old(RequestView())
              else Requests.SendMessage(old(RequestView()), id, old(link).Open? && sends)
      ensures SubsView() == old(SubsView())
      ensures thrown == old(disposed)
    {
      if disposed {
        return true;
      }
      var queueMessage := false;
      if link.Closed? {
        queueMessage := true;
      } else if sends {
        handed := handed + [id];
      } else {
        queueMessage := true;
      }
      if queueMessage {
        messageQueue := messageQueue + [id];
      }
      return false;
    }

    /** `#handleOnOpen`: resubscribe in the map's order, then flush the queue. */
    method HandleOnOpen(order: seq<string>, sends: seq<bool>) returns (thrown: bool)
      requires forall e :: e in order <==> e in eventSubscriptions
      requires |sends| == |messageQueue|
      modifies this
      ensures RequestView()
           == Requests.Flush(old(RequestView()), old(eventSubscriptions) != map[], Outcomes(old(link), sends))
      ensures SubsView()
           == if disposed then old(SubsView()) else old(SubsView()).(link := Subs.SendAll(old(link), order))
      ensures thrown ==> disposed
    {
      if disposed {
        if |order| > 0 {
          assert order[0] in eventSubscriptions;
          return true;
        }
        assert eventSubscriptions == map[];
        thrown := |messageQueue| > 0;
        dropped := dropped + messageQueue;
        messageQueue := [];
        return;
      }
      for i := 0 to |order|
        invariant Subs.SendAll(link, order[i..]) == Subs.SendAll(old(link), order)
        invariant RequestView() == old(RequestView())
        invariant eventSubscriptions == old(eventSubscriptions) && listenerCounter == old(listenerCounter)
        invariant spent == old(spent)
      {
        link := Subs.Sent(link, Subs.Request(order[i], true));
        assert order[i..][1..] == order[i + 1..];
      }
      ghost var taken := Outcomes(old(link), sends);
      assert link.Open? == old(link).Open?;
      var queue := messageQueue;
      messageQueue := [];
      for i := 0 to |queue|
        invariant !disposed
        invariant Requests.SendEach(RequestView(), queue[i..], taken[i..])
               == Requests.SendEach(old(RequestView()).(queue := []), queue, taken)
        invariant SubsView() == old(SubsView()).(link := Subs.SendAll(old(link), order))
      {
        assert queue[i..][1..] == queue[i + 1..] && taken[i..][1..] == taken[i + 1..];
        var _ := SendMessage(queue[i], sends[i]);
      }
      return false;
    }

    /** `#takeActionInFlight` and the settling of what it returns. */
    method SettleAction(id: nat) returns (found: bool)
      modifies this
      ensures RequestView() == Requests.Settle(old(RequestView()), id)
      ensures SubsView() == old(SubsView())
      ensures found <==> id in old(actionsInFlight)
    {
      if id !in actionsInFlight {
        return false;
      }
      actionsInFlight := actionsInFlight - {id};
      settled := settled + [id];
      return true;
    }

    /** The error branch of `#handleOnMessage`; `order` lists the actions in flight. */
    method HandleError(actionId: Option<nat>, order: seq<nat>)
      requires Requests.Lists(order, actionsInFlight)
      modifies this
      ensures RequestView() == Requests.ReceiveError(old(RequestView()), actionId, order)
      ensures SubsView() == old(SubsView())
    {
      if actionId.Some? && actionId.value != 0 {
        var _ := SettleAction(actionId.value);
        return;
      }
      for i := 0 to |order|
        invariant settled == old(settled) + order[..i]
        invariant actionsInFlight == old(actionsInFlight) - (set x | x in order[..i])
        invariant RequestView() == old(RequestView()).(settled := settled, inFlight := actionsInFlight)
        invariant SubsView() == old(SubsView())
      {
        settled := settled + [order[i]];
        actionsInFlight := actionsInFlight - {order[i]};
        assert order[..i + 1] == order[..i] + [order[i]];
      }
      assert order[..|order|] == order;
      assert actionsInFlight == {};
    }

    /**
    `on` and `once`. On a disposed connection the subscription request throws, and
    leaves an empty set behind for an event that had none.
    */
    method AddEventSubscription(event: string, once: bool) returns (listener: Option<Subs.Listener>)
      modifies this
      ensures RequestView() == old(RequestView())
      ensures SubsView() == Subs.AddListener(old(SubsView()), event, once)
      ensures listener.None? <==> disposed && event !in old(eventSubscriptions)
      ensures listener.Some? ==> event in eventSubscriptions && listener.value in eventSubscriptions[event]
    {
      var l := Subs.Listener(listenerCounter, once);
      if event !in eventSubscriptions {
        eventSubscriptions := eventSubscriptions[event := {}];
        if disposed {
          return None;
        }
        link := Subs.Sent(link, Subs.Request(event, true));
        spent := spent - {event};
      }
      listenerCounter := listenerCounter + 1;
      eventSubscriptions := eventSubscriptions[event := eventSubscriptions[event] + {l}];
      if event !in old(eventSubscriptions) {
        assert {} + {l} == {l};
        assert eventSubscriptions == old(eventSubscriptions)[event := {l}];
      }
      return Some(l);
    }

    /** The returned unsubscribe function; on a disposed connection the request throws at the end. */
    method RemoveEventSubscription(event: string, listener: Subs.Listener)
      modifies this
      ensures RequestView() == old(RequestView())
      ensures SubsView() == Subs.RemoveListener(old(SubsView()), event, listener)
    {
      if event in eventSubscriptions {
        var listeners := eventSubscriptions[event] - {listener};
        eventSubscriptions := eventSubscriptions[event := listeners];
        if listeners == {} {
          eventSubscriptions := eventSubscriptions - {event};
          if !disposed {
            link := Subs.Sent(link, Subs.Request(event, false));
          }
          assert eventSubscriptions == old(eventSubscriptions) - {event};
        }
      }
    }

    /** One call that the application, or a callback of it, makes on the connection. */
    method Perform(action: Subs.Action)
      modifies this
      ensures SubsView() == Subs.Do(old(SubsView()), action)
      ensures RequestView() == old(RequestView()).(disposed := disposed)
    {
      match action {
        case CallOn(event, once) => var _ := AddEventSubscription(event, once);
        case CallOff(event, listener) => RemoveEventSubscription(event, listener);
        case CallDispose => disposed := true;
      }
    }

    /**
    Runs one callback. The set that the dispatch holds is the map's entry while
    `attached`, so what the callback does to the one it does to the other.
    */
    method RunCallback(event: string, actions: seq<Subs.Action>, captured: set<Subs.Listener>, attached: bool)
      returns (captured': set<Subs.Listener>, attached': bool)
      modifies this
      ensures Subs.Dispatching(SubsView(), captured', attached')
           == Subs.CallbackRuns(Subs.Dispatching(old(SubsView()), captured, attached), event, actions)
      ensures RequestView() == old(RequestView()).(disposed := disposed)
    {
      captured', attached' := captured, attached;
      for i := 0 to |actions|
        invariant Subs.CallbackRuns(Subs.Dispatching(SubsView(), captured', attached'), event, actions[i..])
               == Subs.CallbackRuns(Subs.Dispatching(old(SubsView()), captured, attached), event, actions)
        invariant RequestView() == old(RequestView()).(disposed := disposed)
      {
        Perform(actions[i]);
        if attached' {
          if event in eventSubscriptions {
            captured' := eventSubscriptions[event];
          } else {
            captured', attached' := {}, false;
          }
        }
        assert actions[i..][1..] == actions[i + 1..];
      }
    }

    /** `#dispatchEvent`; `fails` is the call whose callback throws, if one does. */
    method DispatchEvent(event: string, calls: seq<Subs.Call>, fails: Option<Subs.Call>)
      modifies this
      ensures SubsView() == Subs.Dispatch(old(SubsView()), event, calls, fails)
      ensures RequestView() == old(RequestView()).(disposed := disposed)
    {
      if event !in eventSubscriptions {
        return;
      }
      var listeners, attached := eventSubscriptions[event], true;
      ghost var start := Subs.BeginDispatch(SubsView(), event);
      for i := 0 to |calls|
        invariant Subs.RunCalls(Subs.Dispatching(SubsView(), listeners, attached), event, calls[i..])
               == Subs.RunCalls(start, event, calls)
        invariant RequestView() == old(RequestView()).(disposed := disposed)
      {
        listeners, attached := RunCallback(event, calls[i].actions, listeners, attached);
        if calls[i].listener.once {
          listeners := listeners - {calls[i].listener};
          if attached {
            eventSubscriptions := eventSubscriptions[event := listeners];
          }
        }
        assert calls[i..][1..] == calls[i + 1..];
      }
      if fails.Some? {
        listeners, attached := RunCallback(event, fails.value.actions, listeners, attached);
        return;
      }
      if listeners == {} && event in eventSubscriptions {
        eventSubscriptions := eventSubscriptions - {event};
        if Subs.WillHave(link, event) {
          spent := spent + {event};
        }
      }
    }
  }
}
