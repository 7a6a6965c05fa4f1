/**
Connections and event subscriptions of an actor instance: `createConn`,
`__removeConn`, `#addSubscription`, `#removeSubscription`, `_broadcast` and the
restore path of `#initialize` in packages/rivetkit/src/actor/instance.ts.

A `Conn` object is named by a number, its identity; `conns` holds every object
made so far, also those that are no longer registered. The persisted record of a
connection is the object its `Conn` points to, so the persisted list is a list
of the same numbers.
*/
module Subscriptions {
  import opened Basics
  import opened Options

  datatype Conn = Conn(id: string, subscriptions: set<string>, persisted: seq<string>)

  datatype Registry = Registry(conns: map<nat, Conn>,
                               nextRef: nat,
                               connections: map<string, nat>,
                               index: map<string, set<nat>>,
                               persistConns: seq<nat>)

  datatype PersistedConn = PersistedConn(id: string, subscriptions: seq<string>)

  function Fresh(): Registry {
    Registry(map[], 0, map[], map[], [])
  }

  // MARK: Operations

  /** Adding a connection; the source throws when the id is registered already. */
  function AddConn(s: Registry, id: string, persisted: seq<string>): Registry {
    Registry(s.conns[s.nextRef := Conn(id, {}, persisted)], s.nextRef + 1,
             s.connections[id := s.nextRef], s.index, s.persistConns + [s.nextRef])
  }

  function CreateConn(s: Registry, id: string): Registry {
    if id in s.connections then s else AddConn(s, id, [])
  }

  function AddSubscription(s: Registry, r: nat, event: string, fromPersist: bool): Registry
    requires r in s.conns
  {
    var c := s.conns[r];
    if event in c.subscriptions then s else
    var c' := Conn(c.id, c.subscriptions + {event}, if fromPersist then c.persisted else c.persisted + [event]);
    var subscribers := if event in s.index then s.index[event] else {};
    s.(conns := s.conns[r := c'], index := s.index[event := subscribers + {r}])
  }

  /** Takes `r` out of the entries of `events`, dropping entries that become empty. */
  function DropFromIndex(index: map<string, set<nat>>, r: nat, events: set<string>): map<string, set<nat>> {
    map e | e in index && (e in events ==> index[e] - {r} != {}) ::
      if e in events then index[e] - {r} else index[e]
  }

  /** `findIndex` and `splice` of the first occurrence. */
  function RemoveFirst<T(==)>(xs: seq<T>, x: T): seq<T> {
    if xs == [] then []
    else if xs[0] == x then xs[1..]
    else [xs[0]] + RemoveFirst(xs[1..], x)
  }

  /** `#removeSubscription` for a live connection. */
  function RemoveSubscription(s: Registry, r: nat, event: string): Registry
    requires r in s.conns
  {
    var c := s.conns[r];
    if event !in c.subscriptions then s else
    s.(conns := s.conns[r := Conn(c.id, c.subscriptions - {event}, RemoveFirst(c.persisted, event))],
       index := DropFromIndex(s.index, r, {event}))
  }

  /** Removes the first persisted record whose connection has the given id. */
  function RemoveById(conns: map<nat, Conn>, refs: seq<nat>, id: string): seq<nat> {
    if refs == [] then []
    else if refs[0] in conns && conns[refs[0]].id == id then refs[1..]
    else [refs[0]] + RemoveById(conns, refs[1..], id)
  }

  /** `__removeConn`: by id from the list and the map, by identity from the index. */
  function RemoveConn(s: Registry, r: nat): Registry
    requires r in s.conns
  {
    var c := s.conns[r];
    s.(persistConns := RemoveById(s.conns, s.persistConns, c.id),
       connections := s.connections - {c.id},
       index := DropFromIndex(s.index, r, c.subscriptions))
  }

  function SubscribeAll(s: Registry, r: nat, events: seq<string>): Registry
    requires r in s.conns
    decreases |events|
  {
    if events == [] then s
    else SubscribeAll(AddSubscription(s, r, events[0], true), r, events[1..])
  }

  /** One iteration of the restore loop. */
  function RestoreConn(s: Registry, p: PersistedConn): Registry {
    SubscribeAll(AddConn(s, p.id, p.subscriptions), s.nextRef, p.subscriptions)
  }

  function RestoreAll(s: Registry, list: seq<PersistedConn>): Registry
    decreases |list|
  {
    if list == [] then s else RestoreAll(RestoreConn(s, list[0]), list[1..])
  }

  // MARK: Agreement

  ghost predicate Registered(s: Registry, r: nat) {
    r in s.conns && s.conns[r].id in s.connections && s.connections[s.conns[r].id] == r
  }

  ghost predicate MapsAgree(s: Registry) {
    && (forall r | r in s.conns :: r < s.nextRef)
    && (forall id | id in s.connections :: s.connections[id] in s.conns && s.conns[s.connections[id]].id == id)
    && NoDuplicates(s.persistConns)
    && (forall r :: r in s.persistConns <==> Registered(s, r))
  }

  ghost predicate Indexed(index: map<string, set<nat>>, e: string, r: nat) {
    e in index && r in index[e]
  }

  ghost predicate NoEmptyEntry(index: map<string, set<nat>>) {
    forall e | e in index :: index[e] != {}
  }

  ghost predicate IndexAgrees(s: Registry) {
    && NoEmptyEntry(s.index)
    && (forall e, r :: Indexed(s.index, e, r) <==> Registered(s, r) && e in s.conns[r].subscriptions)
  }

  ghost predicate PersistedAgrees(c: Conn) {
    NoDuplicates(c.persisted) && forall e :: e in c.persisted <==> e in c.subscriptions
  }

  /**
  A connection is in an event's entry exactly when it is registered, has the event
  in its own set and in its duplicate-free persisted list; no entry is empty; and
  the persisted list holds exactly the registered connections, once each.
  */
  ghost predicate Agree(s: Registry) {
    && MapsAgree(s)
    && IndexAgrees(s)
    && forall r | Registered(s, r) :: PersistedAgrees(s.conns[r])
  }

  lemma AppendKeepsUnique<T(!new)>(xs: seq<T>, x: T)
    requires NoDuplicates(xs) && x !in xs
    ensures NoDuplicates(xs + [x])
  {
  }

  lemma PrependKeepsUnique<T(!new)>(x: T, xs: seq<T>)
    requires NoDuplicates(xs) && x !in xs
    ensures NoDuplicates([x] + xs)
  {
  }

  lemma DropSpec(index: map<string, set<nat>>, r: nat, events: set<string>)
    requires NoEmptyEntry(index)
    ensures var index' := DropFromIndex(index, r, events);
            && NoEmptyEntry(index')
            && forall e, x :: Indexed(index', e, x) <==> Indexed(index, e, x) && !(x == r && e in events)
  {
    var index' := DropFromIndex(index, r, events);
    forall e, x ensures Indexed(index', e, x) <==> Indexed(index, e, x) && !(x == r && e in events) {
      if e in index && x in index[e] && !(x == r && e in events) {
        assert e in events ==> x in index[e] - {r};
      }
    }
  }

  lemma DropOfAbsent(index: map<string, set<nat>>, r: nat, events: set<string>)
    requires NoEmptyEntry(index)
    requires forall e | e in events :: !Indexed(index, e, r)
    ensures DropFromIndex(index, r, events) == index
  {
    forall e | e in index && e in events ensures index[e] - {r} == index[e] {
      assert !Indexed(index, e, r);
    }
  }

  lemma AddConnKeepsAgreement(s: Registry, id: string, persisted: seq<string>)
    requires MapsAgree(s) && IndexAgrees(s) && id !in s.connections
    ensures var s' := AddConn(s, id, persisted);
            && MapsAgree(s') && IndexAgrees(s') && Registered(s', s.nextRef)
            && (forall r :: Registered(s', r) <==> r == s.nextRef || Registered(s, r))
            && (forall r | Registered(s, r) :: s'.conns[r] == s.conns[r])
  {
    var s' := AddConn(s, id, persisted);
    assert s.nextRef !in s.conns && !Registered(s, s.nextRef);
    AppendKeepsUnique(s.persistConns, s.nextRef);
    forall r ensures Registered(s', r) <==> r == s.nextRef || Registered(s, r) {
    }
  }

  lemma AddSubscriptionKeepsIndex(s: Registry, r: nat, event: string, fromPersist: bool)
    requires MapsAgree(s) && IndexAgrees(s) && Registered(s, r)
    ensures var s' := AddSubscription(s, r, event, fromPersist);
            && MapsAgree(s') && IndexAgrees(s')
            && (forall x :: Registered(s', x) <==> Registered(s, x))
            && s'.conns.Keys == s.conns.Keys
            && (forall x | x in s.conns && x != r :: s'.conns[x] == s.conns[x])
            && s'.conns[r].subscriptions == s.conns[r].subscriptions + {event}
            && s'.connections == s.connections && s'.nextRef == s.nextRef
            && (fromPersist ==> s'.conns[r].persisted == s.conns[r].persisted)
            && s'.persistConns == s.persistConns && s'.conns[r].id == s.conns[r].id
  {
    var s' := AddSubscription(s, r, event, fromPersist);
    forall x ensures Registered(s', x) <==> Registered(s, x) {
    }
    if event !in s.conns[r].subscriptions {
      forall e, x ensures Indexed(s'.index, e, x) <==> Indexed(s.index, e, x) || (e == event && x == r) {
      }
    }
  }

  /**
  A subscription request keeps the agreement exactly if its connection is
  registered, or already had the event when it was removed.
  */
  lemma SubscribeKeepsAgreementIff(s: Registry, r: nat, event: string)
    requires Agree(s) && r in s.conns
    ensures Agree(AddSubscription(s, r, event, false)) <==> Registered(s, r) || event in s.conns[r].subscriptions
  {
    var s' := AddSubscription(s, r, event, false);
    if Registered(s, r) {
      AddSubscriptionKeepsIndex(s, r, event, false);
    } else if event !in s.conns[r].subscriptions {
      assert Indexed(s'.index, event, r) && !Registered(s', r);
    }
  }

  lemma {:induction false} RemoveFirstOfUnique<T(!new)>(xs: seq<T>, x: T)
    requires NoDuplicates(xs)
    ensures NoDuplicates(RemoveFirst(xs, x))
    ensures forall y :: y in RemoveFirst(xs, x) <==> y in xs && y != x
    decreases |xs|
  {
    if xs != [] {
      assert forall y :: y in xs <==> y == xs[0] || y in xs[1..];
      if xs[0] != x {
        RemoveFirstOfUnique(xs[1..], x);
        PrependKeepsUnique(xs[0], RemoveFirst(xs[1..], x));
      }
    }
  }

  /** Only the one place is cut out; the rest keeps its order. */
  lemma {:induction false} RemoveFirstCutsOne<T>(xs: seq<T>, x: T) returns (i: nat)
    requires x in xs
    ensures i < |xs| && xs[i] == x && x !in xs[..i]
    ensures RemoveFirst(xs, x) == xs[..i] + xs[i + 1..]
    decreases |xs|
  {
    i := 0;
    if xs[0] != x {
      var j := RemoveFirstCutsOne(xs[1..], x);
      i := j + 1;
      assert xs[..i] == [xs[0]] + xs[1..][..j];
      assert xs[i + 1..] == xs[1..][j + 1..];
    }
  }

  lemma {:induction false} RemoveByIdIsRemoveFirst(conns: map<nat, Conn>, refs: seq<nat>, id: string, target: nat)
    requires forall r | r in refs :: r in conns && (conns[r].id == id <==> r == target)
    ensures RemoveById(conns, refs, id) == RemoveFirst(refs, target)
    decreases |refs|
  {
    if refs != [] {
      RemoveByIdIsRemoveFirst(conns, refs[1..], id, target);
    }
  }

  lemma UnsubscribeKeepsAgreement(s: Registry, r: nat, event: string)
    requires Agree(s) && r in s.conns
    ensures Agree(RemoveSubscription(s, r, event))
  {
    var s' := RemoveSubscription(s, r, event);
    forall x ensures Registered(s', x) <==> Registered(s, x) {
    }
    DropSpec(s.index, r, {event});
    if Registered(s, r) {
      RemoveFirstOfUnique(s.conns[r].persisted, event);
    }
  }

  lemma RemoveRegisteredKeepsAgreement(s: Registry, r: nat)
    requires Agree(s) && Registered(s, r)
    ensures Agree(RemoveConn(s, r))
  {
    var s' := RemoveConn(s, r);
    forall x | x in s.persistConns ensures x in s.conns && (s.conns[x].id == s.conns[r].id <==> x == r) {
      assert Registered(s, x);
    }
    RemoveByIdIsRemoveFirst(s.conns, s.persistConns, s.conns[r].id, r);
    RemoveFirstOfUnique(s.persistConns, r);
    DropSpec(s.index, r, s.conns[r].subscriptions);
    forall x ensures Registered(s', x) <==> Registered(s, x) && x != r {
    }
  }

  lemma {:induction false} RemoveByIdOfNone(conns: map<nat, Conn>, refs: seq<nat>, id: string)
    requires forall r | r in refs :: r in conns && conns[r].id != id
    ensures RemoveById(conns, refs, id) == refs
    decreases |refs|
  {
    if refs != [] {
      RemoveByIdOfNone(conns, refs[1..], id);
    }
  }

  /** Removing a connection again, when its id has not been reused, changes nothing. */
  lemma RemoveAgainChangesNothing(s: Registry, r: nat)
    requires Agree(s) && r in s.conns && s.conns[r].id !in s.connections
    ensures RemoveConn(s, r) == s
  {
    forall x | x in s.persistConns ensures x in s.conns && s.conns[x].id != s.conns[r].id {
      assert Registered(s, x);
    }
    RemoveByIdOfNone(s.conns, s.persistConns, s.conns[r].id);
    assert !Registered(s, r);
    DropOfAbsent(s.index, r, s.conns[r].subscriptions);
    assert s.connections - {s.conns[r].id} == s.connections;
  }

  /**
  Removing a connection keeps the agreement exactly if the connection is the one
  registered under its id, or none is, or the other one that is has no
  subscriptions: `__removeConn` unregisters by id but clears the index by identity.
  */
  lemma RemoveKeepsAgreementIff(s: Registry, r: nat)
    requires Agree(s) && r in s.conns
    ensures Agree(RemoveConn(s, r))
            <==> (s.conns[r].id in s.connections && s.connections[s.conns[r].id] != r ==>
                    s.conns[s.connections[s.conns[r].id]].subscriptions == {})
  {
    var s' := RemoveConn(s, r);
    var id := s.conns[r].id;
    if id !in s.connections {
      RemoveAgainChangesNothing(s, r);
    } else if s.connections[id] == r {
      RemoveRegisteredKeepsAgreement(s, r);
    } else {
      var other := s.connections[id];
      assert Registered(s, other) && !Registered(s, r);
      DropOfAbsent(s.index, r, s.conns[r].subscriptions);
      if s.conns[other].subscriptions == {} {
        RemoveRegisteredKeepsAgreement(s, other);
        DropOfAbsent(s.index, other, {});
        assert s' == RemoveConn(s, other);
      } else {
        var e :| e in s.conns[other].subscriptions;
        assert Indexed(s'.index, e, other) && !Registered(s', other);
      }
    }
  }

  // MARK: Restoring from storage

  /** What is written to storage for the connections. */
  function PersistedList(s: Registry): seq<PersistedConn>
    requires forall r | r in s.persistConns :: r in s.conns
  {
    seq(|s.persistConns|, i requires 0 <= i < |s.persistConns| =>
      PersistedConn(s.conns[s.persistConns[i]].id, s.conns[s.persistConns[i]].persisted))
  }

  lemma {:induction false} SubscribeAllSpec(s: Registry, r: nat, events: seq<string>)
    requires MapsAgree(s) && IndexAgrees(s) && Registered(s, r)
    ensures var s' := SubscribeAll(s, r, events);
            && MapsAgree(s') && IndexAgrees(s')
            && (forall x :: Registered(s', x) <==> Registered(s, x))
            && s'.conns.Keys == s.conns.Keys
            && (forall x | x in s.conns && x != r :: s'.conns[x] == s.conns[x])
            && (forall e :: e in s'.conns[r].subscriptions <==> e in s.conns[r].subscriptions || e in events)
            && s'.conns[r].persisted == s.conns[r].persisted && s'.conns[r].id == s.conns[r].id
            && s'.connections == s.connections && s'.nextRef == s.nextRef && s'.persistConns == s.persistConns
    decreases |events|
  {
    if events != [] {
      AddSubscriptionKeepsIndex(s, r, events[0], true);
      SubscribeAllSpec(AddSubscription(s, r, events[0], true), r, events[1..]);
      assert forall e :: e in events <==> e == events[0] || e in events[1..];
    }
  }

  ghost predicate ListDefined(s: Registry) {
    forall r | r in s.persistConns :: r in s.conns
  }

  lemma AgreementDefinesList(s: Registry)
    requires MapsAgree(s)
    ensures ListDefined(s)
  {
    forall r | r in s.persistConns ensures r in s.conns {
      assert Registered(s, r);
    }
  }

  lemma RestoreConnAgrees(s: Registry, p: PersistedConn)
    requires Agree(s) && p.id !in s.connections && NoDuplicates(p.subscriptions)
    ensures Agree(RestoreConn(s, p))
  {
    AddConnKeepsAgreement(s, p.id, p.subscriptions);
    SubscribeAllSpec(AddConn(s, p.id, p.subscriptions), s.nextRef, p.subscriptions);
    var s' := RestoreConn(s, p);
    forall r | Registered(s', r) ensures PersistedAgrees(s'.conns[r]) {
      if r != s.nextRef {
        assert Registered(s, r) && s'.conns[r] == s.conns[r];
      }
    }
  }

  lemma RestoreConnExtendsList(s: Registry, p: PersistedConn)
    requires MapsAgree(s) && IndexAgrees(s) && p.id !in s.connections
    ensures ListDefined(s) && ListDefined(RestoreConn(s, p))
    ensures RestoreConn(s, p).connections.Keys == s.connections.Keys + {p.id}
    ensures PersistedList(RestoreConn(s, p)) == PersistedList(s) + [p]
  {
    AddConnKeepsAgreement(s, p.id, p.subscriptions);
    SubscribeAllSpec(AddConn(s, p.id, p.subscriptions), s.nextRef, p.subscriptions);
    AgreementDefinesList(s);
    AgreementDefinesList(RestoreConn(s, p));
    forall r | r in s.persistConns ensures r != s.nextRef {
      assert Registered(s, r);
    }
  }

  ghost predicate DistinctIds(list: seq<PersistedConn>) {
    forall i, j | 0 <= i < j < |list| :: list[i].id != list[j].id
  }

  /** A list whose connections can be added: distinct new ids, no repeated subscription. */
  ghost predicate Restorable(taken: set<string>, list: seq<PersistedConn>) {
    && DistinctIds(list)
    && forall p | p in list :: p.id !in taken && NoDuplicates(p.subscriptions)
  }

  lemma RestorableTail(taken: set<string>, list: seq<PersistedConn>)
    requires list != [] && Restorable(taken, list)
    ensures list[0].id !in taken && NoDuplicates(list[0].subscriptions)
    ensures Restorable(taken + {list[0].id}, list[1..])
  {
    assert list[0] in list;
    forall p | p in list[1..] ensures p.id !in taken + {list[0].id} && NoDuplicates(p.subscriptions) {
      assert p in list;
    }
  }

  /** One iteration of the restore loop leaves the rest of the list restorable. */
  lemma RestoreStep(s: Registry, list: seq<PersistedConn>)
    requires Agree(s) && list != [] && Restorable(s.connections.Keys, list)
    ensures ListDefined(s) && Agree(RestoreConn(s, list[0])) && ListDefined(RestoreConn(s, list[0]))
    ensures Restorable(RestoreConn(s, list[0]).connections.Keys, list[1..])
    ensures PersistedList(RestoreConn(s, list[0])) + list[1..] == PersistedList(s) + list
  {
    RestorableTail(s.connections.Keys, list);
    RestoreConnAgrees(s, list[0]);
    RestoreConnExtendsList(s, list[0]);
    assert PersistedList(s) + [list[0]] + list[1..] == PersistedList(s) + list;
  }

  lemma {:induction false} RestoreAllSpec(s: Registry, list: seq<PersistedConn>)
    requires Agree(s) && Restorable(s.connections.Keys, list)
    ensures ListDefined(s) && Agree(RestoreAll(s, list)) && ListDefined(RestoreAll(s, list))
    ensures PersistedList(RestoreAll(s, list)) == PersistedList(s) + list
    decreases |list|
  {
    if list == [] {
      AgreementDefinesList(s);
      assert PersistedList(s) + [] == PersistedList(s);
    } else {
      RestoreStep(s, list);
      RestoreAllSpec(RestoreConn(s, list[0]), list[1..]);
    }
  }

  lemma ListIsWellFormed(s: Registry)
    requires Agree(s)
    ensures forall r | r in s.persistConns :: r in s.conns
    ensures DistinctIds(PersistedList(s))
    ensures forall p | p in PersistedList(s) :: NoDuplicates(p.subscriptions)
  {
    forall r | r in s.persistConns ensures r in s.conns && PersistedAgrees(s.conns[r]) {
      assert Registered(s, r);
    }
    var list := PersistedList(s);
    forall i, j | 0 <= i < j < |list| ensures list[i].id != list[j].id {
      assert Registered(s, s.persistConns[i]) && Registered(s, s.persistConns[j]);
    }
  }

  /** The ids of the connections that a broadcast of `e` reaches. */
  function SubscriberIds(s: Registry, e: string): set<string> {
    if e in s.index then set r | r in s.index[e] && r in s.conns :: s.conns[r].id else {}
  }

  lemma SubscribersAreInTheList(s: Registry, e: string)
    requires Agree(s)
    ensures forall r | r in s.persistConns :: r in s.conns
    ensures SubscriberIds(s, e) == set p | p in PersistedList(s) && e in p.subscriptions :: p.id
  {
    ListIsWellFormed(s);
    var list := PersistedList(s);
    var ids := set p | p in list && e in p.subscriptions :: p.id;
    forall id | id in SubscriberIds(s, e) ensures id in ids {
      var r :| r in s.index[e] && r in s.conns && s.conns[r].id == id;
      assert Indexed(s.index, e, r);
      assert r in s.persistConns;
      var i :| 0 <= i < |s.persistConns| && s.persistConns[i] == r;
      assert list[i] in list;
    }
    forall id | id in ids ensures id in SubscriberIds(s, e) {
      var p :| p in list && e in p.subscriptions && p.id == id;
      var i :| 0 <= i < |list| && list[i] == p;
      assert Registered(s, s.persistConns[i]);
      assert Indexed(s.index, e, s.persistConns[i]);
    }
  }

  /** The registry an actor rebuilds after sleeping: new objects from the stored list. */
  function SleepAndWake(s: Registry): Registry
    requires forall r | r in s.persistConns :: r in s.conns
  {
    RestoreAll(Fresh(), PersistedList(s))
  }

  /** Restoring gives back the stored list, and with it every event's subscribers. */
  lemma RestoreRoundTrip(s: Registry)
    requires Agree(s)
    ensures forall r | r in s.persistConns :: r in s.conns
    ensures var s' := SleepAndWake(s);
            && Agree(s')
            && (forall r | r in s'.persistConns :: r in s'.conns)
            && PersistedList(s') == PersistedList(s)
            && forall e :: SubscriberIds(s', e) == SubscriberIds(s, e)
  {
    ListIsWellFormed(s);
    assert Agree(Fresh());
    RestoreAllSpec(Fresh(), PersistedList(s));
    var s' := SleepAndWake(s);
    assert PersistedList(Fresh()) + PersistedList(s) == PersistedList(s);
    forall e ensures SubscriberIds(s', e) == SubscriberIds(s, e) {
      SubscribersAreInTheList(s, e);
      SubscribersAreInTheList(s', e);
    }
  }

  // MARK: Runs

  datatype Step =
    | Connect(id: string)
    | Subscribe(conn: nat, event: string)
    | Unsubscribe(conn: nat, event: string)
    | Remove(conn: nat)
    | Wake

  /** Requests come from registered connections; ids are not given out twice while subscribed. */
  ghost predicate Enabled(s: Registry, step: Step) {
    match step
    case Connect(_) => true
    case Subscribe(r, _) => Registered(s, r)
    case Unsubscribe(r, _) => r in s.conns
    case Remove(r) =>
      && r in s.conns
      && (s.conns[r].id in s.connections && s.connections[s.conns[r].id] != r ==>
            s.connections[s.conns[r].id] in s.conns && s.conns[s.connections[s.conns[r].id]].subscriptions == {})
    case Wake => forall r | r in s.persistConns :: r in s.conns
  }

  ghost function Apply(s: Registry, step: Step): Registry
    requires Enabled(s, step)
  {
    match step
    case Connect(id) => CreateConn(s, id)
    case Subscribe(r, event) => AddSubscription(s, r, event, false)
    case Unsubscribe(r, event) => RemoveSubscription(s, r, event)
    case Remove(r) => RemoveConn(s, r)
    case Wake => SleepAndWake(s)
  }

  ghost predicate ValidRun(s: Registry, steps: seq<Step>)
    decreases |steps|
  {
    steps == [] || (Enabled(s, steps[0]) && ValidRun(Apply(s, steps[0]), steps[1..]))
  }

  ghost function Run(s: Registry, steps: seq<Step>): Registry
    requires ValidRun(s, steps)
    decreases |steps|
  {
    if steps == [] then s else Run(Apply(s, steps[0]), steps[1..])
  }

  lemma StepKeepsAgreement(s: Registry, step: Step)
    requires Agree(s) && Enabled(s, step)
    ensures Agree(Apply(s, step))
  {
    match step {
      case Connect(id) => if id !in s.connections { AddConnKeepsAgreement(s, id, []); }
      case Subscribe(r, event) => SubscribeKeepsAgreementIff(s, r, event);
      case Unsubscribe(r, event) => UnsubscribeKeepsAgreement(s, r, event);
      case Remove(r) => RemoveKeepsAgreementIff(s, r);
      case Wake => RestoreRoundTrip(s);
    }
  }

  /** The agreement holds after any run of connects, requests, removals and restores. */
  lemma {:induction false} RunKeepsAgreement(s: Registry, steps: seq<Step>)
    requires Agree(s) && ValidRun(s, steps)
    ensures Agree(Run(s, steps))
    decreases |steps|
  {
    if steps != [] {
      StepKeepsAgreement(s, steps[0]);
      RunKeepsAgreement(Apply(s, steps[0]), steps[1..]);
    }
  }

  // MARK: What requests mean

  /** What the registered connections, by id, have asked for. */
  ghost function Wants(s: Registry): map<string, set<string>> {
    map id | id in s.connections && s.connections[id] in s.conns :: s.conns[s.connections[id]].subscriptions
  }

  /** A new subscription is persisted last, a restored one is not persisted again. */
  lemma SubscribeAppends(s: Registry, r: nat, event: string, fromPersist: bool)
    requires r in s.conns && event !in s.conns[r].subscriptions
    ensures var c := s.conns[r];
            AddSubscription(s, r, event, fromPersist).conns[r]
            == Conn(c.id, c.subscriptions + {event}, c.persisted + (if fromPersist then [] else [event]))
  {
  }

  /** After an unsubscription the event is nowhere, and nothing else has changed. */
  lemma UnsubscribeTakesEventAway(s: Registry, r: nat, event: string)
    requires Agree(s) && r in s.conns
    ensures var s' := RemoveSubscription(s, r, event);
            && r in s'.conns && s'.conns[r].id == s.conns[r].id
            && event !in s'.conns[r].subscriptions && !Indexed(s'.index, event, r)
            && (Registered(s, r) ==> event !in s'.conns[r].persisted)
            && (forall e | e != event :: e in s'.conns[r].subscriptions <==> e in s.conns[r].subscriptions)
            && (forall e, x | !(e == event && x == r) :: Indexed(s'.index, e, x) <==> Indexed(s.index, e, x))
            && (forall x | x in s.conns && x != r :: x in s'.conns && s'.conns[x] == s.conns[x])
            && s'.connections == s.connections && s'.persistConns == s.persistConns
  {
    var s' := RemoveSubscription(s, r, event);
    DropSpec(s.index, r, {event});
    assert Indexed(s.index, event, r) ==> event in s.conns[r].subscriptions;
    UnsubscribeKeepsAgreement(s, r, event);
    if Registered(s, r) {
      assert Registered(s', r);
      assert PersistedAgrees(s'.conns[r]);
    }
  }

  /** After a removal nothing is sent to the connection, and its id is free. */
  lemma RemoveForgetsConn(s: Registry, r: nat)
    requires Agree(s) && r in s.conns && Agree(RemoveConn(s, r))
    ensures var s' := RemoveConn(s, r);
            && s.conns[r].id !in s'.connections && !Registered(s', r) && r !in s'.persistConns
            && (forall e :: !Indexed(s'.index, e, r))
            && (forall id | id != s.conns[r].id && id in s.connections ::
                  id in s'.connections && s'.connections[id] == s.connections[id])
            && s'.conns == s.conns
  {
    assert !Registered(RemoveConn(s, r), r);
  }

  ghost function AfterRequest(s: Registry, step: Step, wants: map<string, set<string>>): map<string, set<string>>
    requires Enabled(s, step)
  {
    match step
    case Connect(id) => if id in wants then wants else wants[id := {}]
    case Subscribe(r, event) =>
      var id := s.conns[r].id;
      if id in wants then wants[id := wants[id] + {event}] else wants
    case Unsubscribe(r, event) =>
      var id := s.conns[r].id;
      if Registered(s, r) && id in wants then wants[id := wants[id] - {event}] else wants
    case Remove(r) => wants - {s.conns[r].id}
    case Wake => wants
  }

  lemma ConnectWants(s: Registry, id: string)
    requires Agree(s) && id !in s.connections
    ensures Wants(CreateConn(s, id)) == Wants(s)[id := {}]
  {
    assert s.nextRef !in s.conns;
  }

  lemma SubscribeWants(s: Registry, r: nat, event: string)
    requires Agree(s) && Registered(s, r)
    ensures Wants(AddSubscription(s, r, event, false))
         == Wants(s)[s.conns[r].id := Wants(s)[s.conns[r].id] + {event}]
  {
    var c := s.conns[r];
    assert event in c.subscriptions ==> c.subscriptions + {event} == c.subscriptions;
  }

  lemma UnsubscribeWants(s: Registry, r: nat, event: string)
    requires Agree(s) && r in s.conns
    ensures Wants(RemoveSubscription(s, r, event))
         == if Registered(s, r) then Wants(s)[s.conns[r].id := Wants(s)[s.conns[r].id] - {event}] else Wants(s)
  {
    var c := s.conns[r];
    assert event !in c.subscriptions ==> c.subscriptions - {event} == c.subscriptions;
    UnsubscribeTakesEventAway(s, r, event);
  }

  lemma RemoveWants(s: Registry, r: nat)
    requires Agree(s) && r in s.conns
    ensures Wants(RemoveConn(s, r)) == Wants(s) - {s.conns[r].id}
  {
  }

  lemma ListHasIds(s: Registry, id: string)
    requires Agree(s)
    ensures ListDefined(s)
    ensures id in s.connections <==> exists i :: 0 <= i < |PersistedList(s)| && PersistedList(s)[i].id == id
  {
    AgreementDefinesList(s);
    if id in s.connections {
      assert Registered(s, s.connections[id]) && s.connections[id] in s.persistConns;
      var i :| 0 <= i < |s.persistConns| && s.persistConns[i] == s.connections[id];
      assert PersistedList(s)[i].id == id;
    }
    if i :| 0 <= i < |PersistedList(s)| && PersistedList(s)[i].id == id {
      assert Registered(s, s.persistConns[i]);
    }
  }

  lemma WantedIffSubscriber(s: Registry, id: string, e: string)
    requires Agree(s)
    ensures id in Wants(s) && e in Wants(s)[id] <==> id in SubscriberIds(s, e)
  {
    if id in s.connections && s.connections[id] in s.conns && e in s.conns[s.connections[id]].subscriptions {
      assert Indexed(s.index, e, s.connections[id]);
    }
    if id in SubscriberIds(s, e) {
      var r :| r in s.index[e] && r in s.conns && s.conns[r].id == id;
      assert Indexed(s.index, e, r);
    }
  }

  lemma WakeWants(s: Registry)
    requires Agree(s) && ListDefined(s)
    ensures Wants(SleepAndWake(s)) == Wants(s)
  {
    RestoreRoundTrip(s);
    var s' := SleepAndWake(s);
    forall id ensures id in Wants(s') <==> id in Wants(s) {
      ListHasIds(s, id);
      ListHasIds(s', id);
    }
    forall id | id in Wants(s) ensures Wants(s')[id] == Wants(s)[id] {
      forall e ensures e in Wants(s')[id] <==> e in Wants(s)[id] {
        WantedIffSubscriber(s, id, e);
        WantedIffSubscriber(s', id, e);
      }
    }
  }

  lemma StepWants(s: Registry, step: Step)
    requires Agree(s) && Enabled(s, step)
    ensures Wants(Apply(s, step)) == AfterRequest(s, step, Wants(s))
  {
    match step {
      case Connect(id) => if id !in s.connections { ConnectWants(s, id); }
      case Subscribe(r, event) => SubscribeWants(s, r, event);
      case Unsubscribe(r, event) => UnsubscribeWants(s, r, event);
      case Remove(r) => RemoveWants(s, r);
      case Wake => WakeWants(s);
    }
  }

  /** What the requests of a run ask for, request by request. */
  ghost function Asked(s: Registry, steps: seq<Step>, wants: map<string, set<string>>): map<string, set<string>>
    requires ValidRun(s, steps)
    decreases |steps|
  {
    if steps == [] then wants else Asked(Apply(s, steps[0]), steps[1..], AfterRequest(s, steps[0], wants))
  }

  lemma {:induction false} RunWants(s: Registry, steps: seq<Step>)
    requires Agree(s) && ValidRun(s, steps)
    ensures Agree(Run(s, steps)) && Wants(Run(s, steps)) == Asked(s, steps, Wants(s))
    decreases |steps|
  {
    if steps != [] {
      StepWants(s, steps[0]);
      StepKeepsAgreement(s, steps[0]);
      RunWants(Apply(s, steps[0]), steps[1..]);
    }
  }

  /**
  Over every run from an actor without connections, a broadcast of `e` reaches exactly
  the ids that have connected, were not removed, and whose last request for `e` since
  they connected was a subscription; sleeping and waking in between changes nothing.
  */
  lemma BroadcastReachesWhoAsked(steps: seq<Step>, e: string)
    requires ValidRun(Fresh(), steps)
    ensures var s := Run(Fresh(), steps);
            var asked := Asked(Fresh(), steps, map[]);
            && s.connections.Keys == asked.Keys
            && SubscriberIds(s, e) == set id | id in asked && e in asked[id]
  {
    assert Agree(Fresh()) && Wants(Fresh()) == map[];
    RunWants(Fresh(), steps);
    var s := Run(Fresh(), steps);
    forall id ensures id in SubscriberIds(s, e) <==> id in Wants(s) && e in Wants(s)[id] {
      WantedIffSubscriber(s, id, e);
    }
  }

  // MARK: The registry as the source writes it

  lemma DropOneMore(index: map<string, set<nat>>, r: nat, events: set<string>, event: string)
    requires event !in events
    ensures DropFromIndex(DropFromIndex(index, r, events), r, {event}) == DropFromIndex(index, r, events + {event})
  {
  }

  class ConnRegistry {
    var conns: map<nat, Conn>
    var nextRef: nat
    var connections: map<string, nat>
    var subscriptionIndex: map<string, set<nat>>
    var persistConns: seq<nat>

    ghost function View(): Registry
      reads this
    {
      Registry(conns, nextRef, connections, subscriptionIndex, persistConns)
    }

    constructor ()
      ensures View() == Fresh()
    {
      conns, nextRef, connections, subscriptionIndex, persistConns := map[], 0, map[], map[], [];
    }

    /** Returns the new connection, or nothing when the id is taken. */
    method Create(id: string) returns (conn: Option<nat>)
      modifies this
      ensures View() == CreateConn(old(View()), id)
      ensures conn == if id in old(connections) then None else Some(old(nextRef))
    {
      if id in connections {
        return None;
      }
      conn := Some(nextRef);
      conns := conns[nextRef := Conn(id, {}, [])];
      connections := connections[id := nextRef];
      persistConns := persistConns + [nextRef];
      nextRef := nextRef + 1;
    }

    method Subscribe(r: nat, event: string, fromPersist: bool)
      requires r in conns
      modifies this
      ensures View() == AddSubscription(old(View()), r, event, fromPersist)
    {
      var c := conns[r];
      if event in c.subscriptions {
        return;
      }
      if !fromPersist {
        c := c.(persisted := c.persisted + [event]);
      }
      conns := conns[r := c.(subscriptions := c.subscriptions + {event})];
      if event !in subscriptionIndex {
        subscriptionIndex := subscriptionIndex[event := {}];
      }
      subscriptionIndex := subscriptionIndex[event := subscriptionIndex[event] + {r}];
    }

    /** The part of `#removeSubscription` that updates the index. */
    method Unindex(r: nat, event: string)
      modifies this`subscriptionIndex
      ensures subscriptionIndex == DropFromIndex(old(subscriptionIndex), r, {event})
    {
      if event in subscriptionIndex {
        var subscribers := subscriptionIndex[event] - {r};
        if subscribers == {} {
          subscriptionIndex := subscriptionIndex - {event};
        } else {
          subscriptionIndex := subscriptionIndex[event := subscribers];
        }
      }
    }

    /** The restore loop of `#initialize`. */
    method Restore(list: seq<PersistedConn>)
      modifies this
      ensures View() == RestoreAll(old(View()), list)
    {
      for i := 0 to |list|
        invariant RestoreAll(View(), list[i..]) == RestoreAll(old(View()), list)
      {
        ghost var before := View();
        var p, r := list[i], nextRef;
        conns := conns[r := Conn(p.id, {}, p.subscriptions)];
        connections := connections[p.id := r];
        persistConns := persistConns + [r];
        nextRef := nextRef + 1;
        assert View() == AddConn(before, p.id, p.subscriptions);
        for j := 0 to |p.subscriptions|
          invariant r in conns
          invariant SubscribeAll(View(), r, p.subscriptions[j..]) == RestoreConn(before, p)
        {
          Subscribe(r, p.subscriptions[j], true);
          assert p.subscriptions[j..][1..] == p.subscriptions[j + 1..];
        }
        assert list[i..][1..] == list[i + 1..];
      }
    }

    method Unsubscribe(r: nat, event: string)
      requires r in conns
      modifies this
      ensures View() == RemoveSubscription(old(View()), r, event)
    {
      var c := conns[r];
      if event !in c.subscriptions {
        return;
      }
      conns := conns[r := Conn(c.id, c.subscriptions - {event}, RemoveFirst(c.persisted, event))];
      Unindex(r, event);
    }

    method Remove(r: nat)
      requires r in conns
      modifies this
      ensures View() == RemoveConn(old(View()), r)
    {
      var c := conns[r];
      persistConns := RemoveById(conns, persistConns, c.id);
      connections := connections - {c.id};
      var todo, done := c.subscriptions, {};
      while todo != {}
        invariant done !! todo && done + todo == c.subscriptions
        invariant subscriptionIndex == DropFromIndex(old(subscriptionIndex), r, done)
        invariant persistConns == RemoveById(conns, old(persistConns), c.id)
        invariant connections == old(connections) - {c.id}
        invariant conns == old(conns) && nextRef == old(nextRef)
        decreases |todo|
      {
        var event :| event in todo;
        Unindex(r, event);
        DropOneMore(old(subscriptionIndex), r, done, event);
        todo, done := todo - {event}, done + {event};
      }
      assert done == c.subscriptions;
    }

    /** Sends to every subscriber of an event: each registered one that has it, once. */
    method Broadcast(event: string) returns (sent: seq<nat>)
      ensures NoDuplicates(sent)
      ensures forall r :: r in sent <==> Indexed(subscriptionIndex, event, r)
      ensures Agree(View()) ==>
                forall r :: r in sent <==> Registered(View(), r) && event in conns[r].subscriptions
    {
      sent := [];
      if event !in subscriptionIndex {
        assert forall r :: !Indexed(subscriptionIndex, event, r);
        return;
      }
      var todo := subscriptionIndex[event];
      while todo != {}
        invariant NoDuplicates(sent)
        invariant todo <= subscriptionIndex[event]
        invariant forall r :: r in sent <==> r in subscriptionIndex[event] && r !in todo
        decreases |todo|
      {
        var r :| r in todo;
        AppendKeepsUnique(sent, r);
        sent := sent + [r];
        todo := todo - {r};
      }
      assert forall r :: r in sent <==> Indexed(subscriptionIndex, event, r);
    }
  }
}
