/**
Saving and restoring an actor's record: the conversions `#convertToBarePersisted`
and `#convertFromBarePersisted` of packages/rivetkit/src/actor/instance.ts, the
version prefix of VersionedData, and the restored subscriptions of Subscriptions.

The CBOR and BARE codecs are parameters; a theorem asks them to give back the values
of the record it is about, and no others.
*/
module PersistedFormat {
  import opened Basics
  import opened Options
  import opened VersionedData
  import opened Subscriptions

  /** A JavaScript value as far as persistence tells values apart. */
  datatype Value =
    | Undefined
    | Null
    | Bool(b: bool)
    | Num(n: real)
    | Text(s: string)
    | Obj(fields: seq<(string, Value)>)

  predicate Falsy(v: Value) {
    v == Undefined || v == Null || v == Bool(false) || v == Num(0.0) || v == Text("")
  }

  /** `v || {}`. */
  function OrEmptyObject(v: Value): Value {
    if Falsy(v) then Obj([]) else v
  }

  datatype ConnRecord = ConnRecord(connId: string, token: string, connDriver: string, connDriverState: Value,
                                   params: Value, state: Value, authData: Value,
                                   subscriptions: seq<string>, lastSeen: real)

  datatype EventRecord = EventRecord(eventId: string, timestamp: real, actionName: string, args: Option<Bytes>)

  datatype ActorRecord = ActorRecord(input: Value, hasInitiated: bool, state: Value,
                                     connections: seq<ConnRecord>, scheduledEvents: seq<EventRecord>)

  datatype BareConn = BareConn(id: string, token: string, driver: string, driverState: Bytes,
                               parameters: Bytes, state: Bytes, auth: Option<Bytes>,
                               subscriptions: seq<string>, lastSeen: int)

  datatype BareEvent = BareEvent(eventId: string, timestamp: int, action: string, args: Option<Bytes>)

  datatype BareActor = BareActor(input: Option<Bytes>, hasInitialized: bool, state: Bytes,
                                 connections: seq<BareConn>, scheduledEvents: seq<BareEvent>)

  datatype Cbor = Cbor(encode: Value -> Bytes, decode: Bytes -> Value)

  // MARK: The conversions

  /** `BigInt(t)`, which throws a RangeError for a number that is not an integer. */
  function BigInt(t: real): Option<int> {
    if IsInteger(t) then Some(t.Floor) else None
  }

  function EncodeUnlessUndefined(c: Cbor, v: Value): Option<Bytes> {
    if v == Undefined then None else Some(c.encode(v))
  }

  function DecodeOrUndefined(c: Cbor, b: Option<Bytes>): Value {
    if b.None? then Undefined else c.decode(b.value)
  }

  function ToBareConn(c: Cbor, r: ConnRecord): Option<BareConn> {
    var lastSeen := BigInt(r.lastSeen);
    if lastSeen.None? then None else
    Some(BareConn(r.connId, r.token, r.connDriver, c.encode(OrEmptyObject(r.connDriverState)),
                  c.encode(OrEmptyObject(r.params)), c.encode(OrEmptyObject(r.state)),
                  EncodeUnlessUndefined(c, r.authData), r.subscriptions, lastSeen.value))
  }

  function ToBareEvent(e: EventRecord): Option<BareEvent> {
    var timestamp := BigInt(e.timestamp);
    if timestamp.None? then None else Some(BareEvent(e.eventId, timestamp.value, e.actionName, e.args))
  }

  /** `xs.map(f)`, where `f` may throw. */
  function MapAll<A, B>(xs: seq<A>, f: A -> Option<B>): Option<seq<B>>
    decreases |xs|
  {
    if xs == [] then Some([]) else
    var y := f(xs[0]);
    var ys := if y.None? then None else MapAll(xs[1..], f);
    if ys.None? then None else Some([y.value] + ys.value)
  }

  /** A throw anywhere is a throw of the whole; otherwise the results are in order. */
  lemma {:induction false} MapAllSpec<A, B>(xs: seq<A>, f: A -> Option<B>)
    ensures MapAll(xs, f).Some? <==> forall i | 0 <= i < |xs| :: f(xs[i]).Some?
    ensures MapAll(xs, f).Some? ==>
              && |MapAll(xs, f).value| == |xs|
              && forall i | 0 <= i < |xs| :: f(xs[i]) == Some(MapAll(xs, f).value[i])
    decreases |xs|
  {
    if xs != [] {
      MapAllSpec(xs[1..], f);
      if forall i | 0 <= i < |xs| :: f(xs[i]).Some? {
        forall i | 0 <= i < |xs[1..]| ensures f(xs[1..][i]).Some? {
          assert xs[1..][i] == xs[i + 1];
        }
      }
      if MapAll(xs, f).Some? {
        forall i | 0 <= i < |xs| ensures f(xs[i]) == Some(MapAll(xs, f).value[i]) {
          if i > 0 {
            assert xs[1..][i - 1] == xs[i];
          }
        }
      }
    }
  }

  function FromBareConn(c: Cbor, b: BareConn): ConnRecord {
    ConnRecord(b.id, b.token, b.driver, c.decode(b.driverState), c.decode(b.parameters), c.decode(b.state),
               DecodeOrUndefined(c, b.auth), b.subscriptions, b.lastSeen as real)
  }

  function ToBare(c: Cbor, p: ActorRecord): Option<BareActor> {
    var connections := MapAll(p.connections, r => ToBareConn(c, r));
    var scheduledEvents := MapAll(p.scheduledEvents, ToBareEvent);
    if connections.None? || scheduledEvents.None? then None else
    Some(BareActor(EncodeUnlessUndefined(c, p.input), p.hasInitiated, c.encode(p.state),
                   connections.value, scheduledEvents.value))
  }

  function FromBare(c: Cbor, b: BareActor): ActorRecord {
    ActorRecord(
      DecodeOrUndefined(c, b.input), b.hasInitialized, c.decode(b.state),
      seq(|b.connections|, i requires 0 <= i < |b.connections| => FromBareConn(c, b.connections[i])),
      seq(|b.scheduledEvents|, i requires 0 <= i < |b.scheduledEvents| =>
        FromBareEvent(b.scheduledEvents[i])))
  }

  function FromBareEvent(e: BareEvent): EventRecord {
    EventRecord(e.eventId, e.timestamp as real, e.action, e.args)
  }

  /** What is restored: falsy driver state, parameters and state of a connection have become `{}`. */
  function Normalized(p: ActorRecord): ActorRecord {
    p.(connections := seq(|p.connections|, i requires 0 <= i < |p.connections| => NormalizedConn(p.connections[i])))
  }

  function NormalizedConn(r: ConnRecord): ConnRecord {
    r.(connDriverState := OrEmptyObject(r.connDriverState), params := OrEmptyObject(r.params),
       state := OrEmptyObject(r.state))
  }

  // MARK: Converting there and back

  /** The codec gives this value back. */
  ghost predicate ReadsBack(c: Cbor, v: Value) {
    c.decode(c.encode(v)) == v
  }

  ghost predicate ConnReadsBack(c: Cbor, r: ConnRecord) {
    && ReadsBack(c, OrEmptyObject(r.connDriverState))
    && ReadsBack(c, OrEmptyObject(r.params))
    && ReadsBack(c, OrEmptyObject(r.state))
    && (r.authData != Undefined ==> ReadsBack(c, r.authData))
  }

  /** The codec gives back every value of the record that is encoded. */
  ghost predicate RecordReadsBack(c: Cbor, p: ActorRecord) {
    && (p.input != Undefined ==> ReadsBack(c, p.input))
    && ReadsBack(c, p.state)
    && forall i | 0 <= i < |p.connections| :: ConnReadsBack(c, p.connections[i])
  }

  /** The place of a value in a list, or the length of the list. */
  function PlaceOf(vs: seq<Value>, v: Value): (i: nat)
    ensures i <= |vs|
    ensures v in vs ==> i < |vs| && vs[i] == v
  {
    if vs == [] || vs[0] == v then 0 else 1 + PlaceOf(vs[1..], v)
  }

  /** A codec for the listed values: each is written as a text as long as its place. */
  function ListCodec(vs: seq<Value>): Cbor {
    Cbor(v => seq(PlaceOf(vs, v), _ => 0), (b: Bytes) => if |b| < |vs| then vs[|b|] else Undefined)
  }

  function ConnValues(rs: seq<ConnRecord>): seq<Value> {
    if rs == [] then []
    else [OrEmptyObject(rs[0].connDriverState), OrEmptyObject(rs[0].params), OrEmptyObject(rs[0].state), rs[0].authData]
         + ConnValues(rs[1..])
  }

  lemma {:induction false} ConnValuesHasAll(rs: seq<ConnRecord>, i: nat)
    requires i < |rs|
    ensures var vs := ConnValues(rs);
            && OrEmptyObject(rs[i].connDriverState) in vs && OrEmptyObject(rs[i].params) in vs
            && OrEmptyObject(rs[i].state) in vs && rs[i].authData in vs
    decreases |rs|
  {
    if i == 0 {
      var first := [OrEmptyObject(rs[0].connDriverState), OrEmptyObject(rs[0].params),
                    OrEmptyObject(rs[0].state), rs[0].authData];
      assert first[0] in first && first[1] in first && first[2] in first && first[3] in first;
    } else {
      ConnValuesHasAll(rs[1..], i - 1);
    }
  }

  /** Every record has a codec that gives its values back, so what is asked of a codec can be met. */
  lemma EveryRecordHasACodec(p: ActorRecord) returns (c: Cbor)
    ensures RecordReadsBack(c, p)
  {
    var vs := [p.input, p.state] + ConnValues(p.connections);
    c := ListCodec(vs);
    assert vs[0] == p.input && vs[1] == p.state;
    forall v | v in vs ensures ReadsBack(c, v) {
    }
    forall i | 0 <= i < |p.connections| ensures ConnReadsBack(c, p.connections[i]) {
      ConnValuesHasAll(p.connections, i);
    }
  }

  /** Every time in the record is one that `BigInt` accepts. */
  predicate TimesAreIntegers(p: ActorRecord) {
    && (forall i | 0 <= i < |p.connections| :: IsInteger(p.connections[i].lastSeen))
    && (forall i | 0 <= i < |p.scheduledEvents| :: IsInteger(p.scheduledEvents[i].timestamp))
  }

  lemma ConnsRoundTrip(c: Cbor, p: ActorRecord)
    ensures var bare := MapAll(p.connections, r => ToBareConn(c, r));
            && (bare.Some? <==> forall i | 0 <= i < |p.connections| :: IsInteger(p.connections[i].lastSeen))
            && (bare.Some? && RecordReadsBack(c, p) ==>
                  && |bare.value| == |p.connections|
                  && forall i | 0 <= i < |p.connections| ::
                       FromBareConn(c, bare.value[i]) == NormalizedConn(p.connections[i]))
  {
    var f := r => ToBareConn(c, r);
    MapAllSpec(p.connections, f);
    forall i | 0 <= i < |p.connections|
      ensures f(p.connections[i]).Some? <==> IsInteger(p.connections[i].lastSeen)
    {
    }
    if MapAll(p.connections, f).Some? && RecordReadsBack(c, p) {
      var bare := MapAll(p.connections, f).value;
      forall i | 0 <= i < |p.connections| ensures FromBareConn(c, bare[i]) == NormalizedConn(p.connections[i]) {
        assert f(p.connections[i]) == Some(bare[i]) && ConnReadsBack(c, p.connections[i]);
      }
    }
  }

  lemma EventsRoundTrip(p: ActorRecord)
    ensures var bare := MapAll(p.scheduledEvents, ToBareEvent);
            && (bare.Some? <==> forall i | 0 <= i < |p.scheduledEvents| :: IsInteger(p.scheduledEvents[i].timestamp))
            && (bare.Some? ==>
                  && |bare.value| == |p.scheduledEvents|
                  && forall i | 0 <= i < |p.scheduledEvents| :: FromBareEvent(bare.value[i]) == p.scheduledEvents[i])
  {
    MapAllSpec(p.scheduledEvents, ToBareEvent);
    forall i | 0 <= i < |p.scheduledEvents|
      ensures ToBareEvent(p.scheduledEvents[i]).Some? <==> IsInteger(p.scheduledEvents[i].timestamp)
    {
    }
  }

  /**
  Converting a record throws exactly if one of its times is not an integer. There and
  back, by every codec that gives back the values it holds, everything is restored but
  falsy values of connections, which become empty objects.
  */
  lemma ConversionRoundTrip(c: Cbor, p: ActorRecord)
    ensures ToBare(c, p).Some? <==> TimesAreIntegers(p)
    ensures ToBare(c, p).Some? && RecordReadsBack(c, p) ==>
              var q := FromBare(c, ToBare(c, p).value);
              && q == Normalized(p) && RecordLeftOf(p, q)
              && (NoFalsyConnValue(p) ==> q == p)
  {
    NormalizedIsLeft(p);
    ConnsRoundTrip(c, p);
    EventsRoundTrip(p);
    if ToBare(c, p).Some? && RecordReadsBack(c, p) {
      var q := FromBare(c, ToBare(c, p).value);
      assert q.connections == Normalized(p).connections;
      assert q.scheduledEvents == p.scheduledEvents;
      if NoFalsyConnValue(p) { LeftOfTruthyIsSame(p, q); }
    }
  }

  /** `w` is what is left of `v`: the value itself, or an empty object for JavaScript's falsy values. */
  predicate LeftOf(v: Value, w: Value) {
    match v
    case Undefined => w == Obj([])
    case Null => w == Obj([])
    case Bool(b) => w == if b then v else Obj([])
    case Num(n) => w == if n == 0.0 then Obj([]) else v
    case Text(s) => w == if s == "" then Obj([]) else v
    case Obj(_) => w == v
  }

  ghost predicate ConnLeftOf(r: ConnRecord, q: ConnRecord) {
    && q.connId == r.connId && q.token == r.token && q.connDriver == r.connDriver
    && q.authData == r.authData && q.subscriptions == r.subscriptions && q.lastSeen == r.lastSeen
    && LeftOf(r.connDriverState, q.connDriverState) && LeftOf(r.params, q.params) && LeftOf(r.state, q.state)
  }

  /** What is restored of a record: everything, but for the falsy values of its connections. */
  ghost predicate RecordLeftOf(p: ActorRecord, q: ActorRecord) {
    && q.input == p.input && q.hasInitiated == p.hasInitiated && q.state == p.state
    && q.scheduledEvents == p.scheduledEvents
    && |q.connections| == |p.connections|
    && forall i | 0 <= i < |p.connections| :: ConnLeftOf(p.connections[i], q.connections[i])
  }

  /** No connection has a falsy driver state, parameters or state. */
  ghost predicate NoFalsyConnValue(p: ActorRecord) {
    forall i | 0 <= i < |p.connections| ::
      var r := p.connections[i];
      LeftOf(r.connDriverState, r.connDriverState) && LeftOf(r.params, r.params) && LeftOf(r.state, r.state)
  }

  lemma NormalizedIsLeft(p: ActorRecord)
    ensures RecordLeftOf(p, Normalized(p))
  {
  }

  lemma LeftOfTruthyIsSame(p: ActorRecord, q: ActorRecord)
    requires RecordLeftOf(p, q) && NoFalsyConnValue(p)
    ensures q == p
  {
    forall i | 0 <= i < |p.connections| ensures q.connections[i] == p.connections[i] {
      assert ConnLeftOf(p.connections[i], q.connections[i]);
    }
  }

  /** A record that has been restored once is restored as it is. */
  lemma NormalizedIsStable(p: ActorRecord)
    ensures Normalized(Normalized(p)) == Normalized(p)
  {
    forall i | 0 <= i < |p.connections|
      ensures NormalizedConn(NormalizedConn(p.connections[i])) == NormalizedConn(p.connections[i])
    {
    }
  }

  // MARK: Through storage

  function Save(c: Cbor, bare: Config<BareActor>, p: ActorRecord): Option<Bytes> {
    var b := ToBare(c, p);
    if b.None? then None else Some(SerializeWithVersion(bare, b.value))
  }

  function Load(c: Cbor, bare: Config<BareActor>, bytes: Bytes): Result<ActorRecord> {
    match DeserializeWithVersion(bare, bytes)
    case Ok(b) => Ok(FromBare(c, b))
    case Err(e) => Err(e)
  }

  /** What the restore loop reads of the connections. */
  function SubscriptionList(p: ActorRecord): seq<PersistedConn> {
    seq(|p.connections|, i requires 0 <= i < |p.connections| =>
      PersistedConn(p.connections[i].connId, p.connections[i].subscriptions))
  }

  /** The connections of the record are those of the registry, in order, with their subscriptions. */
  ghost predicate Persists(s: Registry, p: ActorRecord)
    requires ListDefined(s)
  {
    && |s.persistConns| == |p.connections|
    && forall i | 0 <= i < |p.connections| ::
         && s.conns[s.persistConns[i]].id == p.connections[i].connId
         && s.conns[s.persistConns[i]].persisted == p.connections[i].subscriptions
  }

  lemma NormalizingKeepsSubscriptions(p: ActorRecord)
    ensures SubscriptionList(Normalized(p)) == SubscriptionList(p)
  {
  }

  /**
  Saving and restoring an actor whose times are integers gives back its record, with
  only falsy connection values turned into empty objects, its schedule in the same
  order, and, for every event, the same subscribers.
  */
  lemma SaveRestoreRoundTrip(c: Cbor, bare: Config<BareActor>, p: ActorRecord, s: Registry)
    requires RecordReadsBack(c, p) && bare.currentVersion < U32_RANGE
    requires ToBare(c, p).Some? ==> CodecReadsBack(bare, ToBare(c, p).value)
    requires Agree(s) && ListDefined(s) && Persists(s, p)
    ensures Save(c, bare, p).Some? <==> TimesAreIntegers(p)
    ensures Save(c, bare, p).Some? ==>
              var r := Load(c, bare, Save(c, bare, p).value);
              && r.Ok? && RecordLeftOf(p, r.value)
              && (NoFalsyConnValue(p) ==> r.value == p)
              && forall e :: SubscriberIds(RestoreAll(Fresh(), SubscriptionList(r.value)), e) == SubscriberIds(s, e)
  {
    ConversionRoundTrip(c, p);
    assert PersistedList(s) == SubscriptionList(p);
    if TimesAreIntegers(p) {
      ValueRoundTrip(bare, ToBare(c, p).value);
      NormalizingKeepsSubscriptions(p);
      RestoreRoundTrip(s);
    }
  }
}
