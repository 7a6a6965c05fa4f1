/**
The list of scheduled events that an actor keeps: `#scheduleEventInner` and the
dequeuing part of `_onAlarm` in packages/rivetkit/src/actor/instance.ts.

Timestamps are JavaScript numbers, hence `real`. An event is named by the number
of the call that scheduled it.
*/
module Schedules {
  import opened Options

  datatype Event = Event(id: nat, timestamp: real)

  /** The index of the first event later than `timestamp`, or the length of the list. */
  function InsertIndex(events: seq<Event>, timestamp: real): nat {
    if events == [] || events[0].timestamp > timestamp then 0
    else 1 + InsertIndex(events[1..], timestamp)
  }

  lemma InsertIndexIsFirstLater(events: seq<Event>, timestamp: real)
    ensures InsertIndex(events, timestamp) <= |events|
    ensures forall i | 0 <= i < InsertIndex(events, timestamp) :: events[i].timestamp <= timestamp
    ensures InsertIndex(events, timestamp) < |events| ==> events[InsertIndex(events, timestamp)].timestamp > timestamp
  {
  }

  function Insert(events: seq<Event>, e: Event): seq<Event> {
    InsertIndexIsFirstLater(events, e.timestamp);
    var i := InsertIndex(events, e.timestamp);
    events[..i] + [e] + events[i..]
  }

  /** The index of the first event that is due, if any. */
  function FirstDue(events: seq<Event>, now: real): Option<nat> {
    if events == [] then None
    else if events[0].timestamp <= now then Some(0)
    else
      var rest := FirstDue(events[1..], now);
      if rest.Some? then Some(1 + rest.value) else None
  }

  lemma FirstDueIsFirst(events: seq<Event>, now: real)
    ensures FirstDue(events, now).None? ==> forall e | e in events :: e.timestamp > now
    ensures FirstDue(events, now).Some? ==>
              var k := FirstDue(events, now).value;
              && k < |events| && events[k].timestamp <= now
              && forall i | 0 <= i < k :: events[i].timestamp > now
  {
  }

  /** How many events an alarm at `now` takes off the front. */
  function DequeueCount(events: seq<Event>, now: real): (n: nat)
    ensures n <= |events|
  {
    FirstDueIsFirst(events, now);
    if FirstDue(events, now).Some? then FirstDue(events, now).value + 1 else 0
  }

  // MARK: Order

  /** Earlier timestamp first; ties in the order of scheduling. */
  predicate Before(a: Event, b: Event) {
    a.timestamp < b.timestamp || (a.timestamp == b.timestamp && a.id < b.id)
  }

  ghost predicate InOrder(events: seq<Event>) {
    forall i, j | 0 <= i < j < |events| :: Before(events[i], events[j])
  }

  lemma InsertKeepsOrder(events: seq<Event>, e: Event)
    requires InOrder(events)
    requires forall x | x in events :: x.id < e.id
    ensures InOrder(Insert(events, e))
  {
    InsertIndexIsFirstLater(events, e.timestamp);
    var i := InsertIndex(events, e.timestamp);
    var r := Insert(events, e);
    assert forall k | i < k < |events| :: Before(events[i], events[k]);
    forall p, q | 0 <= p < q < |r| ensures Before(r[p], r[q]) {
      if p == i {
        assert r[q] == events[q - 1];
      } else if q == i {
        assert r[p] == events[p] && events[p] in events;
      } else {
        assert Before(events[if p < i then p else p - 1], events[if q < i then q else q - 1]);
      }
    }
  }

  /** On a list in order, an alarm dequeues the first event when it is due, and nothing otherwise. */
  lemma AlarmTakesOnlyTheFirst(events: seq<Event>, now: real)
    requires InOrder(events)
    ensures DequeueCount(events, now) == if events != [] && events[0].timestamp <= now then 1 else 0
  {
    FirstDueIsFirst(events, now);
  }

  lemma FirstAndRest(events: seq<Event>)
    requires events != []
    ensures multiset(events) == multiset{events[0]} + multiset(events[1..])
  {
    assert events == [events[0]] + events[1..];
  }

  lemma InsertAddsOne(events: seq<Event>, e: Event)
    ensures multiset(Insert(events, e)) == multiset(events) + multiset{e}
  {
    InsertIndexIsFirstLater(events, e.timestamp);
    var i := InsertIndex(events, e.timestamp);
    assert events == events[..i] + events[i..];
  }

  lemma FirstIsBefore(events: seq<Event>, e: Event)
    requires InOrder(events) && e in events
    ensures e == events[0] || Before(events[0], e)
  {
    var i :| 0 <= i < |events| && events[i] == e;
  }

  lemma SameFirst(a: seq<Event>, b: seq<Event>)
    requires InOrder(a) && InOrder(b)
    requires a != [] && b != []
    requires a[0] in b && b[0] in a
    ensures a[0] == b[0]
  {
    FirstIsBefore(b, a[0]);
    FirstIsBefore(a, b[0]);
  }

  /** A list in order is determined by the events in it. */
  lemma {:induction false} OrderIsUnique(a: seq<Event>, b: seq<Event>)
    requires InOrder(a) && InOrder(b)
    requires multiset(a) == multiset(b)
    ensures a == b
    decreases |a|
  {
    if a == [] {
      assert |multiset(b)| == 0;
    } else {
      assert a[0] in multiset(b) && |multiset(a)| > 0;
      assert b != [];
      assert b[0] in multiset(a);
      SameFirst(a, b);
      FirstAndRest(a);
      FirstAndRest(b);
      assert multiset(a[1..]) == multiset(a) - multiset{a[0]} == multiset(b[1..]);
      OrderIsUnique(a[1..], b[1..]);
      assert a == [a[0]] + a[1..] == [b[0]] + b[1..] == b;
    }
  }

  function DueCount(events: seq<Event>, now: real): nat {
    if events == [] then 0
    else (if events[0].timestamp <= now then 1 else 0) + DueCount(events[1..], now)
  }

  // MARK: Conservation over runs

  datatype Execution = Execution(event: Event, at: real)

  /** Everything ever scheduled, what is still pending, and what alarms have taken out. */
  datatype Agenda = Agenda(scheduled: seq<Event>, pending: seq<Event>, executed: seq<Execution>)

  function AddEvent(a: Agenda, timestamp: real): Agenda {
    var e := Event(|a.scheduled|, timestamp);
    Agenda(a.scheduled + [e], Insert(a.pending, e), a.executed)
  }

  function TakeDue(a: Agenda, now: real): Agenda {
    var n := DequeueCount(a.pending, now);
    Agenda(a.scheduled, a.pending[n..], a.executed + seq(n, i requires 0 <= i < n => Execution(a.pending[i], now)))
  }

  datatype AgendaStep = Add(timestamp: real) | Alarm(now: real)

  function Apply(a: Agenda, step: AgendaStep): Agenda {
    match step
    case Add(timestamp) => AddEvent(a, timestamp)
    case Alarm(now) => TakeDue(a, now)
  }

  function Run(a: Agenda, steps: seq<AgendaStep>): Agenda
    decreases |steps|
  {
    if steps == [] then a else Run(Apply(a, steps[0]), steps[1..])
  }

  /** What an actor restores: a list in order, numbered as it stands. */
  ghost predicate Restored(a: Agenda) {
    && a.pending == a.scheduled
    && a.executed == []
    && InOrder(a.pending)
    && forall i | 0 <= i < |a.scheduled| :: a.scheduled[i].id == i
  }

  function ExecutedEvents(xs: seq<Execution>): seq<Event> {
    seq(|xs|, i requires 0 <= i < |xs| => xs[i].event)
  }

  ghost predicate Conserved(a: Agenda) {
    && InOrder(a.pending)
    && (forall i | 0 <= i < |a.scheduled| :: a.scheduled[i].id == i)
    && multiset(a.scheduled) == multiset(a.pending) + multiset(ExecutedEvents(a.executed))
    && (forall x | x in a.executed :: x.event.timestamp <= x.at)
  }

  lemma PendingAreNumberedBelow(a: Agenda, x: Event)
    requires Conserved(a) && x in a.pending
    ensures x.id < |a.scheduled|
  {
    assert x in multiset(a.pending);
    assert x in multiset(a.scheduled);
  }

  lemma AddKeepsConserved(a: Agenda, timestamp: real)
    requires Conserved(a)
    ensures Conserved(AddEvent(a, timestamp))
  {
    var e := Event(|a.scheduled|, timestamp);
    forall x | x in a.pending ensures x.id < e.id {
      PendingAreNumberedBelow(a, x);
    }
    InsertKeepsOrder(a.pending, e);
    InsertAddsOne(a.pending, e);
    assert multiset(a.scheduled + [e]) == multiset(a.scheduled) + multiset{e};
  }

  lemma TakeKeepsConserved(a: Agenda, now: real)
    requires Conserved(a)
    ensures Conserved(TakeDue(a, now))
  {
    AlarmTakesOnlyTheFirst(a.pending, now);
    var a' := TakeDue(a, now);
    if DequeueCount(a.pending, now) == 1 {
      FirstAndRest(a.pending);
      assert ExecutedEvents(a'.executed) == ExecutedEvents(a.executed) + [a.pending[0]];
    } else {
      assert a'.pending == a.pending && a'.executed == a.executed;
    }
  }

  lemma {:induction false} RunKeepsConserved(a: Agenda, steps: seq<AgendaStep>)
    requires Conserved(a)
    ensures Conserved(Run(a, steps))
    decreases |steps|
  {
    if steps != [] {
      match steps[0] {
        case Add(timestamp) => AddKeepsConserved(a, timestamp);
        case Alarm(now) => TakeKeepsConserved(a, now);
      }
      RunKeepsConserved(Apply(a, steps[0]), steps[1..]);
    }
  }

  lemma {:induction false} NumberedIsDuplicateFree(events: seq<Event>)
    requires forall i | 0 <= i < |events| :: events[i].id == i
    ensures forall e :: multiset(events)[e] == if e in events then 1 else 0
    decreases |events|
  {
    if events != [] {
      var n := |events| - 1;
      NumberedIsDuplicateFree(events[..n]);
      assert events == events[..n] + [events[n]];
      forall e ensures multiset(events)[e] == if e in events then 1 else 0 {
        assert multiset(events)[e] == multiset(events[..n])[e] + multiset{events[n]}[e];
      }
    }
  }

  /**
  Over every run from a restored actor: each scheduled event is either pending or
  was executed, never both and never twice; none was executed before its time;
  and the pending list is in order, ties in the order of scheduling.
  */
  lemma EventsAreConserved(a: Agenda, steps: seq<AgendaStep>)
    requires Restored(a)
    ensures var b := Run(a, steps);
            && InOrder(b.pending)
            && (forall e :: multiset(b.pending)[e] + multiset(ExecutedEvents(b.executed))[e]
                            == if e in b.scheduled then 1 else 0)
            && (forall x | x in b.executed :: x.event.timestamp <= x.at)
  {
    assert multiset(a.scheduled) == multiset(a.pending) + multiset(ExecutedEvents(a.executed));
    RunKeepsConserved(a, steps);
    NumberedIsDuplicateFree(Run(a, steps).scheduled);
  }

  /** An alarm with due events executes the first of them, so exactly one fewer is due. */
  lemma AlarmMakesProgress(a: Agenda, now: real)
    requires Conserved(a)
    requires DueCount(a.pending, now) > 0
    ensures var b := TakeDue(a, now);
            && a.pending != []
            && b.executed == a.executed + [Execution(a.pending[0], now)]
            && b.pending == a.pending[1..]
            && DueCount(b.pending, now) == DueCount(a.pending, now) - 1
  {
    AlarmTakesOnlyTheFirst(a.pending, now);
    if a.pending == [] || a.pending[0].timestamp > now {
      NoneDueUnlessFirstIs(a.pending, now);
    }
  }

  lemma {:induction false} NoneDueUnlessFirstIs(events: seq<Event>, now: real)
    requires InOrder(events)
    requires events != [] ==> events[0].timestamp > now
    ensures DueCount(events, now) == 0
    decreases |events|
  {
    if events != [] {
      assert |events| > 1 ==> Before(events[0], events[1]);
      NoneDueUnlessFirstIs(events[1..], now);
    }
  }
}
