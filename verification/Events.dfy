/** Scheduled events (Event.h, Event.cpp): a priority queue by time, emptied up to the current time. */
module Events {

  /** What an event does when executed: open or close a switch, or set an attribute. */
  datatype Action = SetSwitch(index: nat, closed: bool) | SetAttribute(attribute: nat, value: real)

  /** `since` is bookkeeping: how many time steps had been made when the event was scheduled. */
  datatype Event = Event(time: real, action: Action, since: nat)

  /** The components that events act on: the switches, in the order the solver lists them, and attributes. */
  class Plant {
    var closed: seq<bool>
    var attributes: map<nat, real>

    constructor (closed: seq<bool>)
      ensures this.closed == closed && attributes == map[]
    {
      this.closed := closed;
      attributes := map[];
    }

    method Execute(a: Action)
      modifies this
      ensures closed == Switched(old(closed), a) && attributes == Assigned(old(attributes), a)
    {
      match a {
        case SetSwitch(i, c) => if i < |closed| { closed := closed[i := c]; }
        case SetAttribute(i, v) => attributes := attributes[i := v];
      }
    }
  }

  function Switched(closed: seq<bool>, a: Action): seq<bool> {
    if a.SetSwitch? && a.index < |closed| then closed[a.index := a.closed] else closed
  }

  function Assigned(attributes: map<nat, real>, a: Action): map<nat, real> {
    if a.SetAttribute? then attributes[a.attribute := a.value] else attributes
  }

  /** The switches after the events, in order. */
  function ClosedAfter(closed: seq<bool>, es: seq<Event>): (r: seq<bool>)
    ensures |r| == |closed|
  {
    if es == [] then closed else Switched(ClosedAfter(closed, es[..|es| - 1]), es[|es| - 1].action)
  }

  function AttributesAfter(attributes: map<nat, real>, es: seq<Event>): map<nat, real> {
    if es == [] then attributes else Assigned(AttributesAfter(attributes, es[..|es| - 1]), es[|es| - 1].action)
  }

  /** A switch is where the last event about it put it, or where it was. */
  lemma {:induction false} LastEventDecides(closed: seq<bool>, es: seq<Event>, i: nat, k: nat)
    requires i < |closed| && k < |es| && es[k].action.SetSwitch? && es[k].action.index == i
    requires forall j :: k < j < |es| ==> !(es[j].action.SetSwitch? && es[j].action.index == i)
    ensures ClosedAfter(closed, es)[i] == es[k].action.closed
  {
    var n := |es| - 1;
    if k < n {
      forall j | k < j < n ensures !(es[..n][j].action.SetSwitch? && es[..n][j].action.index == i) {
        assert es[..n][j] == es[j];
      }
      LastEventDecides(closed, es[..n], i, k);
    }
  }

  lemma {:induction false} UntouchedSwitch(closed: seq<bool>, es: seq<Event>, i: nat)
    requires i < |closed|
    requires forall j :: 0 <= j < |es| ==> !(es[j].action.SetSwitch? && es[j].action.index == i)
    ensures ClosedAfter(closed, es)[i] == closed[i]
  {
    if es != [] { UntouchedSwitch(closed, es[..|es| - 1], i); }
  }

  predicate About(e: Event, attribute: nat) { e.action.SetAttribute? && e.action.attribute == attribute }

  /** An attribute has the value the last event about it gave it. */
  lemma {:induction false} LastValueStays(attributes: map<nat, real>, es: seq<Event>, a: nat, k: nat)
    requires k < |es| && About(es[k], a) && forall j :: k < j < |es| ==> !About(es[j], a)
    ensures var m := AttributesAfter(attributes, es); a in m && m[a] == es[k].action.value
  {
    var n := |es| - 1;
    if k < n {
      forall j | k < j < n ensures !About(es[..n][j], a) { assert es[..n][j] == es[j]; }
      LastValueStays(attributes, es[..n], a, k);
    }
  }

  /** An attribute no event is about is as it was. */
  lemma {:induction false} UntouchedAttribute(attributes: map<nat, real>, es: seq<Event>, a: nat)
    requires forall j :: 0 <= j < |es| ==> !About(es[j], a)
    ensures var m := AttributesAfter(attributes, es); (a in m <==> a in attributes) && (a in m ==> m[a] == attributes[a])
  {
    if es != [] { UntouchedAttribute(attributes, es[..|es| - 1], a); }
  }

  lemma {:induction false} ClosedAfterConcat(closed: seq<bool>, a: seq<Event>, b: seq<Event>)
    ensures ClosedAfter(closed, a + b) == ClosedAfter(ClosedAfter(closed, a), b)
  {
    if b == [] {
      assert a + b == a;
    } else {
      assert (a + b)[..|a + b| - 1] == a + b[..|b| - 1];
      ClosedAfterConcat(closed, a, b[..|b| - 1]);
    }
  }

  lemma {:induction false} AttributesAfterConcat(attributes: map<nat, real>, a: seq<Event>, b: seq<Event>)
    ensures AttributesAfter(attributes, a + b) == AttributesAfter(AttributesAfter(attributes, a), b)
  {
    if b == [] {
      assert a + b == a;
    } else {
      assert (a + b)[..|a + b| - 1] == a + b[..|b| - 1];
      AttributesAfterConcat(attributes, a, b[..|b| - 1]);
    }
  }

  // ---------------------------------------------------------------- the queue

  /** `top()` of the priority queue: no other event is earlier; among equals the choice is open. */
  predicate Earliest(e: Event, pending: multiset<Event>) {
    e in pending && forall f :: f in pending ==> e.time <= f.time
  }

  lemma {:induction false} SomeEarliest(pending: multiset<Event>) returns (e: Event)
    requires pending != multiset{}
    ensures Earliest(e, pending)
    decreases |pending|
  {
    var f :| f in pending;
    var rest := pending - multiset{f};
    if rest == multiset{} {
      e := f;
      assert pending == rest + multiset{f};
    } else {
      e := SomeEarliest(rest);
      if f.time < e.time { e := f; }
      forall g | g in pending ensures e.time <= g.time { if g != f { assert g in rest; } }
    }
  }

  predicate Ordered(es: seq<Event>) { forall i, j :: 0 <= i < j < |es| ==> es[i].time <= es[j].time }

  /** `m` restricted to the events that are due, or not due, at `now`. */
  ghost predicate Split(before: multiset<Event>, now: real, executed: seq<Event>, after: multiset<Event>) {
    && (forall e :: multiset(executed)[e] == if e.time <= now then before[e] else 0)
    && (forall e :: after[e] == if e.time <= now then 0 else before[e])
  }

  class EventQueue {
    var pending: multiset<Event>

    constructor ()
      ensures pending == multiset{}
    {
      pending := multiset{};
    }

    method AddEvent(e: Event)
      modifies this
      ensures pending == old(pending) + multiset{e}
    {
      pending := pending + multiset{e};
    }

    /** Exactly the events due by now are executed, in order of time; the others stay. */
    method HandleEvents(now: real, plant: Plant) returns (executed: seq<Event>)
      modifies this, plant
      ensures Split(old(pending), now, executed, pending) && Ordered(executed)
      ensures plant.closed == ClosedAfter(old(plant.closed), executed)
      ensures plant.attributes == AttributesAfter(old(plant.attributes), executed)
    {
      executed := [];
      while pending != multiset{}
        invariant Partway(old(pending), now, executed, pending)
        invariant plant.closed == ClosedAfter(old(plant.closed), executed)
        invariant plant.attributes == AttributesAfter(old(plant.attributes), executed)
        decreases |pending|
      {
        ghost var first := SomeEarliest(pending);
        var e :| Earliest(e, pending);
        if e.time > now { break; }
        plant.Execute(e.action);
        NextExecuted(old(pending), now, executed, pending, e);
        executed := executed + [e];
        pending := pending - multiset{e};
      }
      SplitDone(old(pending), now, executed, pending);
    }
  }

  ghost predicate Partway(before: multiset<Event>, now: real, executed: seq<Event>, pending: multiset<Event>) {
    && multiset(executed) + pending == before
    && Ordered(executed) && (forall e :: e in executed ==> e.time <= now)
    && forall e, f :: e in executed && f in pending ==> e.time <= f.time
  }

  lemma NextExecuted(before: multiset<Event>, now: real, executed: seq<Event>, pending: multiset<Event>, e: Event)
    requires Partway(before, now, executed, pending) && Earliest(e, pending) && e.time <= now
    ensures Partway(before, now, executed + [e], pending - multiset{e})
    ensures (executed + [e])[..|executed|] == executed
  {
    var rest := pending - multiset{e};
    assert forall f :: f in rest ==> f in pending;
    assert multiset(executed + [e]) + rest == before;
  }

  lemma SplitDone(before: multiset<Event>, now: real, executed: seq<Event>, after: multiset<Event>)
    requires Partway(before, now, executed, after)
    requires after == multiset{} || exists e :: Earliest(e, after) && e.time > now
    ensures Split(before, now, executed, after) && Ordered(executed)
  {
    forall e
      ensures multiset(executed)[e] == if e.time <= now then before[e] else 0
      ensures after[e] == if e.time <= now then 0 else before[e]
    {
      assert before[e] == multiset(executed)[e] + after[e];
      assert multiset(executed)[e] > 0 ==> e in executed;
      assert after[e] > 0 ==> e in after;
    }
  }
}
