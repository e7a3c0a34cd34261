/** The optimistic-count / overcommit protocol by which consumers of one producer of
    ConcurrentQueue.h claim indices, as a transition system with one step per atomic operation.

    A single dequeue is a bulk dequeue with `max == 1`: both test
    `optimistic - overcommit < tail`, both compare `myDequeueCount - overcommit` with a
    reloaded tail. Indices are unbounded here; SlotArithmetic treats their wrap-around. */
module DequeueCounters {

  /** One reservation made on dequeueOptimisticCount. The first three fields are the values the
      consumer acted on, `got` is what it found available; the rest is bookkeeping for the proof. */
  datatype Ticket = Ticket(start: int, want: int, over: int, owner: nat,
                           decided: bool, got: int, returned: bool, claimed: bool)

  /** The indices `first .. first + len` handed to one consumer. */
  datatype Claim = Claim(first: int, len: int)

  /** Program counters, named after the atomic operation the consumer is about to do.
      `k` numbers the consumer's ticket. */
  datatype PC =
    | Idle
    | LoadTail(max: nat)
    | LoadOver(max: nat, tail: int)
    | LoadOpt(max: nat, tail: int, over: int)
    | AddOpt(want: int, over: int)
    | ReloadTail(k: nat, my: int, want: int, over: int)
    | AddOver(k: nat, back: int, take: int)
    | AddHead(k: nat, take: int)

  datatype State = State(tail: int, head: int, optimistic: int, overcommit: int,
                         tickets: seq<Ticket>, claims: seq<Claim>, consumers: seq<PC>)

  datatype Event = Silent | Enqueued | Called(t: nat, max: nat) | Claimed(t: nat, c: Claim) | Failed(t: nat)

  function Min(a: int, b: int): int { if a < b then a else b }

  function Goto(s: State, t: nat, pc: PC): State
    requires t < |s.consumers|
  {
    s.(consumers := s.consumers[t := pc])
  }

  predicate TicketsInRange(s: State) {
    forall t :: 0 <= t < |s.consumers| ==>
      var pc := s.consumers[t];
      pc.ReloadTail? || pc.AddOver? || pc.AddHead? ==> pc.k < |s.tickets|
  }

  predicate ConsumerStep(s: State, t: nat, e: Event, s': State)
    requires TicketsInRange(s) && t < |s.consumers|
  {
    match s.consumers[t]
    case Idle =>
      e.Called? && e.t == t && e.max > 0 && s' == Goto(s, t, LoadTail(e.max))
    case LoadTail(max) =>
      e == Silent && s' == Goto(s, t, LoadOver(max, s.tail))
    case LoadOver(max, tail) =>
      e == Silent && s' == Goto(s, t, LoadOpt(max, tail, s.overcommit))
    case LoadOpt(max, tail, over) =>
      var desired := tail - (s.optimistic - over);
      && e == (if desired > 0 then Silent else Failed(t))
      && s' == Goto(s, t, if desired > 0 then AddOpt(Min(desired, max), over) else Idle)
    case AddOpt(want, over) =>
      var my := s.optimistic;
      && e == Silent
      && s' == Goto(s.(optimistic := my + want,
                       tickets := s.tickets + [Ticket(my, want, over, t, false, 0, false, false)]),
                    t, ReloadTail(|s.tickets|, my, want, over))
    case ReloadTail(k, my, want, over) =>
      var actual := s.tail - (my - over);
      var take := if actual > 0 then Min(want, actual) else 0;
      && e == Silent
      && s' == Goto(s.(tickets := s.tickets[k := s.tickets[k].(decided := true, got := take)]),
                    t, if take < want then AddOver(k, want - take, take) else AddHead(k, take))
    case AddOver(k, back, take) =>
      && e == (if take > 0 then Silent else Failed(t))
      && s' == Goto(s.(overcommit := s.overcommit + back,
                       tickets := s.tickets[k := s.tickets[k].(returned := true)]),
                    t, if take > 0 then AddHead(k, take) else Idle)
    case AddHead(k, take) =>
      var c := Claim(s.head, take);
      && e == Claimed(t, c)
      && s' == Goto(s.(head := s.head + take, claims := s.claims + [c],
                       tickets := s.tickets[k := s.tickets[k].(claimed := true)]),
                    t, Idle)
  }

  /** The producer publishes one more element. */
  predicate ProducerStep(s: State, e: Event, s': State) {
    e == Enqueued && s' == s.(tail := s.tail + 1)
  }

  ghost predicate Step(s: State, e: Event, s': State) {
    && TicketsInRange(s)
    && (ProducerStep(s, e, s') || exists t: nat :: t < |s.consumers| && ConsumerStep(s, t, e, s'))
  }

  predicate Init(s: State) {
    && s.tail == 0 && s.head == 0 && s.optimistic == 0 && s.overcommit == 0
    && s.tickets == [] && s.claims == []
    && forall t :: 0 <= t < |s.consumers| ==> s.consumers[t] == Idle
  }

  // ---------------------------------------------------------------- sums over tickets

  function Want(x: Ticket): int { x.want }
  function Got(x: Ticket): int { x.got }
  function Short(x: Ticket): int { if x.decided then x.want - x.got else 0 }
  function Returned(x: Ticket): int { if x.returned then x.want - x.got else 0 }
  function Taken(x: Ticket): int { if x.claimed then x.got else 0 }

  function Sum(f: Ticket -> int, ts: seq<Ticket>): int {
    if ts == [] then 0 else Sum(f, ts[..|ts| - 1]) + f(ts[|ts| - 1])
  }

  lemma SumAppend(f: Ticket -> int, ts: seq<Ticket>, x: Ticket)
    ensures Sum(f, ts + [x]) == Sum(f, ts) + f(x)
  {
    assert (ts + [x])[..|ts|] == ts;
  }

  lemma {:induction false} SumUpdate(f: Ticket -> int, ts: seq<Ticket>, k: nat, x: Ticket)
    requires k < |ts|
    ensures Sum(f, ts[k := x]) == Sum(f, ts) - f(ts[k]) + f(x)
  {
    var n := |ts| - 1;
    if k == n {
      assert ts[k := x][..n] == ts[..n];
    } else {
      assert ts[k := x][..n] == ts[..n][k := x];
      SumUpdate(f, ts[..n], k, x);
    }
  }

  lemma {:induction false} SumMono(f: Ticket -> int, g: Ticket -> int, ts: seq<Ticket>)
    requires forall i :: 0 <= i < |ts| ==> f(ts[i]) <= g(ts[i])
    ensures Sum(f, ts) <= Sum(g, ts)
  {
    if ts != [] { SumMono(f, g, ts[..|ts| - 1]); }
  }

  // ---------------------------------------------------------------- invariant

  /** Facts about one ticket that do not depend on the others. */
  predicate TicketOk(x: Ticket, tail: int) {
    && x.want >= 0 && 0 <= x.got <= x.want
    && (!x.decided ==> x.got == 0 && !x.returned && !x.claimed)
    && (x.got > 0 ==> x.start - x.over + x.got <= tail)
  }

  /** Tickets tile the optimistic count, and each was issued with an overcommit value no larger
      than the shortfall of the tickets before it, however stale that value was. */
  ghost predicate Tiled(ts: seq<Ticket>) {
    forall k :: 0 <= k < |ts| ==>
      ts[k].start == Sum(Want, ts[..k]) && ts[k].over <= Sum(Short, ts[..k])
  }

  predicate Finished(x: Ticket) {
    x.decided && (x.got == x.want || x.returned) && (x.got == 0 || x.claimed)
  }

  /** What a consumer's program counter says about its ticket. */
  ghost predicate PcOk(s: State, t: nat)
    requires t < |s.consumers|
  {
    match s.consumers[t]
    case LoadOpt(max, tail, over) => max > 0 && over <= Sum(Short, s.tickets)
    case AddOpt(want, over) => want > 0 && over <= Sum(Short, s.tickets)
    case ReloadTail(k, my, want, over) =>
      && k < |s.tickets| && s.tickets[k].owner == t && !s.tickets[k].decided
      && s.tickets[k].start == my && s.tickets[k].want == want > 0 && s.tickets[k].over == over
    case AddOver(k, back, take) =>
      && k < |s.tickets| && s.tickets[k].owner == t && s.tickets[k].decided
      && !s.tickets[k].returned && !s.tickets[k].claimed
      && s.tickets[k].got == take && s.tickets[k].want - take == back > 0
    case AddHead(k, take) =>
      && k < |s.tickets| && s.tickets[k].owner == t && s.tickets[k].decided && !s.tickets[k].claimed
      && s.tickets[k].got == take > 0 && (s.tickets[k].got == s.tickets[k].want || s.tickets[k].returned)
    case LoadTail(max) => max > 0
    case LoadOver(max, _) => max > 0
    case Idle => true
  }

  function TicketOf(pc: PC): int {
    match pc
    case ReloadTail(k, _, _, _) => k
    case AddOver(k, _, _) => k
    case AddHead(k, _) => k
    case _ => -1
  }

  ghost predicate Owned(s: State) {
    forall k :: 0 <= k < |s.tickets| && !Finished(s.tickets[k]) ==>
      s.tickets[k].owner < |s.consumers| && TicketOf(s.consumers[s.tickets[k].owner]) == k
  }

  /** Where claim `i` begins; `head` for the one not made yet. */
  function FirstAt(claims: seq<Claim>, i: nat, head: int): int {
    if i < |claims| then claims[i].first else head
  }

  /** The claims lie end to end from index 0 up to the head. */
  predicate EndToEnd(claims: seq<Claim>, head: int) {
    && FirstAt(claims, 0, head) == 0
    && forall i :: 0 <= i < |claims| ==>
         claims[i].len > 0 && claims[i].first + claims[i].len == FirstAt(claims, i + 1, head)
  }

  ghost predicate Inv(s: State) {
    && (forall k :: 0 <= k < |s.tickets| ==> TicketOk(s.tickets[k], s.tail))
    && Tiled(s.tickets)
    && s.optimistic == Sum(Want, s.tickets)
    && s.overcommit == Sum(Returned, s.tickets)
    && s.head == Sum(Taken, s.tickets)
    && (forall t: nat :: t < |s.consumers| ==> PcOk(s, t))
    && Owned(s)
    && EndToEnd(s.claims, s.head)
    && s.tail >= 0
  }

  // ---------------------------------------------------------------- the bound

  /** All that consumers have found, whether already claimed or about to be, fits below the tail.
      The last ticket that found something compared its own start with the tail, and everything
      before it is bounded by that start less the shortfall its overcommit value accounted for. */
  lemma {:induction false} FoundBelowTail(ts: seq<Ticket>, tail: int)
    requires forall k :: 0 <= k < |ts| ==> TicketOk(ts[k], tail)
    requires Tiled(ts) && tail >= 0
    ensures Sum(Got, ts) <= tail
  {
    if ts != [] {
      var n := |ts| - 1;
      var front, last := ts[..n], ts[n];
      forall k | 0 <= k < n
        ensures front[k].start == Sum(Want, front[..k]) && front[k].over <= Sum(Short, front[..k])
      {
        assert front[..k] == ts[..k] && front[k] == ts[k];
      }
      FoundBelowTail(front, tail);
      if last.got > 0 {
        FoundPlusShort(front);
      }
    }
  }

  lemma {:induction false} FoundPlusShort(ts: seq<Ticket>)
    requires forall k :: 0 <= k < |ts| ==> 0 <= ts[k].got <= ts[k].want && (!ts[k].decided ==> ts[k].got == 0)
    ensures Sum(Got, ts) + Sum(Short, ts) <= Sum(Want, ts)
  {
    if ts != [] { FoundPlusShort(ts[..|ts| - 1]); }
  }

  lemma HeadBelowTail(s: State)
    requires Inv(s)
    ensures s.head <= Sum(Got, s.tickets) <= s.tail
  {
    FoundBelowTail(s.tickets, s.tail);
    SumMono(Taken, Got, s.tickets);
  }

  // ---------------------------------------------------------------- preservation

  lemma TiledAppend(ts: seq<Ticket>, x: Ticket)
    requires Tiled(ts) && x.start == Sum(Want, ts) && x.over <= Sum(Short, ts)
    ensures Tiled(ts + [x])
  {
    var us := ts + [x];
    forall k | 0 <= k < |us| ensures us[k].start == Sum(Want, us[..k]) && us[k].over <= Sum(Short, us[..k]) {
      assert us[..k] == ts[..k];
      assert ts[..|ts|] == ts;
    }
  }

  lemma TiledUpdate(ts: seq<Ticket>, k: nat, x: Ticket)
    requires Tiled(ts) && k < |ts|
    requires x.start == ts[k].start && x.over == ts[k].over && x.want == ts[k].want && Short(x) >= Short(ts[k])
    ensures Tiled(ts[k := x])
  {
    var us := ts[k := x];
    forall j | 0 <= j < |us| ensures us[j].start == Sum(Want, us[..j]) && us[j].over <= Sum(Short, us[..j]) {
      if j <= k {
        assert us[..j] == ts[..j];
      } else {
        assert us[..j] == ts[..j][k := x];
        SumUpdate(Want, ts[..j], k, x);
        SumUpdate(Short, ts[..j], k, x);
      }
    }
  }

  /** Updating a ticket of its owner: what each sum becomes. */
  lemma SumsUpdate(ts: seq<Ticket>, k: nat, x: Ticket)
    requires k < |ts|
    ensures Sum(Want, ts[k := x]) == Sum(Want, ts) - Want(ts[k]) + Want(x)
    ensures Sum(Short, ts[k := x]) == Sum(Short, ts) - Short(ts[k]) + Short(x)
    ensures Sum(Returned, ts[k := x]) == Sum(Returned, ts) - Returned(ts[k]) + Returned(x)
    ensures Sum(Taken, ts[k := x]) == Sum(Taken, ts) - Taken(ts[k]) + Taken(x)
  {
    SumUpdate(Want, ts, k, x);
    SumUpdate(Short, ts, k, x);
    SumUpdate(Returned, ts, k, x);
    SumUpdate(Taken, ts, k, x);
  }

  lemma SumsAppend(ts: seq<Ticket>, x: Ticket)
    ensures Sum(Want, ts + [x]) == Sum(Want, ts) + Want(x)
    ensures Sum(Short, ts + [x]) == Sum(Short, ts) + Short(x)
    ensures Sum(Returned, ts + [x]) == Sum(Returned, ts) + Returned(x)
    ensures Sum(Taken, ts + [x]) == Sum(Taken, ts) + Taken(x)
  {
    SumAppend(Want, ts, x);
    SumAppend(Short, ts, x);
    SumAppend(Returned, ts, x);
    SumAppend(Taken, ts, x);
  }

  lemma EndToEndAppend(claims: seq<Claim>, head: int, len: int)
    requires EndToEnd(claims, head) && len > 0
    ensures EndToEnd(claims + [Claim(head, len)], head + len)
  {}

  /** Ticket `k` of consumer `t` becomes `x`; the sums that involve it move by the difference. */
  ghost predicate TicketChanged(s: State, t: nat, k: nat, x: Ticket, s': State) {
    && t < |s.consumers| == |s'.consumers| && k < |s.tickets| && TicketOf(s.consumers[t]) == k
    && s'.consumers == s.consumers[t := s'.consumers[t]] && s'.tickets == s.tickets[k := x]
    && x.start == s.tickets[k].start && x.over == s.tickets[k].over && x.want == s.tickets[k].want
    && x.owner == s.tickets[k].owner == t && TicketOk(x, s.tail) && Short(x) >= Short(s.tickets[k])
    && s'.tail == s.tail && s'.optimistic == s.optimistic
    && s'.overcommit == s.overcommit - Returned(s.tickets[k]) + Returned(x)
    && s'.head == s.head - Taken(s.tickets[k]) + Taken(x)
    && (TicketOf(s'.consumers[t]) == k || (Finished(x) && s'.consumers[t].Idle?))
  }

  lemma OthersKeep(s: State, t: nat, s': State, u: nat)
    requires t < |s.consumers| == |s'.consumers| && s'.consumers == s.consumers[t := s'.consumers[t]]
    requires u < |s.consumers| && u != t && PcOk(s, u)
    requires |s.tickets| <= |s'.tickets| && Sum(Short, s.tickets) <= Sum(Short, s'.tickets)
    requires forall k :: 0 <= k < |s.tickets| && s.tickets[k] != s'.tickets[k] ==> s.tickets[k].owner == t
    ensures PcOk(s', u)
  {}

  lemma TicketChangedKeeps(s: State, t: nat, k: nat, x: Ticket, s': State)
    requires Inv(s) && TicketChanged(s, t, k, x, s')
    requires EndToEnd(s'.claims, s'.head) && PcOk(s', t)
    ensures Inv(s')
  {
    TiledUpdate(s.tickets, k, x);
    SumsUpdate(s.tickets, k, x);
    forall u: nat | u < |s'.consumers| ensures PcOk(s', u) {
      if u != t { OthersKeep(s, t, s', u); }
    }
  }

  lemma ReloadTailKeeps(s: State, t: nat, e: Event, s': State)
    requires Inv(s) && TicketsInRange(s) && t < |s.consumers| && s.consumers[t].ReloadTail?
    requires ConsumerStep(s, t, e, s')
    ensures Inv(s')
  {
    var k := s.consumers[t].k;
    assert PcOk(s, t) && TicketOk(s.tickets[k], s.tail);
    TicketChangedKeeps(s, t, k, s'.tickets[k], s');
  }

  lemma AddOverKeeps(s: State, t: nat, e: Event, s': State)
    requires Inv(s) && TicketsInRange(s) && t < |s.consumers| && s.consumers[t].AddOver?
    requires ConsumerStep(s, t, e, s')
    ensures Inv(s')
  {
    var k := s.consumers[t].k;
    assert PcOk(s, t) && TicketOk(s.tickets[k], s.tail);
    TicketChangedKeeps(s, t, k, s'.tickets[k], s');
  }

  lemma AddHeadKeeps(s: State, t: nat, e: Event, s': State)
    requires Inv(s) && TicketsInRange(s) && t < |s.consumers| && s.consumers[t].AddHead?
    requires ConsumerStep(s, t, e, s')
    ensures Inv(s')
  {
    var k := s.consumers[t].k;
    assert PcOk(s, t) && TicketOk(s.tickets[k], s.tail);
    EndToEndAppend(s.claims, s.head, s.consumers[t].take);
    TicketChangedKeeps(s, t, k, s'.tickets[k], s');
  }

  lemma AddOptKeeps(s: State, t: nat, e: Event, s': State)
    requires Inv(s) && TicketsInRange(s) && t < |s.consumers| && s.consumers[t].AddOpt?
    requires ConsumerStep(s, t, e, s')
    ensures Inv(s')
  {
    hide Sum, Tiled, EndToEnd;
    assert PcOk(s, t);
    var x := s'.tickets[|s.tickets|];
    TiledAppend(s.tickets, x);
    SumsAppend(s.tickets, x);
    forall u: nat | u < |s'.consumers| ensures PcOk(s', u) {
      if u != t { OthersKeep(s, t, s', u); }
    }
  }

  lemma LoadKeeps(s: State, t: nat, e: Event, s': State)
    requires Inv(s) && TicketsInRange(s) && t < |s.consumers| && TicketOf(s.consumers[t]) == -1
    requires !s.consumers[t].AddOpt? && ConsumerStep(s, t, e, s')
    ensures Inv(s')
  {
    hide Sum, Tiled, EndToEnd;
    assert PcOk(s, t);
    assert s'.tickets == s.tickets;
    SumMono(Returned, Short, s.tickets);
    forall u: nat | u < |s'.consumers| ensures PcOk(s', u) {
      if u != t { OthersKeep(s, t, s', u); }
    }
  }

  lemma StepKeeps(s: State, e: Event, s': State)
    requires Inv(s) && Step(s, e, s')
    ensures Inv(s')
  {
    if ProducerStep(s, e, s') {
      forall u: nat | u < |s'.consumers| ensures PcOk(s', u) { assert PcOk(s, u); }
    } else {
      var t: nat :| t < |s.consumers| && ConsumerStep(s, t, e, s');
      match s.consumers[t]
      case AddOpt(_, _) => AddOptKeeps(s, t, e, s');
      case ReloadTail(_, _, _, _) => ReloadTailKeeps(s, t, e, s');
      case AddOver(_, _, _) => AddOverKeeps(s, t, e, s');
      case AddHead(_, _) => AddHeadKeeps(s, t, e, s');
      case _ => LoadKeeps(s, t, e, s');
    }
  }

  lemma InvTickets(s: State)
    requires Inv(s)
    ensures TicketsInRange(s)
  {
    forall t: nat | t < |s.consumers| ensures TicketOf(s.consumers[t]) < |s.tickets| { assert PcOk(s, t); }
  }

  /** Consumers and producer only ever move their own counters, and only forwards. */
  lemma StepMonotone(s: State, e: Event, s': State)
    requires Inv(s) && Step(s, e, s')
    ensures |s'.consumers| == |s.consumers|
    ensures s'.tail == s.tail + (if e == Enqueued then 1 else 0)
    ensures if e.Claimed? then e.c == Claim(s.head, s'.head - s.head) && e.c.len > 0 else s'.head == s.head
    ensures forall t :: 0 <= t < |s.consumers| && !(e.Called? && e.t == t) && s.consumers[t].Idle? ==> s'.consumers[t].Idle?
    ensures e.Claimed? ==> e.t < |s.consumers| && !s.consumers[e.t].Idle? && s'.consumers[e.t].Idle?
  {
    if !ProducerStep(s, e, s') {
      var t: nat :| t < |s.consumers| && ConsumerStep(s, t, e, s');
      assert PcOk(s, t);
    }
  }

  // ---------------------------------------------------------------- whole runs

  ghost predicate Run(r: seq<State>, ev: seq<Event>) {
    && |r| == |ev| + 1
    && Init(r[0])
    && forall i :: 0 <= i < |ev| ==> Step(r[i], ev[i], r[i + 1])
  }

  lemma {:induction false} RunInvariant(r: seq<State>, ev: seq<Event>, i: nat)
    requires Run(r, ev) && i < |r|
    ensures Inv(r[i])
  {
    if i > 0 {
      RunInvariant(r, ev, i - 1);
      StepKeeps(r[i - 1], ev[i - 1], r[i]);
    }
  }

  /** In every state of every run, whatever the interleaving and however stale the overcommit
      values the consumers used, no claim reaches the tail. */
  lemma HeadNeverPassesTail(r: seq<State>, ev: seq<Event>, i: nat)
    requires Run(r, ev) && i < |r|
    ensures 0 <= r[i].head <= r[i].tail
    ensures forall t: nat, c: Claim :: i < |ev| && ev[i] == Claimed(t, c) ==> 0 <= c.first < c.first + c.len <= r[i].tail
  {
    RunInvariant(r, ev, i);
    HeadBelowTail(r[i]);
    HeadNotNegative(r[i].claims, r[i].head);
    if i < |ev| && ev[i].Claimed? {
      RunInvariant(r, ev, i + 1);
      HeadBelowTail(r[i + 1]);
      var t: nat :| t < |r[i].consumers| && ConsumerStep(r[i], t, ev[i], r[i + 1]);
      assert PcOk(r[i], t);
    }
  }

  lemma {:induction false} HeadNotNegative(claims: seq<Claim>, head: int)
    requires EndToEnd(claims, head)
    ensures head >= 0 && forall i :: 0 <= i < |claims| ==> 0 <= claims[i].first < claims[i].first + claims[i].len <= head
  {
    if claims != [] {
      var n := |claims| - 1;
      assert EndToEnd(claims[..n], claims[n].first);
      HeadNotNegative(claims[..n], claims[n].first);
    }
  }

  /** The claims made so far cut [0, head) into disjoint pieces: every index below the head was
      given to exactly one claim, and no claim holds anything else. */
  lemma ClaimsPartition(r: seq<State>, ev: seq<Event>, i: nat, x: int)
    requires Run(r, ev) && i < |r|
    ensures 0 <= x < r[i].head <==> exists j :: 0 <= j < |r[i].claims| && In(x, r[i].claims[j])
    ensures forall j, k :: 0 <= j < k < |r[i].claims| ==> !(In(x, r[i].claims[j]) && In(x, r[i].claims[k]))
  {
    RunInvariant(r, ev, i);
    var cs := r[i].claims;
    HeadNotNegative(cs, r[i].head);
    forall j, k | 0 <= j < k < |cs| ensures !(In(x, cs[j]) && In(x, cs[k])) { Apart(cs, r[i].head, j, k); }
    if 0 <= x < r[i].head { var j := Cover(cs, r[i].head, x); }
  }

  predicate In(x: int, c: Claim) { c.first <= x < c.first + c.len }

  lemma {:induction false} Apart(cs: seq<Claim>, head: int, j: nat, k: nat)
    requires EndToEnd(cs, head) && j < k < |cs|
    ensures cs[j].first + cs[j].len <= cs[k].first
    decreases k - j
  {
    if j + 1 < k { Apart(cs, head, j + 1, k); }
  }

  lemma {:induction false} Cover(cs: seq<Claim>, head: int, x: int) returns (j: nat)
    requires EndToEnd(cs, head) && 0 <= x < head
    ensures j < |cs| && In(x, cs[j])
  {
    var n := |cs| - 1;
    if cs[n].first <= x {
      j := n;
    } else {
      j := Cover(cs[..n], cs[n].first, x);
    }
  }

  /** Whenever no dequeue is in progress the overcommit has caught up: the difference that the
      quick test uses is exactly the head, so a consumer then sees exactly what is available. */
  lemma CaughtUpAtRest(r: seq<State>, ev: seq<Event>, i: nat)
    requires Run(r, ev) && i < |r|
    requires forall t: nat :: t < |r[i].consumers| ==> r[i].consumers[t] == Idle
    ensures r[i].optimistic - r[i].overcommit == r[i].head
  {
    RunInvariant(r, ev, i);
    BalancedAtRest(r[i]);
  }

  lemma BalancedAtRest(s: State)
    requires Inv(s) && forall t: nat :: t < |s.consumers| ==> s.consumers[t] == Idle
    ensures s.optimistic - s.overcommit == s.head
  {
    FinishedSums(s.tickets);
  }

  lemma {:induction false} FinishedSums(ts: seq<Ticket>)
    requires forall k :: 0 <= k < |ts| ==> Finished(ts[k])
    ensures Sum(Want, ts) == Sum(Returned, ts) + Sum(Taken, ts)
  {
    if ts != [] { FinishedSums(ts[..|ts| - 1]); }
  }

  // ---------------------------------------------------------------- what a dequeue finds

  /** A step of consumer `t`. */
  ghost predicate Mine(s: State, t: nat, e: Event, s': State) {
    TicketsInRange(s) && t < |s.consumers| && ConsumerStep(s, t, e, s')
  }

  /** A number of elements between what there was at the start and what there is now, but for the maximum. */
  predicate Fits(n: int, head: int, tail0: int, max: int, tail: int) {
    n > 0 && Min(max, tail0 - head) <= n <= Min(max, tail - head)
  }

  /** Consumer `t` is in a dequeue that began at rest, with `tail0` as the tail, and is the only one since. */
  predicate OnlyOne(s: State, t: nat, head: int, tail0: int, max: int) {
    && t < |s.consumers| && s.head == head <= tail0 <= s.tail && max > 0
    && match s.consumers[t]
       case LoadTail(m) => m == max && s.optimistic - s.overcommit == head
       case LoadOver(m, tail) => m == max && s.optimistic - s.overcommit == head && tail0 <= tail <= s.tail
       case LoadOpt(m, tail, over) => m == max && s.optimistic - over == head && tail0 <= tail <= s.tail
       case AddOpt(want, over) => s.optimistic - over == head && Fits(want, head, tail0, max, s.tail)
       case ReloadTail(_, my, want, over) => my - over == head && Fits(want, head, tail0, max, s.tail)
       case AddHead(_, take) => Fits(take, head, tail0, max, s.tail)
       case _ => false
  }

  lemma OnlyOneStep(s: State, t: nat, e: Event, s': State, head: int, tail0: int, max: int)
    requires OnlyOne(s, t, head, tail0, max) && (e == Enqueued ==> ProducerStep(s, e, s')) && (e != Enqueued ==> Mine(s, t, e, s'))
    ensures !e.Failed? && !e.Claimed? ==> OnlyOne(s', t, head, tail0, max)
    ensures e.Failed? ==> e.t == t && tail0 == head
    ensures e.Claimed? ==> e.t == t && e.c.first == head && Fits(e.c.len, head, tail0, max, s.tail)
  {}

  /** Between `i` and `j` only consumer `t` and the producer move, and the call begun at `i` does not return. */
  ghost predicate Undisturbed(r: seq<State>, ev: seq<Event>, t: nat, i: nat, j: nat)
    requires |r| == |ev| + 1 && i < j <= |ev|
  {
    forall k {:trigger ev[k]} :: i < k < j ==>
      !ev[k].Failed? && !ev[k].Claimed? && (ev[k] == Enqueued || Mine(r[k], t, ev[k], r[k + 1]))
  }

  lemma {:induction false} OnlyOneSince(r: seq<State>, ev: seq<Event>, t: nat, max: nat, i: nat, j: nat)
    requires Run(r, ev) && i < j < |r| && ev[i] == Called(t, max) && Undisturbed(r, ev, t, i, j)
    requires forall u: nat :: u < |r[i].consumers| ==> r[i].consumers[u] == Idle
    ensures OnlyOne(r[j], t, r[i].head, r[i].tail, max)
  {
    if j == i + 1 {
      CaughtUpAtRest(r, ev, i);
      HeadNeverPassesTail(r, ev, i);
      assert Step(r[i], ev[i], r[i + 1]);
    } else {
      hide OnlyOne, Mine, ConsumerStep;
      OnlyOneSince(r, ev, t, max, i, j - 1);
      assert Step(r[j - 1], ev[j - 1], r[j]);
      if ev[j - 1] == Enqueued { EnqueuedStep(r[j - 1], r[j]); }
      OnlyOneStep(r[j - 1], t, ev[j - 1], r[j], r[i].head, r[i].tail, max);
    }
  }

  lemma EnqueuedStep(s: State, s': State)
    requires Step(s, Enqueued, s')
    ensures ProducerStep(s, Enqueued, s')
  {}

  /** A dequeue of at most `max` elements that begins when no other is in progress and meets no other: it
      fails only if there was no element, and else claims the oldest ones, as many as there were up to
      `max`, or more if the producer has added some meanwhile. */
  lemma FindsWhatIsThere(r: seq<State>, ev: seq<Event>, t: nat, max: nat, i: nat, j: nat)
    requires Run(r, ev) && i < j < |ev| && ev[i] == Called(t, max) && Undisturbed(r, ev, t, i, j) && Mine(r[j], t, ev[j], r[j + 1])
    requires forall u: nat :: u < |r[i].consumers| ==> r[i].consumers[u] == Idle
    ensures ev[j].Failed? ==> ev[j] == Failed(t) && r[i].head == r[i].tail
    ensures ev[j].Claimed? ==>
      ev[j].t == t && ev[j].c.first == r[i].head && Fits(ev[j].c.len, r[i].head, r[i].tail, max, r[j].tail)
  {
    OnlyOneSince(r, ev, t, max, i, j);
    hide OnlyOne, Step;
    assert ev[j] != Enqueued by { assert Mine(r[j], t, ev[j], r[j + 1]); }
    OnlyOneStep(r[j], t, ev[j], r[j + 1], r[i].head, r[i].tail, max);
  }

  /** If the producer is still as well, the answer is exact. */
  lemma FindsExactly(r: seq<State>, ev: seq<Event>, t: nat, max: nat, i: nat, j: nat)
    requires Run(r, ev) && i < j < |ev| && ev[i] == Called(t, max) && Undisturbed(r, ev, t, i, j) && Mine(r[j], t, ev[j], r[j + 1])
    requires (forall u: nat :: u < |r[i].consumers| ==> r[i].consumers[u] == Idle) && forall k :: i < k < j ==> ev[k] != Enqueued
    requires ev[j].Failed? || ev[j].Claimed?
    ensures ev[j] == if r[i].head == r[i].tail then Failed(t) else Claimed(t, Claim(r[i].head, Min(max, r[i].tail - r[i].head)))
  {
    FindsWhatIsThere(r, ev, t, max, i, j);
    TailStays(r, ev, i, j);
    HeadNeverPassesTail(r, ev, i);
  }

  lemma {:induction false} TailStays(r: seq<State>, ev: seq<Event>, i: nat, j: nat)
    requires Run(r, ev) && i <= j < |r| && forall k :: i <= k < j ==> ev[k] != Enqueued
    ensures r[j].tail == r[i].tail
  {
    hide Step;
    if i < j {
      TailStays(r, ev, i, j - 1);
      RunInvariant(r, ev, j - 1);
      StepMonotone(r[j - 1], ev[j - 1], r[j]);
    }
  }

  // The protocol is wait-free.

  /** What a consumer has left to do until its claim is made or has failed, whatever the others do. */
  function Rank(pc: PC): nat {
    match pc
    case Idle => 0
    case LoadTail(_) => 7
    case LoadOver(_, _) => 6
    case LoadOpt(_, _, _) => 5
    case AddOpt(_, _) => 4
    case ReloadTail(_, _, _, _) => 3
    case AddOver(_, _, _) => 2
    case AddHead(_, _) => 1
  }

  /** In any state, a consumer in a call can make a step, and each of its steps brings its call closer to
      its end: it returns after at most seven of its own steps. */
  lemma WaitFree(s: State, t: nat)
    requires TicketsInRange(s) && t < |s.consumers| && s.consumers[t] != Idle
    ensures exists e, s' :: ConsumerStep(s, t, e, s')
    ensures forall e, s' :: ConsumerStep(s, t, e, s') ==>
      |s'.consumers| == |s.consumers| && Rank(s'.consumers[t]) < Rank(s.consumers[t]) && (s'.consumers[t] == Idle <==> e.Failed? || e.Claimed?)
  {
    var e, s' := SomeStep(s, t);
  }

  lemma SomeStep(s: State, t: nat) returns (e: Event, s': State)
    requires TicketsInRange(s) && t < |s.consumers| && s.consumers[t] != Idle
    ensures ConsumerStep(s, t, e, s')
  {
    e := Silent;
    match s.consumers[t] {
      case LoadTail(max) => s' := Goto(s, t, LoadOver(max, s.tail));
      case LoadOver(max, tail) => s' := Goto(s, t, LoadOpt(max, tail, s.overcommit));
      case LoadOpt(max, tail, over) =>
        var desired := tail - (s.optimistic - over);
        e := if desired > 0 then Silent else Failed(t);
        s' := Goto(s, t, if desired > 0 then AddOpt(Min(desired, max), over) else Idle);
      case AddOpt(want, over) =>
        s' := Goto(s.(optimistic := s.optimistic + want,
                      tickets := s.tickets + [Ticket(s.optimistic, want, over, t, false, 0, false, false)]),
                   t, ReloadTail(|s.tickets|, s.optimistic, want, over));
      case ReloadTail(k, my, want, over) =>
        var actual := s.tail - (my - over);
        var take := if actual > 0 then Min(want, actual) else 0;
        s' := Goto(s.(tickets := s.tickets[k := s.tickets[k].(decided := true, got := take)]),
                   t, if take < want then AddOver(k, want - take, take) else AddHead(k, take));
      case AddOver(k, back, take) =>
        e := if take > 0 then Silent else Failed(t);
        s' := Goto(s.(overcommit := s.overcommit + back, tickets := s.tickets[k := s.tickets[k].(returned := true)]),
                   t, if take > 0 then AddHead(k, take) else Idle);
      case AddHead(k, take) =>
        e := Claimed(t, Claim(s.head, take));
        s' := Goto(s.(head := s.head + take, claims := s.claims + [Claim(s.head, take)],
                      tickets := s.tickets[k := s.tickets[k].(claimed := true)]), t, Idle);
    }
  }
}
