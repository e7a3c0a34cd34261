/** What calls of enqueue and dequeue on an implicit producer answer, and that they come to an end. */
module ImplicitProducerCalls {
  import opened Common
  import opened Chunks
  import opened ImplicitProducer
  import opened ImplicitProducerProof
  import opened ImplicitProducerRun
  import Q = DequeueCounters
  import I = ImplicitIndex
  import IP = ImplicitIndexProof

  // ---------------------------------------------------------------- dequeue

  /** A step of consumer `t`, in the claiming protocol or in taking what it has claimed. */
  ghost predicate Mine(s: State, t: nat, e: Event, s': State) {
    && Typed(s) && t < |s.work|
    && (|| WorkMoves(s, t, e, s')
        || exists qe: Q.Event :: CounterMoves(s, qe, s') && e == Shown(qe) && Q.Mine(s.d.c, t, qe, s'.d.c))
  }

  /** A step of the producer, or of the rest of the program. */
  ghost predicate Elsewhere(s: State, e: Event, s': State) {
    Typed(s) && (ProducerStep(s, e, s') || (e == Silent && OthersMove(s, s')))
  }

  /** Consumer `t` is in a dequeue that began at rest, with `tail0` as the tail, and is the only one since. */
  predicate OnlyOne(s: State, t: nat, head: int, tail0: int, max: int) {
    && t < |s.work|
    && var w := s.work[t];
       if w.WIdle? then Q.OnlyOne(s.d.c, t, head, tail0, max)
       else w.first == head && Q.Fits(w.len, head, tail0, max, s.d.c.tail)
  }

  /** The answer that such a dequeue may give. */
  predicate RightAnswer(e: Event, t: nat, items: seq<int>, head: int, tail0: int, max: int) {
    && (e.Failed? ==> e.t == t && tail0 == head)
    && (e.Delivered? ==>
          && e.first == head && Q.Fits(|e.out|, head, tail0, max, |items|)
          && e.first + |e.out| <= |items| && e.out == items[e.first..e.first + |e.out|])
  }

  lemma ElsewhereCounters(s: State, e: Event, s': State)
    requires Elsewhere(s, e, s')
    ensures s'.work == s.work && s'.d.c == s.d.c.(tail := s'.d.c.tail) && s'.d.c.tail >= s.d.c.tail
  {
    hide Typed, Off, I.ProducerStep;
  }

  lemma OnlyOneElsewhere(s: State, e: Event, s': State, t: nat, head: int, tail0: int, max: int)
    requires OnlyOne(s, t, head, tail0, max) && Elsewhere(s, e, s')
    ensures OnlyOne(s', t, head, tail0, max)
  {
    ElsewhereCounters(s, e, s');
    hide Elsewhere;
  }

  lemma OnlyOneByClaim(s: State, t: nat, qe: Q.Event, s': State, head: int, tail0: int, max: int)
    requires Inv(s) && Typed(s) && OnlyOne(s, t, head, tail0, max) && t < |s.work|
    requires CounterMoves(s, qe, s') && Q.Mine(s.d.c, t, qe, s'.d.c)
    ensures !qe.Failed? ==> OnlyOne(s', t, head, tail0, max)
    ensures qe.Failed? ==> qe.t == t && tail0 == head
  {
    if s.work[t].WIdle? {
      HeadInItems(s.x, s.d);
      hide Inv, Typed, Q.Step, Q.ConsumerStep;
      MineIsNotProducer(s.d.c, t, qe, s'.d.c);
      Q.OnlyOneStep(s.d.c, t, qe, s'.d.c, head, tail0, max);
      OnlyOneHead(s.d.c, t, head, tail0, max);
    } else {
      hide Core, Typed, Q.Step, WorkOk;
    }
  }

  lemma OnlyOneHead(c: Q.State, t: nat, head: int, tail0: int, max: int)
    requires Q.OnlyOne(c, t, head, tail0, max)
    ensures t < |c.consumers| && c.head == head
  {}

  lemma MineIsNotProducer(c: Q.State, t: nat, qe: Q.Event, c': Q.State)
    requires Q.Mine(c, t, qe, c')
    ensures qe != Q.Enqueued && (qe.Claimed? ==> qe.t == t)
  {}

  lemma OnlyOneByWork(s: State, t: nat, e: Event, s': State, head: int, tail0: int, max: int)
    requires Inv(s) && Typed(s) && OnlyOne(s, t, head, tail0, max) && WorkMoves(s, t, e, s')
    ensures !e.Delivered? ==> OnlyOne(s', t, head, tail0, max)
    ensures RightAnswer(e, t, s.d.items, head, tail0, max)
  {
    WorkEffect(s, t, e, s');
    if e.Delivered? { DeliversItems(s, t, e, s'); }
    assert |s.d.items| == s.d.c.tail;
    hide WorkMoves, Typed, Core, Apart, PlaceOk;
    assert WorkOk(s.x, s.d, s.work[t], s.x.readers[t]);
  }

  lemma OnlyOneByMine(s: State, t: nat, e: Event, s': State, head: int, tail0: int, max: int)
    requires Inv(s) && OnlyOne(s, t, head, tail0, max) && Mine(s, t, e, s')
    ensures !e.Failed? && !e.Delivered? ==> OnlyOne(s', t, head, tail0, max)
    ensures RightAnswer(e, t, s.d.items, head, tail0, max)
  {
    hide Inv, Typed, OnlyOne, WorkMoves, CounterMoves, Q.Mine;
    if WorkMoves(s, t, e, s') {
      OnlyOneByWork(s, t, e, s', head, tail0, max);
    } else {
      var qe: Q.Event :| CounterMoves(s, qe, s') && e == Shown(qe) && Q.Mine(s.d.c, t, qe, s'.d.c);
      OnlyOneByClaim(s, t, qe, s', head, tail0, max);
    }
  }

  predicate Resting(s: State) {
    AtRest(s) && forall t :: 0 <= t < |s.d.c.consumers| ==> s.d.c.consumers[t] == Q.Idle
  }

  /** Between `i` and `j` no other consumer than `t` moves, and the call begun at `i` does not return. */
  ghost predicate NoOther(r: seq<State>, ev: seq<Event>, t: nat, i: nat, j: nat)
    requires |r| == |ev| + 1 && i < j <= |ev|
  {
    forall k {:trigger ev[k]} :: i < k < j ==>
      !ev[k].Failed? && !ev[k].Delivered? && (Elsewhere(r[k], ev[k], r[k + 1]) || Mine(r[k], t, ev[k], r[k + 1]))
  }

  lemma CalledIsClaim(s: State, t: nat, max: nat, s': State)
    requires Step(s, Called(t, max), s')
    ensures Typed(s) && CounterMoves(s, Q.Called(t, max), s')
  {
    hide Typed, Off, Chunk, I.ProducerStep, Q.Step, I.At, I.ReaderStep, I.Release, I.Onward;
  }

  lemma CallBegins(s: State, t: nat, max: nat, s': State)
    requires Inv(s) && Step(s, Called(t, max), s') && Resting(s)
    ensures s.d.c.head <= s.d.c.tail && OnlyOne(s', t, s.d.c.head, s.d.c.tail, max)
  {
    CalledIsClaim(s, t, max, s');
    QFacts(s.d);
    Q.BalancedAtRest(s.d.c);
    hide Inv, Q.Inv, Typed, Step;
  }

  lemma {:induction false} OnlyOneSince(r: seq<State>, ev: seq<Event>, t: nat, max: nat, i: nat, j: nat)
    requires Run(r, ev) && i < j < |r| && ev[i] == Called(t, max) && Resting(r[i]) && NoOther(r, ev, t, i, j)
    ensures OnlyOne(r[j], t, r[i].d.c.head, r[i].d.c.tail, max)
  {
    hide Inv, Step, OnlyOne, Resting, Mine, Elsewhere, Initial;
    RunInvariant(r, ev, j - 1);
    assert Step(r[j - 1], ev[j - 1], r[j]);
    if j == i + 1 {
      CallBegins(r[i], t, max, r[j]);
    } else {
      OnlyOneSince(r, ev, t, max, i, j - 1);
      var s, e, s' := r[j - 1], ev[j - 1], r[j];
      if Elsewhere(s, e, s') {
        OnlyOneElsewhere(s, e, s', t, r[i].d.c.head, r[i].d.c.tail, max);
      } else {
        OnlyOneByMine(s, t, e, s', r[i].d.c.head, r[i].d.c.tail, max);
      }
    }
  }

  /** A dequeue of at most `max` elements that begins when no other is in progress and meets no other: it
      fails only if there was no element, and else hands out the oldest ones, as many as there were up to
      `max`, or more if the producer has added some meanwhile. */
  lemma DequeueFindsWhatIsThere(r: seq<State>, ev: seq<Event>, t: nat, max: nat, i: nat, j: nat)
    requires Run(r, ev) && i < j < |ev| && ev[i] == Called(t, max) && Resting(r[i]) && NoOther(r, ev, t, i, j)
    requires Mine(r[j], t, ev[j], r[j + 1])
    ensures RightAnswer(ev[j], t, r[j].d.items, r[i].d.c.head, r[i].d.c.tail, max)
  {
    hide Inv, Step, OnlyOne, Mine, RightAnswer, Initial;
    RunInvariant(r, ev, j);
    OnlyOneSince(r, ev, t, max, i, j);
    OnlyOneByMine(r[j], t, ev[j], r[j + 1], r[i].d.c.head, r[i].d.c.tail, max);
  }

  /** If the producer is still as well, the answer is exact. */
  lemma DequeueFindsExactly(r: seq<State>, ev: seq<Event>, t: nat, max: nat, i: nat, j: nat)
    requires Run(r, ev) && i < j < |ev| && ev[i] == Called(t, max) && Resting(r[i]) && NoOther(r, ev, t, i, j)
    requires Mine(r[j], t, ev[j], r[j + 1]) && (ev[j].Failed? || ev[j].Delivered?) && r[j].d.items == r[i].d.items
    ensures var head, items := r[i].d.c.head, r[i].d.items;
            && 0 <= head <= |items|
            && ev[j] == if head == |items| then Failed(t) else Delivered(head, items[head..head + Q.Min(max, |items| - head)])
  {
    hide Step, Mine, NoOther, Initial;
    DequeueFindsWhatIsThere(r, ev, t, max, i, j);
    RunInvariant(r, ev, i);
    HeadInItems(r[i].x, r[i].d);
    assert |r[i].d.items| == r[i].d.c.tail;
    hide Inv, Run, Resting;
  }

  // Taking what was claimed takes a bounded number of steps.

  function Looking(r: I.Reader): int {
    match r case RHeader(_, _) => 9 case RTail(_, _, _) => 8 case RKey(_, _, _, _) => 7 case _ => 6
  }

  function Left(w: Work, r: I.Reader): int {
    match w
    case WIdle => 0
    case WFind(first, len, i, _) => 10 * (first + len - i) + Looking(r)
    case WTake(first, len, i, _, _, _) => 10 * (first + len - i) + 5
    case WCount(first, len, i, _, _, _) => 10 * (first + len - i) + 9
    case WErase(first, len, i, _, _) => 10 * (first + len - i) + 8
    case WFree(first, len, i, _, _, _) => 10 * (first + len - i) + 7
  }

  predicate SameClaim(w: Work, w': Work, i: nat)
    requires !w.WIdle? && !w'.WIdle?
  {
    w'.first == w.first && w'.len == w.len && w'.i == i
  }

  /** How a consumer's work goes on. */
  predicate Follows(w: Work, r: I.Reader, e: Event, w': Work, r': I.Reader) {
    match w
    case WIdle => false
    case WFind(_, _, i, _) =>
      e == Silent && if r.RAt? then w'.WTake? && SameClaim(w, w', i) else w' == w && Looking(r') < Looking(r)
    case WTake(_, _, i, _, _, _) => e == Silent && (w'.WTake? || w'.WCount?) && SameClaim(w, w', i + 1)
    case WCount(first, len, i, out, _, _) =>
      if w'.WErase? then e == Silent && SameClaim(w, w', i)
      else e == NextEvent(first, len, i, out) && w' == NextWork(first, len, i, out) && Looking(r') == 6
    case WErase(_, _, i, _, _) => e == Silent && w'.WFree? && SameClaim(w, w', i)
    case WFree(first, len, i, out, _, _) => e == NextEvent(first, len, i, out) && w' == NextWork(first, len, i, out) && r' == r
  }

  lemma WorkFollows(s: State, t: nat, e: Event, s': State)
    requires Typed(s) && t < |s.work| && WorkMoves(s, t, e, s')
    ensures |s'.work| == |s.work| == |s'.x.readers| && Follows(s.work[t], s.x.readers[t], e, s'.work[t], s'.x.readers[t])
  {
    hide Chunk, Off, I.Typed, Q.TicketsInRange, I.At, I.Release, I.ReaderStep, I.HeaderOk, CountedIn, TakenFrom, Freed;
    if s.work[t].WFind? && !s.x.readers[t].RAt? { LookingEnds(s, t, e, s'); }
  }

  lemma FollowingEnds(w: Work, r: I.Reader, e: Event, w': Work, r': I.Reader)
    requires Follows(w, r, e, w', r') && w.i <= w.first + w.len && (w.WFind? || w.WTake? ==> w.i < w.first + w.len)
    requires w.WFree? && w.i < w.first + w.len ==> r.RAt?
    ensures 0 <= Left(w', r') < Left(w, r) && (w'.WIdle? <==> e.Delivered?)
  {}

  lemma WorkEnds(s: State, t: nat, e: Event, s': State)
    requires Inv(s) && Typed(s) && t < |s.work| && WorkMoves(s, t, e, s')
    ensures |s'.work| == |s.work| == |s'.x.readers| && 0 <= Left(s'.work[t], s'.x.readers[t]) < Left(s.work[t], s.x.readers[t])
    ensures s'.work[t].WIdle? <==> e.Delivered?
  {
    WorkFollows(s, t, e, s');
    hide Core, Apart, WorkOk, Typed, WorkMoves, Left;
    assert WorkOk(s.x, s.d, s.work[t], s.x.readers[t]);
    Remaining(s.x, s.d, s.work[t], s.x.readers[t]);
    FollowingEnds(s.work[t], s.x.readers[t], e, s'.work[t], s'.x.readers[t]);
  }

  lemma LookingEnds(s: State, t: nat, e: Event, s': State)
    requires Typed(s) && t < |s.work| && s.work[t].WFind? && !s.x.readers[t].RAt? && WorkMoves(s, t, e, s')
    ensures e == Silent && s'.work == s.work && |s'.x.readers| == |s.x.readers| && Looking(s'.x.readers[t]) < Looking(s.x.readers[t])
  {
    hide Chunk, Off, I.Typed, Q.TicketsInRange, I.At;
  }

  lemma Remaining(x: I.State, d: Data, w: Work, r: I.Reader)
    requires WorkOk(x, d, w, r) && !w.WIdle?
    ensures w.i <= w.first + w.len && (w.WFind? || w.WTake? ==> w.i < w.first + w.len)
    ensures w.WFree? && w.i < w.first + w.len ==> r.RAt?
  {
    hide Chunk, AllCounted;
  }

  /** In any state of any run, a consumer with a claim can make a step, and each of its steps, whatever the
      others do, brings it closer to the delivery: there is no waiting. */
  lemma TakingIsWaitFree(r: seq<State>, ev: seq<Event>, i: nat, t: nat)
    requires Run(r, ev) && i < |r| && t < |r[i].work| && !r[i].work[t].WIdle?
    ensures Typed(r[i]) && exists e, s' :: WorkMoves(r[i], t, e, s')
    ensures forall e, s' :: WorkMoves(r[i], t, e, s') ==>
      && |s'.work| == |r[i].work| == |s'.x.readers| && 0 <= Left(s'.work[t], s'.x.readers[t]) < Left(r[i].work[t], r[i].x.readers[t])
      && (s'.work[t].WIdle? <==> e.Delivered?)
  {
    hide Inv, WorkMoves, Run, Left;
    ConsumersNeverStuck(r, ev, i, t);
    RunInvariant(r, ev, i);
    WorkCount(r[i]);
    hide Typed;
    forall e, s' | WorkMoves(r[i], t, e, s')
      ensures |s'.work| == |r[i].work| == |s'.x.readers| && 0 <= Left(s'.work[t], s'.x.readers[t]) < Left(r[i].work[t], r[i].x.readers[t])
      ensures s'.work[t].WIdle? <==> e.Delivered?
    {
      WorkEnds(r[i], t, e, s');
    }
  }

  // ---------------------------------------------------------------- enqueue

  function Inserting(p: I.Producer): int {
    match p
    case PIdle => 8
    case PGrow => 7
    case PStoreKey(_) => 6
    case PStoreTail(_) => 5
    case PRequisition(_) => 4
    case _ => 3
  }

  function Rewinding(p: I.Producer): int { if p.PClear? then 2 else Inserting(p) }

  /** What the producer has left to do. */
  function ToDo(p: Producer, q: I.Producer): int {
    match p
    case PIdle => 0
    case PCheck(_) => 9
    case PInsert(_) => Rewinding(q)
    case PWrite(_) => 2
    case PTail(_) => 1
  }

  /** Every step of an enqueue brings it closer to its end, whatever the consumers do, and it is about the
      item it was called with; it ends by entering just that item, or by refusing it. */
  lemma EnqueueStep(s: State, e: Event, s': State)
    requires Typed(s) && ProducerStep(s, e, s') && !s.d.prod.PIdle?
    ensures 0 <= ToDo(s'.d.prod, s'.x.prod) < ToDo(s.d.prod, s.x.prod)
    ensures s'.d.prod.PIdle? <==> e.Enqueued? || e.Refused?
    ensures !s'.d.prod.PIdle? ==> s'.d.prod.x == s.d.prod.x
    ensures e.Enqueued? ==> e.x == s.d.prod.x && s'.d.items == s.d.items + [s.d.prod.x]
    ensures !e.Enqueued? ==> s'.d.items == s.d.items
  {
    hide Off, Chunk, I.Typed, WorkTyped, Q.TicketsInRange, I.At, I.Free, I.NextSlot, I.HeaderOk;
  }

  /** A step of the insertion of a block that is not a failure. */
  lemma SomeInsert(x: I.State, unused: I.Storage) returns (x': I.State)
    requires I.Typed(x) && !x.prod.PPublish?
    ensures I.ProducerStep(x, x')
    ensures x.prod.PGrow? ==> !x'.prod.PIdle?
    ensures x.prod.PRequisition? ==> x'.prod == I.PStoreValue(x.prod.q, unused)
  {
    var m, h := x.m, I.Last(x.m);
    assert I.HeaderOk(m, h);
    match x.prod {
      case PIdle =>
        var q := I.NextSlot(h);
        x' := x.(prod := if I.Free(I.At(m, h, q)) then I.PStoreKey(q) else I.PGrow);
      case PGrow =>
        var added := seq(|h.index|, _ => I.Entry(None, None));
        var m' := I.Doubled(m, added);
        assert I.Doubling(m, added, m');
        x' := x.(m := m', prod := I.PStoreKey(I.NextSlot(I.Last(m'))));
      case PStoreKey(q) => x' := x.(m := I.SetEntry(m, h.index[q], I.At(m, h, q).(key := Some(|m.storage|))), prod := I.PStoreTail(q));
      case PStoreTail(q) => x' := x.(m := I.SetTail(m, q), prod := I.PRequisition(q));
      case PRequisition(q) => x' := x.(prod := I.PStoreValue(q, unused));
      case PStoreValue(q, b) => x' := x.(m := I.SetEntry(m, h.index[q], I.At(m, h, q).(value := Some(b))), prod := I.PPublish(q, b));
      case PRewind(q) => x' := x.(m := I.SetTail(m, (h.tail - 1) % |h.index|), prod := I.PClear(q));
      case PClear(q) => x' := x.(m := I.SetEntry(m, h.index[q], I.At(m, h, q).(value := None)), prod := I.PIdle);
    }
  }

  lemma InsertGoesOn(s: State) returns (e: Event, s': State)
    requires Typed(s) && s.d.prod.PInsert? && !s.x.prod.PPublish?
    ensures ProducerStep(s, e, s') && (e == Refused ==> s.x.prod.PClear?)
  {
    hide I.Typed, WorkTyped, Q.TicketsInRange, I.ProducerStep, Off;
    var d, v := s.d, s.d.prod.x;
    var b := Unused(d.mine);
    var x' := SomeInsert(s.x, b);
    e, s' := Silent, s.(x := x');
    if s.x.prod.PRequisition? {
      var cells := seq(BLOCK_SIZE, _ => Void);
      s' := s'.(d := Requisitioned(d, b, cells));
    } else if s.x.prod.PStoreValue? {
      s' := s'.(d := d.(tailBlock := s.x.prod.b, prod := PWrite(v)));
    } else if s.x.prod.PClear? {
      e, s' := Refused, s'.(d := d.(prod := PIdle));
    }
    assert InsertStep(s, v, e, s');
  }

  lemma SomeEnqueueStep(s: State) returns (e: Event, s': State)
    requires Inv(s) && Typed(s)
    ensures ProducerStep(s, e, s')
    ensures e == Refused ==> (s.d.prod.PCheck? && OverLimit(s.d.c.tail - s.d.c.head)) || (s.d.prod.PInsert? && s.x.prod.PClear?)
  {
    PhaseFacts(s);
    hide Inv, I.Typed, WorkTyped, Q.TicketsInRange, Off, InsertStep;
    e, s' := Silent, s;
    match s.d.prod {
      case PIdle => e, s' := Offered(0), s.(d := s.d.(prod := if Off(s.d.c.tail) != 0 then PWrite(0) else PCheck(0)));
      case PCheck(v) =>
        if OverLimit(s.d.c.tail - s.d.c.head) {
          e, s' := Refused, s.(d := s.d.(prod := PIdle));
        } else {
          s' := s.(d := s.d.(prod := PInsert(v)));
        }
      case PInsert(_) =>
        hide ProducerStep, Typed;
        e, s' := InsertGoesOn(s);
      case PWrite(v) => s' := s.(d := Written(s.d, v));
      case PTail(v) =>
        e := Enqueued(v);
        var x' := if s.x.prod.PPublish? then s.x.(m := s.x.m.(storage := s.x.m.storage + [s.x.prod.b]), prod := I.PIdle) else s.x;
        s' := State(x', Tailed(s.d, v), s.work);
    }
  }

  /** In any state of any run an enqueue in progress can make a step, without being refused unless it is over
      the size limit or has failed to get a block, and each step brings it closer to its end: there is no
      waiting for consumers. */
  lemma EnqueueIsWaitFree(r: seq<State>, ev: seq<Event>, i: nat)
    requires Run(r, ev) && i < |r| && !r[i].d.prod.PIdle?
    ensures Typed(r[i])
    ensures exists e, s' :: ProducerStep(r[i], e, s') && (e == Refused ==> OverLimit(r[i].d.c.tail - r[i].d.c.head) || r[i].x.prod.PClear?)
    ensures forall e, s' :: ProducerStep(r[i], e, s') ==>
      0 <= ToDo(s'.d.prod, s'.x.prod) < ToDo(r[i].d.prod, r[i].x.prod) && (s'.d.prod.PIdle? <==> e.Enqueued? || e.Refused?)
  {
    hide Inv, Run, Typed, ProducerStep;
    RunInvariant(r, ev, i);
    InvTyped(r[i]);
    var e, s' := SomeEnqueueStep(r[i]);
    forall e, s' | ProducerStep(r[i], e, s')
      ensures 0 <= ToDo(s'.d.prod, s'.x.prod) < ToDo(r[i].d.prod, r[i].x.prod) && (s'.d.prod.PIdle? <==> e.Enqueued? || e.Refused?)
    {
      EnqueueStep(r[i], e, s');
    }
  }

  lemma OfferStep(s: State, e: Event, s': State)
    requires Step(s, e, s')
    ensures s.d.prod.PIdle? && !s'.d.prod.PIdle? ==> e.Offered? && s'.d.prod.x == e.x
    ensures !s.d.prod.PIdle? && !s'.d.prod.PIdle? ==> s'.d.prod.x == s.d.prod.x
    ensures e.Enqueued? || e.Refused? ==> !s.d.prod.PIdle? && s'.d.prod.PIdle?
    ensures e.Enqueued? ==> e.x == s.d.prod.x && s'.d.items == s.d.items + [e.x]
  {
    hide Typed, WorkMoves;
    if ProducerStep(s, e, s') {
      hide CounterMoves, InsertStep, Off;
      if !s.d.prod.PIdle? { EnqueueStep(s, e, s'); }
    } else {
      hide ProducerStep, Q.Step;
      if exists t: nat :: t < |s.work| && WorkMoves(s, t, e, s') {
        var t: nat :| t < |s.work| && WorkMoves(s, t, e, s');
        WorkLeaves(s, t, e, s');
        WorkFollows(s, t, e, s');
      }
    }
  }

  lemma {:induction false} OfferedBefore(r: seq<State>, ev: seq<Event>, i: nat) returns (j: nat)
    requires Run(r, ev) && i < |r| && !r[i].d.prod.PIdle?
    ensures j < i && ev[j].Offered? && r[i].d.prod.x == ev[j].x && forall k :: j < k <= i ==> !r[k].d.prod.PIdle?
  {
    hide Step;
    assert Step(r[i - 1], ev[i - 1], r[i]);
    OfferStep(r[i - 1], ev[i - 1], r[i]);
    if r[i - 1].d.prod.PIdle? { j := i - 1; } else { j := OfferedBefore(r, ev, i - 1); }
  }

  /** An answer to enqueue belongs to the call in progress, and success enters just the item that was offered. */
  lemma EnqueueAnswer(r: seq<State>, ev: seq<Event>, i: nat) returns (j: nat)
    requires Run(r, ev) && i < |ev| && (ev[i].Enqueued? || ev[i].Refused?)
    ensures j < i && ev[j].Offered? && forall k :: j < k <= i ==> !r[k].d.prod.PIdle?
    ensures ev[i].Enqueued? ==> ev[i].x == ev[j].x && r[i + 1].d.items == r[i].d.items + [ev[j].x]
  {
    hide Step;
    assert Step(r[i], ev[i], r[i + 1]);
    OfferStep(r[i], ev[i], r[i + 1]);
    j := OfferedBefore(r, ev, i);
  }

  /** An enqueue is refused only at a block boundary, and there only over the size limit, or where the index
      was to be doubled or a block requisitioned. */
  lemma RefusedOnlyForRoom(r: seq<State>, ev: seq<Event>, i: nat)
    requires Run(r, ev) && i < |ev| && ev[i] == Refused
    ensures var s := r[i];
      && s.d.c.tail >= 0 && Off(s.d.c.tail) == 0 && r[i + 1].d.items == s.d.items
      && (|| (s.d.prod.PCheck? && OverLimit(s.d.c.tail - s.d.c.head))
          || (s.d.prod.PInsert? && (s.x.prod.PGrow? || s.x.prod.PClear?)))
  {
    RunInvariant(r, ev, i);
    assert Step(r[i], ev[i], r[i + 1]);
    BoundaryPhase(r[i]);
    hide Inv, Run, Off, Chunk, I.Typed, Q.TicketsInRange, I.At, I.ReaderStep, I.Release, I.Onward, Q.Step;
    if ProducerStep(r[i], ev[i], r[i + 1]) {
      ProducerGrows(r[i], ev[i], r[i + 1]);
    }
  }

  lemma BoundaryPhase(s: State)
    requires Inv(s)
    ensures s.d.c.tail >= 0 && (s.d.prod.PCheck? || s.d.prod.PInsert? ==> Off(s.d.c.tail) == 0)
  {}

  // The size limit.

  /** The room made for elements, counted from the head, keeps to the limit. */
  ghost predicate WithinLimit(s: State) {
    LIMIT.Some? ==>
      && Base(|s.x.m.storage|) - s.d.c.head <= LIMIT.value
      && (s.d.prod.PInsert? || s.x.prod.PPublish? ==> Base(|s.x.m.storage|) + BLOCK_SIZE - s.d.c.head <= LIMIT.value)
  }

  lemma LimitByInsert(s: State, e: Event, s': State)
    requires Typed(s) && WithinLimit(s) && s.d.prod.PInsert? && ProducerStep(s, e, s') && !s.x.prod.PPublish?
    ensures WithinLimit(s')
  {
    assert I.ProducerStep(s.x, s'.x);
    hide Typed, I.ProducerStep, Base;
    assert I.Typed(s.x) by { InvTypedIndex(s); }
    IndexStep(s.x, s'.x);
  }

  lemma InvTypedIndex(s: State)
    requires Typed(s)
    ensures I.Typed(s.x)
  {}

  lemma LimitByProducer(s: State, e: Event, s': State)
    requires Inv(s) && Typed(s) && WithinLimit(s) && ProducerStep(s, e, s')
    ensures WithinLimit(s')
  {
    hide Inv, InsertStep, Typed, Off, Base;
    NextBase(|s.x.m.storage|);
    PhaseFacts(s);
    AtBoundary(s);
    if s.d.prod.PInsert? { LimitByInsert(s, e, s'); }
  }

  lemma AtBoundary(s: State)
    requires Inv(s)
    ensures s.d.prod.PCheck? ==> s.d.c.tail == Base(|s.x.m.storage|)
    ensures s.d.c.tail <= Base(|s.x.m.storage|)
  {
    var n := |s.x.m.storage|;
    if Off(s.d.c.tail) != 0 { BelowBase(s.d.c.tail, n); }
  }

  lemma LimitByOther(s: State, e: Event, s': State)
    requires Inv(s) && Step(s, e, s') && WithinLimit(s) && !ProducerStep(s, e, s')
    ensures WithinLimit(s')
  {
    CoreParts(s.x, s.d);
    hide Inv, I.Inv, Q.Inv, PhaseOk, HeldOk, DataOk, Base, Typed, Q.Step, ProducerStep, WorkMoves, Chunk;
    if exists qe: Q.Event :: CounterMoves(s, qe, s') && e == Shown(qe) {
      var qe: Q.Event :| CounterMoves(s, qe, s') && e == Shown(qe);
      Q.StepMonotone(s.d.c, qe, s'.d.c);
    } else if exists t: nat :: t < |s.work| && WorkMoves(s, t, e, s') {
      var t: nat :| t < |s.work| && WorkMoves(s, t, e, s');
      WorkLeaves(s, t, e, s');
    }
  }

  lemma WorkLeaves(s: State, t: nat, e: Event, s': State)
    requires Typed(s) && t < |s.work| && WorkMoves(s, t, e, s')
    ensures s'.x.m.storage == s.x.m.storage && s'.x.prod == s.x.prod && s'.d.c == s.d.c && s'.d.prod == s.d.prod
  {
    hide Chunk, Off, I.Typed, Q.TicketsInRange, I.At, I.ReaderStep, I.HeaderOk, I.Onward;
  }

  lemma LimitInitially(s: State)
    requires Initial(s)
    ensures WithinLimit(s)
  {}

  lemma {:induction false} LimitKept(r: seq<State>, ev: seq<Event>, i: nat)
    requires Run(r, ev) && i < |r|
    ensures WithinLimit(r[i])
  {
    hide Inv, Step, Initial, WithinLimit, Typed, ProducerStep;
    if i == 0 {
      LimitInitially(r[0]);
    } else {
      RunInvariant(r, ev, i - 1);
      LimitKept(r, ev, i - 1);
      var s, e, s' := r[i - 1], ev[i - 1], r[i];
      assert Step(s, e, s');
      hide Run;
      InvTyped(s);
      if ProducerStep(s, e, s') { LimitByProducer(s, e, s'); } else { LimitByOther(s, e, s'); }
    }
  }

  /** A sub-queue never holds more elements than MAX_SUBQUEUE_SIZE, however enqueues and dequeues interleave. */
  lemma SizeWithinLimit(r: seq<State>, ev: seq<Event>, i: nat)
    requires Run(r, ev) && i < |r| && LIMIT.Some?
    ensures r[i].d.c.tail - r[i].d.c.head <= LIMIT.value
  {
    hide Inv, Run;
    RunInvariant(r, ev, i);
    LimitKept(r, ev, i);
    AtBoundary(r[i]);
  }
}
