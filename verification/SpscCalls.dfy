/** What calls on the single-producer single-consumer queue answer, and that they come to an end. */
module SpscCalls {
  import opened Common
  import opened Spsc
  import opened SpscProof
  import opened SpscRun

  // ---------------------------------------------------------------- each answer belongs to its call

  /** The producer is in a call with this element and this permission to allocate. */
  predicate Intends(p: Producer, x: int, can: bool) {
    && !p.PIdle? && p.x == x
    && (p.PLoadFront? || p.PLoadFrontBlock? ==> p.can == can)
    && (p.PAllocate? || p.PLink? ==> can)
  }

  /** The consumer is in a call of peek, or of try_dequeue or pop. */
  predicate Wants(c: Consumer, peek: bool) {
    match c
    case CIdle => false
    case CAdvance(_) => !peek
    case CStoreFront(_) => !peek
    case CPeekNext(_) => peek
    case CLoadTail(p) => p == peek
    case CLoadTailBlock(p, _) => p == peek
    case CReloadTail(p) => p == peek
    case CLoadNext(p) => p == peek
    case CNextTail(p, _) => p == peek
    case CTake(p) => p == peek
  }

  lemma IntentKept(s: State, e: Event, s': State, x: int, can: bool)
    requires Step(s, e, s')
    ensures Intends(s.prod, x, can) && !s'.prod.PIdle? ==> Intends(s'.prod, x, can)
    ensures s.prod.PIdle? && !s'.prod.PIdle? ==> e.Offered? && Intends(s'.prod, e.x, e.can)
    ensures Intends(s.prod, x, can) ==> (e.Enqueued? ==> e.x == x) && (e.Refused? ==> !can) && (e.NoMemory? ==> can)
    ensures e.Enqueued? || e.Refused? || e.NoMemory? ==> !s.prod.PIdle? && s'.prod.PIdle?
  {
    hide AllOk, BlockOk, Succ, SeesRoom, SeesItem;
    if ProducerStep(s, e, s') { hide ConsumerStep; } else { ConsumerRecords(s, e, s'); }
  }

  lemma WishKept(s: State, e: Event, s': State, peek: bool)
    requires Step(s, e, s')
    ensures Wants(s.cons, peek) && !s'.cons.CIdle? ==> Wants(s'.cons, peek)
    ensures s.cons.CIdle? && !s'.cons.CIdle? ==> e.Asked? && Wants(s'.cons, e.peek)
    ensures Wants(s.cons, peek) ==> (e.Dequeued? ==> !peek) && (e.Peeked? ==> peek)
    ensures e.Dequeued? || e.Peeked? || e.Missed? ==> !s.cons.CIdle? && s'.cons.CIdle?
  {
    hide AllOk, BlockOk, Succ, SeesRoom, SeesItem;
    if ConsumerStep(s, e, s') { hide ProducerStep; } else { ProducerRecords(s, e, s'); }
  }

  lemma {:induction false} OfferedBefore(r: seq<State>, ev: seq<Event>, i: nat) returns (j: nat)
    requires Run(r, ev) && i < |r| && !r[i].prod.PIdle?
    ensures j < i && ev[j].Offered? && Intends(r[i].prod, ev[j].x, ev[j].can) && forall k :: j < k <= i ==> !r[k].prod.PIdle?
  {
    hide Initial, Step, Intends;
    assert i > 0 by { InitialIdle(r[0]); }
    assert Step(r[i - 1], ev[i - 1], r[i]);
    if r[i - 1].prod.PIdle? {
      j := i - 1;
      IntentKept(r[i - 1], ev[i - 1], r[i], 0, false);
    } else {
      j := OfferedBefore(r, ev, i - 1);
      IntentKept(r[i - 1], ev[i - 1], r[i], ev[j].x, ev[j].can);
    }
  }

  lemma {:induction false} AskedBefore(r: seq<State>, ev: seq<Event>, i: nat) returns (j: nat)
    requires Run(r, ev) && i < |r| && !r[i].cons.CIdle?
    ensures j < i && ev[j].Asked? && Wants(r[i].cons, ev[j].peek) && forall k :: j < k <= i ==> !r[k].cons.CIdle?
  {
    hide Initial, Step, Wants;
    assert i > 0 by { InitialIdle(r[0]); }
    assert Step(r[i - 1], ev[i - 1], r[i]);
    if r[i - 1].cons.CIdle? {
      j := i - 1;
      WishKept(r[i - 1], ev[i - 1], r[i], false);
    } else {
      j := AskedBefore(r, ev, i - 1);
      WishKept(r[i - 1], ev[i - 1], r[i], ev[j].peek);
    }
  }

  /** An answer to enqueue belongs to the call in progress: success enters the element that was offered, a
      refusal answers a call that may not allocate, and running out of memory one that may. */
  lemma EnqueueAnswer(r: seq<State>, ev: seq<Event>, i: nat) returns (j: nat)
    requires Run(r, ev) && i < |ev| && (ev[i].Enqueued? || ev[i].Refused? || ev[i].NoMemory?)
    ensures j < i && ev[j].Offered? && forall k :: j < k <= i ==> !r[k].prod.PIdle?
    ensures (ev[i].Enqueued? ==> ev[i].x == ev[j].x) && (ev[i].Refused? ==> !ev[j].can) && (ev[i].NoMemory? ==> ev[j].can)
  {
    hide Initial, Step, Intends;
    assert Step(r[i], ev[i], r[i + 1]);
    IntentKept(r[i], ev[i], r[i + 1], 0, false);
    j := OfferedBefore(r, ev, i);
    IntentKept(r[i], ev[i], r[i + 1], ev[j].x, ev[j].can);
  }

  /** An answer to the consumer belongs to its call: peek leaves the element, the others take it out. */
  lemma DequeueAnswer(r: seq<State>, ev: seq<Event>, i: nat) returns (j: nat)
    requires Run(r, ev) && i < |ev| && (ev[i].Dequeued? || ev[i].Peeked? || ev[i].Missed?)
    ensures j < i && ev[j].Asked? && forall k :: j < k <= i ==> !r[k].cons.CIdle?
    ensures (ev[i].Dequeued? ==> !ev[j].peek) && (ev[i].Peeked? ==> ev[j].peek)
  {
    hide Initial, Step, Wants;
    assert Step(r[i], ev[i], r[i + 1]);
    WishKept(r[i], ev[i], r[i + 1], false);
    j := AskedBefore(r, ev, i);
    WishKept(r[i], ev[i], r[i + 1], ev[j].peek);
  }

  // ---------------------------------------------------------------- memory

  lemma WantsBlock(s: State, e: Event, s': State)
    requires Inv(s) && Step(s, e, s') && s.prod.PLoadFrontBlock? && s'.prod.PAllocate?
    ensures s.prod.held >= s.maxSize && s.prod.can
  {
    hide AllOk, BlockOk, FillOk, DataOk, CapOk, ConsumerOk, Count, Distinct;
    if ProducerStep(s, e, s') {
      hide ConsumerStep;
      NextPlace(s, s.k);
    } else {
      ConsumerRecords(s, e, s');
    }
  }

  /** A further block is allocated only if, when the enqueue looked at the front of its block, the queue held
      at least as many elements as it was constructed for: blocks that have become empty are used again. */
  lemma AllocatesWhenFull(r: seq<State>, ev: seq<Event>, i: nat) returns (j: nat)
    requires Run(r, ev) && i < |ev| && !r[i].prod.PAllocate? && r[i + 1].prod.PAllocate?
    ensures j < i && r[j].prod.PLoadFront? && forall m :: j < m <= i ==> r[m].prod == r[i].prod
    ensures |Sent(ev[..j])| - |Received(ev[..j])| >= r[0].maxSize
  {
    hide Inv, Initial, Typed, Step, Sent, Received;
    RunInvariant(r, ev, i);
    assert Step(r[i], ev[i], r[i + 1]);
    AllocateFrom(r[i], ev[i], r[i + 1]);
    WantsBlock(r[i], ev[i], r[i + 1]);
    j := LookedAtFront(r, ev, i);
    RecordsAreEvents(r, ev, j);
    RecordsAreEvents(r, ev, i);
  }

  lemma AllocateFrom(s: State, e: Event, s': State)
    requires Step(s, e, s') && !s.prod.PAllocate? && s'.prod.PAllocate?
    ensures s.prod.PLoadFrontBlock?
  {
    hide AllOk, BlockOk;
    if ProducerStep(s, e, s') { hide ConsumerStep; } else { ConsumerRecords(s, e, s'); }
  }

  // ---------------------------------------------------------------- both sides are wait-free

  /** What the producer, and the consumer, have left to do in their calls. */
  function ToEnqueue(p: Producer): nat {
    match p
    case PIdle => 0
    case PLoadFront(_, _) => 6
    case PLoadFrontBlock(_, _, _) => 5
    case PNextFront(_, _) => 4
    case PNextWrite(_, _) => 3
    case PAllocate(_) => 3
    case PNextTail(_, _) => 2
    case PLink(_, _) => 2
    case PWrite(_) => 2
    case PStoreTail(_) => 1
    case PPublish(_, _) => 1
  }

  function ToDequeue(c: Consumer): nat {
    match c
    case CIdle => 0
    case CLoadTail(_) => 8
    case CLoadTailBlock(_, _) => 7
    case CReloadTail(_) => 6
    case CLoadNext(_) => 5
    case CNextTail(_, _) => 4
    case CAdvance(_) => 3
    case CPeekNext(_) => 2
    case CTake(_) => 2
    case CStoreFront(_) => 1
  }

  lemma ProducerGoesOn(s: State, e: Event, s': State)
    requires Typed(s) && ProducerStep(s, e, s') && !s.prod.PIdle?
    ensures ToEnqueue(s'.prod) < ToEnqueue(s.prod)
    ensures s'.prod.PIdle? <==> e.Enqueued? || e.Refused? || e.NoMemory?
  {
    hide AllOk, BlockOk;
  }

  lemma ConsumerGoesOn(s: State, e: Event, s': State)
    requires Typed(s) && ConsumerStep(s, e, s') && !s.cons.CIdle?
    ensures ToDequeue(s'.cons) < ToDequeue(s.cons)
    ensures s'.cons.CIdle? <==> e.Dequeued? || e.Peeked? || e.Missed?
  {
    hide AllOk, BlockOk;
  }

  lemma SomeEnqueueStep(s: State) returns (e: Event, s': State)
    requires Typed(s) && !s.prod.PIdle?
    ensures ProducerStep(s, e, s') && e != NoMemory
  {
    var t := Tail(s);
    assert BlockOk(t);
    e, s' := Silent, s;
    match s.prod {
      case PLoadFront(x, can) =>
        s' := Put(s, s.tailBlock, t.(localFront := t.front))
              .(prod := if Succ(t.tail, t.size) != t.front then PWrite(x) else PLoadFrontBlock(x, can, |s.enq| - |s.deq|));
      case PWrite(x) => s' := Put(s, s.tailBlock, t.(data := t.data[t.tail := Full(x)])).(prod := PStoreTail(x));
      case PStoreTail(x) =>
        e, s' := Enqueued(x), Put(s, s.tailBlock, t.(tail := Succ(t.tail, t.size))).(prod := PIdle, enq := s.enq + [x]);
      case PLoadFrontBlock(x, can, held) =>
        if t.next != s.frontBlock {
          s' := s.(prod := PNextFront(x, t.next));
        } else if can {
          s' := s.(prod := PAllocate(x));
        } else {
          e, s' := Refused(held), s.(prod := PIdle);
        }
      case PNextFront(x, b) => s' := Put(s, b, s.blocks[b].(localFront := s.blocks[b].front)).(prod := PNextWrite(x, b));
      case PNextWrite(x, b) =>
        var n := s.blocks[b];
        s' := Put(s, b, n.(data := n.data[n.tail := Full(x)])).(prod := PNextTail(x, b));
      case PNextTail(x, b) =>
        var n := s.blocks[b];
        s' := Put(s, b, n.(tail := Succ(n.tail, n.size))).(prod := PPublish(x, b));
      case PAllocate(x) =>
        var size := if s.largest >= s.maxBlock then s.largest else s.largest * 2;
        var b := Unused(s.blocks.Keys);
        assert b !in s.blocks;
        s' := Put(s, b, Block(0, 1, 1, 0, t.next, size, seq(size, i => if i == 0 then Full(x) else Void)))
              .(prod := PLink(x, b), largest := size);
      case PLink(x, b) =>
        s' := Put(s, s.tailBlock, t.(next := b)).(prod := PPublish(x, b), ring := s.ring[..s.k + 1] + [b] + s.ring[s.k + 1..]);
      case PPublish(x, b) => e, s' := Enqueued(x), s.(tailBlock := b, prod := PIdle, k := s.k + 1, enq := s.enq + [x]);
    }
  }

  lemma SomeDequeueStep(s: State) returns (e: Event, s': State)
    requires Typed(s) && !s.cons.CIdle? && (s.cons.CAdvance? ==> s.k >= 1)
    requires s.cons.CTake? ==> BlockOk(Front(s)) && Front(s).data[Front(s).front].Full?
    requires s.cons.CPeekNext? ==> var n := s.blocks[s.cons.b]; BlockOk(n) && n.data[n.front].Full?
    ensures ConsumerStep(s, e, s')
  {
    var f := Front(s);
    assert BlockOk(f);
    e, s' := Silent, s;
    match s.cons {
      case CLoadTail(peek) =>
        s' := Put(s, s.frontBlock, f.(localTail := f.tail))
              .(cons := if f.front != f.tail then CTake(peek) else CLoadTailBlock(peek, |s.enq| == |s.deq|));
      case CLoadTailBlock(peek, wasEmpty) =>
        if s.frontBlock != s.tailBlock { s' := s.(cons := CReloadTail(peek)); } else { e, s' := Missed(wasEmpty), s.(cons := CIdle); }
      case CReloadTail(peek) =>
        s' := Put(s, s.frontBlock, f.(localTail := f.tail)).(cons := if f.front != f.tail then CTake(peek) else CLoadNext(peek));
      case CLoadNext(peek) => s' := s.(cons := CNextTail(peek, f.next));
      case CNextTail(peek, b) =>
        s' := if peek then s.(cons := CPeekNext(b)) else Put(s, b, s.blocks[b].(localTail := s.blocks[b].tail)).(cons := CAdvance(b));
      case CAdvance(b) => s' := s.(frontBlock := b, cons := CTake(false), ring := s.ring[1..] + [s.ring[0]], k := s.k - 1);
      case CPeekNext(b) => e, s' := Peeked(s.blocks[b].data[s.blocks[b].front].item), s.(cons := CIdle);
      case CTake(peek) =>
        var v := f.data[f.front].item;
        if peek {
          e, s' := Peeked(v), s.(cons := CIdle);
        } else {
          s' := Put(s, s.frontBlock, f.(data := f.data[f.front := Void])).(cons := CStoreFront(v));
        }
      case CStoreFront(v) =>
        e, s' := Dequeued(v), Put(s, s.frontBlock, f.(front := Succ(f.front, f.size))).(cons := CIdle, deq := s.deq + [v]);
    }
  }

  /** In any state of any run an enqueue in progress can make a step, and each of its steps, whatever the
      consumer does, brings it closer to its answer. */
  lemma EnqueueIsWaitFree(r: seq<State>, ev: seq<Event>, i: nat)
    requires Run(r, ev) && i < |r| && !r[i].prod.PIdle?
    ensures Typed(r[i]) && exists e, s' :: ProducerStep(r[i], e, s') && e != NoMemory
    ensures forall e, s' :: ProducerStep(r[i], e, s') ==>
      ToEnqueue(s'.prod) < ToEnqueue(r[i].prod) && (s'.prod.PIdle? <==> e.Enqueued? || e.Refused? || e.NoMemory?)
  {
    hide Inv, Typed, ProducerStep, ConsumerStep, Initial;
    RunInvariant(r, ev, i);
    var e, s' := SomeEnqueueStep(r[i]);
    forall e, s' | ProducerStep(r[i], e, s')
      ensures ToEnqueue(s'.prod) < ToEnqueue(r[i].prod) && (s'.prod.PIdle? <==> e.Enqueued? || e.Refused? || e.NoMemory?)
    {
      ProducerGoesOn(r[i], e, s');
    }
  }

  /** The same for the consumer. */
  lemma DequeueIsWaitFree(r: seq<State>, ev: seq<Event>, i: nat)
    requires Run(r, ev) && i < |r| && !r[i].cons.CIdle?
    ensures Typed(r[i]) && exists e, s' :: ConsumerStep(r[i], e, s')
    ensures forall e, s' :: ConsumerStep(r[i], e, s') ==>
      ToDequeue(s'.cons) < ToDequeue(r[i].cons) && (s'.cons.CIdle? <==> e.Dequeued? || e.Peeked? || e.Missed?)
  {
    hide Inv, ProducerStep, ConsumerStep, Initial;
    RunInvariant(r, ev, i);
    AssertsHold(r, ev, i);
    AdvancePlace(r[i]);
    var e, s' := SomeDequeueStep(r[i]);
    hide Typed;
    forall e, s' | ConsumerStep(r[i], e, s')
      ensures ToDequeue(s'.cons) < ToDequeue(r[i].cons) && (s'.cons.CIdle? <==> e.Dequeued? || e.Peeked? || e.Missed?)
    {
      ConsumerGoesOn(r[i], e, s');
    }
  }

  lemma AdvancePlace(s: State)
    requires Inv(s)
    ensures s.cons.CAdvance? ==> s.k >= 1
  {
    hide RingOk, FillOk, DataOk, CapOk, ProducerOk, Count;
  }
}
