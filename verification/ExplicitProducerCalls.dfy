/** What calls of enqueue and dequeue on an explicit producer answer, and that they come to an end. */
module ExplicitProducerCalls {
  import opened Common
  import opened Chunks
  import opened ExplicitProducer
  import opened ExplicitProducerProof
  import Q = DequeueCounters

  // ---------------------------------------------------------------- dequeue

  /** A step of consumer `t`, in the claiming protocol or in reading what it has claimed. */
  ghost predicate Mine(s: State, t: nat, e: Event, s': State) {
    && StateTyped(s) && t < |s.readers|
    && (|| ReaderMoves(s, t, e, s')
        || exists qe: Q.Event :: CounterMoves(s, qe, s') && e == Shown(qe) && Q.Mine(s.m.c, t, qe, s'.m.c))
  }

  ghost predicate Producing(s: State, e: Event, s': State) {
    StateTyped(s) && ProducerStep(s.m, e, s'.m) && s'.readers == s.readers
  }

  /** Consumer `t` is in a dequeue that began at rest, with `tail0` as the tail, and is the only one since. */
  predicate OnlyOne(s: State, t: nat, head: int, tail0: int, max: int) {
    && t < |s.readers|
    && var rd := s.readers[t];
       if rd.RIdle? then Q.OnlyOne(s.m.c, t, head, tail0, max)
       else rd.first == head && Q.Fits(rd.len, head, tail0, max, s.m.c.tail)
  }

  /** The answer that such a dequeue may give. */
  predicate RightAnswer(e: Event, t: nat, items: seq<int>, head: int, tail0: int, max: int) {
    && (e.Failed? ==> e.t == t && tail0 == head)
    && (e.Delivered? ==>
          && e.first == head && Q.Fits(|e.out|, head, tail0, max, |items|)
          && e.first + |e.out| <= |items| && e.out == items[e.first..e.first + |e.out|])
  }

  lemma OnlyOneByProducer(s: State, e: Event, s': State, t: nat, head: int, tail0: int, max: int)
    requires OnlyOne(s, t, head, tail0, max) && Producing(s, e, s')
    ensures OnlyOne(s', t, head, tail0, max)
  {
    hide Typed, Chunk, Off, Base, ReaderTyped, Q.TicketsInRange;
  }

  lemma OnlyOneByClaim(s: State, t: nat, qe: Q.Event, s': State, head: int, tail0: int, max: int)
    requires Inv(s) && StateTyped(s) && OnlyOne(s, t, head, tail0, max) && t < |s.readers|
    requires CounterMoves(s, qe, s') && Q.Mine(s.m.c, t, qe, s'.m.c)
    ensures !qe.Failed? ==> OnlyOne(s', t, head, tail0, max)
    ensures qe.Failed? ==> qe.t == t && tail0 == head
  {
    if s.readers[t].RIdle? {
      HeadNotNegative(s.m);
      hide Inv, StateTyped, Q.Step, Q.ConsumerStep;
      MineIsNotProducer(s.m.c, t, qe, s'.m.c);
      Q.OnlyOneStep(s.m.c, t, qe, s'.m.c, head, tail0, max);
      OnlyOneHead(s.m.c, t, head, tail0, max);
    } else {
      hide Core, StateTyped, Q.Step, ReaderOk;
    }
  }

  lemma OnlyOneHead(c: Q.State, t: nat, head: int, tail0: int, max: int)
    requires Q.OnlyOne(c, t, head, tail0, max)
    ensures t < |c.consumers| && c.head == head
  {}

  lemma MineIsNotProducer(c: Q.State, t: nat, qe: Q.Event, c': Q.State)
    requires Q.Mine(c, t, qe, c')
    ensures qe != Q.Enqueued && (qe.Claimed? ==> qe.t == t)
  {}

  lemma OnlyOneByReader(s: State, t: nat, e: Event, s': State, head: int, tail0: int, max: int)
    requires Inv(s) && StateTyped(s) && OnlyOne(s, t, head, tail0, max) && ReaderMoves(s, t, e, s')
    ensures !e.Delivered? ==> OnlyOne(s', t, head, tail0, max)
    ensures RightAnswer(e, t, s.m.items, head, tail0, max)
  {
    HeadInItems(s.m);
    assert ReaderOk(s.m, s.readers[t]);
    hide Core, ReaderOk, Typed, ReaderTyped, ReaderStep, Q.TicketsInRange;
    ReadingKeepsClaim(s.m, s.readers[t], e, s'.m, s'.readers[t]);
  }

  /** Reading does not change what was claimed, and ends by handing out just that. */
  lemma ReadingKeepsClaim(s: Mem, rd: Reader, e: Event, s': Mem, rd': Reader)
    requires Typed(s) && ReaderTyped(s, rd) && ReaderOk(s, rd) && ReaderStep(s, rd, e, s', rd')
    ensures !rd.RIdle? && s'.c == s.c && !e.Failed?
    ensures !e.Delivered? ==> !rd'.RIdle? && rd'.first == rd.first && rd'.len == rd.len
    ensures e.Delivered? ==>
      e.first == rd.first && |e.out| == rd.len && e.first + |e.out| <= |s.items| && e.out == s.items[e.first..e.first + |e.out|]
  {
    hide Chunk, Off, Covered, Placed, NotTaken, AllTaken, NotCleared, Typed;
  }

  lemma OnlyOneByMine(s: State, t: nat, e: Event, s': State, head: int, tail0: int, max: int)
    requires Inv(s) && OnlyOne(s, t, head, tail0, max) && Mine(s, t, e, s')
    ensures !e.Failed? && !e.Delivered? ==> OnlyOne(s', t, head, tail0, max)
    ensures RightAnswer(e, t, s.m.items, head, tail0, max)
  {
    hide Inv, StateTyped, OnlyOne, ReaderMoves, CounterMoves, Q.Mine;
    if ReaderMoves(s, t, e, s') {
      OnlyOneByReader(s, t, e, s', head, tail0, max);
    } else {
      var qe: Q.Event :| CounterMoves(s, qe, s') && e == Shown(qe) && Q.Mine(s.m.c, t, qe, s'.m.c);
      OnlyOneByClaim(s, t, qe, s', head, tail0, max);
    }
  }

  predicate AtRest(s: State) {
    && (forall t :: 0 <= t < |s.readers| ==> s.readers[t] == RIdle)
    && (forall t :: 0 <= t < |s.m.c.consumers| ==> s.m.c.consumers[t] == Q.Idle)
  }

  /** Between `i` and `j` only consumer `t` and the producer move, and the call begun at `i` does not return. */
  ghost predicate Undisturbed(r: seq<State>, ev: seq<Event>, t: nat, i: nat, j: nat)
    requires |r| == |ev| + 1 && i < j <= |ev|
  {
    forall k {:trigger ev[k]} :: i < k < j ==>
      !ev[k].Failed? && !ev[k].Delivered? && (Producing(r[k], ev[k], r[k + 1]) || Mine(r[k], t, ev[k], r[k + 1]))
  }

  lemma CallBegins(s: State, t: nat, max: nat, s': State)
    requires Inv(s) && Step(s, Called(t, max), s') && AtRest(s)
    ensures s.m.c.head <= s.m.c.tail && OnlyOne(s', t, s.m.c.head, s.m.c.tail, max)
  {
    QInv(s.m);
    Q.HeadBelowTail(s.m.c);
    Q.BalancedAtRest(s.m.c);
    hide Inv, Q.Inv, Typed;
  }

  lemma {:induction false} OnlyOneSince(r: seq<State>, ev: seq<Event>, t: nat, max: nat, i: nat, j: nat)
    requires Run(r, ev) && i < j < |r| && ev[i] == Called(t, max) && AtRest(r[i]) && Undisturbed(r, ev, t, i, j)
    ensures OnlyOne(r[j], t, r[i].m.c.head, r[i].m.c.tail, max)
  {
    hide Inv, Step, OnlyOne, AtRest, Mine, Producing;
    RunInvariant(r, ev, j - 1);
    assert Step(r[j - 1], ev[j - 1], r[j]);
    if j == i + 1 {
      CallBegins(r[i], t, max, r[j]);
    } else {
      OnlyOneSince(r, ev, t, max, i, j - 1);
      var s, e, s' := r[j - 1], ev[j - 1], r[j];
      if Producing(s, e, s') {
        OnlyOneByProducer(s, e, s', t, r[i].m.c.head, r[i].m.c.tail, max);
      } else {
        OnlyOneByMine(s, t, e, s', r[i].m.c.head, r[i].m.c.tail, max);
      }
    }
  }

  /** A dequeue of at most `max` elements that begins when no other is in progress and meets no other: it
      fails only if there was no element, and else hands out the oldest ones, as many as there were up to
      `max`, or more if the producer has added some meanwhile. */
  lemma DequeueFindsWhatIsThere(r: seq<State>, ev: seq<Event>, t: nat, max: nat, i: nat, j: nat)
    requires Run(r, ev) && i < j < |ev| && ev[i] == Called(t, max) && AtRest(r[i]) && Undisturbed(r, ev, t, i, j)
    requires Mine(r[j], t, ev[j], r[j + 1])
    ensures RightAnswer(ev[j], t, r[j].m.items, r[i].m.c.head, r[i].m.c.tail, max)
  {
    hide Inv, Step, OnlyOne, Mine, RightAnswer;
    RunInvariant(r, ev, j);
    OnlyOneSince(r, ev, t, max, i, j);
    OnlyOneByMine(r[j], t, ev[j], r[j + 1], r[i].m.c.head, r[i].m.c.tail, max);
  }

  /** If the producer is still as well, the answer is exact. */
  lemma DequeueFindsExactly(r: seq<State>, ev: seq<Event>, t: nat, max: nat, i: nat, j: nat)
    requires Run(r, ev) && i < j < |ev| && ev[i] == Called(t, max) && AtRest(r[i]) && Undisturbed(r, ev, t, i, j)
    requires Mine(r[j], t, ev[j], r[j + 1]) && (ev[j].Failed? || ev[j].Delivered?) && r[j].m.items == r[i].m.items
    ensures var head, items := r[i].m.c.head, r[i].m.items;
            && 0 <= head <= |items|
            && ev[j] == if head == |items| then Failed(t) else Delivered(head, items[head..head + Q.Min(max, |items| - head)])
  {
    hide Step, Mine, Undisturbed;
    DequeueFindsWhatIsThere(r, ev, t, max, i, j);
    RunInvariant(r, ev, i);
    HeadInItems(r[i].m);
    HeadNotNegative(r[i].m);
    hide Inv, Run, AtRest;
  }

  // Reading what was claimed takes a bounded number of steps.

  function Left(rd: Reader): int {
    match rd
    case RIdle => 0
    case RHeader(_, len) => 4 * len + 4
    case RFront(_, len, _) => 4 * len + 3
    case RBase(_, len, _, _, _) => 4 * len + 2
    case RBlock(first, len, _, _, i, _) => 4 * (first + len - i) + 1
    case RTake(first, len, _, _, _, from, i, _) => 4 * (first + len - i) + 2 * (i - from)
    case RClear(first, len, _, _, _, from, j, i, _) => 4 * (first + len - i) + 2 * (j - from)
  }

  lemma SomeRead(s: Mem, rd: Reader) returns (e: Event, s': Mem, rd': Reader)
    requires Typed(s) && ReaderTyped(s, rd) && !rd.RIdle? && (rd.RTake? ==> s.blocks[rd.b].cells[Off(rd.i)].Full?)
    ensures ReaderStep(s, rd, e, s', rd')
  {
    e, s' := Silent, s;
    match rd {
      case RHeader(_, _) => rd' := HeaderLoaded(s, rd);
      case RFront(_, _, _) => rd' := FrontLoaded(s, rd);
      case RBase(_, _, _, _, _) => rd' := BaseLoaded(s, rd);
      case RBlock(_, _, _, _, _, _) => rd' := BlockLoaded(s, rd);
      case RTake(_, _, _, _, b, _, i, _) => s', rd' := TakenFrom(s, rd), AfterTake(rd, s.blocks[b].cells[Off(i)].item);
      case RClear(first, len, _, _, _, from, j, i, out) =>
        e := if j - 1 == from && i == first + len then Delivered(first, out) else Silent;
        s', rd' := FlagSet(s, rd), AfterFlag(s, rd);
    }
  }

  lemma ReadingEnds(s: Mem, rd: Reader, e: Event, s': Mem, rd': Reader)
    requires Typed(s) && ReaderTyped(s, rd) && ReaderOk(s, rd) && ReaderStep(s, rd, e, s', rd')
    ensures 0 <= Left(rd') < Left(rd) && (rd'.RIdle? <==> e.Delivered?)
  {
    hide Chunk, Off, Covered, Placed, NotTaken, AllTaken, NotCleared, Typed;
  }

  /** In any state of any run, a consumer with a claim can make a step, and each of its steps, whatever the
      others do, brings it closer to the delivery: there is no waiting. */
  lemma ReadingIsWaitFree(r: seq<State>, ev: seq<Event>, i: nat, t: nat)
    requires Run(r, ev) && i < |r| && t < |r[i].readers| && !r[i].readers[t].RIdle?
    ensures StateTyped(r[i]) && exists e, s' :: ReaderMoves(r[i], t, e, s')
    ensures forall e, s' :: ReaderMoves(r[i], t, e, s') ==>
      0 <= Left(s'.readers[t]) < Left(r[i].readers[t]) && (s'.readers[t].RIdle? <==> e.Delivered?)
  {
    ReadersNeverStuck(r, ev, i, t);
    RunInvariant(r, ev, i);
    var s, rd := r[i], r[i].readers[t];
    assert ReaderOk(s.m, rd);
    hide Core, ReaderOk, ReaderStep, Run, Typed;
    var e, m, rd' := SomeRead(s.m, rd);
    assert ReaderMoves(s, t, e, State(m, s.readers[t := rd']));
    forall e, s' | ReaderMoves(s, t, e, s')
      ensures 0 <= Left(s'.readers[t]) < Left(rd) && (s'.readers[t].RIdle? <==> e.Delivered?)
    {
      ReadingEnds(s.m, rd, e, s'.m, s'.readers[t]);
    }
  }

  // ---------------------------------------------------------------- enqueue

  /** What the producer has left to do. */
  function ToDo(p: Producer): int {
    match p
    case PIdle => 0
    case PScan(_, _, k) => 6 + BLOCK_SIZE - k
    case PGrow(_) => 6
    case PBlock(_) => 5
    case PReuse(_, _) => 5
    case PEntry(_) => 4
    case PFront(_) => 3
    case PWrite(_) => 2
    case PTail(_) => 1
  }

  /** Every step of an enqueue brings it closer to its end, whatever the consumers do, and it is about the
      item it was called with; it ends by entering just that item, or by refusing it. */
  lemma EnqueueStep(s: Mem, e: Event, s': Mem)
    requires Typed(s) && ProducerStep(s, e, s') && !s.prod.PIdle?
    ensures 0 <= ToDo(s'.prod) < ToDo(s.prod)
    ensures s'.prod.PIdle? <==> e.Enqueued? || e.Refused?
    ensures !s'.prod.PIdle? ==> s'.prod.x == s.prod.x
    ensures e.Enqueued? ==> e.x == s.prod.x && s'.items == s.items + [s.prod.x]
    ensures !e.Enqueued? ==> s'.items == s.items
  {}

  /** The producer can always go on, and where memory is needed it can go on with an answer of the allocator. */
  lemma GrowGoesOn(s: Mem) returns (s': Mem)
    requires Core(s) && Typed(s) && s.prod.PGrow?
    ensures ProducerStep(s, Silent, s')
  {
    assert s.slotsUsed <= |s.hist| by { assert 0 <= Oldest(s); }
    hide Core;
    if s.slotsUsed < Current(s).size {
      s' := s.(prod := PBlock(s.prod.x));
    } else {
      s' := s.(headers := s.headers + [Doubled(Current(s), s.prFront, s.slotsUsed, |s.hist|)], prFront := s.slotsUsed, prod := PBlock(s.prod.x));
    }
  }

  lemma BlockGoesOn(s: Mem) returns (s': Mem)
    requires Typed(s) && s.prod.PBlock?
    ensures ProducerStep(s, Silent, s')
  {
    var b := Unused(s.blocks.Keys);
    assert b !in s.blocks;
    hide Linked, Typed;
    s' := Linked(s, b, s.prod.x);
  }

  lemma SomeEnqueueStep(s: Mem) returns (e: Event, s': Mem)
    requires Core(s) && Typed(s)
    ensures ProducerStep(s, e, s') && e != Refused
  {
    hide Core, ReaderTyped;
    e, s' := Silent, s;
    match s.prod {
      case PIdle =>
        var x: int := 0;
        e := Offered(x);
        s' := s.(prod := if Off(s.c.tail) != 0 then PWrite(x) else if s.hist == [] then PGrow(x) else PScan(x, s.blocks[s.tailBlock].next, 0));
      case PScan(x, b, k) =>
        s' := s.(prod := if !s.blocks[b].flags[k] then PGrow(x) else if k + 1 < BLOCK_SIZE then PScan(x, b, k + 1) else PReuse(x, b));
      case PReuse(x, b) =>
        s' := s.(tailBlock := b, blocks := s.blocks[b := s.blocks[b].(flags := NoFlags())], hist := s.hist + [b], prod := PEntry(x));
      case PGrow(_) =>
        hide *;
        s' := GrowGoesOn(s);
      case PBlock(_) =>
        hide *;
        s' := BlockGoesOn(s);
      case PEntry(x) =>
        var h := Current(s);
        s' := WithCurrent(s, h.(entries := h.entries[s.prFront := Entry(s.c.tail, s.tailBlock)], hi := h.hi + 1)).(prod := PFront(x));
      case PFront(x) =>
        var h := Current(s);
        s' := WithCurrent(s, h.(front := s.prFront, frontChunk := h.hi - 1)).(prFront := Arith.Wrap(s.prFront + 1, h.size), prod := PWrite(x));
      case PWrite(x) =>
        var b := s.blocks[s.tailBlock];
        s' := s.(blocks := s.blocks[s.tailBlock := b.(cells := b.cells[Off(s.c.tail) := Full(x)])], prod := PTail(x));
      case PTail(x) =>
        e, s' := Enqueued(x), s.(c := s.c.(tail := s.c.tail + 1), items := s.items + [x], prod := PIdle);
    }
  }

  /** In any state of any run an enqueue in progress can make a step without being refused, and each step
      brings it closer to its end: there is no waiting for consumers. */
  lemma EnqueueIsWaitFree(r: seq<State>, ev: seq<Event>, i: nat)
    requires Run(r, ev) && i < |r| && !r[i].m.prod.PIdle?
    ensures Typed(r[i].m) && exists e, m :: ProducerStep(r[i].m, e, m) && e != Refused
    ensures forall e, m :: ProducerStep(r[i].m, e, m) ==> 0 <= ToDo(m.prod) < ToDo(r[i].m.prod) && (m.prod.PIdle? <==> e.Enqueued? || e.Refused?)
  {
    RunInvariant(r, ev, i);
    CoreTyped(r[i].m);
    hide Core, Run, Typed, ProducerStep;
    var e, m := SomeEnqueueStep(r[i].m);
    forall e, m | ProducerStep(r[i].m, e, m)
      ensures 0 <= ToDo(m.prod) < ToDo(r[i].m.prod) && (m.prod.PIdle? <==> e.Enqueued? || e.Refused?)
    {
      EnqueueStep(r[i].m, e, m);
    }
  }

  lemma OfferStep(s: State, e: Event, s': State)
    requires Step(s, e, s')
    ensures s.m.prod.PIdle? && !s'.m.prod.PIdle? ==> e.Offered? && s'.m.prod.x == e.x
    ensures !s.m.prod.PIdle? && !s'.m.prod.PIdle? ==> s'.m.prod.x == s.m.prod.x
    ensures e.Enqueued? || e.Refused? ==> !s.m.prod.PIdle? && s'.m.prod.PIdle?
    ensures e.Enqueued? ==> e.x == s.m.prod.x && s'.m.items == s.m.items + [e.x]
  {
    if ProducerStep(s.m, e, s'.m) && s'.readers == s.readers {
      hide ReaderTyped, Q.TicketsInRange, CounterMoves, ReaderMoves;
      if !s.m.prod.PIdle? { EnqueueStep(s.m, e, s'.m); }
    } else {
      hide ProducerStep, Typed, Q.Step;
    }
  }

  lemma {:induction false} OfferedBefore(r: seq<State>, ev: seq<Event>, i: nat) returns (j: nat)
    requires Run(r, ev) && i < |r| && !r[i].m.prod.PIdle?
    ensures j < i && ev[j].Offered? && r[i].m.prod.x == ev[j].x && forall k :: j < k <= i ==> !r[k].m.prod.PIdle?
  {
    hide Step;
    assert Step(r[i - 1], ev[i - 1], r[i]);
    OfferStep(r[i - 1], ev[i - 1], r[i]);
    if r[i - 1].m.prod.PIdle? { j := i - 1; } else { j := OfferedBefore(r, ev, i - 1); }
  }

  /** An answer to enqueue belongs to the call in progress, and success enters just the item that was offered. */
  lemma EnqueueAnswer(r: seq<State>, ev: seq<Event>, i: nat) returns (j: nat)
    requires Run(r, ev) && i < |ev| && (ev[i].Enqueued? || ev[i].Refused?)
    ensures j < i && ev[j].Offered? && forall k :: j < k <= i ==> !r[k].m.prod.PIdle?
    ensures ev[i].Enqueued? ==> ev[i].x == ev[j].x && r[i + 1].m.items == r[i].m.items + [ev[j].x]
  {
    hide Step;
    assert Step(r[i], ev[i], r[i + 1]);
    OfferStep(r[i], ev[i], r[i + 1]);
    j := OfferedBefore(r, ev, i);
  }

  /** An enqueue is refused only at a block boundary, and only where an index or a block had to be allocated. */
  lemma RefusedOnlyForMemory(r: seq<State>, ev: seq<Event>, i: nat)
    requires Run(r, ev) && i < |ev| && ev[i] == Refused
    ensures var s := r[i].m;
      && s.c.tail >= 0 && Off(s.c.tail) == 0 && s.c.tail == Base(|s.hist|) && r[i + 1].m.items == s.items
      && (s.prod.PBlock? || (s.prod.PGrow? && s.headers != [] && s.slotsUsed == Current(s).size))
  {
    RunInvariant(r, ev, i);
    var s := r[i].m;
    assert Step(r[i], ev[i], r[i + 1]);
    TailAtBase(s);
    hide Run, RingOk, IndexOk, DataOk, Q.Inv, ReadersOk;
  }

  lemma TailAtBase(s: Mem)
    requires s.c.tail == Base(|s.hist|)
    ensures Off(s.c.tail) == 0
  {
    BaseIsStart(|s.hist|, 0);
  }

  /** The block ahead of the tail is empty. */
  predicate EmptyAhead(s: Mem) {
    && s.hist != [] && s.tailBlock in s.blocks && s.blocks[s.tailBlock].next in s.blocks
    && forall p :: 0 <= p < |s.blocks[s.blocks[s.tailBlock].next].flags| ==> s.blocks[s.blocks[s.tailBlock].next].flags[p]
  }

  /** The producer is on its way to use the empty block `b`, or past that. */
  predicate Reusing(s: Mem, b: BlockId) {
    && (s.prod.PScan? || s.prod.PReuse? ==> s.prod.b == b && b in s.blocks && AllSet(s.blocks[b].flags))
    && !s.prod.PGrow? && !s.prod.PBlock?
  }

  predicate AllSet(flags: seq<bool>) { forall p :: 0 <= p < |flags| ==> flags[p] }

  lemma ReusingStep(s: State, e: Event, s': State, b: BlockId)
    requires StateTyped(s) && Step(s, e, s') && Reusing(s.m, b) && !s.m.prod.PIdle?
    ensures Reusing(s'.m, b) && e != Refused && s'.m.slotsUsed == s.m.slotsUsed && |s'.m.headers| == |s.m.headers|
  {
    if ProducerStep(s.m, e, s'.m) && s'.readers == s.readers {
      hide Q.TicketsInRange, ReaderTyped, CounterMoves, ReaderMoves;
    } else if exists qe: Q.Event :: CounterMoves(s, qe, s') && e == Shown(qe) {
      hide ProducerStep, ReaderMoves, Typed, Q.Step;
    } else {
      hide ProducerStep, CounterMoves;
      var t: nat :| t < |s.readers| && ReaderMoves(s, t, e, s');
    }
  }

  /** An enqueue is about to begin, at a boundary, with the block `b` ahead empty. */
  predicate AtEmptyBlock(s: State, b: BlockId) {
    s.m.prod.PIdle? && s.m.c.tail >= 0 && Off(s.m.c.tail) == 0 && EmptyAhead(s.m) && s.m.blocks[s.m.tailBlock].next == b
  }

  /** An enqueue that comes to a boundary when the block ahead is empty uses that block: it allocates nothing
      and is not refused. */
  lemma {:induction false} ReusesEmptyBlock(r: seq<State>, ev: seq<Event>, i: nat, j: nat, b: BlockId)
    requires Run(r, ev) && i < j < |r| && AtEmptyBlock(r[i], b)
    requires forall k :: i < k < j ==> !r[k].m.prod.PIdle?
    ensures Reusing(r[j].m, b) && ev[j - 1] != Refused
    ensures r[j].m.slotsUsed == r[i].m.slotsUsed && |r[j].m.headers| == |r[i].m.headers|
  {
    hide StateTyped, Step, Reusing, AtEmptyBlock, Init, Inv;
    RunSteps(r, ev, j - 1);
    hide Run;
    if j == i + 1 {
      ReuseBegins(r[i], ev[i], r[j], b);
    } else {
      ReusesEmptyBlock(r, ev, i, j - 1, b);
      ReusingStep(r[j - 1], ev[j - 1], r[j], b);
    }
  }

  lemma RunSteps(r: seq<State>, ev: seq<Event>, i: nat)
    requires Run(r, ev) && i < |ev|
    ensures |r| == |ev| + 1 && Step(r[i], ev[i], r[i + 1]) && StateTyped(r[i])
  {}

  lemma ReuseBegins(s: State, e: Event, s': State, b: BlockId)
    requires StateTyped(s) && Step(s, e, s') && AtEmptyBlock(s, b)
    ensures Reusing(s'.m, b) && e != Refused
    ensures s'.m.slotsUsed == s.m.slotsUsed && |s'.m.headers| == |s.m.headers|
  {
    if ProducerStep(s.m, e, s'.m) && s'.readers == s.readers {
      hide ReaderTyped, Q.TicketsInRange, CounterMoves, ReaderMoves;
    } else if exists qe: Q.Event :: CounterMoves(s, qe, s') && e == Shown(qe) {
      hide ProducerStep, ReaderMoves, Typed, Q.Step;
    } else {
      hide ProducerStep, CounterMoves;
    }
  }

  /** The block ahead of the tail is the oldest of the ring; it is empty once all its elements are dequeued. */
  lemma OldestIsAhead(s: Mem)
    requires Core(s) && s.hist != []
    ensures Oldest(s) >= 0 && s.tailBlock in s.blocks && s.blocks[s.tailBlock].next == s.hist[Oldest(s)]
    ensures (forall k: nat :: Chunk(k) == Oldest(s) ==> k in s.cleared) ==> EmptyAhead(s)
  {
    hide Q.Inv, PhaseOk, IndexOk, Chunk;
    var q: nat := Oldest(s);
    assert Live(s, |s.hist| - 1) && Live(s, q);
    if forall k: nat :: Chunk(k) == q ==> k in s.cleared {
      forall p | 0 <= p < BLOCK_SIZE ensures s.blocks[s.hist[q]].flags[p] {
        var k := Base(q) + (BLOCK_SIZE - 1 - p);
        BaseIsStart(q, BLOCK_SIZE - 1 - p);
        assert FlagAt(k) == p;
      }
    }
  }
}
