/** Whole runs of the single-producer single-consumer queue: construction, first-in first-out order,
    emptiness, capacity and size. */
module SpscRun {
  import opened Common
  import opened Spsc
  import opened SpscProof
  import opened PowerOfTwo
  import Arith

  // ---------------------------------------------------------------- masks

  /** `(i + 1) & sizeMask` */
  lemma MaskedSuccessor(i: nat, k: nat)
    requires i < Pow2(k)
    ensures And(i + 1, Pow2(k) - 1) == Succ(i, Pow2(k))
  {
    MaskIsMod(i + 1, k);
    Arith.DivModUnique(i + 1, Pow2(k), if i + 1 == Pow2(k) then 1 else 0, Succ(i, Pow2(k)));
  }

  /** `(b - a) & sizeMask`, with the subtraction wrapping at `w` bits */
  lemma MaskedDistance(a: nat, b: nat, k: nat, w: nat)
    requires a < Pow2(k) <= Pow2(w) && b < Pow2(k) && k <= w
    ensures And(if b >= a then b - a else b - a + Pow2(w), Pow2(k) - 1) == Dist(a, b, Pow2(k))
  {
    hide Pow2, And;
    var x: nat := if b >= a then b - a else b - a + Pow2(w);
    MaskIsMod(x, k);
    PowAdd(w - k, k);
    DistanceMod(Dist(a, b, Pow2(k)), Pow2(w - k), Pow2(k), Pow2(w));
  }

  lemma DistanceMod(d: int, m: int, p: int, n: int)
    requires 0 <= d < p && n == m * p
    ensures d % p == d && (d - p + n) % p == d
  {
    assert d - p + n == d + (m - 1) * p;
    Arith.ModPlusMultiple(d, m - 1, p);
    Arith.DivModUnique(d, p, 0, d);
  }

  // ---------------------------------------------------------------- construction

  predicate Blank(b: Block) {
    b.front == 0 && b.tail == 0 && b.localFront == 0 && b.localTail == 0 && b.size >= 2 && |b.data| == b.size
  }

  /** A queue as constructed: a ring of blank blocks, the front block being the tail block. */
  ghost predicate Initial(s: State) {
    && |s.ring| >= 1 && s.k == 0 && InBlocks(s) && Linked(s) && Distinct(s.ring)
    && (forall b :: b in s.blocks ==> Blank(s.blocks[b]) && s.blocks[b].size <= s.largest)
    && s.frontBlock == s.tailBlock == s.ring[0] && s.largest >= 2
    && s.prod == PIdle && s.cons == CIdle && s.enq == [] && s.deq == []
    && (|s.ring| == 1 ==> Room(s, 1) >= s.maxSize)
    && (|s.ring| > 1 ==> forall j :: 0 <= j < |s.ring| ==> Room(s, |s.ring|) - (Blk(s, j).size - 1) >= s.maxSize)
  }

  lemma InitialInv(s: State)
    requires Initial(s)
    ensures Inv(s)
  {
    hide Linked, Distinct;
    assert Shape(s);
    forall j: nat | j < |s.ring| ensures Count(Blk(s, j)) == 0 {}
    assert Start(s, 1) == Start(s, 0) + Count(Blk(s, 0));
  }

  // ---------------------------------------------------------------- runs

  ghost predicate Run(r: seq<State>, ev: seq<Event>) {
    && |r| == |ev| + 1 && Initial(r[0])
    && forall i {:trigger ev[i]} :: 0 <= i < |ev| ==> Step(r[i], ev[i], r[i + 1])
  }

  lemma {:induction false} RunInvariant(r: seq<State>, ev: seq<Event>, i: nat)
    requires Run(r, ev) && i < |r|
    ensures Inv(r[i]) && Typed(r[i])
  {
    hide Inv, Initial, Typed, ProducerStep, ConsumerStep;
    if i == 0 {
      InitialInv(r[0]);
    } else {
      RunInvariant(r, ev, i - 1);
      StepKeeps(r[i - 1], ev[i - 1], r[i]);
    }
    InvTyped(r[i]);
  }

  /** One step, seen by the callers. */
  lemma StepKeeps(s: State, e: Event, s': State)
    requires Inv(s) && Step(s, e, s')
    ensures Inv(s')
    ensures e.Refused? ==> e.held >= s.maxSize
    ensures e.Missed? ==> e.wasEmpty
    ensures e.Peeked? ==> |s.deq| < |s.enq| && e.v == s.enq[|s.deq|]
    ensures s'.enq == s.enq + (if e.Enqueued? then [e.x] else [])
    ensures s'.deq == s.deq + (if e.Dequeued? then [e.v] else []) && s'.maxSize == s.maxSize
  {
    hide Inv, Typed;
    if ProducerStep(s, e, s') {
      ProducerKeeps(s, e, s');
      ProducerRecords(s, e, s');
    } else {
      ConsumerKeeps(s, e, s');
      ConsumerRecords(s, e, s');
    }
  }

  lemma ProducerRecords(s: State, e: Event, s': State)
    requires Typed(s) && ProducerStep(s, e, s')
    ensures s'.enq == s.enq + (if e.Enqueued? then [e.x] else []) && s'.deq == s.deq && s'.maxSize == s.maxSize
    ensures !e.Dequeued? && !e.Peeked? && !e.Missed? && s'.cons == s.cons
  {
    hide AllOk;
  }

  lemma ConsumerRecords(s: State, e: Event, s': State)
    requires Typed(s) && ConsumerStep(s, e, s')
    ensures s'.deq == s.deq + (if e.Dequeued? then [e.v] else []) && s'.enq == s.enq && s'.maxSize == s.maxSize
    ensures !e.Enqueued? && !e.Refused? && !e.NoMemory? && s'.prod == s.prod
  {
    hide AllOk;
  }

  /** What the enqueue calls that succeeded were given, and what the dequeue calls returned. */
  function Sent(ev: seq<Event>): seq<int> {
    if ev == [] then [] else Sent(ev[..|ev| - 1]) + if ev[|ev| - 1].Enqueued? then [ev[|ev| - 1].x] else []
  }

  function Received(ev: seq<Event>): seq<int> {
    if ev == [] then [] else Received(ev[..|ev| - 1]) + if ev[|ev| - 1].Dequeued? then [ev[|ev| - 1].v] else []
  }

  lemma {:induction false} RecordsAreEvents(r: seq<State>, ev: seq<Event>, i: nat)
    requires Run(r, ev) && i < |r|
    ensures r[i].enq == Sent(ev[..i]) && r[i].deq == Received(ev[..i]) && r[i].maxSize == r[0].maxSize
  {
    hide Inv, Initial, Typed, ProducerStep, ConsumerStep;
    if i == 0 {
      InitialEmpty(r[0]);
    } else {
      RecordsAreEvents(r, ev, i - 1);
      RunInvariant(r, ev, i - 1);
      StepKeeps(r[i - 1], ev[i - 1], r[i]);
      assert ev[..i][..i - 1] == ev[..i - 1];
    }
  }

  lemma InitialEmpty(s: State)
    requires Initial(s)
    ensures s.enq == [] && s.deq == []
  {}

  lemma InvPrefix(s: State)
    requires Inv(s)
    ensures s.deq <= s.enq
  {}

  /** First in, first out, over every interleaving: at any moment what has come out is a beginning
      of what has gone in; the next element out, or shown by peek, is the next one of it. */
  lemma FirstInFirstOut(r: seq<State>, ev: seq<Event>, i: nat)
    requires Run(r, ev) && i < |ev|
    ensures Received(ev[..i]) <= Sent(ev[..i])
    ensures ev[i].Dequeued? || ev[i].Peeked? ==>
      |Received(ev[..i])| < |Sent(ev[..i])| && ev[i].v == Sent(ev[..i])[|Received(ev[..i])|]
  {
    hide Inv, Initial, Typed, ProducerStep, ConsumerStep, Sent, Received;
    RunInvariant(r, ev, i);
    RunInvariant(r, ev, i + 1);
    RecordsAreEvents(r, ev, i);
    StepKeeps(r[i], ev[i], r[i + 1]);
    InvPrefix(r[i]);
    InvPrefix(r[i + 1]);
    if ev[i].Dequeued? {
      ConsumerAlone(r[i], ev[i], r[i + 1]);
      assert r[i + 1].deq[|r[i].deq|] == ev[i].v;
    }
  }

  lemma ConsumerAlone(s: State, e: Event, s': State)
    requires Step(s, e, s') && e.Dequeued?
    ensures s'.enq == s.enq
  {
    hide AllOk;
  }

  /** A dequeue, pop or peek that finds nothing: at its first look at the tail of the front block,
      everything sent had been received. */
  lemma MissedWhenEmpty(r: seq<State>, ev: seq<Event>, i: nat) returns (j: nat)
    requires Run(r, ev) && i < |ev| && ev[i].Missed?
    ensures j < i && r[j].cons.CLoadTail? && forall m :: j < m <= i ==> r[m].cons == r[i].cons
    ensures Sent(ev[..j]) == Received(ev[..j])
  {
    hide Inv, Initial, Typed, ProducerStep, ConsumerStep, Sent, Received;
    RunInvariant(r, ev, i);
    StepKeeps(r[i], ev[i], r[i + 1]);
    MissedPc(r[i], ev[i], r[i + 1]);
    j := LookedAtTail(r, ev, i);
    RecordsAreEvents(r, ev, j);
    RunInvariant(r, ev, j);
    InvPrefix(r[j]);
  }

  lemma MissedPc(s: State, e: Event, s': State)
    requires Step(s, e, s') && e.Missed?
    ensures s.cons.CLoadTailBlock? && s.cons.wasEmpty == e.wasEmpty
  {
    hide AllOk;
  }

  lemma {:induction false} LookedAtTail(r: seq<State>, ev: seq<Event>, i: nat) returns (j: nat)
    requires Run(r, ev) && i < |r| && r[i].cons.CLoadTailBlock?
    ensures j < i && r[j].cons.CLoadTail? && forall m :: j < m <= i ==> r[m].cons == r[i].cons
    ensures r[i].cons.wasEmpty == (|r[j].enq| == |r[j].deq|)
  {
    hide Inv, Initial, Typed, ProducerStep, ConsumerStep;
    InitialIdle(r[0]);
    LookStep(r[i - 1], ev[i - 1], r[i]);
    if r[i - 1].cons == r[i].cons {
      j := LookedAtTail(r, ev, i - 1);
    } else {
      j := i - 1;
    }
  }

  lemma InitialIdle(s: State)
    requires Initial(s)
    ensures s.prod.PIdle? && s.cons.CIdle?
  {}

  lemma LookStep(s: State, e: Event, s': State)
    requires Step(s, e, s') && s'.cons.CLoadTailBlock?
    ensures s.cons == s'.cons || (s.cons.CLoadTail? && s'.cons.wasEmpty == (|s.enq| == |s.deq|))
  {
    hide AllOk;
  }

  /** An enqueue that may not allocate fails only if, when it looked at the front of its block, the
      queue held at least as many elements as it was constructed for. */
  lemma RefusedWhenFull(r: seq<State>, ev: seq<Event>, i: nat) returns (j: nat)
    requires Run(r, ev) && i < |ev| && ev[i].Refused?
    ensures j < i && r[j].prod.PLoadFront? && forall m :: j < m <= i ==> r[m].prod == r[i].prod
    ensures |Sent(ev[..j])| - |Received(ev[..j])| >= r[0].maxSize
  {
    hide Inv, Initial, Typed, ProducerStep, ConsumerStep, Sent, Received;
    RunInvariant(r, ev, i);
    StepKeeps(r[i], ev[i], r[i + 1]);
    RefusedPc(r[i], ev[i], r[i + 1]);
    j := LookedAtFront(r, ev, i);
    RecordsAreEvents(r, ev, j);
    RecordsAreEvents(r, ev, i);
  }

  lemma RefusedPc(s: State, e: Event, s': State)
    requires Step(s, e, s') && e.Refused?
    ensures s.prod.PLoadFrontBlock? && s.prod.held == e.held && !s.prod.can
  {
    hide AllOk;
  }

  lemma {:induction false} LookedAtFront(r: seq<State>, ev: seq<Event>, i: nat) returns (j: nat)
    requires Run(r, ev) && i < |r| && r[i].prod.PLoadFrontBlock?
    ensures j < i && r[j].prod.PLoadFront? && forall m :: j < m <= i ==> r[m].prod == r[i].prod
    ensures r[i].prod.held == |r[j].enq| - |r[j].deq|
  {
    hide Inv, Initial, Typed, ProducerStep, ConsumerStep;
    InitialIdle(r[0]);
    FrontLookStep(r[i - 1], ev[i - 1], r[i]);
    if r[i - 1].prod == r[i].prod {
      j := LookedAtFront(r, ev, i - 1);
    } else {
      j := i - 1;
    }
  }

  lemma FrontLookStep(s: State, e: Event, s': State)
    requires Step(s, e, s') && s'.prod.PLoadFrontBlock?
    ensures s.prod == s'.prod || (s.prod.PLoadFront? && s'.prod.held == |s.enq| - |s.deq|)
  {
    hide AllOk;
  }

  /** The asserts of both sides hold, and no side ever reads a slot without an element. */
  lemma AssertsHold(r: seq<State>, ev: seq<Event>, i: nat)
    requires Run(r, ev) && i < |r|
    ensures var s := r[i];
      && (s.prod.PNextFront? ==> s.prod.b in s.blocks && s.blocks[s.prod.b].front == s.blocks[s.prod.b].tail)
      && (s.cons.CNextTail? || s.cons.CPeekNext? ==> s.cons.b in s.blocks && s.blocks[s.cons.b].front != s.blocks[s.cons.b].tail)
      && (s.cons.CTake? ==> s.frontBlock in s.blocks && var f := s.blocks[s.frontBlock]; f.front < |f.data| && f.data[f.front].Full?)
      && (s.cons.CPeekNext? ==> var n := s.blocks[s.cons.b]; n.front < |n.data| && n.data[n.front].Full?)
  {
    hide Inv, Initial, Typed, ProducerStep, ConsumerStep;
    RunInvariant(r, ev, i);
    var s := r[i];
    InvPlaces(s);
    if s.prod.PNextFront? { NextIsEmpty(s); }
    if s.cons.CNextTail? || s.cons.CPeekNext? {
      NextHasElement(s);
      OkAt(s, 1);
    }
    OkAt(s, 0);
    FirstElement(s);
  }

  /** The shape of the ring: blocks after the front up to the tail hold elements, blocks after the
      tail up to the front hold none (but for the one being published), and in every block the
      indices stay in circular order. */
  lemma RingShape(r: seq<State>, ev: seq<Event>, i: nat, j: nat)
    requires Run(r, ev) && i < |r| && j < |r[i].ring|
    ensures Shape(r[i]) && r[i].frontBlock == r[i].ring[0] && r[i].tailBlock == r[i].ring[r[i].k]
    ensures Blk(r[i], j).next == r[i].ring[if j + 1 < |r[i].ring| then j + 1 else 0]
    ensures 0 < j <= r[i].k ==> Count(Blk(r[i], j)) > 0
    ensures r[i].k < j ==> Count(Blk(r[i], j)) == if r[i].prod.PPublish? && j == r[i].k + 1 then 1 else 0
    ensures var b := Blk(r[i], j);
      0 <= Dist(b.front, b.localTail, b.size) <= Count(b) <= Dist(b.localFront, b.tail, b.size) < b.size
  {
    hide Inv, Initial, Typed, ProducerStep, ConsumerStep;
    RunInvariant(r, ev, i);
    InvShape(r[i], j);
  }

  lemma InvShape(s: State, j: nat)
    requires Inv(s) && j < |s.ring|
    ensures Shape(s) && s.frontBlock == s.ring[0] && s.tailBlock == s.ring[s.k]
    ensures Blk(s, j).next == s.ring[if j + 1 < |s.ring| then j + 1 else 0]
    ensures 0 < j <= s.k ==> Count(Blk(s, j)) > 0
    ensures s.k < j ==> Count(Blk(s, j)) == if s.prod.PPublish? && j == s.k + 1 then 1 else 0
    ensures BlockOk(Blk(s, j)) && Count(Blk(s, j)) >= 0
  {
    hide DataOk, CapOk, ConsumerOk, ProducerOk, Count, AllOk, BlockOk, Distinct;
    OkAt(s, j);
  }
}
