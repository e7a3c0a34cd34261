/** Every step of the explicit producer keeps its invariant; what consumers receive follows. */
module ExplicitProducerProof {
  import opened Common
  import opened Chunks
  import opened ExplicitProducer
  import Q = DequeueCounters
  import Arith

  // ---------------------------------------------------------------- consequences of the invariant

  /** Published indices lie in chunks that are entered in the index and behind its front. */
  lemma PublishedChunk(s: Mem, i: nat)
    requires RingOk(s) && s.c.tail >= 0 && PhaseOk(s) && i < s.c.tail
    ensures Chunk(i) < |s.hist| && Chunk(i) < Entered(s) && Chunk(i) < Fronted(s)
  {
    BelowBase(i, |s.hist|);
    if |s.hist| > 0 { BelowBase(i, |s.hist| - 1); }
    ChunkMonotone(i, s.c.tail);
  }

  /** The block of an element that is not completely dequeued has not been reused. */
  lemma PendingIsLive(s: Mem, i: nat)
    requires Core(s) && i < s.c.head && i !in s.cleared
    ensures Live(s, Chunk(i)) && i < s.c.tail == |s.items|
  {
    Q.HeadBelowTail(s.c);
    PublishedChunk(s, i);
  }

  lemma UntakenIsLive(s: Mem, i: nat)
    requires Core(s) && i < s.c.head && i !in s.taken
    ensures i !in s.cleared && Live(s, Chunk(i)) && i < s.c.tail == |s.items|
  {
    PendingIsLive(s, i);
  }

  lemma CoreTyped(s: Mem)
    requires Core(s)
    ensures Typed(s)
  {
    if s.prod.PIdle? && s.hist == [] { BaseIsStart(0, 0); }
  }

  lemma ReaderOkTyped(s: Mem, rd: Reader)
    requires Core(s) && ReaderOk(s, rd)
    ensures ReaderTyped(s, rd)
  {
    if rd.RTake? { PendingIsLive(s, rd.i); }
    if rd.RClear? { PendingIsLive(s, rd.from); }
  }

  // ---------------------------------------------------------------- reader steps without effect

  lemma HeaderLoadOk(s: Mem, rd: Reader)
    requires Core(s) && Typed(s) && ReaderOk(s, rd) && rd.RHeader?
    ensures ReaderOk(s, HeaderLoaded(s, rd))
  {
    hide RingOk, DataOk, PhaseOk, Q.Inv;
    LastPublished(s, rd.first, rd.len);
  }

  lemma LastPublished(s: Mem, first: nat, len: nat)
    requires Core(s) && RangeOk(s, first, len)
    ensures Chunk(first + len - 1) < Entered(s) && Chunk(first + len - 1) < Fronted(s)
  {
    hide RingOk, DataOk, IndexOk, PhaseOk;
    Q.HeadBelowTail(s.c);
    PublishedChunk(s, first + len - 1);
  }

  /** The front of any header that covers a claim points at the claim's chunk or a later one. */
  lemma FrontCovers(s: Mem, h: nat, first: nat, len: nat)
    requires Core(s) && RangeOk(s, first, len) && Covered(s, h, first, len)
    ensures var f := s.headers[h].frontChunk;
            Chunk(first + len - 1) <= f < s.headers[h].hi && s.headers[h].front >= 0 && Placed(s, h, s.headers[h].front, f)
  {
    hide RingOk, DataOk, PhaseOk, Q.Inv;
    assert HeaderOk(s, s.headers[h]);
    LastPublished(s, first, len);
  }

  lemma FrontLoadOk(s: Mem, rd: Reader)
    requires Typed(s) && ReaderTyped(s, rd) && ReaderOk(s, rd) && rd.RFront? && Core(s)
    ensures ReaderOk(s, FrontLoaded(s, rd))
  {
    hide Core;
    FrontCovers(s, rd.h, rd.first, rd.len);
  }

  /** The entry the front points at is intact, although the producer may have moved on. */
  lemma BaseFacts(s: Mem, rd: Reader)
    requires Core(s) && ReaderTyped(s, rd) && ReaderOk(s, rd) && rd.RBase?
    ensures Chunk(rd.first) <= rd.frontChunk
    ensures rd.front < |s.headers[rd.h].entries| && s.headers[rd.h].entries[rd.front].base == Base(rd.frontChunk)
  {
    hide Core;
    UntakenIsLive(s, rd.first);
    ChunkMonotone(rd.first, rd.first + rd.len - 1);
    FrontEntry(s, rd.h, rd.frontChunk);
  }

  /** Reading the front's base and stepping back by whole blocks lands on the slot of the claim. */
  lemma BaseLoadOk(s: Mem, rd: Reader)
    requires Typed(s) && ReaderTyped(s, rd) && ReaderOk(s, rd) && rd.RBase?
    requires Chunk(rd.first) <= rd.frontChunk && s.headers[rd.h].entries[rd.front].base == Base(rd.frontChunk)
    ensures ReaderOk(s, BaseLoaded(s, rd))
  {
    var h := s.headers[rd.h];
    BaseDifference(Chunk(rd.first), rd.frontChunk);
    Arith.WrapAdd(rd.frontChunk - h.lo, Chunk(rd.first) - rd.frontChunk, h.size);
  }

  lemma FrontEntry(s: Mem, h: nat, q: nat)
    requires Core(s) && h < |s.headers| && Oldest(s) <= q < s.headers[h].hi
    ensures s.headers[h].size == |s.headers[h].entries| >= 1 && Live(s, q)
    ensures s.headers[h].entries[Arith.Wrap(q - s.headers[h].lo, s.headers[h].size)] == Entry(Base(q), s.hist[q])
  {
    hide RingOk, PhaseOk, DataOk, Q.Inv;
    assert HeaderOk(s, s.headers[h]);
  }

  lemma BaseDifference(p: nat, q: nat)
    requires p <= q
    ensures (Base(p) - Base(q)) / BLOCK_SIZE == p - q
  {
    BaseProduct(p);
    BaseProduct(q);
    assert Base(p) - Base(q) == (p - q) * BLOCK_SIZE;
    Arith.DivModUnique(Base(p) - Base(q), BLOCK_SIZE, p - q, 0);
  }

  lemma {:induction false} BaseProduct(q: nat)
    ensures Base(q) == q * BLOCK_SIZE
  {
    if q > 0 {
      BaseProduct(q - 1);
      assert q * BLOCK_SIZE == (q - 1) * BLOCK_SIZE + BLOCK_SIZE;
    }
  }

  lemma BlockLoadOk(s: Mem, rd: Reader)
    requires Core(s) && Typed(s) && ReaderTyped(s, rd) && ReaderOk(s, rd) && rd.RBlock?
    ensures ReaderOk(s, BlockLoaded(s, rd))
  {
    hide Core;
    UntakenIsLive(s, rd.i);
    ChunkMonotone(rd.i, rd.first + rd.len - 1);
    FrontEntry(s, rd.h, Chunk(rd.i));
  }

  // ---------------------------------------------------------------- taking an element

  /** The next element of a claim is still in its cell, whole. */
  lemma CellIsFull(s: Mem, i: nat)
    requires Core(s) && i < s.c.head && i !in s.taken
    ensures i < |s.items| && Live(s, Chunk(i)) && BlockTyped(s, s.hist[Chunk(i)])
    ensures s.blocks[s.hist[Chunk(i)]].cells[Off(i)] == Full(s.items[i])
  {
    hide PhaseOk, IndexOk, Q.Inv;
    UntakenIsLive(s, i);
  }

  lemma TakeRing(s: Mem, rd: Reader)
    requires Typed(s) && ReaderTyped(s, rd) && rd.RTake? && RingOk(s)
    ensures RingOk(TakenFrom(s, rd))
  {
    var s' := TakenFrom(s, rd);
    assert forall b :: b in s.blocks ==> s'.blocks[b].next == s.blocks[b].next && |s'.blocks[b].cells| == |s.blocks[b].cells|
                                         && s'.blocks[b].flags == s.blocks[b].flags;
    assert forall q: nat :: Live(s, q) <==> Live(s', q);
  }

  lemma TakePhase(s: Mem, rd: Reader)
    requires Typed(s) && ReaderTyped(s, rd) && rd.RTake? && s.c.tail >= 0
    requires RingOk(s) && PhaseOk(s) && RingOk(TakenFrom(s, rd))
    requires Live(s, Chunk(rd.i)) && rd.b == s.hist[Chunk(rd.i)] && rd.i < s.c.tail
    ensures PhaseOk(TakenFrom(s, rd))
  {
    hide Chunk, Base, Off;
    if s.prod.PTail? && rd.b == s.tailBlock {
      assert Live(s, |s.hist| - 1);
      if Off(rd.i) == Off(s.c.tail) { ChunkOffInjective(rd.i, s.c.tail); }
    }
  }

  lemma TakeIndex(s: Mem, s': Mem)
    requires IndexOk(s) && s' == s.(blocks := s'.blocks, taken := s'.taken, cleared := s'.cleared)
    ensures IndexOk(s')
  {
    forall h | 0 <= h < |s'.headers| ensures HeaderOk(s', s'.headers[h]) {
      SameHeader(s, s', s.headers[h]);
    }
  }

  /** Headers depend on the chunks only. */
  lemma SameHeader(s: Mem, s': Mem, h: Header)
    requires HeaderOk(s, h) && s'.hist == s.hist && s'.slotsUsed == s.slotsUsed
    ensures HeaderOk(s', h)
  {
    assert forall q: nat :: Live(s', q) <==> Live(s, q);
  }

  lemma TakeData(s: Mem, rd: Reader)
    requires Typed(s) && ReaderTyped(s, rd) && rd.RTake? && s.c.tail >= 0
    requires RingOk(s) && DataOk(s) && RingOk(TakenFrom(s, rd))
    requires Live(s, Chunk(rd.i)) && rd.b == s.hist[Chunk(rd.i)] && rd.i < s.c.head
    ensures DataOk(TakenFrom(s, rd))
  {
    hide Chunk, Off;
    var s' := TakenFrom(s, rd);
    forall i: nat | i < s'.c.tail && Live(s', Chunk(i)) && i !in s'.taken
      ensures s'.blocks[s'.hist[Chunk(i)]].cells[Off(i)] == Full(s'.items[i])
    {
      assert Live(s, Chunk(i)) && i !in s.taken;
      if s.hist[Chunk(i)] == rd.b && Off(i) == Off(rd.i) { ChunkOffInjective(i, rd.i); }
    }
    forall i: nat | Live(s', Chunk(i))
      ensures s'.blocks[s'.hist[Chunk(i)]].flags[FlagAt(i)] == (i in s'.cleared)
    {
      assert Live(s, Chunk(i));
    }
  }

  lemma TakeCore(s: Mem, rd: Reader)
    requires Core(s) && Typed(s) && ReaderTyped(s, rd) && ReaderOk(s, rd) && rd.RTake?
    ensures Core(TakenFrom(s, rd))
  {
    hide RingOk, PhaseOk, IndexOk, DataOk, Q.Inv;
    CellIsFull(s, rd.i);
    UntakenIsLive(s, rd.i);
    TailNotNegative(s);
    TakeRing(s, rd);
    TakePhase(s, rd);
    TakeIndex(s, TakenFrom(s, rd));
    TakeData(s, rd);
  }

  lemma TailNotNegative(s: Mem)
    requires Core(s)
    ensures s.c.tail >= 0
  {}

  lemma TakeReader(s: Mem, rd: Reader)
    requires Typed(s) && ReaderTyped(s, rd) && ReaderOk(s, rd) && rd.RTake?
    requires s.cleared <= s.taken && rd.i < |s.items|
    ensures ReaderOk(TakenFrom(s, rd), AfterTake(rd, s.items[rd.i]))
  {
    ChunkNext(rd.i);
    assert s.items[rd.first..rd.i + 1] == s.items[rd.first..rd.i] + [s.items[rd.i]];
  }

  // ---------------------------------------------------------------- marking an element as gone

  lemma FlagRing(s: Mem, rd: Reader)
    requires Typed(s) && ReaderTyped(s, rd) && rd.RClear? && RingOk(s)
    ensures RingOk(FlagSet(s, rd))
  {
    var s' := FlagSet(s, rd);
    assert forall b :: b in s.blocks ==> s'.blocks[b].next == s.blocks[b].next && s'.blocks[b].cells == s.blocks[b].cells
                                         && |s'.blocks[b].flags| == |s.blocks[b].flags|;
    assert forall q: nat :: Live(s, q) <==> Live(s', q);
  }

  /** Flags only ever go up while a scan is on, so what the producer has seen stays true. */
  lemma FlagPhase(s: Mem, rd: Reader)
    requires Typed(s) && ReaderTyped(s, rd) && rd.RClear? && s.c.tail >= 0
    requires RingOk(s) && PhaseOk(s) && RingOk(FlagSet(s, rd))
    ensures PhaseOk(FlagSet(s, rd))
  {
    hide Chunk, Base, Off;
    var s' := FlagSet(s, rd);
    assert forall b :: b in s.blocks ==> s'.blocks[b].cells == s.blocks[b].cells;
    assert forall b, p :: b in s.blocks && 0 <= p < |s.blocks[b].flags| && s.blocks[b].flags[p] ==>
             p < |s'.blocks[b].flags| && s'.blocks[b].flags[p];
  }

  lemma FlagData(s: Mem, rd: Reader)
    requires Typed(s) && ReaderTyped(s, rd) && rd.RClear? && s.c.tail >= 0
    requires RingOk(s) && DataOk(s) && RingOk(FlagSet(s, rd))
    requires Live(s, Chunk(rd.j - 1)) && rd.b == s.hist[Chunk(rd.j - 1)] && rd.j - 1 in s.taken
    ensures DataOk(FlagSet(s, rd))
  {
    hide Chunk, Off;
    var s' := FlagSet(s, rd);
    forall i: nat | Live(s', Chunk(i))
      ensures s'.blocks[s'.hist[Chunk(i)]].flags[FlagAt(i)] == (i in s'.cleared)
    {
      assert Live(s, Chunk(i));
      if s.hist[Chunk(i)] == rd.b && FlagAt(i) == FlagAt(rd.j - 1) { ChunkOffInjective(i, rd.j - 1); }
    }
    forall i: nat | i < s'.c.tail && Live(s', Chunk(i)) && i !in s'.taken
      ensures s'.blocks[s'.hist[Chunk(i)]].cells[Off(i)] == Full(s'.items[i])
    {
      assert Live(s, Chunk(i));
    }
  }

  lemma SameBlock(rd: Reader)
    requires rd.RClear? && rd.from < rd.j <= rd.i && Chunk(rd.from) == Chunk(rd.i - 1)
    ensures Chunk(rd.j - 1) == Chunk(rd.from)
  {
    ChunkMonotone(rd.from, rd.j - 1);
    ChunkMonotone(rd.j - 1, rd.i - 1);
  }

  lemma FlagCore(s: Mem, rd: Reader)
    requires Core(s) && Typed(s) && ReaderTyped(s, rd) && ReaderOk(s, rd) && rd.RClear?
    ensures Core(FlagSet(s, rd))
  {
    hide RingOk, PhaseOk, IndexOk, DataOk, Q.Inv;
    SameBlock(rd);
    PendingIsLive(s, rd.j - 1);
    TailNotNegative(s);
    FlagRing(s, rd);
    FlagPhase(s, rd);
    TakeIndex(s, FlagSet(s, rd));
    FlagData(s, rd);
  }

  lemma FlagReader(s: Mem, rd: Reader)
    requires Typed(s) && ReaderTyped(s, rd) && ReaderOk(s, rd) && rd.RClear?
    ensures ReaderOk(FlagSet(s, rd), AfterFlag(s, rd))
  {
    SameBlock(rd);
    var h := s.headers[rd.h];
    Arith.WrapAdd(Chunk(rd.from) - h.lo, 1, h.size);
  }

  // ---------------------------------------------------------------- producer: deciding what to do

  predicate Between(p: Producer) { !p.PEntry? && !p.PFront? }

  /** Changing the program counter alone, outside the index update, leaves memory as it was. */
  lemma ProdOnly(s: Mem, s': Mem)
    requires s' == s.(prod := s'.prod) && Between(s.prod) && Between(s'.prod) && s.c.tail >= 0
    requires RingOk(s) && IndexOk(s) && DataOk(s)
    ensures RingOk(s') && IndexOk(s') && DataOk(s')
  {
    assert forall q: nat :: Live(s', q) <==> Live(s, q);
    forall h | 0 <= h < |s'.headers| ensures HeaderOk(s', s'.headers[h]) { SameHeader(s, s', s.headers[h]); }
  }

  lemma DecidePhase(s: Mem, e: Event, s': Mem)
    requires Typed(s) && ProducerStep(s, e, s') && s' == s.(prod := s'.prod) && RingOk(s) && RingOk(s') && PhaseOk(s)
    requires s.prod.PIdle? || s.prod.PScan? || s.prod.PGrow? || s.prod.PBlock?
    ensures PhaseOk(s') && Between(s.prod) && Between(s'.prod)
  {
    hide Base;
    BaseIsStart(|s.hist|, 0);
    assert s.hist != [] ==> Live(s, |s.hist| - 1);
  }

  lemma DecideCore(s: Mem, e: Event, s': Mem)
    requires Core(s) && Typed(s) && ProducerStep(s, e, s') && s' == s.(prod := s'.prod)
    requires s.prod.PIdle? || s.prod.PScan? || s.prod.PGrow? || s.prod.PBlock?
    ensures Core(s')
  {
    hide RingOk, PhaseOk, IndexOk, DataOk, Q.Inv;
    TailNotNegative(s);
    assert Between(s.prod) && Between(s'.prod);
    ProdOnly(s, s');
    DecidePhase(s, e, s');
  }

  // ---------------------------------------------------------------- producer: reusing the oldest block

  lemma ReuseRing(s: Mem, e: Event, s': Mem)
    requires Typed(s) && ProducerStep(s, e, s') && s.prod.PReuse? && RingOk(s) && PhaseOk(s)
    ensures RingOk(s') && Oldest(s') == Oldest(s) + 1 && PhaseOk(s')
    ensures forall q: nat :: Live(s', q) ==> q == |s.hist| || (Live(s, q) && q != Oldest(s) && s'.hist[q] == s.hist[q] && s.hist[q] != s.prod.b)
  {
    var b, n := s.prod.b, |s.hist|;
    assert Live(s, Oldest(s)) && Live(s, n - 1);
    forall q: nat | Live(s', q)
      ensures BlockTyped(s', s'.hist[q]) && s'.blocks[s'.hist[q]].next == s'.hist[if q == n then Oldest(s') else q + 1]
    {
      if q < n { assert Live(s, q); }
    }
  }

  lemma ReuseIndex(s: Mem, s': Mem)
    requires IndexOk(s) && s.hist != [] && s.prod.PReuse? && s'.prod.PEntry?
    requires s'.headers == s.headers && s'.prFront == s.prFront && s'.slotsUsed == s.slotsUsed
    requires |s'.hist| == |s.hist| + 1 && s.hist <= s'.hist
    ensures IndexOk(s')
  {
    forall h | 0 <= h < |s'.headers| ensures HeaderOk(s', s'.headers[h]) { LaterHeader(s, s', s.headers[h]); }
  }

  /** Starting a new chunk does not disturb what a header knows about the older ones. */
  lemma LaterHeader(s: Mem, s': Mem, h: Header)
    requires HeaderOk(s, h) && s.hist <= s'.hist && Oldest(s) <= Oldest(s')
    ensures HeaderOk(s', h)
  {
    forall q: nat | Live(s', q) && q < h.hi
      ensures h.entries[Arith.Wrap(q - h.lo, h.size)] == Entry(Base(q), s'.hist[q])
    {
      assert Live(s, q);
    }
  }

  /** A block that passed the scan had lost all its elements, so nothing that is still wanted is lost. */
  lemma ReuseData(s: Mem, e: Event, s': Mem)
    requires Typed(s) && ProducerStep(s, e, s') && s.prod.PReuse? && RingOk(s) && PhaseOk(s) && DataOk(s)
    requires RingOk(s') && Oldest(s') == Oldest(s) + 1 && s.c.head <= s.c.tail
    requires forall q: nat :: Live(s', q) ==> q == |s.hist| || (Live(s, q) && q != Oldest(s) && s'.hist[q] == s.hist[q] && s.hist[q] != s.prod.b)
    ensures DataOk(s')
  {
    forall i: nat | i < s'.c.tail && Chunk(i) < Oldest(s') ensures i in s'.cleared {
      if Chunk(i) == Oldest(s) { assert Live(s, Chunk(i)); }
    }
    forall i: nat | Live(s', Chunk(i))
      ensures s'.blocks[s'.hist[Chunk(i)]].flags[FlagAt(i)] == (i in s'.cleared)
    {
      if Chunk(i) == |s.hist| { BelowBase(i, |s.hist|); }
    }
    forall i: nat | i < s'.c.tail && Live(s', Chunk(i)) && i !in s'.taken
      ensures s'.blocks[s'.hist[Chunk(i)]].cells[Off(i)] == Full(s'.items[i])
    {
      BelowBase(i, |s.hist|);
    }
  }

  lemma ReuseCore(s: Mem, e: Event, s': Mem)
    requires Core(s) && Typed(s) && ProducerStep(s, e, s') && s.prod.PReuse?
    ensures Core(s')
  {
    hide RingOk, IndexOk, DataOk, Q.Inv;
    TailNotNegative(s);
    Q.HeadBelowTail(s.c);
    ReuseRing(s, e, s');
    ReuseIndex(s, s');
    ReuseData(s, e, s');
  }

  // ---------------------------------------------------------------- producer: doubling the index

  lemma DoubledHeader(s: Mem)
    requires Typed(s) && IndexOk(s) && s.prod.PGrow? && s.slotsUsed == Current(s).size <= |s.hist|
    ensures HeaderOk(s, Doubled(Current(s), s.prFront, s.slotsUsed, |s.hist|))
  {
    hide Base;
    var h, n, used := Current(s), |s.hist|, s.slotsUsed;
    var d := Doubled(h, s.prFront, used, n);
    assert HeaderOk(s, h);
    forall q: nat | Live(s, q) && q < d.hi
      ensures d.entries[Arith.Wrap(q - d.lo, d.size)] == Entry(Base(q), s.hist[q])
    {
      Arith.WrapAdd(n - h.lo, q - n, h.size);
    }
  }

  lemma GrowCore(s: Mem, e: Event, s': Mem)
    requires Core(s) && Typed(s) && ProducerStep(s, e, s') && s.prod.PGrow? && s'.headers != s.headers
    ensures Core(s')
  {
    hide DataOk, Q.Inv, IndexOk, PhaseOk, RingOk, ProducerStep;
    TailNotNegative(s);
    GrowEffect(s, e, s');
    GrowData(s, s');
    GrowIndex(s, s');
    GrowPhase(s, s');
  }

  /** The effect of doubling the index. */
  ghost predicate Grew(s: Mem, s': Mem)
    requires Typed(s)
  {
    && s.prod.PGrow? && s'.prod.PBlock? && s.slotsUsed == Current(s).size <= |s.hist|
    && s' == s.(headers := s.headers + [Doubled(Current(s), s.prFront, s.slotsUsed, |s.hist|)], prFront := s.slotsUsed, prod := s'.prod)
  }

  lemma GrowEffect(s: Mem, e: Event, s': Mem)
    requires Typed(s) && IndexOk(s) && ProducerStep(s, e, s') && s.prod.PGrow? && s'.headers != s.headers
    ensures Grew(s, s')
  {
    hide HeaderOk, Doubled;
  }

  lemma GrowIndex(s: Mem, s': Mem)
    requires Typed(s) && IndexOk(s) && Grew(s, s')
    ensures IndexOk(s')
  {
    hide HeaderOk;
    DoubledHeader(s);
    forall h | 0 <= h < |s'.headers| ensures HeaderOk(s', s'.headers[h]) { SameHeader(s, s', s'.headers[h]); }
  }

  lemma GrowPhase(s: Mem, s': Mem)
    requires Typed(s) && RingOk(s) && s.c.tail >= 0 && PhaseOk(s) && Grew(s, s') && RingOk(s')
    ensures PhaseOk(s')
  {
    hide RingOk, Base;
  }

  lemma GrowData(s: Mem, s': Mem)
    requires RingOk(s) && s.c.tail >= 0 && DataOk(s)
    requires s' == s.(headers := s'.headers, prFront := s'.prFront, prod := s'.prod)
    ensures RingOk(s') && DataOk(s')
  {
    assert forall q: nat :: Live(s', q) <==> Live(s, q);
  }

  // ---------------------------------------------------------------- producer: linking a new block

  lemma LinkRing(s: Mem, b: BlockId, x: int)
    requires Typed(s) && RingOk(s) && b !in s.blocks && s.prod.PBlock? && PhaseOk(s)
    ensures RingOk(Linked(s, b, x)) && Oldest(Linked(s, b, x)) == Oldest(s) && PhaseOk(Linked(s, b, x))
    ensures forall q: nat :: Live(Linked(s, b, x), q) ==> q == |s.hist| || (Live(s, q) && s.hist[q] != b)
  {
    var s', n := Linked(s, b, x), |s.hist|;
    assert n > 0 ==> Live(s, n - 1) && Live(s, Oldest(s));
    forall q: nat | Live(s', q)
      ensures BlockTyped(s', s'.hist[q]) && s'.blocks[s'.hist[q]].next == s'.hist[if q == n then Oldest(s') else q + 1]
    {
      if q < n { assert Live(s, q); }
    }
    forall p: nat, q: nat | Live(s', p) && Live(s', q) && s'.hist[p] == s'.hist[q] ensures p == q {
      if p < n { assert Live(s, p); }
      if q < n { assert Live(s, q); }
    }
  }

  lemma LinkIndex(s: Mem, b: BlockId, x: int)
    requires Typed(s) && IndexOk(s) && s.prod.PBlock? && s.slotsUsed < Current(s).size
    ensures IndexOk(Linked(s, b, x))
  {
    var s' := Linked(s, b, x);
    forall h | 0 <= h < |s'.headers| ensures HeaderOk(s', s'.headers[h]) { LaterHeader(s, s', s.headers[h]); }
  }

  lemma LinkData(s: Mem, b: BlockId, x: int)
    requires Typed(s) && RingOk(s) && DataOk(s) && b !in s.blocks && s.c.tail == Base(|s.hist|) && s.c.head <= s.c.tail
    requires RingOk(Linked(s, b, x)) && Oldest(Linked(s, b, x)) == Oldest(s)
    requires forall q: nat :: Live(Linked(s, b, x), q) ==> q == |s.hist| || (Live(s, q) && s.hist[q] != b)
    ensures DataOk(Linked(s, b, x))
  {
    var s' := Linked(s, b, x);
    assert forall c :: c in s.blocks && c != b ==> s'.blocks[c].cells == s.blocks[c].cells && s'.blocks[c].flags == s.blocks[c].flags;
    forall i: nat | Live(s', Chunk(i))
      ensures s'.blocks[s'.hist[Chunk(i)]].flags[FlagAt(i)] == (i in s'.cleared)
    {
      if Chunk(i) == |s.hist| { BelowBase(i, |s.hist|); }
    }
    forall i: nat | i < s'.c.tail && Live(s', Chunk(i)) && i !in s'.taken
      ensures s'.blocks[s'.hist[Chunk(i)]].cells[Off(i)] == Full(s'.items[i])
    {
      BelowBase(i, |s.hist|);
    }
  }

  lemma LinkCore(s: Mem, b: BlockId, x: int)
    requires Core(s) && Typed(s) && s.prod.PBlock? && b !in s.blocks
    ensures Core(Linked(s, b, x))
  {
    hide RingOk, IndexOk, DataOk, Q.Inv;
    TailNotNegative(s);
    Q.HeadBelowTail(s.c);
    LinkRing(s, b, x);
    LinkIndex(s, b, x);
    LinkData(s, b, x);
  }

  // ---------------------------------------------------------------- producer: publishing the chunk

  /** The slot written is not the slot of any other live chunk, even when the index is full. */
  lemma EntryHeader(s: Mem, h: Header)
    requires HeaderOk(s, h) && s.hist != [] && s.tailBlock == s.hist[|s.hist| - 1] && s.c.tail == Base(|s.hist| - 1)
    requires s.slotsUsed <= h.size && h.hi == |s.hist| - 1 && s.prFront == Arith.Wrap(|s.hist| - 1 - h.lo, h.size)
    ensures HeaderOk(s, h.(entries := h.entries[s.prFront := Entry(s.c.tail, s.tailBlock)], hi := h.hi + 1))
  {
    hide Arith.Wrap, Base;
    var n := |s.hist|;
    var h' := h.(entries := h.entries[s.prFront := Entry(s.c.tail, s.tailBlock)], hi := h.hi + 1);
    forall q: nat | Live(s, q) && q < h'.hi
      ensures h'.entries[Arith.Wrap(q - h.lo, h.size)] == Entry(Base(q), s.hist[q])
    {
      if q < n - 1 && Arith.Wrap(q - h.lo, h.size) == s.prFront {
        Arith.WrapInjective(q - h.lo, n - 1 - h.lo, h.size);
      }
    }
  }

  lemma FrontHeader(s: Mem, h: Header)
    requires HeaderOk(s, h) && h.hi == |s.hist| >= 1 && h.lo <= |s.hist| && s.prFront == Arith.Wrap(|s.hist| - 1 - h.lo, h.size)
    ensures HeaderOk(s, h.(front := s.prFront, frontChunk := h.hi - 1))
    ensures Arith.Wrap(s.prFront + 1, h.size) == Arith.Wrap(|s.hist| - h.lo, h.size)
  {
    Arith.WrapAdd(|s.hist| - 1 - h.lo, 1, h.size);
  }

  lemma PublishPhase(s: Mem, e: Event, s': Mem)
    requires Typed(s) && RingOk(s) && RingOk(s') && PhaseOk(s) && ProducerStep(s, e, s') && (s.prod.PEntry? || s.prod.PFront?)
    ensures PhaseOk(s')
  {
    BaseIsStart(|s.hist| - 1, 0);
  }

  lemma EntryIndex(s: Mem, e: Event, s': Mem)
    requires Typed(s) && IndexOk(s) && ProducerStep(s, e, s') && s.prod.PEntry? && s.c.tail == Base(|s.hist| - 1)
    requires s.tailBlock == s.hist[|s.hist| - 1]
    ensures IndexOk(s')
  {
    hide HeaderOk;
    CurrentOk(s);
    EntryHeader(s, Current(s));
    forall h | 0 <= h < |s'.headers| ensures HeaderOk(s', s'.headers[h]) { SameHeader(s, s', s'.headers[h]); }
  }

  lemma FrontIndex(s: Mem, e: Event, s': Mem)
    requires Typed(s) && IndexOk(s) && ProducerStep(s, e, s') && s.prod.PFront?
    ensures IndexOk(s')
  {
    hide HeaderOk;
    CurrentOk(s);
    FrontHeader(s, Current(s));
    forall h | 0 <= h < |s'.headers| ensures HeaderOk(s', s'.headers[h]) { SameHeader(s, s', s'.headers[h]); }
  }

  lemma CurrentOk(s: Mem)
    requires IndexOk(s)
    ensures HeaderOk(s, Current(s)) && Current(s).lo <= |s.hist|
  {
    assert HeaderOk(s, Current(s));
  }

  lemma TailBlockIsLast(s: Mem)
    requires Core(s) && (s.prod.PEntry? || s.prod.PFront?)
    ensures s.hist != [] && s.tailBlock == s.hist[|s.hist| - 1] && s.c.tail == Base(|s.hist| - 1)
  {}

  lemma PublishCore(s: Mem, e: Event, s': Mem)
    requires Core(s) && Typed(s) && ProducerStep(s, e, s') && (s.prod.PEntry? || s.prod.PFront?)
    ensures Core(s')
  {
    hide RingOk, PhaseOk, IndexOk, DataOk, Q.Inv;
    TailNotNegative(s);
    TailBlockIsLast(s);
    GrowData(s, s');
    PublishPhase(s, e, s');
    if s.prod.PEntry? { EntryIndex(s, e, s'); } else { FrontIndex(s, e, s'); }
  }

  // ---------------------------------------------------------------- producer: the element itself

  lemma WriteCore(s: Mem, e: Event, s': Mem)
    requires Core(s) && Typed(s) && ProducerStep(s, e, s') && s.prod.PWrite?
    ensures Core(s')
  {
    hide IndexOk, Q.Inv, Chunk, Off, Base;
    TailNotNegative(s);
    WriteIndex(s, s');
    assert forall b :: b in s.blocks ==> s'.blocks[b].next == s.blocks[b].next && s'.blocks[b].flags == s.blocks[b].flags
                                         && |s'.blocks[b].cells| == |s.blocks[b].cells|;
    assert forall q: nat :: Live(s', q) <==> Live(s, q);
    assert Live(s, |s.hist| - 1);
    forall i: nat | i < s'.c.tail && Live(s', Chunk(i)) && i !in s'.taken
      ensures s'.blocks[s'.hist[Chunk(i)]].cells[Off(i)] == Full(s'.items[i])
    {
      assert Live(s, Chunk(i));
      if s.hist[Chunk(i)] == s.tailBlock && Off(i) == Off(s.c.tail) { ChunkOffInjective(i, s.c.tail); }
    }
  }

  lemma WriteIndex(s: Mem, s': Mem)
    requires IndexOk(s) && Between(s.prod) && Between(s'.prod)
    requires s' == s.(blocks := s'.blocks, prod := s'.prod, c := s'.c, items := s'.items)
    ensures IndexOk(s')
  {
    forall h | 0 <= h < |s'.headers| ensures HeaderOk(s', s'.headers[h]) { SameHeader(s, s', s.headers[h]); }
  }

  lemma TailPhase(s: Mem, e: Event, s': Mem)
    requires Typed(s) && RingOk(s) && PhaseOk(s) && ProducerStep(s, e, s') && s.prod.PTail?
    ensures RingOk(s') && PhaseOk(s')
  {
    hide Chunk, Off;
    ChunkNext(s.c.tail);
    ChunkIsDivision(s.c.tail + 1);
    assert forall q: nat :: Live(s', q) <==> Live(s, q);
  }

  /** The element is in place before the tail is stored. */
  lemma TailCell(s: Mem)
    requires RingOk(s) && s.c.tail >= 0 && PhaseOk(s) && s.prod.PTail?
    ensures Live(s, Chunk(s.c.tail)) && s.blocks[s.hist[Chunk(s.c.tail)]].cells[Off(s.c.tail)] == Full(s.prod.x)
  {
    hide Chunk, Off;
    assert Live(s, |s.hist| - 1);
  }

  lemma TailEffect(s: Mem, e: Event, s': Mem)
    requires Typed(s) && ProducerStep(s, e, s') && s.prod.PTail?
    ensures s' == s.(c := s.c.(tail := s.c.tail + 1), items := s.items + [s.prod.x], prod := PIdle)
  {}

  lemma TailData(s: Mem, e: Event, s': Mem)
    requires Typed(s) && RingOk(s) && s.c.tail >= 0 && PhaseOk(s) && DataOk(s) && ProducerStep(s, e, s') && s.prod.PTail?
    requires RingOk(s') && s.c.head <= s.c.tail
    ensures DataOk(s')
  {
    hide Chunk, Off, PhaseOk, ProducerStep;
    TailCell(s);
    TailEffect(s, e, s');
    assert forall q: nat :: Live(s', q) <==> Live(s, q);
    forall i: nat | i < s'.c.tail && Live(s', Chunk(i)) && i !in s'.taken
      ensures s'.blocks[s'.hist[Chunk(i)]].cells[Off(i)] == Full(s'.items[i])
    {
      if i < s.c.tail { assert s'.items[i] == s.items[i]; }
    }
    assert Chunk(s.c.tail) >= Oldest(s');
  }

  lemma TailCore(s: Mem, e: Event, s': Mem)
    requires Core(s) && Typed(s) && ProducerStep(s, e, s') && s.prod.PTail?
    ensures Core(s')
  {
    hide RingOk, PhaseOk, DataOk, IndexOk, Q.Inv;
    TailNotNegative(s);
    Q.InvTickets(s.c);
    Q.StepKeeps(s.c, Q.Enqueued, s'.c);
    Q.HeadBelowTail(s.c);
    WriteIndex(s, s');
    TailPhase(s, e, s');
    TailData(s, e, s');
  }

  lemma ProducerKeeps(s: Mem, e: Event, s': Mem)
    requires Core(s) && Typed(s) && ProducerStep(s, e, s')
    ensures Core(s')
  {
    hide Core;
    match s.prod
    case PReuse(_, _) => ReuseCore(s, e, s');
    case PEntry(_) => PublishCore(s, e, s');
    case PFront(_) => PublishCore(s, e, s');
    case PWrite(_) => WriteCore(s, e, s');
    case PTail(_) => TailCore(s, e, s');
    case PIdle => DecideCore(s, e, s');
    case PScan(_, _, _) => DecideCore(s, e, s');
    case PGrow(_) => if s'.headers == s.headers { DecideCore(s, e, s'); } else { GrowCore(s, e, s'); }
    case PBlock(x) =>
      if e == Refused { DecideCore(s, e, s'); } else {
        var b: BlockId :| b !in s.blocks && s' == Linked(s, b, x);
        LinkCore(s, b, x);
      }
  }

  // ---------------------------------------------------------------- what readers rely on

  /** Nothing a reader depends on goes away: history grows, headers keep their layout. */
  ghost predicate Grows(s: Mem, s': Mem) {
    && s.items <= s'.items && s.hist <= s'.hist && s.c.head <= s'.c.head <= |s'.items|
    && |s.headers| <= |s'.headers|
    && forall h :: 0 <= h < |s.headers| ==>
         s'.headers[h].lo == s.headers[h].lo && s'.headers[h].size == s.headers[h].size && s'.headers[h].hi >= s.headers[h].hi
  }

  lemma ReaderFrame(s: Mem, s': Mem, rd: Reader)
    requires ReaderOk(s, rd) && Grows(s, s')
    requires forall i: nat :: Has(rd, i) ==> (i in s'.taken <==> i in s.taken) && (i in s'.cleared <==> i in s.cleared)
    ensures ReaderOk(s', rd)
  {
    hide NotTaken, AllTaken, NotCleared, Chunk, Covered, Placed;
    match rd
    case RIdle =>
    case RHeader(first, len) => RangeFrame(s, s', rd, first, first + len);
    case RFront(first, len, h) =>
      RangeFrame(s, s', rd, first, first + len);
      IndexFrame(s, s', h, first, len, 0, 0);
    case RBase(first, len, h, f, fc) =>
      RangeFrame(s, s', rd, first, first + len);
      IndexFrame(s, s', h, first, len, f, fc);
    case RBlock(first, len, h, slot, i, _) =>
      RangeFrame(s, s', rd, i, first + len);
      RangeFrame(s, s', rd, first, i);
      IndexFrame(s, s', h, first, len, slot, Chunk(i));
      SliceFrame(s.items, s'.items, first, i);
    case RTake(first, len, h, slot, _, from, i, _) =>
      RangeFrame(s, s', rd, i, first + len);
      RangeFrame(s, s', rd, first, i);
      RangeFrame(s, s', rd, from, i);
      IndexFrame(s, s', h, first, len, slot, Chunk(i));
      SliceFrame(s.items, s'.items, first, i);
    case RClear(first, len, h, slot, _, from, j, i, _) =>
      RangeFrame(s, s', rd, i, first + len);
      RangeFrame(s, s', rd, first, i);
      RangeFrame(s, s', rd, from, j);
      IndexFrame(s, s', h, first, len, slot, Chunk(from));
      SliceFrame(s.items, s'.items, first, i);
  }

  lemma SliceFrame(a: seq<int>, b: seq<int>, from: nat, to: nat)
    requires a <= b && from <= to <= |a|
    ensures a[from..to] == b[from..to]
  {}

  lemma IndexFrame(s: Mem, s': Mem, h: nat, first: nat, len: nat, slot: nat, q: nat)
    requires Grows(s, s') && len > 0 && Covered(s, h, first, len)
    ensures h < |s.headers| && Covered(s', h, first, len) && s'.headers[h].hi >= s.headers[h].hi
    ensures Placed(s, h, slot, q) ==> Placed(s', h, slot, q)
  {
    hide Chunk, Arith.Wrap;
  }

  lemma RangeFrame(s: Mem, s': Mem, rd: Reader, from: nat, to: nat)
    requires forall i: nat :: Has(rd, i) ==> (i in s'.taken <==> i in s.taken) && (i in s'.cleared <==> i in s.cleared)
    requires !rd.RIdle? && rd.first <= from && to <= rd.first + rd.len
    ensures NotTaken(s, from, to) ==> NotTaken(s', from, to)
    ensures AllTaken(s, from, to) ==> AllTaken(s', from, to)
    ensures NotCleared(s, from, to) ==> NotCleared(s', from, to)
  {
    forall i: nat | from <= i < to ensures (i in s'.taken <==> i in s.taken) && (i in s'.cleared <==> i in s.cleared) {
      assert Has(rd, i);
    }
  }

  lemma ProducerGrows(s: Mem, e: Event, s': Mem)
    requires Typed(s) && ProducerStep(s, e, s') && s.c.head <= |s.items|
    ensures Grows(s, s') && s'.taken == s.taken && s'.cleared == s.cleared && s'.c.consumers == s.c.consumers
    ensures s'.c.head == s.c.head && !e.Delivered?
  {}

  lemma HeadInItems(s: Mem)
    requires Core(s)
    ensures s.c.head <= |s.items| == s.c.tail && s.cleared <= s.taken && forall i :: i in s.taken ==> i < s.c.head
  {
    Q.HeadBelowTail(s.c);
  }

  lemma ProducerMoves(s: State, e: Event, s': State)
    requires Inv(s) && StateTyped(s) && ProducerStep(s.m, e, s'.m) && s'.readers == s.readers
    ensures Inv(s')
  {
    hide Core, ReaderOk;
    HeadInItems(s.m);
    ProducerKeeps(s.m, e, s'.m);
    ProducerGrows(s.m, e, s'.m);
    forall t | 0 <= t < |s'.readers| ensures ReaderOk(s'.m, s'.readers[t]) { ReaderFrame(s.m, s'.m, s.readers[t]); }
  }

  // ---------------------------------------------------------------- reader moves

  /** One step of a reader, its effect on memory and on the reader itself. */
  lemma ReaderStepKeeps(s: Mem, rd: Reader, e: Event, s': Mem, rd': Reader)
    requires Core(s) && Typed(s) && ReaderTyped(s, rd) && ReaderOk(s, rd) && ReaderStep(s, rd, e, s', rd')
    ensures Core(s') && ReaderOk(s', rd') && Grows(s, s') && s'.c == s.c
    ensures forall i: nat :: Has(rd', i) ==> Has(rd, i)
    ensures forall i: nat :: !Has(rd, i) ==> (i in s'.taken <==> i in s.taken) && (i in s'.cleared <==> i in s.cleared)
  {
    hide Core, ReaderOk;
    HeadInItems(s);
    match rd
    case RHeader(_, _) => HeaderLoadOk(s, rd);
    case RFront(_, _, _) => FrontLoadOk(s, rd);
    case RBase(_, _, _, _, _) => BaseFacts(s, rd); BaseLoadOk(s, rd);
    case RBlock(_, _, _, _, _, _) => BlockLoadOk(s, rd);
    case RTake(_, _, _, _, _, _, _, _) => TakeFacts(s, rd); TakeCore(s, rd); TakeReader(s, rd);
    case RClear(_, _, _, _, _, _, _, _, _) => ClearFacts(s, rd); FlagCore(s, rd); FlagReader(s, rd);
  }

  lemma TakeFacts(s: Mem, rd: Reader)
    requires Core(s) && ReaderTyped(s, rd) && ReaderOk(s, rd) && rd.RTake?
    ensures rd.i < |s.items| && s.blocks[rd.b].cells[Off(rd.i)] == Full(s.items[rd.i]) && Has(rd, rd.i)
  {
    hide Core;
    CellIsFull(s, rd.i);
  }

  lemma ClearFacts(s: Mem, rd: Reader)
    requires ReaderOk(s, rd) && rd.RClear?
    ensures Has(rd, rd.j - 1)
  {}

  lemma ReaderMovesKeeps(s: State, t: nat, e: Event, s': State)
    requires Inv(s) && StateTyped(s) && t < |s.readers| && ReaderMoves(s, t, e, s')
    ensures Inv(s')
  {
    hide Core, ReaderOk, ReaderStep, Grows;
    ReaderStepKeeps(s.m, s.readers[t], e, s'.m, s'.readers[t]);
    NotIdle(s.m, s.readers[t], e, s'.m, s'.readers[t]);
    forall u | 0 <= u < |s'.readers| ensures ReaderOk(s'.m, s'.readers[u]) {
      if u != t { ReaderFrame(s.m, s'.m, s.readers[u]); }
    }
  }

  lemma NotIdle(s: Mem, rd: Reader, e: Event, s': Mem, rd': Reader)
    requires Typed(s) && ReaderTyped(s, rd) && ReaderStep(s, rd, e, s', rd')
    ensures !rd.RIdle?
  {}

  // ---------------------------------------------------------------- claiming

  lemma CounterCore(s: Mem, qe: Q.Event, c: Q.State)
    requires Core(s) && Q.Step(s.c, qe, c) && qe != Q.Enqueued
    ensures Core(s.(c := c)) && s.c.head <= c.head <= |s.items|
  {
    hide Q.Inv, IndexOk, Q.Step;
    Q.StepMonotone(s.c, qe, c);
    Q.StepKeeps(s.c, qe, c);
    Q.HeadBelowTail(c);
    var s' := s.(c := c);
    assert forall q: nat :: Live(s', q) <==> Live(s, q);
    CounterIndex(s, s');
  }

  lemma CounterIndex(s: Mem, s': Mem)
    requires IndexOk(s) && s' == s.(c := s'.c)
    ensures IndexOk(s')
  {
    forall h | 0 <= h < |s'.headers| ensures HeaderOk(s', s'.headers[h]) { SameHeader(s, s', s.headers[h]); }
  }

  lemma CounterKeeps(s: State, qe: Q.Event, s': State)
    requires Inv(s) && StateTyped(s) && CounterMoves(s, qe, s')
    ensures Inv(s')
  {
    hide Core, ReaderOk, Q.Inv, Q.Step;
    QInv(s.m);
    CounterCore(s.m, qe, s'.m.c);
    HeadInItems(s.m);
    Q.StepMonotone(s.m.c, qe, s'.m.c);
    forall t | 0 <= t < |s.readers| ensures ReaderOk(s'.m, s.readers[t]) { ReaderFrame(s.m, s'.m, s.readers[t]); }
    if qe.Claimed? {
      HeadNotNegative(s.m);
      NewClaim(s'.m, s.m, qe.c.first, qe.c.len);
      forall t, i: nat | 0 <= t < |s.readers| && Has(s.readers[t], i) ensures i < s.m.c.head { HasBelowHead(s.m, s.readers[t], i); }
    }
  }

  lemma QInv(s: Mem)
    requires Core(s)
    ensures Q.Inv(s.c)
  {}

  lemma HeadNotNegative(s: Mem)
    requires Core(s)
    ensures s.c.head >= 0
  {
    Q.HeadNotNegative(s.c.claims, s.c.head);
  }

  lemma HasBelowHead(s: Mem, rd: Reader, i: nat)
    requires ReaderOk(s, rd) && Has(rd, i)
    ensures i < s.c.head
  {}

  lemma NewClaim(s': Mem, s: Mem, first: nat, len: nat)
    requires s' == s.(c := s'.c) && first == s.c.head && first + len == s'.c.head <= |s.items| && len > 0
    requires forall i :: i in s.taken ==> i < s.c.head
    ensures ReaderOk(s', RHeader(first, len))
  {}

  // ---------------------------------------------------------------- whole runs

  lemma InvTyped(s: State)
    requires Inv(s)
    ensures StateTyped(s)
  {
    hide Core, ReaderOk;
    QInv(s.m);
    Q.InvTickets(s.m.c);
    CoreTyped(s.m);
    forall t | 0 <= t < |s.readers| ensures ReaderTyped(s.m, s.readers[t]) { ReaderOkTyped(s.m, s.readers[t]); }
  }

  lemma StepKeeps(s: State, e: Event, s': State)
    requires Inv(s) && Step(s, e, s')
    ensures Inv(s')
  {
    hide Inv, ProducerStep, CounterMoves, ReaderMoves;
    if ProducerStep(s.m, e, s'.m) && s'.readers == s.readers {
      ProducerMoves(s, e, s');
    } else if exists qe: Q.Event :: CounterMoves(s, qe, s') {
      var qe: Q.Event :| CounterMoves(s, qe, s');
      CounterKeeps(s, qe, s');
    } else {
      var t: nat :| t < |s.readers| && ReaderMoves(s, t, e, s');
      ReaderMovesKeeps(s, t, e, s');
    }
  }

  lemma InitOk(s: State)
    requires Init(s)
    ensures Inv(s)
  {
    assert forall q: nat :: !Live(s.m, q);
    assert HeaderOk(s.m, s.m.headers[0]);
  }

  ghost predicate Run(r: seq<State>, ev: seq<Event>) {
    && |r| == |ev| + 1
    && Init(r[0])
    && forall i :: 0 <= i < |ev| ==> Step(r[i], ev[i], r[i + 1])
  }

  lemma {:induction false} RunInvariant(r: seq<State>, ev: seq<Event>, i: nat)
    requires Run(r, ev) && i < |r|
    ensures Inv(r[i])
  {
    hide Inv, Step;
    if i == 0 {
      InitOk(r[0]);
    } else {
      RunInvariant(r, ev, i - 1);
      StepKeeps(r[i - 1], ev[i - 1], r[i]);
    }
  }

  /** Whatever the interleaving, a dequeue that claimed the indices from `first` on hands out
      exactly the items that were enqueued under those indices, in order. */
  lemma DeliversWhatWasEnqueued(r: seq<State>, ev: seq<Event>, i: nat)
    requires Run(r, ev) && i < |ev| && ev[i].Delivered?
    ensures var d := ev[i];
            0 < |d.out| && d.first + |d.out| <= |r[i].m.items| && d.out == r[i].m.items[d.first..d.first + |d.out|]
  {
    hide Core;
    RunInvariant(r, ev, i);
    var s := r[i];
    assert Step(s, ev[i], r[i + 1]);
    HeadInItems(s.m);
    var t: nat :| t < |s.readers| && ReaderMoves(s, t, ev[i], r[i + 1]);
    assert ReaderOk(s.m, s.readers[t]);
  }

  /** The history of items is append-only, so index `k` means the same item ever after. */
  lemma {:induction false} ItemsAppendOnly(r: seq<State>, ev: seq<Event>, i: nat, j: nat)
    requires Run(r, ev) && i <= j < |r|
    ensures r[i].m.items <= r[j].m.items
    decreases j - i
  {
    hide Inv, Step;
    if i < j {
      RunInvariant(r, ev, i);
      assert Step(r[i], ev[i], r[i + 1]);
      StepAppends(r[i], ev[i], r[i + 1]);
      ItemsAppendOnly(r, ev, i + 1, j);
    }
  }

  lemma StepAppends(s: State, e: Event, s': State)
    requires Step(s, e, s')
    ensures s'.m.items == if e.Enqueued? then s.m.items + [e.x] else s.m.items
  {}

  /** A consumer in possession of a claim is never blocked, never follows a stale pointer and
      never finds a cell empty: wherever it stands, its next read is defined, and the element it
      is about to move out is the one enqueued under its index. */
  lemma ReadersNeverStuck(r: seq<State>, ev: seq<Event>, i: nat, t: nat)
    requires Run(r, ev) && i < |r| && t < |r[i].readers|
    ensures StateTyped(r[i])
    ensures var rd := r[i].readers[t];
            && (rd.RFront? ==> 0 <= r[i].m.headers[rd.h].front < r[i].m.headers[rd.h].size)
            && (rd.RTake? ==> rd.i < |r[i].m.items| && r[i].m.blocks[rd.b].cells[Off(rd.i)] == Full(r[i].m.items[rd.i]))
            && (rd.RClear? ==> !r[i].m.blocks[rd.b].flags[FlagAt(rd.j - 1)])
  {
    hide Core, ReaderOk;
    RunInvariant(r, ev, i);
    InvTyped(r[i]);
    var s, rd := r[i].m, r[i].readers[t];
    assert ReaderOk(s, rd);
    if rd.RFront? { FrontInRange(s, rd); }
    if rd.RTake? { TakeFacts(s, rd); }
    if rd.RClear? { FlagWasClear(s, rd); }
  }

  lemma FrontInRange(s: Mem, rd: Reader)
    requires Core(s) && ReaderOk(s, rd) && rd.RFront?
    ensures rd.h < |s.headers| && 0 <= s.headers[rd.h].front < s.headers[rd.h].size
  {
    hide Core;
    FrontCovers(s, rd.h, rd.first, rd.len);
  }

  /** The assertion in set_empty and set_many_empty. */
  lemma FlagWasClear(s: Mem, rd: Reader)
    requires Core(s) && ReaderTyped(s, rd) && ReaderOk(s, rd) && rd.RClear?
    ensures !s.blocks[rd.b].flags[FlagAt(rd.j - 1)]
  {
    hide PhaseOk, IndexOk, Q.Inv;
    SameBlock(rd);
    PendingIsLive(s, rd.j - 1);
  }

  /** Nothing the producer does has damaged element `k`: its block still belongs to its chunk, its
      cell still holds the item, and every header that ever listed the chunk still leads to it. */
  ghost predicate Intact(s: Mem, k: nat) {
    && Live(s, Chunk(k)) && BlockTyped(s, s.hist[Chunk(k)]) && k < |s.items|
    && (k !in s.taken ==> s.blocks[s.hist[Chunk(k)]].cells[Off(k)] == Full(s.items[k]))
    && forall h :: 0 <= h < |s.headers| && Chunk(k) < s.headers[h].hi ==> Leads(s, s.headers[h], Chunk(k))
  }

  ghost predicate Leads(s: Mem, h: Header, q: nat)
    requires q < |s.hist|
  {
    && h.size >= 1 && |h.entries| == h.size
    && h.entries[Arith.Wrap(q - h.lo, h.size)] == Entry(Base(q), s.hist[q])
  }

  lemma WantedIsIntact(s: Mem, k: nat)
    requires Core(s) && k < s.c.tail && k !in s.cleared
    ensures Intact(s, k)
  {
    hide IndexOk, Q.Inv;
    PublishedChunk(s, k);
    forall h | 0 <= h < |s.headers| && Chunk(k) < s.headers[h].hi ensures Leads(s, s.headers[h], Chunk(k)) {
      FrontEntry(s, h, Chunk(k));
    }
  }

  /** Reusing a block, overwriting the oldest slot of a full index and doubling the index never
      disturb an element, or an index entry, that is still undequeued. */
  lemma UndequeuedIsIntact(r: seq<State>, ev: seq<Event>, i: nat, k: nat)
    requires Run(r, ev) && i < |r| && k < r[i].m.c.tail && k !in r[i].m.cleared
    ensures Intact(r[i].m, k)
  {
    hide Core, Intact;
    RunInvariant(r, ev, i);
    WantedIsIntact(r[i].m, k);
  }

  // ---------------------------------------------------------------- exactly once

  predicate Covers(e: Event, k: nat) { e.Delivered? && e.first <= k < e.first + |e.out| }

  predicate Busy(s: State, k: nat) { exists t :: 0 <= t < |s.readers| && Has(s.readers[t], k) }

  /** Index `k` has been claimed, its element moved out, and the call that did so has returned. */
  predicate Done(s: State, k: nat) { k in s.m.taken && !Busy(s, k) }

  /** Indices come to a consumer by a claim and leave it by a delivery, in no other way. */
  ghost predicate BusyMoves(s: State, e: Event, s': State, k: nat) {
    && (Busy(s, k) && !Busy(s', k) ==> Covers(e, k) && k in s'.m.taken)
    && (Covers(e, k) ==> Busy(s, k) && !Busy(s', k))
    && (!Busy(s, k) ==> (Busy(s', k) <==> s.m.c.head <= k < s'.m.c.head))
    && (k in s.m.taken ==> k in s'.m.taken)
    && (k !in s.m.taken && k in s'.m.taken ==> Busy(s, k) && Busy(s', k))
  }

  lemma BusyOfClaim(s: State, qe: Q.Event, s': State, k: nat)
    requires Inv(s) && StateTyped(s) && CounterMoves(s, qe, s')
    ensures BusyMoves(s, Shown(qe), s', k)
  {
    hide Core, ReaderOk, Q.Inv, Q.Step, Q.TicketsInRange, Typed, ReaderTyped;
    QInv(s.m);
    HeadNotNegative(s.m);
    Q.StepMonotone(s.m.c, qe, s'.m.c);
    assert forall t :: 0 <= t < |s.readers| && !(qe.Claimed? && qe.t == t) ==> s'.readers[t] == s.readers[t];
    if qe.Claimed? { assert s.readers[qe.t] == RIdle; assert s'.readers[qe.t] == RHeader(qe.c.first, qe.c.len); }
  }

  lemma BusyOfReader(s: State, t: nat, e: Event, s': State, k: nat)
    requires Inv(s) && StateTyped(s) && t < |s.readers| && ReaderMoves(s, t, e, s')
    ensures BusyMoves(s, e, s', k)
  {
    hide Core, ReaderOk, ReaderStep, Typed, ReaderTyped, Q.TicketsInRange, Has, Covers;
    ReaderBusy(s.m, s.readers[t], e, s'.m, s'.readers[t], k);
    forall u | 0 <= u < |s.readers| && u != t ensures s'.readers[u] == s.readers[u] && !(Has(s.readers[u], k) && Has(s.readers[t], k)) {
      assert u < t || t < u;
    }
  }

  lemma BusyStep(s: State, e: Event, s': State, k: nat)
    requires Inv(s) && Step(s, e, s')
    ensures BusyMoves(s, e, s', k)
  {
    hide Core, ReadersOk, ProducerStep, Grows, ReaderMoves, CounterMoves, Has, Typed, ReaderTyped, Q.TicketsInRange;
    HeadInItems(s.m);
    if ProducerStep(s.m, e, s'.m) && s'.readers == s.readers {
      ProducerGrows(s.m, e, s'.m);
    } else if exists qe: Q.Event :: CounterMoves(s, qe, s') && e == Shown(qe) {
      hide BusyMoves, Inv;
      var qe: Q.Event :| CounterMoves(s, qe, s') && e == Shown(qe);
      BusyOfClaim(s, qe, s', k);
    } else {
      hide BusyMoves, Inv;
      var t: nat :| t < |s.readers| && ReaderMoves(s, t, e, s');
      BusyOfReader(s, t, e, s', k);
    }
  }

  lemma ReaderBusy(s: Mem, rd: Reader, e: Event, s': Mem, rd': Reader, k: nat)
    requires Typed(s) && ReaderTyped(s, rd) && ReaderOk(s, rd) && ReaderStep(s, rd, e, s', rd')
    ensures Has(rd', k) ==> Has(rd, k)
    ensures Has(rd, k) && !Has(rd', k) <==> Covers(e, k)
    ensures Covers(e, k) ==> k in s'.taken
    ensures k in s.taken ==> k in s'.taken
    ensures k !in s.taken && k in s'.taken ==> Has(rd, k) && Has(rd', k)
    ensures s'.c == s.c
  {}

  lemma {:induction false} DoneForever(r: seq<State>, ev: seq<Event>, i: nat, j: nat, k: nat)
    requires Run(r, ev) && i <= j < |r| && Done(r[i], k)
    ensures Done(r[j], k) && forall n :: i <= n < j ==> !Covers(ev[n], k)
    decreases j - i
  {
    hide Inv, Step, Busy;
    if i < j {
      RunInvariant(r, ev, i);
      TakenBelowHead(r[i], k);
      assert Step(r[i], ev[i], r[i + 1]);
      BusyStep(r[i], ev[i], r[i + 1], k);
      DoneForever(r, ev, i + 1, j, k);
    }
  }

  lemma TakenBelowHead(s: State, k: nat)
    requires Inv(s) && k in s.m.taken
    ensures k < s.m.c.head
  {
    hide Core;
    HeadInItems(s.m);
  }

  /** No index is delivered twice. */
  lemma DeliveredOnce(r: seq<State>, ev: seq<Event>, i: nat, j: nat, k: nat)
    requires Run(r, ev) && i < j < |ev| && Covers(ev[i], k)
    ensures !Covers(ev[j], k)
  {
    hide Inv;
    RunInvariant(r, ev, i);
    assert Step(r[i], ev[i], r[i + 1]);
    BusyStep(r[i], ev[i], r[i + 1], k);
    DoneForever(r, ev, i + 1, j + 1, k);
  }

  /** Every claimed index is with a consumer or has been delivered. */
  lemma {:induction false} ClaimedIsAccountedFor(r: seq<State>, ev: seq<Event>, i: nat, k: nat)
    requires Run(r, ev) && i < |r| && k < r[i].m.c.head
    ensures Busy(r[i], k) || exists n :: 0 <= n < i && Covers(ev[n], k)
  {
    hide Inv;
    if i > 0 {
      RunInvariant(r, ev, i - 1);
      assert Step(r[i - 1], ev[i - 1], r[i]);
      BusyStep(r[i - 1], ev[i - 1], r[i], k);
      if k < r[i - 1].m.c.head { ClaimedIsAccountedFor(r, ev, i - 1, k); }
      assert Covers(ev[i - 1], k) ==> exists n :: 0 <= n < i && Covers(ev[n], k);
    }
  }

  /** Whenever no dequeue is in progress, the indices below the head have been delivered, each
      exactly once, and none above. */
  lemma ExactlyOnceAtRest(r: seq<State>, ev: seq<Event>, i: nat, k: nat)
    requires Run(r, ev) && i < |r| && forall t :: 0 <= t < |r[i].readers| ==> r[i].readers[t] == RIdle
    ensures k < r[i].m.c.head <==> exists n :: 0 <= n < i && Covers(ev[n], k)
    ensures forall m, n :: 0 <= m < n < i && Covers(ev[m], k) ==> !Covers(ev[n], k)
  {
    hide Inv, Step;
    if k < r[i].m.c.head { ClaimedIsAccountedFor(r, ev, i, k); }
    forall n | 0 <= n < i && Covers(ev[n], k) ensures k < r[i].m.c.head {
      RunInvariant(r, ev, n);
      assert Step(r[n], ev[n], r[n + 1]);
      BusyStep(r[n], ev[n], r[n + 1], k);
      DoneForever(r, ev, n + 1, i, k);
      RunInvariant(r, ev, i);
      TakenBelowHead(r[i], k);
    }
    forall m, n | 0 <= m < n < i && Covers(ev[m], k) ensures !Covers(ev[n], k) { DeliveredOnce(r, ev, m, n, k); }
  }
}
