/** Elements of an implicit producer are destroyed when they are taken, so that memory goes back to the pool
    without any. */
module ImplicitProducerCells {
  import opened Common
  import opened Chunks
  import opened ImplicitProducer
  import opened ImplicitProducerProof
  import opened ImplicitProducerRun
  import Q = DequeueCounters
  import I = ImplicitIndex

  predicate CellVoid(x: I.State, d: Data, i: nat)
    requires Chunk(i) < |x.m.storage|
  {
    var b := x.m.storage[Chunk(i)];
    BlockTyped(d, b) && d.blocks[b].cells[Off(i)] == Void
  }

  /** A taken element of a block that is held is gone from its cell. */
  ghost predicate Clean(x: I.State, d: Data) {
    forall i: nat :: i in d.taken && Held(x, d, Chunk(i)) ==> CellVoid(x, d, i)
  }

  /** What holds a taken element's cell is the same before and after. */
  lemma CleanFrame(x: I.State, d: Data, x': I.State, d': Data)
    requires Clean(x, d) && d'.taken <= d.taken
    requires forall n: nat :: Held(x', d', n) && n < |x.m.storage| ==>
      Held(x, d, n) && x'.m.storage[n] == x.m.storage[n] && (BlockTyped(d, x.m.storage[n]) ==>
        BlockTyped(d', x.m.storage[n]) && d'.blocks[x.m.storage[n]].cells == d.blocks[x.m.storage[n]].cells)
    requires forall i :: i in d.taken ==> Chunk(i) < |x.m.storage|
    ensures Clean(x', d')
  {
    hide Chunk, Off;
    forall i: nat | i in d'.taken && Held(x', d', Chunk(i)) ensures CellVoid(x', d', i) { assert CellVoid(x, d, i); }
  }

  lemma TakenPublished(x: I.State, d: Data)
    requires Core(x, d)
    ensures forall i :: i in d.taken ==> i < d.c.tail && Chunk(i) < |x.m.storage|
  {
    QFacts(d);
    hide Chunk, I.Inv, Q.Inv, HeldOk;
    forall i | i in d.taken ensures i < d.c.tail && Chunk(i) < |x.m.storage| { PublishedChunk(x, d, i); }
  }

  /** The cell about to be constructed in is not that of a published element. */
  lemma TailCellApart(x: I.State, d: Data, i: nat)
    requires Core(x, d) && d.prod.PWrite? && i < d.c.tail && Held(x, d, Chunk(i)) && x.m.storage[Chunk(i)] == d.tailBlock
    ensures Off(i) != Off(d.c.tail)
  {
    hide Chunk, Off, Q.Inv, I.Inv;
    assert Off(d.c.tail) == 0 ==> Coming(x, d.tailBlock);
    if Off(d.c.tail) != 0 {
      TailBlockHeld(x, d);
      if Off(i) == Off(d.c.tail) { ChunkOffInjective(i, d.c.tail); }
    }
  }

  lemma WriteClean(x: I.State, d: Data)
    requires Core(x, d) && Clean(x, d) && d.prod.PWrite? && d.c.tail >= 0 && BlockTyped(d, d.tailBlock)
    ensures Clean(x, Written(d, d.prod.x))
  {
    TakenPublished(x, d);
    hide Core, Chunk, Off;
    var d' := Written(d, d.prod.x);
    forall i: nat | i in d'.taken && Held(x, d', Chunk(i)) ensures CellVoid(x, d', i) {
      assert CellVoid(x, d, i);
      if x.m.storage[Chunk(i)] == d.tailBlock { TailCellApart(x, d, i); }
    }
  }

  lemma HeldAreMine(x: I.State, d: Data)
    requires Core(x, d)
    ensures forall n: nat :: Held(x, d, n) ==> x.m.storage[n] in d.mine
  {
    hide I.Inv, Q.Inv, PhaseOk, DataOk;
    assert forall n: nat :: Held(x, d, n) ==> BlockOk(x, d, n);
  }

  lemma InsertClean(s: State, v: int, e: Event, s': State)
    requires Inv(s) && Typed(s) && Clean(s.x, s.d) && s.d.prod == PInsert(v) && InsertStep(s, v, e, s')
    ensures Clean(s'.x, s'.d)
  {
    TakenPublished(s.x, s.d);
    HeldAreMine(s.x, s.d);
    PhaseFacts(s);
    assert I.Typed(s.x);
    hide Inv, Clean, Chunk, Off, I.Typed, I.ProducerStep, Typed;
    IndexStep(s.x, s'.x);
    CleanFrame(s.x, s.d, s'.x, s'.d);
  }

  lemma TailClean(s: State, e: Event, s': State)
    requires Inv(s) && Typed(s) && Clean(s.x, s.d) && s.d.prod.PTail? && ProducerStep(s, e, s')
    ensures Clean(s'.x, s'.d)
  {
    TakenPublished(s.x, s.d);
    hide Inv, Clean, Chunk, Off, Typed, InsertStep;
    CleanFrame(s.x, s.d, s'.x, s'.d);
  }

  lemma ProducerClean(s: State, e: Event, s': State)
    requires Inv(s) && Typed(s) && Clean(s.x, s.d) && ProducerStep(s, e, s')
    ensures Clean(s'.x, s'.d)
  {
    match s.d.prod {
      case PInsert(v) =>
        assert InsertStep(s, v, e, s');
        hide *;
        InsertClean(s, v, e, s');
      case PWrite(_) =>
        hide Core, Clean, Typed, InsertStep, Written;
        assert s.d.c.tail >= 0 && BlockTyped(s.d, s.d.tailBlock) by { TypedWrite(s); }
        WriteClean(s.x, s.d);
      case PTail(_) => hide *; TailClean(s, e, s');
      case _ =>
        TakenPublished(s.x, s.d);
        hide Inv, Clean, Chunk, Off, Typed, InsertStep;
        CleanFrame(s.x, s.d, s'.x, s'.d);
    }
  }

  lemma TypedWrite(s: State)
    requires Typed(s) && s.d.prod.PWrite?
    ensures s.d.c.tail >= 0 && BlockTyped(s.d, s.d.tailBlock)
  {}

  lemma TakeClean(x: I.State, d: Data, w: Work, r: I.Reader)
    requires Core(x, d) && WorkOk(x, d, w, r) && Clean(x, d) && w.WTake? && BlockTyped(d, w.b)
    ensures Clean(x, TakenFrom(d, w))
  {
    TakesItsItem(x, d, w, r);
    hide Core, WorkOk, Chunk, Off;
    var d' := TakenFrom(d, w);
    forall i: nat | i in d'.taken && Held(x, d', Chunk(i)) ensures CellVoid(x, d', i) {
      if i != w.i { assert CellVoid(x, d, i); }
    }
  }

  lemma WorkClean(s: State, t: nat, e: Event, s': State)
    requires Inv(s) && Typed(s) && Clean(s.x, s.d) && t < |s.work| && WorkMoves(s, t, e, s')
    ensures Clean(s'.x, s'.d)
  {
    if s.work[t].WTake? {
      assert WorkOk(s.x, s.d, s.work[t], s.x.readers[t]);
      hide Core, WorkOk, Clean, Apart, Chunk, Off, I.Typed, Q.TicketsInRange;
      TakeClean(s.x, s.d, s.work[t], s.x.readers[t]);
    } else {
      TakenPublished(s.x, s.d);
      WorkKeepsCells(s, t, e, s');
      hide Inv, Clean, Chunk, Typed, WorkMoves;
      CleanFrame(s.x, s.d, s'.x, s'.d);
    }
  }

  lemma WorkKeepsCells(s: State, t: nat, e: Event, s': State)
    requires Typed(s) && t < |s.work| && !s.work[t].WTake? && WorkMoves(s, t, e, s')
    ensures s'.x.m.storage == s.x.m.storage && s'.d.taken == s.d.taken && s.d.freed <= s'.d.freed
    ensures forall b :: b in s.d.blocks ==> b in s'.d.blocks && s'.d.blocks[b].cells == s.d.blocks[b].cells
  {
    hide Chunk, Off, I.Typed, Q.TicketsInRange, I.At, I.ReaderStep, I.HeaderOk, I.Onward;
  }

  lemma OtherClean(s: State, s': State)
    requires Inv(s) && Clean(s.x, s.d) && s'.x.m == s.x.m && s'.d.taken == s.d.taken && s'.d.freed == s.d.freed
    requires forall b :: b in s.d.mine && b in s.d.blocks ==> b in s'.d.blocks && s'.d.blocks[b] == s.d.blocks[b]
    ensures Clean(s'.x, s'.d)
  {
    TakenPublished(s.x, s.d);
    HeldAreMine(s.x, s.d);
    hide Inv, Clean, Chunk, Off;
    CleanFrame(s.x, s.d, s'.x, s'.d);
  }

  lemma StepClean(s: State, e: Event, s': State)
    requires Inv(s) && Step(s, e, s') && Clean(s.x, s.d)
    ensures Clean(s'.x, s'.d)
  {
    hide Inv, Typed, Clean, ProducerStep, WorkMoves, Q.Step, Chunk;
    if ProducerStep(s, e, s') {
      ProducerClean(s, e, s');
    } else if exists t: nat :: t < |s.work| && WorkMoves(s, t, e, s') {
      var t: nat :| t < |s.work| && WorkMoves(s, t, e, s');
      WorkClean(s, t, e, s');
    } else {
      OtherClean(s, s');
    }
  }

  lemma {:induction false} RunClean(r: seq<State>, ev: seq<Event>, i: nat)
    requires Run(r, ev) && i < |r|
    ensures Clean(r[i].x, r[i].d)
  {
    hide Inv, Step, Clean;
    if i == 0 {
      InitiallyClean(r[0]);
    } else {
      hide Initial;
      RunInvariant(r, ev, i - 1);
      RunClean(r, ev, i - 1);
      assert Step(r[i - 1], ev[i - 1], r[i]);
      StepClean(r[i - 1], ev[i - 1], r[i]);
    }
  }

  lemma InitiallyClean(s: State)
    requires Initial(s)
    ensures Clean(s.x, s.d)
  {}

  /** When a consumer gives a block back, no cell of it holds an element. */
  lemma GivenBackEmpty(r: seq<State>, ev: seq<Event>, i: nat, t: nat)
    requires Run(r, ev) && i < |r| && t < |r[i].work| && r[i].work[t].WFree?
    ensures var d, b := r[i].d, r[i].work[t].b; BlockTyped(d, b) && forall p :: 0 <= p < BLOCK_SIZE ==> d.blocks[b].cells[p] == Void
  {
    hide Run, Inv, Clean;
    RunInvariant(r, ev, i);
    RunClean(r, ev, i);
    FreedBlock(r[i], t);
    AllVoid(r[i].x, r[i].d, r[i].work[t].n);
  }

  /** A block that is held and has all its elements taken holds none. */
  lemma AllVoid(x: I.State, d: Data, n: nat)
    requires Clean(x, d) && Held(x, d, n) && BlockTyped(d, x.m.storage[n]) && forall i: nat :: Chunk(i) == n ==> i in d.taken
    ensures forall p :: 0 <= p < BLOCK_SIZE ==> d.blocks[x.m.storage[n]].cells[p] == Void
  {
    hide Chunk, Off, Base;
    forall p | 0 <= p < BLOCK_SIZE ensures d.blocks[x.m.storage[n]].cells[p] == Void {
      BaseIsStart(n, p);
      assert Base(n) + p in d.taken;
      assert CellVoid(x, d, Base(n) + p);
    }
  }

  lemma FreedBlock(s: State, t: nat)
    requires Inv(s) && t < |s.work| && s.work[t].WFree?
    ensures var w := s.work[t]; Held(s.x, s.d, w.n) && s.x.m.storage[w.n] == w.b && BlockTyped(s.d, w.b)
    ensures forall i: nat :: Chunk(i) == s.work[t].n ==> i in s.d.taken
  {
    hide Chunk, I.Inv, Q.Inv, PhaseOk, Apart, ClaimOk;
    assert WorkOk(s.x, s.d, s.work[t], s.x.readers[t]);
    assert BlockOk(s.x, s.d, s.work[t].n);
  }
}
