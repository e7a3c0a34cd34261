/** Elements of an explicit producer are destroyed when they are taken, so that the cell in which the next one
    is constructed never holds another, although blocks are used again and again. */
module ExplicitProducerCells {
  import opened Common
  import opened Chunks
  import opened ExplicitProducer
  import opened ExplicitProducerProof
  import Q = DequeueCounters

  /** The element of index `i` has been taken, or is not there yet. */
  predicate Vacant(s: Mem, i: nat) { i in s.taken || i >= s.c.tail + (if s.prod.PTail? then 1 else 0) }

  predicate CellVoid(s: Mem, i: nat)
    requires Chunk(i) < |s.hist|
  {
    BlockTyped(s, s.hist[Chunk(i)]) && s.blocks[s.hist[Chunk(i)]].cells[Off(i)] == Void
  }

  ghost predicate Clean(s: Mem) { forall i: nat :: Live(s, Chunk(i)) && Vacant(s, i) ==> CellVoid(s, i) }

  /** Cells, chunks and what is vacant stay as they are. */
  lemma CleanFrame(s: Mem, s': Mem)
    requires Clean(s) && s'.hist == s.hist && s'.slotsUsed == s.slotsUsed
    requires forall i: nat :: Vacant(s', i) ==> Vacant(s, i)
    requires forall b :: BlockTyped(s, b) ==> BlockTyped(s', b) && s'.blocks[b].cells == s.blocks[b].cells
    ensures Clean(s')
  {
    hide Chunk, Off;
    forall i: nat | Live(s', Chunk(i)) && Vacant(s', i) ensures CellVoid(s', i) { assert CellVoid(s, i); }
  }

  lemma ReuseClean(s: Mem, e: Event, s': Mem)
    requires Core(s) && Clean(s) && Typed(s) && s.prod.PReuse? && ProducerStep(s, e, s')
    ensures Clean(s')
  {
    hide Q.Inv, IndexOk, Chunk, Off, Base;
    var q: nat := Oldest(s);
    forall i: nat | Live(s', Chunk(i)) && Vacant(s', i) ensures CellVoid(s', i) {
      if Chunk(i) < |s.hist| {
        assert Live(s, Chunk(i)) && CellVoid(s, i);
      } else {
        var j := Base(q) + Off(i);
        BaseIsStart(q, Off(i));
        assert Live(s, q);
        assert j in s.cleared;
        assert CellVoid(s, j);
      }
    }
  }

  lemma LinkClean(s: Mem, b: BlockId, x: int)
    requires Core(s) && Clean(s) && Typed(s) && s.prod.PBlock? && b !in s.blocks
    ensures Clean(Linked(s, b, x))
  {
    hide Q.Inv, IndexOk, PhaseOk, DataOk, Chunk, Off;
    var s' := Linked(s, b, x);
    forall i: nat | Live(s', Chunk(i)) && Vacant(s', i) ensures CellVoid(s', i) {
      if Chunk(i) < |s.hist| { assert Live(s, Chunk(i)) && CellVoid(s, i); }
    }
  }

  lemma WriteClean(s: Mem, e: Event, s': Mem)
    requires Core(s) && Clean(s) && Typed(s) && s.prod.PWrite? && ProducerStep(s, e, s')
    ensures Clean(s')
  {
    hide Q.Inv, IndexOk, DataOk, Chunk, Off;
    forall i: nat | Live(s', Chunk(i)) && Vacant(s', i) ensures CellVoid(s', i) {
      assert Live(s, Chunk(i)) && Vacant(s, i) && CellVoid(s, i);
      if s.hist[Chunk(i)] == s.tailBlock {
        assert Live(s, |s.hist| - 1);
        if Off(i) == Off(s.c.tail) {
          ChunkOffInjective(i, s.c.tail);
          TailNotTaken(s);
        }
      }
    }
  }

  lemma TailNotTaken(s: Mem)
    requires Core(s)
    ensures s.c.tail !in s.taken
  {
    HeadInItems(s);
  }

  lemma ProducerClean(s: Mem, e: Event, s': Mem)
    requires Core(s) && Clean(s) && Typed(s) && ProducerStep(s, e, s')
    ensures Clean(s')
  {
    hide Core, Clean;
    match s.prod {
      case PReuse(_, _) => hide ProducerStep, Typed; ReuseClean(s, e, s');
      case PWrite(_) => hide ProducerStep, Typed; WriteClean(s, e, s');
      case PBlock(x) =>
        if e == Refused {
          CleanFrame(s, s');
        } else {
          hide Linked;
          var b: BlockId :| b !in s.blocks && s' == Linked(s, b, x);
          LinkClean(s, b, x);
        }
      case _ => CleanFrame(s, s');
    }
  }

  /** The element is in the block of its chunk. */
  predicate InItsBlock(s: Mem, rd: Reader)
    requires rd.RTake?
  {
    Chunk(rd.i) < |s.hist| && s.hist[Chunk(rd.i)] == rd.b
  }

  lemma WhereTaken(s: Mem, rd: Reader)
    requires ReaderOk(s, rd) && rd.RTake?
    ensures InItsBlock(s, rd)
  {
    hide Chunk;
  }

  lemma TakeClean(s: Mem, rd: Reader)
    requires Clean(s) && Typed(s) && ReaderTyped(s, rd) && rd.RTake? && InItsBlock(s, rd)
    ensures Clean(TakenFrom(s, rd))
  {
    hide Typed, Chunk, Off;
    var s' := TakenFrom(s, rd);
    forall i: nat | Live(s', Chunk(i)) && Vacant(s', i) ensures CellVoid(s', i) {
      if i != rd.i { assert CellVoid(s, i); }
    }
  }

  lemma ReaderClean(s: Mem, rd: Reader, e: Event, s': Mem, rd': Reader)
    requires Core(s) && Clean(s) && Typed(s) && ReaderTyped(s, rd) && ReaderOk(s, rd) && ReaderStep(s, rd, e, s', rd')
    ensures Clean(s')
  {
    if rd.RTake? {
      hide Core, Clean, ReaderOk, TakenFrom, InItsBlock, Typed, ReaderTyped;
      WhereTaken(s, rd);
      TakeClean(s, rd);
    } else {
      hide Core, Clean, ReaderOk, Chunk, Off, Typed;
      CleanFrame(s, s');
    }
  }

  lemma StepClean(s: State, e: Event, s': State)
    requires Inv(s) && Step(s, e, s') && Clean(s.m)
    ensures Clean(s'.m)
  {
    hide Core, Clean, Typed, ReaderTyped, ReaderOk, ProducerStep, ReaderStep, Q.TicketsInRange, Q.Step, Q.Inv;
    if ProducerStep(s.m, e, s'.m) && s'.readers == s.readers {
      ProducerClean(s.m, e, s'.m);
    } else if exists qe: Q.Event :: CounterMoves(s, qe, s') && e == Shown(qe) {
      var qe: Q.Event :| CounterMoves(s, qe, s') && e == Shown(qe);
      QInv(s.m);
      Q.StepMonotone(s.m.c, qe, s'.m.c);
      CleanFrame(s.m, s'.m);
    } else {
      var t: nat :| t < |s.readers| && ReaderMoves(s, t, e, s');
      ReaderClean(s.m, s.readers[t], e, s'.m, s'.readers[t]);
    }
  }

  lemma InitiallyClean(s: State)
    requires Init(s)
    ensures Clean(s.m)
  {}

  lemma {:induction false} RunClean(r: seq<State>, ev: seq<Event>, i: nat)
    requires Run(r, ev) && i < |r|
    ensures Clean(r[i].m)
  {
    hide Inv, Step, Clean, Init;
    if i == 0 {
      InitiallyClean(r[0]);
    } else {
      RunInvariant(r, ev, i - 1);
      RunClean(r, ev, i - 1);
      assert Step(r[i - 1], ev[i - 1], r[i]);
      StepClean(r[i - 1], ev[i - 1], r[i]);
    }
  }

  /** The cell in which an element is about to be constructed holds none. */
  lemma ConstructsInVoid(r: seq<State>, ev: seq<Event>, i: nat)
    requires Run(r, ev) && i < |r| && r[i].m.prod.PWrite?
    ensures var s := r[i].m; s.c.tail >= 0 && BlockTyped(s, s.tailBlock) && s.blocks[s.tailBlock].cells[Off(s.c.tail)] == Void
  {
    RunInvariant(r, ev, i);
    RunClean(r, ev, i);
    var s := r[i].m;
    TailPlace(s);
    hide Run, Inv, Core, Chunk, Off;
    assert CellVoid(s, s.c.tail);
  }

  lemma TailPlace(s: Mem)
    requires Core(s) && s.prod.PWrite?
    ensures s.c.tail >= 0 && Live(s, Chunk(s.c.tail)) && s.hist[Chunk(s.c.tail)] == s.tailBlock
  {
    hide Q.Inv, IndexOk, DataOk, Chunk;
    TailNotNegative(s);
  }
}
