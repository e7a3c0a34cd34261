/** The consumer that claims index i of an implicit producer receives the i-th item, and every block goes
    back to the pool once, after its last element is out. */
module ImplicitProducerProof {
  import opened Common
  import opened Chunks
  import opened ImplicitProducer
  import Q = DequeueCounters
  import I = ImplicitIndex
  import IP = ImplicitIndexProof

  // ---------------------------------------------------------------- counting

  lemma {:induction false} SubsetCard(a: set<nat>, b: set<nat>)
    requires a <= b
    ensures |a| <= |b| && (|a| == |b| ==> a == b)
    decreases |a|
  {
    if a != {} {
      var i :| i in a;
      SubsetCard(a - {i}, b - {i});
      assert a == (a - {i}) + {i} && b == (b - {i}) + {i};
    }
  }

  lemma ChunkRange(n: nat, i: nat)
    ensures Chunk(i) == n <==> Base(n) <= i < Base(n) + BLOCK_SIZE
  {
    BelowBase(i, n);
    BelowBase(i, n + 1);
  }

  /** A block counts at most BLOCK_SIZE elements, and all of them when it counts that many. */
  lemma FullCount(d: Data, n: nat)
    ensures |InChunk(d.counted, n)| <= BLOCK_SIZE
    ensures |InChunk(d.counted, n)| == BLOCK_SIZE <==> AllCounted(d, n)
  {
    var a, b := InChunk(d.counted, n), Range(Base(n), Base(n) + BLOCK_SIZE);
    forall i: nat ensures Chunk(i) == n <==> i in b { ChunkRange(n, i); }
    SubsetCard(a, b);
    if AllCounted(d, n) { assert a == b; }
  }

  lemma SameChunk(from: nat, i: nat, j: nat)
    requires from <= j < i && Chunk(from) == Chunk(i - 1)
    ensures Chunk(j) == Chunk(from)
  {
    ChunkMonotone(from, j);
    ChunkMonotone(j, i - 1);
  }

  lemma CountRange(s: set<nat>, from: nat, i: nat, n: nat)
    requires from < i && Chunk(from) == Chunk(i - 1) && NoneOf(s, from, i)
    ensures |InChunk(s + Range(from, i), n)| == |InChunk(s, n)| + if n == Chunk(from) then i - from else 0
  {
    var a := Range(from, i);
    forall j: nat | j in a ensures Chunk(j) == Chunk(from) { SameChunk(from, i, j); }
    if n == Chunk(from) {
      assert InChunk(s + a, n) == InChunk(s, n) + a;
      assert InChunk(s, n) !! a;
    } else {
      assert InChunk(s + a, n) == InChunk(s, n);
    }
  }

  /** An index of chunk `n` among consecutive ones. */
  lemma ChunkHit(lo: nat, hi: nat, n: nat) returns (j: nat)
    requires lo < hi && Chunk(lo) <= n <= Chunk(hi - 1)
    ensures lo <= j < hi && Chunk(j) == n
  {
    if Chunk(lo) == n {
      j := lo;
    } else {
      j := Base(n);
      BelowBase(lo, n);
      BelowBase(hi - 1, n);
      BaseIsStart(n, 0);
    }
  }

  // ---------------------------------------------------------------- facts in any good state

  lemma QFacts(d: Data)
    requires Q.Inv(d.c)
    ensures 0 <= d.c.head <= d.c.tail
  {
    Q.HeadBelowTail(d.c);
    Q.HeadNotNegative(d.c.claims, d.c.head);
  }

  /** Published indices are in published blocks. */
  lemma PublishedChunk(x: I.State, d: Data, i: nat)
    requires PhaseOk(x, d) && i < d.c.tail
    ensures Chunk(i) < |x.m.storage|
  {
    BelowBase(i, |x.m.storage|);
    ChunkMonotone(i, d.c.tail);
  }

  /** A block with an element not counted is in the index and held. */
  lemma UncountedIsHeld(x: I.State, d: Data, i: nat)
    requires PhaseOk(x, d) && HeldOk(x, d) && i < d.c.tail && i !in d.counted
    ensures I.Live(x.m, Chunk(i)) && Held(x, d, Chunk(i)) && BlockOk(x, d, Chunk(i))
  {
    PublishedChunk(x, d, i);
  }

  lemma ReleasedInRange(x: I.State, n: nat)
    requires I.Inv(x) && n in x.m.released
    ensures n < |x.m.storage|
  {
    IP.InvIndex(x);
    IP.IndexHeaders(x.m);
  }

  // ---------------------------------------------------------------- what the others do not disturb

  /** A step that moves history forward without touching what work `w` at `r` is concerned with. */
  ghost predicate Undisturbed(x: I.State, d: Data, w: Work, r: I.Reader, x': I.State, d': Data) {
    && x.m.storage <= x'.m.storage && d.items <= d'.items && d.c.head <= d'.c.head <= |d'.items|
    && d.taken <= d'.taken && d.counted <= d'.counted && x.m.released <= x'.m.released
    && (forall i :: i in d'.taken && i !in d.taken ==> !Has(w, i))
    && (forall i :: i in d'.counted && i !in d.counted ==> !Has(w, i))
    && (forall n :: n in x'.m.released && n !in x.m.released ==> !Finishing(w, r, n))
    && (forall n :: n in d'.freed && n !in d.freed ==> !Finishing(w, r, n))
  }

  lemma WorkFrame(x: I.State, d: Data, w: Work, r: I.Reader, x': I.State, d': Data)
    requires WorkOk(x, d, w, r) && Undisturbed(x, d, w, r, x', d')
    ensures WorkOk(x', d', w, r)
  {
    if !w.WIdle? {
      ClaimFrame(d, w, d');
      hide ClaimOk;
      PlaceFrame(x, d, w, r, x', d');
    }
  }

  lemma ClaimFrame(d: Data, w: Work, d': Data)
    requires !w.WIdle? && ClaimOk(d, w)
    requires d.items <= d'.items && d.c.head <= d'.c.head <= |d'.items| && d.taken <= d'.taken && d.counted <= d'.counted
    requires (forall i :: i in d'.taken && i !in d.taken ==> !Has(w, i))
    requires (forall i :: i in d'.counted && i !in d.counted ==> !Has(w, i))
    ensures ClaimOk(d', w)
  {
    assert d'.items[w.first..w.i] == d.items[w.first..w.i];
  }

  lemma PlaceFrame(x: I.State, d: Data, w: Work, r: I.Reader, x': I.State, d': Data)
    requires !w.WIdle? && w.len > 0 && PlaceOk(x, d, w, r) && Undisturbed(x, d, w, r, x', d')
    ensures PlaceOk(x', d', w, r)
  {
    hide EndOfBlock;
    assert forall n, b :: Hosts(x, n, b) ==> Hosts(x', n, b);
    assert forall n :: AllCounted(d, n) ==> AllCounted(d', n);
  }

  // ---------------------------------------------------------------- the producer

  lemma ProdOnly(x: I.State, d: Data, d': Data)
    requires HeldOk(x, d) && DataOk(x, d) && d' == d.(prod := d'.prod)
    requires d'.prod.PWrite? ==> BlockTyped(d, d.tailBlock)
    requires !d'.prod.PTail?
    ensures HeldOk(x, d') && DataOk(x, d')
  {
    hide Chunk, Off;
    assert forall n :: AllCounted(d, n) ==> AllCounted(d', n);
    assert forall n: nat :: Held(x, d', n) ==> Held(x, d, n) && (BlockOk(x, d, n) ==> BlockOk(x, d', n));
    assert forall i: nat :: i < |d.items| && ElementOk(x, d, i) ==> ElementOk(x, d', i);
  }

  /** The block of the tail is held as long as there is room in it. */
  lemma TailBlockHeld(x: I.State, d: Data)
    requires Q.Inv(d.c) && PhaseOk(x, d) && HeldOk(x, d) && DataOk(x, d) && Off(d.c.tail) != 0
    ensures |x.m.storage| > 0 && Held(x, d, |x.m.storage| - 1) && d.tailBlock == x.m.storage[|x.m.storage| - 1]
    ensures BlockTyped(d, d.tailBlock)
  {
    QFacts(d);
    assert d.c.tail !in d.counted;
    assert BlockOk(x, d, |x.m.storage| - 1);
  }

  lemma BeginCore(s: State, e: Event, s': State)
    requires Core(s.x, s.d) && Typed(s) && (s.d.prod.PIdle? || s.d.prod.PCheck?) && ProducerStep(s, e, s')
    ensures Core(s'.x, s'.d)
  {
    hide I.Inv, Q.Inv, HeldOk, DataOk, Chunk, Off;
    if Off(s.d.c.tail) != 0 { TailBlockHeld(s.x, s.d); }
    ProdOnly(s.x, s.d, s'.d);
  }

  /** What a step of the insertion leaves alone. */
  lemma IndexStep(x: I.State, x': I.State)
    requires I.Typed(x) && I.ProducerStep(x, x') && !x.prod.PPublish?
    ensures x'.m.storage == x.m.storage && x'.m.released == x.m.released && x'.readers == x.readers
    ensures x'.prod.PStoreValue? ==> x.prod.PRequisition?
    ensures x'.prod.PPublish? ==> x.prod.PStoreValue? && x'.prod.b == x.prod.b
    ensures x.prod.PStoreValue? ==> x'.prod.PPublish?
    ensures x.prod.PClear? ==> x'.prod.PIdle?
  {
    hide I.HeaderOk, I.At, I.Free, I.NextSlot;
  }

  /** Nothing of what is held or on its way changes. */
  lemma SameHeld(x: I.State, d: Data, x': I.State)
    requires HeldOk(x, d) && DataOk(x, d) && x'.m.storage == x.m.storage && x'.m.released == x.m.released
    requires forall b :: Coming(x', b) ==> Coming(x, b)
    ensures HeldOk(x', d) && DataOk(x', d)
  {
    hide Chunk, Off;
    assert forall n: nat :: Held(x', d, n) ==> Held(x, d, n) && (BlockOk(x, d, n) ==> BlockOk(x', d, n));
    assert forall i: nat :: i < |d.items| && ElementOk(x, d, i) ==> ElementOk(x', d, i);
  }

  lemma RequisitionKeeps(x: I.State, d: Data, b: I.Storage, cells: seq<Cell>, x': I.State)
    requires HeldOk(x, d) && DataOk(x, d) && x'.m.storage == x.m.storage && x'.m.released == x.m.released
    requires x'.prod.PStoreValue? && x'.prod.b == b && b !in d.mine && |cells| == BLOCK_SIZE && d.prod.PInsert?
    ensures HeldOk(x', Requisitioned(d, b, cells)) && DataOk(x', Requisitioned(d, b, cells))
  {
    hide Chunk, Off;
    var d' := Requisitioned(d, b, cells);
    forall n: nat | Held(x', d', n) ensures BlockOk(x', d', n) && x.m.storage[n] != b { assert Held(x, d, n); }
    forall i: nat | i < |d'.items| && i !in d'.taken ensures ElementOk(x', d', i) { assert ElementOk(x, d, i); }
    assert forall n :: AllCounted(d, n) ==> AllCounted(d', n);
  }

  lemma InsertCore(s: State, v: int, e: Event, s': State)
    requires Core(s.x, s.d) && Typed(s) && s.d.prod == PInsert(v) && s'.work == s.work && InsertStep(s, v, e, s')
    ensures Core(s'.x, s'.d)
  {
    hide I.Inv, Q.Inv, HeldOk, DataOk, Chunk, Off, I.Typed, I.ProducerStep;
    var x, d, x', d' := s.x, s.d, s'.x, s'.d;
    IP.ProducerKeeps(x, x');
    IndexStep(x, x');
    if x.prod.PRequisition? && x'.prod.PStoreValue? {
      var cells: seq<Cell> :| |cells| == BLOCK_SIZE && d' == Requisitioned(d, x'.prod.b, cells);
      RequisitionKeeps(x, d, x'.prod.b, cells, x');
    } else {
      SameHeld(x, d, x');
      if x.prod.PStoreValue? {
        ValueTyped(x', d);
        BlockInserted(x', d, d', x.prod.b);
      } else {
        ProdOnly(x', d, d');
      }
    }
  }

  lemma ValueTyped(x: I.State, d: Data)
    requires HeldOk(x, d) && x.prod.PPublish?
    ensures BlockTyped(d, x.prod.b)
  {
    assert Coming(x, x.prod.b);
  }

  lemma BlockInserted(x: I.State, d: Data, d': Data, b: I.Storage)
    requires HeldOk(x, d) && DataOk(x, d) && BlockTyped(d, b) && d.prod.PInsert? && d'.prod.PWrite?
    requires d' == d.(tailBlock := b, prod := d'.prod)
    ensures HeldOk(x, d') && DataOk(x, d')
  {
    hide Chunk, Off;
    assert forall n :: AllCounted(d, n) ==> AllCounted(d', n);
    assert forall n: nat :: Held(x, d', n) ==> Held(x, d, n) && (BlockOk(x, d, n) ==> BlockOk(x, d', n));
    assert forall i: nat :: i < |d.items| && ElementOk(x, d, i) ==> ElementOk(x, d', i);
  }

  /** The cell about to be written holds no element still wanted. */
  lemma TailCellUnused(x: I.State, d: Data, i: nat)
    requires Q.Inv(d.c) && PhaseOk(x, d) && HeldOk(x, d) && DataOk(x, d) && d.prod.PWrite?
    requires i < |d.items| && ElementOk(x, d, i) && x.m.storage[Chunk(i)] == d.tailBlock
    ensures Off(i) != Off(d.c.tail)
  {
    hide Chunk, Off, Q.Inv;
    assert Off(d.c.tail) == 0 ==> Coming(x, d.tailBlock);
    if Off(d.c.tail) != 0 {
      TailBlockHeld(x, d);
      if Off(i) == Off(d.c.tail) { ChunkOffInjective(i, d.c.tail); }
    }
  }

  lemma WriteCore(s: State, e: Event, s': State)
    requires Core(s.x, s.d) && Typed(s) && s.d.prod.PWrite? && ProducerStep(s, e, s')
    ensures Core(s'.x, s'.d)
  {
    hide Chunk, Off, Q.Inv, I.Inv, I.Typed, I.ProducerStep, InsertStep, Q.TicketsInRange;
    var x, d, d' := s.x, s.d, s'.d;
    assert forall n :: AllCounted(d, n) ==> AllCounted(d', n);
    forall n: nat | Held(x, d', n) ensures BlockOk(x, d', n) { assert Held(x, d, n); assert BlockOk(x, d, n); }
    forall i: nat | i < |d'.items| && i !in d'.taken ensures ElementOk(x, d', i) {
      assert ElementOk(x, d, i);
      if x.m.storage[Chunk(i)] == d.tailBlock { TailCellUnused(x, d, i); }
    }
  }

  lemma CountersEnqueue(d: Data)
    requires Q.Inv(d.c)
    ensures Q.Inv(d.c.(tail := d.c.tail + 1))
  {
    Q.InvTickets(d.c);
    hide Q.Inv;
    assert Q.Step(d.c, Q.Enqueued, d.c.(tail := d.c.tail + 1));
    Q.StepKeeps(d.c, Q.Enqueued, d.c.(tail := d.c.tail + 1));
  }

  /** Where the tail is after one more element. */
  lemma TailPhase(x: I.State, d: Data, x': I.State, d': Data)
    requires PhaseOk(x, d) && d.prod.PTail? && d' == Tailed(d, d.prod.x) && x'.prod.PIdle?
    requires x'.m.storage == if Off(d.c.tail) == 0 then x.m.storage + [d.tailBlock] else x.m.storage
    ensures PhaseOk(x', d') && Chunk(d.c.tail) == |x'.m.storage| - 1 && x'.m.storage[Chunk(d.c.tail)] == d.tailBlock
  {
    var n, tail := |x.m.storage|, d.c.tail;
    hide Chunk, Off, Base;
    ChunkNext(tail);
    BaseIsStart(n, 0);
    ChunkIsDivision(tail + 1);
  }

  lemma TailData(x: I.State, d: Data, x': I.State, d': Data)
    requires DataOk(x, d) && d.prod.PTail? && d' == Tailed(d, d.prod.x) && d.c.tail >= 0
    requires x.m.storage <= x'.m.storage && Held(x', d, Chunk(d.c.tail)) && x'.m.storage[Chunk(d.c.tail)] == d.tailBlock
    ensures DataOk(x', d')
  {
    hide Chunk, Off;
    forall i: nat | i < |d'.items| && i !in d'.taken ensures ElementOk(x', d', i) {
      if i < |d.items| { assert ElementOk(x, d, i); }
    }
  }

  lemma TailHeld(x: I.State, d: Data, d': Data, v: int)
    requires HeldOk(x, d) && d' == Tailed(d, v)
    ensures HeldOk(x, d')
  {
    hide Chunk, Off;
    assert forall n :: AllCounted(d, n) ==> AllCounted(d', n);
    assert forall n: nat :: Held(x, d', n) ==> Held(x, d, n) && (BlockOk(x, d, n) ==> BlockOk(x, d', n));
  }

  /** A block is published: it is held, with nothing of it counted. */
  lemma PublishHeld(x: I.State, d: Data, x': I.State)
    requires I.Inv(x) && Q.Inv(d.c) && PhaseOk(x, d) && HeldOk(x, d) && DataOk(x, d) && x.prod.PPublish? && Off(d.c.tail) == 0
    requires x'.prod.PIdle? && x'.m.storage == x.m.storage + [x.prod.b] && x'.m.released == x.m.released
    ensures HeldOk(x', d) && Held(x', d, |x.m.storage|)
  {
    hide I.Inv, Q.Inv, DataOk, Chunk, Off;
    var n := |x.m.storage|;
    assert Coming(x, x.prod.b);
    NothingCounted(x, d);
    if n in d.freed { ReleasedInRange(x, n); }
    forall k: nat | Held(x', d, k) ensures BlockOk(x', d, k) {
      if k < n { assert Held(x, d, k); assert BlockOk(x, d, k); }
    }
    forall j: nat, k: nat | Held(x', d, j) && Held(x', d, k) && x'.m.storage[j] == x'.m.storage[k] ensures j == k {
      assert j < n ==> Held(x, d, j);
      assert k < n ==> Held(x, d, k);
    }
  }

  lemma NothingCounted(x: I.State, d: Data)
    requires Q.Inv(d.c) && PhaseOk(x, d) && DataOk(x, d) && Off(d.c.tail) == 0
    ensures |InChunk(d.counted, |x.m.storage|)| == 0
  {
    QFacts(d);
    var n := |x.m.storage|;
    forall i | i in d.counted ensures Chunk(i) != n { ChunkRange(n, i); }
    assert InChunk(d.counted, n) == {};
  }

  lemma TailCore(s: State, e: Event, s': State)
    requires Core(s.x, s.d) && Typed(s) && s.d.prod.PTail? && ProducerStep(s, e, s')
    ensures Core(s'.x, s'.d)
  {
    hide Chunk, Off, Q.Inv, I.Inv, I.Typed, InsertStep, Q.TicketsInRange, HeldOk, DataOk;
    var x, d, x', d' := s.x, s.d, s'.x, s'.d;
    CountersEnqueue(d);
    if Off(d.c.tail) == 0 {
      IP.ProducerKeeps(x, x');
      PublishHeld(x, d, x');
    } else {
      TailBlockHeld(x, d);
    }
    hide I.ProducerStep;
    TailPhase(x, d, x', d');
    TailHeld(x', d, d', d.prod.x);
    TailData(x, d, x', d');
  }

  lemma ProducerGrows(s: State, e: Event, s': State)
    requires Typed(s) && ProducerStep(s, e, s')
    ensures s.x.m.storage <= s'.x.m.storage && s'.x.m.released == s.x.m.released && s'.x.readers == s.x.readers
    ensures s'.d.items == (if e.Enqueued? then s.d.items + [e.x] else s.d.items)
    ensures s'.d.c.head == s.d.c.head && s'.d.c.consumers == s.d.c.consumers
    ensures s'.d.taken == s.d.taken && s'.d.counted == s.d.counted && s'.d.freed == s.d.freed
    ensures !e.Delivered?
  {
    hide Chunk, Off, I.Typed, Q.TicketsInRange;
    if s.d.prod.PInsert? && s.x.prod != s'.x.prod {
      IndexStep(s.x, s'.x);
    }
  }

  lemma ProducerKeeps(s: State, e: Event, s': State)
    requires Inv(s) && Typed(s) && ProducerStep(s, e, s')
    ensures Inv(s')
  {
    hide Core, WorkOk, Typed, Has, Finishing;
    assert Core(s'.x, s'.d) by { ProducerCore(s, e, s'); }
    ProducerGrows(s, e, s');
    hide ProducerStep;
    HeadInItems(s.x, s.d);
    forall t | 0 <= t < |s'.work| ensures WorkOk(s'.x, s'.d, s'.work[t], s'.x.readers[t]) {
      assert Undisturbed(s.x, s.d, s.work[t], s.x.readers[t], s'.x, s'.d);
      WorkFrame(s.x, s.d, s.work[t], s.x.readers[t], s'.x, s'.d);
    }
  }

  lemma HeadInItems(x: I.State, d: Data)
    requires Core(x, d)
    ensures 0 <= d.c.head <= |d.items|
  {
    QFacts(d);
  }

  lemma ProducerCore(s: State, e: Event, s': State)
    requires Core(s.x, s.d) && Typed(s) && ProducerStep(s, e, s')
    ensures Core(s'.x, s'.d)
  {
    match s.d.prod {
      case PIdle => hide *; BeginCore(s, e, s');
      case PCheck(_) => hide *; BeginCore(s, e, s');
      case PInsert(v) =>
        assert InsertStep(s, v, e, s') && s'.work == s.work;
        hide *;
        InsertCore(s, v, e, s');
      case PWrite(_) => hide *; WriteCore(s, e, s');
      case PTail(_) => hide *; TailCore(s, e, s');
    }
  }

  // ---------------------------------------------------------------- claiming

  lemma CounterCore(x: I.State, d: Data, qe: Q.Event, c: Q.State)
    requires Core(x, d) && Q.Step(d.c, qe, c) && qe != Q.Enqueued
    ensures var d' := d.(c := c); Q.Inv(c) && PhaseOk(x, d') && HeldOk(x, d') && DataOk(x, d')
  {
    Q.StepKeeps(d.c, qe, c);
    Q.StepMonotone(d.c, qe, c);
    hide Chunk, Off, Q.Inv, I.Inv, Q.Step;
    var d' := d.(c := c);
    assert forall n :: AllCounted(d, n) ==> AllCounted(d', n);
    assert forall n: nat :: Held(x, d', n) ==> Held(x, d, n) && (BlockOk(x, d, n) ==> BlockOk(x, d', n));
    assert forall i: nat :: i < |d.items| && ElementOk(x, d, i) ==> ElementOk(x, d', i);
  }

  /** The blocks of indices that nobody has counted are in the index. */
  lemma ClaimIsLive(x: I.State, d: Data, first: nat, len: nat)
    requires PhaseOk(x, d) && HeldOk(x, d) && len > 0 && first + len <= d.c.tail && NoneOf(d.counted, first, first + len)
    ensures Chunk(first) <= Chunk(first + len - 1) && I.AllLive(x.m, Chunk(first), Chunk(first + len - 1))
  {
    hide PhaseOk, HeldOk, Chunk;
    ChunkMonotone(first, first + len - 1);
    forall n: nat | Chunk(first) <= n <= Chunk(first + len - 1) ensures I.Live(x.m, n) {
      var j := ChunkHit(first, first + len, n);
      UncountedIsHeld(x, d, j);
    }
  }

  lemma ClaimIndex(x: I.State, t: nat, lo: nat, hi: nat)
    requires I.Inv(x) && t < |x.readers| && x.readers[t].RIdle? && lo <= hi && I.AllLive(x.m, lo, hi)
    ensures var x' := SetReader(x, t, I.RHeader(lo, hi)); I.Inv(x') && I.Typed(x) && I.ConsumerStep(x, t, x')
  {
    IP.InvTyped(x);
    hide I.Inv, I.Typed;
    var x' := SetReader(x, t, I.RHeader(lo, hi));
    TypedHeaders(x);
    assert I.ConsumerStep(x, t, x');
    IP.ConsumerKeeps(x, t, x');
  }

  lemma TypedHeaders(x: I.State)
    requires I.Typed(x)
    ensures I.AllHeaders(x.m) && forall t :: 0 <= t < |x.readers| ==> I.ReaderTyped(x.m, x.readers[t])
  {}

  lemma NewClaim(x: I.State, d: Data, first: nat, len: nat, r: I.Reader)
    requires DataOk(x, d) && len > 0 && d.c.head == first + len <= |d.items| && (forall i :: i in d.taken ==> i < first)
    requires r == I.RHeader(Chunk(first), Chunk(first + len - 1))
    ensures WorkOk(x, d, WFind(first, len, first, []), r)
  {}

  lemma CounterKeeps(s: State, qe: Q.Event, s': State)
    requires Inv(s) && Typed(s) && CounterMoves(s, qe, s')
    ensures Inv(s')
  {
    hide WorkOk, Has, Finishing, Q.Inv, Q.Step, Chunk, Off, PhaseOk, HeldOk, DataOk, I.Inv, I.Typed;
    var x, d, d' := s.x, s.d, s'.d;
    CounterCore(x, d, qe, d'.c);
    Q.StepMonotone(d.c, qe, d'.c);
    QFacts(d);
    QFacts(d');
    DataFacts(x, d);
    if qe.Claimed? {
      var t, first, len := qe.t, qe.c.first, qe.c.len;
      assert WorkOk(x, d, s.work[t], x.readers[t]);
      IdleWork(x, d, s.work[t], x.readers[t]);
      ClaimIsLive(x, d', first, len);
      ClaimIndex(x, t, Chunk(first), Chunk(first + len - 1));
      SameHeld(x, d', s'.x);
      SamePhase(x, d', s'.x);
      NewClaim(s'.x, d', first, len, s'.x.readers[t]);
      ClaimApart(s, t, s');
    }
    forall u | 0 <= u < |s'.work| && !(qe.Claimed? && u == qe.t) ensures WorkOk(s'.x, d', s'.work[u], s'.x.readers[u]) {
      assert Undisturbed(x, d, s.work[u], x.readers[u], s'.x, d');
      WorkFrame(x, d, s.work[u], x.readers[u], s'.x, d');
    }
  }

  lemma DataFacts(x: I.State, d: Data)
    requires DataOk(x, d)
    ensures |d.items| == d.c.tail && d.counted <= d.taken && forall i :: i in d.taken ==> i < d.c.head
  {}

  lemma IdleWork(x: I.State, d: Data, w: Work, r: I.Reader)
    requires WorkOk(x, d, w, r)
    ensures w.WIdle? ==> r.RIdle?
    ensures !w.WIdle? ==> w.first + w.len <= d.c.head
  {}

  lemma SamePhase(x: I.State, d: Data, x': I.State)
    requires PhaseOk(x, d) && x'.m == x.m && x'.prod == x.prod
    ensures PhaseOk(x', d)
  {}

  /** No index and no completed block is shared by the two. */
  ghost predicate Separate(w: Work, r: I.Reader, v: Work, q: I.Reader) {
    && (forall i: nat :: !(Has(w, i) && Has(v, i)))
    && (forall n: nat :: !(Finishing(w, r, n) && Finishing(v, q, n)))
  }

  lemma SeparateAt(s: State, t: nat, u: nat)
    requires |s.work| == |s.x.readers| && Apart(s) && t < |s.work| && u < |s.work| && t != u
    ensures Separate(s.work[t], s.x.readers[t], s.work[u], s.x.readers[u])
  {
    hide Has, Finishing;
    assert t < u || u < t;
  }

  predicate OneMoved(s: State, t: nat, s': State) {
    && t < |s.work| == |s.x.readers| && |s'.work| == |s.work| == |s'.x.readers|
    && s'.work == s.work[t := s'.work[t]] && s'.x.readers == s.x.readers[t := s'.x.readers[t]]
  }

  /** One consumer has moved and is still apart from the others. */
  lemma ApartAfter(s: State, t: nat, s': State)
    requires OneMoved(s, t, s') && Apart(s)
    requires forall u: nat :: u < |s.work| && u != t ==> Separate(s'.work[t], s'.x.readers[t], s.work[u], s.x.readers[u])
    ensures Apart(s')
  {
    hide Has, Finishing;
    forall a: nat, b: nat | a < b < |s.work| ensures Separate(s'.work[a], s'.x.readers[a], s'.work[b], s'.x.readers[b]) {
      if a != t && b != t { SeparateAt(s, a, b); }
      if b == t { assert Separate(s'.work[t], s'.x.readers[t], s.work[a], s.x.readers[a]); }
    }
  }

  lemma ClaimApart(s: State, t: nat, s': State)
    requires WorkersOk(s) && Apart(s) && OneMoved(s, t, s')
    requires s'.work[t].WFind? && s'.work[t].first >= s.d.c.head
    ensures Apart(s')
  {
    hide WorkOk;
    forall u: nat | u < |s.work| && u != t ensures Separate(s'.work[t], s'.x.readers[t], s.work[u], s.x.readers[u]) {
      IdleWork(s.x, s.d, s.work[u], s.x.readers[u]);
    }
    ApartAfter(s, t, s');
  }

  // ---------------------------------------------------------------- consumers

  lemma IndexConsumer(x: I.State, t: nat, x': I.State)
    requires I.Inv(x) && I.Typed(x) && t < |x.readers| && I.ConsumerStep(x, t, x')
    ensures I.Inv(x')
  {
    hide *;
    IP.ConsumerKeeps(x, t, x');
  }

  /** What the index promises a consumer. */
  lemma IndexReader(x: I.State, t: nat)
    requires I.Inv(x) && t < |x.readers|
    ensures I.AllHeaders(x.m) && I.ReaderTyped(x.m, x.readers[t])
    ensures var r := x.readers[t]; r.RKey? ==> I.At(x.m, x.m.headers[r.h], r.p).key.Some?
    ensures var r := x.readers[t]; r.RAt? ==>
      r.n < |x.m.storage| && I.At(x.m, x.m.headers[r.h], r.p) == I.Entry(Some(r.n), Some(x.m.storage[r.n]))
  {
    IP.InvTyped(x);
    TypedHeaders(x);
    assert I.ReaderOk(x.m, x.readers[t]);
    hide I.Inv, I.Typed;
    if x.readers[t].RAt? { IP.ReaderHolds(x.m, x.readers[t]); }
  }

  /** One consumer has moved, and touched only what is its own. */
  lemma WorkersKeep(s: State, t: nat, s': State)
    requires WorkersOk(s) && OneMoved(s, t, s') && s'.d.c.consumers == s.d.c.consumers && !s.work[t].WIdle?
    requires WorkOk(s'.x, s'.d, s'.work[t], s'.x.readers[t])
    requires forall u: nat :: u < |s.work| && u != t ==> Undisturbed(s.x, s.d, s.work[u], s.x.readers[u], s'.x, s'.d)
    ensures WorkersOk(s')
  {
    hide Undisturbed, WorkOk;
    forall u: nat | u < |s.work| && u != t ensures WorkOk(s'.x, s'.d, s'.work[u], s'.x.readers[u]) {
      WorkFrame(s.x, s.d, s.work[u], s.x.readers[u], s'.x, s'.d);
    }
  }

  /** The same when it claims no new index and completes no block. */
  lemma ApartShrinks(s: State, t: nat, s': State)
    requires OneMoved(s, t, s') && Apart(s)
    requires forall i: nat :: Has(s'.work[t], i) ==> Has(s.work[t], i)
    requires forall n: nat :: Finishing(s'.work[t], s'.x.readers[t], n) ==> Finishing(s.work[t], s.x.readers[t], n)
    ensures Apart(s')
  {
    hide Has, Finishing;
    forall u: nat | u < |s.work| && u != t ensures Separate(s'.work[t], s'.x.readers[t], s.work[u], s.x.readers[u]) {
      SeparateAt(s, t, u);
    }
    ApartAfter(s, t, s');
  }

  lemma LookupKeeps(s: State, t: nat, e: Event, s': State)
    requires Inv(s) && Typed(s) && t < |s.work| && s.work[t].WFind? && !s.x.readers[t].RAt? && WorkMoves(s, t, e, s')
    ensures Inv(s')
  {
    HeadInItems(s.x, s.d);
    hide HeldOk, DataOk, PhaseOk, Q.Inv, I.Inv, Chunk, I.At, ClaimOk, I.Typed, Q.TicketsInRange;
    var x, x' := s.x, s'.x;
    TypedHeaders(x);
    assert x'.m == x.m && x'.prod == x.prod;
    assert I.ConsumerStep(x, t, x');
    IndexConsumer(x, t, x');
    SameHeld(x, s.d, x');
    SamePhase(x, s.d, x');
    assert WorkOk(x, s.d, s.work[t], x.readers[t]);
    assert WorkOk(x', s.d, s.work[t], x'.readers[t]);
    hide WorkOk;
    WorkersKeep(s, t, s');
    ApartShrinks(s, t, s');
  }

  lemma LoadWork(x: I.State, d: Data, w: Work, r: I.Reader, w': Work)
    requires WorkOk(x, d, w, r) && w.WFind? && r.RAt? && r.n < |x.m.storage|
    requires w' == WTake(w.first, w.len, w.i, w.out, x.m.storage[r.n], w.i)
    ensures WorkOk(x, d, w', r)
  {
    hide Chunk;
  }

  lemma LoadKeeps(s: State, t: nat, e: Event, s': State)
    requires Inv(s) && Typed(s) && t < |s.work| && s.work[t].WFind? && s.x.readers[t].RAt? && WorkMoves(s, t, e, s')
    ensures Inv(s')
  {
    HeadInItems(s.x, s.d);
    hide HeldOk, DataOk, PhaseOk, Q.Inv, I.Inv, Chunk, I.Typed, Q.TicketsInRange;
    hide WorkOk;
    IndexReader(s.x, t);
    LoadWork(s.x, s.d, s.work[t], s.x.readers[t], s'.work[t]);
    WorkersKeep(s, t, s');
    ApartShrinks(s, t, s');
  }

  // Taking an element.

  lemma TakeHeld(x: I.State, d: Data, w: Work)
    requires HeldOk(x, d) && w.WTake? && BlockTyped(d, w.b)
    ensures HeldOk(x, TakenFrom(d, w))
  {
    hide Chunk, Off;
    var d' := TakenFrom(d, w);
    assert forall n :: AllCounted(d, n) ==> AllCounted(d', n);
    assert forall n: nat :: Held(x, d', n) ==> Held(x, d, n) && (BlockOk(x, d, n) ==> BlockOk(x, d', n));
  }

  /** The block a consumer works on is held, and is nobody else's. */
  lemma WorkBlockHeld(x: I.State, d: Data, w: Work, r: I.Reader)
    requires Core(x, d) && WorkOk(x, d, w, r) && (w.WTake? || w.WCount?)
    ensures Held(x, d, Chunk(w.from)) && BlockOk(x, d, Chunk(w.from)) && x.m.storage[Chunk(w.from)] == w.b && BlockTyped(d, w.b)
    ensures Chunk(w.from) !in x.m.released
  {
    hide Chunk, Off, I.Inv, Q.Inv;
    QFacts(d);
    UncountedIsHeld(x, d, w.from);
  }

  /** The cell of an element to be taken is not the one the producer is writing. */
  lemma TakeNotTail(x: I.State, d: Data, i: nat)
    requires Core(x, d) && d.prod.PTail? && i < d.c.tail && Held(x, d, Chunk(i)) && x.m.storage[Chunk(i)] == d.tailBlock
    ensures Off(i) != Off(d.c.tail)
  {
    hide Chunk, Off, Q.Inv, I.Inv;
    assert Off(d.c.tail) == 0 ==> Coming(x, d.tailBlock);
    if Off(d.c.tail) != 0 {
      TailBlockHeld(x, d);
      if Off(i) == Off(d.c.tail) { ChunkOffInjective(i, d.c.tail); }
    }
  }

  lemma TakeData(x: I.State, d: Data, w: Work)
    requires Core(x, d) && w.WTake? && w.i < d.c.head && Held(x, d, Chunk(w.i)) && x.m.storage[Chunk(w.i)] == w.b && BlockTyped(d, w.b)
    ensures DataOk(x, TakenFrom(d, w))
  {
    var d' := TakenFrom(d, w);
    assert d'.prod.PTail? ==> d'.blocks[d.tailBlock].cells[Off(|d.items|)] == Full(d.prod.x) by { TakeTail(x, d, w); }
    TakeElements(x, d, w);
    hide Chunk, Off, Core, ElementOk;
    assert DataOk(x, d) by { CoreParts(x, d); }
  }

  lemma CoreParts(x: I.State, d: Data)
    requires Core(x, d)
    ensures I.Inv(x) && Q.Inv(d.c) && PhaseOk(x, d) && HeldOk(x, d) && DataOk(x, d)
  {}

  lemma TakeTail(x: I.State, d: Data, w: Work)
    requires Core(x, d) && w.WTake? && w.i < d.c.head && Held(x, d, Chunk(w.i)) && x.m.storage[Chunk(w.i)] == w.b && BlockTyped(d, w.b)
    ensures d.prod.PTail? ==> BlockTyped(d, d.tailBlock) && TakenFrom(d, w).blocks[d.tailBlock].cells[Off(|d.items|)] == Full(d.prod.x)
  {
    QFacts(d);
    hide Chunk, Off, Q.Inv, I.Inv, PhaseOk, HeldOk, ElementOk;
    if d.prod.PTail? && d.tailBlock == w.b { TakeNotTail(x, d, w.i); }
  }

  lemma TakeElements(x: I.State, d: Data, w: Work)
    requires Core(x, d) && w.WTake? && Held(x, d, Chunk(w.i)) && x.m.storage[Chunk(w.i)] == w.b && BlockTyped(d, w.b)
    ensures var d' := TakenFrom(d, w); forall i: nat :: i < |d.items| && i !in d'.taken ==> ElementOk(x, d', i)
  {
    hide Chunk, Off, Q.Inv, I.Inv, PhaseOk;
    var d' := TakenFrom(d, w);
    forall j: nat | j < |d'.items| && j !in d'.taken ensures ElementOk(x, d', j) {
      assert ElementOk(x, d, j);
      if x.m.storage[Chunk(j)] == w.b && Off(j) == Off(w.i) { ChunkOffInjective(j, w.i); }
    }
  }

  lemma TakeWork(x: I.State, d: Data, w: Work, r: I.Reader, item: int)
    requires WorkOk(x, d, w, r) && w.WTake? && BlockTyped(d, w.b) && w.i < |d.items| && item == d.items[w.i]
    ensures WorkOk(x, TakenFrom(d, w), AfterTake(w, item), r)
  {
    hide Chunk, Off;
    ChunkNext(w.i);
    assert d.items[w.first..w.i + 1] == d.items[w.first..w.i] + [d.items[w.i]];
  }

  /** What is in the cell a consumer is about to empty. */
  lemma TakesItsItem(x: I.State, d: Data, w: Work, r: I.Reader)
    requires Core(x, d) && WorkOk(x, d, w, r) && w.WTake?
    ensures w.i < d.c.head <= |d.items| && Held(x, d, Chunk(w.i)) && x.m.storage[Chunk(w.i)] == w.b && BlockTyped(d, w.b)
    ensures d.blocks[w.b].cells[Off(w.i)] == Full(d.items[w.i])
  {
    hide Chunk, Off, Q.Inv, I.Inv, PhaseOk, HeldOk;
    assert ElementOk(x, d, w.i);
  }

  lemma TakeKeeps(s: State, t: nat, e: Event, s': State)
    requires Inv(s) && Typed(s) && t < |s.work| && s.work[t].WTake? && WorkMoves(s, t, e, s')
    ensures Inv(s')
  {
    hide HeldOk, DataOk, Q.Inv, I.Inv, Chunk, Off, I.Typed, Q.TicketsInRange, WorkOk;
    HeadInItems(s.x, s.d);
    var x, d, w, r := s.x, s.d, s.work[t], s.x.readers[t];
    assert WorkOk(x, d, w, r);
    TakesItsItem(x, d, w, r);
    TakeHeld(x, d, w);
    TakeData(x, d, w);
    TakeWork(x, d, w, r, d.items[w.i]);
    WorkHas(x, d, w, r);
    forall u: nat | u < |s.work| && u != t ensures Undisturbed(x, d, s.work[u], x.readers[u], s'.x, s'.d) {
      SeparateAt(s, t, u);
    }
    WorkersKeep(s, t, s');
    ApartShrinks(s, t, s');
  }

  lemma WorkHas(x: I.State, d: Data, w: Work, r: I.Reader)
    requires WorkOk(x, d, w, r) && !w.WIdle?
    ensures w.len > 0 && w.first <= From(w) <= w.i <= w.first + w.len <= d.c.head
    ensures w.WTake? ==> Has(w, w.i)
  {}

  // Counting elements.

  lemma CountHeld(x: I.State, d: Data, w: Work)
    requires HeldOk(x, d) && w.WCount? && w.from < w.i && Chunk(w.from) == Chunk(w.i - 1) && NoneOf(d.counted, w.from, w.i)
    requires Held(x, d, Chunk(w.from)) && x.m.storage[Chunk(w.from)] == w.b && BlockTyped(d, w.b)
    ensures HeldOk(x, CountedIn(d, w))
  {
    hide Chunk, InChunk;
    var d' := CountedIn(d, w);
    assert forall n :: AllCounted(d, n) ==> AllCounted(d', n);
    forall n: nat | Held(x, d', n) ensures BlockOk(x, d', n) {
      assert Held(x, d, n) && BlockOk(x, d, n);
      CountRange(d.counted, w.from, w.i, n);
    }
  }

  lemma CountData(x: I.State, d: Data, w: Work)
    requires DataOk(x, d) && w.WCount? && w.from < w.i && BlockTyped(d, w.b) && AllOf(d.taken, w.from, w.i)
    ensures DataOk(x, CountedIn(d, w))
  {
    hide Chunk, Off;
    var d' := CountedIn(d, w);
    assert forall i: nat :: i < |d.items| && ElementOk(x, d, i) ==> ElementOk(x, d', i);
  }

  /** Everything in reach of `w` is the same, except that its elements are counted. */
  lemma CountFacts(x: I.State, d: Data, w: Work, r: I.Reader)
    requires Core(x, d) && WorkOk(x, d, w, r) && w.WCount?
    ensures Held(x, d, Chunk(w.from)) && x.m.storage[Chunk(w.from)] == w.b && BlockTyped(d, w.b) && Chunk(w.from) !in x.m.released
    ensures w.from < w.i && Chunk(w.from) == Chunk(w.i - 1) && r.RAt? && r.n == Chunk(w.from)
    ensures NoneOf(d.counted, w.from, w.i) && AllOf(d.taken, w.from, w.i)
    ensures w.first <= w.from && w.i <= w.first + w.len
  {
    hide Core, Chunk;
    WorkBlockHeld(x, d, w, r);
  }

  lemma CountCore(x: I.State, d: Data, w: Work, r: I.Reader)
    requires Core(x, d) && WorkOk(x, d, w, r) && w.WCount? && BlockTyped(d, w.b) && w.from < w.i
    ensures Core(x, CountedIn(d, w))
  {
    hide HeldOk, DataOk, Q.Inv, I.Inv, Chunk, Off, WorkOk;
    CountFacts(x, d, w, r);
    CountHeld(x, d, w);
    CountData(x, d, w);
  }

  lemma ClaimCounted(d: Data, w: Work, w': Work)
    requires w.WCount? && ClaimOk(d, w) && w.from < w.i && BlockTyped(d, w.b) && !w'.WIdle? && !w'.WTake? && !w'.WCount?
    requires w'.first == w.first && w'.len == w.len && w'.i == w.i && w'.out == w.out
    ensures ClaimOk(CountedIn(d, w), w')
  {}

  /** The count that completes a block. */
  lemma CompletesBlock(x: I.State, d: Data, w: Work, r: I.Reader)
    requires Core(x, d) && WorkOk(x, d, w, r) && w.WCount? && BlockTyped(d, w.b) && w.from < w.i
    ensures CountedIn(d, w).blocks[w.b].dequeued <= BLOCK_SIZE
    ensures CountedIn(d, w).blocks[w.b].dequeued == BLOCK_SIZE ==> AllCounted(CountedIn(d, w), Chunk(w.from))
  {
    CountCore(x, d, w, r);
    CountFacts(x, d, w, r);
    hide Q.Inv, I.Inv, PhaseOk, DataOk, Chunk, WorkOk, InChunk, AllCounted;
    var d' := CountedIn(d, w);
    FullCount(d', Chunk(w.from));
    assert BlockOk(x, d', Chunk(w.from));
  }

  lemma CompleteKeeps(s: State, t: nat, e: Event, s': State)
    requires Inv(s) && Typed(s) && t < |s.work| && s.work[t].WCount? && WorkMoves(s, t, e, s') && s'.work[t].WErase?
    ensures Inv(s')
  {
    hide Core, Chunk, Off, I.Typed, Q.TicketsInRange, WorkOk, AllCounted;
    HeadInItems(s.x, s.d);
    var x, d, w, r := s.x, s.d, s.work[t], s.x.readers[t];
    CountWork(s, t, e, s');
    CountFacts(x, d, w, r);
    forall u: nat | u < |s.work| && u != t ensures Undisturbed(x, d, s.work[u], x.readers[u], s'.x, s'.d) {
      SeparateAt(s, t, u);
    }
    WorkersKeep(s, t, s');
    forall u: nat | u < |s.work| && u != t ensures Separate(s'.work[t], s'.x.readers[t], s.work[u], x.readers[u]) {
      SeparateAt(s, t, u);
      NotFinishing(x, d, s.work[u], x.readers[u], w.from);
    }
    ApartAfter(s, t, s');
  }

  /** Nobody has completed a block with an element not counted. */
  lemma NotFinishing(x: I.State, d: Data, w: Work, r: I.Reader, i: nat)
    requires Core(x, d) && WorkOk(x, d, w, r) && i !in d.counted
    ensures !Finishing(w, r, Chunk(i))
  {
    hide Chunk, Q.Inv, I.Inv, PhaseOk, DataOk, ClaimOk;
  }

  lemma CountWork(s: State, t: nat, e: Event, s': State)
    requires Inv(s) && Typed(s) && t < |s.work| && s.work[t].WCount? && WorkMoves(s, t, e, s') && s'.work[t].WErase?
    ensures Core(s'.x, s'.d) && WorkOk(s'.x, s'.d, s'.work[t], s'.x.readers[t])
  {
    hide Core, Chunk, Off, I.Typed, Q.TicketsInRange, AllCounted, ClaimOk, Apart;
    var x, d, w, r := s.x, s.d, s.work[t], s.x.readers[t];
    assert WorkOk(x, d, w, r);
    CountCore(x, d, w, r);
    CompletesBlock(x, d, w, r);
    ClaimCounted(d, w, s'.work[t]);
    CountFacts(x, d, w, r);
  }

  // Going on to the next block.

  lemma OnwardIndex(x: I.State, t: nat)
    requires I.Inv(x) && I.Typed(x) && t < |x.readers| && x.readers[t].RAt?
    ensures var x' := SetReader(x, t, I.Onward(x.m, x.readers[t])); I.Inv(x') && I.ConsumerStep(x, t, x')
  {
    hide I.Inv, I.Typed, I.Alone;
    TypedHeaders(x);
    var x' := SetReader(x, t, I.Onward(x.m, x.readers[t]));
    assert I.ReaderStep(x.m, x.readers[t], false, x.m, x'.readers[t]);
    assert I.ConsumerStep(x, t, x');
    IndexConsumer(x, t, x');
  }

  lemma OnwardPlace(x: I.State, w: Work, r: I.Reader, n: nat)
    requires !w.WIdle? && w.len > 0 && w.i <= w.first + w.len && At(r, n, w) && EndOfBlock(w, n)
    requires r.h < |x.m.headers| && |x.m.headers[r.h].index| >= 1
    ensures var r' := I.Onward(x.m, r); if w.i < w.first + w.len then At(r', Chunk(w.i), w) else r'.RIdle?
  {
    hide Chunk;
    if w.i < w.first + w.len { ChunkMonotone(w.i, w.first + w.len - 1); }
  }

  lemma PassKeeps(s: State, t: nat, e: Event, s': State)
    requires Inv(s) && Typed(s) && t < |s.work| && s.work[t].WCount? && WorkMoves(s, t, e, s') && !s'.work[t].WErase?
    ensures Inv(s')
  {
    hide Core, Chunk, Off, I.Typed, Q.TicketsInRange, WorkOk, AllCounted, I.Onward;
    HeadInItems(s.x, s.d);
    var x, d, w, r := s.x, s.d, s.work[t], s.x.readers[t];
    TypedHeaders(x);
    PassCore(s, t, s');
    PassWork(s, t, s');
    CountFacts(x, d, w, r);
    forall u: nat | u < |s.work| && u != t ensures Undisturbed(x, d, s.work[u], x.readers[u], s'.x, s'.d) {
      SeparateAt(s, t, u);
    }
    WorkersKeep(s, t, s');
    ApartShrinks(s, t, s');
  }

  lemma PassCore(s: State, t: nat, s': State)
    requires Inv(s) && Typed(s) && t < |s.work| && s.work[t].WCount?
    requires I.AllHeaders(s.x.m) && s'.x == SetReader(s.x, t, I.Onward(s.x.m, s.x.readers[t])) && s'.d == CountedIn(s.d, s.work[t])
    ensures Core(s'.x, s'.d)
  {
    hide HeldOk, DataOk, PhaseOk, Q.Inv, I.Inv, Chunk, Off, I.Typed, Q.TicketsInRange, WorkOk, Apart;
    CountCore(s.x, s.d, s.work[t], s.x.readers[t]);
    OnwardIndex(s.x, t);
    SameHeld(s.x, s'.d, s'.x);
    SamePhase(s.x, s'.d, s'.x);
  }

  lemma PassWork(s: State, t: nat, s': State)
    requires Inv(s) && Typed(s) && t < |s.work| && s.work[t].WCount?
    requires I.AllHeaders(s.x.m) && s'.x == SetReader(s.x, t, I.Onward(s.x.m, s.x.readers[t])) && s'.d == CountedIn(s.d, s.work[t])
    ensures var w := s.work[t]; WorkOk(s'.x, s'.d, NextWork(w.first, w.len, w.i, w.out), s'.x.readers[t])
  {
    hide Core, Chunk, Off, I.Typed, Q.TicketsInRange, ClaimOk, Apart, I.Onward;
    var w, r := s.work[t], s.x.readers[t];
    TypedHeaders(s.x);
    assert WorkOk(s.x, s.d, w, r) && I.ReaderTyped(s.x.m, r);
    ClaimBounds(s.d, w);
    OnwardPlace(s.x, w, r, Chunk(w.from));
    if w.i < w.first + w.len { ClaimCounted(s.d, w, WFind(w.first, w.len, w.i, w.out)); }
  }

  lemma ClaimBounds(d: Data, w: Work)
    requires !w.WIdle? && ClaimOk(d, w)
    ensures w.len > 0 && w.first <= From(w) <= w.i <= w.first + w.len <= d.c.head <= |d.items|
  {}

  // Taking a completed block out of the index.

  /** A consumer that still has to do with block `n`, other than to take it out, has an index of it uncounted. */
  lemma CoversUncounted(x: I.State, d: Data, w: Work, r: I.Reader, n: nat)
    requires WorkOk(x, d, w, r) && I.Covers(r, n) && !Finishing(w, r, n)
    ensures !AllCounted(d, n)
  {
    hide Chunk;
    var j := ChunkHit(From(w), w.first + w.len, n);
  }

  lemma EraseAlone(s: State, t: nat)
    requires Inv(s) && t < |s.work| && s.work[t].WErase?
    ensures s.x.readers[t].RAt? && I.Alone(s.x, t)
  {
    hide Core, Chunk, ClaimOk, AllCounted;
    var n := s.x.readers[t].n;
    assert WorkOk(s.x, s.d, s.work[t], s.x.readers[t]);
    hide WorkOk;
    forall u | 0 <= u < |s.x.readers| && u != t ensures !I.Covers(s.x.readers[u], n) {
      SeparateAt(s, t, u);
      assert Finishing(s.work[t], s.x.readers[t], n);
      if I.Covers(s.x.readers[u], n) { CoversUncounted(s.x, s.d, s.work[u], s.x.readers[u], n); }
    }
  }

  lemma EraseIndex(s: State, t: nat, s': State)
    requires Inv(s) && Typed(s) && t < |s.work| && s.work[t].WErase? && WorkMoves(s, t, Silent, s')
    ensures I.Inv(s'.x) && I.ConsumerStep(s.x, t, s'.x)
  {
    hide Inv, Chunk, I.Inv, I.Typed, I.Alone, I.At, I.Release, I.Onward, Q.TicketsInRange;
    EraseAlone(s, t);
    TypedHeaders(s.x);
    assert I.ConsumerStep(s.x, t, s'.x);
    InvIndex(s);
    IndexConsumer(s.x, t, s'.x);
  }

  lemma InvIndex(s: State)
    requires Inv(s)
    ensures I.Inv(s.x)
  {}

  lemma EraseHeld(x: I.State, d: Data, x': I.State, n: nat)
    requires HeldOk(x, d) && DataOk(x, d) && AllCounted(d, n)
    requires x'.m.storage == x.m.storage && x'.m.released == x.m.released + {n} && x'.prod == x.prod
    ensures HeldOk(x', d) && DataOk(x', d)
  {
    hide Chunk, Off;
    assert forall k: nat :: Held(x', d, k) ==> Held(x, d, k) && (BlockOk(x, d, k) ==> BlockOk(x', d, k));
    assert forall i: nat :: i < |d.items| && ElementOk(x, d, i) ==> ElementOk(x', d, i);
  }

  lemma EraseReader(x: I.State, d: Data, w: Work, r: I.Reader)
    requires WorkOk(x, d, w, r) && w.WErase?
    ensures r.RAt? && AllCounted(d, r.n) && r.n !in x.m.released
  {}

  lemma EraseCore(s: State, t: nat, s': State)
    requires Inv(s) && Typed(s) && t < |s.work| && s.work[t].WErase? && WorkMoves(s, t, Silent, s')
    ensures Core(s'.x, s'.d)
  {
    EraseIndex(s, t, s');
    hide HeldOk, DataOk, Q.Inv, I.Inv, Chunk, Off, I.Typed, I.Onward, I.At, Q.TicketsInRange, AllCounted, Apart, WorkOk;
    EraseReader(s.x, s.d, s.work[t], s.x.readers[t]);
    EraseHeld(s.x, s.d, s'.x, s.x.readers[t].n);
  }

  lemma EraseWork(s: State, t: nat, s': State)
    requires Inv(s) && Typed(s) && t < |s.work| && s.work[t].WErase? && WorkMoves(s, t, Silent, s')
    ensures WorkOk(s'.x, s'.d, s'.work[t], s'.x.readers[t])
  {
    hide DataOk, PhaseOk, Q.Inv, I.Inv, Chunk, Off, I.Typed, I.Onward, Q.TicketsInRange, AllCounted, Apart;
    var x, w, r := s.x, s.work[t], s.x.readers[t];
    TypedHeaders(x);
    assert WorkOk(x, s.d, w, r) && I.ReaderTyped(x.m, r);
    OnwardPlace(x, w, r, r.n);
  }

  lemma EraseKeeps(s: State, t: nat, e: Event, s': State)
    requires Inv(s) && Typed(s) && t < |s.work| && s.work[t].WErase? && WorkMoves(s, t, e, s')
    ensures Inv(s')
  {
    hide Core, Chunk, Off, I.Typed, Q.TicketsInRange, WorkOk, AllCounted, I.Onward;
    HeadInItems(s.x, s.d);
    EraseCore(s, t, s');
    EraseWork(s, t, s');
    EraseAlone(s, t);
    forall u: nat | u < |s.work| && u != t ensures Undisturbed(s.x, s.d, s.work[u], s.x.readers[u], s'.x, s'.d) {
      SeparateAt(s, t, u);
      assert Finishing(s.work[t], s.x.readers[t], s.x.readers[t].n);
    }
    WorkersKeep(s, t, s');
    ApartShrinks(s, t, s');
  }

  // Giving it back.

  lemma FreeHeld(x: I.State, d: Data, w: Work)
    requires HeldOk(x, d) && DataOk(x, d) && w.WFree? && Hosts(x, w.n, w.b) && w.n in x.m.released && w.n !in d.freed
    ensures HeldOk(x, Freed(d, w)) && DataOk(x, Freed(d, w))
  {
    hide Chunk, Off;
    var d' := Freed(d, w);
    assert Held(x, d, w.n) && AllCounted(d, w.n);
    assert forall n :: AllCounted(d, n) ==> AllCounted(d', n);
    forall k: nat | Held(x, d', k) ensures BlockOk(x, d', k) { assert Held(x, d, k) && BlockOk(x, d, k); }
    forall i: nat | i < |d'.items| && i !in d'.taken ensures ElementOk(x, d', i) { assert ElementOk(x, d, i) && i !in d.counted; }
  }

  lemma FreeWork(x: I.State, d: Data, w: Work, r: I.Reader)
    requires WorkOk(x, d, w, r) && w.WFree?
    ensures Hosts(x, w.n, w.b) && w.n in x.m.released && w.n !in d.freed
    ensures WorkOk(x, Freed(d, w), NextWork(w.first, w.len, w.i, w.out), r)
  {
    hide Chunk;
  }

  lemma FreeKeeps(s: State, t: nat, e: Event, s': State)
    requires Inv(s) && Typed(s) && t < |s.work| && s.work[t].WFree? && WorkMoves(s, t, e, s')
    ensures Inv(s')
  {
    HeadInItems(s.x, s.d);
    hide HeldOk, DataOk, Q.Inv, I.Inv, Chunk, Off, I.Typed, Q.TicketsInRange, AllCounted;
    hide WorkOk;
    FreeWork(s.x, s.d, s.work[t], s.x.readers[t]);
    FreeHeld(s.x, s.d, s.work[t]);
    forall u: nat | u < |s.work| && u != t ensures Undisturbed(s.x, s.d, s.work[u], s.x.readers[u], s'.x, s'.d) {
      SeparateAt(s, t, u);
      assert Finishing(s.work[t], s.x.readers[t], s.work[t].n);
    }
    WorkersKeep(s, t, s');
    ApartShrinks(s, t, s');
  }

  // ---------------------------------------------------------------- every step

  lemma TailBlockMine(x: I.State, d: Data)
    requires Core(x, d) && (d.prod.PWrite? || d.prod.PTail?)
    ensures d.tailBlock in d.mine
  {
    hide Chunk, Off, I.Inv, Q.Inv;
    assert Off(d.c.tail) == 0 ==> Coming(x, d.tailBlock);
    if Off(d.c.tail) != 0 {
      TailBlockHeld(x, d);
      assert BlockOk(x, d, |x.m.storage| - 1);
    }
  }

  /** Memory that is held has not changed. */
  predicate KeepsMine(d: Data, d': Data) {
    && d' == d.(blocks := d'.blocks)
    && forall b :: b in d.mine && b in d.blocks ==> b in d'.blocks && d'.blocks[b] == d.blocks[b]
  }

  lemma OthersHeld(x: I.State, d: Data, d': Data)
    requires HeldOk(x, d) && KeepsMine(d, d')
    ensures HeldOk(x, d')
  {
    hide Chunk, InChunk;
    assert forall n :: AllCounted(d, n) ==> AllCounted(d', n);
    forall n: nat | Held(x, d', n) ensures BlockOk(x, d', n) { assert Held(x, d, n) && BlockOk(x, d, n); }
  }

  lemma OthersData(x: I.State, d: Data, d': Data)
    requires HeldOk(x, d) && DataOk(x, d) && KeepsMine(d, d')
    requires d.prod.PWrite? || d.prod.PTail? ==> d.tailBlock in d.mine
    ensures DataOk(x, d')
  {
    hide Chunk, Off, InChunk, AllCounted;
    forall i: nat | i < |d'.items| && i !in d'.taken ensures ElementOk(x, d', i) {
      assert ElementOk(x, d, i) && BlockOk(x, d, Chunk(i));
    }
  }

  lemma OthersCore(x: I.State, d: Data, d': Data)
    requires Core(x, d) && KeepsMine(d, d')
    ensures Core(x, d')
  {
    if d.prod.PWrite? || d.prod.PTail? { TailBlockMine(x, d); }
    hide Chunk, Off, I.Inv, Q.Inv, HeldOk, DataOk;
    OthersHeld(x, d, d');
    OthersData(x, d, d');
  }

  lemma OthersKeep(s: State, s': State)
    requires Inv(s) && OthersMove(s, s')
    ensures Inv(s')
  {
    hide Core, WorkOk, Has, Finishing;
    HeadInItems(s.x, s.d);
    OthersCore(s.x, s.d, s'.d);
    forall t | 0 <= t < |s.work| ensures WorkOk(s.x, s'.d, s.work[t], s.x.readers[t]) {
      assert Undisturbed(s.x, s.d, s.work[t], s.x.readers[t], s.x, s'.d);
      WorkFrame(s.x, s.d, s.work[t], s.x.readers[t], s.x, s'.d);
    }
  }

  lemma WorkKeeps(s: State, t: nat, e: Event, s': State)
    requires Inv(s) && Typed(s) && t < |s.work| && WorkMoves(s, t, e, s')
    ensures Inv(s')
  {
    match s.work[t] {
      case WFind(_, _, _, _) =>
        hide *;
        if s.x.readers[t].RAt? { LoadKeeps(s, t, e, s'); } else { LookupKeeps(s, t, e, s'); }
      case WTake(_, _, _, _, _, _) => hide *; TakeKeeps(s, t, e, s');
      case WCount(_, _, _, _, _, _) =>
        assert t < |s'.work|;
        hide *;
        if s'.work[t].WErase? { CompleteKeeps(s, t, e, s'); } else { PassKeeps(s, t, e, s'); }
      case WErase(_, _, _, _, _) => hide *; EraseKeeps(s, t, e, s');
      case WFree(_, _, _, _, _, _) => hide *; FreeKeeps(s, t, e, s');
    }
  }

  lemma StepKeeps(s: State, e: Event, s': State)
    requires Inv(s) && Step(s, e, s')
    ensures Inv(s')
  {
    hide Inv, Typed, ProducerStep, CounterMoves, WorkMoves, OthersMove;
    if ProducerStep(s, e, s') {
      ProducerKeeps(s, e, s');
    } else if exists qe: Q.Event :: CounterMoves(s, qe, s') && e == Shown(qe) {
      var qe: Q.Event :| CounterMoves(s, qe, s') && e == Shown(qe);
      CounterKeeps(s, qe, s');
    } else if exists t: nat :: t < |s.work| && WorkMoves(s, t, e, s') {
      var t: nat :| t < |s.work| && WorkMoves(s, t, e, s');
      WorkKeeps(s, t, e, s');
    } else {
      OthersKeep(s, s');
    }
  }

  /** Wherever a consumer stands, what it is about to follow exists. */
  lemma InvTyped(s: State)
    requires Inv(s)
    ensures Typed(s)
  {
    hide Chunk, Off, I.Inv, Q.Inv, I.Typed, Q.TicketsInRange, HeldOk, ClaimOk, Apart;
    IP.InvTyped(s.x);
    Q.InvTickets(s.d.c);
    forall t | 0 <= t < |s.work| ensures WorkTyped(s.d, s.work[t], s.x.readers[t]) {
      assert WorkOk(s.x, s.d, s.work[t], s.x.readers[t]);
      if s.work[t].WTake? || s.work[t].WCount? { WorkBlockHeld(s.x, s.d, s.work[t], s.x.readers[t]); }
    }
  }

  // ---------------------------------------------------------------- whole runs

  ghost predicate Initial(s: State) {
    && IP.Initial(s.x) && Q.Init(s.d.c)
    && s.d.mine == {} && s.d.prod == PIdle && s.d.items == [] && s.d.taken == {} && s.d.counted == {} && s.d.freed == {}
    && |s.work| == |s.x.readers| == |s.d.c.consumers| && forall t :: 0 <= t < |s.work| ==> s.work[t] == WIdle
  }

  lemma InitialInv(s: State)
    requires Initial(s)
    ensures Inv(s)
  {
    IP.InitialInv(s.x);
    assert Q.Inv(s.d.c);
    hide I.Inv, Q.Inv, Chunk;
  }

  ghost predicate Run(r: seq<State>, ev: seq<Event>) {
    && |r| == |ev| + 1 && Initial(r[0])
    && forall i {:trigger ev[i]} :: 0 <= i < |ev| ==> Step(r[i], ev[i], r[i + 1])
  }

  lemma {:induction false} RunInvariant(r: seq<State>, ev: seq<Event>, i: nat)
    requires Run(r, ev) && i < |r|
    ensures Inv(r[i])
  {
    hide Inv, Initial, Step;
    if i == 0 {
      InitialInv(r[0]);
    } else {
      RunInvariant(r, ev, i - 1);
      StepKeeps(r[i - 1], ev[i - 1], r[i]);
    }
  }
}
