/** The explicit producer of ConcurrentQueue.h: a ring of fixed-size blocks, found by consumers
    through a growable circular block index, on top of the claiming protocol of DequeueCounters.

    One producer enqueues single items; any number of consumers dequeue one or several at a time.
    Each step is one access to shared memory. What only the producer can see between two shared
    accesses (resetting a block nobody uses, filling a fresh index before it is published) is
    part of the step that follows it. */
module ExplicitProducer {
  import opened Common
  import opened Chunks
  import Q = DequeueCounters
  import Arith

  type BlockId = nat

  /** `flags` is emptyFlags: a flag is set once its element has been completely dequeued. */
  datatype Block = Block(next: BlockId, cells: seq<Cell>, flags: seq<bool>)

  datatype Entry = Entry(base: int, block: BlockId)

  /** A BlockIndexHeader. Superseded headers stay reachable for consumers that loaded them.
      The last three fields are bookkeeping for the proof: the oldest chunk when the header was
      made, the number of chunks entered, and the chunk `front` points at. */
  datatype Header = Header(size: nat, front: int, entries: seq<Entry>,
                           lo: nat, hi: nat, frontChunk: int)

  datatype Producer =
    | PIdle
    | PScan(x: int, b: BlockId, k: nat)   // is_empty: about to load flag k of block b
    | PReuse(x: int, b: BlockId)          // about to reset and re-enter block b
    | PGrow(x: int)                       // about to make room in the index, if needed
    | PBlock(x: int)                      // about to link a new block
    | PEntry(x: int)                      // about to write the index entry
    | PFront(x: int)                      // about to store the index front
    | PWrite(x: int)                      // about to construct the element
    | PTail(x: int)                       // about to store tailIndex

  datatype Reader =
    | RIdle
    | RHeader(first: nat, len: nat)
    | RFront(first: nat, len: nat, h: nat)
    | RBase(first: nat, len: nat, h: nat, front: int, frontChunk: int)
    | RBlock(first: nat, len: nat, h: nat, slot: nat, i: nat, out: seq<int>)
    | RTake(first: nat, len: nat, h: nat, slot: nat, b: BlockId, from: nat, i: nat, out: seq<int>)
    | RClear(first: nat, len: nat, h: nat, slot: nat, b: BlockId, from: nat, j: nat, i: nat, out: seq<int>)

  datatype Mem = Mem(
    c: Q.State,                       // tailIndex, headIndex and the two dequeue counters
    blocks: map<BlockId, Block>,
    tailBlock: BlockId,               // meaningful once a block exists
    headers: seq<Header>,             // the last one is blockIndex
    slotsUsed: nat,                   // pr_blockIndexSlotsUsed
    prFront: nat,                     // pr_blockIndexFront
    prod: Producer,
    items: seq<int>,                  // everything ever enqueued, in order
    hist: seq<BlockId>,               // the block that hosts each chunk of BLOCK_SIZE indices
    taken: set<nat>,                  // indices whose element has been moved out
    cleared: set<nat>)                // indices whose empty flag has been set

  datatype State = State(m: Mem, readers: seq<Reader>)

  /** Calls of enqueue and dequeue, and their answers. */
  datatype Event =
    | Silent
    | Offered(x: int)
    | Enqueued(x: int)
    | Refused
    | Called(t: nat, max: nat)
    | Failed(t: nat)
    | Delivered(first: nat, out: seq<int>)

  /** What a step of the claiming protocol shows to the outside. */
  function Shown(qe: Q.Event): Event {
    match qe
    case Called(t, max) => Called(t, max)
    case Failed(t) => Failed(t)
    case _ => Silent
  }

  /** emptyFlags are stored back to front. */
  function FlagAt(i: nat): (p: nat)
    ensures p < BLOCK_SIZE
  { BLOCK_SIZE - 1 - Off(i) }

  // ---------------------------------------------------------------- steps

  predicate BlockTyped(s: Mem, b: BlockId) {
    b in s.blocks && |s.blocks[b].cells| == BLOCK_SIZE && |s.blocks[b].flags| == BLOCK_SIZE
  }

  predicate ReaderTyped(s: Mem, rd: Reader) {
    && (rd.RFront? || rd.RBase? || rd.RBlock? || rd.RTake? || rd.RClear? ==> rd.h < |s.headers|)
    && (rd.RBase? ==> 0 <= rd.front < s.headers[rd.h].size)
    && (rd.RBlock? || rd.RTake? || rd.RClear? ==> rd.slot < s.headers[rd.h].size)
    && (rd.RTake? || rd.RClear? ==> BlockTyped(s, rd.b))
    && (rd.RClear? ==> rd.from < rd.j)
  }

  /** Every pointer and slot that the next step dereferences exists. That this holds in every
      reachable state is part of the invariant. */
  predicate Typed(s: Mem) {
    && s.c.tail >= 0
    && s.headers != []
    && (forall h :: 0 <= h < |s.headers| ==> s.headers[h].size >= 1 && |s.headers[h].entries| == s.headers[h].size)
    && s.prFront < Current(s).size && s.slotsUsed <= Current(s).size
    && (s.hist != [] ==> BlockTyped(s, s.tailBlock))
    && (s.prod.PEntry? || s.prod.PFront? || s.prod.PWrite? || s.prod.PTail? ==> s.hist != [])
    && (s.prod.PIdle? && Off(s.c.tail) != 0 ==> s.hist != [])
    && (s.prod.PScan? ==> BlockTyped(s, s.prod.b) && s.prod.k < BLOCK_SIZE)
    && (s.prod.PReuse? ==> BlockTyped(s, s.prod.b))
  }

  function Current(s: Mem): Header
    requires s.headers != []
  {
    s.headers[|s.headers| - 1]
  }

  function WithCurrent(s: Mem, h: Header): Mem
    requires s.headers != []
  {
    s.(headers := s.headers[|s.headers| - 1 := h])
  }

  function NoFlags(): (f: seq<bool>)
    ensures |f| == BLOCK_SIZE
  {
    seq(BLOCK_SIZE, _ => false)
  }

  function NoCells(): (f: seq<Cell>)
    ensures |f| == BLOCK_SIZE
  {
    seq(BLOCK_SIZE, _ => Void)
  }

  /** new_block_index: twice the size, the entries in use moved to the bottom, oldest first. */
  function Doubled(h: Header, prFront: nat, used: nat, chunks: nat): (h': Header)
    requires h.size >= 1 && |h.entries| == h.size && used <= h.size && used <= chunks
    ensures h'.size == 2 * h.size && |h'.entries| == h'.size
  {
    Header(2 * h.size, used - 1,
           seq(2 * h.size, j requires 0 <= j => if j < used then h.entries[Arith.Wrap(prFront - used + j, h.size)] else Entry(0, 0)),
           chunks - used, chunks, chunks - 1)
  }

  /** The copying loop of new_block_index, from the oldest slot in use round to the front. Its
      exit test compares slots only, so it must go round exactly once even for a full index. */
  method CopyEntries(h: Header, prFront: nat, used: nat) returns (entries: array<Entry>, j: nat)
    requires h.size >= 1 && |h.entries| == h.size && prFront < h.size && used <= h.size
    ensures j == used && fresh(entries) && entries.Length == 2 * h.size
    ensures used <= |entries[..]| && entries[..used] == Doubled(h, prFront, used, used).entries[..used]
  {
    entries := new Entry[2 * h.size](_ => Entry(0, 0));
    j := 0;
    if used != 0 {
      var i := Arith.Wrap(prFront - used, h.size);
      var more := true;
      while more
        invariant 0 <= j <= used && i < h.size && entries.Length == 2 * h.size
        invariant i == Arith.Wrap(prFront - used + j, h.size)
        invariant more <==> j < used
        invariant forall k :: 0 <= k < j ==> entries[k] == h.entries[Arith.Wrap(prFront - used + k, h.size)]
        decreases used - j
      {
        entries[j] := h.entries[i];
        j := j + 1;
        Arith.WrapAdd(prFront - used + j - 1, 1, h.size);
        i := Arith.Wrap(i + 1, h.size);
        more := i != prFront;
        if i == prFront { Arith.WrapInjective(prFront - used + j, prFront, h.size); }
      }
    }
  }

  ghost predicate ProducerStep(s: Mem, e: Event, s': Mem)
    requires Typed(s)
  {
    match s.prod
    case PIdle =>
      && e.Offered?
      && s' == s.(prod := if Off(s.c.tail) != 0 then PWrite(e.x)
                          else if s.hist == [] then PGrow(e.x)
                          else PScan(e.x, s.blocks[s.tailBlock].next, 0))
    case PScan(x, b, k) =>
      && e == Silent
      && s' == s.(prod := if !s.blocks[b].flags[k] then PGrow(x)
                          else if k + 1 < BLOCK_SIZE then PScan(x, b, k + 1) else PReuse(x, b))
    case PReuse(x, b) =>
      && e == Silent
      && s' == s.(tailBlock := b, blocks := s.blocks[b := s.blocks[b].(flags := NoFlags())],
                  hist := s.hist + [b], prod := PEntry(x))
    case PGrow(x) =>
      if s.slotsUsed < Current(s).size then
        e == Silent && s' == s.(prod := PBlock(x))
      else
        || (e == Refused && s' == s.(prod := PIdle))
        || (e == Silent && s.slotsUsed <= |s.hist|
            && s' == s.(headers := s.headers + [Doubled(Current(s), s.prFront, s.slotsUsed, |s.hist|)],
                        prFront := s.slotsUsed, prod := PBlock(x)))
    case PBlock(x) =>
      || (e == Refused && s' == s.(prod := PIdle))
      || (e == Silent && exists b: BlockId :: b !in s.blocks && s' == Linked(s, b, x))
    case PEntry(x) =>
      var h := Current(s);
      && e == Silent
      && s' == WithCurrent(s, h.(entries := h.entries[s.prFront := Entry(s.c.tail, s.tailBlock)], hi := h.hi + 1))
               .(prod := PFront(x))
    case PFront(x) =>
      var h := Current(s);
      && e == Silent
      && s' == WithCurrent(s, h.(front := s.prFront, frontChunk := h.hi - 1))
               .(prFront := Arith.Wrap(s.prFront + 1, h.size), prod := PWrite(x))
    case PWrite(x) =>
      var b := s.blocks[s.tailBlock];
      && e == Silent
      && s' == s.(blocks := s.blocks[s.tailBlock := b.(cells := b.cells[Off(s.c.tail) := Full(x)])], prod := PTail(x))
    case PTail(x) =>
      && e == Enqueued(x)
      && s' == s.(c := s.c.(tail := s.c.tail + 1), items := s.items + [x], prod := PIdle)
  }

  /** A new block `b` in the ring, right after the tail block, and now the tail block itself. */
  function Linked(s: Mem, b: BlockId, x: int): Mem
    requires Typed(s)
  {
    var blocks :=
      if s.hist == [] then s.blocks[b := Block(b, NoCells(), NoFlags())]
      else
        var t := s.blocks[s.tailBlock];
        s.blocks[s.tailBlock := t.(next := b)][b := Block(t.next, NoCells(), NoFlags())];
    s.(blocks := blocks, tailBlock := b, slotsUsed := s.slotsUsed + 1, hist := s.hist + [b], prod := PEntry(x))
  }

  function HeaderLoaded(s: Mem, rd: Reader): Reader
    requires Typed(s) && rd.RHeader?
  {
    RFront(rd.first, rd.len, |s.headers| - 1)
  }

  function FrontLoaded(s: Mem, rd: Reader): Reader
    requires Typed(s) && ReaderTyped(s, rd) && rd.RFront?
  {
    RBase(rd.first, rd.len, rd.h, s.headers[rd.h].front, s.headers[rd.h].frontChunk)
  }

  /** The bases are multiples of BLOCK_SIZE, so the division is exact; SlotArithmetic shows that
      the machine's wrapping subtraction, unsigned division and mask select the same slot. */
  function BaseLoaded(s: Mem, rd: Reader): Reader
    requires Typed(s) && ReaderTyped(s, rd) && rd.RBase?
  {
    var offset := (Base(Chunk(rd.first)) - s.headers[rd.h].entries[rd.front].base) / BLOCK_SIZE;
    RBlock(rd.first, rd.len, rd.h, Arith.Wrap(rd.front + offset, s.headers[rd.h].size), rd.first, [])
  }

  function BlockLoaded(s: Mem, rd: Reader): Reader
    requires Typed(s) && ReaderTyped(s, rd) && rd.RBlock?
  {
    RTake(rd.first, rd.len, rd.h, rd.slot, s.headers[rd.h].entries[rd.slot].block, rd.i, rd.i, rd.out)
  }

  function TakenFrom(s: Mem, rd: Reader): Mem
    requires Typed(s) && ReaderTyped(s, rd) && rd.RTake?
  {
    var blk := s.blocks[rd.b];
    s.(blocks := s.blocks[rd.b := blk.(cells := blk.cells[Off(rd.i) := Void])], taken := s.taken + {rd.i})
  }

  /** On to the next element of this block, or, at its end, to marking the flags. */
  function AfterTake(rd: Reader, item: int): Reader
    requires rd.RTake?
  {
    if rd.i + 1 < rd.first + rd.len && Off(rd.i) + 1 < BLOCK_SIZE
    then RTake(rd.first, rd.len, rd.h, rd.slot, rd.b, rd.from, rd.i + 1, rd.out + [item])
    else RClear(rd.first, rd.len, rd.h, rd.slot, rd.b, rd.from, rd.i + 1, rd.i + 1, rd.out + [item])
  }

  function FlagSet(s: Mem, rd: Reader): Mem
    requires Typed(s) && ReaderTyped(s, rd) && rd.RClear?
  {
    var blk := s.blocks[rd.b];
    s.(blocks := s.blocks[rd.b := blk.(flags := blk.flags[FlagAt(rd.j - 1) := true])], cleared := s.cleared + {rd.j - 1})
  }

  function AfterFlag(s: Mem, rd: Reader): Reader
    requires Typed(s) && ReaderTyped(s, rd) && rd.RClear?
  {
    if rd.j - 1 > rd.from then RClear(rd.first, rd.len, rd.h, rd.slot, rd.b, rd.from, rd.j - 1, rd.i, rd.out)
    else if rd.i == rd.first + rd.len then RIdle
    else RBlock(rd.first, rd.len, rd.h, Arith.Wrap(rd.slot + 1, s.headers[rd.h].size), rd.i, rd.out)
  }

  predicate ReaderStep(s: Mem, rd: Reader, e: Event, s': Mem, rd': Reader)
    requires Typed(s) && ReaderTyped(s, rd)
  {
    match rd
    case RIdle => false
    case RHeader(_, _) => e == Silent && s' == s && rd' == HeaderLoaded(s, rd)
    case RFront(_, _, _) => e == Silent && s' == s && rd' == FrontLoaded(s, rd)
    case RBase(_, _, _, _, _) => e == Silent && s' == s && rd' == BaseLoaded(s, rd)
    case RBlock(_, _, _, _, _, _) => e == Silent && s' == s && rd' == BlockLoaded(s, rd)
    case RTake(_, _, _, _, b, _, i, _) =>
      var cell := s.blocks[b].cells[Off(i)];
      cell.Full? && e == Silent && s' == TakenFrom(s, rd) && rd' == AfterTake(rd, cell.item)
    case RClear(first, len, _, _, _, from, j, i, out) =>
      && e == (if j - 1 == from && i == first + len then Delivered(first, out) else Silent)
      && s' == FlagSet(s, rd) && rd' == AfterFlag(s, rd)
  }

  predicate StateTyped(s: State) {
    && Typed(s.m) && Q.TicketsInRange(s.m.c) && |s.readers| == |s.m.c.consumers|
    && forall t :: 0 <= t < |s.readers| ==> ReaderTyped(s.m, s.readers[t])
  }

  ghost predicate ReaderMoves(s: State, t: nat, e: Event, s': State)
    requires StateTyped(s) && t < |s.readers|
  {
    && |s'.readers| == |s.readers| && s'.readers == s.readers[t := s'.readers[t]]
    && ReaderStep(s.m, s.readers[t], e, s'.m, s'.readers[t])
  }

  /** A step of the claiming protocol; a successful claim starts the reading. */
  ghost predicate CounterMoves(s: State, qe: Q.Event, s': State)
    requires StateTyped(s)
  {
    && qe != Q.Enqueued
    && (qe.Called? ==> qe.t < |s.readers| && s.readers[qe.t] == RIdle)
    && Q.Step(s.m.c, qe, s'.m.c)
    && s'.m == s.m.(c := s'.m.c)
    && s'.readers == if qe.Claimed? && qe.t < |s.readers| && qe.c.first >= 0 && qe.c.len >= 0
                     then s.readers[qe.t := RHeader(qe.c.first, qe.c.len)] else s.readers
  }

  ghost predicate Step(s: State, e: Event, s': State) {
    && StateTyped(s)
    && (|| (ProducerStep(s.m, e, s'.m) && s'.readers == s.readers)
        || (exists qe: Q.Event :: CounterMoves(s, qe, s') && e == Shown(qe))
        || exists t: nat :: t < |s.readers| && ReaderMoves(s, t, e, s'))
  }

  ghost predicate MemInit(s: Mem) {
    && Q.Init(s.c)
    && s.blocks == map[] && s.hist == [] && s.items == [] && s.taken == {} && s.cleared == {}
    && s.slotsUsed == 0 && s.prFront == 0 && s.prod == PIdle
    && |s.headers| == 1 && Current(s).size >= 1 && |Current(s).entries| == Current(s).size
    && Current(s).lo == 0 && Current(s).hi == 0 && Current(s).frontChunk == -1
  }

  ghost predicate Init(s: State) {
    && MemInit(s.m)
    && |s.readers| == |s.m.c.consumers|
    && forall t :: 0 <= t < |s.readers| ==> s.readers[t] == RIdle
  }

  // ---------------------------------------------------------------- invariant

  /** The oldest chunk whose block has not been handed to a newer chunk. */
  function Oldest(s: Mem): int { |s.hist| - s.slotsUsed }

  predicate Live(s: Mem, q: nat) { Oldest(s) <= q < |s.hist| }

  /** The blocks of the live chunks are distinct and linked in a circle, oldest after newest. */
  ghost predicate RingOk(s: Mem) {
    && 0 <= Oldest(s)
    && (s.hist != [] ==> s.slotsUsed >= 1 && s.tailBlock == s.hist[|s.hist| - 1])
    && (forall q: nat :: Live(s, q) ==>
          BlockTyped(s, s.hist[q]) && s.blocks[s.hist[q]].next == s.hist[if q == |s.hist| - 1 then Oldest(s) else q + 1])
    && (forall p: nat, q: nat :: Live(s, p) && Live(s, q) && s.hist[p] == s.hist[q] ==> p == q)
    && (forall b :: b in s.blocks ==> BlockTyped(s, b))
  }

  /** Where the tail stands relative to the chunks, by the producer's program counter. */
  ghost predicate PhaseOk(s: Mem)
    requires RingOk(s) && s.c.tail >= 0
  {
    var n, tail := |s.hist|, s.c.tail;
    match s.prod
    case PIdle => tail == Base(n) || (n > 0 && Chunk(tail) == n - 1 && Off(tail) > 0)
    case PScan(_, b, k) =>
      n > 0 && tail == Base(n) && b == s.hist[Oldest(s)] && k < BLOCK_SIZE
      && forall p :: 0 <= p < k ==> s.blocks[b].flags[p]
    case PReuse(_, b) =>
      n > 0 && tail == Base(n) && b == s.hist[Oldest(s)]
      && forall p :: 0 <= p < BLOCK_SIZE ==> s.blocks[b].flags[p]
    case PGrow(_) => tail == Base(n)
    case PBlock(_) => tail == Base(n) && s.headers != [] && s.slotsUsed < Current(s).size
    case PEntry(_) => n > 0 && tail == Base(n - 1)
    case PFront(_) => n > 0 && tail == Base(n - 1)
    case PWrite(_) => n > 0 && Chunk(tail) == n - 1
    case PTail(x) => n > 0 && Chunk(tail) == n - 1 && s.blocks[s.tailBlock].cells[Off(tail)] == Full(x)
  }

  /** Chunks entered in the current index, and chunks its front has been moved past. */
  function Entered(s: Mem): int { if s.prod.PEntry? then |s.hist| - 1 else |s.hist| }
  function Fronted(s: Mem): int { if s.prod.PEntry? || s.prod.PFront? then |s.hist| - 1 else |s.hist| }

  /** A header, current or superseded, still finds every live chunk that was entered in it. */
  ghost predicate HeaderOk(s: Mem, h: Header) {
    && h.size >= 1 && |h.entries| == h.size
    && h.lo <= Oldest(s) && h.lo <= h.hi <= |s.hist|
    && (forall q: nat :: Live(s, q) && q < h.hi ==> h.entries[Arith.Wrap(q - h.lo, h.size)] == Entry(Base(q), s.hist[q]))
    && h.frontChunk < h.hi
    && (h.frontChunk >= 0 ==> h.lo <= h.frontChunk + 1 && h.front == Arith.Wrap(h.frontChunk - h.lo, h.size))
  }

  ghost predicate IndexOk(s: Mem) {
    && s.headers != []
    && (forall h :: 0 <= h < |s.headers| ==> HeaderOk(s, s.headers[h]))
    && (forall h :: 0 <= h < |s.headers| - 1 ==> s.headers[h].frontChunk == s.headers[h].hi - 1)
    && s.slotsUsed <= Current(s).size
    && Current(s).hi == Entered(s)
    && Current(s).frontChunk == Fronted(s) - 1
    && s.prFront == Arith.Wrap(Fronted(s) - Current(s).lo, Current(s).size)
  }

  /** Flags tell exactly which elements are gone; an element not yet taken is in its cell. */
  ghost predicate DataOk(s: Mem)
    requires RingOk(s) && s.c.tail >= 0
  {
    && |s.items| == s.c.tail
    && s.cleared <= s.taken
    && (forall i :: i in s.taken ==> i < s.c.head)
    && (forall i: nat :: i < s.c.tail && Chunk(i) < Oldest(s) ==> i in s.cleared)
    && (forall i: nat :: Live(s, Chunk(i)) ==> s.blocks[s.hist[Chunk(i)]].flags[FlagAt(i)] == (i in s.cleared))
    && (forall i: nat :: i < s.c.tail && Live(s, Chunk(i)) && i !in s.taken ==>
          s.blocks[s.hist[Chunk(i)]].cells[Off(i)] == Full(s.items[i]))
  }

  predicate NotTaken(s: Mem, from: nat, to: nat) { forall i :: from <= i < to ==> i !in s.taken }
  predicate AllTaken(s: Mem, from: nat, to: nat) { forall i :: from <= i < to ==> i in s.taken }
  predicate NotCleared(s: Mem, from: nat, to: nat) { forall i :: from <= i < to ==> i !in s.cleared }

  predicate RangeOk(s: Mem, first: nat, len: nat) { len > 0 && first + len <= s.c.head <= |s.items| }

  /** Header `h` was current at some moment after the reader's indices had been claimed. */
  predicate Covered(s: Mem, h: nat, first: nat, len: nat)
    requires len > 0
  {
    h < |s.headers| && Chunk(first + len - 1) < s.headers[h].hi
  }

  predicate Placed(s: Mem, h: nat, slot: nat, q: nat)
    requires h < |s.headers|
  {
    s.headers[h].size >= 1 && slot == Arith.Wrap(q - s.headers[h].lo, s.headers[h].size)
  }

  ghost predicate ReaderOk(s: Mem, rd: Reader) {
    match rd
    case RIdle => true
    case RHeader(first, len) => RangeOk(s, first, len) && NotTaken(s, first, first + len)
    case RFront(first, len, h) =>
      RangeOk(s, first, len) && NotTaken(s, first, first + len) && Covered(s, h, first, len)
    case RBase(first, len, h, f, fc) =>
      && RangeOk(s, first, len) && NotTaken(s, first, first + len) && Covered(s, h, first, len)
      && Chunk(first + len - 1) <= fc < s.headers[h].hi && f >= 0 && Placed(s, h, f, fc)
    case RBlock(first, len, h, slot, i, out) =>
      && RangeOk(s, first, len) && first <= i < first + len && NotTaken(s, i, first + len)
      && Covered(s, h, first, len) && Placed(s, h, slot, Chunk(i)) && out == s.items[first..i]
      && AllTaken(s, first, i)
    case RTake(first, len, h, slot, b, from, i, out) =>
      && RangeOk(s, first, len) && first <= from <= i < first + len && NotTaken(s, i, first + len)
      && Covered(s, h, first, len) && Placed(s, h, slot, Chunk(i)) && out == s.items[first..i]
      && NotCleared(s, from, i) && Chunk(from) == Chunk(i) < |s.hist| && b == s.hist[Chunk(i)]
      && AllTaken(s, first, i)
    case RClear(first, len, h, slot, b, from, j, i, out) =>
      && RangeOk(s, first, len) && first <= from < j <= i <= first + len && NotTaken(s, i, first + len)
      && Covered(s, h, first, len) && Placed(s, h, slot, Chunk(from)) && out == s.items[first..i]
      && NotCleared(s, from, j) && Chunk(from) == Chunk(i - 1) < |s.hist| && b == s.hist[Chunk(from)]
      && (i < first + len ==> Chunk(i) == Chunk(from) + 1)
      && AllTaken(s, first, i)
  }

  /** The claim a reader is working on. */
  predicate Has(rd: Reader, i: nat) { !rd.RIdle? && rd.first <= i < rd.first + rd.len }

  ghost predicate ReadersOk(s: State) {
    && |s.readers| == |s.m.c.consumers|
    && (forall t :: 0 <= t < |s.readers| ==> ReaderOk(s.m, s.readers[t]))
    && (forall t :: 0 <= t < |s.readers| && !s.readers[t].RIdle? ==> s.m.c.consumers[t].Idle?)
    && (forall t, u, i: nat :: 0 <= t < u < |s.readers| ==> !(Has(s.readers[t], i) && Has(s.readers[u], i)))
  }

  /** The part of the invariant that does not look at the readers. */
  ghost predicate Core(s: Mem) {
    Q.Inv(s.c) && RingOk(s) && PhaseOk(s) && IndexOk(s) && DataOk(s)
  }

  ghost predicate Inv(s: State) { Core(s.m) && ReadersOk(s) }
}
