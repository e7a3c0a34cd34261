/** The single-producer single-consumer queue of ReaderWriterQueue.h: a circular list of circular
    buffers, as two program counters over shared memory, one step per shared access.

    Each side keeps a shadow copy of the other side's index (`localFront`, `localTail`) and only
    looks at the real one when the shadow says full or empty. Sizes are powers of two in the source,
    so that masking wraps an index; here wrapping is written out. */
module Spsc {
  import opened Common

  type BlockId = nat

  datatype Block = Block(front: nat, localTail: nat, tail: nat, localFront: nat, next: BlockId, size: nat, data: seq<Cell>)

  /** inner_enqueue, named after the shared access about to be done. `can` allows allocation. */
  datatype Producer =
    | PIdle
    | PLoadFront(x: int, can: bool)             // tailBlock_->localFront = tailBlock_->front
    | PWrite(x: int)                            // construct in the tail block
    | PStoreTail(x: int)
    | PLoadFrontBlock(x: int, can: bool, held: int)   // tail block full: is the next one free?
    | PNextFront(x: int, b: BlockId)            // load the next block's front
    | PNextWrite(x: int, b: BlockId)
    | PNextTail(x: int, b: BlockId)
    | PAllocate(x: int)
    | PLink(x: int, b: BlockId)                 // tailBlock_->next = newBlock
    | PPublish(x: int, b: BlockId)              // tailBlock = b

  /** try_dequeue and pop (which discards the element), or peek. */
  datatype Consumer =
    | CIdle
    | CLoadTail(peek: bool)                     // frontBlock_->localTail = frontBlock_->tail
    | CLoadTailBlock(peek: bool, wasEmpty: bool)
    | CReloadTail(peek: bool)
    | CLoadNext(peek: bool)
    | CNextTail(peek: bool, b: BlockId)
    | CAdvance(b: BlockId)                      // frontBlock = nextBlock
    | CPeekNext(b: BlockId)
    | CTake(peek: bool)
    | CStoreFront(v: int)

  /** `ring` lists the blocks in the order of their next pointers, beginning with frontBlock; `k` is
      the place of tailBlock in it. `enq` and `deq` record what went in and came out. */
  datatype State = State(
    blocks: map<BlockId, Block>, frontBlock: BlockId, tailBlock: BlockId, largest: nat, maxBlock: nat,
    prod: Producer, cons: Consumer,
    ring: seq<BlockId>, k: nat, enq: seq<int>, deq: seq<int>, maxSize: nat)

  /** Offered and Asked are the calls, the others their answers. */
  datatype Event = Silent
                 | Offered(x: int, can: bool) | Enqueued(x: int) | Refused(held: int) | NoMemory
                 | Asked(peek: bool) | Dequeued(v: int) | Peeked(v: int) | Missed(wasEmpty: bool)

  function Succ(i: nat, size: nat): nat { if i + 1 == size then 0 else i + 1 }

  /** (b - a) & (size - 1) */
  function Dist(a: nat, b: nat, size: nat): int { if b >= a then b - a else b - a + size }

  /** The slot `i` places after the front. */
  function At(b: Block, i: nat): nat { if b.front + i < b.size then b.front + i else b.front + i - b.size }

  function Count(b: Block): int { Dist(b.front, b.tail, b.size) }

  predicate BlockOk(b: Block) {
    && b.size >= 2 && |b.data| == b.size
    && b.front < b.size && b.tail < b.size && b.localFront < b.size && b.localTail < b.size
    && Dist(b.front, b.localTail, b.size) <= Count(b) <= Dist(b.localFront, b.tail, b.size)
  }

  /** What each side concludes from its shadow index. */
  predicate SeesRoom(b: Block) { Succ(b.tail, b.size) != b.localFront }
  predicate SeesItem(b: Block) { b.front != b.localTail }

  // ---------------------------------------------------------------- steps

  predicate AllOk(s: State) { forall b :: b in s.blocks ==> BlockOk(s.blocks[b]) }

  /** Enough for every step to be defined. */
  predicate Typed(s: State) {
    && AllOk(s)
    && s.frontBlock in s.blocks && s.tailBlock in s.blocks
    && s.blocks[s.frontBlock].next in s.blocks && s.blocks[s.tailBlock].next in s.blocks
    && (s.prod.PNextFront? || s.prod.PNextWrite? || s.prod.PNextTail? || s.prod.PLink? || s.prod.PPublish? ==> s.prod.b in s.blocks)
    && (s.cons.CNextTail? || s.cons.CAdvance? || s.cons.CPeekNext? ==> s.cons.b in s.blocks)
    && s.k < |s.ring| && s.largest >= 2
  }

  function Front(s: State): Block requires Typed(s) { s.blocks[s.frontBlock] }
  function Tail(s: State): Block requires Typed(s) { s.blocks[s.tailBlock] }

  function Put(s: State, b: BlockId, blk: Block): State { s.(blocks := s.blocks[b := blk]) }

  /** The calls themselves: the shadow index decides whether the real one has to be looked at. */
  function EnqueueCalled(s: State, x: int, can: bool): State
    requires Typed(s)
  {
    s.(prod := if SeesRoom(Tail(s)) then PWrite(x) else PLoadFront(x, can))
  }

  function DequeueCalled(s: State, peek: bool): State
    requires Typed(s)
  {
    s.(cons := if SeesItem(Front(s)) then CTake(peek) else CLoadTail(peek))
  }

  ghost predicate ProducerStep(s: State, e: Event, s': State)
    requires Typed(s)
  {
    var t := Tail(s);
    match s.prod
    case PIdle => e.Offered? && s' == EnqueueCalled(s, e.x, e.can)
    case PLoadFront(x, can) =>
      && e == Silent
      && s' == Put(s, s.tailBlock, t.(localFront := t.front))
               .(prod := if Succ(t.tail, t.size) != t.front then PWrite(x) else PLoadFrontBlock(x, can, |s.enq| - |s.deq|))
    case PWrite(x) =>
      e == Silent && s' == Put(s, s.tailBlock, t.(data := t.data[t.tail := Full(x)])).(prod := PStoreTail(x))
    case PStoreTail(x) =>
      && e == Enqueued(x)
      && s' == Put(s, s.tailBlock, t.(tail := Succ(t.tail, t.size))).(prod := PIdle, enq := s.enq + [x])
    case PLoadFrontBlock(x, can, held) =>
      if t.next != s.frontBlock then e == Silent && s' == s.(prod := PNextFront(x, t.next))
      else if can then e == Silent && s' == s.(prod := PAllocate(x))
      else e == Refused(held) && s' == s.(prod := PIdle)
    case PNextFront(x, b) =>
      var n := s.blocks[b];
      e == Silent && s' == Put(s, b, n.(localFront := n.front)).(prod := PNextWrite(x, b))
    case PNextWrite(x, b) =>
      var n := s.blocks[b];
      e == Silent && s' == Put(s, b, n.(data := n.data[n.tail := Full(x)])).(prod := PNextTail(x, b))
    case PNextTail(x, b) =>
      var n := s.blocks[b];
      e == Silent && s' == Put(s, b, n.(tail := Succ(n.tail, n.size))).(prod := PPublish(x, b))
    case PAllocate(x) =>
      || (e == NoMemory && s' == s.(prod := PIdle))
      || (&& e == Silent
          && var size := if s.largest >= s.maxBlock then s.largest else s.largest * 2;
             exists b: BlockId ::
               && b !in s.blocks
               && s' == Put(s, b, Block(0, 1, 1, 0, t.next, size, seq(size, i => if i == 0 then Full(x) else Void)))
                        .(prod := PLink(x, b), largest := size))
    case PLink(x, b) =>
      && e == Silent
      && s' == Put(s, s.tailBlock, t.(next := b))
               .(prod := PPublish(x, b), ring := s.ring[..s.k + 1] + [b] + s.ring[s.k + 1..])
    case PPublish(x, b) =>
      && e == Enqueued(x)
      && s' == s.(tailBlock := b, prod := PIdle, k := s.k + 1, enq := s.enq + [x])
  }

  ghost predicate ConsumerStep(s: State, e: Event, s': State)
    requires Typed(s)
  {
    var f := Front(s);
    match s.cons
    case CIdle => e.Asked? && s' == DequeueCalled(s, e.peek)
    case CLoadTail(peek) =>
      && e == Silent
      && s' == Put(s, s.frontBlock, f.(localTail := f.tail))
               .(cons := if f.front != f.tail then CTake(peek) else CLoadTailBlock(peek, |s.enq| == |s.deq|))
    case CLoadTailBlock(peek, wasEmpty) =>
      if s.frontBlock != s.tailBlock then e == Silent && s' == s.(cons := CReloadTail(peek))
      else e == Missed(wasEmpty) && s' == s.(cons := CIdle)
    case CReloadTail(peek) =>
      && e == Silent
      && s' == Put(s, s.frontBlock, f.(localTail := f.tail))
               .(cons := if f.front != f.tail then CTake(peek) else CLoadNext(peek))
    case CLoadNext(peek) =>
      e == Silent && s' == s.(cons := CNextTail(peek, f.next))
    case CNextTail(peek, b) =>
      var n := s.blocks[b];
      && e == Silent
      && s' == if peek then s.(cons := CPeekNext(b)) else Put(s, b, n.(localTail := n.tail)).(cons := CAdvance(b))
    case CAdvance(b) =>
      e == Silent && s.k >= 1 && s' == s.(frontBlock := b, cons := CTake(false), ring := s.ring[1..] + [s.ring[0]], k := s.k - 1)
    case CPeekNext(b) =>
      var n := s.blocks[b];
      n.data[n.front].Full? && e == Peeked(n.data[n.front].item) && s' == s.(cons := CIdle)
    case CTake(peek) =>
      && f.data[f.front].Full?
      && var v := f.data[f.front].item;
         if peek then e == Peeked(v) && s' == s.(cons := CIdle)
         else e == Silent && s' == Put(s, s.frontBlock, f.(data := f.data[f.front := Void])).(cons := CStoreFront(v))
    case CStoreFront(v) =>
      && e == Dequeued(v)
      && s' == Put(s, s.frontBlock, f.(front := Succ(f.front, f.size))).(cons := CIdle, deq := s.deq + [v])
  }

  ghost predicate Step(s: State, e: Event, s': State) {
    Typed(s) && (ProducerStep(s, e, s') || ConsumerStep(s, e, s'))
  }

  // ---------------------------------------------------------------- invariant

  function Blk(s: State, j: nat): Block
    requires j < |s.ring| && s.ring[j] in s.blocks
  {
    s.blocks[s.ring[j]]
  }

  /** The next place round the ring. */
  function After(s: State, j: nat): nat { if j + 1 < |s.ring| then j + 1 else 0 }

  predicate InBlocks(s: State) { forall j :: 0 <= j < |s.ring| ==> s.ring[j] in s.blocks }

  predicate Shape(s: State) { s.k < |s.ring| && InBlocks(s) && AllOk(s) }

  predicate Linked(s: State)
    requires InBlocks(s)
  {
    forall j :: 0 <= j < |s.ring| ==> s.blocks[s.ring[j]].next == s.ring[After(s, j)]
  }

  predicate Distinct(r: seq<BlockId>) { forall i, j :: 0 <= i < j < |r| ==> r[i] != r[j] }

  ghost predicate RingOk(s: State) {
    && Shape(s) && Linked(s) && Distinct(s.ring)
    && s.frontBlock == s.ring[0] && s.tailBlock == s.ring[s.k] && s.largest >= 2
  }

  /** The producer has found its block full and is on its way to another one. */
  predicate Moving(p: Producer) {
    p.PLoadFrontBlock? || p.PNextFront? || p.PNextWrite? || p.PNextTail? || p.PAllocate? || p.PLink? || p.PPublish?
  }

  /** Between front and tail all blocks are full, the tail block is not empty, and the blocks behind
      the tail are empty, but for the one about to be published. */
  ghost predicate FillOk(s: State)
    requires Shape(s)
  {
    && (forall j :: 0 < j < s.k ==> Count(Blk(s, j)) == Blk(s, j).size - 1)
    && (s.k > 0 ==> Count(Blk(s, s.k)) >= 1)
    && (s.k > 0 && Moving(s.prod) ==> Count(Blk(s, s.k)) == Blk(s, s.k).size - 1)
    && (forall j :: s.k < j < |s.ring| ==> Count(Blk(s, j)) == if s.prod.PPublish? && j == s.k + 1 then 1 else 0)
  }

  ghost predicate ProducerOk(s: State)
    requires Shape(s)
  {
    match s.prod
    case PWrite(_) => SeesRoom(Tail'(s))
    case PStoreTail(x) => SeesRoom(Tail'(s)) && Tail'(s).data[Tail'(s).tail] == Full(x)
    case PLoadFrontBlock(_, _, held) => s.k + 1 == |s.ring| ==> held >= s.maxSize
    case PNextFront(_, b) => s.k + 1 < |s.ring| && b == s.ring[s.k + 1]
    case PNextWrite(_, b) => s.k + 1 < |s.ring| && b == s.ring[s.k + 1] && SeesRoom(s.blocks[b])
    case PNextTail(x, b) =>
      && s.k + 1 < |s.ring| && b == s.ring[s.k + 1] && SeesRoom(s.blocks[b])
      && s.blocks[b].data[s.blocks[b].tail] == Full(x)
    case PLink(x, b) =>
      && b !in s.ring && b in s.blocks && s.blocks[b].size == s.largest && s.blocks[b].next == s.ring[After(s, s.k)]
      && Count(s.blocks[b]) == 1 && s.blocks[b].data[s.blocks[b].front] == Full(x)
    case PPublish(x, b) =>
      && s.k + 1 < |s.ring| && b == s.ring[s.k + 1] && s.blocks[b].data[s.blocks[b].front] == Full(x)
    case _ => true
  }

  ghost function Tail'(s: State): Block
    requires Shape(s)
  {
    s.blocks[s.ring[s.k]]
  }

  ghost predicate ConsumerOk(s: State)
    requires Shape(s)
  {
    match s.cons
    case CTake(_) => SeesItem(Blk(s, 0))
    case CStoreFront(v) => SeesItem(Blk(s, 0)) && |s.deq| < |s.enq| && v == s.enq[|s.deq|]
    case CLoadTailBlock(_, wasEmpty) => !wasEmpty ==> s.k >= 1
    case CReloadTail(_) => s.k >= 1
    case CLoadNext(_) => s.k >= 1 && Count(Blk(s, 0)) == 0
    case CNextTail(_, b) => s.k >= 1 && Count(Blk(s, 0)) == 0 && b == s.ring[1]
    case CAdvance(b) => s.k >= 1 && Count(Blk(s, 0)) == 0 && b == s.ring[1] && SeesItem(Blk(s, 1))
    case CPeekNext(b) => s.k >= 1 && Count(Blk(s, 0)) == 0 && b == s.ring[1]
    case _ => true
  }

  /** The number of elements enqueued before the first one now in block `j`. */
  ghost function Start(s: State, j: nat): int
    requires j <= |s.ring| && InBlocks(s)
  {
    if j == 0 then |s.deq| else Start(s, j - 1) + Count(Blk(s, j - 1))
  }

  /** Element `i` of block `j` is the right one. */
  ghost predicate Holds(s: State, j: nat, i: nat)
    requires Shape(s) && j < |s.ring| && i < Count(Blk(s, j))
  {
    0 <= Start(s, j) + i < |s.enq| && Blk(s, j).data[At(Blk(s, j), i)] == Full(s.enq[Start(s, j) + i])
  }

  /** The consumer has moved this element out and not yet advanced the front. */
  predicate BeingTaken(s: State, j: nat, i: nat) { s.cons.CStoreFront? && j == 0 && i == 0 }

  /** Read in ring order from the front, the blocks hold exactly what is enqueued and not dequeued. */
  ghost predicate DataOk(s: State)
    requires Shape(s)
  {
    && s.deq <= s.enq
    && Start(s, s.k + 1) == |s.enq|
    && forall j: nat, i: nat :: j <= s.k && i < Count(Blk(s, j)) && !BeingTaken(s, j, i) ==> Holds(s, j, i)
  }

  /** The usable slots of the first `j` blocks: one slot of each stays free. */
  ghost function Room(s: State, j: nat): int
    requires j <= |s.ring| && InBlocks(s)
  {
    if j == 0 then 0 else Room(s, j - 1) + Blk(s, j - 1).size - 1
  }

  /** `maxSize` elements fit into the queue even when one of several blocks cannot be used. */
  ghost predicate CapOk(s: State)
    requires Shape(s)
  {
    && (forall b :: b in s.blocks ==> s.blocks[b].size <= s.largest)
    && (|s.ring| == 1 ==> Room(s, 1) >= s.maxSize)
    && (|s.ring| > 1 ==> forall j :: 0 <= j < |s.ring| ==> Room(s, |s.ring|) - (Blk(s, j).size - 1) >= s.maxSize)
  }

  ghost predicate Inv(s: State) {
    RingOk(s) && FillOk(s) && ProducerOk(s) && ConsumerOk(s) && DataOk(s) && CapOk(s)
  }
}
