/** Every interleaving of one producer and one consumer keeps the invariant of the circular list of
    circular buffers, and what that means for the callers. */
module SpscProof {
  import opened Common
  import opened Spsc

  lemma InvTyped(s: State)
    requires Inv(s)
    ensures Typed(s)
  {
    hide DataOk, CapOk, FillOk, Count, BlockOk, Distinct, SeesRoom, SeesItem;
    var _ := s.ring[0];
    assert s.blocks[s.ring[0]].next == s.ring[After(s, 0)];
    assert s.blocks[s.ring[s.k]].next == s.ring[After(s, s.k)];
  }

  // ---------------------------------------------------------------- one block

  function Appended(b: Block): Block { b.(tail := Succ(b.tail, b.size)) }
  function Removed(b: Block): Block { b.(front := Succ(b.front, b.size)) }

  lemma AppendCount(b: Block)
    requires BlockOk(b) && SeesRoom(b)
    ensures var b' := Appended(b);
            && BlockOk(b') && Count(b') == Count(b) + 1
            && Count(b) < b.size - 1 && At(b', Count(b)) == b.tail && (forall i :: 0 <= i < Count(b) ==> At(b', i) == At(b, i))
  {}

  lemma RemoveCount(b: Block)
    requires BlockOk(b) && SeesItem(b)
    ensures var b' := Removed(b);
            && BlockOk(b') && Count(b') == Count(b) - 1
            && (forall i :: 0 <= i < Count(b') ==> At(b', i) == At(b, i + 1))
  {}

  // ---------------------------------------------------------------- frames

  lemma OkAt(s: State, p: nat)
    requires Shape(s) && p < |s.ring|
    ensures BlockOk(Blk(s, p)) && 0 <= Count(Blk(s, p)) < Blk(s, p).size && At(Blk(s, p), 0) == Blk(s, p).front
    ensures Count(Blk(s, p)) == 0 <==> Blk(s, p).front == Blk(s, p).tail
    ensures s.blocks == s.blocks[s.ring[p] := Blk(s, p)]
  {}

  /** `s` with the block at place `p` of the ring replaced. */
  ghost function Set(s: State, p: nat, blk: Block): State
    requires p < |s.ring|
  {
    Put(s, s.ring[p], blk)
  }

  predicate SameShape(s: State, s': State) {
    && s'.ring == s.ring && s'.k == s.k && s'.frontBlock == s.frontBlock && s'.tailBlock == s.tailBlock
    && s'.largest == s.largest && s'.maxSize == s.maxSize
  }

  ghost predicate Replaced(s: State, p: nat, blk: Block, s': State)
    requires Shape(s)
  {
    && p < |s.ring| && SameShape(s, s') && s'.blocks == Set(s, p, blk).blocks
    && BlockOk(blk) && blk.next == Blk(s, p).next && blk.size == Blk(s, p).size
  }

  /** Every place of the ring but `p` keeps its block. */
  ghost predicate Only(s: State, p: nat, blk: Block, s': State)
    requires InBlocks(s) && InBlocks(s')
  {
    |s'.ring| == |s.ring| && forall j :: 0 <= j < |s.ring| ==> Blk(s', j) == if j == p then blk else Blk(s, j)
  }

  lemma ReplacedShape(s: State, p: nat, blk: Block, s': State)
    requires Shape(s) && Distinct(s.ring) && Replaced(s, p, blk, s')
    ensures Shape(s') && Only(s, p, blk, s')
  {
    hide BlockOk;
  }

  lemma ReplacedRing(s: State, p: nat, blk: Block, s': State)
    requires RingOk(s) && Replaced(s, p, blk, s')
    ensures RingOk(s') && Only(s, p, blk, s')
  {
    ReplacedShape(s, p, blk, s');
    hide BlockOk, AllOk, Distinct;
  }

  lemma {:induction false} StartFrame(s: State, s': State, j: nat)
    requires InBlocks(s) && InBlocks(s') && j <= |s.ring| && j <= |s'.ring| && |s'.deq| == |s.deq|
    requires forall i :: 0 <= i < j ==> Count(Blk(s', i)) == Count(Blk(s, i))
    ensures Start(s', j) == Start(s, j)
  {
    hide Count;
    if j > 0 { StartFrame(s, s', j - 1); }
  }

  lemma {:induction false} RoomFrame(s: State, s': State, j: nat)
    requires InBlocks(s) && InBlocks(s') && j <= |s.ring| && j <= |s'.ring|
    requires forall i :: 0 <= i < j ==> Blk(s', i).size == Blk(s, i).size
    ensures Room(s', j) == Room(s, j)
  {
    if j > 0 { RoomFrame(s, s', j - 1); }
  }

  lemma ReplacedCap(s: State, p: nat, blk: Block, s': State)
    requires Shape(s) && Replaced(s, p, blk, s') && Shape(s') && Only(s, p, blk, s') && CapOk(s)
    ensures CapOk(s')
  {
    hide AllOk;
    RoomFrame(s, s', |s.ring|);
    if |s.ring| == 1 { RoomFrame(s, s', 1); }
  }

  /** An update that keeps the elements of every block from the front to the tail, except the one
      being removed. */
  lemma ReplacedData(s: State, p: nat, blk: Block, s': State)
    requires Shape(s) && Replaced(s, p, blk, s') && Shape(s') && Only(s, p, blk, s') && DataOk(s)
    requires s'.enq == s.enq && s'.deq == s.deq
    requires s.cons.CStoreFront? ==> s'.cons.CStoreFront?
    requires p <= s.k ==>
      && blk.front == Blk(s, p).front && Count(blk) == Count(Blk(s, p))
      && forall i: nat :: i < Count(blk) && !BeingTaken(s', p, i) ==>
           blk.data[At(blk, i)] == Blk(s, p).data[At(blk, i)]
    ensures DataOk(s')
  {
    hide AllOk, Count;
    forall j: nat | j <= s.k + 1 ensures Start(s', j) == Start(s, j) { StartFrame(s, s', j); }
    forall j: nat, i: nat | j <= s'.k && i < Count(Blk(s', j)) && !BeingTaken(s', j, i) ensures Holds(s', j, i) {
      assert Holds(s, j, i);
    }
  }

  /** What any replacement keeps that leaves the number of elements and the elements alone. */
  lemma Quiet(s: State, p: nat, blk: Block, s': State)
    requires Inv(s) && Replaced(s, p, blk, s') && s'.enq == s.enq && s'.deq == s.deq
    requires s.cons.CStoreFront? ==> s'.cons.CStoreFront?
    requires blk.front == Blk(s, p).front && blk.tail == Blk(s, p).tail
    requires forall i: nat :: i < Count(blk) && !BeingTaken(s', p, i) ==>
               blk.data[At(blk, i)] == Blk(s, p).data[At(blk, i)]
    requires Moving(s'.prod) ==> Moving(s.prod) || s.k == 0 || Count(Blk(s, s.k)) == Blk(s, s.k).size - 1
    requires s'.prod.PPublish? == s.prod.PPublish?
    ensures RingOk(s') && Only(s, p, blk, s') && FillOk(s') && DataOk(s') && CapOk(s')
  {
    hide FillOk, ProducerOk, ConsumerOk, DataOk, CapOk, Distinct, Linked, AllOk;
    ReplacedRing(s, p, blk, s');
    ReplacedCap(s, p, blk, s');
    ReplacedData(s, p, blk, s');
    QuietFill(s, p, blk, s');
  }

  lemma QuietFill(s: State, p: nat, blk: Block, s': State)
    requires Shape(s) && FillOk(s) && Shape(s') && Only(s, p, blk, s') && p < |s.ring| && SameShape(s, s')
    requires Count(blk) == Count(Blk(s, p)) && blk.size == Blk(s, p).size
    requires Moving(s'.prod) ==> Moving(s.prod) || s.k == 0 || Count(Blk(s, s.k)) == Blk(s, s.k).size - 1
    requires s'.prod.PPublish? == s.prod.PPublish?
    ensures FillOk(s')
  {
    hide Count, AllOk;
  }

  /** The consumer's assertions survive a producer step on the block at `p`. */
  lemma ConsumerFrame(s: State, p: nat, blk: Block, s': State)
    requires Shape(s) && ConsumerOk(s) && Shape(s') && Only(s, p, blk, s') && p < |s.ring| && SameShape(s, s')
    requires s'.cons == s.cons && s'.deq == s.deq && s.enq <= s'.enq
    requires blk.front == Blk(s, p).front && blk.localTail == Blk(s, p).localTail
    requires Count(blk) == Count(Blk(s, p)) || (Count(blk) == Count(Blk(s, p)) + 1 && p >= s.k)
    ensures ConsumerOk(s')
  {
    hide AllOk, Count;
  }

  // ---------------------------------------------------------------- the producer

  function Wrote(b: Block, x: int): Block
    requires b.tail < |b.data|
  {
    b.(data := b.data[b.tail := Full(x)])
  }

  lemma EnqueueBegins(s: State, x: int, can: bool, s': State)
    requires Inv(s) && s.prod.PIdle?
    requires s' == s.(prod := if SeesRoom(Blk(s, s.k)) then PWrite(x) else PLoadFront(x, can))
    ensures Inv(s')
  {
    hide FillOk, DataOk, CapOk, Distinct, Linked, AllOk, ConsumerOk, Count, BlockOk, At, Succ;
    OkAt(s, s.k);
    Quiet(s, s.k, Blk(s, s.k), s');
    ConsumerFrame(s, s.k, Blk(s, s.k), s');
  }

  lemma FrontLoadedBlock(t: Block)
    requires BlockOk(t)
    ensures var blk := t.(localFront := t.front);
            && BlockOk(blk) && Count(blk) == Count(t) && (SeesRoom(blk) <==> Count(t) != t.size - 1)
            && (Succ(t.tail, t.size) != t.front <==> SeesRoom(blk))
            && forall i: nat :: i < Count(blk) ==> At(blk, i) == At(t, i)
  {}

  lemma FrontLoaded(s: State, s': State)
    requires Inv(s) && s.prod.PLoadFront?
    requires var t := Blk(s, s.k);
             s' == Set(s, s.k, t.(localFront := t.front))
                   .(prod := if Succ(t.tail, t.size) != t.front then PWrite(s.prod.x)
                             else PLoadFrontBlock(s.prod.x, s.prod.can, |s.enq| - |s.deq|))
    ensures Inv(s')
  {
    hide FillOk, DataOk, CapOk, Distinct, Linked, AllOk, ConsumerOk, Count, BlockOk, At, Succ;
    OkAt(s, s.k);
    var t := Blk(s, s.k);
    var blk := t.(localFront := t.front);
    FrontLoadedBlock(t);
    if Count(t) == t.size - 1 && s.k + 1 == |s.ring| { FullMeansHeld(s); }
    Quiet(s, s.k, blk, s');
    ConsumerFrame(s, s.k, blk, s');
  }

  lemma WroteBlock(b: Block, x: int)
    requires BlockOk(b)
    ensures BlockOk(Wrote(b, x)) && Count(Wrote(b, x)) == Count(b) && Wrote(b, x).data[b.tail] == Full(x)
    ensures forall i: nat :: i < Count(b) ==> Wrote(b, x).data[At(Wrote(b, x), i)] == b.data[At(Wrote(b, x), i)]
  {}

  lemma Written(s: State, s': State)
    requires Inv(s) && s.prod.PWrite?
    requires var t := Blk(s, s.k);
             s' == Set(s, s.k, Wrote(t, s.prod.x)).(prod := PStoreTail(s.prod.x))
    ensures Inv(s')
  {
    hide FillOk, DataOk, CapOk, Distinct, Linked, AllOk, ConsumerOk, Count, BlockOk, At, Succ;
    OkAt(s, s.k);
    WroteBlock(Blk(s, s.k), s.prod.x);
    var blk := Wrote(Blk(s, s.k), s.prod.x);
    Quiet(s, s.k, blk, s');
    ConsumerFrame(s, s.k, blk, s');
  }

  lemma NextChecked(s: State, s': State)
    requires Inv(s) && s.prod.PLoadFrontBlock?
    requires if Blk(s, s.k).next != s.frontBlock then s' == s.(prod := PNextFront(s.prod.x, Blk(s, s.k).next))
             else s' == s.(prod := PAllocate(s.prod.x)) || s' == s.(prod := PIdle)
    ensures Inv(s')
    ensures Blk(s, s.k).next == s.frontBlock ==> s.prod.held >= s.maxSize
  {
    hide FillOk, DataOk, CapOk, Distinct, Linked, AllOk, ConsumerOk, Count, BlockOk, At, Succ;
    OkAt(s, s.k);
    NextPlace(s, s.k);
    Quiet(s, s.k, Blk(s, s.k), s');
    ConsumerFrame(s, s.k, Blk(s, s.k), s');
  }

  /** The next pointer leads to the front block exactly from the last place of the ring. */
  lemma NextPlace(s: State, p: nat)
    requires RingOk(s) && p < |s.ring|
    ensures Blk(s, p).next == s.ring[After(s, p)]
    ensures Blk(s, p).next == s.frontBlock <==> p + 1 == |s.ring|
  {}

  /** What inner_enqueue asserts before it writes into the block after the tail: that block is empty. */
  lemma NextIsEmpty(s: State)
    requires Inv(s) && (s.prod.PNextFront? || s.prod.PNextWrite? || s.prod.PNextTail?)
    ensures s.k + 1 < |s.ring| && s.prod.b == s.ring[s.k + 1]
    ensures Count(Blk(s, s.k + 1)) == 0 && Blk(s, s.k + 1).front == Blk(s, s.k + 1).tail
  {
    hide DataOk, CapOk, ConsumerOk, AllOk, Distinct, Linked, SeesRoom, BlockOk, Count;
    OkAt(s, s.k + 1);
  }

  lemma NextFrontLoaded(s: State, s': State)
    requires Inv(s) && s.prod.PNextFront?
    requires s' == Set(s, s.k + 1, Blk(s, s.k + 1).(localFront := Blk(s, s.k + 1).front)).(prod := PNextWrite(s.prod.x, s.prod.b))
    ensures Inv(s')
    ensures Blk(s, s.k + 1).front == Blk(s, s.k + 1).tail
  {
    hide FillOk, DataOk, CapOk, Distinct, Linked, AllOk, ConsumerOk, Count, BlockOk, At, Succ;
    var n := Blk(s, s.k + 1);
    OkAt(s, s.k + 1);
    NextIsEmpty(s);
    FrontLoadedBlock(n);
    var blk := n.(localFront := n.front);
    Quiet(s, s.k + 1, blk, s');
    ConsumerFrame(s, s.k + 1, blk, s');
  }

  lemma NextWritten(s: State, s': State)
    requires Inv(s) && s.prod.PNextWrite?
    requires s' == Set(s, s.k + 1, Wrote(Blk(s, s.k + 1), s.prod.x)).(prod := PNextTail(s.prod.x, s.prod.b))
    ensures Inv(s')
  {
    hide FillOk, DataOk, CapOk, Distinct, Linked, AllOk, ConsumerOk, Count, BlockOk, At, Succ;
    var n := Blk(s, s.k + 1);
    OkAt(s, s.k + 1);
    WroteBlock(n, s.prod.x);
    Quiet(s, s.k + 1, Wrote(n, s.prod.x), s');
    ConsumerFrame(s, s.k + 1, Wrote(n, s.prod.x), s');
  }

  /** A full tail block: the blocks behind the front alone hold `maxSize` elements, if the producer
      is about to run into the front block. */
  lemma FullMeansHeld(s: State)
    requires Shape(s) && FillOk(s) && DataOk(s) && CapOk(s)
    requires Count(Blk(s, s.k)) == Blk(s, s.k).size - 1 && s.k + 1 == |s.ring|
    ensures |s.enq| - |s.deq| >= s.maxSize
  {
    hide AllOk, Count;
    assert Blk(s, 0) == s.blocks[s.ring[0]];
    StartIsRoom(s, |s.ring|);
  }

  lemma {:induction false} StartIsRoom(s: State, j: nat)
    requires Shape(s) && FillOk(s) && 1 <= j <= s.k + 1
    requires Count(Blk(s, s.k)) == Blk(s, s.k).size - 1
    ensures Start(s, j) - |s.deq| == Room(s, j) - (Blk(s, 0).size - 1) + Count(Blk(s, 0))
    ensures Count(Blk(s, 0)) >= 0
  {
    OkAt(s, 0);
    hide Count, AllOk;
    if j > 1 { StartIsRoom(s, j - 1); }
  }

  lemma NextPublishable(s: State, s': State)
    requires Inv(s) && s.prod.PNextTail?
    requires s' == Set(s, s.k + 1, Appended(Blk(s, s.k + 1))).(prod := PPublish(s.prod.x, s.prod.b))
    ensures Inv(s')
  {
    hide FillOk, DataOk, CapOk, Distinct, Linked, AllOk, ConsumerOk, Count, BlockOk, At, Succ;
    var n := Blk(s, s.k + 1);
    NextIsEmpty(s);
    OkAt(s, s.k + 1);
    AppendCount(n);
    var blk := Appended(n);
    ReplacedRing(s, s.k + 1, blk, s');
    ReplacedCap(s, s.k + 1, blk, s');
    ReplacedData(s, s.k + 1, blk, s');
    NextFill(s, s');
    ConsumerFrame(s, s.k + 1, blk, s');
  }

  lemma NextFill(s: State, s': State)
    requires Shape(s) && FillOk(s) && Shape(s') && SameShape(s, s') && s.k + 1 < |s.ring|
    requires Only(s, s.k + 1, Blk(s', s.k + 1), s') && Count(Blk(s', s.k + 1)) == 1
    requires s.prod.PNextTail? && s'.prod.PPublish?
    ensures FillOk(s')
  {
    hide Count, AllOk;
  }

  /** One element more in the tail block. */
  lemma Stored(s: State, s': State)
    requires Inv(s) && s.prod.PStoreTail?
    requires s' == Set(s, s.k, Appended(Blk(s, s.k))).(prod := PIdle, enq := s.enq + [s.prod.x])
    ensures Inv(s')
  {
    hide FillOk, DataOk, CapOk, Distinct, Linked, AllOk, ConsumerOk, Count, BlockOk, At, Succ;
    var t := Blk(s, s.k);
    OkAt(s, s.k);
    AppendCount(t);
    var blk := Appended(t);
    ReplacedRing(s, s.k, blk, s');
    ReplacedCap(s, s.k, blk, s');
    StoredFill(s, s');
    ConsumerFrame(s, s.k, blk, s');
    StoredData(s, s.prod.x, s');
  }

  lemma StoredFill(s: State, s': State)
    requires Shape(s) && FillOk(s) && Shape(s') && SameShape(s, s')
    requires Only(s, s.k, Blk(s', s.k), s') && Count(Blk(s', s.k)) >= 1
    requires s.prod.PStoreTail? && s'.prod.PIdle?
    ensures FillOk(s')
  {
    hide Count, AllOk;
  }

  lemma StoredData(s: State, x: int, s': State)
    requires Shape(s) && DataOk(s) && Shape(s') && SameShape(s, s')
    requires s'.enq == s.enq + [x] && s'.deq == s.deq && s'.cons == s.cons
    requires var t := Blk(s, s.k); Only(s, s.k, Appended(t), s') && SeesRoom(t) && t.data[t.tail] == Full(x)
    requires ConsumerOk(s)
    ensures DataOk(s')
  {
    var t := Blk(s, s.k);
    assert BlockOk(t) by { OkAt(s, s.k); }
    AppendCount(t);
    hide Count, AllOk, At, ConsumerOk, Succ;
    forall j: nat | j <= s.k ensures Start(s', j) == Start(s, j) { StartFrame(s, s', j); }
    forall j: nat, i: nat | j <= s'.k && i < Count(Blk(s', j)) && !BeingTaken(s', j, i) ensures Holds(s', j, i) {
      if j == s.k && i == Count(t) {
        assert Start(s, s.k + 1) == Start(s, s.k) + Count(t);
      } else {
        assert Holds(s, j, i);
        assert s'.enq[Start(s, j) + i] == s.enq[Start(s, j) + i];
        assert j == s.k ==> At(Blk(s', j), i) == At(t, i);
      }
    }
    assert Start(s', s.k + 1) == Start(s', s.k) + Count(Blk(s', s.k));
  }

  /** A new block comes into being outside the ring. */
  lemma Allocated(s: State, b: BlockId, blk: Block, s': State)
    requires Inv(s) && s.prod.PAllocate? && b !in s.blocks
    requires BlockOk(blk) && Count(blk) == 1 && blk.data[blk.front] == Full(s.prod.x)
    requires blk.next == Blk(s, s.k).next && s.largest <= blk.size
    requires s' == Put(s, b, blk).(prod := PLink(s.prod.x, b), largest := blk.size)
    ensures Inv(s')
  {
    hide FillOk, DataOk, CapOk, Distinct, AllOk, ConsumerOk, Count, BlockOk, At, Succ;
    AllocatedShape(s, b, blk, s');
    OkAt(s, s.k);
    AllocatedCap(s, b, blk, s');
    AllocatedFill(s, s');
    AllocatedData(s, s');
    AllocatedConsumer(s, s');
    NextPlace(s, s.k);
  }

  /** All places of the ring keep their blocks. */
  ghost predicate Unmoved(s: State, s': State)
    requires InBlocks(s) && InBlocks(s')
  {
    s'.ring == s.ring && s'.k == s.k && forall j :: 0 <= j < |s.ring| ==> Blk(s', j) == Blk(s, j)
  }

  lemma AllocatedShape(s: State, b: BlockId, blk: Block, s': State)
    requires Shape(s) && b !in s.blocks && BlockOk(blk)
    requires s'.blocks == s.blocks[b := blk] && s'.ring == s.ring && s'.k == s.k
    ensures Shape(s') && Unmoved(s, s') && b !in s.ring
  {
    hide BlockOk;
  }

  lemma AllocatedCap(s: State, b: BlockId, blk: Block, s': State)
    requires Shape(s) && CapOk(s) && b !in s.blocks && Shape(s') && Unmoved(s, s')
    requires s'.blocks == s.blocks[b := blk] && s'.largest == blk.size && s.largest <= blk.size && s'.maxSize == s.maxSize
    ensures CapOk(s')
  {
    hide AllOk;
    RoomFrame(s, s', |s.ring|);
  }

  lemma AllocatedFill(s: State, s': State)
    requires Shape(s) && FillOk(s) && Shape(s') && Unmoved(s, s') && s.prod.PAllocate? && s'.prod.PLink?
    ensures FillOk(s')
  {
    hide AllOk, Count;
  }

  lemma AllocatedData(s: State, s': State)
    requires Shape(s) && DataOk(s) && Shape(s') && Unmoved(s, s')
    requires s'.enq == s.enq && s'.deq == s.deq && s'.cons == s.cons
    ensures DataOk(s')
  {
    hide AllOk, Count;
    forall j: nat | j <= s.k + 1 ensures Start(s', j) == Start(s, j) { StartFrame(s, s', j); }
    forall j: nat, i: nat | j <= s'.k && i < Count(Blk(s', j)) && !BeingTaken(s', j, i) ensures Holds(s', j, i) {
      assert Holds(s, j, i);
    }
  }

  lemma AllocatedConsumer(s: State, s': State)
    requires Shape(s) && ConsumerOk(s) && Shape(s') && Unmoved(s, s')
    requires s'.enq == s.enq && s'.deq == s.deq && s'.cons == s.cons
    ensures ConsumerOk(s')
  {
    hide AllOk, Count;
  }

  // Linking the new block in behind the tail.

  ghost function Inserted(r: seq<BlockId>, k: nat, b: BlockId): seq<BlockId>
    requires k < |r|
  {
    r[..k + 1] + [b] + r[k + 1..]
  }

  /** The place in the longer ring of what was at place `j`. */
  function Shifted(k: nat, j: nat): nat { if j <= k then j else j + 1 }

  lemma InsertedPlaces(r: seq<BlockId>, k: nat, b: BlockId)
    requires k < |r| && Distinct(r) && b !in r
    ensures var r' := Inserted(r, k, b);
            && |r'| == |r| + 1 && r'[k + 1] == b && Distinct(r')
            && (forall j: nat :: j < |r| ==> r'[Shifted(k, j)] == r[j])
            && (forall j: nat :: j < |r'| ==> r'[j] == if j <= k then r[j] else if j == k + 1 then b else r[j - 1])
  {}

  lemma LinkedIn(s: State, s': State)
    requires Inv(s) && s.prod.PLink?
    requires s' == Set(s, s.k, Blk(s, s.k).(next := s.prod.b))
                   .(prod := PPublish(s.prod.x, s.prod.b), ring := Inserted(s.ring, s.k, s.prod.b))
    ensures Inv(s')
  {
    hide FillOk, DataOk, CapOk, Distinct, Linked, AllOk, ConsumerOk, Count, BlockOk, At, Succ;
    var b, blk := s.prod.b, Blk(s, s.k).(next := s.prod.b);
    OkAt(s, s.k);
    InsertedPlaces(s.ring, s.k, b);
    Relinked(Blk(s, s.k), b);
    LinkedBlocks(s, b, blk, s');
    LinkedRing(s, b, s');
    LinkedFill(s, b, s');
    LinkedCap(s, b, s');
    LinkedData(s, b, s');
    LinkedConsumer(s, b, s');
  }

  lemma Relinked(b: Block, n: BlockId)
    ensures BlockOk(b.(next := n)) == BlockOk(b)
  {}

  /** The blocks of the ring, up to their next pointers. */
  ghost predicate Wider(s: State, b: BlockId, s': State)
    requires Shape(s) && InBlocks(s')
  {
    && b in s.blocks && b in s'.blocks && s'.blocks[b] == s.blocks[b]
    && s'.k == s.k && |s'.ring| == |s.ring| + 1 && s'.ring[s.k + 1] == b
    && (forall j: nat :: j < |s.ring| ==>
          && s'.ring[Shifted(s.k, j)] == s.ring[j]
          && Blk(s', Shifted(s.k, j)) == Blk(s, j).(next := Blk(s', Shifted(s.k, j)).next))
    && (forall j: nat :: j < |s'.ring| ==> s'.ring[j] == if j <= s.k then s.ring[j] else if j == s.k + 1 then b else s.ring[j - 1])
  }

  lemma LinkedBlocks(s: State, b: BlockId, blk: Block, s': State)
    requires Shape(s) && Distinct(s.ring) && b in s.blocks && b !in s.ring
    requires blk == Blk(s, s.k).(next := b) && BlockOk(blk) && s'.blocks == s.blocks[s.ring[s.k] := blk]
    requires s'.ring == Inserted(s.ring, s.k, b) && s'.k == s.k
    ensures Shape(s') && Wider(s, b, s')
    ensures forall c :: c in s'.blocks ==> c in s.blocks && s'.blocks[c].size == s.blocks[c].size
    ensures forall c :: c in s'.blocks ==> s'.blocks[c].next == if c == s.ring[s.k] then b else s.blocks[c].next
  {
    hide BlockOk;
    InsertedPlaces(s.ring, s.k, b);
  }

  lemma LinkedRing(s: State, b: BlockId, s': State)
    requires RingOk(s) && Shape(s') && Wider(s, b, s') && Distinct(s'.ring)
    requires forall c :: c in s'.blocks ==> c in s.blocks && s'.blocks[c].next == if c == s.ring[s.k] then b else s.blocks[c].next
    requires b != s.ring[s.k] && s.blocks[b].next == s.ring[After(s, s.k)]
    requires s'.frontBlock == s.frontBlock && s'.tailBlock == s.tailBlock && s'.largest == s.largest
    ensures RingOk(s')
  {
    hide AllOk, Distinct;
    forall j: nat | j < |s'.ring| ensures s'.blocks[s'.ring[j]].next == s'.ring[After(s', j)] {
      LinkedNext(s, b, s', j);
    }
    assert s'.ring[0] == s.ring[0] && s'.ring[s.k] == s.ring[s.k];
  }

  lemma LinkedNext(s: State, b: BlockId, s': State, j: nat)
    requires Shape(s) && Linked(s) && Distinct(s.ring) && Shape(s') && Wider(s, b, s') && j < |s'.ring|
    requires forall c :: c in s'.blocks ==> c in s.blocks && s'.blocks[c].next == if c == s.ring[s.k] then b else s.blocks[c].next
    requires b != s.ring[s.k] && s.blocks[b].next == s.ring[After(s, s.k)]
    ensures s'.blocks[s'.ring[j]].next == s'.ring[After(s', j)]
  {
    hide AllOk, Wider, Linked, Distinct;
    WiderAt(s, b, s', j);
    WiderAt(s, b, s', After(s', j));
    if j != s.k + 1 {
      var i := if j <= s.k then j else j - 1;
      LinkedAt(s, i, s.k);
    }
    WiderAt(s, b, s', 0);
  }

  lemma LinkedAt(s: State, i: nat, k: nat)
    requires InBlocks(s) && Linked(s) && Distinct(s.ring) && i < |s.ring| && k < |s.ring|
    ensures s.blocks[s.ring[i]].next == s.ring[After(s, i)]
    ensures s.ring[i] == s.ring[k] ==> i == k
  {}

  lemma WiderAt(s: State, b: BlockId, s': State, j: nat)
    requires Shape(s) && InBlocks(s') && Wider(s, b, s')
    ensures s'.k == s.k && |s'.ring| == |s.ring| + 1
    ensures j < |s'.ring| ==> s'.ring[j] == if j <= s.k then s.ring[j] else if j == s.k + 1 then b else s.ring[j - 1]
  {
    hide AllOk;
  }

  lemma LinkedFill(s: State, b: BlockId, s': State)
    requires Shape(s) && FillOk(s) && Shape(s') && Wider(s, b, s') && Count(s.blocks[b]) == 1
    requires s.prod.PLink? && s'.prod.PPublish?
    ensures FillOk(s')
  {
    hide AllOk;
    forall j: nat | j < |s.ring| ensures Count(Blk(s', Shifted(s.k, j))) == Count(Blk(s, j)) {}
    hide Count;
    forall j | 0 < j < s'.k ensures Count(Blk(s', j)) == Blk(s', j).size - 1 {
      assert Shifted(s.k, j) == j;
    }
    assert Shifted(s.k, s.k) == s.k;
    forall j | s'.k < j < |s'.ring| ensures Count(Blk(s', j)) == if j == s'.k + 1 then 1 else 0 {
      if j > s.k + 1 { assert Shifted(s.k, j - 1) == j; }
    }
  }

  lemma {:induction false} LinkedRoom(s: State, b: BlockId, s': State, j: nat)
    requires Shape(s) && Shape(s') && Wider(s, b, s') && j <= |s.ring|
    ensures Room(s', Shifted(s.k, j)) == Room(s, j) + if j <= s.k then 0 else s.blocks[b].size - 1
  {
    hide AllOk;
    if j > 0 {
      LinkedRoom(s, b, s', j - 1);
      assert Blk(s', Shifted(s.k, j - 1)).size == Blk(s, j - 1).size;
    }
  }

  lemma LinkedCap(s: State, b: BlockId, s': State)
    requires Shape(s) && CapOk(s) && Shape(s') && Wider(s, b, s')
    requires forall c :: c in s'.blocks ==> c in s.blocks && s'.blocks[c].size == s.blocks[c].size
    requires s'.maxSize == s.maxSize && s'.largest == s.largest == s.blocks[b].size
    ensures CapOk(s')
  {
    LinkedRoom(s, b, s', |s.ring|);
    OkAt(s', s.k + 1);
    assert Blk(s, 0).size <= s.blocks[b].size;
    hide AllOk;
    forall j | 0 <= j < |s'.ring| ensures Room(s', |s'.ring|) - (Blk(s', j).size - 1) >= s'.maxSize {
      if j != s.k + 1 {
        var i := if j <= s.k then j else j - 1;
        assert Shifted(s.k, i) == j && Blk(s', j).size == Blk(s, i).size;
      }
    }
  }

  lemma LinkedData(s: State, b: BlockId, s': State)
    requires Shape(s) && DataOk(s) && Shape(s') && Wider(s, b, s')
    requires s'.enq == s.enq && s'.deq == s.deq && s'.cons == s.cons
    ensures DataOk(s')
  {
    hide AllOk;
    forall j: nat | j <= s.k ensures Blk(s', j) == Blk(s, j).(next := Blk(s', j).next) && Count(Blk(s', j)) == Count(Blk(s, j)) {
      assert Shifted(s.k, j) == j;
    }
    hide Count;
    forall j: nat | j <= s.k + 1 ensures Start(s', j) == Start(s, j) { StartFrame(s, s', j); }
    forall j: nat, i: nat | j <= s'.k && i < Count(Blk(s', j)) && !BeingTaken(s', j, i) ensures Holds(s', j, i) {
      assert Holds(s, j, i);
    }
  }

  lemma LinkedConsumer(s: State, b: BlockId, s': State)
    requires Shape(s) && ConsumerOk(s) && Shape(s') && Wider(s, b, s')
    requires s'.enq == s.enq && s'.deq == s.deq && s'.cons == s.cons
    ensures ConsumerOk(s')
  {
    hide AllOk;
    assert Shifted(s.k, 0) == 0 && Count(Blk(s', 0)) == Count(Blk(s, 0));
    assert s.k >= 1 ==> Shifted(s.k, 1) == 1;
  }

  // Publishing the block behind the tail as the new tail.

  lemma Published(s: State, s': State)
    requires Inv(s) && s.prod.PPublish?
    requires s' == s.(tailBlock := s.prod.b, prod := PIdle, k := s.k + 1, enq := s.enq + [s.prod.x])
    ensures Inv(s')
  {
    hide FillOk, DataOk, CapOk, Distinct, Linked, AllOk, ConsumerOk, Count, BlockOk, At, Succ;
    PublishedRing(s, s');
    PublishedFill(s, s');
    PublishedData(s, s');
    PublishedConsumer(s, s');
    PublishedCap(s, s');
  }

  /** Nothing moves but the tail. */
  ghost predicate Onward(s: State, s': State) {
    s'.blocks == s.blocks && s'.ring == s.ring && s'.k == s.k + 1 < |s.ring|
  }

  lemma PublishedRing(s: State, s': State)
    requires RingOk(s) && Onward(s, s')
    ensures Shape(s') && Linked(s')
  {
    hide BlockOk, Distinct;
    assert forall j: nat :: After(s', j) == After(s, j);
  }

  lemma PublishedFill(s: State, s': State)
    requires Shape(s) && FillOk(s) && Onward(s, s') && Shape(s') && s.prod.PPublish? && s'.prod.PIdle?
    ensures FillOk(s')
  {
    hide AllOk, Count;
    assert forall j: nat :: j < |s.ring| ==> Blk(s', j) == Blk(s, j);
  }

  lemma PublishedCap(s: State, s': State)
    requires Shape(s) && CapOk(s) && Onward(s, s') && s'.largest == s.largest && s'.maxSize == s.maxSize && Shape(s')
    ensures CapOk(s')
  {
    hide AllOk;
    RoomFrame(s, s', |s.ring|);
  }

  lemma PublishedConsumer(s: State, s': State)
    requires Shape(s) && ConsumerOk(s) && Onward(s, s') && Shape(s')
    requires s.enq <= s'.enq && s'.deq == s.deq && s'.cons == s.cons
    ensures ConsumerOk(s')
  {
    hide AllOk, Count;
    assert Blk(s', 0) == Blk(s, 0);
  }

  lemma PublishedElement(s: State)
    requires Shape(s) && FillOk(s) && ProducerOk(s) && s.prod.PPublish?
    ensures s.k + 1 < |s.ring| && var b := Blk(s, s.k + 1); Count(b) == 1 && b.data[At(b, 0)] == Full(s.prod.x)
  {
    hide AllOk, Count, BlockOk;
    OkAt(s, s.k + 1);
  }

  lemma PublishedData(s: State, s': State)
    requires Shape(s) && DataOk(s) && FillOk(s) && Onward(s, s') && Shape(s') && ProducerOk(s) && s.prod.PPublish?
    requires s'.enq == s.enq + [s.prod.x] && s'.deq == s.deq && s'.cons == s.cons
    ensures DataOk(s')
  {
    hide AllOk, Count, FillOk, ProducerOk, Holds;
    PublishedElement(s);
    PublishedStart(s, s', s.k + 1);
    forall j: nat, i: nat | j <= s'.k && i < Count(Blk(s', j)) && !BeingTaken(s', j, i) ensures Holds(s', j, i) {
      PublishedStart(s, s', j);
      if j <= s.k { PublishedHolds(s, s', j, i); } else { PublishedNew(s, s'); }
    }
  }

  lemma PublishedStart(s: State, s': State, j: nat)
    requires Shape(s) && Onward(s, s') && Shape(s') && s'.deq == s.deq && j <= |s.ring|
    ensures Start(s', j) == Start(s, j) && (j < |s.ring| ==> Blk(s', j) == Blk(s, j))
  {
    hide AllOk, Count;
    StartFrame(s, s', j);
  }

  lemma PublishedHolds(s: State, s': State, j: nat, i: nat)
    requires Shape(s) && Shape(s') && j < |s.ring| && j < |s'.ring| && Blk(s', j) == Blk(s, j)
    requires Start(s', j) == Start(s, j) && s.enq <= s'.enq
    requires i < Count(Blk(s, j)) && Holds(s, j, i)
    ensures Holds(s', j, i)
  {
    hide AllOk, Start;
  }

  lemma PublishedNew(s: State, s': State)
    requires Shape(s) && Shape(s') && Onward(s, s') && Blk(s', s.k + 1) == Blk(s, s.k + 1)
    requires s.prod.PPublish? && var b := Blk(s, s.k + 1); Count(b) == 1 && b.data[At(b, 0)] == Full(s.prod.x)
    requires s'.enq == s.enq + [s.prod.x] && Start(s', s.k + 1) == |s.enq|
    ensures Holds(s', s.k + 1, 0)
  {
    hide AllOk, Start;
  }

  lemma ProducerKeeps(s: State, e: Event, s': State)
    requires Inv(s) && Typed(s) && ProducerStep(s, e, s')
    ensures Inv(s')
    ensures e.Refused? ==> e.held >= s.maxSize
  {
    hide Inv, RingOk, AllOk, BlockOk;
    InvPlaces(s);
    match s.prod {
      case PIdle => EnqueueBegins(s, e.x, e.can, s');
      case PLoadFront(_, _) => FrontLoaded(s, s');
      case PWrite(_) => Written(s, s');
      case PStoreTail(_) => Stored(s, s');
      case PLoadFrontBlock(_, _, _) => NextChecked(s, s');
      case _ => MovingKeeps(s, e, s');
    }
  }

  lemma MovingKeeps(s: State, e: Event, s': State)
    requires Inv(s) && Typed(s) && ProducerStep(s, e, s') && Moving(s.prod) && !s.prod.PLoadFrontBlock?
    ensures Inv(s') && !e.Refused?
  {
    hide Inv, RingOk, AllOk, BlockOk;
    InvPlaces(s);
    match s.prod {
      case PNextFront(_, _) => NextIsEmpty(s); NextFrontLoaded(s, s');
      case PNextWrite(_, _) => NextIsEmpty(s); NextWritten(s, s');
      case PNextTail(_, _) => NextIsEmpty(s); NextPublishable(s, s');
      case PAllocate(x) =>
        if e == NoMemory {
          GaveUp(s, s');
        } else {
          var b: BlockId :| b !in s.blocks && b in s'.blocks && s'.prod == PLink(x, b);
          NewBlock(s, b, s'.blocks[b]);
          Allocated(s, b, s'.blocks[b], s');
        }
      case PLink(_, _) => LinkedIn(s, s');
      case PPublish(_, _) => Published(s, s');
    }
  }

  lemma InvPlaces(s: State)
    requires Inv(s)
    ensures Shape(s) && s.frontBlock == s.ring[0] && s.tailBlock == s.ring[s.k] && s.largest >= 2
  {}

  lemma GaveUp(s: State, s': State)
    requires Inv(s) && s.prod.PAllocate? && s' == s.(prod := PIdle)
    ensures Inv(s')
  {
    hide FillOk, DataOk, CapOk, Distinct, Linked, AllOk, ConsumerOk, Count, BlockOk, At, Succ;
    OkAt(s, s.k);
    Quiet(s, s.k, Blk(s, s.k), s');
    ConsumerFrame(s, s.k, Blk(s, s.k), s');
  }

  /** make_block, with one element in it. */
  lemma NewBlock(s: State, b: BlockId, blk: Block)
    requires s.largest >= 2 && s.prod.PAllocate?
    requires blk.size == (if s.largest >= s.maxBlock then s.largest else s.largest * 2)
    requires blk == Block(0, 1, 1, 0, blk.next, blk.size, seq(blk.size, i => if i == 0 then Full(s.prod.x) else Void))
    ensures BlockOk(blk) && Count(blk) == 1 && blk.data[blk.front] == Full(s.prod.x) && s.largest <= blk.size
  {}

  // ---------------------------------------------------------------- the consumer

  /** The producer's assertions survive a consumer step on a block up to the tail. */
  lemma ProducerFrame(s: State, p: nat, blk: Block, s': State)
    requires RingOk(s) && ProducerOk(s) && RingOk(s') && Replaced(s, p, blk, s') && Only(s, p, blk, s')
    requires s'.prod == s.prod && p <= s.k
    requires blk.tail == Blk(s, p).tail && blk.localFront == Blk(s, p).localFront
    requires s.prod.PStoreTail? && p == s.k ==> blk.data[blk.tail] == Blk(s, p).data[blk.tail]
    ensures ProducerOk(s')
  {
    hide AllOk, Linked;
    OkAt(s, s.k);
    OkAt(s', s.k);
    assert s.prod.PStoreTail? ==> Blk(s', s.k).data[Blk(s', s.k).tail] == Blk(s, s.k).data[Blk(s, s.k).tail];
    assert s.k + 1 < |s.ring| ==> Blk(s', s.k + 1) == Blk(s, s.k + 1);
    hide Distinct;
  }

  lemma DequeueBegins(s: State, peek: bool, s': State)
    requires Inv(s) && s.cons.CIdle?
    requires s' == s.(cons := if SeesItem(Blk(s, 0)) then CTake(peek) else CLoadTail(peek))
    ensures Inv(s')
  {
    hide FillOk, DataOk, CapOk, Distinct, Linked, AllOk, ProducerOk, Count, BlockOk, At, Succ;
    OkAt(s, 0);
    Quiet(s, 0, Blk(s, 0), s');
    ProducerFrame(s, 0, Blk(s, 0), s');
  }

  lemma TailLoadedBlock(f: Block)
    requires BlockOk(f)
    ensures var blk := f.(localTail := f.tail);
            && BlockOk(blk) && Count(blk) == Count(f) && (SeesItem(blk) <==> Count(f) >= 1) && (Count(f) >= 1 <==> f.front != f.tail)
            && forall i: nat :: i < Count(blk) ==> At(blk, i) == At(f, i)
  {}

  lemma TailLoaded(s: State, s': State)
    requires Inv(s) && s.cons.CLoadTail?
    requires var f := Blk(s, 0);
             s' == Set(s, 0, f.(localTail := f.tail))
                   .(cons := if f.front != f.tail then CTake(s.cons.peek) else CLoadTailBlock(s.cons.peek, |s.enq| == |s.deq|))
    ensures Inv(s')
  {
    hide FillOk, DataOk, CapOk, Distinct, Linked, AllOk, ProducerOk, Count, BlockOk, At, Succ;
    var f := Blk(s, 0);
    OkAt(s, 0);
    TailLoadedBlock(f);
    EmptyFront(s);
    Quiet(s, 0, f.(localTail := f.tail), s');
    ProducerFrame(s, 0, f.(localTail := f.tail), s');
  }

  /** An empty front block that is the tail block means an empty queue. */
  lemma EmptyFront(s: State)
    requires Shape(s) && DataOk(s)
    ensures s.k == 0 && Count(Blk(s, 0)) == 0 ==> |s.enq| == |s.deq|
  {
    hide AllOk, Count;
    assert s.k == 0 ==> Start(s, 1) == |s.deq| + Count(Blk(s, 0));
  }

  lemma TailBlockLoaded(s: State, s': State)
    requires Inv(s) && s.cons.CLoadTailBlock?
    requires s' == s.(cons := if s.frontBlock != s.tailBlock then CReloadTail(s.cons.peek) else CIdle)
    ensures Inv(s')
    ensures s.frontBlock == s.tailBlock ==> s.cons.wasEmpty
  {
    hide FillOk, DataOk, CapOk, Linked, AllOk, ProducerOk, Count, BlockOk, At, Succ;
    OkAt(s, 0);
    assert s.frontBlock == s.tailBlock <==> s.k == 0;
    hide Distinct;
    Quiet(s, 0, Blk(s, 0), s');
    ProducerFrame(s, 0, Blk(s, 0), s');
  }

  lemma TailReloaded(s: State, s': State)
    requires Inv(s) && s.cons.CReloadTail?
    requires var f := Blk(s, 0);
             s' == Set(s, 0, f.(localTail := f.tail))
                   .(cons := if f.front != f.tail then CTake(s.cons.peek) else CLoadNext(s.cons.peek))
    ensures Inv(s')
  {
    hide FillOk, DataOk, CapOk, Distinct, Linked, AllOk, ProducerOk, Count, BlockOk, At, Succ;
    var f := Blk(s, 0);
    OkAt(s, 0);
    TailLoadedBlock(f);
    Quiet(s, 0, f.(localTail := f.tail), s');
    ProducerFrame(s, 0, f.(localTail := f.tail), s');
  }

  lemma NextLoaded(s: State, s': State)
    requires Inv(s) && s.cons.CLoadNext?
    requires s' == s.(cons := CNextTail(s.cons.peek, Blk(s, 0).next))
    ensures Inv(s')
  {
    hide FillOk, DataOk, CapOk, Distinct, Linked, AllOk, ProducerOk, Count, BlockOk, At, Succ;
    OkAt(s, 0);
    NextPlace(s, 0);
    Quiet(s, 0, Blk(s, 0), s');
    ProducerFrame(s, 0, Blk(s, 0), s');
  }

  /** Lines 336, 401 and 452: the next block is not empty. */
  lemma NextHasElement(s: State)
    requires Inv(s) && (s.cons.CNextTail? || s.cons.CAdvance? || s.cons.CPeekNext?)
    ensures 1 <= s.k && s.cons.b == s.ring[1] && Count(Blk(s, 0)) == 0
    ensures Count(Blk(s, 1)) >= 1 && Blk(s, 1).front != Blk(s, 1).tail
  {
    hide DataOk, CapOk, ProducerOk, AllOk, Distinct, Linked, BlockOk, Count;
    OkAt(s, 1);
  }

  lemma NextTailLoaded(s: State, s': State)
    requires Inv(s) && s.cons.CNextTail? && s.k >= 1
    requires var n := Blk(s, 1);
             s' == if s.cons.peek then s.(cons := CPeekNext(s.cons.b))
                   else Set(s, 1, n.(localTail := n.tail)).(cons := CAdvance(s.cons.b))
    ensures Inv(s')
  {
    hide FillOk, DataOk, CapOk, Distinct, Linked, AllOk, ProducerOk, Count, BlockOk, At, Succ;
    NextHasElement(s);
    OkAt(s, 1);
    TailLoadedBlock(Blk(s, 1));
    var blk := if s.cons.peek then Blk(s, 1) else Blk(s, 1).(localTail := Blk(s, 1).tail);
    Quiet(s, 1, blk, s');
    ProducerFrame(s, 1, blk, s');
  }

  /** The element the consumer reads is the oldest one in the queue. */
  lemma FirstElement(s: State)
    requires Inv(s)
    ensures s.cons.CTake? ==>
      |s.deq| < |s.enq| && Blk(s, 0).data[Blk(s, 0).front] == Full(s.enq[|s.deq|])
    ensures s.cons.CPeekNext? ==>
      s.k >= 1 && |s.deq| < |s.enq| && Blk(s, 1).data[Blk(s, 1).front] == Full(s.enq[|s.deq|])
  {
    hide FillOk, CapOk, Distinct, Linked, AllOk, ProducerOk, Count, BlockOk, At, Succ;
    OkAt(s, 0);
    if s.cons.CTake? {
      ShadowCount(Blk(s, 0));
      assert Holds(s, 0, 0);
    }
    if s.cons.CPeekNext? {
      NextHasElement(s);
      OkAt(s, 1);
      assert Holds(s, 1, 0);
    }
  }

  lemma ShadowCount(b: Block)
    requires BlockOk(b) && SeesItem(b)
    ensures Count(b) >= 1
  {}

  lemma Peeks(s: State, s': State)
    requires Inv(s) && (s.cons.CTake? || s.cons.CPeekNext?)
    requires s' == s.(cons := CIdle)
    ensures Inv(s')
  {
    hide FillOk, DataOk, CapOk, Distinct, Linked, AllOk, ProducerOk, Count, BlockOk, At, Succ;
    OkAt(s, 0);
    Quiet(s, 0, Blk(s, 0), s');
    ProducerFrame(s, 0, Blk(s, 0), s');
  }

  function Voided(b: Block): Block
    requires b.front < |b.data|
  {
    b.(data := b.data[b.front := Void])
  }

  lemma VoidedBlock(b: Block)
    requires BlockOk(b) && SeesItem(b)
    ensures BlockOk(Voided(b)) && Count(Voided(b)) == Count(b) >= 1 && Voided(b).data[b.tail] == b.data[b.tail]
    ensures forall i: nat :: 1 <= i < Count(b) ==> Voided(b).data[At(Voided(b), i)] == b.data[At(Voided(b), i)]
  {}

  lemma Taken(s: State, s': State)
    requires Inv(s) && s.cons.CTake?
    requires var f := Blk(s, 0);
             f.data[f.front].Full? && s' == Set(s, 0, Voided(f)).(cons := CStoreFront(f.data[f.front].item))
    ensures Inv(s')
  {
    hide FillOk, DataOk, CapOk, Distinct, Linked, AllOk, ProducerOk, Count, BlockOk, At, Succ;
    OkAt(s, 0);
    FirstElement(s);
    VoidedBlock(Blk(s, 0));
    Quiet(s, 0, Voided(Blk(s, 0)), s');
    ProducerFrame(s, 0, Voided(Blk(s, 0)), s');
  }

  lemma FrontStored(s: State, s': State)
    requires Inv(s) && s.cons.CStoreFront?
    requires s' == Set(s, 0, Removed(Blk(s, 0))).(cons := CIdle, deq := s.deq + [s.cons.v])
    ensures Inv(s')
  {
    hide FillOk, DataOk, CapOk, Distinct, Linked, AllOk, ProducerOk, Count, BlockOk, At, Succ;
    OkAt(s, 0);
    var blk := Removed(Blk(s, 0));
    RemoveCount(Blk(s, 0));
    ReplacedRing(s, 0, blk, s');
    ReplacedCap(s, 0, blk, s');
    ProducerFrame(s, 0, blk, s');
    FrontStoredFill(s, s');
    FrontStoredData(s, s');
  }

  lemma FrontStoredFill(s: State, s': State)
    requires Shape(s) && FillOk(s) && Shape(s') && SameShape(s, s') && Only(s, 0, Blk(s', 0), s')
    requires s'.prod == s.prod
    ensures FillOk(s')
  {
    hide Count, AllOk;
  }

  lemma {:induction false} StartAfterRemoval(s: State, s': State, j: nat)
    requires InBlocks(s) && InBlocks(s') && 1 <= j <= |s.ring| == |s'.ring| && Only(s, 0, Blk(s', 0), s')
    requires |s'.deq| == |s.deq| + 1 && Count(Blk(s', 0)) == Count(Blk(s, 0)) - 1
    ensures Start(s', j) == Start(s, j)
  {
    hide Count;
    if j > 1 {
      StartAfterRemoval(s, s', j - 1);
      assert Blk(s', j - 1) == Blk(s, j - 1);
    } else {
      assert Start(s, 0) == |s.deq| && Start(s', 0) == |s'.deq|;
    }
  }

  lemma FrontStoredData(s: State, s': State)
    requires Shape(s) && DataOk(s) && ConsumerOk(s) && Shape(s') && SameShape(s, s') && s.cons.CStoreFront? && s'.cons.CIdle?
    requires Only(s, 0, Removed(Blk(s, 0)), s')
    requires s'.enq == s.enq && s'.deq == s.deq + [s.cons.v]
    ensures DataOk(s')
  {
    hide Count, AllOk, At, Succ, BlockOk, Holds;
    OkAt(s, 0);
    RemoveCount(Blk(s, 0));
    StartAfterRemoval(s, s', s.k + 1);
    forall j: nat, i: nat | j <= s'.k && i < Count(Blk(s', j)) && !BeingTaken(s', j, i) ensures Holds(s', j, i) {
      if j == 0 {
        FrontStoredHolds(s, s', i);
      } else {
        StartAfterRemoval(s, s', j);
        PublishedHolds(s, s', j, i);
      }
    }
  }

  lemma FrontStoredHolds(s: State, s': State, i: nat)
    requires Shape(s) && Shape(s') && s'.enq == s.enq && |s'.deq| == |s.deq| + 1
    requires Blk(s', 0) == Removed(Blk(s, 0)) && SeesItem(Blk(s, 0)) && BlockOk(Blk(s, 0))
    requires i + 1 < Count(Blk(s, 0)) && i < Count(Blk(s', 0)) && Holds(s, 0, i + 1)
    ensures Holds(s', 0, i)
  {
    RemoveCount(Blk(s, 0));
    hide AllOk, BlockOk, Count, At, Succ;
  }

  // The front moves on to the next block.

  function Turned(n: nat, j: nat): nat { if j + 1 < n then j + 1 else 0 }

  ghost predicate Rotated(s: State, s': State) {
    && s'.blocks == s.blocks && 1 <= s.k && s'.k == s.k - 1 && |s'.ring| == |s.ring|
    && forall j: nat :: j < |s.ring| ==> s'.ring[j] == s.ring[Turned(|s.ring|, j)]
  }

  lemma RotatedRing(s: State, s': State)
    requires RingOk(s) && Rotated(s, s')
    requires s'.frontBlock == s.ring[1] && s'.tailBlock == s.tailBlock && s'.largest == s.largest
    ensures RingOk(s')
  {
    hide BlockOk, Linked, Distinct;
    forall i: nat, j: nat | i < j < |s'.ring| ensures s'.ring[i] != s'.ring[j] {
      LinkedAt(s, Turned(|s.ring|, i), Turned(|s.ring|, j));
    }
    forall j: nat | j < |s'.ring| ensures s'.blocks[s'.ring[j]].next == s'.ring[After(s', j)] {
      LinkedAt(s, Turned(|s.ring|, j), 0);
    }
    RotatedDistinct(s'.ring);
    RotatedLinked(s');
  }

  lemma RotatedDistinct(r: seq<BlockId>)
    requires forall i: nat, j: nat :: i < j < |r| ==> r[i] != r[j]
    ensures Distinct(r)
  {}

  lemma RotatedLinked(s: State)
    requires InBlocks(s) && forall j: nat :: j < |s.ring| ==> s.blocks[s.ring[j]].next == s.ring[After(s, j)]
    ensures Linked(s)
  {}

  lemma RotatedAt(s: State, s': State, j: nat)
    requires InBlocks(s) && InBlocks(s') && s.k < |s.ring| && Rotated(s, s') && j < |s.ring|
    ensures Blk(s', j) == Blk(s, Turned(|s.ring|, j))
  {}

  lemma RotatedFill(s: State, s': State)
    requires Shape(s) && FillOk(s) && Shape(s') && Rotated(s, s') && s'.prod == s.prod && Count(Blk(s, 0)) == 0
    requires s.prod.PPublish? ==> s.k + 1 < |s.ring|
    ensures FillOk(s')
  {
    hide Count, AllOk, Rotated;
    assert s.k >= 1 && s'.k == s.k - 1 && |s'.ring| == |s.ring| by { RotatedKs(s, s'); }
    forall j: nat | j < |s.ring| ensures Blk(s', j) == Blk(s, Turned(|s.ring|, j)) { RotatedAt(s, s', j); }
  }

  lemma RotatedKs(s: State, s': State)
    requires Rotated(s, s')
    ensures s.k >= 1 && s'.k == s.k - 1 && |s'.ring| == |s.ring|
  {}

  lemma RotatedProducer(s: State, s': State)
    requires Shape(s) && ProducerOk(s) && Shape(s') && Rotated(s, s')
    requires s'.prod == s.prod && s'.maxSize == s.maxSize && s'.largest == s.largest
    ensures ProducerOk(s')
  {
    hide AllOk, Count, BlockOk;
    assert s'.ring[s'.k] == s.ring[s.k];
    assert s.k + 1 < |s.ring| ==> s'.ring[s'.k + 1] == s.ring[s.k + 1];
    assert s'.ring[After(s', s'.k)] == s.ring[After(s, s.k)];
  }

  lemma {:induction false} RotatedStart(s: State, s': State, j: nat)
    requires Shape(s) && Shape(s') && Rotated(s, s') && j < |s.ring| && Count(Blk(s, 0)) == 0 && s'.deq == s.deq
    ensures Start(s', j) == Start(s, j + 1)
  {
    hide Count, AllOk, Rotated;
    RotatedKs(s, s');
    if j > 0 {
      RotatedStart(s, s', j - 1);
      RotatedAt(s, s', j - 1);
    } else {
      assert Start(s, 0) == |s.deq|;
    }
  }

  lemma RotatedData(s: State, s': State)
    requires Shape(s) && DataOk(s) && Shape(s') && Rotated(s, s') && Count(Blk(s, 0)) == 0
    requires s'.enq == s.enq && s'.deq == s.deq && !s.cons.CStoreFront? && !s'.cons.CStoreFront?
    ensures DataOk(s')
  {
    hide Count, AllOk, Rotated, Holds, Start;
    RotatedKs(s, s');
    RotatedStart(s, s', s'.k + 1);
    forall j: nat, i: nat | j <= s'.k && i < Count(Blk(s', j)) && !BeingTaken(s', j, i) ensures Holds(s', j, i) {
      RotatedAt(s, s', j);
      RotatedStart(s, s', j);
      assert Holds(s, j + 1, i);
      RotatedHolds(s, s', j, i);
    }
  }

  lemma RotatedHolds(s: State, s': State, j: nat, i: nat)
    requires Shape(s) && Shape(s') && j + 1 < |s.ring| && j < |s'.ring| && Blk(s', j) == Blk(s, j + 1)
    requires Start(s', j) == Start(s, j + 1) && s.enq == s'.enq
    requires i < Count(Blk(s, j + 1)) && Holds(s, j + 1, i)
    ensures Holds(s', j, i)
  {
    hide AllOk, Start;
  }

  lemma {:induction false} RotatedRoom(s: State, s': State, j: nat)
    requires Shape(s) && Shape(s') && Rotated(s, s') && j < |s.ring|
    ensures Room(s', j) == Room(s, j + 1) - (Blk(s, 0).size - 1)
  {
    hide AllOk, Rotated;
    RotatedKs(s, s');
    if j > 0 {
      RotatedRoom(s, s', j - 1);
      RotatedAt(s, s', j - 1);
    } else {
      assert Room(s, 0) == 0;
    }
  }

  lemma RotatedCap(s: State, s': State)
    requires Shape(s) && CapOk(s) && Shape(s') && Rotated(s, s') && s'.maxSize == s.maxSize && s'.largest == s.largest
    ensures CapOk(s')
  {
    hide AllOk;
    RotatedRoom(s, s', |s.ring| - 1);
    RotatedAt(s, s', |s.ring| - 1);
    forall j: nat | j < |s.ring| ensures Room(s', |s'.ring|) - (Blk(s', j).size - 1) >= s'.maxSize {
      RotatedAt(s, s', j);
    }
  }

  lemma Advanced(s: State, s': State)
    requires Inv(s) && s.cons.CAdvance? && s.k >= 1
    requires s' == s.(frontBlock := s.ring[1], cons := CTake(false), ring := s.ring[1..] + [s.ring[0]], k := s.k - 1)
    ensures Inv(s')
  {
    hide FillOk, DataOk, CapOk, Distinct, Linked, AllOk, ProducerOk, Count, BlockOk;
    NextHasElement(s);
    assert Rotated(s, s');
    PublishPlace(s);
    RotatedRing(s, s');
    RotatedAt(s, s', 0);
    RotatedFill(s, s');
    RotatedProducer(s, s');
    RotatedData(s, s');
    RotatedCap(s, s');
  }

  lemma PublishPlace(s: State)
    requires Shape(s) && ProducerOk(s)
    ensures s.prod.PPublish? ==> s.k + 1 < |s.ring|
  {
    hide AllOk;
  }

  lemma ConsumerKeeps(s: State, e: Event, s': State)
    requires Inv(s) && Typed(s) && ConsumerStep(s, e, s')
    ensures Inv(s')
    ensures e.Missed? ==> e.wasEmpty
    ensures e.Peeked? ==> |s.deq| < |s.enq| && e.v == s.enq[|s.deq|]
  {
    hide Inv, RingOk, AllOk, BlockOk;
    InvPlaces(s);
    match s.cons {
      case CIdle => DequeueBegins(s, e.peek, s');
      case CLoadTail(_) => TailLoaded(s, s');
      case CLoadTailBlock(_, _) => TailBlockLoaded(s, s');
      case CReloadTail(_) => TailReloaded(s, s');
      case CLoadNext(_) => NextLoaded(s, s');
      case CNextTail(_, _) => NextHasElement(s); NextTailLoaded(s, s');
      case CAdvance(_) => NextHasElement(s); Advanced(s, s');
      case CPeekNext(_) => NextHasElement(s); FirstElement(s); Peeks(s, s');
      case CTake(peek) =>
        FirstElement(s);
        if peek { Peeks(s, s'); } else { Taken(s, s'); }
      case CStoreFront(_) => FrontStored(s, s');
    }
  }
}
