/** The queue as a whole: its construction, its size, and its contents as found in memory. */
module SpscQueue {
  import opened Common
  import opened Spsc
  import opened SpscProof
  import opened SpscRun
  import opened PowerOfTwo
  import Arith

  // ---------------------------------------------------------------- size

  /** size_approx, taken while neither side moves: once round the ring from the front block. */
  method SizeApprox(s: State) returns (result: int)
    requires Inv(s)
    ensures result == |s.enq| - |s.deq| + if s.prod.PPublish? then 1 else 0
  {
    hide Inv, Shape, BlockOk, Linked, Count, Start;
    Places(s, 0);
    var block := s.frontBlock;
    result := Count(s.blocks[block]);
    block := s.blocks[block].next;
    ghost var j := 1;
    StartNext(s, 0);
    while block != s.frontBlock
      invariant 1 <= j <= |s.ring| && InBlocks(s) && result == Start(s, j) - |s.deq|
      invariant block == s.ring[if j < |s.ring| then j else 0] && s.frontBlock == s.ring[0]
      decreases |s.ring| - j
    {
      Places(s, j);
      StartNext(s, j);
      result := result + Count(s.blocks[block]);
      block := s.blocks[block].next;
      j := j + 1;
    }
    if j < |s.ring| { Places(s, j); }
    StartAll(s, |s.ring|);
  }

  lemma Places(s: State, j: nat)
    requires Inv(s)
    ensures s.k < |s.ring| && InBlocks(s) && s.frontBlock == s.ring[0]
    ensures j < |s.ring| ==> s.blocks[s.ring[j]].next == s.ring[if j + 1 < |s.ring| then j + 1 else 0]
    ensures j < |s.ring| ==> (s.ring[j] == s.frontBlock <==> j == 0)
  {
    hide FillOk, DataOk, CapOk, ConsumerOk, ProducerOk, AllOk;
  }

  lemma StartNext(s: State, j: nat)
    requires InBlocks(s) && j < |s.ring|
    ensures Start(s, 0) == |s.deq|
    ensures Start(s, j + 1) == Start(s, j) + Count(s.blocks[s.ring[j]])
  {}

  lemma {:induction false} StartAll(s: State, j: nat)
    requires Inv(s) && s.k < j <= |s.ring|
    ensures InBlocks(s) && Start(s, j) == |s.enq| + if s.prod.PPublish? && j > s.k + 1 then 1 else 0
    ensures s.prod.PPublish? ==> s.k + 1 < |s.ring|
  {
    hide CapOk, ConsumerOk, AllOk, Count, Linked, Distinct;
    PublishPlace(s);
    if j > s.k + 1 {
      StartAll(s, j - 1);
      assert Start(s, j) == Start(s, j - 1) + Count(Blk(s, j - 1));
    }
  }

  // ---------------------------------------------------------------- contents

  /** The elements of a block, oldest first. */
  ghost function Cells(b: Block): seq<Cell>
    requires BlockOk(b)
  {
    seq(Count(b), i requires 0 <= i < Count(b) => b.data[At(b, i)])
  }

  /** The first `j` blocks, from the front block on. */
  ghost function Contents(s: State, j: nat): seq<Cell>
    requires Shape(s) && j <= |s.ring|
  {
    if j == 0 then [] else Contents(s, j - 1) + Cells(Blk(s, j - 1))
  }

  /** `c` is what has been sent and not received, in order; the element whose front index is about
      to be advanced is already moved out. */
  predicate Pending(s: State, c: seq<Cell>) { forall i: nat :: i < |c| ==> PendingAt(s, c[i], i) }

  predicate PendingAt(s: State, c: Cell, i: nat) {
    !(s.cons.CStoreFront? && i == 0) ==> |s.deq| + i < |s.enq| && c == Full(s.enq[|s.deq| + i])
  }

  /** From the front block to the tail block, memory holds the queue. */
  lemma {:induction false} ContentsAre(s: State, j: nat)
    requires Inv(s) && j <= s.k + 1
    ensures Shape(s) && |Contents(s, j)| == Start(s, j) - |s.deq| && Pending(s, Contents(s, j))
  {
    hide FillOk, CapOk, ConsumerOk, ProducerOk, AllOk, Count, Linked, Distinct;
    if j > 0 {
      ContentsAre(s, j - 1);
      OkAt(s, j - 1);
      var done, b := Contents(s, j - 1), Blk(s, j - 1);
      assert Start(s, j) == Start(s, j - 1) + Count(b);
      forall n: nat | n < |Cells(b)| ensures PendingAt(s, Cells(b)[n], |done| + n) {
        if !(s.cons.CStoreFront? && |done| + n == 0) {
          NotTaken(s, j - 1, n);
          assert Start(s, j - 1) + n == |s.deq| + |done| + n;
        }
      }
      PendingAppend(s, done, Cells(b));
    }
  }

  lemma PendingAppend(s: State, done: seq<Cell>, more: seq<Cell>)
    requires Pending(s, done) && forall n: nat :: n < |more| ==> PendingAt(s, more[n], |done| + n)
    ensures Pending(s, done + more)
  {
    forall i: nat | i < |done + more| ensures PendingAt(s, (done + more)[i], i) {
      if i >= |done| { assert PendingAt(s, more[i - |done|], |done| + (i - |done|)); }
    }
  }

  lemma ContentsAreQueue(s: State)
    requires Inv(s)
    ensures Shape(s) && |Contents(s, s.k + 1)| == |s.enq| - |s.deq| && Pending(s, Contents(s, s.k + 1))
  {
    ContentsAre(s, s.k + 1);
    hide FillOk, CapOk, ConsumerOk, ProducerOk, AllOk;
  }

  /** The element being taken is the very first. */
  lemma NotTaken(s: State, j: nat, i: nat)
    requires Shape(s) && DataOk(s) && j <= s.k && i < Count(Blk(s, j))
    requires s.cons.CStoreFront? ==> Start(s, j) + i > |s.deq|
    ensures Holds(s, j, i)
  {
    hide AllOk, Count;
    assert Start(s, 0) == |s.deq|;
  }

  // ---------------------------------------------------------------- construction

  function NewBlock(size: nat, next: BlockId): Block { Block(0, 0, 0, 0, next, size, seq(size, i => Void)) }

  /** `n` blank blocks of the given size in a circle. */
  ghost predicate Circle(blocks: map<BlockId, Block>, n: nat, size: nat) {
    && (forall b: nat :: b in blocks <==> b < n)
    && forall b: nat :: b < n ==> blocks[b] == NewBlock(size, if b + 1 < n then b + 1 else 0)
  }

  /** The constructor; blocks are numbered in the order of their allocation. `bytes` is the size of
      size_t, and `maxSize + 1` rounds up without overflow. */
  method Construct(maxSize: nat, maxBlock: nat, bytes: nat) returns (s: State)
    requires maxSize >= 1 && maxBlock >= 2 && IsPowerOfTwo(maxBlock)
    requires bytes >= 1 && maxSize + 1 <= Pow2(8 * bytes - 1) < Pow2(8 * bytes)
    ensures Initial(s) && s.maxSize == maxSize && s.maxBlock == maxBlock && IsPowerOfTwo(s.largest)
    ensures forall b :: b in s.blocks ==> s.blocks[b].size == s.largest
    ensures |s.ring| == 1 ==> s.largest <= 2 * maxBlock && s.largest / 2 <= maxSize < s.largest
    ensures |s.ring| > 1 ==>
      && s.largest == maxBlock && 2 * maxBlock <= maxSize
      && (|s.ring| - 2) * (maxBlock - 1) < maxSize <= (|s.ring| - 1) * (maxBlock - 1)
  {
    hide Initial, Circle, IsPowerOfTwo, Pow2;
    var largest := CeilToPow2(maxSize + 1, bytes);
    Rounded(maxSize, maxBlock, largest);
    var blocks: map<BlockId, Block> := map[];
    var count := 1;
    if largest > maxBlock * 2 {
      count := (maxSize + maxBlock * 2 - 3) / (maxBlock - 1);
      BlockCount(maxSize, maxBlock);
      blocks := MakeCircle(count, maxBlock);
      largest := maxBlock;
    } else {
      blocks := blocks[0 := NewBlock(largest, 0)];
      OneBlock(blocks, largest);
    }
    s := State(blocks, 0, 0, largest, maxBlock, PIdle, CIdle, seq(count, i => i), 0, [], [], maxSize);
    CircleIsInitial(s, count, largest);
  }

  /** The loop of the constructor. */
  method MakeCircle(count: nat, size: nat) returns (blocks: map<BlockId, Block>)
    ensures Circle(blocks, count, size)
  {
    blocks := map[];
    var first, last, i := 0, 0, 0;
    while i != count
      invariant 0 <= i <= count && first == 0 && (i > 0 ==> last == i - 1)
      invariant Circle(blocks, i, size)
      decreases count - i
    {
      var block := i;
      blocks := blocks[block := NewBlock(size, 0)];
      if i > 0 { blocks := blocks[last := blocks[last].(next := block)]; }
      last := block;
      blocks := blocks[block := blocks[block].(next := first)];
      i := i + 1;
    }
  }

  /** initialBlockCount is maxSize / (maxBlock - 1), rounded up, plus one. */
  lemma BlockCount(maxSize: nat, maxBlock: nat)
    requires maxSize >= 1 && maxBlock >= 2
    ensures var n := (maxSize + maxBlock * 2 - 3) / (maxBlock - 1);
            n >= 2 && (n - 2) * (maxBlock - 1) < maxSize <= (n - 1) * (maxBlock - 1)
  {
    var m := maxBlock - 1;
    var x := maxSize + maxBlock * 2 - 3;
    var n := x / m;
    assert x == n * m + x % m;
    assert (n - 1) * m == n * m - m && (n - 2) * m == n * m - 2 * m;
    Arith.PositiveFactor(n - 1, m);
  }

  lemma OneBlock(blocks: map<BlockId, Block>, size: nat)
    requires blocks == map[0 := NewBlock(size, 0)]
    ensures Circle(blocks, 1, size)
  {}

  /** Rounding `maxSize + 1` up leaves room for `maxSize`; past two blocks' worth, `maxSize` is as large. */
  lemma Rounded(maxSize: nat, maxBlock: nat, r: nat)
    requires maxSize >= 1 && IsPowerOfTwo(maxBlock)
    requires IsPowerOfTwo(r) && maxSize + 1 <= r && forall k: nat :: maxSize + 1 <= Pow2(k) ==> r <= Pow2(k)
    ensures r >= 2 && r / 2 <= maxSize < r
    ensures r > maxBlock * 2 ==> 2 * maxBlock <= maxSize
  {
    HalfIsSmaller(maxSize + 1, r);
    DoubleIsPower(maxBlock);
    var k: nat :| 2 * maxBlock == Pow2(k);
  }

  lemma HalfIsSmaller(x: nat, r: nat)
    requires x >= 2 && IsPowerOfTwo(r) && x <= r && forall k: nat :: x <= Pow2(k) ==> r <= Pow2(k)
    ensures r >= 2 && r / 2 < x
  {
    var k: nat :| r == Pow2(k);
    assert k > 0 && Pow2(k - 1) < x;
  }

  lemma DoubleIsPower(m: nat)
    requires IsPowerOfTwo(m)
    ensures IsPowerOfTwo(2 * m)
  {
    var k: nat :| m == Pow2(k);
    assert 2 * m == Pow2(k + 1);
  }

  lemma {:induction false} EqualRoom(s: State, size: nat, j: nat)
    requires InBlocks(s) && j <= |s.ring| && forall i: nat :: i < |s.ring| ==> Blk(s, i).size == size
    ensures Room(s, j) == j * (size - 1)
  {
    if j > 0 { EqualRoom(s, size, j - 1); }
  }

  lemma CircleIsInitial(s: State, n: nat, size: nat)
    requires n >= 1 && size >= 2 && Circle(s.blocks, n, size) && s.largest == size
    requires |s.ring| == n && (forall j: nat :: j < n ==> s.ring[j] == j)
    requires s.k == 0 && s.frontBlock == s.tailBlock == 0
    requires s.prod == PIdle && s.cons == CIdle && s.enq == [] && s.deq == []
    requires if n == 1 then s.maxSize <= size - 1 else s.maxSize <= (n - 1) * (size - 1)
    ensures Initial(s) && forall b :: b in s.blocks ==> s.blocks[b].size == size
  {
    hide Count;
    assert InBlocks(s);
    EqualRoom(s, size, n);
    assert n * (size - 1) - (size - 1) == (n - 1) * (size - 1);
  }

  /** Sizes are powers of two, so that masking an index with `size - 1` wraps it. */
  ghost predicate PowerSizes(s: State) {
    && IsPowerOfTwo(s.largest) && IsPowerOfTwo(s.maxBlock)
    && forall b :: b in s.blocks ==> IsPowerOfTwo(s.blocks[b].size) && s.blocks[b].size <= s.largest
  }

  lemma PowersApart(a: nat, b: nat)
    requires IsPowerOfTwo(a) && IsPowerOfTwo(b) && a < b
    ensures 2 * a <= b
  {
    var i: nat :| a == Pow2(i);
    var j: nat :| b == Pow2(j);
    PowersOrdered(i, j);
  }

  lemma {:induction false} PowersOrdered(i: nat, j: nat)
    requires Pow2(i) < Pow2(j)
    ensures 2 * Pow2(i) <= Pow2(j)
    decreases j
  {
    if i > 0 && j > 0 { PowersOrdered(i - 1, j - 1); } else { Pow2Positive(j); }
  }

  lemma {:induction false} Pow2Positive(k: nat)
    ensures Pow2(k) >= 1 && (k > 0 ==> Pow2(k) >= 2)
  {
    if k > 0 { Pow2Positive(k - 1); }
  }

  lemma ProducerSizes(s: State, e: Event, s': State)
    requires Typed(s) && ProducerStep(s, e, s') && PowerSizes(s)
    ensures PowerSizes(s') && s'.maxBlock == s.maxBlock
    ensures s'.largest == s.largest || s'.largest <= s.maxBlock
  {
    hide AllOk, IsPowerOfTwo;
    DoubleIsPower(s.largest);
    if s.largest < s.maxBlock { PowersApart(s.largest, s.maxBlock); }
  }

  lemma ConsumerSizes(s: State, e: Event, s': State)
    requires Typed(s) && ConsumerStep(s, e, s') && PowerSizes(s)
    ensures PowerSizes(s') && s'.maxBlock == s.maxBlock && s'.largest == s.largest
  {
    hide AllOk, IsPowerOfTwo;
  }

  lemma {:induction false} SizesStayPowers(r: seq<State>, ev: seq<Event>, i: nat)
    requires Run(r, ev) && i < |r| && PowerSizes(r[0])
    ensures PowerSizes(r[i]) && r[i].maxBlock == r[0].maxBlock
    ensures r[i].largest == r[0].largest || r[i].largest <= r[0].maxBlock
  {
    hide Initial, Typed, ProducerStep, ConsumerStep, PowerSizes;
    if i > 0 {
      SizesStayPowers(r, ev, i - 1);
      assert Step(r[i - 1], ev[i - 1], r[i]);
      if ProducerStep(r[i - 1], ev[i - 1], r[i]) {
        ProducerSizes(r[i - 1], ev[i - 1], r[i]);
      } else {
        ConsumerSizes(r[i - 1], ev[i - 1], r[i]);
      }
    }
  }
}
