/** The implicit producer of ConcurrentQueue.h as a whole: the claiming protocol of DequeueCounters, the
    block index of ImplicitIndex, and blocks with their elements and their counter of elements dequeued.
    The consumer whose count completes a block takes it out of the index and gives it back to the pool,
    from where it may come again, to this producer or to another.

    One producer enqueues single items; any number of consumers dequeue one or several at a time. Each
    step is one access to shared memory. Memory that is not held by this producer may change at any time. */
module ImplicitProducer {
  import opened Common
  import opened Chunks
  import Q = DequeueCounters
  import I = ImplicitIndex

  /** MAX_SUBQUEUE_SIZE of the queue's traits, if it is set. */
  const LIMIT: Option<nat>

  /** With a further block the sub-queue could come to hold more elements than allowed. */
  predicate OverLimit(size: int) { LIMIT.Some? && LIMIT.value - BLOCK_SIZE < size }

  /** `dequeued` is elementsCompletelyDequeued. */
  datatype Block = Block(cells: seq<Cell>, dequeued: nat)

  /** During PInsert the producer of the block index says how far the insertion has come. */
  datatype Producer =
    | PIdle
    | PCheck(x: int)     // at a block boundary: about to load headIndex, for the size limit
    | PInsert(x: int)
    | PWrite(x: int)     // about to construct the element
    | PTail(x: int)      // about to store tailIndex

  /** A consumer with the claim of `len` indices from `first` on; `i` is the next one to be taken. */
  datatype Work =
    | WIdle
    | WFind(first: nat, len: nat, i: nat, out: seq<int>)                          // on the way to a block, by the index
    | WTake(first: nat, len: nat, i: nat, out: seq<int>, b: I.Storage, from: nat)
    | WCount(first: nat, len: nat, i: nat, out: seq<int>, b: I.Storage, from: nat) // about to count the elements from `from`
    | WErase(first: nat, len: nat, i: nat, out: seq<int>, b: I.Storage)           // about to null the index entry
    | WFree(first: nat, len: nat, i: nat, out: seq<int>, b: I.Storage, n: nat)    // about to give the block back

  datatype Data = Data(
    c: Q.State,                       // tailIndex, headIndex and the two dequeue counters
    blocks: map<I.Storage, Block>,
    mine: set<I.Storage>,             // memory got from the pool and not given back
    tailBlock: I.Storage,             // meaningful once a block exists
    prod: Producer,
    items: seq<int>,                  // everything ever enqueued, in order
    taken: set<nat>,                  // indices whose element has been moved out
    counted: set<nat>,                // indices whose element is in a block's count
    freed: set<nat>)                  // numbers of the blocks given back

  datatype State = State(x: I.State, d: Data, work: seq<Work>)

  /** Calls of enqueue and dequeue, and their answers. */
  datatype Event =
    | Silent
    | Offered(x: int)
    | Enqueued(x: int)
    | Refused
    | Called(t: nat, max: nat)
    | Failed(t: nat)
    | Delivered(first: nat, out: seq<int>)

  /** What a step of the claiming protocol shows to the outside. */
  function Shown(qe: Q.Event): Event {
    match qe
    case Called(t, max) => Called(t, max)
    case Failed(t) => Failed(t)
    case _ => Silent
  }

  // ---------------------------------------------------------------- steps

  predicate BlockTyped(d: Data, b: I.Storage) { b in d.blocks && |d.blocks[b].cells| == BLOCK_SIZE }

  predicate WorkTyped(d: Data, w: Work, r: I.Reader) {
    && (w.WTake? || w.WCount? ==> BlockTyped(d, w.b))
    && (w.WCount? ==> w.from < w.i)
    && (w.WCount? || w.WErase? ==> r.RAt?)
  }

  /** Every pointer and slot that the next step dereferences exists. That this holds in every reachable
      state is part of the invariant. */
  predicate Typed(s: State) {
    && I.Typed(s.x) && Q.TicketsInRange(s.d.c) && s.d.c.tail >= 0
    && |s.work| == |s.x.readers| == |s.d.c.consumers|
    && (s.d.prod.PWrite? ==> BlockTyped(s.d, s.d.tailBlock))
    && forall t :: 0 <= t < |s.work| ==> WorkTyped(s.d, s.work[t], s.x.readers[t])
  }

  /** Getting a block into the index. The pool hands out memory that is not held already; reset_empty is
      part of it, since nobody else can see the block yet. */
  ghost predicate InsertStep(s: State, v: int, e: Event, s': State)
    requires Typed(s)
  {
    var d, d' := s.d, s'.d;
    && I.ProducerStep(s.x, s'.x)
    && match s.x.prod
       case PGrow =>
         if s'.x.prod.PIdle? then e == Refused && d' == d.(prod := PIdle) else e == Silent && d' == d
       case PRequisition(_) =>
         && e == Silent
         && if s'.x.prod.PStoreValue? then
              s'.x.prod.b !in d.mine && exists cells: seq<Cell> :: |cells| == BLOCK_SIZE && d' == Requisitioned(d, s'.x.prod.b, cells)
            else d' == d
       case PStoreValue(_, b) => e == Silent && d' == d.(tailBlock := b, prod := PWrite(v))
       case PPublish(_, _) => false
       case PClear(_) => e == Refused && d' == d.(prod := PIdle)
       case _ => e == Silent && d' == d
  }

  function Requisitioned(d: Data, b: I.Storage, cells: seq<Cell>): Data {
    d.(mine := d.mine + {b}, blocks := d.blocks[b := Block(cells, 0)])
  }

  function Written(d: Data, v: int): Data
    requires d.c.tail >= 0 && BlockTyped(d, d.tailBlock)
  {
    var blk := d.blocks[d.tailBlock];
    d.(blocks := d.blocks[d.tailBlock := blk.(cells := blk.cells[Off(d.c.tail) := Full(v)])], prod := PTail(v))
  }

  function Tailed(d: Data, v: int): Data {
    d.(c := d.c.(tail := d.c.tail + 1), items := d.items + [v], prod := PIdle)
  }

  ghost predicate ProducerStep(s: State, e: Event, s': State)
    requires Typed(s)
  {
    && s'.work == s.work
    && match s.d.prod
       case PIdle =>
         e.Offered? && s'.x == s.x && s'.d == s.d.(prod := if Off(s.d.c.tail) != 0 then PWrite(e.x) else PCheck(e.x))
       case PCheck(v) =>
         && s'.x == s.x
         && if OverLimit(s.d.c.tail - s.d.c.head) then e == Refused && s'.d == s.d.(prod := PIdle)
            else e == Silent && s'.d == s.d.(prod := PInsert(v))
       case PInsert(v) => InsertStep(s, v, e, s')
       case PWrite(v) => e == Silent && s'.x == s.x && s'.d == Written(s.d, v)
       case PTail(v) =>
         && e == Enqueued(v) && s'.d == Tailed(s.d, v)
         && if s.x.prod.PPublish? then I.ProducerStep(s.x, s'.x) else s'.x == s.x
  }

  /** A step of the claiming protocol; a successful claim starts the search for its first block. */
  ghost predicate CounterMoves(s: State, qe: Q.Event, s': State)
    requires Typed(s)
  {
    && qe != Q.Enqueued
    && (qe.Called? ==> qe.t < |s.work| && s.work[qe.t] == WIdle)
    && Q.Step(s.d.c, qe, s'.d.c)
    && s'.d == s.d.(c := s'.d.c)
    && if qe.Claimed? && qe.t < |s.work| && qe.c.first >= 0 && qe.c.len > 0
       then s'.work == s.work[qe.t := WFind(qe.c.first, qe.c.len, qe.c.first, [])]
            && s'.x == SetReader(s.x, qe.t, I.RHeader(Chunk(qe.c.first), Chunk(qe.c.first + qe.c.len - 1)))
       else s'.work == s.work && s'.x == s.x
  }

  function SetReader(x: I.State, t: nat, r: I.Reader): I.State
    requires t < |x.readers|
  {
    x.(readers := x.readers[t := r])
  }

  /** After a block: on to the next one, or the call returns. */
  function NextWork(first: nat, len: nat, i: nat, out: seq<int>): Work {
    if i == first + len then WIdle else WFind(first, len, i, out)
  }

  function NextEvent(first: nat, len: nat, i: nat, out: seq<int>): Event {
    if i == first + len then Delivered(first, out) else Silent
  }

  function TakenFrom(d: Data, w: Work): Data
    requires w.WTake? && BlockTyped(d, w.b)
  {
    var blk := d.blocks[w.b];
    d.(blocks := d.blocks[w.b := blk.(cells := blk.cells[Off(w.i) := Void])], taken := d.taken + {w.i})
  }

  function AfterTake(w: Work, item: int): Work
    requires w.WTake?
  {
    if w.i + 1 < w.first + w.len && Off(w.i) + 1 < BLOCK_SIZE
    then WTake(w.first, w.len, w.i + 1, w.out + [item], w.b, w.from)
    else WCount(w.first, w.len, w.i + 1, w.out + [item], w.b, w.from)
  }

  function Range(a: nat, b: nat): (r: set<nat>)
    ensures forall i: nat :: i in r <==> a <= i < b
    ensures a <= b ==> |r| == b - a
  {
    if a < b then Range(a, b - 1) + {b - 1} else {}
  }

  /** set_many_empty */
  function CountedIn(d: Data, w: Work): Data
    requires w.WCount? && BlockTyped(d, w.b) && w.from < w.i
  {
    var blk := d.blocks[w.b];
    d.(blocks := d.blocks[w.b := blk.(dequeued := blk.dequeued + (w.i - w.from))], counted := d.counted + Range(w.from, w.i))
  }

  function Freed(d: Data, w: Work): Data
    requires w.WFree?
  {
    d.(mine := d.mine - {w.b}, freed := d.freed + {w.n})
  }

  ghost predicate WorkMoves(s: State, t: nat, e: Event, s': State)
    requires Typed(s) && t < |s.work|
  {
    var w, r, m := s.work[t], s.x.readers[t], s.x.m;
    match w
    case WIdle => false
    case WFind(first, len, i, out) =>
      && e == Silent && s'.d == s.d
      && if r.RAt? then
           var value := I.At(m, m.headers[r.h], r.p).value;
           value.Some? && s'.x == s.x && s'.work == s.work[t := WTake(first, len, i, out, value.value, i)]
         else
           !r.RIdle? && s'.work == s.work && exists r': I.Reader :: I.ReaderStep(m, r, false, m, r') && s'.x == SetReader(s.x, t, r')
    case WTake(_, _, i, _, b, _) =>
      var cell := s.d.blocks[b].cells[Off(i)];
      && cell.Full? && e == Silent && s'.x == s.x
      && s'.d == TakenFrom(s.d, w) && s'.work == s.work[t := AfterTake(w, cell.item)]
    case WCount(first, len, i, out, b, _) =>
      && s'.d == CountedIn(s.d, w)
      && if s'.d.blocks[b].dequeued == BLOCK_SIZE then
           e == Silent && s'.x == s.x && s'.work == s.work[t := WErase(first, len, i, out, b)]
         else
           && e == NextEvent(first, len, i, out) && s'.work == s.work[t := NextWork(first, len, i, out)]
           && s'.x == SetReader(s.x, t, I.Onward(m, r))
    case WErase(first, len, i, out, b) =>
      && e == Silent && s'.d == s.d && s'.work == s.work[t := WFree(first, len, i, out, b, r.n)]
      && s'.x == SetReader(s.x, t, I.Onward(m, r)).(m := I.Release(m, m.headers[r.h], r.p, r.n))
    case WFree(first, len, i, out, b, n) =>
      && e == NextEvent(first, len, i, out) && s'.x == s.x
      && s'.d == Freed(s.d, w) && s'.work == s.work[t := NextWork(first, len, i, out)]
  }

  /** The rest of the program, with memory it got from the pool. */
  ghost predicate OthersMove(s: State, s': State) {
    && s' == s.(d := s.d.(blocks := s'.d.blocks))
    && forall b :: b in s.d.mine && b in s.d.blocks ==> b in s'.d.blocks && s'.d.blocks[b] == s.d.blocks[b]
  }

  ghost predicate Step(s: State, e: Event, s': State) {
    && Typed(s)
    && (|| ProducerStep(s, e, s')
        || (exists qe: Q.Event :: CounterMoves(s, qe, s') && e == Shown(qe))
        || (exists t: nat :: t < |s.work| && WorkMoves(s, t, e, s'))
        || (e == Silent && OthersMove(s, s')))
  }

  // ---------------------------------------------------------------- invariant

  predicate Hosts(x: I.State, n: nat, b: I.Storage) { n < |x.m.storage| && x.m.storage[n] == b }

  /** Block `n` has been published and its memory not given back. */
  predicate Held(x: I.State, d: Data, n: nat) { n < |x.m.storage| && n !in d.freed }

  function InChunk(s: set<nat>, n: nat): set<nat> { set i | i in s && Chunk(i) == n }

  ghost predicate AllCounted(d: Data, n: nat) { forall i: nat :: Chunk(i) == n ==> i in d.counted }

  /** Where the tail stands relative to the blocks, by the producer's program counter. */
  ghost predicate PhaseOk(x: I.State, d: Data) {
    var n, tail := |x.m.storage|, d.c.tail;
    && tail >= 0
    && (Off(tail) == 0 ==> tail == Base(n))
    && (Off(tail) != 0 ==> n > 0 && Chunk(tail) == n - 1 && d.tailBlock == x.m.storage[n - 1])
    && match d.prod
       case PIdle => x.prod.PIdle?
       case PCheck(_) => Off(tail) == 0 && x.prod.PIdle?
       case PInsert(_) => Off(tail) == 0 && !x.prod.PPublish?
       case _ => if Off(tail) == 0 then x.prod.PPublish? && x.prod.b == d.tailBlock else x.prod.PIdle?
  }

  /** Memory requisitioned for a block that is not published yet. */
  predicate Coming(x: I.State, b: I.Storage) { (x.prod.PStoreValue? || x.prod.PPublish?) && x.prod.b == b }

  /** Blocks held have their own memory, which counts exactly their elements dequeued; a block is out of
      the index only when all its elements are counted, and is given back only after that. */
  ghost predicate HeldOk(x: I.State, d: Data) {
    && (forall n: nat :: Held(x, d, n) ==> BlockOk(x, d, n))
    && (forall n: nat, k: nat :: Held(x, d, n) && Held(x, d, k) && x.m.storage[n] == x.m.storage[k] ==> n == k)
    && (forall b :: Coming(x, b) ==>
          && b in d.mine && BlockTyped(d, b) && d.blocks[b].dequeued == 0
          && forall n: nat :: Held(x, d, n) ==> x.m.storage[n] != b)
    && d.freed <= x.m.released
    && (forall n :: n in x.m.released ==> AllCounted(d, n))
  }

  predicate BlockOk(x: I.State, d: Data, n: nat)
    requires n < |x.m.storage|
  {
    var b := x.m.storage[n];
    b in d.mine && BlockTyped(d, b) && d.blocks[b].dequeued == |InChunk(d.counted, n)|
  }

  /** An element not taken is in its cell. */
  predicate ElementOk(x: I.State, d: Data, i: nat)
    requires i < |d.items|
  {
    && Held(x, d, Chunk(i)) && BlockTyped(d, x.m.storage[Chunk(i)])
    && d.blocks[x.m.storage[Chunk(i)]].cells[Off(i)] == Full(d.items[i])
  }

  ghost predicate DataOk(x: I.State, d: Data) {
    && |d.items| == d.c.tail
    && d.counted <= d.taken && (forall i :: i in d.taken ==> i < d.c.head)
    && (forall i: nat :: i < |d.items| && i !in d.taken ==> ElementOk(x, d, i))
    && (d.prod.PWrite? || d.prod.PTail? ==> BlockTyped(d, d.tailBlock))
    && (d.prod.PTail? ==> d.blocks[d.tailBlock].cells[Off(|d.items|)] == Full(d.prod.x))
  }

  predicate NoneOf(s: set<nat>, from: nat, to: nat) { forall i :: from <= i < to ==> i !in s }
  predicate AllOf(s: set<nat>, from: nat, to: nat) { forall i :: from <= i < to ==> i in s }

  /** The first index of a claim that is not counted yet. */
  function From(w: Work): nat
    requires !w.WIdle?
  {
    if w.WTake? || w.WCount? then w.from else w.i
  }

  ghost predicate ClaimOk(d: Data, w: Work)
    requires !w.WIdle?
  {
    && w.len > 0 && w.first <= From(w) <= w.i <= w.first + w.len <= d.c.head <= |d.items|
    && w.out == d.items[w.first..w.i]
    && NoneOf(d.taken, w.i, w.first + w.len) && NoneOf(d.counted, From(w), w.first + w.len)
    && AllOf(d.taken, w.first, w.i) && AllOf(d.counted, w.first, From(w))
  }

  /** The consumer's place in the index fits the indices it has still to deal with. */
  predicate At(r: I.Reader, n: nat, w: Work)
    requires !w.WIdle? && w.len > 0
  {
    r.RAt? && r.n == n && r.hi == Chunk(w.first + w.len - 1)
  }

  predicate EndOfBlock(w: Work, n: nat)
    requires !w.WIdle?
  {
    w.first < w.i && Chunk(w.i - 1) == n && (w.i < w.first + w.len ==> Chunk(w.i) == n + 1)
  }

  ghost predicate PlaceOk(x: I.State, d: Data, w: Work, r: I.Reader)
    requires !w.WIdle? && w.len > 0
  {
    match w
    case WFind(first, len, i, _) =>
      i < first + len && !r.RIdle? && r.n == Chunk(i) && r.hi == Chunk(first + len - 1)
    case WTake(first, len, i, _, b, from) =>
      i < first + len && Chunk(from) == Chunk(i) && At(r, Chunk(i), w) && Hosts(x, Chunk(i), b)
    case WCount(_, _, i, _, b, from) =>
      from < i && EndOfBlock(w, Chunk(from)) && At(r, Chunk(from), w) && Hosts(x, Chunk(from), b)
    case WErase(_, _, i, _, b) =>
      && r.RAt? && EndOfBlock(w, r.n) && At(r, r.n, w) && Hosts(x, r.n, b)
      && r.n !in x.m.released && AllCounted(d, r.n)
    case WFree(first, len, i, _, b, n) =>
      && Hosts(x, n, b) && n in x.m.released && n !in d.freed && first < i
      && if i < first + len then At(r, Chunk(i), w) else r.RIdle?
  }

  ghost predicate WorkOk(x: I.State, d: Data, w: Work, r: I.Reader) {
    if w.WIdle? then r.RIdle? else ClaimOk(d, w) && PlaceOk(x, d, w, r)
  }

  predicate Has(w: Work, i: nat) { !w.WIdle? && w.first <= i < w.first + w.len }

  /** The consumer has completed block `n` and not given it back. */
  predicate Finishing(w: Work, r: I.Reader, n: nat) {
    (w.WErase? && r.RAt? && r.n == n) || (w.WFree? && w.n == n)
  }

  ghost predicate WorkersOk(s: State) {
    && |s.work| == |s.x.readers| == |s.d.c.consumers|
    && (forall t :: 0 <= t < |s.work| ==> WorkOk(s.x, s.d, s.work[t], s.x.readers[t]))
    && (forall t :: 0 <= t < |s.work| && !s.work[t].WIdle? ==> s.d.c.consumers[t].Idle?)
  }

  ghost predicate Apart(s: State)
    requires |s.work| == |s.x.readers|
  {
    && (forall t, u, i: nat :: 0 <= t < u < |s.work| ==> !(Has(s.work[t], i) && Has(s.work[u], i)))
    && (forall t, u, n: nat :: 0 <= t < u < |s.work| ==>
          !(Finishing(s.work[t], s.x.readers[t], n) && Finishing(s.work[u], s.x.readers[u], n)))
  }

  /** The part of the invariant that does not look at the consumers' work. */
  ghost predicate Core(x: I.State, d: Data) {
    I.Inv(x) && Q.Inv(d.c) && PhaseOk(x, d) && HeldOk(x, d) && DataOk(x, d)
  }

  ghost predicate Inv(s: State) { Core(s.x, s.d) && WorkersOk(s) && Apart(s) }
}
