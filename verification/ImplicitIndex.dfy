/** The block index of an implicit producer (ConcurrentQueue.h, ImplicitProducer): a circular array of
    pointers to shared entries, doubled when the next slot is still in use. One step per access to
    shared memory; one producer, any number of consumers, each possibly on an older header.

    Blocks are counted from zero: the base index of block `n` is `n * BLOCK_SIZE`, so the offset the
    source obtains by dividing a difference of base indices is a difference of block numbers. */
module ImplicitIndex {
  import opened Common
  import opened Arith

  type EntryId = nat
  type Storage = nat

  /** A key of None is INVALID_BLOCK_BASE. */
  datatype Entry = Entry(key: Option<nat>, value: Option<Storage>)

  /** `base` is history: slot `p` is for the blocks that equal `base + p` modulo the capacity. */
  datatype Header = Header(index: seq<EntryId>, tail: nat, base: int)

  /** The producer at a block boundary, named after the access about to be done. */
  datatype Producer =
    | PIdle
    | PGrow                              // no room in the index
    | PStoreKey(q: nat)
    | PStoreTail(q: nat)
    | PRequisition(q: nat)
    | PStoreValue(q: nat, b: Storage)
    | PPublish(q: nat, b: Storage)       // the store of tailIndex
    | PRewind(q: nat)
    | PClear(q: nat)

  /** A consumer that has claimed elements of the blocks `n` to `hi`. */
  datatype Reader =
    | RIdle
    | RHeader(n: nat, hi: nat)
    | RTail(n: nat, hi: nat, h: nat)
    | RKey(n: nat, hi: nat, h: nat, p: nat)
    | RAt(n: nat, hi: nat, h: nat, p: nat)

  /** `storage[n]` is the memory given to block `n`; a block is published when its first element is. */
  datatype Memory = Memory(entries: seq<Entry>, headers: seq<Header>, storage: seq<Storage>, released: set<nat>)

  datatype State = State(m: Memory, prod: Producer, readers: seq<Reader>)

  // ---------------------------------------------------------------- steps

  predicate HeaderOk(m: Memory, h: Header) {
    && |h.index| >= 1 && h.tail < |h.index|
    && forall p :: 0 <= p < |h.index| ==> h.index[p] < |m.entries|
  }

  predicate AllHeaders(m: Memory) {
    |m.headers| >= 1 && forall h :: 0 <= h < |m.headers| ==> HeaderOk(m, m.headers[h])
  }

  predicate Typed(s: State) {
    && AllHeaders(s.m)
    && (!s.prod.PIdle? && !s.prod.PGrow? ==> s.prod.q < |Last(s.m).index|)
    && (forall t :: 0 <= t < |s.readers| ==> ReaderTyped(s.m, s.readers[t]))
  }

  predicate ReaderTyped(m: Memory, r: Reader) {
    && (r.RTail? || r.RKey? || r.RAt? ==> r.h < |m.headers|)
    && (r.RKey? || r.RAt? ==> r.p < |m.headers[r.h].index|)
  }

  function Last(m: Memory): Header
    requires |m.headers| >= 1
  {
    m.headers[|m.headers| - 1]
  }

  function SetTail(m: Memory, tail: nat): Memory
    requires |m.headers| >= 1
  {
    m.(headers := m.headers[|m.headers| - 1 := Last(m).(tail := tail)])
  }

  function At(m: Memory, h: Header, p: nat): Entry
    requires HeaderOk(m, h) && p < |h.index|
  {
    m.entries[h.index[p]]
  }

  function SetEntry(m: Memory, e: EntryId, en: Entry): Memory
    requires e < |m.entries|
  {
    m.(entries := m.entries[e := en])
  }

  function NextSlot(h: Header): nat
    requires |h.index| >= 1
  {
    (h.tail + 1) % |h.index|
  }

  predicate Free(e: Entry) { e.key.None? || e.value.None? }

  /** The old index turned so that its oldest slot comes first, followed by the new entries. */
  function Grown(index: seq<EntryId>, tail: nat, first: EntryId): seq<EntryId>
    requires |index| >= 1
  {
    seq(2 * |index|, i requires 0 <= i => if i < |index| then index[(tail + 1 + i) % |index|] else first + (i - |index|))
  }

  /** The two loops of new_block_index that fill the pointers of the new header; the entries made for
      it are numbered from `first`. */
  method FillIndex(prev: seq<EntryId>, prevTail: nat, first: EntryId) returns (index: array<EntryId>)
    requires prevTail < |prev|
    ensures fresh(index) && index[..] == Grown(prev, prevTail, first)
  {
    var c := |prev|;
    index := new EntryId[2 * c];
    var prevPos := (prevTail + 1) % c;
    index[0] := prev[prevPos];
    var i := 1;
    WalkWraps(prevTail, 1, c);
    while prevPos != prevTail
      invariant 1 <= i <= c && prevPos == (prevTail + i) % c && prevPos < c
      invariant forall j :: 0 <= j < i ==> index[j] == prev[(prevTail + 1 + j) % c]
      decreases c - i
    {
      WalkWraps(prevTail, i, c);
      prevPos := (prevPos + 1) % c;
      index[i] := prev[prevPos];
      i := i + 1;
    }
    WalkWraps(prevTail, i, c);
    var k := 0;
    while k != c
      invariant 0 <= k <= c == i
      invariant forall j :: 0 <= j < c ==> index[j] == prev[(prevTail + 1 + j) % c]
      invariant forall j :: c <= j < c + k ==> index[j] == first + (j - c)
      decreases c - k
    {
      index[c + k] := first + k;
      k := k + 1;
    }
    assert forall j :: 0 <= j < 2 * c ==> index[..][j] == Grown(prev, prevTail, first)[j];
  }

  /** Walking from the tail comes back to it after exactly one turn. */
  lemma WalkWraps(tail: nat, i: nat, c: nat)
    requires tail < c && 1 <= i <= c
    ensures ((tail + i) % c + 1) % c == (tail + 1 + i) % c
    ensures (tail + i) % c == tail <==> i == c
  {
    ModAdd(tail + i, 1, c);
    ModPlusMultiple(tail, 1, c);
    DivModUnique(tail, c, 0, tail);
    if (tail + i) % c == tail && i < c { ModInjective(tail, tail + i, c); }
  }

  /** new_block_index. The values of the new entries are whatever the memory held. */
  function Doubled(m: Memory, added: seq<Entry>): Memory
    requires AllHeaders(m)
  {
    var h := Last(m);
    m.(entries := m.entries + added,
       headers := m.headers + [Header(Grown(h.index, h.tail, |m.entries|), |h.index| - 1, |m.storage| - |h.index|)])
  }

  predicate Doubling(m: Memory, added: seq<Entry>, m': Memory) {
    && AllHeaders(m) && |added| == |Last(m).index| && (forall i :: 0 <= i < |added| ==> added[i].key.None?)
    && m' == Doubled(m, added)
  }

  ghost predicate ProducerStep(s: State, s': State)
    requires Typed(s)
  {
    var h := Last(s.m);
    s'.readers == s.readers &&
    match s.prod
    case PIdle =>
      var q := NextSlot(h);
      s'.m == s.m && s'.prod == if Free(At(s.m, h, q)) then PStoreKey(q) else PGrow
    case PGrow =>
      || (s'.m == s.m && s'.prod == PIdle)     // may not allocate, or no memory
      || exists added: seq<Entry> :: Doubling(s.m, added, s'.m) && s'.prod == PStoreKey(NextSlot(Last(s'.m)))
    case PStoreKey(q) =>
      s'.m == SetEntry(s.m, h.index[q], At(s.m, h, q).(key := Some(|s.m.storage|))) && s'.prod == PStoreTail(q)
    case PStoreTail(q) =>
      s'.m == SetTail(s.m, q) && s'.prod == PRequisition(q)
    case PRequisition(q) =>
      s'.m == s.m && (s'.prod == PRewind(q) || exists b: Storage :: s'.prod == PStoreValue(q, b))
    case PStoreValue(q, b) =>
      s'.m == SetEntry(s.m, h.index[q], At(s.m, h, q).(value := Some(b))) && s'.prod == PPublish(q, b)
    case PPublish(q, b) =>
      s'.m == s.m.(storage := s.m.storage + [b]) && s'.prod == PIdle
    case PRewind(q) =>
      s'.m == SetTail(s.m, (h.tail - 1) % |h.index|) && s'.prod == PClear(q)
    case PClear(q) =>
      s'.m == SetEntry(s.m, h.index[q], At(s.m, h, q).(value := None)) && s'.prod == PIdle
  }

  predicate Live(m: Memory, n: nat) { n < |m.storage| && n !in m.released }

  predicate AllLive(m: Memory, lo: nat, hi: nat) { forall n: nat :: lo <= n <= hi ==> Live(m, n) }

  predicate Covers(r: Reader, n: nat) { !r.RIdle? && r.n <= n <= r.hi }

  /** Every element of the block has been taken, the last one by this consumer. */
  function Release(m: Memory, h: Header, p: nat, n: nat): Memory
    requires HeaderOk(m, h) && p < |h.index|
  {
    SetEntry(m, h.index[p], At(m, h, p).(value := None)).(released := m.released + {n})
  }

  /** After its last block a consumer is done, else it takes the next slot. */
  function Onward(m: Memory, r: Reader): Reader
    requires r.RAt? && r.h < |m.headers| && |m.headers[r.h].index| >= 1
  {
    if r.n < r.hi then RAt(r.n + 1, r.hi, r.h, (r.p + 1) % |m.headers[r.h].index|) else RIdle
  }

  /** `r'` is what the reader turns into, `alone` that no other consumer has elements of its block. */
  ghost predicate ReaderStep(m: Memory, r: Reader, alone: bool, m': Memory, r': Reader)
    requires AllHeaders(m) && ReaderTyped(m, r)
  {
    match r
    case RIdle =>
      m' == m && r'.RHeader? && r'.n <= r'.hi && AllLive(m, r'.n, r'.hi)
    case RHeader(n, hi) => m' == m && r' == RTail(n, hi, |m.headers| - 1)
    case RTail(n, hi, h) => m' == m && r' == RKey(n, hi, h, m.headers[h].tail)
    case RKey(n, hi, h, p) =>
      var k := At(m, m.headers[h], p).key;
      m' == m && k.Some? && r' == RAt(n, hi, h, (p + n - k.value) % |m.headers[h].index|)
    case RAt(n, hi, h, p) =>
      r' == Onward(m, r) && (m' == m || (alone && m' == Release(m, m.headers[h], p, n)))
  }

  ghost predicate Alone(s: State, t: nat)
    requires t < |s.readers| && s.readers[t].RAt?
  {
    forall u :: 0 <= u < |s.readers| && u != t ==> !Covers(s.readers[u], s.readers[t].n)
  }

  ghost predicate ConsumerStep(s: State, t: nat, s': State)
    requires Typed(s) && t < |s.readers|
  {
    && s'.prod == s.prod && |s'.readers| == |s.readers|
    && (forall u :: 0 <= u < |s.readers| && u != t ==> s'.readers[u] == s.readers[u])
    && ReaderStep(s.m, s.readers[t], s.readers[t].RAt? && Alone(s, t), s'.m, s'.readers[t])
  }

  ghost predicate Step(s: State, s': State) {
    Typed(s) && (ProducerStep(s, s') || exists t: nat :: t < |s.readers| && ConsumerStep(s, t, s'))
  }

  // ---------------------------------------------------------------- invariant

  /** The slot for block `n`. */
  function Slot(h: Header, n: int): (p: nat)
    requires |h.index| >= 1
    ensures p < |h.index| && Cong(p + h.base, n, |h.index|)
  {
    CongMod(n - h.base, |h.index|);
    CongShift((n - h.base) % |h.index|, n - h.base, h.base, |h.index|);
    (n - h.base) % |h.index|
  }

  predicate KeyFits(m: Memory, h: Header, p: nat)
    requires HeaderOk(m, h) && p < |h.index|
  {
    At(m, h, p).key.Some? ==> Cong(At(m, h, p).key.value, p + h.base, |h.index|)
  }

  ghost predicate KeysFit(m: Memory)
    requires AllHeaders(m)
  {
    forall h: nat, p: nat :: h < |m.headers| && p < |m.headers[h].index| ==> KeyFits(m, m.headers[h], p)
  }

  /** Entries shared with the newest header sit in matching slots. */
  ghost predicate Matches(g: Header, h: Header)
    requires |g.index| >= 1 && |h.index| >= 1
  {
    && Divides(|g.index|, |h.index|)
    && forall p: nat, q: nat :: p < |g.index| && q < |h.index| && g.index[p] == h.index[q] ==>
         Cong(p + g.base, q + h.base, |g.index|)
  }

  ghost predicate Nested(m: Memory)
    requires AllHeaders(m)
  {
    forall g :: 0 <= g < |m.headers| ==> Matches(m.headers[g], Last(m))
  }

  ghost predicate Distinct(h: Header) { forall p, q :: 0 <= p < q < |h.index| ==> h.index[p] != h.index[q] }

  /** The producer is not about to fill the slot of the next block. */
  predicate Outside(p: Producer) { p.PIdle? || p.PGrow? }

  /** The keys of the newest header lie within one turn below the next block, and the key of the next
      block itself is there only after a failure or during an insertion. */
  predicate InWindow(e: Entry, next: nat, capacity: nat, outside: bool) {
    e.key.Some? ==> next - capacity <= e.key.value <= next && (e.key.value == next && outside ==> e.value.None?)
  }

  ghost predicate Window(m: Memory, outside: bool)
    requires AllHeaders(m)
  {
    forall p: nat :: p < |Last(m).index| ==> InWindow(At(m, Last(m), p), |m.storage|, |Last(m).index|, outside)
  }

  predicate TailKeyed(m: Memory, h: Header)
    requires HeaderOk(m, h)
  {
    At(m, h, h.tail).key.Some?
  }

  /** Once there is a block, every tail slot has a key, and so has the slot of the last block. Before
      that there is one header. */
  ghost predicate TailsKeyed(m: Memory)
    requires AllHeaders(m)
  {
    if |m.storage| == 0 then |m.headers| == 1 else
      && At(m, Last(m), Slot(Last(m), |m.storage| - 1)).key.Some?
      && forall h :: 0 <= h < |m.headers| ==> TailKeyed(m, m.headers[h])
  }

  predicate Holds(m: Memory, h: Header, p: nat, n: nat)
    requires HeaderOk(m, h)
  {
    p < |h.index| && n < |m.storage| && At(m, h, p) == Entry(Some(n), Some(m.storage[n]))
  }

  ghost predicate LiveFound(m: Memory)
    requires AllHeaders(m)
  {
    forall n: nat :: Live(m, n) ==> Holds(m, Last(m), Slot(Last(m), n), n)
  }

  /** Block `n` can be found through header `h`. */
  ghost predicate Found(m: Memory, h: nat, n: nat)
    requires AllHeaders(m)
  {
    h < |m.headers| && Holds(m, m.headers[h], Slot(m.headers[h], n), n)
  }

  ghost predicate ReaderOk(m: Memory, r: Reader)
    requires AllHeaders(m)
  {
    && (!r.RIdle? ==> r.n <= r.hi && AllLive(m, r.n, r.hi))
    && (r.RTail? || r.RKey? || r.RAt? ==> r.h < |m.headers| && forall n: nat :: r.n <= n <= r.hi ==> Found(m, r.h, n))
    && (r.RKey? ==> r.p < |m.headers[r.h].index| && At(m, m.headers[r.h], r.p).key.Some?)
    && (r.RAt? ==> r.p == Slot(m.headers[r.h], r.n))
  }

  ghost predicate ProdOk(m: Memory, prod: Producer)
    requires AllHeaders(m)
  {
    var h, n := Last(m), |m.storage|;
    var before := Cong(h.tail + h.base, n - 1, |h.index|);
    match prod
    case PIdle => before
    case PGrow => before && At(m, h, Slot(h, n)).key.Some? && At(m, h, Slot(h, n)).key.value != n
    case PStoreKey(q) => before && q == Slot(h, n) && Free(At(m, h, q))
    case PStoreTail(q) => before && q == Slot(h, n) && At(m, h, q).key == Some(n)
    case PRequisition(q) => h.tail == q == Slot(h, n) && At(m, h, q).key == Some(n)
    case PStoreValue(q, _) => h.tail == q == Slot(h, n) && At(m, h, q).key == Some(n)
    case PPublish(q, b) => h.tail == q == Slot(h, n) && At(m, h, q) == Entry(Some(n), Some(b))
    case PRewind(q) => h.tail == q == Slot(h, n) && At(m, h, q).key == Some(n)
    case PClear(q) => before && q == Slot(h, n) && At(m, h, q).key == Some(n)
  }

  /** What does not depend on where the producer and the consumers are. */
  ghost predicate IndexOk(m: Memory) {
    && AllHeaders(m) && KeysFit(m) && Nested(m) && Distinct(Last(m)) && TailsKeyed(m) && LiveFound(m)
    && forall n :: n in m.released ==> n < |m.storage|
  }

  ghost predicate Inv(s: State) {
    && IndexOk(s.m) && Window(s.m, Outside(s.prod)) && ProdOk(s.m, s.prod)
    && forall t :: 0 <= t < |s.readers| ==> ReaderOk(s.m, s.readers[t])
  }
}
