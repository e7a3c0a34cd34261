/** Lookups through any header, old or new, find the entry of their block. */
module ImplicitIndexProof {
  import opened Common
  import opened Arith
  import opened ImplicitIndex

  lemma SlotUnique(h: Header, n: int, p: nat)
    requires p < |h.index| && Cong(p + h.base, n, |h.index|)
    ensures p == Slot(h, n)
  {
    hide Slot, Cong;
    var q := Slot(h, n);
    assert Cong(n, q + h.base, |h.index|) by { CongSym(q + h.base, n, |h.index|); }
    CongTrans(p + h.base, n, q + h.base, |h.index|);
    CongNear(p + h.base, q + h.base, |h.index|);
  }

  /** The slot after the tail, from where the tail is. */
  lemma NextSlotIs(h: Header, n: int)
    requires h.tail < |h.index| && Cong(h.tail + h.base, n - 1, |h.index|)
    ensures NextSlot(h) == Slot(h, n)
  {
    hide Slot, Cong;
    var m := |h.index|;
    CongMod(h.tail + 1, m);
    CongShift((h.tail + 1) % m, h.tail + 1, h.base, m);
    CongShift(h.tail + h.base, n - 1, 1, m);
    assert h.tail + h.base + 1 == h.tail + 1 + h.base;
    CongTrans((h.tail + 1) % m + h.base, h.tail + 1 + h.base, n, m);
    SlotUnique(h, n, NextSlot(h));
  }

  lemma PreviousSlotIs(h: Header, n: int)
    requires h.tail < |h.index| && Cong(h.tail + h.base, n, |h.index|)
    ensures (h.tail - 1) % |h.index| == Slot(h, n - 1)
  {
    hide Slot, Cong;
    var m := |h.index|;
    CongMod(h.tail - 1, m);
    CongShift((h.tail - 1) % m, h.tail - 1, h.base, m);
    CongShift(h.tail + h.base, n, -1, m);
    assert h.tail + h.base + -1 == h.tail - 1 + h.base;
    CongTrans((h.tail - 1) % m + h.base, h.tail - 1 + h.base, n - 1, m);
    SlotUnique(h, n - 1, (h.tail - 1) % m);
  }

  /** The heart of the lookup: from any keyed slot, the offset leads to the slot of the block. */
  lemma LookupSlot(h: Header, p: nat, k: nat, n: nat)
    requires p < |h.index| && Cong(k, p + h.base, |h.index|)
    ensures (p + n - k) % |h.index| == Slot(h, n)
  {
    hide Slot, Cong;
    var m := |h.index|;
    CongMod(p + n - k, m);
    CongShift((p + n - k) % m, p + n - k, h.base, m);
    CongSym(k, p + h.base, m);
    CongShift(p + h.base, k, n - k, m);
    assert p + h.base + (n - k) == p + n - k + h.base;
    CongTrans((p + n - k) % m + h.base, p + n - k + h.base, n, m);
    SlotUnique(h, n, (p + n - k) % m);
  }

  lemma SlotAfter(h: Header, n: nat)
    requires |h.index| >= 1
    ensures (Slot(h, n) + 1) % |h.index| == Slot(h, n + 1)
  {
    hide Slot, Cong;
    var g := h.(tail := Slot(h, n));
    NextSlotIs(g, n + 1);
    SlotOfIndex(g, h, n + 1);
  }

  lemma SlotOfIndex(g: Header, h: Header, n: int)
    requires g.index == h.index && g.base == h.base && |h.index| >= 1
    ensures Slot(g, n) == Slot(h, n)
  {}

  // ---------------------------------------------------------------- consumers

  /** A consumer that does not release keeps its own assertion. */
  lemma ReaderAdvances(m: Memory, r: Reader, r': Reader)
    requires IndexOk(m) && ReaderOk(m, r) && ReaderTyped(m, r) && ReaderStep(m, r, false, m, r')
    ensures ReaderOk(m, r')
  {
    hide Slot, Cong, Matches, Distinct, Divides;
    match r {
      case RIdle =>
      case RHeader(n, hi) => assert forall k: nat :: n <= k <= hi ==> Live(m, k) ==> Found(m, |m.headers| - 1, k);
      case RTail(n, hi, h) => assert Live(m, n) && TailKeyed(m, m.headers[h]);
      case RKey(n, hi, h, p) =>
        assert KeyFits(m, m.headers[h], p);
        LookupSlot(m.headers[h], p, At(m, m.headers[h], p).key.value, n);
      case RAt(n, hi, h, p) => SlotAfter(m.headers[h], n);
    }
  }

  // ---------------------------------------------------------------- writing an entry

  /** `m'` is `m` with entry `e` overwritten, and possibly a block released. The entry belonged to no
      block that is still live, and a key stays a key. */
  ghost predicate Overwritten(m: Memory, e: EntryId, en: Entry, m': Memory) {
    && e < |m.entries| && m' == m.(entries := m.entries[e := en], released := m'.released)
    && m.released <= m'.released && (m.entries[e].key.Some? ==> en.key.Some?)
    && (forall n: nat :: Live(m', n) ==> m.entries[e] != Entry(Some(n), Some(m.storage[n])))
  }

  lemma OverwrittenHeaders(m: Memory, e: EntryId, en: Entry, m': Memory)
    requires AllHeaders(m) && Overwritten(m, e, en, m')
    ensures AllHeaders(m') && Last(m') == Last(m)
  {
    assert forall h :: 0 <= h < |m.headers| ==> HeaderOk(m, m.headers[h]) ==> HeaderOk(m', m'.headers[h]);
  }

  lemma OverwrittenAt(m: Memory, e: EntryId, en: Entry, m': Memory, h: nat, p: nat)
    requires AllHeaders(m) && AllHeaders(m') && Overwritten(m, e, en, m') && h < |m.headers| && p < |m.headers[h].index|
    ensures HeaderOk(m, m.headers[h]) && HeaderOk(m', m.headers[h])
    ensures At(m', m.headers[h], p) == if m.headers[h].index[p] == e then en else At(m, m.headers[h], p)
    ensures At(m, m.headers[h], p).key.Some? ==> At(m', m.headers[h], p).key.Some?
  {}

  lemma OverwrittenFound(m: Memory, e: EntryId, en: Entry, m': Memory, h: nat, n: nat)
    requires AllHeaders(m) && AllHeaders(m') && Overwritten(m, e, en, m') && Found(m, h, n) && Live(m', n)
    ensures Found(m', h, n)
  {
    hide Slot, HeaderOk, AllHeaders, Live;
    OverwrittenAt(m, e, en, m', h, Slot(m.headers[h], n));
  }

  lemma OverwrittenReader(m: Memory, e: EntryId, en: Entry, m': Memory, r: Reader)
    requires AllHeaders(m) && AllHeaders(m') && Overwritten(m, e, en, m') && ReaderOk(m, r)
    requires !r.RIdle? ==> AllLive(m', r.n, r.hi)
    ensures ReaderOk(m', r)
  {
    hide Slot, HeaderOk, AllHeaders, Live, Holds, Overwritten, Found;
    OverwrittenSame(m, e, en, m');
    if r.RTail? || r.RKey? || r.RAt? {
      forall n: nat | r.n <= n <= r.hi ensures Found(m', r.h, n) {
        assert Live(m', n);
        OverwrittenFound(m, e, en, m', r.h, n);
      }
    }
    if r.RKey? { OverwrittenAt(m, e, en, m', r.h, r.p); }
  }

  lemma OverwrittenSame(m: Memory, e: EntryId, en: Entry, m': Memory)
    requires Overwritten(m, e, en, m')
    ensures m'.headers == m.headers && m'.storage == m.storage && forall n :: Live(m', n) ==> Live(m, n)
  {}

  lemma OverwrittenIndex(m: Memory, e: EntryId, en: Entry, m': Memory)
    requires IndexOk(m) && Overwritten(m, e, en, m') && (forall n :: n in m'.released ==> n < |m.storage|)
    requires en.key == m.entries[e].key || forall h: nat, p: nat :: NewKeyFits(m, e, en, h, p)
    ensures IndexOk(m')
  {
    hide Slot, HeaderOk, Live, Matches, Distinct, Cong;
    OverwrittenHeaders(m, e, en, m');
    OverwrittenSame(m, e, en, m');
    hide AllHeaders, Overwritten;
    forall h: nat, p: nat | h < |m'.headers| && p < |m'.headers[h].index| ensures KeyFits(m', m'.headers[h], p) {
      OverwrittenAt(m, e, en, m', h, p);
      assert KeyFits(m, m.headers[h], p);
      assert en.key == m.entries[e].key || NewKeyFits(m, e, en, h, p);
    }
    if |m.storage| >= 1 {
      OverwrittenAt(m, e, en, m', |m.headers| - 1, Slot(Last(m), |m.storage| - 1));
      forall h | 0 <= h < |m'.headers| ensures TailKeyed(m', m'.headers[h]) {
        assert TailKeyed(m, m.headers[h]);
        TailInRange(m, h);
        OverwrittenAt(m, e, en, m', h, m.headers[h].tail);
      }
    }
    forall n: nat | Live(m', n) ensures Holds(m', Last(m'), Slot(Last(m'), n), n) {
      assert Found(m, |m.headers| - 1, n);
      OverwrittenFound(m, e, en, m', |m.headers| - 1, n);
    }
  }

  predicate NewKeyFits(m: Memory, e: EntryId, en: Entry, h: nat, p: nat) {
    h < |m.headers| && p < |m.headers[h].index| && m.headers[h].index[p] == e && en.key.Some? ==>
      Cong(en.key.value, p + m.headers[h].base, |m.headers[h].index|)
  }

  lemma TailInRange(m: Memory, h: nat)
    requires AllHeaders(m) && h < |m.headers|
    ensures m.headers[h].tail < |m.headers[h].index|
  {}

  /** Storing the key of the next block fits the entry's slot in every header that has it. */
  lemma NextKeyFits(m: Memory, q: nat, en: Entry)
    requires IndexOk(m) && q == Slot(Last(m), |m.storage|) && en.key == Some(|m.storage|)
    ensures forall h: nat, p: nat :: NewKeyFits(m, Last(m).index[q], en, h, p)
  {
    hide Slot, Cong, Divides, Matches;
    forall g: nat, p: nat ensures NewKeyFits(m, Last(m).index[q], en, g, p) {
      if g < |m.headers| && p < |m.headers[g].index| && m.headers[g].index[p] == Last(m).index[q] {
        MatchingSlots(m.headers[g], Last(m), p, q, |m.storage|);
      }
    }
  }

  lemma MatchingSlots(g: Header, h: Header, p: nat, q: nat, n: int)
    requires |g.index| >= 1 && |h.index| >= 1 && Matches(g, h) && p < |g.index| && q < |h.index| && g.index[p] == h.index[q]
    requires Cong(q + h.base, n, |h.index|)
    ensures Cong(n, p + g.base, |g.index|)
  {
    hide Cong, Divides;
    CongDown(q + h.base, n, |g.index|, |h.index|);
    CongTrans(p + g.base, q + h.base, n, |g.index|);
  }

  lemma OverwrittenWindow(m: Memory, e: EntryId, en: Entry, m': Memory, outside: bool, outside': bool)
    requires AllHeaders(m) && AllHeaders(m') && Overwritten(m, e, en, m') && Window(m, outside)
    requires InWindow(en, |m.storage|, |Last(m).index|, outside')
    requires outside' ==> forall p: nat :: p < |Last(m).index| && At(m, Last(m), p).key == Some(|m.storage|) ==>
               Last(m).index[p] == e || At(m, Last(m), p).value.None?
    ensures Window(m', outside')
  {
    hide Overwritten;
    OverwrittenSame(m, e, en, m');
    forall p: nat | p < |Last(m').index| ensures InWindow(At(m', Last(m'), p), |m'.storage|, |Last(m').index|, outside') {
      OverwrittenAt(m, e, en, m', |m.headers| - 1, p);
      assert InWindow(At(m, Last(m), p), |m.storage|, |Last(m).index|, outside);
    }
  }

  lemma KeyStored(s: State, s': State)
    requires Inv(s) && Typed(s) && s.prod.PStoreKey? && ProducerStep(s, s')
    ensures Inv(s')
  {
    hide Slot, Cong, Matches, Distinct, HeaderOk, ReaderOk, IndexOk;
    var m, m', q := s.m, s'.m, s.prod.q;
    var h, n := Last(m), |m.storage|;
    IndexHeaders(m);
    OkAtLast(m, q);
    var e, en := h.index[q], At(m, h, q).(key := Some(n));
    assert Overwritten(m, e, en, m');
    NextKeyFits(m, q, en);
    OverwrittenHeaders(m, e, en, m');
    OverwrittenIndex(m, e, en, m');
    OverwrittenWindow(m, e, en, m', false, false);
    OverwrittenAt(m, e, en, m', |m.headers| - 1, q);
    ReadersKept(s, e, en, s');
  }

  lemma IndexHeaders(m: Memory)
    requires IndexOk(m)
    ensures AllHeaders(m) && forall n :: n in m.released ==> n < |m.storage|
  {}

  lemma OkAtLast(m: Memory, q: nat)
    requires AllHeaders(m) && q < |Last(m).index|
    ensures HeaderOk(m, Last(m)) && Last(m).index[q] < |m.entries|
  {}

  lemma ReadersKept(s: State, e: EntryId, en: Entry, s': State)
    requires AllHeaders(s.m) && AllHeaders(s'.m) && Overwritten(s.m, e, en, s'.m) && s'.m.released == s.m.released
    requires s'.readers == s.readers && forall t :: 0 <= t < |s.readers| ==> ReaderOk(s.m, s.readers[t])
    ensures forall t :: 0 <= t < |s'.readers| ==> ReaderOk(s'.m, s'.readers[t])
  {
    forall t | 0 <= t < |s'.readers| ensures ReaderOk(s'.m, s'.readers[t]) {
      ReaderLive(s.m, s.readers[t]);
      hide ReaderOk, AllHeaders;
      if !s.readers[t].RIdle? { LiveSame(s.m, s'.m, s.readers[t].n, s.readers[t].hi); }
      OverwrittenReader(s.m, e, en, s'.m, s.readers[t]);
    }
  }

  lemma ReaderLive(m: Memory, r: Reader)
    requires AllHeaders(m) && ReaderOk(m, r)
    ensures !r.RIdle? ==> AllLive(m, r.n, r.hi)
  {}

  lemma LiveSame(m: Memory, m': Memory, lo: nat, hi: nat)
    requires |m'.storage| >= |m.storage| && m'.released == m.released && AllLive(m, lo, hi)
    ensures AllLive(m', lo, hi)
  {
    assert forall n: nat :: Live(m, n) ==> Live(m', n);
  }

  lemma ValueStored(s: State, s': State)
    requires Inv(s) && Typed(s) && s.prod.PStoreValue? && ProducerStep(s, s')
    ensures Inv(s')
  {
    hide Slot, Cong, Matches, Distinct, HeaderOk, ReaderOk, IndexOk;
    var m, m', q := s.m, s'.m, s.prod.q;
    var h, n := Last(m), |m.storage|;
    IndexHeaders(m);
    OkAtLast(m, q);
    var e, en := h.index[q], At(m, h, q).(value := Some(s.prod.b));
    assert Overwritten(m, e, en, m');
    OverwrittenHeaders(m, e, en, m');
    OverwrittenIndex(m, e, en, m');
    OverwrittenWindow(m, e, en, m', false, false);
    OverwrittenAt(m, e, en, m', |m.headers| - 1, q);
    ReadersKept(s, e, en, s');
  }

  lemma Cleared(s: State, s': State)
    requires Inv(s) && Typed(s) && s.prod.PClear? && ProducerStep(s, s')
    ensures Inv(s')
  {
    hide Slot, Cong, Matches, Distinct, HeaderOk, ReaderOk, IndexOk;
    var m, m', q := s.m, s'.m, s.prod.q;
    var h, n := Last(m), |m.storage|;
    IndexHeaders(m);
    OkAtLast(m, q);
    var e, en := h.index[q], At(m, h, q).(value := None);
    assert Overwritten(m, e, en, m');
    OverwrittenHeaders(m, e, en, m');
    OverwrittenIndex(m, e, en, m');
    KeyPlace(m, n);
    OverwrittenWindow(m, e, en, m', false, true);
    OverwrittenAt(m, e, en, m', |m.headers| - 1, q);
    ReadersKept(s, e, en, s');
  }

  /** In the newest header a key can only be in one slot. */
  lemma KeyPlace(m: Memory, n: nat)
    requires IndexOk(m)
    ensures forall p: nat :: p < |Last(m).index| && At(m, Last(m), p).key == Some(n) ==> p == Slot(Last(m), n)
  {
    hide Slot, Cong, Matches, Distinct;
    forall p: nat | p < |Last(m).index| && At(m, Last(m), p).key == Some(n) ensures p == Slot(Last(m), n) {
      assert KeyFits(m, m.headers[|m.headers| - 1], p);
      CongSym(n, p + Last(m).base, |Last(m).index|);
      SlotUnique(Last(m), n, p);
    }
  }

  /** The last consumer of a block takes it out of the index. */
  lemma Released(s: State, t: nat, s': State)
    requires Inv(s) && Typed(s) && t < |s.readers| && s.readers[t].RAt? && Alone(s, t)
    requires s'.prod == s.prod && |s'.readers| == |s.readers|
    requires forall u :: 0 <= u < |s.readers| && u != t ==> s'.readers[u] == s.readers[u]
    requires var r := s.readers[t];
             s'.m == Release(s.m, s.m.headers[r.h], r.p, r.n) && s'.readers[t] == Onward(s.m, r)
    ensures Inv(s')
  {
    hide Slot, Cong, Matches, Distinct, HeaderOk, ReaderOk, IndexOk, Window, ProdOk;
    var m, m', r := s.m, s'.m, s.readers[t];
    IndexHeaders(m);
    assert ReaderOk(m, r);
    ReaderHolds(m, r);
    var e := m.headers[r.h].index[r.p];
    var en := m.entries[e].(value := None);
    assert Overwritten(m, e, en, m');
    OverwrittenHeaders(m, e, en, m');
    OverwrittenIndex(m, e, en, m');
    ReleasedWindow(m, e, en, m', Outside(s.prod));
    ReleasedProducer(m, e, en, m', s.prod);
    forall u | 0 <= u < |s'.readers| ensures ReaderOk(m', s'.readers[u]) {
      if u != t {
        ReleasedOther(m, r, s.readers[u], m');
        OverwrittenReader(m, e, en, m', s.readers[u]);
      } else {
        ReaderAdvances(m, r, s'.readers[t]);
        ReleasedOther(m, r, s'.readers[t], m');
        OverwrittenReader(m, e, en, m', s'.readers[t]);
      }
    }
  }

  lemma ReaderHolds(m: Memory, r: Reader)
    requires AllHeaders(m) && ReaderOk(m, r) && r.RAt?
    ensures r.h < |m.headers| && r.p < |m.headers[r.h].index| && m.headers[r.h].index[r.p] < |m.entries| && r.n < |m.storage|
    ensures m.entries[m.headers[r.h].index[r.p]] == Entry(Some(r.n), Some(m.storage[r.n]))
  {
    hide Slot;
    assert Found(m, r.h, r.n);
  }

  lemma ReleasedOther(m: Memory, r: Reader, other: Reader, m': Memory)
    requires AllHeaders(m) && ReaderOk(m, other) && r.RAt? && !Covers(other, r.n)
    requires m'.storage == m.storage && m'.released == m.released + {r.n}
    ensures !other.RIdle? ==> AllLive(m', other.n, other.hi)
  {
    ReaderLive(m, other);
    hide ReaderOk, AllHeaders;
    if !other.RIdle? {
      forall n: nat | other.n <= n <= other.hi ensures Live(m', n) { assert Live(m, n); }
    }
  }

  lemma ReleasedWindow(m: Memory, e: EntryId, en: Entry, m': Memory, outside: bool)
    requires AllHeaders(m) && AllHeaders(m') && Overwritten(m, e, en, m') && Window(m, outside)
    requires en == m.entries[e].(value := None)
    ensures Window(m', outside)
  {
    forall p: nat | p < |Last(m').index| ensures InWindow(At(m', Last(m'), p), |m'.storage|, |Last(m').index|, outside) {
      assert InWindow(At(m, Last(m), p), |m.storage|, |Last(m).index|, outside);
    }
  }

  lemma ReleasedProducer(m: Memory, e: EntryId, en: Entry, m': Memory, prod: Producer)
    requires AllHeaders(m) && AllHeaders(m') && Overwritten(m, e, en, m') && ProdOk(m, prod)
    requires en == m.entries[e].(value := None) && m.entries[e].key.Some? && m.entries[e].key.value < |m.storage|
    ensures ProdOk(m', prod)
  {
    hide Slot, Cong;
    OverwrittenSame(m, e, en, m');
    var n := |m.storage|;
    OverwrittenAt(m, e, en, m', |m.headers| - 1, Slot(Last(m), n));
  }

  // ---------------------------------------------------------------- moving the tail

  lemma TailMovedHeaders(m: Memory, q: nat, m': Memory)
    requires AllHeaders(m) && q < |Last(m).index| && m' == SetTail(m, q)
    ensures AllHeaders(m') && Last(m') == Last(m).(tail := q)
  {
    forall h | 0 <= h < |m'.headers| ensures HeaderOk(m', m'.headers[h]) { assert HeaderOk(m, m.headers[h]); }
  }

  /** Slots and entries stay what they are. */
  lemma TailMovedAt(m: Memory, q: nat, m': Memory, h: nat, n: int, p: nat)
    requires AllHeaders(m) && q < |Last(m).index| && m' == SetTail(m, q) && AllHeaders(m') && h < |m.headers|
    ensures |m'.headers| == |m.headers| && |m'.headers[h].index| == |m.headers[h].index| && m'.headers[h].base == m.headers[h].base
    ensures Slot(m'.headers[h], n) == Slot(m.headers[h], n)
    ensures p < |m.headers[h].index| ==> At(m', m'.headers[h], p) == At(m, m.headers[h], p)
  {
    SlotOfIndex(m'.headers[h], m.headers[h], n);
    hide Slot;
  }

  lemma TailMovedIndex(m: Memory, q: nat, m': Memory)
    requires IndexOk(m) && q < |Last(m).index| && m' == SetTail(m, q)
    requires |m.storage| >= 1 ==> At(m, Last(m), q).key.Some?
    ensures IndexOk(m')
  {
    hide Slot, Cong, Distinct, HeaderOk, Matches, Nested;
    TailMovedHeaders(m, q, m');
    assert Distinct(Last(m')) by { TailMovedDistinct(Last(m), Last(m')); }
    hide AllHeaders;
    var l := |m.headers| - 1;
    forall h: nat, p: nat | h < |m'.headers| && p < |m'.headers[h].index| ensures KeyFits(m', m'.headers[h], p) {
      TailMovedAt(m, q, m', h, 0, p);
      assert KeyFits(m, m.headers[h], p);
    }
    TailMovedNested(m, q, m');
    TailMovedAt(m, q, m', l, |m.storage| - 1, Slot(Last(m), |m.storage| - 1));
    if |m.storage| >= 1 {
      forall h: nat | h < |m'.headers| ensures TailKeyed(m', m'.headers[h]) {
        assert TailKeyed(m, m.headers[h]);
        TailInRange(m, h);
        TailMovedAt(m, q, m', h, 0, if h == l then q else m.headers[h].tail);
      }
    }
    forall n: nat | Live(m', n) ensures Holds(m', Last(m'), Slot(Last(m'), n), n) {
      assert Live(m, n) && Holds(m, Last(m), Slot(Last(m), n), n);
      TailMovedAt(m, q, m', l, n, Slot(Last(m), n));
    }
  }

  lemma TailMovedNested(m: Memory, q: nat, m': Memory)
    requires AllHeaders(m) && q < |Last(m).index| && m' == SetTail(m, q) && AllHeaders(m') && Nested(m)
    ensures Nested(m')
  {
    hide Cong, Divides;
    forall g | 0 <= g < |m'.headers| ensures Matches(m'.headers[g], Last(m')) {
      assert Matches(m.headers[g], Last(m));
    }
  }

  lemma TailMovedDistinct(h: Header, h': Header)
    requires Distinct(h) && h'.index == h.index
    ensures Distinct(h')
  {}

  lemma TailMovedWindow(m: Memory, q: nat, m': Memory)
    requires AllHeaders(m) && q < |Last(m).index| && m' == SetTail(m, q) && AllHeaders(m') && Window(m, false)
    ensures Window(m', false)
  {
    forall p: nat | p < |Last(m').index| ensures InWindow(At(m', Last(m'), p), |m'.storage|, |Last(m').index|, false) {
      assert InWindow(At(m, Last(m), p), |m.storage|, |Last(m).index|, false);
    }
  }

  lemma TailMovedReader(m: Memory, q: nat, m': Memory, r: Reader)
    requires AllHeaders(m) && q < |Last(m).index| && m' == SetTail(m, q) && AllHeaders(m') && ReaderOk(m, r)
    ensures ReaderOk(m', r)
  {
    hide Slot, Cong, HeaderOk, AllHeaders;
    if !r.RIdle? { LiveSame(m, m', r.n, r.hi); }
    if r.RTail? || r.RKey? || r.RAt? {
      forall n: nat | r.n <= n <= r.hi ensures Found(m', r.h, n) {
        assert Found(m, r.h, n);
        TailMovedAt(m, q, m', r.h, n, Slot(m.headers[r.h], n));
      }
      TailMovedAt(m, q, m', r.h, r.n, if r.RKey? then r.p else 0);
    }
  }

  lemma TailStored(s: State, s': State)
    requires Inv(s) && Typed(s) && s.prod.PStoreTail? && ProducerStep(s, s')
    ensures Inv(s')
  {
    hide Slot, Cong, HeaderOk, ReaderOk, IndexOk, Window;
    var m, m', q := s.m, s'.m, s.prod.q;
    IndexHeaders(m);
    TailMovedHeaders(m, q, m');
    OkAtLast(m, q);
    TailMovedIndex(m, q, m');
    TailMovedWindow(m, q, m');
    TailMovedAt(m, q, m', |m.headers| - 1, |m.storage|, q);
    forall t | 0 <= t < |s'.readers| ensures ReaderOk(m', s'.readers[t]) {
      TailMovedReader(m, q, m', s.readers[t]);
    }
  }

  lemma Rewound(s: State, s': State)
    requires Inv(s) && Typed(s) && s.prod.PRewind? && ProducerStep(s, s')
    ensures Inv(s')
  {
    hide Slot, Cong, HeaderOk, ReaderOk, IndexOk, Window;
    var m, m', q := s.m, s'.m, s.prod.q;
    var h, n := Last(m), |m.storage|;
    IndexHeaders(m);
    OkAtLast(m, q);
    PreviousSlotIs(h, n);
    var p := Slot(h, n - 1);
    TailMovedHeaders(m, p, m');
    LastKeyed(m);
    TailMovedIndex(m, p, m');
    TailMovedWindow(m, p, m');
    TailMovedAt(m, p, m', |m.headers| - 1, n, q);
    forall t | 0 <= t < |s'.readers| ensures ReaderOk(m', s'.readers[t]) {
      TailMovedReader(m, p, m', s.readers[t]);
    }
  }

  lemma LastKeyed(m: Memory)
    requires IndexOk(m)
    ensures |m.storage| >= 1 ==> At(m, Last(m), Slot(Last(m), |m.storage| - 1)).key.Some?
  {
    hide Slot, Cong, Matches, Distinct, HeaderOk, KeysFit;
  }

  // ---------------------------------------------------------------- publishing

  lemma Published(s: State, s': State)
    requires Inv(s) && Typed(s) && s.prod.PPublish? && ProducerStep(s, s')
    ensures Inv(s')
  {
    hide Slot, Cong, HeaderOk, ReaderOk, IndexOk, Window;
    var m, m', q := s.m, s'.m, s.prod.q;
    IndexHeaders(m);
    OkAtLast(m, q);
    assert Extended(m, s.prod.b, m');
    PublishedHeaders(m, s.prod.b, m');
    PublishedIndex(m, q, s.prod.b, m');
    PublishedWindow(m, q, m');
    assert Last(m') == Last(m);
    forall t | 0 <= t < |s'.readers| ensures ReaderOk(m', s'.readers[t]) {
      PublishedReader(m, m', s.readers[t]);
    }
  }

  ghost predicate Extended(m: Memory, b: Storage, m': Memory) { m' == m.(storage := m.storage + [b]) }

  lemma PublishedHeaders(m: Memory, b: Storage, m': Memory)
    requires AllHeaders(m) && Extended(m, b, m')
    ensures AllHeaders(m') && Last(m') == Last(m)
  {
    forall h | 0 <= h < |m'.headers| ensures HeaderOk(m', m'.headers[h]) { assert HeaderOk(m, m.headers[h]); }
  }

  lemma PublishedIndex(m: Memory, q: nat, b: Storage, m': Memory)
    requires IndexOk(m) && Extended(m, b, m') && q == Slot(Last(m), |m.storage|) == Last(m).tail
    requires At(m, Last(m), q) == Entry(Some(|m.storage|), Some(b))
    ensures IndexOk(m')
  {
    hide Slot, Cong, Distinct, Matches;
    PublishedHeaders(m, b, m');
    forall h: nat, p: nat | h < |m'.headers| && p < |m'.headers[h].index| ensures KeyFits(m', m'.headers[h], p) {
      assert KeyFits(m, m.headers[h], p);
    }
    forall h: nat | h < |m'.headers| ensures TailKeyed(m', m'.headers[h]) {
      assert |m.storage| >= 1 ==> TailKeyed(m, m.headers[h]);
    }
    forall n: nat | Live(m', n) ensures Holds(m', Last(m'), Slot(Last(m'), n), n) {
      assert n < |m.storage| ==> Live(m, n);
    }
  }

  lemma PublishedWindow(m: Memory, q: nat, m': Memory)
    requires IndexOk(m) && Window(m, false) && (exists b :: Extended(m, b, m')) && AllHeaders(m')
    requires q == Slot(Last(m), |m.storage|) && At(m, Last(m), q).key == Some(|m.storage|)
    ensures Window(m', true)
  {
    hide Slot, Cong, Distinct, Matches;
    var n, c := |m.storage|, |Last(m).index|;
    forall p: nat | p < |Last(m').index| ensures InWindow(At(m', Last(m'), p), |m'.storage|, |Last(m').index|, true) {
      assert InWindow(At(m, Last(m), p), n, c, false);
      OldestKey(m, p);
    }
  }

  /** A key one turn below the next block can only be in the slot of the next block. */
  lemma OldestKey(m: Memory, p: nat)
    requires IndexOk(m) && p < |Last(m).index|
    ensures At(m, Last(m), p).key.Some? && At(m, Last(m), p).key.value == |m.storage| - |Last(m).index| ==>
      p == Slot(Last(m), |m.storage|)
  {
    hide Slot, Cong, Distinct, Matches;
    var n, h := |m.storage|, Last(m);
    var c := |h.index|;
    if At(m, h, p).key.Some? && At(m, h, p).key.value == n - c {
      assert KeyFits(m, m.headers[|m.headers| - 1], p);
      CongSym(n - c, p + h.base, c);
      CongTurn(n - c, c);
      CongTrans(p + h.base, n - c, n, c);
      SlotUnique(h, n, p);
    }
  }

  lemma PublishedReader(m: Memory, m': Memory, r: Reader)
    requires AllHeaders(m) && AllHeaders(m') && ReaderOk(m, r) && exists b :: Extended(m, b, m')
    ensures ReaderOk(m', r)
  {
    hide Slot, Cong;
    if !r.RIdle? { LiveSame(m, m', r.n, r.hi); }
    if r.RTail? || r.RKey? || r.RAt? {
      forall n: nat | r.n <= n <= r.hi ensures Found(m', r.h, n) { assert Found(m, r.h, n); }
    }
  }

  // ---------------------------------------------------------------- doubling

  /** When the producer grows the index, slot `i` after the tail holds the block `i` places after the
      oldest one: exactly where the copy puts it. */
  lemma OldSlot(h: Header, n: nat, i: nat)
    requires i < |h.index| && Cong(h.tail + h.base, n - 1, |h.index|)
    ensures (h.tail + 1 + i) % |h.index| == Slot(h, n - |h.index| + i)
  {
    hide Slot, Cong;
    var c, x := |h.index|, h.tail + 1 + i;
    CongMod(x, c);
    CongShift(x % c, x, h.base, c);
    CongShift(h.tail + h.base, n - 1, 1 + i, c);
    assert h.tail + h.base + (1 + i) == x + h.base && n - 1 + (1 + i) == n + i;
    CongTurn(n + i, c);
    CongTrans(x + h.base, n + i, n + i - c, c);
    CongTrans(x % c + h.base, x + h.base, n - c + i, c);
    SlotUnique(h, n - c + i, x % c);
  }

  /** Nothing is left of a failed insertion when the index is full. */
  ghost predicate Crowded(m: Memory)
    requires AllHeaders(m)
  {
    var h, n := Last(m), |m.storage|;
    && Cong(h.tail + h.base, n - 1, |h.index|)
    && At(m, h, Slot(h, n)).key.Some? && At(m, h, Slot(h, n)).key.value != n
  }

  /** The key of slot `p`, if any, is determined. */
  lemma CrowdedKey(m: Memory, i: nat)
    requires IndexOk(m) && Window(m, true) && Crowded(m) && i < |Last(m).index|
    ensures var e := At(m, Last(m), Slot(Last(m), |m.storage| - |Last(m).index| + i));
            e.key.Some? ==> e.key.value == |m.storage| - |Last(m).index| + i
  {
    hide Slot, Cong, Matches, Distinct;
    var h, n := Last(m), |m.storage|;
    var c := |h.index|;
    var p := Slot(h, n - c + i);
    if At(m, h, p).key.Some? {
      var k := At(m, h, p).key.value;
      assert InWindow(At(m, h, p), n, c, true) && KeyFits(m, m.headers[|m.headers| - 1], p);
      CongTrans(k, p + h.base, n - c + i, c);
      if k == n {
        KeyPlace(m, n);
      } else {
        CongNear(k, n - c + i, c);
      }
    }
  }

  lemma DoubledHeaders(m: Memory, added: seq<Entry>, m': Memory)
    requires Doubling(m, added, m')
    ensures AllHeaders(m') && |m'.headers| == |m.headers| + 1 && |Last(m').index| == 2 * |Last(m).index|
    ensures forall h: nat :: h < |m.headers| ==> m'.headers[h] == m.headers[h] && HeaderOk(m, m.headers[h])
  {
    var h, h' := Last(m), Last(m');
    forall p | 0 <= p < |h'.index| ensures h'.index[p] < |m'.entries| {
      assert HeaderOk(m, h);
      CongMod(h.tail + 1 + p, |h.index|);
    }
    forall g | 0 <= g < |m'.headers| ensures HeaderOk(m', m'.headers[g]) {
      assert g < |m.headers| ==> HeaderOk(m, m.headers[g]);
    }
  }

  lemma OldEntry(m: Memory, added: seq<Entry>, m': Memory, g: nat, p: nat)
    requires Doubling(m, added, m') && AllHeaders(m') && g < |m.headers| && p < |m.headers[g].index|
    ensures HeaderOk(m, m.headers[g]) && HeaderOk(m', m.headers[g]) && At(m', m.headers[g], p) == At(m, m.headers[g], p)
  {}

  /** Slot `i` of the new header. */
  lemma NewEntry(m: Memory, added: seq<Entry>, m': Memory, i: nat)
    requires IndexOk(m) && Doubling(m, added, m') && AllHeaders(m') && i < 2 * |Last(m).index| == |Last(m').index|
    requires Cong(Last(m).tail + Last(m).base, |m.storage| - 1, |Last(m).index|)
    ensures var c := |Last(m).index|;
      if i < c then
        var p := Slot(Last(m), |m.storage| - c + i);
        Last(m').index[i] == Last(m).index[p] && At(m', Last(m'), i) == At(m, Last(m), p)
      else Last(m').index[i] == |m.entries| + (i - c) && At(m', Last(m'), i).key.None?
  {
    var c := |Last(m).index|;
    if i < c {
      OldSlot(Last(m), |m.storage|, i);
      hide Slot, IndexOk;
      OldEntry(m, added, m', |m.headers| - 1, Slot(Last(m), |m.storage| - c + i));
    }
  }

  lemma DoubledKeysFit(m: Memory, added: seq<Entry>, m': Memory)
    requires IndexOk(m) && Window(m, true) && Crowded(m) && Doubling(m, added, m') && AllHeaders(m')
    ensures KeysFit(m')
  {
    hide Slot, Cong, IndexOk, Doubling, Window;
    DoubledHeaders(m, added, m');
    IndexHeaders(m);
    var c := |Last(m).index|;
    forall g: nat, p: nat | g < |m'.headers| && p < |m'.headers[g].index| ensures KeyFits(m', m'.headers[g], p) {
      if g < |m.headers| {
        OldEntry(m, added, m', g, p);
        KeyFitsAt(m, g, p);
      } else {
        NewEntry(m, added, m', p);
        NewBase(m, added, m');
        if p < c { CrowdedKey(m, p); }
        CongTurn(p + Last(m').base, |Last(m').index|);
      }
    }
  }

  lemma KeyFitsAt(m: Memory, g: nat, p: nat)
    requires IndexOk(m) && g < |m.headers| && p < |m.headers[g].index|
    ensures KeyFits(m, m.headers[g], p)
  {
    hide Slot, Cong;
  }

  lemma NewBase(m: Memory, added: seq<Entry>, m': Memory)
    requires Doubling(m, added, m')
    ensures Last(m').base == |m.storage| - |Last(m).index| && Last(m').tail == |Last(m).index| - 1
    ensures m'.storage == m.storage && m'.released == m.released
  {}

  lemma DoubledDistinct(m: Memory, added: seq<Entry>, m': Memory)
    requires IndexOk(m) && Crowded(m) && Doubling(m, added, m') && AllHeaders(m')
    ensures Distinct(Last(m'))
  {
    hide Slot, Cong, IndexOk, Doubling;
    DoubledHeaders(m, added, m');
    IndexHeaders(m);
    var h, n := Last(m), |m.storage|;
    var c := |h.index|;
    forall i, j | 0 <= i < j < |Last(m').index| ensures Last(m').index[i] != Last(m').index[j] {
      NewEntry(m, added, m', i);
      NewEntry(m, added, m', j);
      if i < c {
        OkAtLast(m, Slot(h, n - c + i));
        if j < c {
          SlotInjective(h, n - c + i, n - c + j);
          DistinctLast(m, Slot(h, n - c + i), Slot(h, n - c + j));
        }
      }
    }
  }

  lemma SlotInjective(h: Header, a: int, b: int)
    requires |h.index| >= 1 && a < b < a + |h.index|
    ensures Slot(h, a) != Slot(h, b)
  {
    hide Slot, Cong;
    if Slot(h, a) == Slot(h, b) {
      var x := Slot(h, a) + h.base;
      CongSym(x, a, |h.index|);
      CongTrans(a, x, b, |h.index|);
      CongNear(a, b, |h.index|);
    }
  }

  lemma DistinctLast(m: Memory, p: nat, q: nat)
    requires IndexOk(m) && p < |Last(m).index| && q < |Last(m).index| && p != q
    ensures Last(m).index[p] != Last(m).index[q]
  {
    hide Slot, Cong, KeysFit, Nested, TailsKeyed, LiveFound;
    if q < p { assert Last(m).index[q] != Last(m).index[p]; }
  }

  lemma DoubledNested(m: Memory, added: seq<Entry>, m': Memory)
    requires IndexOk(m) && Crowded(m) && Doubling(m, added, m') && AllHeaders(m')
    ensures Nested(m')
  {
    hide Slot, Cong, IndexOk, Doubling, Divides, Distinct, Crowded;
    DoubledHeaders(m, added, m');
    IndexHeaders(m);
    forall g: nat | g < |m'.headers| ensures Matches(m'.headers[g], Last(m')) {
      if g < |m.headers| {
        MatchesAt(m, g);
        DividesDouble(|m.headers[g].index|, |Last(m).index|);
        forall p: nat, q: nat | p < |m.headers[g].index| && q < |Last(m').index| && m.headers[g].index[p] == Last(m').index[q]
          ensures Cong(p + m.headers[g].base, q + Last(m').base, |m.headers[g].index|)
        {
          DoubledMatch(m, added, m', g, p, q);
        }
      } else {
        DividesSelf(|Last(m').index|);
        DoubledDistinct(m, added, m');
        forall p: nat, q: nat | p < |Last(m').index| && q < |Last(m').index| && Last(m').index[p] == Last(m').index[q]
          ensures Cong(p + Last(m').base, q + Last(m').base, |Last(m').index|)
        {
          SameSlot(Last(m'), p, q);
          CongTurn(p + Last(m').base, |Last(m').index|);
        }
      }
    }
  }

  lemma SameSlot(h: Header, p: nat, q: nat)
    requires Distinct(h) && p < |h.index| && q < |h.index| && h.index[p] == h.index[q]
    ensures p == q
  {}

  lemma MatchesAt(m: Memory, g: nat)
    requires IndexOk(m) && g < |m.headers|
    ensures |m.headers[g].index| >= 1 && |Last(m).index| >= 1 && Matches(m.headers[g], Last(m)) && Divides(|m.headers[g].index|, |Last(m).index|)
  {
    hide Slot, Cong, KeysFit, Distinct, TailsKeyed, LiveFound;
  }

  lemma DoubledMatch(m: Memory, added: seq<Entry>, m': Memory, g: nat, p: nat, q: nat)
    requires IndexOk(m) && Crowded(m) && Doubling(m, added, m') && AllHeaders(m')
    requires g < |m.headers| && p < |m.headers[g].index| && q < |Last(m').index| && m.headers[g].index[p] == Last(m').index[q]
    ensures |m.headers[g].index| >= 1 && Cong(p + m.headers[g].base, q + Last(m').base, |m.headers[g].index|)
  {
    hide Slot, Cong, IndexOk, Doubling, Divides, Distinct, Matches;
    DoubledHeaders(m, added, m');
    NewBase(m, added, m');
    NewEntry(m, added, m', q);
    OldIds(m, g, p);
    var h, c := Last(m), |Last(m).index|;
    var n := |m.storage| - c + q;
    MatchesAt(m, g);
    MatchingSlots(m.headers[g], h, p, Slot(h, n), n);
    CongSym(n, p + m.headers[g].base, |m.headers[g].index|);
  }

  lemma OldIds(m: Memory, g: nat, p: nat)
    requires IndexOk(m) && g < |m.headers| && p < |m.headers[g].index|
    ensures m.headers[g].index[p] < |m.entries|
  {
    hide Slot, Cong, KeysFit, Distinct, TailsKeyed, LiveFound, Nested;
  }

  /** In the new header block `n` of the last turn has its number after the oldest as its slot. */
  lemma NewSlot(m: Memory, added: seq<Entry>, m': Memory, i: nat)
    requires Doubling(m, added, m') && AllHeaders(m') && i < |Last(m').index|
    ensures Slot(Last(m'), |m.storage| - |Last(m).index| + i) == i
  {
    hide Slot, Cong;
    NewBase(m, added, m');
    CongTurn(i + Last(m').base, |Last(m').index|);
    SlotUnique(Last(m'), |m.storage| - |Last(m).index| + i, i);
  }

  lemma CrowdedHasBlocks(m: Memory)
    requires IndexOk(m) && Window(m, true) && Crowded(m)
    ensures |m.storage| >= 1
  {
    hide Slot, Cong, IndexOk;
    IndexHeaders(m);
    assert InWindow(At(m, Last(m), Slot(Last(m), |m.storage|)), |m.storage|, |Last(m).index|, true);
  }

  lemma DoubledTails(m: Memory, added: seq<Entry>, m': Memory)
    requires IndexOk(m) && Window(m, true) && Crowded(m) && Doubling(m, added, m') && AllHeaders(m')
    ensures TailsKeyed(m')
  {
    hide Slot, Cong, IndexOk, Doubling, Window;
    CrowdedHasBlocks(m);
    IndexHeaders(m);
    DoubledHeaders(m, added, m');
    NewBase(m, added, m');
    LastKeyed(m);
    var c := |Last(m).index|;
    NewEntry(m, added, m', c - 1);
    NewSlot(m, added, m', c - 1);
    forall h: nat | h < |m'.headers| ensures TailKeyed(m', m'.headers[h]) {
      if h < |m.headers| {
        OldTailKeyed(m, h);
        OldEntry(m, added, m', h, m.headers[h].tail);
      }
    }
  }

  lemma OldTailKeyed(m: Memory, h: nat)
    requires IndexOk(m) && |m.storage| >= 1 && h < |m.headers|
    ensures m.headers[h].tail < |m.headers[h].index| && TailKeyed(m, m.headers[h])
  {
    hide Slot, Cong, KeysFit, Distinct, LiveFound, Nested;
  }

  lemma DoubledLive(m: Memory, added: seq<Entry>, m': Memory)
    requires IndexOk(m) && Window(m, true) && Crowded(m) && Doubling(m, added, m') && AllHeaders(m')
    ensures LiveFound(m')
  {
    hide Slot, Cong, IndexOk, Doubling, Window;
    IndexHeaders(m);
    DoubledHeaders(m, added, m');
    NewBase(m, added, m');
    var c := |Last(m).index|;
    forall n: nat | Live(m', n) ensures Holds(m', Last(m'), Slot(Last(m'), n), n) {
      LiveWindow(m, n);
      NewEntry(m, added, m', n - (|m.storage| - c));
      NewSlot(m, added, m', n - (|m.storage| - c));
    }
  }

  lemma LiveWindow(m: Memory, n: nat)
    requires IndexOk(m) && Window(m, true) && Live(m, n)
    ensures Holds(m, Last(m), Slot(Last(m), n), n) && |m.storage| - |Last(m).index| <= n < |m.storage|
  {
    hide Slot, Cong, KeysFit, Distinct, TailsKeyed, Nested;
    assert Holds(m, Last(m), Slot(Last(m), n), n);
    assert InWindow(At(m, Last(m), Slot(Last(m), n)), |m.storage|, |Last(m).index|, true);
  }

  lemma DoubledWindow(m: Memory, added: seq<Entry>, m': Memory)
    requires IndexOk(m) && Window(m, true) && Crowded(m) && Doubling(m, added, m') && AllHeaders(m')
    ensures Window(m', false)
  {
    hide Slot, Cong, IndexOk, Doubling;
    IndexHeaders(m);
    DoubledHeaders(m, added, m');
    NewBase(m, added, m');
    var c := |Last(m).index|;
    forall p: nat | p < |Last(m').index| ensures InWindow(At(m', Last(m'), p), |m'.storage|, |Last(m').index|, false) {
      NewEntry(m, added, m', p);
      if p < c {
        assert InWindow(At(m, Last(m), Slot(Last(m), |m.storage| - c + p)), |m.storage|, c, true);
      }
    }
  }

  lemma DoubledReader(m: Memory, added: seq<Entry>, m': Memory, r: Reader)
    requires IndexOk(m) && Doubling(m, added, m') && AllHeaders(m') && ReaderOk(m, r)
    ensures ReaderOk(m', r)
  {
    hide Slot, Cong, IndexOk, Doubling;
    IndexHeaders(m);
    DoubledHeaders(m, added, m');
    NewBase(m, added, m');
    if !r.RIdle? { LiveSame(m, m', r.n, r.hi); }
    if r.RTail? || r.RKey? || r.RAt? {
      forall n: nat | r.n <= n <= r.hi ensures Found(m', r.h, n) {
        assert Found(m, r.h, n);
        OldEntry(m, added, m', r.h, Slot(m.headers[r.h], n));
      }
      if r.RKey? { OldEntry(m, added, m', r.h, r.p); }
    }
  }

  /** After doubling the next slot is a new one, so the assertion on its key holds. */
  lemma DoubledNext(m: Memory, added: seq<Entry>, m': Memory)
    requires IndexOk(m) && Crowded(m) && Doubling(m, added, m') && AllHeaders(m')
    ensures ProdOk(m', PStoreKey(NextSlot(Last(m'))))
    ensures NextSlot(Last(m')) < |Last(m').index| && At(m', Last(m'), NextSlot(Last(m'))).key.None?
  {
    hide Slot, Cong, IndexOk, Doubling;
    IndexHeaders(m);
    DoubledHeaders(m, added, m');
    NewBase(m, added, m');
    var c := |Last(m).index|;
    CongTurn(|m.storage| - 1, |Last(m').index|);
    NextSlotIs(Last(m'), |m.storage|);
    NewEntry(m, added, m', c);
    NewSlot(m, added, m', c);
  }

  lemma Grew(s: State, added: seq<Entry>, s': State)
    requires Inv(s) && s.prod.PGrow? && Doubling(s.m, added, s'.m)
    requires s'.prod == PStoreKey(NextSlot(Last(s'.m))) && s'.readers == s.readers
    ensures Inv(s')
  {
    hide Slot, Cong, Doubling, IndexOk, Window, ReaderOk;
    var m, m' := s.m, s'.m;
    IndexHeaders(m);
    assert Crowded(m);
    DoubledHeaders(m, added, m');
    DoubledIndex(m, added, m');
    DoubledWindow(m, added, m');
    DoubledNext(m, added, m');
    forall t | 0 <= t < |s'.readers| ensures ReaderOk(m', s'.readers[t]) {
      DoubledReader(m, added, m', s.readers[t]);
    }
  }

  lemma DoubledIndex(m: Memory, added: seq<Entry>, m': Memory)
    requires IndexOk(m) && Window(m, true) && Crowded(m) && Doubling(m, added, m') && AllHeaders(m')
    ensures IndexOk(m')
  {
    hide Slot, Cong, Doubling, Window, KeysFit, Nested, Distinct, TailsKeyed, LiveFound;
    NewBase(m, added, m');
    DoubledKeysFit(m, added, m');
    DoubledNested(m, added, m');
    DoubledDistinct(m, added, m');
    DoubledTails(m, added, m');
    DoubledLive(m, added, m');
  }

  // ---------------------------------------------------------------- every step

  lemma InsertBegins(s: State, s': State)
    requires Inv(s) && Typed(s) && s.prod.PIdle? && ProducerStep(s, s')
    ensures Inv(s')
  {
    hide Slot, Cong, IndexOk, ReaderOk;
    IndexHeaders(s.m);
    var h := Last(s.m);
    NextSlotIs(h, |s.m.storage|);
    assert InWindow(At(s.m, h, NextSlot(h)), |s.m.storage|, |h.index|, true);
    WindowWeaker(s.m);
  }

  lemma WindowWeaker(m: Memory)
    requires AllHeaders(m) && Window(m, true)
    ensures Window(m, false)
  {
    forall p: nat | p < |Last(m).index| ensures InWindow(At(m, Last(m), p), |m.storage|, |Last(m).index|, false) {
      assert InWindow(At(m, Last(m), p), |m.storage|, |Last(m).index|, true);
    }
  }

  lemma ProducerKeeps(s: State, s': State)
    requires Inv(s) && Typed(s) && ProducerStep(s, s')
    ensures Inv(s')
  {
    hide Slot, Cong, IndexOk, ReaderOk, Window;
    IndexHeaders(s.m);
    match s.prod {
      case PIdle => InsertBegins(s, s');
      case PGrow =>
        if s'.m != s.m || s'.prod != PIdle {
          var added: seq<Entry> :| Doubling(s.m, added, s'.m);
          DoubledHeaders(s.m, added, s'.m);
          Grew(s, added, s');
        }
      case PStoreKey(_) => KeyStored(s, s');
      case PStoreTail(_) => TailStored(s, s');
      case PRequisition(_) =>
      case PStoreValue(_, _) => ValueStored(s, s');
      case PPublish(_, _) => Published(s, s');
      case PRewind(_) => Rewound(s, s');
      case PClear(_) => Cleared(s, s');
    }
  }

  lemma ConsumerKeeps(s: State, t: nat, s': State)
    requires Inv(s) && Typed(s) && t < |s.readers| && ConsumerStep(s, t, s')
    ensures Inv(s')
  {
    hide Slot, Cong, IndexOk, ReaderOk, Window, ProdOk;
    IndexHeaders(s.m);
    assert ReaderOk(s.m, s.readers[t]) && ReaderTyped(s.m, s.readers[t]);
    if s'.m == s.m && ReaderStep(s.m, s.readers[t], false, s.m, s'.readers[t]) {
      ReaderAdvances(s.m, s.readers[t], s'.readers[t]);
    } else {
      Released(s, t, s');
    }
  }

  lemma InvTyped(s: State)
    requires Inv(s)
    ensures Typed(s)
  {
    hide Slot, Cong, KeysFit, Nested, Window, TailsKeyed, LiveFound, Distinct;
    forall t | 0 <= t < |s.readers| ensures ReaderTyped(s.m, s.readers[t]) { assert ReaderOk(s.m, s.readers[t]); }
  }

  // ---------------------------------------------------------------- whole runs

  /** The constructor: one header without keys, its tail before slot 0, and no block. */
  ghost predicate Initial(s: State) {
    && |s.m.headers| == 1 && AllHeaders(s.m) && Distinct(Last(s.m))
    && Last(s.m).tail == |Last(s.m).index| - 1 && Last(s.m).base == 0
    && (forall e :: 0 <= e < |s.m.entries| ==> s.m.entries[e].key.None?)
    && s.m.storage == [] && s.m.released == {} && s.prod == PIdle
    && forall t :: 0 <= t < |s.readers| ==> s.readers[t] == RIdle
  }

  lemma InitialInv(s: State)
    requires Initial(s)
    ensures Inv(s)
  {
    var h := Last(s.m);
    assert Matches(h, h) by {
      DividesSelf(|h.index|);
      forall p: nat, q: nat | p < |h.index| && q < |h.index| && h.index[p] == h.index[q]
        ensures Cong(p + h.base, q + h.base, |h.index|)
      {
        SameSlot(h, p, q);
      }
    }
    CongTurn(-1, |h.index|);
    hide Slot, Cong, Matches, Distinct;
    assert forall g: nat, p: nat :: g < |s.m.headers| && p < |s.m.headers[g].index| ==> At(s.m, s.m.headers[g], p).key.None?;
    assert forall n: nat :: !Live(s.m, n);
  }

  ghost predicate Run(r: seq<State>) {
    |r| >= 1 && Initial(r[0]) && forall i: nat :: i + 1 < |r| ==> StepAt(r, i)
  }

  ghost predicate StepAt(r: seq<State>, i: nat)
    requires i + 1 < |r|
  {
    Step(r[i], r[i + 1])
  }

  lemma {:induction false} RunInvariant(r: seq<State>, i: nat)
    requires Run(r) && i < |r|
    ensures Inv(r[i]) && Typed(r[i])
  {
    hide Inv, Typed, Initial, ProducerStep, ConsumerStep;
    if i == 0 {
      InitialInv(r[0]);
    } else {
      RunInvariant(r, i - 1);
      var s, s' := r[i - 1], r[i];
      assert StepAt(r, i - 1);
      if ProducerStep(s, s') {
        ProducerKeeps(s, s');
      } else {
        var t: nat :| t < |s.readers| && ConsumerStep(s, t, s');
        ConsumerKeeps(s, t, s');
      }
    }
    InvTyped(r[i]);
  }

  /** Every lookup, through whatever header the consumer loaded and however the index has been filled,
      rewound, reused and doubled since, ends at the entry of its block: the key is the block's and
      the value is its storage. On the way the tail slot always has a key. */
  lemma LookupFindsBlock(r: seq<State>, i: nat, t: nat)
    requires Run(r) && i < |r| && t < |r[i].readers|
    ensures var m, rd := r[i].m, r[i].readers[t];
      && (rd.RKey? ==>
            && rd.h < |m.headers| && rd.p < |m.headers[rd.h].index| && m.headers[rd.h].index[rd.p] < |m.entries|
            && m.entries[m.headers[rd.h].index[rd.p]].key.Some?)
      && (rd.RAt? ==>
            && rd.h < |m.headers| && rd.p < |m.headers[rd.h].index| && m.headers[rd.h].index[rd.p] < |m.entries|
            && rd.n < |m.storage| && m.entries[m.headers[rd.h].index[rd.p]] == Entry(Some(rd.n), Some(m.storage[rd.n])))
  {
    RunInvariant(r, i);
    var m, rd := r[i].m, r[i].readers[t];
    assert ReaderOk(m, rd);
    hide Inv, Run, Typed;
    InvIndex(r[i]);
    if rd.RAt? { ReaderHolds(m, rd); }
    if rd.RKey? {
      hide Slot;
      OldIds(m, rd.h, rd.p);
    }
  }

  lemma InvIndex(s: State)
    requires Inv(s)
    ensures IndexOk(s.m) && AllHeaders(s.m)
  {}

  /** A live block is in one slot of the newest header, at most one turn behind the next block; an
      older header that still has the block's entry has the same entry there. */
  lemma LiveBlockHasOneEntry(r: seq<State>, i: nat, n: nat)
    requires Run(r) && i < |r| && Live(r[i].m, n)
    ensures var m := r[i].m;
      && AllHeaders(m)
      && (exists p: nat :: p < |Last(m).index| && At(m, Last(m), p) == Entry(Some(n), Some(m.storage[n])))
      && (forall p: nat, q: nat ::
            p < |Last(m).index| && q < |Last(m).index| && At(m, Last(m), p).key == Some(n) == At(m, Last(m), q).key ==> p == q)
  {
    RunInvariant(r, i);
    hide Inv, Run, Typed, Slot, Cong, Matches, Distinct;
    var m := r[i].m;
    InvIndex(r[i]);
    KeyPlace(m, n);
    assert Holds(m, Last(m), Slot(Last(m), n), n);
  }
}
