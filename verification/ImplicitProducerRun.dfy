/** What every run of an implicit producer guarantees. */
module ImplicitProducerRun {
  import opened Common
  import opened Chunks
  import opened ImplicitProducer
  import opened ImplicitProducerProof
  import Q = DequeueCounters
  import I = ImplicitIndex
  import IP = ImplicitIndexProof

  // ---------------------------------------------------------------- what is delivered

  lemma DeliversItems(s: State, t: nat, e: Event, s': State)
    requires Inv(s) && Typed(s) && t < |s.work| && WorkMoves(s, t, e, s') && e.Delivered?
    ensures e.first + |e.out| <= s.d.c.head <= |s.d.items| && e.out == s.d.items[e.first..e.first + |e.out|] && |e.out| > 0
  {
    hide Core, Chunk, Off, PlaceOk, Apart, I.Typed, Q.TicketsInRange;
    assert WorkOk(s.x, s.d, s.work[t], s.x.readers[t]);
  }

  lemma EventOf(s: State, e: Event, s': State)
    requires Inv(s) && Step(s, e, s') && e.Delivered?
    ensures Typed(s) && exists t: nat :: t < |s.work| && WorkMoves(s, t, e, s')
  {
    hide Inv, Typed, WorkMoves;
    if ProducerStep(s, e, s') { ProducerGrows(s, e, s'); }
  }

  /** A dequeue that claimed the indices from `first` on hands out exactly the items enqueued under those
      indices, in order, although blocks come and go and their memory is used again meanwhile. */
  lemma DeliversWhatWasEnqueued(r: seq<State>, ev: seq<Event>, i: nat)
    requires Run(r, ev) && i < |ev| && ev[i].Delivered?
    ensures var e, items := ev[i], r[i].d.items;
            0 < |e.out| && e.first + |e.out| <= |items| && e.out == items[e.first..e.first + |e.out|]
  {
    hide Inv, Typed, WorkMoves, Step, Initial;
    RunInvariant(r, ev, i);
    var s, e, s' := r[i], ev[i], r[i + 1];
    assert Step(s, e, s');
    hide Run;
    EventOf(s, e, s');
    var t: nat :| t < |s.work| && WorkMoves(s, t, e, s');
    DeliversItems(s, t, e, s');
  }

  lemma StepAppends(s: State, e: Event, s': State)
    requires Step(s, e, s')
    ensures s'.d.items == if e.Enqueued? then s.d.items + [e.x] else s.d.items
  {
    hide Chunk, Off, I.Typed, Q.TicketsInRange, Q.Step, I.At, I.ReaderStep, I.Release, I.Onward, InsertStep;
    if ProducerStep(s, e, s') {
      ProducerGrows(s, e, s');
    }
  }

  /** An index means the same item ever after. */
  lemma {:induction false} ItemsAppendOnly(r: seq<State>, ev: seq<Event>, i: nat, j: nat)
    requires Run(r, ev) && i <= j < |r|
    ensures r[i].d.items <= r[j].d.items
  {
    hide Step, Initial;
    if i < j {
      ItemsAppendOnly(r, ev, i, j - 1);
      assert Step(r[j - 1], ev[j - 1], r[j]);
      StepAppends(r[j - 1], ev[j - 1], r[j]);
    }
  }

  /** What consumer `t` is about to do is defined: the tail slot of whatever header it loaded has a key, the
      entry it is led to has its block's memory, the cell has its item, and counting does not exceed the block. */
  ghost predicate Ready(s: State, t: nat)
    requires Typed(s) && t < |s.work|
  {
    var x, d, w, q := s.x, s.d, s.work[t], s.x.readers[t];
    && (q.RKey? ==> I.At(x.m, x.m.headers[q.h], q.p).key.Some?)
    && (w.WFind? && q.RAt? ==>
          q.n == Chunk(w.i) < |x.m.storage| && I.At(x.m, x.m.headers[q.h], q.p) == I.Entry(Some(q.n), Some(x.m.storage[q.n])))
    && (w.WTake? ==> w.i < |d.items| && d.blocks[w.b].cells[Off(w.i)] == Full(d.items[w.i]))
    && (w.WCount? ==> d.blocks[w.b].dequeued + (w.i - w.from) <= BLOCK_SIZE)
  }

  lemma InvReady(s: State, t: nat)
    requires Inv(s) && Typed(s) && t < |s.work|
    ensures Ready(s, t)
  {
    hide Core, Chunk, Off, I.Typed, Q.TicketsInRange, ClaimOk, Apart, I.Inv, AllCounted;
    var w, q := s.work[t], s.x.readers[t];
    assert WorkOk(s.x, s.d, w, q);
    CoreParts(s.x, s.d);
    IndexReader(s.x, t);
    if w.WTake? { TakesItsItem(s.x, s.d, w, q); }
    if w.WCount? { CompletesBlock(s.x, s.d, w, q); }
  }

  /** So a consumer that has a claim can always go on. */
  lemma CanMove(s: State, t: nat) returns (e: Event, s': State)
    requires Inv(s) && Typed(s) && t < |s.work| && !s.work[t].WIdle? && Ready(s, t)
    ensures WorkMoves(s, t, e, s')
  {
    hide Core, Chunk, Off, ClaimOk, Apart, AllCounted, Q.TicketsInRange, I.Onward, I.Release, I.At;
    var x, d, w, q := s.x, s.d, s.work[t], s.x.readers[t];
    TypedHeaders(x);
    assert WorkOk(x, d, w, q);
    e, s' := Silent, s;
    match w {
      case WFind(first, len, i, out) =>
        if q.RAt? {
          s' := s.(work := s.work[t := WTake(first, len, i, out, x.m.storage[q.n], i)]);
        } else {
          var q' := LookupMove(x.m, q);
          s' := s.(x := SetReader(x, t, q'));
        }
      case WTake(_, _, i, _, b, _) =>
        s' := s.(d := TakenFrom(d, w), work := s.work[t := AfterTake(w, d.items[i])]);
      case WCount(first, len, i, out, b, _) =>
        if CountedIn(d, w).blocks[b].dequeued == BLOCK_SIZE {
          s' := s.(d := CountedIn(d, w), work := s.work[t := WErase(first, len, i, out, b)]);
        } else {
          e := NextEvent(first, len, i, out);
          s' := State(SetReader(x, t, I.Onward(x.m, q)), CountedIn(d, w), s.work[t := NextWork(first, len, i, out)]);
        }
      case WErase(first, len, i, out, b) =>
        s' := s.(x := SetReader(x, t, I.Onward(x.m, q)).(m := I.Release(x.m, x.m.headers[q.h], q.p, q.n)),
                 work := s.work[t := WFree(first, len, i, out, b, q.n)]);
      case WFree(first, len, i, out, _, _) =>
        e := NextEvent(first, len, i, out);
        s' := s.(d := Freed(d, w), work := s.work[t := NextWork(first, len, i, out)]);
    }
  }

  lemma LookupMove(m: I.Memory, q: I.Reader) returns (q': I.Reader)
    requires I.AllHeaders(m) && I.ReaderTyped(m, q) && !q.RIdle? && !q.RAt?
    requires q.RKey? ==> I.At(m, m.headers[q.h], q.p).key.Some?
    ensures I.ReaderStep(m, q, false, m, q')
  {
    match q {
      case RHeader(n, hi) => q' := I.RTail(n, hi, |m.headers| - 1);
      case RTail(n, hi, h) => q' := I.RKey(n, hi, h, m.headers[h].tail);
      case RKey(n, hi, h, p) =>
        q' := I.RAt(n, hi, h, (p + n - I.At(m, m.headers[h], p).key.value) % |m.headers[h].index|);
    }
  }

  /** A consumer with a claim never follows a stale pointer and is never blocked. */
  lemma ConsumersNeverStuck(r: seq<State>, ev: seq<Event>, i: nat, t: nat)
    requires Run(r, ev) && i < |r| && t < |r[i].work|
    ensures Typed(r[i]) && Ready(r[i], t)
    ensures !r[i].work[t].WIdle? ==> exists e, s' :: WorkMoves(r[i], t, e, s')
  {
    hide Inv, Typed, Ready, WorkMoves;
    RunInvariant(r, ev, i);
    InvTyped(r[i]);
    InvReady(r[i], t);
    if !r[i].work[t].WIdle? { var e, s' := CanMove(r[i], t); }
  }

  // ---------------------------------------------------------------- the index

  lemma IndexOfWork(s: State, t: nat, e: Event, s': State)
    requires Inv(s) && Typed(s) && t < |s.work| && WorkMoves(s, t, e, s')
    ensures s'.x == s.x || I.ConsumerStep(s.x, t, s'.x)
  {
    hide Core, Chunk, Off, I.Typed, Q.TicketsInRange, WorkOk, Apart, I.Inv, I.At, I.Alone, I.Onward, I.Release, I.AllLive;
    TypedHeaders(s.x);
    CoreParts(s.x, s.d);
    match s.work[t] {
      case WFind(_, _, _, _) =>
      case WTake(_, _, _, _, _, _) =>
      case WCount(_, _, _, _, _, _) => if s'.x != s.x { OnwardIndex(s.x, t); }
      case WErase(_, _, _, _, _) => EraseIndex(s, t, s');
      case WFree(_, _, _, _, _, _) =>
    }
  }

  lemma IndexOfClaim(s: State, qe: Q.Event, s': State)
    requires Inv(s) && Typed(s) && CounterMoves(s, qe, s')
    ensures s'.x == s.x || (qe.Claimed? && qe.t < |s.x.readers| && I.ConsumerStep(s.x, qe.t, s'.x))
  {
    hide WorkOk, Has, Finishing, Q.Inv, Q.Step, Chunk, Off, PhaseOk, HeldOk, DataOk, I.Inv, I.Typed, I.ConsumerStep, Apart;
    var x, d, d' := s.x, s.d, s'.d;
    CounterCore(x, d, qe, d'.c);
    Q.StepMonotone(d.c, qe, d'.c);
    QFacts(d);
    QFacts(d');
    DataFacts(x, d);
    if qe.Claimed? {
      var t, first, len := qe.t, qe.c.first, qe.c.len;
      assert WorkOk(x, d, s.work[t], x.readers[t]);
      IdleWork(x, d, s.work[t], x.readers[t]);
      ClaimIsLive(x, d', first, len);
      ClaimIndex(x, t, Chunk(first), Chunk(first + len - 1));
    }
  }

  /** What happens to the index in a run of the whole is a run of the index by itself: a consumer comes
      only with blocks that are in the index, and takes a block out only when no other has to do with it. */
  lemma IndexRefined(r: seq<State>, ev: seq<Event>, i: nat)
    requires Run(r, ev) && i < |ev|
    ensures IP.Initial(r[0].x) && (r[i + 1].x == r[i].x || I.Step(r[i].x, r[i + 1].x))
  {
    RunInvariant(r, ev, i);
    var s, e, s' := r[i], ev[i], r[i + 1];
    assert Step(s, e, s');
    assert I.Typed(s.x);
    hide Inv, Typed, CounterMoves, WorkMoves, OthersMove, I.Typed, I.ConsumerStep, I.ProducerStep;
    if ProducerStep(s, e, s') {
      hide IP.Initial;
    } else if exists qe: Q.Event :: CounterMoves(s, qe, s') && e == Shown(qe) {
      hide ProducerStep;
      var qe: Q.Event :| CounterMoves(s, qe, s') && e == Shown(qe);
      IndexOfClaim(s, qe, s');
    } else if exists t: nat :: t < |s.work| && WorkMoves(s, t, e, s') {
      hide ProducerStep;
      var t: nat :| t < |s.work| && WorkMoves(s, t, e, s');
      IndexOfWork(s, t, e, s');
      WorkCount(s);
    } else {
      OthersIndex(s, s');
    }
  }

  lemma WorkCount(s: State)
    requires Typed(s)
    ensures |s.work| == |s.x.readers|
  {}

  lemma OthersIndex(s: State, s': State)
    requires OthersMove(s, s')
    ensures s'.x == s.x
  {}

  // ---------------------------------------------------------------- exactly once

  predicate Covers(e: Event, k: nat) { e.Delivered? && e.first <= k < e.first + |e.out| }

  predicate Busy(s: State, k: nat) { exists t :: 0 <= t < |s.work| && Has(s.work[t], k) }

  /** Index `k` has been claimed, its element counted, and the call that did so has returned. */
  predicate Done(s: State, k: nat) { k in s.d.counted && !Busy(s, k) }

  /** What one step of a consumer does to its claim, to the count and to the outside. */
  predicate Effect(w: Work, e: Event, w': Work, counted: set<nat>, counted': set<nat>)
    requires !w.WIdle?
  {
    && counted' == (if w.WCount? then counted + Range(w.from, w.i) else counted)
    && if w'.WIdle? then w.i == w.first + w.len && e == Delivered(w.first, w.out) && !w.WTake?
       else e == Silent && w'.first == w.first && w'.len == w.len
  }

  lemma WorkEffect(s: State, t: nat, e: Event, s': State)
    requires Typed(s) && t < |s.work| && WorkMoves(s, t, e, s')
    ensures |s'.work| == |s.work| && s'.work == s.work[t := s'.work[t]] && s'.d.c == s.d.c
    ensures !s.work[t].WIdle? && Effect(s.work[t], e, s'.work[t], s.d.counted, s'.d.counted)
  {
    hide Chunk, Off, I.Typed, Q.TicketsInRange, I.At, I.ReaderStep, I.Release, I.Onward, I.HeaderOk;
  }

  lemma EffectOnIndex(d: Data, w: Work, e: Event, w': Work, counted': set<nat>, k: nat)
    requires !w.WIdle? && ClaimOk(d, w) && Effect(w, e, w', d.counted, counted')
    ensures Has(w', k) ==> Has(w, k)
    ensures Has(w, k) && !Has(w', k) <==> Covers(e, k)
    ensures Covers(e, k) ==> k in counted'
    ensures k in d.counted ==> k in counted'
    ensures k in counted' && k !in d.counted ==> Has(w, k) && From(w) <= k
  {}

  lemma WorkBusy(s: State, t: nat, e: Event, s': State, k: nat)
    requires Inv(s) && Typed(s) && t < |s.work| && WorkMoves(s, t, e, s')
    ensures |s'.work| == |s.work| && s'.work == s.work[t := s'.work[t]] && s'.d.c == s.d.c
    ensures Has(s'.work[t], k) ==> Has(s.work[t], k)
    ensures Has(s.work[t], k) && !Has(s'.work[t], k) <==> Covers(e, k)
    ensures Covers(e, k) ==> k in s'.d.counted
    ensures k in s.d.counted ==> k in s'.d.counted
    ensures k in s'.d.counted && k !in s.d.counted ==> Has(s.work[t], k)
  {
    WorkEffect(s, t, e, s');
    hide WorkMoves, Typed, Core, Apart, Covers, Effect, PlaceOk, ClaimOk, Has;
    assert WorkOk(s.x, s.d, s.work[t], s.x.readers[t]);
    EffectOnIndex(s.d, s.work[t], e, s'.work[t], s'.d.counted, k);
  }

  /** Indices come to a consumer by a claim and leave it by a delivery, in no other way. */
  ghost predicate BusyMoves(s: State, e: Event, s': State, k: nat) {
    && (Busy(s, k) && !Busy(s', k) ==> Covers(e, k))
    && (Covers(e, k) ==> Busy(s, k) && !Busy(s', k) && k in s'.d.counted)
    && (!Busy(s, k) ==> (Busy(s', k) <==> s.d.c.head <= k < s'.d.c.head))
    && (k in s.d.counted ==> k in s'.d.counted)
    && (k in s'.d.counted && k !in s.d.counted ==> Busy(s, k))
  }

  lemma BusyOfWork(s: State, t: nat, e: Event, s': State, k: nat)
    requires Inv(s) && Typed(s) && t < |s.work| && WorkMoves(s, t, e, s')
    ensures BusyMoves(s, e, s', k)
  {
    WorkBusy(s, t, e, s', k);
    hide Core, WorkOk, Typed, WorkMoves, Has, Covers, Finishing;
    forall u | 0 <= u < |s.work| && u != t ensures s'.work[u] == s.work[u] && !(Has(s.work[u], k) && Has(s.work[t], k)) {
      assert u < t || t < u;
    }
  }

  lemma BusyOfClaim(s: State, qe: Q.Event, s': State, k: nat)
    requires Inv(s) && Typed(s) && CounterMoves(s, qe, s')
    ensures BusyMoves(s, Shown(qe), s', k)
  {
    hide WorkOk, Q.Inv, Q.Step, Chunk, Off, PhaseOk, HeldOk, DataOk, I.Inv, I.Typed, Apart, Finishing;
    Q.StepMonotone(s.d.c, qe, s'.d.c);
    QFacts(s.d);
    assert forall t :: 0 <= t < |s.work| && !(qe.Claimed? && qe.t == t) ==> s'.work[t] == s.work[t];
    if qe.Claimed? {
      assert s.work[qe.t].WIdle?;
      assert s'.work[qe.t] == WFind(qe.c.first, qe.c.len, qe.c.first, []);
    }
  }

  lemma BusyStep(s: State, e: Event, s': State, k: nat)
    requires Inv(s) && Step(s, e, s')
    ensures BusyMoves(s, e, s', k)
  {
    hide Inv, Typed, CounterMoves, WorkMoves, ProducerStep, Has;
    if ProducerStep(s, e, s') {
      ProducerGrows(s, e, s');
      SameWork(s, e, s');
    } else if exists qe: Q.Event :: CounterMoves(s, qe, s') && e == Shown(qe) {
      hide BusyMoves;
      var qe: Q.Event :| CounterMoves(s, qe, s') && e == Shown(qe);
      BusyOfClaim(s, qe, s', k);
    } else if exists t: nat :: t < |s.work| && WorkMoves(s, t, e, s') {
      hide BusyMoves;
      var t: nat :| t < |s.work| && WorkMoves(s, t, e, s');
      BusyOfWork(s, t, e, s', k);
    }
  }

  lemma SameWork(s: State, e: Event, s': State)
    requires Typed(s) && ProducerStep(s, e, s')
    ensures s'.work == s.work
  {}

  lemma {:induction false} DoneForever(r: seq<State>, ev: seq<Event>, i: nat, j: nat, k: nat)
    requires Run(r, ev) && i <= j < |r| && Done(r[i], k)
    ensures Done(r[j], k) && forall n :: i <= n < j ==> !Covers(ev[n], k)
    decreases j - i
  {
    hide Inv, Step, Busy, Initial;
    if i < j {
      RunInvariant(r, ev, i);
      CountedBelowHead(r[i], k);
      assert Step(r[i], ev[i], r[i + 1]);
      BusyStep(r[i], ev[i], r[i + 1], k);
      DoneForever(r, ev, i + 1, j, k);
    }
  }

  lemma CountedBelowHead(s: State, k: nat)
    requires Inv(s) && k in s.d.counted
    ensures k < s.d.c.head
  {}

  /** No index is delivered twice. */
  lemma DeliveredOnce(r: seq<State>, ev: seq<Event>, i: nat, j: nat, k: nat)
    requires Run(r, ev) && i < j < |ev| && Covers(ev[i], k)
    ensures !Covers(ev[j], k)
  {
    hide Inv, Step, Initial, Busy;
    RunInvariant(r, ev, i);
    assert Step(r[i], ev[i], r[i + 1]);
    BusyStep(r[i], ev[i], r[i + 1], k);
    DoneForever(r, ev, i + 1, j + 1, k);
  }

  /** Every claimed index is with a consumer or has been delivered. */
  lemma {:induction false} ClaimedIsAccountedFor(r: seq<State>, ev: seq<Event>, i: nat, k: nat)
    requires Run(r, ev) && i < |r| && k < r[i].d.c.head
    ensures Busy(r[i], k) || exists n :: 0 <= n < i && Covers(ev[n], k)
  {
    hide Inv, Step, Busy;
    if i > 0 {
      RunInvariant(r, ev, i - 1);
      assert Step(r[i - 1], ev[i - 1], r[i]);
      BusyStep(r[i - 1], ev[i - 1], r[i], k);
      if k < r[i - 1].d.c.head { ClaimedIsAccountedFor(r, ev, i - 1, k); }
      assert Covers(ev[i - 1], k) ==> exists n :: 0 <= n < i && Covers(ev[n], k);
    }
  }

  predicate AtRest(s: State) { forall t :: 0 <= t < |s.work| ==> s.work[t].WIdle? }

  /** Whenever no dequeue is in progress, the indices below the head have been delivered, each exactly
      once, and none above. */
  lemma ExactlyOnceAtRest(r: seq<State>, ev: seq<Event>, i: nat, k: nat)
    requires Run(r, ev) && i < |r| && AtRest(r[i])
    ensures k < r[i].d.c.head <==> exists n :: 0 <= n < i && Covers(ev[n], k)
    ensures forall m, n :: 0 <= m < n < i && Covers(ev[m], k) ==> !Covers(ev[n], k)
    ensures k < r[i].d.c.head <==> k in r[i].d.counted
  {
    hide Inv, Step, Initial, Covers;
    RunInvariant(r, ev, i);
    if k < r[i].d.c.head { ClaimedIsAccountedFor(r, ev, i, k); }
    if k in r[i].d.counted { CountedBelowHead(r[i], k); }
    forall n | 0 <= n < i && Covers(ev[n], k) ensures k < r[i].d.c.head && k in r[i].d.counted {
      RunInvariant(r, ev, n);
      assert Step(r[n], ev[n], r[n + 1]);
      BusyStep(r[n], ev[n], r[n + 1], k);
      DoneForever(r, ev, n + 1, i, k);
      CountedBelowHead(r[i], k);
    }
    forall m, n | 0 <= m < n < i && Covers(ev[m], k) ensures !Covers(ev[n], k) { DeliveredOnce(r, ev, m, n, k); }
  }

  // ---------------------------------------------------------------- memory

  /** All elements of block `n` are counted and its memory is not given back. */
  ghost predicate Complete(s: State, n: nat) { Held(s.x, s.d, n) && AllCounted(s.d, n) }

  predicate HasFinisher(s: State, n: nat) {
    exists t :: 0 <= t < |s.work| && t < |s.x.readers| && Finishing(s.work[t], s.x.readers[t], n)
  }

  lemma CompleteByProducer(s: State, e: Event, s': State, n: nat)
    requires Inv(s) && Typed(s) && ProducerStep(s, e, s') && Complete(s', n)
    ensures Complete(s, n) && (HasFinisher(s, n) ==> HasFinisher(s', n))
  {
    hide ProducerStep, Typed, Inv, Chunk, Finishing;
    ProducerGrows(s, e, s');
    SameWork(s, e, s');
    assert AllCounted(s.d, n);
    if n >= |s.x.m.storage| { CountedIsPublished(s, n); }
  }

  lemma CountedIsPublished(s: State, n: nat)
    requires Inv(s) && AllCounted(s.d, n)
    ensures n < |s.x.m.storage|
  {
    hide I.Inv, Q.Inv, HeldOk, WorkersOk, Apart, Chunk;
    assert Q.Inv(s.d.c);
    QFacts(s.d);
    BaseIsStart(n, 0);
    assert Base(n) in s.d.counted;
    PublishedChunk(s.x, s.d, Base(n));
  }

  lemma CompleteByClaim(s: State, qe: Q.Event, s': State, n: nat)
    requires Inv(s) && Typed(s) && CounterMoves(s, qe, s') && Complete(s', n)
    ensures Complete(s, n) && (HasFinisher(s, n) ==> HasFinisher(s', n))
  {
    hide WorkOk, Q.Inv, Q.Step, Chunk, Core, I.Typed, Apart;
    assert AllCounted(s.d, n);
    assert Q.Inv(s.d.c) by { CoreParts(s.x, s.d); }
    Q.StepMonotone(s.d.c, qe, s'.d.c);
    if HasFinisher(s, n) {
      var t :| 0 <= t < |s.work| && Finishing(s.work[t], s.x.readers[t], n);
      assert Finishing(s'.work[t], s'.x.readers[t], n);
    }
  }

  /** A step that counts nothing: whoever was to finish the block still is. */
  lemma CompleteByOther(s: State, t: nat, e: Event, s': State, n: nat)
    requires Typed(s) && t < |s.work| && WorkMoves(s, t, e, s') && !s.work[t].WCount? && Complete(s', n)
    ensures Complete(s, n) && (HasFinisher(s, n) ==> HasFinisher(s', n))
  {
    hide Chunk, Off, I.Typed, Q.TicketsInRange, I.At, I.ReaderStep, I.HeaderOk, I.Onward;
    assert AllCounted(s.d, n);
    if HasFinisher(s, n) {
      var u :| 0 <= u < |s.work| && Finishing(s.work[u], s.x.readers[u], n);
      assert Finishing(s'.work[u], s'.x.readers[u], n);
    }
  }

  /** Only a count that goes up to BLOCK_SIZE completes a block. */
  lemma CountCompletes(x: I.State, d: Data, w: Work, r: I.Reader, n: nat)
    requires Core(x, d) && WorkOk(x, d, w, r) && w.WCount? && BlockTyped(d, w.b) && w.from < w.i
    requires Held(x, d, n) && AllCounted(CountedIn(d, w), n) && !AllCounted(d, n)
    ensures r.RAt? && r.n == n && CountedIn(d, w).blocks[w.b].dequeued == BLOCK_SIZE
  {
    hide Core, WorkOk, Chunk, AllCounted;
    CountFacts(x, d, w, r);
    CountCore(x, d, w, r);
    if n != Chunk(w.from) { OtherBlocks(d, w, n); }
    CountedBlock(x, CountedIn(d, w), n);
  }

  lemma OtherBlocks(d: Data, w: Work, n: nat)
    requires w.WCount? && BlockTyped(d, w.b) && w.from < w.i && Chunk(w.from) == Chunk(w.i - 1) && n != Chunk(w.from)
    ensures AllCounted(CountedIn(d, w), n) ==> AllCounted(d, n)
  {
    hide Chunk;
    forall i: nat | Chunk(i) == n && i in CountedIn(d, w).counted ensures i in d.counted {
      if w.from <= i < w.i { SameChunk(w.from, w.i, i); }
    }
  }

  lemma CountedBlock(x: I.State, d: Data, n: nat)
    requires Core(x, d) && Held(x, d, n)
    ensures BlockTyped(d, x.m.storage[n]) && (AllCounted(d, n) <==> d.blocks[x.m.storage[n]].dequeued == BLOCK_SIZE)
  {
    hide I.Inv, Q.Inv, PhaseOk, DataOk, Chunk, InChunk, AllCounted;
    FullCount(d, n);
    assert BlockOk(x, d, n);
  }

  lemma CompleteByCount(s: State, t: nat, e: Event, s': State, n: nat)
    requires Inv(s) && Typed(s) && t < |s.work| && WorkMoves(s, t, e, s') && s.work[t].WCount? && Complete(s', n)
    requires Complete(s, n) ==> HasFinisher(s, n)
    ensures HasFinisher(s', n)
  {
    hide Core, WorkOk, Chunk, Off, I.Typed, Q.TicketsInRange, I.Onward, AllCounted, Apart;
    if AllCounted(s.d, n) {
      var u :| 0 <= u < |s.work| && Finishing(s.work[u], s.x.readers[u], n);
      assert Finishing(s'.work[u], s'.x.readers[u], n);
    } else {
      CountCompletes(s.x, s.d, s.work[t], s.x.readers[t], n);
      assert Finishing(s'.work[t], s'.x.readers[t], n);
    }
  }

  lemma CompleteStep(s: State, e: Event, s': State, n: nat)
    requires Inv(s) && Step(s, e, s') && Complete(s', n)
    requires Complete(s, n) ==> HasFinisher(s, n)
    ensures HasFinisher(s', n)
  {
    hide Inv, Typed, CounterMoves, WorkMoves, ProducerStep, HasFinisher;
    if ProducerStep(s, e, s') {
      hide Complete;
      CompleteByProducer(s, e, s', n);
    } else if exists qe: Q.Event :: CounterMoves(s, qe, s') && e == Shown(qe) {
      hide Complete;
      var qe: Q.Event :| CounterMoves(s, qe, s') && e == Shown(qe);
      CompleteByClaim(s, qe, s', n);
    } else if exists t: nat :: t < |s.work| && WorkMoves(s, t, e, s') {
      hide Complete;
      var t: nat :| t < |s.work| && WorkMoves(s, t, e, s');
      if s.work[t].WCount? { CompleteByCount(s, t, e, s', n); } else { CompleteByOther(s, t, e, s', n); }
    } else {
      CompleteByRest(s, s', n);
    }
  }

  lemma CompleteByRest(s: State, s': State, n: nat)
    requires OthersMove(s, s') && Complete(s', n)
    ensures Complete(s, n) && (HasFinisher(s, n) ==> HasFinisher(s', n))
  {
    hide Chunk, Finishing;
    assert AllCounted(s.d, n);
  }

  /** A block with all its elements counted is given back already, or some consumer is about to do so. */
  lemma {:induction false} CompletedIsFinished(r: seq<State>, ev: seq<Event>, i: nat, n: nat)
    requires Run(r, ev) && i < |r| && Complete(r[i], n)
    ensures HasFinisher(r[i], n)
  {
    hide Inv, Step, HasFinisher;
    if i > 0 {
      hide Complete, Initial;
      RunInvariant(r, ev, i - 1);
      if Complete(r[i - 1], n) { CompletedIsFinished(r, ev, i - 1, n); }
      assert Step(r[i - 1], ev[i - 1], r[i]);
      CompleteStep(r[i - 1], ev[i - 1], r[i], n);
    }
  }

  /** The memory `b` belongs to a block that is published, or about to be. */
  ghost predicate Owned(s: State, b: I.Storage) {
    Coming(s.x, b) || exists n: nat :: Held(s.x, s.d, n) && s.x.m.storage[n] == b
  }

  lemma OwnedByProducer(s: State, e: Event, s': State, b: I.Storage)
    requires Inv(s) && Typed(s) && ProducerStep(s, e, s') && b in s'.d.mine
    requires b in s.d.mine ==> Owned(s, b)
    ensures Owned(s', b)
  {
    ProducerGrows(s, e, s');
    if exists n: nat :: Held(s.x, s.d, n) && s.x.m.storage[n] == b {
      hide ProducerStep, Typed, Inv;
      var n: nat :| Held(s.x, s.d, n) && s.x.m.storage[n] == b;
      assert Held(s'.x, s'.d, n) && s'.x.m.storage[n] == b;
    } else {
      OwnedComing(s, e, s', b);
    }
  }

  lemma OwnedComing(s: State, e: Event, s': State, b: I.Storage)
    requires Inv(s) && Typed(s) && ProducerStep(s, e, s') && b in s'.d.mine
    requires b in s.d.mine ==> Coming(s.x, b)
    ensures Owned(s', b)
  {
    var n := |s.x.m.storage|;
    if n in s.d.freed { FreedInRange(s, n); }
    PhaseFacts(s);
    hide Inv, I.Typed, Q.TicketsInRange, Chunk, Off, WorkTyped, I.At, I.Free, I.NextSlot;
    if s.d.prod.PTail? && s.x.prod.PPublish? {
      assert Held(s'.x, s'.d, n) && s'.x.m.storage[n] == s.x.prod.b;
    }
  }

  lemma PhaseFacts(s: State)
    requires Inv(s)
    ensures s.d.prod.PIdle? || s.d.prod.PCheck? ==> s.x.prod.PIdle?
    ensures s.d.prod.PInsert? ==> !s.x.prod.PPublish?
    ensures s.d.prod.PWrite? || s.d.prod.PTail? ==> s.x.prod.PIdle? || s.x.prod.PPublish?
  {}

  lemma FreedInRange(s: State, n: nat)
    requires Inv(s) && n in s.d.freed
    ensures n < |s.x.m.storage| && AllCounted(s.d, n)
  {
    hide I.Inv;
    ReleasedInRange(s.x, n);
  }

  lemma OwnedByWork(s: State, t: nat, e: Event, s': State, b: I.Storage)
    requires Inv(s) && Typed(s) && t < |s.work| && WorkMoves(s, t, e, s') && b in s'.d.mine && Owned(s, b)
    ensures Owned(s', b)
  {
    assert s.work[t].WFree? ==> Hosts(s.x, s.work[t].n, s.work[t].b) by { assert WorkOk(s.x, s.d, s.work[t], s.x.readers[t]); }
    hide Inv, Chunk, Off, I.Typed, Q.TicketsInRange, I.At, I.ReaderStep, I.HeaderOk, I.Onward;
    if !Coming(s.x, b) {
      var n: nat :| Held(s.x, s.d, n) && s.x.m.storage[n] == b;
      assert Held(s'.x, s'.d, n) && s'.x.m.storage[n] == b;
    }
  }

  lemma MineOfWork(s: State, t: nat, e: Event, s': State)
    requires Typed(s) && t < |s.work| && WorkMoves(s, t, e, s')
    ensures s'.d.mine <= s.d.mine
  {
    hide Chunk, Off, I.Typed, Q.TicketsInRange, I.At, I.ReaderStep, I.HeaderOk, I.Onward;
  }

  lemma OwnedElse(s: State, e: Event, s': State, b: I.Storage)
    requires Owned(s, b) && s'.x.m == s.x.m && s'.x.prod == s.x.prod && s'.d.freed == s.d.freed
    ensures Owned(s', b)
  {
    if !Coming(s.x, b) {
      var n: nat :| Held(s.x, s.d, n) && s.x.m.storage[n] == b;
      assert Held(s'.x, s'.d, n) && s'.x.m.storage[n] == b;
    }
  }

  lemma OwnedStep(s: State, e: Event, s': State, b: I.Storage)
    requires Inv(s) && Step(s, e, s') && b in s'.d.mine
    requires b in s.d.mine ==> Owned(s, b)
    ensures Owned(s', b)
  {
    hide Inv, Typed, WorkMoves, ProducerStep, Owned, Q.Step;
    if ProducerStep(s, e, s') {
      OwnedByProducer(s, e, s', b);
    } else if exists t: nat :: t < |s.work| && WorkMoves(s, t, e, s') {
      var t: nat :| t < |s.work| && WorkMoves(s, t, e, s');
      MineOfWork(s, t, e, s');
      OwnedByWork(s, t, e, s', b);
    } else {
      OwnedElse(s, e, s', b);
    }
  }

  /** No memory is held for nothing. */
  lemma {:induction false} MineIsOwned(r: seq<State>, ev: seq<Event>, i: nat, b: I.Storage)
    requires Run(r, ev) && i < |r| && b in r[i].d.mine
    ensures Owned(r[i], b)
  {
    hide Inv, Step, Owned;
    if i > 0 {
      hide Initial;
      RunInvariant(r, ev, i - 1);
      if b in r[i - 1].d.mine { MineIsOwned(r, ev, i - 1, b); }
      assert Step(r[i - 1], ev[i - 1], r[i]);
      OwnedStep(r[i - 1], ev[i - 1], r[i], b);
    }
  }

  /** Block `n` has been published and is not all below the head. */
  predicate InUse(s: State, n: nat) { n < |s.x.m.storage| && Base(n + 1) > s.d.c.head }

  lemma AllBelowHead(r: seq<State>, ev: seq<Event>, i: nat, n: nat)
    requires Run(r, ev) && i < |r| && AtRest(r[i])
    ensures AllCounted(r[i].d, n) <==> Base(n + 1) <= r[i].d.c.head
  {
    var s := r[i];
    hide Run, AtRest, Chunk, Base;
    BaseIsStart(n, BLOCK_SIZE - 1);
    NextBase(n);
    ExactlyOnceAtRest(r, ev, i, Base(n) + BLOCK_SIZE - 1);
    forall k: nat | Chunk(k) == n && Base(n + 1) <= s.d.c.head ensures k in s.d.counted {
      ChunkRange(n, k);
      ExactlyOnceAtRest(r, ev, i, k);
    }
  }

  lemma NextBase(n: nat)
    ensures Base(n + 1) == Base(n) + BLOCK_SIZE
  {}

  /** Whenever no call is in progress, the blocks given back are exactly those wholly below the head, and
      the memory held is exactly that of the others: nothing leaks and nothing is given back early. */
  lemma MemoryAtRest(r: seq<State>, ev: seq<Event>, i: nat)
    requires Run(r, ev) && i < |r| && AtRest(r[i]) && r[i].d.prod.PIdle?
    ensures forall n: nat :: n < |r[i].x.m.storage| ==> (n in r[i].d.freed <==> Base(n + 1) <= r[i].d.c.head)
    ensures forall b :: b in r[i].d.mine <==> exists n: nat :: InUse(r[i], n) && r[i].x.m.storage[n] == b
  {
    var s := r[i];
    RunInvariant(r, ev, i);
    PhaseFacts(s);
    hide Run, Inv, Chunk, Base, AllCounted;
    forall n: nat | n < |s.x.m.storage| ensures n in s.d.freed <==> Base(n + 1) <= s.d.c.head {
      AllBelowHead(r, ev, i, n);
      if n in s.d.freed {
        FreedInRange(s, n);
      } else if AllCounted(s.d, n) {
        assert Complete(s, n);
        CompletedIsFinished(r, ev, i, n);
      }
    }
    forall b | b in s.d.mine ensures exists n: nat :: InUse(s, n) && s.x.m.storage[n] == b {
      MineIsOwned(r, ev, i, b);
      var n: nat :| Held(s.x, s.d, n) && s.x.m.storage[n] == b;
      assert InUse(s, n);
    }
    forall n: nat | InUse(s, n) ensures s.x.m.storage[n] in s.d.mine { HeldIsMine(s, n); }
  }

  lemma HeldIsMine(s: State, n: nat)
    requires Inv(s) && Held(s.x, s.d, n)
    ensures s.x.m.storage[n] in s.d.mine
  {
    hide I.Inv, Q.Inv;
    assert BlockOk(s.x, s.d, n);
  }

  /** At any moment different blocks that are held have different memory. */
  lemma NoMemoryShared(r: seq<State>, ev: seq<Event>, i: nat, n: nat, k: nat)
    requires Run(r, ev) && i < |r| && Held(r[i].x, r[i].d, n) && Held(r[i].x, r[i].d, k) && n != k
    ensures r[i].x.m.storage[n] != r[i].x.m.storage[k] && r[i].x.m.storage[n] in r[i].d.mine
  {
    RunInvariant(r, ev, i);
    HeldIsMine(r[i], n);
  }
}
