/** The reference-counted CAS free list of ConcurrentQueue.h, as a transition system.

    Every step is one atomic operation of one thread (a load, a store, a fetch_add, a
    compare-exchange); any number of threads, any number of nodes, any interleaving.
    `freeListRefs` packs a count and the SHOULD_BE_ON_FREELIST bit; here the two parts
    are separate integers, and that the bit is 0 or 1 and the count is never negative
    is proved, not assumed. */
module FreeList {

  type Node = nat

  datatype Ptr = Null | To(node: Node)

  datatype Refs = Refs(should: int, count: int)

  /** What follows an insertion: return from `add`, or go on with the loop of `try_get`. */
  datatype Resume = Return | Retry(head: Ptr)

  /** Program counters, named after the atomic operation the thread is about to do. */
  datatype PC =
    | Idle
    // add
    | AddFlag(n: Node)
    // add_knowing_refcount_is_zero
    | InsLoad(n: Node, k: Resume)
    | InsNext(n: Node, was: Ptr, k: Resume)
    | InsRefs(n: Node, was: Ptr, k: Resume)
    | InsCas(n: Node, was: Ptr, k: Resume)
    | InsUndo(n: Node, was: Ptr, k: Resume)
    // try_get
    | GetHead
    | GetRefs(h: Node)
    | GetInc(h: Node, seen: Refs)
    | GetNext(h: Node)
    | GetCas(h: Node, nx: Ptr)
    | GetTake(h: Node)
    | GetDrop(h: Node, now: Ptr)

  datatype State = State(
    nodes: set<Node>,          // every node ever allocated; nodes are never freed
    held: set<Node>,           // nodes in the possession of callers
    head: Ptr,
    refs: map<Node, Refs>,
    next: map<Node, Ptr>,
    threads: seq<PC>)

  datatype Event = Silent | Allocated(n: Node) | Added(n: Node) | Got(n: Node) | Missed

  predicate Closed(s: State) {
    && s.refs.Keys == s.nodes && s.next.Keys == s.nodes && s.held <= s.nodes
    && PtrIn(s.head, s.nodes)
    && (forall n :: n in s.nodes ==> PtrIn(s.next[n], s.nodes))
    && (forall t :: 0 <= t < |s.threads| ==> PcIn(s.threads[t], s.nodes))
  }

  predicate PtrIn(p: Ptr, nodes: set<Node>) { p.To? ==> p.node in nodes }

  predicate ResumeIn(k: Resume, nodes: set<Node>) { k.Retry? ==> PtrIn(k.head, nodes) }

  predicate PcIn(pc: PC, nodes: set<Node>) {
    match pc
    case Idle => true
    case GetHead => true
    case AddFlag(n) => n in nodes
    case InsLoad(n, k) => n in nodes && ResumeIn(k, nodes)
    case InsNext(n, h, k) => n in nodes && PtrIn(h, nodes) && ResumeIn(k, nodes)
    case InsRefs(n, h, k) => n in nodes && PtrIn(h, nodes) && ResumeIn(k, nodes)
    case InsCas(n, h, k) => n in nodes && PtrIn(h, nodes) && ResumeIn(k, nodes)
    case InsUndo(n, h, k) => n in nodes && PtrIn(h, nodes) && ResumeIn(k, nodes)
    case GetRefs(h) => h in nodes
    case GetInc(h, _) => h in nodes
    case GetNext(h) => h in nodes
    case GetCas(h, nx) => h in nodes && PtrIn(nx, nodes)
    case GetTake(h) => h in nodes
    case GetDrop(h, now) => h in nodes && PtrIn(now, nodes)
  }

  function LoopOn(head: Ptr): PC { if head.Null? then Idle else GetRefs(head.node) }

  function After(k: Resume): PC { if k.Return? then Idle else LoopOn(k.head) }

  /** The outcome reported when an insertion was the last thing a call had to do. */
  function Ending(k: Resume): Event { if k == Retry(Null) then Missed else Silent }

  function Goto(s: State, t: nat, pc: PC): State
    requires t < |s.threads|
  {
    s.(threads := s.threads[t := pc])
  }

  predicate Getting(pc: PC) {
    pc.GetHead? || pc.GetRefs? || pc.GetInc? || pc.GetNext? || pc.GetCas? || pc.GetTake? || pc.GetDrop?
  }

  /** One atomic operation of thread `t`, or the start of a call by it. */
  predicate ThreadStep(s: State, t: nat, e: Event, s': State)
    requires Closed(s) && t < |s.threads|
  {
    if Getting(s.threads[t]) then GetStep(s, t, e, s') else AddStep(s, t, e, s')
  }

  predicate AddStep(s: State, t: nat, e: Event, s': State)
    requires Closed(s) && t < |s.threads| && !Getting(s.threads[t])
  {
    match s.threads[t]
    case Idle =>
      || (e == Silent && s' == Goto(s, t, GetHead))
      || (e.Added? && e.n in s.held && s' == Goto(s.(held := s.held - {e.n}), t, AddFlag(e.n)))
    case AddFlag(n) =>
      var r := s.refs[n];
      && e == Silent
      && s' == Goto(s.(refs := s.refs[n := Refs(r.should + 1, r.count)]), t,
                    if r == Refs(0, 0) then InsLoad(n, Return) else Idle)
    case InsLoad(n, k) =>
      e == Silent && s' == Goto(s, t, InsNext(n, s.head, k))
    case InsNext(n, h, k) =>
      e == Silent && s' == Goto(s.(next := s.next[n := h]), t, InsRefs(n, h, k))
    case InsRefs(n, h, k) =>
      e == Silent && s' == Goto(s.(refs := s.refs[n := Refs(0, 1)]), t, InsCas(n, h, k))
    case InsCas(n, h, k) =>
      && e == (if s.head == h then Ending(k) else Silent)
      && s' == if s.head == h then Goto(s.(head := To(n)), t, After(k))
               else Goto(s, t, InsUndo(n, s.head, k))
    case InsUndo(n, h, k) =>
      var r := s.refs[n];
      && e == (if r == Refs(0, 1) then Silent else Ending(k))
      && s' == Goto(s.(refs := s.refs[n := Refs(r.should + 1, r.count - 1)]), t,
                    if r == Refs(0, 1) then InsNext(n, h, k) else After(k))
  }

  predicate GetStep(s: State, t: nat, e: Event, s': State)
    requires Closed(s) && t < |s.threads| && Getting(s.threads[t])
  {
    match s.threads[t]
    case GetHead =>
      && e == (if s.head.Null? then Missed else Silent)
      && s' == Goto(s, t, LoopOn(s.head))
    case GetRefs(h) =>
      e == Silent && s' == Goto(s, t, if s.refs[h].count == 0 then GetHead else GetInc(h, s.refs[h]))
    case GetInc(h, seen) =>
      && e == Silent
      && s' == if s.refs[h] == seen
               then Goto(s.(refs := s.refs[h := Refs(seen.should, seen.count + 1)]), t, GetNext(h))
               else Goto(s, t, GetHead)
    case GetNext(h) =>
      e == Silent && s' == Goto(s, t, GetCas(h, s.next[h]))
    case GetCas(h, nx) =>
      && e == Silent
      && s' == if s.head == To(h) then Goto(s.(head := nx), t, GetTake(h))
               else Goto(s, t, GetDrop(h, s.head))
    case GetTake(h) =>
      var r := s.refs[h];
      && e == Got(h)
      && s' == Goto(s.(refs := s.refs[h := Refs(r.should, r.count - 2)], held := s.held + {h}), t, Idle)
    case GetDrop(h, now) =>
      var r := s.refs[h];
      && e == (if r != Refs(1, 1) && now.Null? then Missed else Silent)
      && s' == Goto(s.(refs := s.refs[h := Refs(r.should, r.count - 1)]), t,
                    if r == Refs(1, 1) then InsLoad(h, Retry(now)) else LoopOn(now))
  }

  /** A caller obtains a brand-new node from the allocator. */
  predicate Allocate(s: State, e: Event, s': State) {
    && e.Allocated? && e.n !in s.nodes
    && s' == s.(nodes := s.nodes + {e.n}, held := s.held + {e.n},
                refs := s.refs[e.n := Refs(0, 0)], next := s.next[e.n := Null])
  }

  ghost predicate Step(s: State, e: Event, s': State) {
    && Closed(s)
    && (Allocate(s, e, s') || exists t: nat :: t < |s.threads| && ThreadStep(s, t, e, s'))
  }

  predicate Init(s: State) {
    && s.nodes == {} && s.held == {} && s.head == Null && s.refs == map[] && s.next == map[]
    && forall t :: 0 <= t < |s.threads| ==> s.threads[t] == Idle
  }

  // ---------------------------------------------------------------- invariant

  /** The thread has a temporary reference to `n`: it raised the count and has not dropped it. */
  predicate Refers(pc: PC, n: Node) {
    match pc
    case GetNext(h) => h == n
    case GetCas(h, _) => h == n
    case GetTake(h) => h == n
    case GetDrop(h, _) => h == n
    case _ => false
  }

  /** The node the thread alone is in charge of, if any. */
  function Charge(pc: PC): Ptr {
    match pc
    case AddFlag(n) => To(n)
    case InsLoad(n, _) => To(n)
    case InsNext(n, _, _) => To(n)
    case InsRefs(n, _, _) => To(n)
    case InsCas(n, _, _) => To(n)
    case InsUndo(n, _, _) => To(n)
    case GetTake(h) => To(h)
    case _ => Null
  }

  /** The references that threads hold on `n`. */
  function Referrers(threads: seq<PC>, n: Node): set<nat> {
    set t: nat | t < |threads| && Refers(threads[t], n)
  }

  function Temps(s: State, n: Node): nat { |Referrers(s.threads, n)| }

  ghost predicate InCharge(s: State, t: nat, n: Node) {
    t < |s.threads| && Charge(s.threads[t]) == To(n)
  }

  ghost predicate Charged(s: State, n: Node) { exists t: nat :: InCharge(s, t, n) }

  /** Flagged SHOULD_BE_ON_FREELIST while others still refer to it: the last one to drop inserts it. */
  ghost predicate Flagged(s: State, n: Node) {
    n in s.refs && s.refs[n].should == 1 && s.refs[n].count == Temps(s, n) >= 1
  }

  function PtrAt(l: seq<Node>, i: nat): Ptr { if i < |l| then To(l[i]) else Null }

  /** `l` is the list: the chain of `next` pointers from the head, without repetition. */
  ghost predicate Chain(s: State, l: seq<Node>)
    requires Closed(s)
  {
    && s.head == PtrAt(l, 0)
    && (forall i :: 0 <= i < |l| ==> l[i] in s.nodes)
    && (forall i :: 0 <= i < |l| ==> s.next[l[i]] == PtrAt(l, i + 1))
    && (forall i, j :: 0 <= i < j < |l| ==> l[i] != l[j])
  }

  /** The reference word of a node that `pc` is in charge of. */
  predicate ChargeRefs(pc: PC, r: Refs, temps: nat) {
    match pc
    case AddFlag(_) => r == Refs(0, temps)
    case InsLoad(_, _) => r == Refs(1, 0) && temps == 0
    case InsNext(_, _, _) => r == Refs(1, 0) && temps == 0
    case InsRefs(_, _, _) => r == Refs(1, 0) && temps == 0
    case _ => r == Refs(0, 1 + temps)
  }

  ghost predicate ThreadOk(s: State, l: seq<Node>, t: nat)
    requires Closed(s) && t < |s.threads|
  {
    var pc := s.threads[t];
    && (Charge(pc).To? ==>
          var n := Charge(pc).node;
          && n in s.nodes && n !in s.held && n !in l
          && ChargeRefs(pc, s.refs[n], Temps(s, n)))
    && (pc.GetInc? ==> pc.seen.count != 0)
    && (pc.GetCas? ==> s.next[pc.h] == pc.nx)
    && (pc.InsRefs? || pc.InsCas? ==> s.next[pc.n] == pc.was)
  }

  ghost predicate NodeOk(s: State, l: seq<Node>, n: Node)
    requires Closed(s) && n in s.nodes
  {
    && (n in l ==> n !in s.held && s.refs[n] == Refs(0, 1 + Temps(s, n)))
    && (n in s.held ==> s.refs[n] == Refs(0, Temps(s, n)))
    && (n !in l && n !in s.held && !Charged(s, n) ==> s.refs[n] == Refs(1, Temps(s, n)) && Temps(s, n) >= 1)
  }

  ghost predicate Inv(s: State, l: seq<Node>) {
    && Closed(s)
    && Chain(s, l)
    && (forall t: nat :: t < |s.threads| ==> ThreadOk(s, l, t))
    && (forall t: nat, u: nat, n: Node :: InCharge(s, t, n) && InCharge(s, u, n) ==> t == u)
    && (forall n :: n in s.nodes ==> NodeOk(s, l, n))
  }

  // ---------------------------------------------------------------- preservation

  /** Moving one program counter changes the number of references by its own contribution. */
  lemma TempsAfterMove(s: State, t: nat, pc: PC, n: Node)
    requires t < |s.threads|
    ensures Temps(Goto(s, t, pc), n)
         == Temps(s, n) - (if Refers(s.threads[t], n) then 1 else 0) + (if Refers(pc, n) then 1 else 0)
  {
    var a, b := Referrers(s.threads, n), Referrers(Goto(s, t, pc).threads, n);
    assert a - {t} == b - {t};
    assert t in a <==> Refers(s.threads[t], n);
    assert t in b <==> Refers(pc, n);
    assert |a - {t}| == |a| - (if t in a then 1 else 0);
    assert |b - {t}| == |b| - (if t in b then 1 else 0);
  }

  lemma TempsPositive(s: State, t: nat, n: Node)
    requires t < |s.threads| && Refers(s.threads[t], n)
    ensures Temps(s, n) >= 1
  {
    assert t in Referrers(s.threads, n);
  }

  /** The list after a step: the CAS of an insertion pushes, the CAS of `try_get` pops. */
  function ListAfter(s: State, t: nat, l: seq<Node>): seq<Node>
    requires t < |s.threads|
  {
    match s.threads[t]
    case InsCas(n, was, _) => if s.head == was then [n] + l else l
    case GetCas(h, _) => if s.head == To(h) && l != [] then l[1..] else l
    case _ => l
  }

  /** How a step of `t` moves the counts, as far as the invariant needs it. */
  ghost predicate Moved(s: State, t: nat, s': State) {
    && |s'.threads| == |s.threads| && t < |s.threads|
    && s'.threads == s.threads[t := s'.threads[t]]
    && forall n :: Temps(s', n) == Temps(s, n) - (if Refers(s.threads[t], n) then 1 else 0)
                                               + (if Refers(s'.threads[t], n) then 1 else 0)
  }

  lemma MoveMoves(s: State, t: nat, s': State)
    requires t < |s.threads| == |s'.threads| && s'.threads == s.threads[t := s'.threads[t]]
    ensures Moved(s, t, s')
  {
    forall n ensures Temps(s', n) == Temps(s, n) - (if Refers(s.threads[t], n) then 1 else 0)
                                                 + (if Refers(s'.threads[t], n) then 1 else 0) {
      TempsAfterMove(s, t, s'.threads[t], n);
    }
  }

  /** The frame of every step: no node comes or goes, all pointers stay inside, one thread moves. */
  ghost predicate Framed(s: State, t: nat, s': State) {
    Closed(s') && s'.nodes == s.nodes && Moved(s, t, s')
  }

  lemma AddFrame(s: State, t: nat, e: Event, s': State)
    requires Closed(s) && t < |s.threads| && !Getting(s.threads[t]) && AddStep(s, t, e, s')
    ensures Framed(s, t, s')
  {
    assert PcIn(s.threads[t], s.nodes);
    MoveMoves(s, t, s');
  }

  lemma GetFrame(s: State, t: nat, e: Event, s': State)
    requires Closed(s) && t < |s.threads| && Getting(s.threads[t]) && GetStep(s, t, e, s')
    ensures Framed(s, t, s')
  {
    assert PcIn(s.threads[t], s.nodes);
    MoveMoves(s, t, s');
  }

  lemma Pushed(s: State, n: Node, s': State, l: seq<Node>)
    requires Closed(s) && Chain(s, l) && n in s.nodes && n !in l && s.next[n] == s.head
    requires Closed(s') && s'.nodes == s.nodes && s'.next == s.next && s'.head == To(n)
    ensures Chain(s', [n] + l)
  {}

  lemma Popped(s: State, h: Node, s': State, l: seq<Node>)
    requires Closed(s) && Chain(s, l) && h in s.nodes && s.head == To(h)
    requires Closed(s') && s'.nodes == s.nodes && s'.next == s.next && s'.head == s.next[h]
    ensures l != [] && Chain(s', l[1..])
  {}

  lemma ChargedIsApart(s: State, l: seq<Node>, n: Node)
    requires Inv(s, l)
    ensures Charged(s, n) ==> n in s.nodes && n !in l && n !in s.held && s.refs[n] != Refs(1, 1)
  {
    forall u: nat | InCharge(s, u, n) ensures n in s.nodes && n !in l && n !in s.held && s.refs[n] != Refs(1, 1) {
      assert ThreadOk(s, l, u);
    }
  }

  /** Whoever sees SHOULD_BE_ON_FREELIST + 1 when dropping a reference finds the node ownerless. */
  lemma LastDropper(s: State, l: seq<Node>, t: nat)
    requires Inv(s, l) && t < |s.threads| && s.threads[t].GetDrop?
    ensures var n := s.threads[t].h;
            && Temps(s, n) >= 1
            && (s.refs[n] == Refs(1, 1) ==> n !in l && n !in s.held && !Charged(s, n) && Temps(s, n) == 1)
  {
    var n := s.threads[t].h;
    assert NodeOk(s, l, n);
    TempsPositive(s, t, n);
    ChargedIsApart(s, l, n);
  }

  /** A successful CAS of `try_get` removes the first node of the list. */
  lemma CasTakesFirst(s: State, l: seq<Node>, t: nat)
    requires Inv(s, l) && t < |s.threads| && s.threads[t].GetCas? && s.head == To(s.threads[t].h)
    ensures l != [] && l[0] == s.threads[t].h && !Charged(s, l[0]) && l[0] !in l[1..]
    ensures l[0] in s.nodes && s.refs[l[0]] == Refs(0, 1 + Temps(s, l[0])) && l[0] !in s.held
  {
    assert NodeOk(s, l, l[0]);
    ChargedIsApart(s, l, l[0]);
  }

  lemma SoleCharge(s: State, l: seq<Node>, t: nat, u: nat)
    requires Inv(s, l) && t < |s.threads| && u < |s.threads| && t != u && Charge(s.threads[u]).To?
    ensures Charge(s.threads[u]) != Charge(s.threads[t])
  {
    assert InCharge(s, u, Charge(s.threads[u]).node);
    assert Charge(s.threads[t]) == Charge(s.threads[u]) ==> InCharge(s, t, Charge(s.threads[u]).node);
  }

  /** What a thread inside `try_get` may rely on. */
  ghost predicate GetFacts(s: State, l: seq<Node>, t: nat)
    requires Closed(s) && t < |s.threads|
  {
    var pc := s.threads[t];
    && ThreadOk(s, l, t)
    && (pc.GetDrop? ==> pc.h in s.nodes && Temps(s, pc.h) >= 1)
    && (pc.GetDrop? && s.refs[pc.h] == Refs(1, 1) ==> pc.h !in l && pc.h !in s.held && !Charged(s, pc.h) && Temps(s, pc.h) == 1)
    && (pc.GetCas? && s.head == To(pc.h) ==>
          && l != [] && l[0] == pc.h && !Charged(s, pc.h) && pc.h !in l[1..] && pc.h !in s.held
          && pc.h in s.nodes && s.refs[pc.h] == Refs(0, 1 + Temps(s, pc.h)))
  }

  lemma GetFactsHold(s: State, l: seq<Node>, t: nat)
    requires Inv(s, l) && t < |s.threads|
    ensures GetFacts(s, l, t)
  {
    var pc := s.threads[t];
    if pc.GetDrop? { LastDropper(s, l, t); }
    if pc.GetCas? && s.head == To(pc.h) { CasTakesFirst(s, l, t); }
  }

  // ---- steps of add and add_knowing_refcount_is_zero

  lemma AddKeepsChain(s: State, t: nat, e: Event, s': State, l: seq<Node>)
    requires Inv(s, l) && t < |s.threads| && !Getting(s.threads[t]) && AddStep(s, t, e, s') && Framed(s, t, s')
    ensures Chain(s', ListAfter(s, t, l))
  {
    hide NodeOk, PcIn, PtrIn, Temps, ChargeRefs;
    assert ThreadOk(s, l, t);
    var pc := s.threads[t];
    if pc.InsCas? && s.head == pc.was {
      Pushed(s, pc.n, s', l);
    } else {
      assert s'.head == s.head && s'.next == if pc.InsNext? then s.next[pc.n := pc.was] else s.next;
    }
  }

  lemma AddKeepsCharge(s: State, t: nat, e: Event, s': State, l: seq<Node>, u: nat, v: nat, n: Node)
    requires Inv(s, l) && t < |s.threads| && !Getting(s.threads[t]) && AddStep(s, t, e, s')
    requires InCharge(s', u, n) && InCharge(s', v, n)
    ensures u == v
  {
    hide ThreadOk, NodeOk, Chain, PcIn, PtrIn;
    assert u != t ==> InCharge(s, u, n);
    assert v != t ==> InCharge(s, v, n);
    ChargedIsApart(s, l, n);
    if Charge(s.threads[t]) == To(n) { assert InCharge(s, t, n); }
  }

  lemma AddKeepsOwnThread(s: State, t: nat, e: Event, s': State, l: seq<Node>)
    requires Closed(s) && t < |s.threads| && !Getting(s.threads[t]) && AddStep(s, t, e, s') && Framed(s, t, s')
    requires ThreadOk(s, l, t) && (e.Added? ==> e.n in s.nodes && NodeOk(s, l, e.n))
    ensures ThreadOk(s', ListAfter(s, t, l), t)
  {
    hide Temps, PcIn, PtrIn, ResumeIn;
  }

  lemma AddKeepsOtherThread(s: State, t: nat, e: Event, s': State, l: seq<Node>, u: nat)
    requires Closed(s) && t < |s.threads| && !Getting(s.threads[t]) && AddStep(s, t, e, s') && Framed(s, t, s')
    requires ThreadOk(s, l, t) && u < |s.threads| && u != t && ThreadOk(s, l, u)
    requires Charge(s.threads[u]).To? ==> Charge(s.threads[u]) != Charge(s.threads[t])
    ensures ThreadOk(s', ListAfter(s, t, l), u)
  {
    hide PcIn, PtrIn, ResumeIn;
    if s.threads[u].GetCas? { TempsPositive(s, u, s.threads[u].h); }
  }

  lemma ChargedAfter(s: State, t: nat, s': State, n: Node)
    requires Moved(s, t, s')
    ensures Charge(s'.threads[t]) == To(n) ==> Charged(s', n)
    ensures Charged(s, n) && Charge(s.threads[t]) != To(n) ==> Charged(s', n)
  {
    if Charge(s'.threads[t]) == To(n) { assert InCharge(s', t, n); }
    if Charged(s, n) && Charge(s.threads[t]) != To(n) {
      var u: nat :| InCharge(s, u, n);
      assert InCharge(s', u, n);
    }
  }

  lemma AddKeepsNode(s: State, t: nat, e: Event, s': State, l: seq<Node>, n: Node)
    requires Closed(s) && t < |s.threads| && !Getting(s.threads[t]) && AddStep(s, t, e, s') && Framed(s, t, s')
    requires ThreadOk(s, l, t) && n in s.nodes && NodeOk(s, l, n)
    ensures NodeOk(s', ListAfter(s, t, l), n)
  {
    hide Temps, PcIn, PtrIn, ResumeIn;
    ChargedAfter(s, t, s', n);
  }

  lemma AddKeeps(s: State, t: nat, e: Event, s': State, l: seq<Node>)
    requires Inv(s, l) && t < |s.threads| && !Getting(s.threads[t]) && AddStep(s, t, e, s')
    ensures Inv(s', ListAfter(s, t, l))
  {
    var l' := ListAfter(s, t, l);
    AddFrame(s, t, e, s');
    AddKeepsChain(s, t, e, s', l);
    forall u: nat | u < |s'.threads| ensures ThreadOk(s', l', u) {
      if u == t { AddKeepsOwnThread(s, t, e, s', l); } else {
        if Charge(s.threads[u]).To? { SoleCharge(s, l, t, u); }
        AddKeepsOtherThread(s, t, e, s', l, u);
      }
    }
    forall u: nat, v: nat, n: Node | InCharge(s', u, n) && InCharge(s', v, n) ensures u == v {
      AddKeepsCharge(s, t, e, s', l, u, v, n);
    }
    forall n | n in s'.nodes ensures NodeOk(s', l', n) { AddKeepsNode(s, t, e, s', l, n); }
  }

  // ---- steps of try_get

  lemma GetKeepsChain(s: State, t: nat, e: Event, s': State, l: seq<Node>)
    requires Inv(s, l) && t < |s.threads| && Getting(s.threads[t]) && GetStep(s, t, e, s') && Framed(s, t, s')
    ensures Chain(s', ListAfter(s, t, l))
  {
    hide NodeOk, PcIn, PtrIn, Temps, ChargeRefs;
    assert ThreadOk(s, l, t);
    var pc := s.threads[t];
    if pc.GetCas? && s.head == To(pc.h) {
      Popped(s, pc.h, s', l);
    } else {
      assert s'.next == s.next && s'.head == s.head;
    }
  }

  lemma GetKeepsCharge(s: State, t: nat, e: Event, s': State, l: seq<Node>, u: nat, v: nat, n: Node)
    requires Inv(s, l) && t < |s.threads| && Getting(s.threads[t]) && GetStep(s, t, e, s') && GetFacts(s, l, t)
    requires InCharge(s', u, n) && InCharge(s', v, n)
    ensures u == v
  {
    hide ThreadOk, NodeOk, Chain, PcIn, PtrIn;
    assert u != t ==> InCharge(s, u, n);
    assert v != t ==> InCharge(s, v, n);
  }

  lemma GetKeepsOwnThread(s: State, t: nat, e: Event, s': State, l: seq<Node>)
    requires Closed(s) && t < |s.threads| && Getting(s.threads[t]) && GetStep(s, t, e, s') && Framed(s, t, s')
    requires GetFacts(s, l, t)
    ensures ThreadOk(s', ListAfter(s, t, l), t)
  {
    hide Temps, PcIn, PtrIn, ResumeIn;
  }

  lemma GetKeepsOtherThread(s: State, t: nat, e: Event, s': State, l: seq<Node>, u: nat)
    requires Closed(s) && t < |s.threads| && Getting(s.threads[t]) && GetStep(s, t, e, s') && Framed(s, t, s')
    requires GetFacts(s, l, t) && u < |s.threads| && u != t && ThreadOk(s, l, u)
    requires Charge(s.threads[u]).To? ==> Charge(s.threads[u]) != Charge(s.threads[t])
    ensures ThreadOk(s', ListAfter(s, t, l), u)
  {
    hide Temps, PcIn, PtrIn, ResumeIn;
    var pu := s.threads[u];
    if Charge(pu).To? { assert InCharge(s, u, Charge(pu).node); }
  }

  lemma GetKeepsNode(s: State, t: nat, e: Event, s': State, l: seq<Node>, n: Node)
    requires Closed(s) && t < |s.threads| && Getting(s.threads[t]) && GetStep(s, t, e, s') && Framed(s, t, s')
    requires GetFacts(s, l, t) && n in s.nodes && NodeOk(s, l, n)
    ensures NodeOk(s', ListAfter(s, t, l), n)
  {
    hide Temps, PcIn, PtrIn, ResumeIn;
    ChargedAfter(s, t, s', n);
  }

  lemma GetKeeps(s: State, t: nat, e: Event, s': State, l: seq<Node>)
    requires Inv(s, l) && t < |s.threads| && Getting(s.threads[t]) && GetStep(s, t, e, s')
    ensures Inv(s', ListAfter(s, t, l))
  {
    var l' := ListAfter(s, t, l);
    GetFrame(s, t, e, s');
    GetFactsHold(s, l, t);
    GetKeepsChain(s, t, e, s', l);
    forall u: nat | u < |s'.threads| ensures ThreadOk(s', l', u) {
      if u == t { GetKeepsOwnThread(s, t, e, s', l); } else {
        if Charge(s.threads[u]).To? { SoleCharge(s, l, t, u); }
        GetKeepsOtherThread(s, t, e, s', l, u);
      }
    }
    forall u: nat, v: nat, n: Node | InCharge(s', u, n) && InCharge(s', v, n) ensures u == v {
      GetKeepsCharge(s, t, e, s', l, u, v, n);
    }
    forall n | n in s'.nodes ensures NodeOk(s', l', n) { GetKeepsNode(s, t, e, s', l, n); }
  }

  lemma StepKeeps(s: State, e: Event, s': State, l: seq<Node>) returns (l': seq<Node>)
    requires Inv(s, l) && Step(s, e, s')
    ensures Inv(s', l')
  {
    if Allocate(s, e, s') {
      l' := l;
      AllocateKeeps(s, e, s', l);
    } else {
      var t: nat :| t < |s.threads| && ThreadStep(s, t, e, s');
      l' := ListAfter(s, t, l);
      if Getting(s.threads[t]) { GetKeeps(s, t, e, s', l); } else { AddKeeps(s, t, e, s', l); }
    }
  }

  lemma AllocateKeeps(s: State, e: Event, s': State, l: seq<Node>)
    requires Inv(s, l) && Allocate(s, e, s')
    ensures Inv(s', l)
  {
    hide ThreadOk, NodeOk, Allocate, PcIn;
    AllocatedClosed(s, e, s');
    AllocatedChain(s, e, s', l);
    forall u: nat | u < |s'.threads| ensures ThreadOk(s', l, u) { AllocatedThread(s, e, s', l, u); }
    forall u: nat, v: nat, n: Node | InCharge(s', u, n) && InCharge(s', v, n) ensures u == v {
      assert InCharge(s, u, n) && InCharge(s, v, n);
    }
    forall n | n in s'.nodes ensures NodeOk(s', l, n) { AllocatedNode(s, e, s', l, n); }
  }

  lemma AllocatedClosed(s: State, e: Event, s': State)
    requires Closed(s) && Allocate(s, e, s')
    ensures Closed(s') && s'.threads == s.threads
  {
    forall t | 0 <= t < |s'.threads| ensures PcIn(s'.threads[t], s'.nodes) { assert PcIn(s.threads[t], s.nodes); }
  }

  lemma AllocatedChain(s: State, e: Event, s': State, l: seq<Node>)
    requires Closed(s) && Closed(s') && Chain(s, l) && Allocate(s, e, s')
    ensures Chain(s', l)
  {
    hide PcIn, PtrIn, PtrAt;
  }

  lemma AllocatedThread(s: State, e: Event, s': State, l: seq<Node>, u: nat)
    requires Closed(s) && Closed(s') && Allocate(s, e, s') && u < |s.threads| && ThreadOk(s, l, u)
    ensures ThreadOk(s', l, u)
  {
    assert PcIn(s.threads[u], s.nodes);
  }

  lemma AllocatedNode(s: State, e: Event, s': State, l: seq<Node>, n: Node)
    requires Closed(s) && Closed(s') && Chain(s, l) && Allocate(s, e, s') && n in s'.nodes
    requires n in s.nodes ==> NodeOk(s, l, n)
    ensures NodeOk(s', l, n)
  {
    if n == e.n {
      assert Referrers(s.threads, n) == {} by {
        forall t: nat | t < |s.threads| ensures !Refers(s.threads[t], n) { assert PcIn(s.threads[t], s.nodes); }
      }
    } else {
      if Charged(s, n) { var u: nat :| InCharge(s, u, n); assert InCharge(s', u, n); }
    }
  }

  // ---------------------------------------------------------------- whole runs

  /** A run: `r[0]` is initial and event `ev[i]` leads from `r[i]` to `r[i + 1]`. */
  ghost predicate Run(r: seq<State>, ev: seq<Event>) {
    && |r| == |ev| + 1
    && Init(r[0])
    && forall i :: 0 <= i < |ev| ==> Step(r[i], ev[i], r[i + 1])
  }

  lemma {:induction false} RunInvariant(r: seq<State>, ev: seq<Event>, i: nat) returns (l: seq<Node>)
    requires Run(r, ev) && i < |r|
    ensures Inv(r[i], l)
  {
    if i == 0 {
      l := [];
    } else {
      var m := RunInvariant(r, ev, i - 1);
      l := StepKeeps(r[i - 1], ev[i - 1], r[i], m);
    }
  }

  function One(b: bool): nat { if b then 1 else 0 }

  /** In every state of every run the list is a finite chain without repetition, and each node
      is in exactly one of four situations: linked, held by the callers, in the charge of
      exactly one thread, or flagged with a reference outstanding. */
  lemma FourSituations(r: seq<State>, ev: seq<Event>, i: nat, n: Node) returns (l: seq<Node>)
    requires Run(r, ev) && i < |r| && n in r[i].nodes
    ensures Closed(r[i]) && Chain(r[i], l)
    ensures One(n in l) + One(n in r[i].held) + One(Charged(r[i], n)) + One(Flagged(r[i], n)) == 1
    ensures forall t: nat, u: nat :: InCharge(r[i], t, n) && InCharge(r[i], u, n) ==> t == u
  {
    l := RunInvariant(r, ev, i);
    var s := r[i];
    assert NodeOk(s, l, n);
    if Charged(s, n) {
      var t: nat :| InCharge(s, t, n);
      assert ThreadOk(s, l, t);
    }
  }

  /** The assertion inside `try_get`: a node just taken does not carry the flag, and both
      references that are about to be subtracted are really there. */
  lemma TakenNodeIsUnflagged(r: seq<State>, ev: seq<Event>, i: nat, t: nat)
    requires Run(r, ev) && i < |r| && t < |r[i].threads| && r[i].threads[t].GetTake?
    ensures var n := r[i].threads[t].h;
            n in r[i].refs && r[i].refs[n].should == 0 && r[i].refs[n].count >= 2
  {
    var l := RunInvariant(r, ev, i);
    assert ThreadOk(r[i], l, t);
    TempsPositive(r[i], t, r[i].threads[t].h);
  }

  /** `add_knowing_refcount_is_zero` runs at most once per node at a time, and until it
      stores 1 the count really is zero. */
  lemma InsertionIsAlone(r: seq<State>, ev: seq<Event>, i: nat, t: nat)
    requires Run(r, ev) && i < |r| && t < |r[i].threads|
    requires r[i].threads[t].InsLoad? || r[i].threads[t].InsNext? || r[i].threads[t].InsRefs?
    ensures var n := r[i].threads[t].n;
            && n in r[i].refs && r[i].refs[n] == Refs(1, 0)
            && (forall u: nat :: u < |r[i].threads| ==> !Refers(r[i].threads[u], n))
            && (forall u: nat :: InCharge(r[i], u, n) ==> u == t)
  {
    var l := RunInvariant(r, ev, i);
    var n := r[i].threads[t].n;
    assert ThreadOk(r[i], l, t) && InCharge(r[i], t, n);
    forall u: nat | u < |r[i].threads| ensures !Refers(r[i].threads[u], n) {
      if Refers(r[i].threads[u], n) { TempsPositive(r[i], u, n); }
    }
  }

  /** A node, once handed out, stays with the callers until somebody calls `add` on it. */
  lemma {:induction false} HeldUntilAdded(r: seq<State>, ev: seq<Event>, i: nat, j: nat, n: Node)
    requires Run(r, ev) && i <= j < |r| && n in r[i].held
    requires forall k :: i <= k < j ==> ev[k] != Added(n)
    ensures n in r[j].held
    decreases j - i
  {
    if i < j {
      assert Step(r[i], ev[i], r[i + 1]) && ev[i] != Added(n);
      HeldUntilAdded(r, ev, i + 1, j, n);
    }
  }

  lemma GotFromOutside(s: State, e: Event, s': State, l: seq<Node>)
    requires Inv(s, l) && Step(s, e, s') && e.Got?
    ensures e.n !in s.held && e.n in s'.held
  {
    var t: nat :| t < |s.threads| && ThreadStep(s, t, e, s');
    assert ThreadOk(s, l, t);
  }

  /** No node is handed out twice without a call of `add` in between. */
  lemma NoDoubleHandOut(r: seq<State>, ev: seq<Event>, i: nat, j: nat, n: Node)
    requires Run(r, ev) && i < j < |ev|
    requires ev[i] == Got(n) && ev[j] == Got(n)
    ensures exists k :: i < k < j && ev[k] == Added(n)
  {
    hide Inv, Step, Init;
    var l := RunInvariant(r, ev, i);
    var m := RunInvariant(r, ev, j);
    GotFromOutside(r[i], ev[i], r[i + 1], l);
    GotFromOutside(r[j], ev[j], r[j + 1], m);
    if forall k :: i + 1 <= k < j ==> ev[k] != Added(n) {
      HeldUntilAdded(r, ev, i + 1, j, n);
    }
  }

  /** Nothing is lost: whenever no call is in progress, every node is on the list or with a
      caller, never both, and every counter is back at 1 and 0 respectively. */
  lemma NothingLostAtRest(r: seq<State>, ev: seq<Event>, i: nat) returns (l: seq<Node>)
    requires Run(r, ev) && i < |r|
    requires forall t: nat :: t < |r[i].threads| ==> r[i].threads[t] == Idle
    ensures Closed(r[i]) && Chain(r[i], l)
    ensures forall n :: n in r[i].nodes ==> (n in l <==> n !in r[i].held)
    ensures forall n :: n in r[i].nodes ==> r[i].refs[n] == Refs(0, One(n in l))
  {
    l := RunInvariant(r, ev, i);
    var s := r[i];
    forall n | n in s.nodes
      ensures (n in l <==> n !in s.held) && s.refs[n] == Refs(0, One(n in l))
    {
      assert NodeOk(s, l, n);
      assert Referrers(s.threads, n) == {};
      assert !Charged(s, n);
    }
  }

  // ---------------------------------------------------------------- what a call answers

  predicate Misses(k: Resume) { k == Retry(Null) }

  /** The thread is in a try_get that saw an empty list and has only its reference, or the node it was
      the last to refer to, to take care of. */
  predicate Doomed(pc: PC) {
    match pc
    case GetDrop(_, now) => now.Null?
    case InsLoad(_, k) => Misses(k)
    case InsNext(_, _, k) => Misses(k)
    case InsRefs(_, _, k) => Misses(k)
    case InsCas(_, _, k) => Misses(k)
    case InsUndo(_, _, k) => Misses(k)
    case _ => false
  }

  lemma OthersStay(s: State, t: nat, e: Event, s': State, u: nat)
    requires Closed(s) && t < |s.threads| && ThreadStep(s, t, e, s') && u < |s.threads|
    ensures |s'.threads| == |s.threads| && (u != t ==> s'.threads[u] == s.threads[u])
  {}

  /** How a thread comes to be doomed, and that it is so until its call ends. */
  lemma DoomStep(s: State, e: Event, s': State, t: nat)
    requires Step(s, e, s') && t < |s.threads| && |s'.threads| == |s.threads| && Doomed(s'.threads[t])
    ensures Doomed(s.threads[t]) || (s.threads[t].GetCas? && s.head == Null)
  {
    hide Closed, PcIn, PtrIn;
    if !Allocate(s, e, s') {
      var u: nat :| u < |s.threads| && ThreadStep(s, u, e, s');
      OthersStay(s, u, e, s', t);
    }
  }

  lemma ThreadCount(s: State, e: Event, s': State)
    requires Step(s, e, s')
    ensures |s'.threads| == |s.threads|
  {
    hide Closed, PcIn, PtrIn;
  }

  /** Thread `t` is in one call of try_get from `r[j]`, where it looks at the head, to `r[i]`. */
  predicate SameCall(r: seq<State>, t: nat, j: nat, i: nat) {
    j <= i < |r| && forall k :: j <= k <= i ==> t < |r[k].threads| && !r[k].threads[t].Idle?
  }

  lemma {:induction false} DoomedSawNull(r: seq<State>, ev: seq<Event>, i: nat, t: nat) returns (j: nat)
    requires Run(r, ev) && i < |r| && t < |r[i].threads| && Doomed(r[i].threads[t])
    ensures j < i && r[j].head == Null && SameCall(r, t, j, i) && r[j].threads[t].GetCas?
  {
    hide Step, Doomed;
    assert i > 0 by { StartsWell(r[0], t); }
    assert Step(r[i - 1], ev[i - 1], r[i]);
    ThreadCount(r[i - 1], ev[i - 1], r[i]);
    DoomStep(r[i - 1], ev[i - 1], r[i], t);
    DoomedIsBusy(r[i].threads[t]);
    if Doomed(r[i - 1].threads[t]) { j := DoomedSawNull(r, ev, i - 1, t); } else { j := i - 1; }
  }

  lemma StartsWell(s: State, t: nat)
    ensures Init(s) && t < |s.threads| ==> !Doomed(s.threads[t])
  {}

  lemma DoomedIsBusy(pc: PC)
    ensures Doomed(pc) ==> !pc.Idle?
  {}

  lemma MissedPc(s: State, e: Event, s': State) returns (t: nat)
    requires Step(s, e, s') && e == Missed
    ensures t < |s.threads| == |s'.threads| && s'.threads[t].Idle? && (Doomed(s.threads[t]) || (s.threads[t].GetHead? && s.head == Null))
  {
    hide Closed, PcIn, PtrIn;
    t :| t < |s.threads| && ThreadStep(s, t, e, s');
  }

  /** A try_get that hands out nothing saw the list empty at a moment of that very call. */
  lemma MissedWhenEmpty(r: seq<State>, ev: seq<Event>, i: nat) returns (t: nat, j: nat)
    requires Run(r, ev) && i < |ev| && ev[i] == Missed
    ensures j <= i && SameCall(r, t, j, i) && r[j].head == Null
    ensures r[j].threads[t].GetHead? || r[j].threads[t].GetCas?
    ensures t < |r[i + 1].threads| && r[i + 1].threads[t].Idle?
  {
    hide Step, Doomed;
    assert Step(r[i], ev[i], r[i + 1]);
    t := MissedPc(r[i], ev[i], r[i + 1]);
    if Doomed(r[i].threads[t]) { j := DoomedSawNull(r, ev, i, t); } else { j := i; }
  }

  // ---------------------------------------------------------------- a call that meets no other

  /** Thread `t`, moving alone, gets from `s` to `s'` in `n` steps, of which the last one shows as `e`. */
  ghost predicate Alone(s: State, t: nat, n: nat, e: Event, s': State)
    decreases n
  {
    && Closed(s) && t < |s.threads| && n >= 1 && s.threads[t] != Idle
    && if n == 1 then ThreadStep(s, t, e, s')
       else exists m: State :: ThreadStep(s, t, Silent, m) && Alone(m, t, n - 1, e, s')
  }

  /** What a thread in a call does next is determined, so moving alone it can get nowhere else. */
  lemma Deterministic(s: State, t: nat, e: Event, s': State, e2: Event, s2: State)
    requires Closed(s) && t < |s.threads| && s.threads[t] != Idle && ThreadStep(s, t, e, s') && ThreadStep(s, t, e2, s2)
    ensures e == e2 && s' == s2
  {}

  lemma {:induction false} AloneDetermined(s: State, t: nat, n: nat, e: Event, s': State, n2: nat, e2: Event, s2: State)
    requires Alone(s, t, n, e, s') && Alone(s, t, n2, e2, s2) && n <= n2
    requires t < |s'.threads| && s'.threads[t] == Idle
    ensures n == n2 && e == e2 && s' == s2
    decreases n
  {
    hide ThreadStep, Closed;
    if n == 1 {
      if n2 == 1 {
        Deterministic(s, t, e, s', e2, s2);
      } else {
        var m: State :| ThreadStep(s, t, Silent, m) && Alone(m, t, n2 - 1, e2, s2);
        Deterministic(s, t, e, s', Silent, m);
      }
    } else {
      var m: State :| ThreadStep(s, t, Silent, m) && Alone(m, t, n - 1, e, s');
      var m2: State :| ThreadStep(s, t, Silent, m2) && Alone(m2, t, n2 - 1, e2, s2);
      Deterministic(s, t, Silent, m, Silent, m2);
      AloneDetermined(m, t, n - 1, e, s', n2 - 1, e2, s2);
    }
  }

  lemma StepThen(s: State, t: nat, m: State, n: nat, e: Event, s': State)
    requires Closed(s) && t < |s.threads| && s.threads[t] != Idle && ThreadStep(s, t, Silent, m) && Alone(m, t, n, e, s')
    ensures Alone(s, t, n + 1, e, s')
  {
    hide ThreadStep, Closed;
  }

  lemma FirstNode(s: State, l: seq<Node>)
    requires Inv(s, l) && l != []
    ensures Closed(s) && s.head == To(l[0]) && l[0] in s.nodes && s.refs[l[0]].count >= 1 && s.next[l[0]] == PtrAt(l, 1)
  {
    assert NodeOk(s, l, l[0]);
  }

  /** A step of try_get, and the invariant after it. */
  lemma GetOne(s: State, l: seq<Node>, t: nat, e: Event, s': State)
    requires Inv(s, l) && t < |s.threads| && Getting(s.threads[t]) && GetStep(s, t, e, s')
    ensures Inv(s', ListAfter(s, t, l)) && |s'.threads| == |s.threads| && Closed(s) && ThreadStep(s, t, e, s')
  {
    GetKeeps(s, t, e, s', l);
    GetFrame(s, t, e, s');
  }

  lemma AddOne(s: State, l: seq<Node>, t: nat, e: Event, s': State)
    requires Inv(s, l) && t < |s.threads| && !Getting(s.threads[t]) && AddStep(s, t, e, s')
    ensures Inv(s', ListAfter(s, t, l)) && |s'.threads| == |s.threads| && Closed(s) && ThreadStep(s, t, e, s')
  {
    AddKeeps(s, t, e, s', l);
    AddFrame(s, t, e, s');
  }

  lemma TakeAlone(s: State, l: seq<Node>, t: nat, h: Node) returns (s': State)
    requires Inv(s, l) && t < |s.threads| && s.threads[t] == GetTake(h)
    ensures Inv(s', l) && Alone(s, t, 1, Got(h), s') && t < |s'.threads| && s'.threads[t] == Idle && h in s'.held
  {
    InvClosed(s, l);
    hide Inv, AddStep, PtrAt, PtrIn, Chain;
    assert PcIn(s.threads[t], s.nodes);
    s' := Handed(s, t, h);
    TakeIsStep(s, t, h);
    hide GetStep, Closed, Handed;
    GetOne(s, l, t, Got(h), s');
    HandedFacts(s, t, h);
  }

  function Handed(s: State, t: nat, h: Node): State
    requires t < |s.threads| && h in s.refs
  {
    Goto(s.(refs := s.refs[h := Refs(s.refs[h].should, s.refs[h].count - 2)], held := s.held + {h}), t, Idle)
  }

  lemma TakeIsStep(s: State, t: nat, h: Node)
    requires Closed(s) && t < |s.threads| && s.threads[t] == GetTake(h) && h in s.refs
    ensures GetStep(s, t, Got(h), Handed(s, t, h))
  {
    hide PcIn, PtrIn;
  }

  lemma HandedFacts(s: State, t: nat, h: Node)
    requires t < |s.threads| && h in s.refs && s.threads[t] == GetTake(h)
    ensures var s' := Handed(s, t, h); |s'.threads| == |s.threads| && s'.threads[t] == Idle && h in s'.held
    ensures forall l :: ListAfter(s, t, l) == l
  {}

  lemma CasAlone(s: State, l: seq<Node>, t: nat, h: Node) returns (s': State)
    requires Inv(s, l) && l != [] && h == l[0] && t < |s.threads| && s.threads[t] == GetCas(h, PtrAt(l, 1))
    ensures Inv(s', l[1..]) && Alone(s, t, 2, Got(h), s') && t < |s'.threads| && s'.threads[t] == Idle && h in s'.held
  {
    FirstNode(s, l);
    hide Inv, AddStep, PtrAt;
    var m := Goto(s.(head := PtrAt(l, 1)), t, GetTake(h));
    GetOne(s, l, t, Silent, m);
    s' := TakeAlone(m, l[1..], t, h);
    StepThen(s, t, m, 1, Got(h), s');
  }

  lemma NextAlone(s: State, l: seq<Node>, t: nat, h: Node) returns (s': State)
    requires Inv(s, l) && l != [] && h == l[0] && t < |s.threads| && s.threads[t] == GetNext(h)
    ensures Inv(s', l[1..]) && Alone(s, t, 3, Got(h), s') && t < |s'.threads| && s'.threads[t] == Idle && h in s'.held
  {
    FirstNode(s, l);
    hide Inv, AddStep, PtrAt;
    var m := Goto(s, t, GetCas(h, PtrAt(l, 1)));
    GetOne(s, l, t, Silent, m);
    s' := CasAlone(m, l, t, h);
    StepThen(s, t, m, 2, Got(h), s');
  }

  lemma IncAlone(s: State, l: seq<Node>, t: nat, h: Node) returns (s': State)
    requires Inv(s, l) && l != [] && h == l[0] && t < |s.threads| && s.threads[t] == GetRefs(h)
    ensures Inv(s', l[1..]) && Alone(s, t, 5, Got(h), s') && t < |s'.threads| && s'.threads[t] == Idle && h in s'.held
  {
    FirstNode(s, l);
    hide Inv, AddStep, PtrAt;
    var m := Goto(s, t, GetInc(h, s.refs[h]));
    GetOne(s, l, t, Silent, m);
    var m2 := Goto(m.(refs := m.refs[h := Refs(m.refs[h].should, m.refs[h].count + 1)]), t, GetNext(h));
    GetOne(m, l, t, Silent, m2);
    s' := NextAlone(m2, l, t, h);
    StepThen(m, t, m2, 3, Got(h), s');
    StepThen(s, t, m, 4, Got(h), s');
  }

  lemma InvClosed(s: State, l: seq<Node>)
    requires Inv(s, l)
    ensures Closed(s) && s.head == PtrAt(l, 0)
  {}

  /** A try_get during which no other thread moves, wherever the others stand: it misses if the list is
      empty, and else hands out the first node of the list, in six steps. */
  lemma GetAlone(s: State, l: seq<Node>, t: nat) returns (s': State)
    requires Inv(s, l) && t < |s.threads| && s.threads[t] == GetHead
    ensures l == [] ==> Inv(s', []) && Alone(s, t, 1, Missed, s')
    ensures l != [] ==> Inv(s', l[1..]) && Alone(s, t, 6, Got(l[0]), s') && l[0] in s'.held
    ensures t < |s'.threads| && s'.threads[t] == Idle
  {
    InvClosed(s, l);
    hide Inv, AddStep;
    var m := Goto(s, t, LoopOn(s.head));
    GetOne(s, l, t, if l == [] then Missed else Silent, m);
    if l == [] {
      s' := m;
    } else {
      s' := IncAlone(m, l, t, l[0]);
      StepThen(s, t, m, 5, Got(l[0]), s');
    }
  }

  lemma InsertAlone(s: State, l: seq<Node>, t: nat, n: Node) returns (s': State)
    requires Inv(s, l) && t < |s.threads| && s.threads[t] == InsNext(n, s.head, Return)
    ensures Inv(s', [n] + l) && Alone(s, t, 3, Silent, s') && t < |s'.threads| && s'.threads[t] == Idle
  {
    InvClosed(s, l);
    hide Inv, GetStep, PcIn, PtrIn;
    var m := Goto(s.(next := s.next[n := s.head]), t, InsRefs(n, s.head, Return));
    AddOne(s, l, t, Silent, m);
    InvClosed(m, l);
    s' := StoreAlone(m, l, t, n);
    StepThen(s, t, m, 2, Silent, s');
  }

  lemma StoreAlone(s: State, l: seq<Node>, t: nat, n: Node) returns (s': State)
    requires Inv(s, l) && t < |s.threads| && s.threads[t] == InsRefs(n, s.head, Return)
    ensures Inv(s', [n] + l) && Alone(s, t, 2, Silent, s') && t < |s'.threads| && s'.threads[t] == Idle
  {
    InvClosed(s, l);
    hide Inv, GetStep, PcIn, PtrIn;
    var m := Goto(s.(refs := s.refs[n := Refs(0, 1)]), t, InsCas(n, s.head, Return));
    AddOne(s, l, t, Silent, m);
    InvClosed(m, l);
    s' := Goto(m.(head := To(n)), t, Idle);
    AddOne(m, l, t, Silent, s');
    StepThen(s, t, m, 1, Silent, s');
  }

  lemma FlagFacts(s: State, l: seq<Node>, t: nat, n: Node)
    requires Inv(s, l) && t < |s.threads| && s.threads[t] == AddFlag(n)
    ensures Closed(s) && n in s.nodes && s.refs[n] == Refs(0, Temps(s, n))
  {
    assert ThreadOk(s, l, t);
  }

  /** An add during which no other thread moves: if nobody refers to the node it becomes the first of the
      list, in five steps; else it is left flagged, to whoever drops the last reference. */
  lemma AddAlone(s: State, l: seq<Node>, t: nat, n: Node) returns (s': State)
    requires Inv(s, l) && t < |s.threads| && s.threads[t] == AddFlag(n)
    ensures Temps(s, n) == 0 ==> Inv(s', [n] + l) && Alone(s, t, 5, Silent, s')
    ensures Temps(s, n) > 0 ==> Inv(s', l) && Alone(s, t, 1, Silent, s') && Flagged(s', n)
    ensures t < |s'.threads| && s'.threads[t] == Idle
  {
    FlagFacts(s, l, t, n);
    hide Inv, GetStep, PcIn, PtrIn, Temps;
    var pc := if Temps(s, n) == 0 then InsLoad(n, Return) else Idle;
    var m := Goto(s.(refs := s.refs[n := Refs(1, Temps(s, n))]), t, pc);
    AddOne(s, l, t, Silent, m);
    InvClosed(m, l);
    if Temps(s, n) == 0 {
      var m2 := Goto(m, t, InsNext(n, m.head, Return));
      AddOne(m, l, t, Silent, m2);
      s' := InsertAlone(m2, l, t, n);
      StepThen(m, t, m2, 3, Silent, s');
      StepThen(s, t, m, 4, Silent, s');
    } else {
      s' := m;
      SameTemps(s, t, pc, m, n);
    }
  }

  lemma SameTemps(s: State, t: nat, pc: PC, m: State, n: Node)
    requires t < |s.threads| && s.threads[t].AddFlag? && pc == Idle && m.threads == s.threads[t := pc]
    ensures Temps(m, n) == Temps(s, n)
  {
    TempsAfterMove(s, t, pc, n);
  }
}
