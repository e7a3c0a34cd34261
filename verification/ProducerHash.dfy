/** The table from thread ids to implicit producers (ConcurrentQueue.h, get_or_add_implicit_producer):
    a chain of open-addressing tables with linear probing, the newest in front. Calls run one at a
    time. */
module ProducerHash {
  import opened Common
  import opened Arith

  type Id = nat
  type Producer = nat

  /** Empty is a key of invalid_thread_id. */
  datatype Slot = Empty | Used(key: Id, value: Producer)

  type Table = seq<Slot>

  /** The slot probed after `j` steps from the hash: masking with the capacity less one. */
  function Walk(h: nat, j: nat, cap: nat): (i: nat)
    requires cap >= 1
    ensures i < cap
  {
    (h + j) % cap
  }

  /** The first `n` slots probed are taken by others. */
  predicate Taken(t: Table, h: nat, n: nat, id: Id)
    requires |t| >= 1
  {
    forall j: nat :: j < n ==> Passed(t, h, j, id)
  }

  predicate Passed(t: Table, h: nat, j: nat, id: Id)
    requires |t| >= 1
  {
    t[Walk(h, j, |t|)].Used? && t[Walk(h, j, |t|)].key != id
  }

  /** Probing for the key of slot `i` gets there in `d` steps. */
  predicate ReachedIn(t: Table, hash: Id -> nat, i: nat, d: nat)
    requires i < |t| && t[i].Used?
  {
    d < |t| && Walk(hash(t[i].key), d, |t|) == i && Taken(t, hash(t[i].key), d, t[i].key)
  }

  ghost predicate Reached(t: Table, hash: Id -> nat, i: nat)
    requires i < |t|
  {
    t[i].Used? ==> exists d: nat :: ReachedIn(t, hash, i, d)
  }

  ghost predicate HasKey(t: Table, id: Id) { exists i: nat :: i < |t| && t[i].Used? && t[i].key == id }

  ghost function Keys(t: Table): set<Id> { set i: nat | i < |t| && t[i].Used? :: t[i].key }

  /** What probing relies on; every table is less than half used. */
  ghost predicate TableOk(t: Table, hash: Id -> nat) {
    && |t| >= 1 && 2 * |Keys(t)| < |t|
    && (forall i: nat :: i < |t| ==> Reached(t, hash, i))
    && (forall i: nat, j: nat :: i < j < |t| && t[i].Used? && t[j].Used? ==> t[i].key != t[j].key)
  }

  // ---------------------------------------------------------------- probing

  /** A whole round of probing visits every slot. */
  lemma WalkReaches(h: nat, i: nat, cap: nat) returns (j: nat)
    requires i < cap
    ensures j < cap && Walk(h, j, cap) == i
  {
    j := (i - h) % cap;
    ModAdd(i - h, h, cap);
    DivModUnique(i, cap, 0, i);
  }

  lemma {:induction false} Pigeonhole(s: seq<Id>, ids: set<Id>)
    requires forall i: nat, j: nat :: i < j < |s| ==> s[i] != s[j]
    requires forall i: nat :: i < |s| ==> s[i] in ids
    ensures |s| <= |ids|
  {
    if |s| > 0 {
      var x := s[|s| - 1];
      Pigeonhole(s[..|s| - 1], ids - {x});
    }
  }

  /** Some slot is free, so probing meets a free slot. */
  lemma FreeSlot(t: Table, hash: Id -> nat) returns (i: nat)
    requires TableOk(t, hash)
    ensures i < |t| && t[i].Empty?
  {
    if forall i: nat :: i < |t| ==> t[i].Used? {
      var s := seq(|t|, i requires 0 <= i < |t| && t[i].Used? => t[i].key);
      assert forall i: nat :: i < |s| ==> t[i].Used? && s[i] == t[i].key;
      Pigeonhole(s, Keys(t));
      assert false;
    }
    i :| i < |t| && t[i].Empty?;
  }

  /** Probing never goes all the way round. */
  lemma ProbeEnds(t: Table, hash: Id -> nat, id: Id, n: nat)
    requires TableOk(t, hash) && Taken(t, hash(id), n, id)
    ensures n < |t|
  {
    if n >= |t| {
      var i := FreeSlot(t, hash);
      var j := WalkReaches(hash(id), i, |t|);
      TakenAt(t, hash(id), n, id, j);
    }
  }

  lemma TakenAt(t: Table, h: nat, n: nat, id: Id, j: nat)
    requires |t| >= 1 && Taken(t, h, n, id)
    ensures j < n ==> Passed(t, h, j, id)
  {}

  /** A free slot met after `n` others, none of them for `id`, means `id` is not in the table. */
  lemma NotInTable(t: Table, hash: Id -> nat, id: Id, n: nat)
    requires TableOk(t, hash) && Taken(t, hash(id), n, id) && t[Walk(hash(id), n, |t|)].Empty?
    ensures !HasKey(t, id) && id !in Keys(t)
  {
    if i: nat :| i < |t| && t[i].Used? && t[i].key == id {
      assert Reached(t, hash, i);
      var d: nat :| ReachedIn(t, hash, i, d);
      TakenAt(t, hash(id), d, id, n);
      TakenAt(t, hash(id), n, id, d);
    }
  }

  /** The search loop over one table. */
  method Search(t: Table, hash: Id -> nat, id: Id) returns (r: Option<Producer>)
    requires TableOk(t, hash)
    ensures r.Some? <==> HasKey(t, id)
    ensures r.Some? ==> Used(id, r.value) in t
  {
    var index := hash(id);
    ghost var n := 0;
    while true
      invariant n <= |t| && Taken(t, hash(id), n, id) && index % |t| == Walk(hash(id), n, |t|)
      decreases |t| - n
    {
      ProbeEnds(t, hash, id, n);
      index := index % |t|;
      if t[index].Used? && t[index].key == id {
        return Some(t[index].value);
      }
      if t[index].Empty? {
        NotInTable(t, hash, id, n);
        return None;
      }
      assert Passed(t, hash(id), n, id);
      ModAdd(hash(id) + n, 1, |t|);
      index := index + 1;
      n := n + 1;
    }
  }

  /** The loop that claims the first free slot for an id that is not in the table. */
  method Claim(t: Table, hash: Id -> nat, id: Id, value: Producer) returns (t': Table)
    requires TableOk(t, hash) && !HasKey(t, id) && 2 * (|Keys(t)| + 1) < |t|
    ensures TableOk(t', hash) && Keys(t') == Keys(t) + {id} && |t'| == |t|
    ensures forall e: Slot :: e.Used? ==> (e in t' <==> e in t || e == Used(id, value))
  {
    var index := hash(id);
    ghost var n := 0;
    while true
      invariant n <= |t| && Taken(t, hash(id), n, id) && index % |t| == Walk(hash(id), n, |t|)
      decreases |t| - n
    {
      ProbeEnds(t, hash, id, n);
      index := index % |t|;
      if t[index].Empty? {
        t' := t[index := Used(id, value)];
        Claimed(t, hash, id, value, n, t');
        return;
      }
      assert Passed(t, hash(id), n, id);
      ModAdd(hash(id) + n, 1, |t|);
      index := index + 1;
      n := n + 1;
    }
  }

  lemma Claimed(t: Table, hash: Id -> nat, id: Id, value: Producer, n: nat, t': Table)
    requires TableOk(t, hash) && !HasKey(t, id) && 2 * (|Keys(t)| + 1) < |t| && n < |t|
    requires Taken(t, hash(id), n, id)
    requires var i := Walk(hash(id), n, |t|); t[i].Empty? && t' == t[i := Used(id, value)]
    ensures TableOk(t', hash) && Keys(t') == Keys(t) + {id} && |t'| == |t|
    ensures forall e: Slot :: e.Used? ==> (e in t' <==> e in t || e == Used(id, value))
  {
    var k := Walk(hash(id), n, |t|);
    assert Keys(t') == Keys(t) + {id} by {
      forall x | x in Keys(t) ensures x in Keys(t') {
        var i: nat :| i < |t| && t[i].Used? && t[i].key == x;
        assert t'[i] == t[i];
      }
      assert t'[k].Used? && t'[k].key == id;
    }
    forall i: nat | i < |t'| ensures Reached(t', hash, i) {
      if i == k {
        TakenStays(t, t', k, hash(id), n, id);
        assert ReachedIn(t', hash, i, n);
      } else if t[i].Used? {
        assert Reached(t, hash, i);
        var d: nat :| ReachedIn(t, hash, i, d);
        TakenStays(t, t', k, hash(t[i].key), d, t[i].key);
        assert ReachedIn(t', hash, i, d);
      }
    }
    forall e: Slot | e.Used? ensures e in t' <==> e in t || e == Used(id, value) {
      if e in t {
        var i :| 0 <= i < |t| && t[i] == e;
        assert t'[i] == e;
      }
      assert t'[k] == Used(id, value);
    }
  }

  lemma TakenStays(t: Table, t': Table, k: nat, h: nat, n: nat, id: Id)
    requires |t'| == |t| && k < |t| && t[k].Empty? && t' == t[k := t'[k]] && Taken(t, h, n, id)
    ensures Taken(t', h, n, id)
  {
    forall j: nat | j < n ensures Passed(t', h, j, id) { assert Passed(t, h, j, id); }
  }

  // ---------------------------------------------------------------- the chain

  predicate Holds(tables: seq<Table>, id: Id, p: Producer) { exists k: nat :: k < |tables| && Used(id, p) in tables[k] }

  lemma EmptyTable(cap: nat, hash: Id -> nat) returns (t: Table)
    requires cap >= 1
    ensures t == seq(cap, i => Empty) && TableOk(t, hash) && Keys(t) == {} && forall e: Slot :: e.Used? ==> e !in t
  {
    t := seq(cap, i => Empty);
    assert Keys(t) == {};
  }

  /** The bindings in the tables are those of the map. */
  ghost predicate Consistent(tables: seq<Table>, bound: map<Id, Producer>) {
    forall id, p :: Holds(tables, id, p) <==> id in bound && bound[id] == p
  }

  lemma TableKeys(tables: seq<Table>, bound: map<Id, Producer>, k: nat)
    requires Consistent(tables, bound) && k < |tables|
    ensures Keys(tables[k]) <= bound.Keys && |Keys(tables[k])| <= |bound|
    ensures forall id :: id in bound && !HasKey(tables[k], id) ==> |Keys(tables[k])| < |bound|
  {
    var t := tables[k];
    forall id | id in Keys(t) ensures id in bound {
      var i: nat :| i < |t| && t[i].Used? && t[i].key == id;
      assert Used(id, t[i].value) in t;
      assert Holds(tables, id, t[i].value);
    }
    Smaller(Keys(t), bound.Keys);
    forall id | id in bound && !HasKey(t, id) ensures |Keys(t)| < |bound| {
      assert id !in Keys(t);
      Smaller(Keys(t) + {id}, bound.Keys);
    }
  }

  lemma {:induction false} Smaller(a: set<Id>, b: set<Id>)
    requires a <= b
    ensures |a| <= |b|
  {
    assert b == a + (b - a);
  }

  /** A table with one binding more. */
  lemma OneMore(tables: seq<Table>, k: nat, t': Table, id: Id, p: Producer, bound: map<Id, Producer>)
    requires Consistent(tables, bound) && k < |tables|
    requires forall e: Slot :: e.Used? ==> (e in t' <==> e in tables[k] || e == Used(id, p))
    requires id in bound ==> bound[id] == p
    ensures Consistent(tables[k := t'], bound[id := p])
  {
    var tables', bound' := tables[k := t'], bound[id := p];
    forall i, q ensures Holds(tables', i, q) <==> i in bound' && bound'[i] == q {
      if Holds(tables, i, q) {
        var j: nat :| j < |tables| && Used(i, q) in tables[j];
        assert Used(i, q) in tables'[j];
      }
      if Holds(tables', i, q) {
        var j: nat :| j < |tables'| && Used(i, q) in tables'[j];
        assert Used(i, q) in tables[j] || Used(i, q) == Used(id, p);
      }
      assert Used(id, p) in tables'[k];
    }
  }

  lemma NewTable(tables: seq<Table>, t: Table, bound: map<Id, Producer>)
    requires Consistent(tables, bound) && forall e: Slot :: e.Used? ==> e !in t
    ensures Consistent(tables + [t], bound)
  {
    forall i, q ensures Holds(tables + [t], i, q) <==> i in bound && bound[i] == q {
      if Holds(tables, i, q) {
        var j: nat :| j < |tables| && Used(i, q) in tables[j];
        assert Used(i, q) in (tables + [t])[j];
      }
      if Holds(tables + [t], i, q) {
        var j: nat :| j < |tables + [t]| && Used(i, q) in (tables + [t])[j];
        assert Used(i, q) !in t;
      }
    }
  }

  /** The tables together hold exactly the bindings, `count` of them, and the main table is less than
      half used even counting those only in older tables; different ids have different producers. */
  ghost predicate ChainOk(tables: seq<Table>, hash: Id -> nat, count: nat, made: nat, bound: map<Id, Producer>) {
    && |tables| >= 1 && (forall k :: 0 <= k < |tables| ==> TableOk(tables[k], hash))
    && Consistent(tables, bound)
    && count == |bound| && 2 * count < |tables[|tables| - 1]|
    && (forall id :: id in bound ==> bound[id] < made)
    && Injective(bound)
  }

  ghost predicate Injective(bound: map<Id, Producer>) {
    forall id, id' :: id in bound && id' in bound && bound[id] == bound[id'] ==> id == id'
  }

  /** `t'` is the main table with one binding more. */
  ghost predicate Entered(tables: seq<Table>, hash: Id -> nat, id: Id, p: Producer, t': Table) {
    && |tables| >= 1 && TableOk(t', hash) && |t'| == |tables[|tables| - 1]|
    && forall e: Slot :: e.Used? ==> (e in t' <==> e in tables[|tables| - 1] || e == Used(id, p))
  }

  lemma Copied(tables: seq<Table>, hash: Id -> nat, count: nat, made: nat, bound: map<Id, Producer>, id: Id, t': Table)
    requires ChainOk(tables, hash, count, made, bound) && id in bound && Entered(tables, hash, id, bound[id], t')
    ensures ChainOk(tables[|tables| - 1 := t'], hash, count, made, bound)
  {
    OneMore(tables, |tables| - 1, t', id, bound[id], bound);
    assert bound[id := bound[id]] == bound;
    hide TableOk, Consistent, Injective;
  }

  lemma Bound(tables: seq<Table>, hash: Id -> nat, count: nat, made: nat, bound: map<Id, Producer>, id: Id, t': Table)
    requires ChainOk(tables, hash, count, made, bound) && id !in bound && Entered(tables, hash, id, made, t')
    requires 2 * (count + 1) < |t'|
    ensures ChainOk(tables[|tables| - 1 := t'], hash, count + 1, made + 1, bound[id := made])
  {
    OneMore(tables, |tables| - 1, t', id, made, bound);
    hide TableOk, Consistent;
    assert bound[id := made].Keys == bound.Keys + {id};
  }

  lemma Grown(tables: seq<Table>, hash: Id -> nat, count: nat, made: nat, bound: map<Id, Producer>, t: Table)
    requires ChainOk(tables, hash, count, made, bound) && TableOk(t, hash) && 2 * count < |t|
    requires forall e: Slot :: e.Used? ==> e !in t
    ensures ChainOk(tables + [t], hash, count, made, bound)
  {
    NewTable(tables, t, bound);
    hide TableOk, Consistent, Injective;
  }

  /** Newest table first; `k` is the table that has the id. */
  method SearchAll(tables: seq<Table>, hash: Id -> nat, id: Id, ghost bound: map<Id, Producer>)
    returns (r: Option<Producer>, k: nat)
    requires (forall k :: 0 <= k < |tables| ==> TableOk(tables[k], hash)) && Consistent(tables, bound)
    ensures r == if id in bound then Some(bound[id]) else None
    ensures r.Some? ==> k < |tables| && HasKey(tables[k], id) && forall j :: k < j < |tables| ==> !HasKey(tables[j], id)
  {
    k := |tables|;
    while k > 0
      invariant 0 <= k <= |tables| && forall j :: k <= j < |tables| ==> !HasKey(tables[j], id)
    {
      k := k - 1;
      r := Search(tables[k], hash, id);
      if r.Some? {
        assert Holds(tables, id, r.value);
        return;
      }
    }
    if id in bound { ghost var j := Somewhere(tables, bound, id); }
    r := None;
  }

  class Producers {
    const hash: Id -> nat
    var tables: seq<Table>       // oldest first: the last one is the main table
    var count: nat               // implicitProducerHashCount
    var resizing: bool           // implicitProducerHashResizeInProgress
    var made: nat                // producers created so far
    ghost var bound: map<Id, Producer>

    function Main(): Table
      reads this
      requires |tables| >= 1
    {
      tables[|tables| - 1]
    }

    ghost predicate Valid()
      reads this
    {
      ChainOk(tables, hash, count, made, bound) && !resizing
    }

    constructor (capacity: nat, h: Id -> nat)
      requires capacity >= 1
      ensures Valid() && bound == map[] && hash == h && |tables| == 1 && |Main()| == capacity
    {
      var t := seq(capacity, i => Empty);
      hash, tables, count, resizing, made, bound := h, [t], 0, false, 0, map[];
      new;
      ghost var e := EmptyTable(capacity, h);
    }

    /** The search through all tables, newest first. An id found in an older table is copied to the
        main one. */
    method Find(id: Id) returns (r: Option<Producer>)
      requires Valid()
      modifies this`tables
      ensures Valid() && |tables| == old(|tables|) && |Main()| == old(|Main()|)
      ensures forall k :: 0 <= k < |tables| - 1 ==> tables[k] == old(tables[k])
      ensures r == if id in bound then Some(bound[id]) else None
      ensures id in bound ==> HasKey(Main(), id)
      ensures id !in bound ==> tables == old(tables)
    {
      hide TableOk, Consistent, Injective, Keys;
      var k;
      r, k := SearchAll(tables, hash, id, bound);
      if r.Some? && k != |tables| - 1 { CopyToMain(id, r.value); }
    }

    /** The lazy copy. There is room: the main table is less than half used even with every id in it. */
    method CopyToMain(id: Id, value: Producer)
      requires Valid() && id in bound && bound[id] == value && !HasKey(Main(), id)
      modifies this`tables
      ensures Valid() && |tables| == old(|tables|) && |Main()| == old(|Main()|)
      ensures forall k :: 0 <= k < |tables| - 1 ==> tables[k] == old(tables[k])
      ensures HasKey(Main(), id)
    {
      hide TableOk, Consistent, Injective, Keys, HasKey;
      TableKeys(tables, bound, |tables| - 1);
      var main := Claim(Main(), hash, id, value);
      Copied(tables, hash, count, made, bound, id, main);
      tables := tables[|tables| - 1 := main];
      KeyThere(main, id);
    }

    /** A bigger table when the main one is about to be half used. */
    method Resize(newCount: nat, mallocOk: bool) returns (ok: bool)
      requires Valid() && newCount == count + 1
      modifies this`tables, this`resizing
      ensures Valid() && !resizing
      ensures ok ==> newCount < |Main()| / 2
      ensures !ok <==> !mallocOk && newCount >= |old(Main())| / 2
      ensures !ok || newCount < |old(Main())| / 2 ==> tables == old(tables)
      ensures tables != old(tables) ==>
        |tables| == |old(tables)| + 1 && (|Main()| == 2 * |old(Main())| || newCount >= |Main()| / 4)
      ensures old(tables) <= tables && forall k :: |old(tables)| <= k < |tables| ==> Keys(tables[k]) == {}
    {
      if newCount >= |Main()| / 2 && !resizing {
        resizing := true;
        if newCount >= |Main()| / 2 {
          var newCapacity := |Main()| * 2;
          while newCount >= newCapacity / 2
            invariant newCapacity >= 2 && (newCapacity == 2 * |Main()| || newCount >= newCapacity / 4)
            decreases 2 * newCount + 2 - newCapacity
          {
            newCapacity := newCapacity * 2;
          }
          if !mallocOk {
            resizing := false;
            return false;
          }
          ghost var e := EmptyTable(newCapacity, hash);
          Grown(tables, hash, count, made, bound, e);
          tables := tables + [seq(newCapacity, i => Empty)];
        }
        resizing := false;
      }
      ok := true;
    }

    /** get_or_add_implicit_producer. `mallocOk` and `newOk` say whether memory for a table and for a
        producer can be had. */
    method GetOrAdd(id: Id, mallocOk: bool, newOk: bool) returns (r: Option<Producer>)
      requires Valid()
      modifies this
      ensures Valid()
      ensures id in old(bound) ==> r == Some(old(bound)[id])
      ensures id !in old(bound) && r.Some? ==> r.value == old(made) && made == old(made) + 1
      ensures bound == if r.Some? then old(bound)[id := r.value] else old(bound)
      ensures r.None? <==> id !in old(bound) && (!newOk || (!mallocOk && old(count) + 1 >= |old(Main())| / 2))
      ensures made >= old(made)
    {
      r := Find(id);
      if r.Some? {
        assert bound == bound[id := r.value];
        return;
      }
      var newCount := 1 + count;
      var ok := Resize(newCount, mallocOk);
      if !ok { return None; }
      assert newCount < |Main()| / 2 + |Main()| / 4;   // so there is never anything to wait for
      hide TableOk, Consistent;
      if !newOk { return None; }
      var producer := made;
      Bind(id, producer);
      r := Some(producer);
    }

    /** A new producer enters the main table. */
    method Bind(id: Id, producer: Producer)
      requires Valid() && id !in bound && producer == made && 2 * (count + 1) < |Main()|
      modifies this
      ensures Valid() && bound == old(bound)[id := producer] && made == old(made) + 1
    {
      hide TableOk, Keys, HasKey, ChainOk;
      RoomForOneMore(tables, hash, count, made, bound, id);
      var main := Claim(Main(), hash, id, producer);
      Bound(tables, hash, count, made, bound, id, main);
      made := made + 1;
      tables := tables[|tables| - 1 := main];
      bound := bound[id := producer];
      count := count + 1;
    }
  }

  lemma RoomForOneMore(tables: seq<Table>, hash: Id -> nat, count: nat, made: nat, bound: map<Id, Producer>, id: Id)
    requires ChainOk(tables, hash, count, made, bound) && id !in bound
    ensures |tables| >= 1 && TableOk(tables[|tables| - 1], hash) && !HasKey(tables[|tables| - 1], id)
    ensures |Keys(tables[|tables| - 1])| <= count
  {
    hide TableOk, Keys, HasKey, Consistent, Injective;
    TableKeys(tables, bound, |tables| - 1);
    Absent(tables, bound, id, |tables| - 1);
  }

  lemma KeyThere(t: Table, id: Id)
    requires id in Keys(t)
    ensures HasKey(t, id)
  {}

  lemma Somewhere(tables: seq<Table>, bound: map<Id, Producer>, id: Id) returns (j: nat)
    requires Consistent(tables, bound) && id in bound
    ensures j < |tables| && HasKey(tables[j], id)
  {
    assert Holds(tables, id, bound[id]);
    j :| j < |tables| && Used(id, bound[id]) in tables[j];
    var i: nat :| i < |tables[j]| && tables[j][i] == Used(id, bound[id]);
  }

  lemma Absent(tables: seq<Table>, bound: map<Id, Producer>, id: Id, k: nat)
    requires Consistent(tables, bound) && id !in bound && k < |tables|
    ensures !HasKey(tables[k], id)
  {
    if HasKey(tables[k], id) {
      var i: nat :| i < |tables[k]| && tables[k][i].Used? && tables[k][i].key == id;
      assert Holds(tables, id, tables[k][i].value);
    }
  }

  datatype Call = Call(id: Id, mallocOk: bool, newOk: bool)

  /** Any number of calls, one at a time: two calls that succeed return the same producer exactly when
      they come from the same thread, and after a success no later call of that thread fails. */
  method CallAll(p: Producers, calls: seq<Call>) returns (results: seq<Option<Producer>>)
    requires p.Valid()
    modifies p
    ensures p.Valid() && |results| == |calls|
    ensures forall i: nat, j: nat :: i < |calls| && j < |calls| && results[i].Some? && results[j].Some? ==>
              (calls[i].id == calls[j].id <==> results[i] == results[j])
    ensures forall i: nat, j: nat :: i < j < |calls| && calls[i].id == calls[j].id && results[i].Some? ==> results[j].Some?
    ensures forall i: nat :: i < |calls| && calls[i].mallocOk && calls[i].newOk ==> results[i].Some?
  {
    hide ChainOk;
    results := [];
    while |results| < |calls|
      invariant p.Valid() && |results| <= |calls|
      invariant forall i: nat :: i < |results| && results[i].Some? ==> Has(p.bound, calls[i].id, results[i].value)
      invariant forall i: nat, j: nat :: i < j < |results| && calls[i].id == calls[j].id && results[i].Some? ==> results[j].Some?
      invariant forall i: nat :: i < |results| && calls[i].mallocOk && calls[i].newOk ==> results[i].Some?
    {
      var c := calls[|results|];
      var r := p.GetOrAdd(c.id, c.mallocOk, c.newOk);
      results := results + [r];
    }
    Injectivity(p.tables, p.hash, p.count, p.made, p.bound);
  }

  predicate Has(bound: map<Id, Producer>, id: Id, p: Producer) { id in bound && bound[id] == p }

  lemma Injectivity(tables: seq<Table>, hash: Id -> nat, count: nat, made: nat, bound: map<Id, Producer>)
    requires ChainOk(tables, hash, count, made, bound)
    ensures forall id, id', p :: Has(bound, id, p) && Has(bound, id', p) ==> id == id'
  {}

  /** Every table has a free slot, so that every probe loop ends. With one caller at a time less than
      half of a table is used, so the bound of three quarters holds with room to spare. */
  lemma FreeSlotEverywhere(tables: seq<Table>, hash: Id -> nat, count: nat, made: nat, bound: map<Id, Producer>, k: nat) returns (i: nat)
    requires ChainOk(tables, hash, count, made, bound) && k < |tables|
    ensures i < |tables[k]| && tables[k][i].Empty? && 4 * |Keys(tables[k])| < 3 * |tables[k]|
  {
    i := FreeSlot(tables[k], hash);
  }
}
