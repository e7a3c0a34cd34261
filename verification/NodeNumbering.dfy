/** How the nodal solver numbers its unknowns (MNASolver.cpp): network nodes without ground, then the
    virtual nodes that components ask for, each with one simulation node or, if three-phase, three. */
module NodeNumbering {

  /** One past the largest UInt. */
  const UINT: int := 0x1_0000_0000

  type SimNodes = s: seq<nat> | |s| == 3 witness [0, 0, 0]

  class Node {
    const ground: bool
    const threePhase: bool
    var sim: SimNodes   // the simulation nodes; a single-phase node uses the first only

    constructor (ground: bool, threePhase: bool)
      ensures this.ground == ground && this.threePhase == threePhase && sim == [0, 0, 0]
    {
      this.ground, this.threePhase, sim := ground, threePhase, [0, 0, 0];
    }

    method SetSimNode(phase: nat, index: nat)
      requires phase < 3
      modifies this
      ensures sim == old(sim)[phase := index]
    {
      sim := sim[phase := index];
    }
  }

  class Component {
    const power: bool         // a power component of the solver's domain
    const hasVirtual: bool
    const wanted: nat         // virtualNodesNumber()
    var virtualNodes: seq<Node?>

    constructor (power: bool, hasVirtual: bool, wanted: nat)
      ensures this.power == power && this.hasVirtual == hasVirtual && this.wanted == wanted && |virtualNodes| == wanted
    {
      this.power, this.hasVirtual, this.wanted := power, hasVirtual, wanted;
      virtualNodes := seq(wanted, _ => null);
    }

    method SetVirtualNodeAt(n: Node, at: nat)
      requires at < |virtualNodes|
      modifies this
      ensures virtualNodes == old(virtualNodes)[at := n]
    {
      virtualNodes := virtualNodes[at := n];
    }
  }

  // ---------------------------------------------------------------- counting

  function Share(c: Component): nat { if c.power && c.hasVirtual then c.wanted else 0 }

  /** The virtual nodes of all the components. */
  function Shares(cs: seq<Component>): nat { if cs == [] then 0 else Shares(cs[..|cs| - 1]) + Share(cs[|cs| - 1]) }

  lemma {:induction false} SharesGrow(cs: seq<Component>, i: nat, j: nat)
    requires i <= j <= |cs|
    ensures Shares(cs[..i]) <= Shares(cs[..j])
    ensures i < |cs| ==> Shares(cs[..i + 1]) == Shares(cs[..i]) + Share(cs[i])
  {
    if i < |cs| { assert cs[..i + 1][..i] == cs[..i]; }
    if i < j {
      SharesGrow(cs, i, j - 1);
      assert cs[..j][..j - 1] == cs[..j - 1];
    }
  }

  lemma NoShares()
    ensures Shares([]) == 0
  {}

  lemma RoomFor(cs: seq<Component>, k: nat)
    requires k < |cs|
    ensures Shares(cs[..k + 1]) == Shares(cs[..k]) + Share(cs[k]) <= Shares(cs)
  {
    SharesGrow(cs, k, |cs|);
    SharesGrow(cs, k + 1, |cs|);
    assert cs[..|cs|] == cs;
  }

  function Width(threePhase: bool): nat { if threePhase then 3 else 1 }

  /** The number of simulation nodes of these nodes, by their phases. */
  function Widths(kinds: seq<bool>): nat { if kinds == [] then 0 else Widths(kinds[..|kinds| - 1]) + Width(kinds[|kinds| - 1]) }

  lemma {:induction false} WidthsGrow(kinds: seq<bool>, i: nat, j: nat)
    requires i < j <= |kinds|
    ensures Widths(kinds[..i]) + Width(kinds[i]) <= Widths(kinds[..j])
    ensures Widths(kinds[..i + 1]) == Widths(kinds[..i]) + Width(kinds[i])
  {
    assert kinds[..i + 1][..i] == kinds[..i];
    if i + 1 < j {
      WidthsGrow(kinds, i, j - 1);
      assert kinds[..j][..j - 1] == kinds[..j - 1];
    }
  }

  function ThreePhases(kinds: seq<bool>): nat { if kinds == [] then 0 else ThreePhases(kinds[..|kinds| - 1]) + if kinds[|kinds| - 1] then 1 else 0 }

  /** One number for each node, and two more for each three-phase one. */
  lemma {:induction false} WidthsMeaning(kinds: seq<bool>)
    ensures Widths(kinds) == |kinds| + 2 * ThreePhases(kinds)
  {
    if kinds != [] { WidthsMeaning(kinds[..|kinds| - 1]); }
  }

  function Kinds(nodes: seq<Node>): (k: seq<bool>)
    ensures |k| == |nodes| && forall i :: 0 <= i < |k| ==> k[i] == nodes[i].threePhase
  {
    seq(|nodes|, i requires 0 <= i < |nodes| => nodes[i].threePhase)
  }

  function NonGround(nodes: seq<Node>): seq<Node> {
    if nodes == [] then []
    else NonGround(nodes[..|nodes| - 1]) + if nodes[|nodes| - 1].ground then [] else [nodes[|nodes| - 1]]
  }

  predicate Distinct<T(==)>(s: seq<T>) { forall i, j :: 0 <= i < j < |s| ==> s[i] != s[j] }

  lemma {:induction false} NonGroundAre(nodes: seq<Node>)
    ensures forall n :: n in NonGround(nodes) <==> n in nodes && !n.ground
    ensures Distinct(nodes) ==> Distinct(NonGround(nodes))
    ensures |NonGround(nodes)| <= |nodes|
  {
    if nodes != [] {
      var front, last := nodes[..|nodes| - 1], nodes[|nodes| - 1];
      NonGroundAre(front);
      assert nodes == front + [last];
      if Distinct(nodes) { assert last !in front; }
    }
  }

  // ---------------------------------------------------------------- places and numbers

  /** Phase `p` of node `i` gets number `Widths(kinds[..i]) + p`. */
  predicate Place(kinds: seq<bool>, i: int, p: int) { 0 <= i < |kinds| && 0 <= p < Width(kinds[i]) }

  function Number(kinds: seq<bool>, i: int, p: int): nat
    requires Place(kinds, i, p)
  {
    Widths(kinds[..i]) + p
  }

  /** Distinct places have distinct numbers, all below the total. */
  lemma NumbersApart(kinds: seq<bool>, i: int, p: int, j: int, q: int)
    requires Place(kinds, i, p) && Place(kinds, j, q) && Number(kinds, i, p) == Number(kinds, j, q)
    ensures i == j && p == q
  {
    if i < j { WidthsGrow(kinds, i, j); }
    if j < i { WidthsGrow(kinds, j, i); }
  }

  /** Every number below the total is that of some place. */
  lemma {:induction false} NumbersCover(kinds: seq<bool>, x: nat) returns (i: nat, p: nat)
    requires x < Widths(kinds)
    ensures Place(kinds, i, p) && Number(kinds, i, p) == x
  {
    var n := |kinds| - 1;
    var before := Widths(kinds[..n]);
    if x >= before {
      i, p := n, x - before;
    } else {
      i, p := NumbersCover(kinds[..n], x);
      assert kinds[..n][..i] == kinds[..i];
    }
  }

  /** The first `net` nodes have exactly the numbers below `Widths(kinds[..net])`. */
  lemma NetworkFirst(kinds: seq<bool>, net: nat, i: int, p: int)
    requires Place(kinds, i, p) && net <= |kinds|
    ensures i < net <==> Number(kinds, i, p) < Widths(kinds[..net])
    ensures Number(kinds, i, p) < Widths(kinds)
  {
    assert kinds[..|kinds|] == kinds;
    WidthsGrow(kinds, i, |kinds|);
    if i < net { WidthsGrow(kinds, i, net); } else if net < i { WidthsGrow(kinds, net, i); }
  }

  // ---------------------------------------------------------------- the solver

  /** The virtual nodes of component `k`: one after the other, from `base`, behind those of the earlier ones. */
  ghost predicate Served(nodes: seq<Node>, base: nat, cs: seq<Component>, k: nat)
    requires k < |cs|
    reads cs[k]
  {
    var at := base + Shares(cs[..k]);
    && |cs[k].virtualNodes| == cs[k].wanted && at + Share(cs[k]) <= |nodes|
    && forall v :: 0 <= v < Share(cs[k]) ==> cs[k].virtualNodes[v] == nodes[at + v]
  }

  lemma ServedExtends(nodes: seq<Node>, more: seq<Node>, base: nat, cs: seq<Component>, k: nat)
    requires k < |cs| && Served(nodes, base, cs, k) && nodes <= more
    ensures Served(more, base, cs, k)
  {}

  lemma ServedNow(before: seq<Node>, nodes: seq<Node>, base: nat, cs: seq<Component>, k: nat)
    requires k < |cs| && |before| == base + Shares(cs[..k]) && |cs[k].virtualNodes| == cs[k].wanted && before <= nodes
    requires Share(cs[k]) > 0 ==> cs[k].virtualNodes == nodes[|before|..]
    ensures Served(nodes, base, cs, k)
  {}

  /** Component `c` is given virtual nodes. */
  predicate Gets(c: Component) { c.power && c.hasVirtual }

  /** Each virtual node of each component is one of the nodes behind `base`. */
  lemma VirtualNodeIs(nodes: seq<Node>, base: nat, cs: seq<Component>, k: nat, v: nat)
    requires k < |cs| && Gets(cs[k]) && v < cs[k].wanted && Served(nodes, base, cs, k)
    ensures v < |cs[k].virtualNodes| && base + Shares(cs[..k]) + v < |nodes| && cs[k].virtualNodes[v] == nodes[base + Shares(cs[..k]) + v]
  {}

  ghost predicate Given(virtuals: seq<Node>, c: Component)
    reads c
  {
    Gets(c) ==> |c.virtualNodes| == c.wanted && forall v :: 0 <= v < c.wanted ==> c.virtualNodes[v] in virtuals
  }

  /** Every component has the virtual nodes it wants, out of these. */
  ghost predicate AllGiven(virtuals: seq<Node>, cs: seq<Component>)
    reads cs
  {
    forall k :: 0 <= k < |cs| ==> Given(virtuals, cs[k])
  }

  lemma ServedGives(nodes: seq<Node>, base: nat, cs: seq<Component>)
    requires base <= |nodes| && forall k :: 0 <= k < |cs| ==> Served(nodes, base, cs, k)
    ensures AllGiven(nodes[base..], cs)
  {
    hide Shares;
    forall k | 0 <= k < |cs| && Gets(cs[k]) ensures Given(nodes[base..], cs[k]) {
      assert Served(nodes, base, cs, k);
      forall v | 0 <= v < cs[k].wanted ensures cs[k].virtualNodes[v] in nodes[base..] {
        VirtualNodeIs(nodes, base, cs, k, v);
        assert nodes[base..][Shares(cs[..k]) + v] == cs[k].virtualNodes[v];
      }
    }
  }

  /** No virtual node is given twice. */
  lemma VirtualNodesApart(nodes: seq<Node>, base: nat, cs: seq<Component>, k: nat, v: nat, l: nat, w: nat)
    requires k < |cs| && l < |cs| && Gets(cs[k]) && Gets(cs[l]) && v < cs[k].wanted && w < cs[l].wanted && (k, v) != (l, w)
    requires Served(nodes, base, cs, k) && Served(nodes, base, cs, l) && Distinct(nodes)
    ensures v < |cs[k].virtualNodes| && w < |cs[l].virtualNodes| && cs[k].virtualNodes[v] != cs[l].virtualNodes[w]
  {
    VirtualNodeIs(nodes, base, cs, k, v);
    VirtualNodeIs(nodes, base, cs, l, w);
    if k < l { SharesGrow(cs, k, l); SharesGrow(cs, k + 1, l); }
    if l < k { SharesGrow(cs, l, k); SharesGrow(cs, l + 1, k); }
  }

  /** Nodes from `base` on are pairwise distinct. */
  predicate DistinctFrom(nodes: seq<Node>, base: nat) { forall i, j :: base <= i < j < |nodes| ==> nodes[i] != nodes[j] }

  class Numbering {
    var nodes: seq<Node>
    var numNetNodes: nat
    var numNodes: nat
    var numVirtualNodes: nat
    var numSimNodes: nat
    var numNetSimNodes: nat
    var numVirtualSimNodes: nat

    constructor ()
      ensures nodes == [] && numNetSimNodes == 0
    {
      nodes := [];
      numNetNodes, numNodes, numVirtualNodes := 0, 0, 0;
      numSimNodes, numNetSimNodes, numVirtualSimNodes := 0, 0, 0;
    }

    /** The node part of identifyTopologyObjects. */
    method Identify(system: seq<Node>)
      requires nodes == []
      modifies this`nodes
      ensures nodes == NonGround(system)
    {
      for i := 0 to |system|
        invariant nodes == NonGround(system[..i])
      {
        assert system[..i + 1][..i] == system[..i];
        if !system[i].ground { nodes := nodes + [system[i]]; }
      }
      assert system[..|system|] == system;
    }

    /** The inner loop of createVirtualNodes: fresh nodes for one component, at the end of the list.
        `last` is the number of the last node, wrapping below zero while there is none. */
    method ServeOne(c: Component, last: int) returns (last': int)
      requires |c.virtualNodes| == c.wanted && |nodes| + c.wanted < UINT && last == (|nodes| - 1) % UINT
      modifies this`nodes, c
      ensures |nodes| == |old(nodes)| + c.wanted && old(nodes) <= nodes && last' == (|nodes| - 1) % UINT
      ensures c.virtualNodes == nodes[|old(nodes)|..]
      ensures forall i :: |old(nodes)| <= i < |nodes| ==> fresh(nodes[i])
      ensures DistinctFrom(nodes, |old(nodes)|)
    {
      ghost var n := |nodes|;
      last' := last;
      for v := 0 to c.wanted
        invariant |nodes| == n + v && old(nodes) == nodes[..n] && last' == (|nodes| - 1) % UINT
        invariant |c.virtualNodes| == c.wanted
        invariant forall i :: 0 <= i < v ==> c.virtualNodes[i] == nodes[n + i]
        invariant forall i :: n <= i < |nodes| ==> fresh(nodes[i])
        invariant forall i, j :: n <= i < j < |nodes| ==> nodes[i] != nodes[j]
      {
        last' := (last' + 1) % UINT;
        var threePhase := *;
        var node := new Node(false, threePhase);
        nodes := nodes + [node];
        c.SetVirtualNodeAt(nodes[last'], v);
      }
    }

    method CreateVirtualNodes(cs: seq<Component>)
      requires Distinct(cs) && |nodes| + Shares(cs) < UINT
      requires forall k :: 0 <= k < |cs| ==> |cs[k].virtualNodes| == cs[k].wanted
      modifies this, cs
      ensures numNetNodes == |old(nodes)| && old(nodes) <= nodes
      ensures numNodes == |nodes| == numNetNodes + Shares(cs) && numVirtualNodes == Shares(cs)
      ensures forall k :: 0 <= k < |cs| ==> Served(nodes, numNetNodes, cs, k)
      ensures forall k :: 0 <= k < |cs| && Share(cs[k]) == 0 ==> cs[k].virtualNodes == old(cs[k].virtualNodes)
      ensures (forall i :: numNetNodes <= i < |nodes| ==> fresh(nodes[i])) && DistinctFrom(nodes, numNetNodes)
      ensures numNetSimNodes == old(numNetSimNodes)
    {
      hide Shares, Served;
      NoShares();
      numNetNodes := |nodes|;
      var last := (numNetNodes - 1) % UINT;
      for k := 0 to |cs|
        invariant |nodes| == numNetNodes + Shares(cs[..k]) && old(nodes) <= nodes && numNetNodes == |old(nodes)|
        invariant last == (|nodes| - 1) % UINT && numNetSimNodes == old(numNetSimNodes)
        invariant forall j :: 0 <= j < k ==> Served(nodes, numNetNodes, cs, j)
        invariant forall j :: k <= j < |cs| ==> cs[j].virtualNodes == old(cs[j].virtualNodes)
        invariant forall j :: 0 <= j < k && Share(cs[j]) == 0 ==> cs[j].virtualNodes == old(cs[j].virtualNodes)
        invariant (forall i :: numNetNodes <= i < |nodes| ==> fresh(nodes[i])) && DistinctFrom(nodes, numNetNodes)
      {
        RoomFor(cs, k);
        ghost var before := nodes;
        if cs[k].power && cs[k].hasVirtual { last := ServeOne(cs[k], last); }
        forall j | 0 <= j <= k ensures Served(nodes, numNetNodes, cs, j) {
          if j < k {
            assert cs[j] != cs[k] && Served(before, numNetNodes, cs, j);
            ServedExtends(before, nodes, numNetNodes, cs, j);
          } else {
            ServedNow(before, nodes, numNetNodes, cs, k);
          }
        }
      }
      assert cs[..|cs|] == cs;
      numNodes := |nodes|;
      numVirtualNodes := numNodes - numNetNodes;
    }

    // Assigning the numbers.

    /** Each phase of each of the first `n` nodes carries the number of its place. */
    ghost predicate Numbered(n: nat)
      reads this`nodes, nodes
      requires n <= |nodes|
    {
      forall i, p :: 0 <= i < n && 0 <= p < Width(nodes[i].threePhase) ==>
        nodes[i].sim[p] == Widths(Kinds(nodes)[..i]) + p
    }

    method AssignSimNodes()
      requires Distinct(nodes) && |nodes| < UINT && numNetNodes <= |nodes| && numNetSimNodes == 0
      modifies this`numSimNodes, this`numNetSimNodes, this`numVirtualSimNodes, nodes
      ensures Numbered(|nodes|)
      ensures numSimNodes == Widths(Kinds(nodes)) && numNetSimNodes == Widths(Kinds(nodes)[..numNetNodes])
      ensures numSimNodes == numNetSimNodes + numVirtualSimNodes
      ensures numSimNodes == |nodes| + 2 * ThreePhases(Kinds(nodes))
      ensures forall i :: 0 <= i < |nodes| && nodes[i].threePhase ==> nodes[i].sim[1] == nodes[i].sim[0] + 1 && nodes[i].sim[2] == nodes[i].sim[0] + 2
    {
      hide Widths, Numbered;
      ghost var kinds := Kinds(nodes);
      var index := 0;
      TotalsAgree(kinds, numNetNodes);
      NoneNumbered();
      for i := 0 to |nodes|
        invariant index == Widths(kinds[..i]) && Numbered(i)
        invariant numNetSimNodes == if i >= numNetNodes then Widths(kinds[..numNetNodes]) else 0
      {
        WidthsGrow(kinds, i, |nodes|);
        NumberNode(i, index);
        index := index + Width(nodes[i].threePhase);
        if i == (numNetNodes - 1) % UINT { numNetSimNodes := index; }
      }
      assert kinds[..|nodes|] == kinds;
      numSimNodes := index;
      numVirtualSimNodes := numSimNodes - numNetSimNodes;
      WidthsMeaning(kinds);
      InARow();
    }

    lemma InARow()
      requires Numbered(|nodes|)
      ensures forall i :: 0 <= i < |nodes| && nodes[i].threePhase ==> nodes[i].sim[1] == nodes[i].sim[0] + 1 && nodes[i].sim[2] == nodes[i].sim[0] + 2
    {
      hide Widths;
    }

    lemma NoneNumbered()
      ensures Numbered(0)
    {}

    /** One turn of the loop: the next one or three numbers go to node `i`. */
    method NumberNode(i: nat, index: nat)
      requires Distinct(nodes) && i < |nodes| && Numbered(i) && index == Widths(Kinds(nodes)[..i])
      modifies nodes[i]
      ensures Numbered(i + 1)
    {
      nodes[i].SetSimNode(0, index);
      if nodes[i].threePhase {
        nodes[i].SetSimNode(1, index + 1);
        nodes[i].SetSimNode(2, index + 2);
      }
    }

    /** The numbering is a bijection onto `0 .. numSimNodes`, and network nodes have the first numbers. */
    lemma SimNodesAreBijection(x: nat) returns (i: nat, p: nat)
      requires Numbered(|nodes|) && numSimNodes == Widths(Kinds(nodes)) && x < numSimNodes
      requires numNetNodes <= |nodes| && numNetSimNodes == Widths(Kinds(nodes)[..numNetNodes])
      ensures Place(Kinds(nodes), i, p) && nodes[i].sim[p] == x
      ensures i < numNetNodes <==> x < numNetSimNodes
      ensures forall j, q :: Place(Kinds(nodes), j, q) && nodes[j].sim[q] == x ==> j == i && q == p
      ensures forall j, q :: Place(Kinds(nodes), j, q) ==> nodes[j].sim[q] < numSimNodes
    {
      var kinds := Kinds(nodes);
      i, p := NumbersCover(kinds, x);
      NetworkFirst(kinds, numNetNodes, i, p);
      forall j, q | Place(kinds, j, q)
        ensures nodes[j].sim[q] < numSimNodes
        ensures nodes[j].sim[q] == x ==> j == i && q == p
      {
        NetworkFirst(kinds, numNetNodes, j, q);
        assert nodes[j].sim[q] == Number(kinds, j, q);
        if nodes[j].sim[q] == x { NumbersApart(kinds, i, p, j, q); }
      }
    }
  }

  lemma TotalsAgree(kinds: seq<bool>, n: nat)
    requires n <= |kinds|
    ensures Widths(kinds[..n]) <= Widths(kinds) && Widths(kinds[..0]) == 0
  {
    assert kinds[..|kinds|] == kinds;
    if n < |kinds| { WidthsGrow(kinds, n, |kinds|); }
  }

  /** The steps of initialize that number the nodes, for any system with distinct nodes and components. */
  method Prepare(s: Numbering, system: seq<Node>, cs: seq<Component>)
    requires s.nodes == [] && s.numNetSimNodes == 0 && Distinct(system) && Distinct(cs)
    requires |system| + Shares(cs) < UINT
    requires forall k :: 0 <= k < |cs| ==> |cs[k].virtualNodes| == cs[k].wanted
    modifies s, cs, system
    ensures s.numNetNodes <= |s.nodes| && s.nodes[..s.numNetNodes] == NonGround(system)
    ensures |s.nodes| == s.numNetNodes + Shares(cs)
    ensures Distinct(s.nodes) && forall i :: s.numNetNodes <= i < |s.nodes| ==> fresh(s.nodes[i])
    ensures forall k :: 0 <= k < |cs| ==> Served(s.nodes, s.numNetNodes, cs, k)
    ensures s.Numbered(|s.nodes|) && s.numSimNodes == Widths(Kinds(s.nodes))
    ensures s.numNetSimNodes == Widths(Kinds(s.nodes)[..s.numNetNodes])
    ensures AllGiven(s.nodes[s.numNetNodes..], cs)
  {
    hide Shares, Served, Widths, AllGiven;
    NonGroundAre(system);
    s.Identify(system);
    s.CreateVirtualNodes(cs);
    ghost var net := NonGround(system);
    forall i | 0 <= i < |s.nodes| ensures s.nodes[i] in system || fresh(s.nodes[i]) {
      if i < |net| { assert s.nodes[i] == net[i] && net[i] in net; }
    }
    s.AssignSimNodes();
    ServedGives(s.nodes, s.numNetNodes, cs);
  }
}
