/** `gcd` and `permute_args` of Compat/getopt.h: exchanging two adjacent blocks of argv in place
    by following the gcd-many cycles of a rotation. */
module PermuteArgs {
  import Arith

  /** Euclid's loop. Besides the divisor it gives its cofactors and Bezout's identity for them,
      which together make it the greatest common divisor (see GcdIsGreatest). */
  method Gcd(a0: int, b0: int) returns (g: int, ghost p: int, ghost q: int, ghost u: int, ghost v: int)
    requires a0 >= 1 && b0 >= 1
    ensures g >= 1 && a0 == p * g && b0 == q * g && u * p + v * q == 1
  {
    var a, b := a0, b0;
    var c := a % b;
    // a and b are combinations of a0 and b0, and the other way round
    ghost var x1, y1, x2, y2 := 1, 0, 0, 1;
    ghost var m1, n1, m2, n2 := 1, 0, 0, 1;
    while c != 0
      invariant a >= 1 && b >= 1 && c == a % b
      invariant a == x1 * a0 + y1 * b0 && b == x2 * a0 + y2 * b0
      invariant a0 == m1 * a + n1 * b && b0 == m2 * a + n2 * b
      decreases b
    {
      ghost var k := a / b;
      assert a == k * b + c;
      CombineStep(a, b, c, k, x1, y1, x2, y2, a0, b0);
      BackStep(a, b, c, k, m1, n1, a0);
      BackStep(a, b, c, k, m2, n2, b0);
      x1, y1, x2, y2 := x2, y2, x1 - k * x2, y1 - k * y2;
      m1, n1, m2, n2 := m1 * k + n1, m1, m2 * k + n2, m2;
      a := b;
      b := c;
      c := a % b;
    }
    g := b;
    ghost var k := a / b;
    p, q, u, v := m1 * k + n1, m2 * k + n2, x2, y2;
    assert a == k * b;
    assert m1 * a == (m1 * k) * b && m2 * a == (m2 * k) * b;
    Unit(g, a0, b0, p, q, u, v);
  }

  lemma CombineStep(a: int, b: int, c: int, k: int, x1: int, y1: int, x2: int, y2: int, a0: int, b0: int)
    requires a == k * b + c && a == x1 * a0 + y1 * b0 && b == x2 * a0 + y2 * b0
    ensures c == (x1 - k * x2) * a0 + (y1 - k * y2) * b0
  {
    assert k * b == k * (x2 * a0) + k * (y2 * b0);
    assert (x1 - k * x2) * a0 == x1 * a0 - k * (x2 * a0);
    assert (y1 - k * y2) * b0 == y1 * b0 - k * (y2 * b0);
  }

  lemma BackStep(a: int, b: int, c: int, k: int, m: int, n: int, z: int)
    requires a == k * b + c && z == m * a + n * b
    ensures z == (m * k + n) * b + m * c
  {
    assert m * a == m * (k * b) + m * c;
    assert (m * k + n) * b == m * (k * b) + n * b;
  }

  lemma Unit(g: int, a: int, b: int, p: int, q: int, u: int, v: int)
    requires g >= 1 && a == p * g && b == q * g && g == u * a + v * b
    ensures u * p + v * q == 1
  {
    assert u * a == (u * p) * g && v * b == (v * q) * g;
    assert (u * p + v * q - 1) * g == 0;
    Arith.ZeroMultiple(u * p + v * q - 1, g);
  }

  /** Cofactors and Bezout's identity make `g` the greatest common divisor. */
  lemma GcdIsGreatest(g: int, p: int, q: int, u: int, v: int, d: int)
    requires g >= 1 && u * p + v * q == 1
    requires d >= 1 && (p * g) % d == 0 && (q * g) % d == 0
    ensures g % d == 0 && d <= g
  {
    var x, y := (p * g) / d, (q * g) / d;
    assert p * g == x * d && q * g == y * d;
    assert g == u * (p * g) + v * (q * g) by {
      assert (u * p + v * q) * g == u * (p * g) + v * (q * g);
    }
    assert g == (u * x + v * y) * d by {
      assert u * (x * d) == (u * x) * d && v * (y * d) == (v * y) * d;
    }
    Arith.ModPlusMultiple(0, u * x + v * y, d);
    Arith.PositiveFactor(u * x + v * y, d);
  }

  // ---------------------------------------------------------------- the cycles of a rotation

  /** A rotation of `nn + no` places, with the arithmetic of `g = gcd(nn, no)`: nn = p g, no = q g,
      w q + u (p + q) = 1. */
  datatype Rotation = Rotation(nn: int, no: int, g: int, p: int, q: int, w: int, u: int) {
    ghost predicate Valid() {
      && nn >= 1 && no >= 1 && g >= 1 && p >= 1 && q >= 1
      && nn == p * g && no == q * g && w * q + u * (p + q) == 1
    }
    ghost function N(): int { nn + no }
    ghost function Len(): int { p + q }
  }

  /** Where the element that belongs to place `x` comes from. */
  ghost function Source(z: Rotation, x: int): int
    requires z.Valid()
  {
    (x + z.nn) % z.N()
  }

  /** The `k`-th place visited from `c`. */
  ghost function Visit(z: Rotation, c: int, k: int): int
    requires z.Valid()
  {
    (c + k * z.no) % z.N()
  }

  /** The visit at which place `x` of the same cycle is reached: Visit's inverse, by Bezout. */
  ghost function Turn(z: Rotation, c: int, x: int): int
    requires z.Valid()
  {
    (z.w * ((x - c) / z.g)) % z.Len()
  }

  /** Same remainder modulo the gcd, hence same cycle. */
  ghost predicate OnCycle(z: Rotation, c: int, x: int)
    requires z.Valid()
  {
    (x - c) % z.g == 0
  }

  lemma LengthTimesGcd(z: Rotation)
    requires z.Valid()
    ensures z.N() == z.Len() * z.g && z.Len() * z.no == z.q * z.N() && z.N() >= 2
  {
    assert (z.p + z.q) * z.g == z.p * z.g + z.q * z.g;
    assert z.Len() * z.no == z.Len() * (z.q * z.g) == z.q * (z.Len() * z.g);
  }

  /** Every place with the right remainder is visited: cycles cover. */
  lemma VisitTurn(z: Rotation, c: int, x: int)
    requires z.Valid() && 0 <= x < z.N() && OnCycle(z, c, x)
    ensures 0 <= Turn(z, c, x) < z.Len() && Visit(z, c, Turn(z, c, x)) == x
  {
    LengthTimesGcd(z);
    var n, len := z.N(), z.Len();
    var t := (x - c) / z.g;
    assert x - c == t * z.g;
    var e := (z.w * t) / len;
    var k := Turn(z, c, x);
    assert z.w * t == e * len + k;
    // k no = w t no - e len no, and w no = g - u n
    assert k * z.no == (z.w * t) * z.no - (e * len) * z.no by { assert (e * len + k) * z.no == (e * len) * z.no + k * z.no; }
    assert (e * len) * z.no == (e * z.q) * n by { assert (e * len) * z.no == e * (len * z.no); }
    assert z.w * z.no == z.g - z.u * n by {
      assert z.w * (z.q * z.g) == (z.w * z.q) * z.g;
      assert (z.w * z.q + z.u * len) * z.g == (z.w * z.q) * z.g + z.u * (len * z.g);
    }
    assert (z.w * t) * z.no == t * (z.w * z.no);
    assert t * (z.g - z.u * n) == t * z.g - (t * z.u) * n;
    assert c + k * z.no == x + (-(t * z.u) - e * z.q) * n by {
      assert (-(t * z.u) - e * z.q) * n == -((t * z.u) * n) - (e * z.q) * n;
    }
    Arith.ModPlusMultiple(x, -(t * z.u) - e * z.q, n);
    Arith.DivModUnique(x, n, 0, x);
  }

  lemma TurnAlgebra(w: int, q: int, u: int, len: int, k: int, m: int)
    requires w * q + u * len == 1
    ensures w * (k * q - m * len) == k + (-(k * u) - w * m) * len
  {
    assert w * (k * q - m * len) == (w * q) * k - (w * m) * len by {
      assert w * (k * q) == (w * q) * k && w * (m * len) == (w * m) * len;
      assert w * (k * q - m * len) == w * (k * q) - w * (m * len);
    }
    assert (w * q) * k == k - (k * u) * len by {
      assert (w * q + u * len) * k == (w * q) * k + (k * u) * len;
    }
    assert (-(k * u) - w * m) * len == -((k * u) * len) - (w * m) * len;
  }

  lemma VisitOffset(z: Rotation, c: int, k: int) returns (m: int)
    requires z.Valid()
    ensures 0 <= Visit(z, c, k) < z.N() && Visit(z, c, k) - c == (k * z.q - m * z.Len()) * z.g
  {
    LengthTimesGcd(z);
    var n, len := z.N(), z.Len();
    m := (c + k * z.no) / n;
    assert c + k * z.no == m * n + Visit(z, c, k);
    assert k * (z.q * z.g) == (k * z.q) * z.g && m * (len * z.g) == (m * len) * z.g;
    assert (k * z.q - m * len) * z.g == (k * z.q) * z.g - (m * len) * z.g;
  }

  lemma TurnOfOffset(w: int, q: int, u: int, g: int, len: int, k: int, m: int, d: int)
    requires g >= 1 && 0 <= k < len && w * q + u * len == 1 && d == (k * q - m * len) * g
    ensures d % g == 0 && (w * (d / g)) % len == k
  {
    var t := k * q - m * len;
    Arith.DivModUnique(d, g, t, 0);
    TurnAlgebra(w, q, u, len, k, m);
    Arith.ModPlusMultiple(k, -(k * u) - w * m, len);
    Arith.DivModUnique(k, len, 0, k);
  }

  /** No place is visited twice in one round: the first return is after exactly Len visits. */
  lemma TurnVisit(z: Rotation, c: int, k: int)
    requires z.Valid() && 0 <= k < z.Len()
    ensures 0 <= Visit(z, c, k) < z.N() && OnCycle(z, c, Visit(z, c, k)) && Turn(z, c, Visit(z, c, k)) == k
  {
    var m := VisitOffset(z, c, k);
    TurnOfOffset(z.w, z.q, z.u, z.g, z.Len(), k, m, Visit(z, c, k) - c);
  }

  /** One visit on is the step the loop takes, and it leads from an element's source to its place. */
  lemma VisitNext(z: Rotation, c: int, k: int)
    requires z.Valid()
    ensures var x := Visit(z, c, k);
            && 0 <= x < z.N()
            && Visit(z, c, k + 1) == (if x >= z.nn then x - z.nn else x + z.no)
            && Source(z, Visit(z, c, k + 1)) == x
  {
    LengthTimesGcd(z);
    var n, x := z.N(), Visit(z, c, k);
    var y := if x >= z.nn then x - z.nn else x + z.no;
    assert c + (k + 1) * z.no == (c + k * z.no) + z.no;
    Arith.ModAdd(c + k * z.no, z.no, n);
    assert Visit(z, c, k + 1) == (x + z.no) % n;
    Arith.DivModUnique(x + z.no, n, if x >= z.nn then 1 else 0, y);
    Arith.DivModUnique(y + z.nn, n, if x >= z.nn then 0 else 1, x);
  }

  lemma FullCircle(z: Rotation, c: int)
    requires z.Valid() && 0 <= c < z.N()
    ensures Visit(z, c, 0) == c && Visit(z, c, z.Len()) == c && Turn(z, c, c) == 0 && OnCycle(z, c, c)
  {
    LengthTimesGcd(z);
    Arith.DivModUnique(c, z.N(), 0, c);
    Arith.ModPlusMultiple(c, z.q, z.N());
    Arith.DivModUnique(0, z.g, 0, 0);
    assert z.w * 0 == 0;
    Arith.DivModUnique(0, z.Len(), 0, 0);
  }

  // ---------------------------------------------------------------- permute_args

  /** The place `x` has got its final element `before[Source(x)]`, in the block that begins at `start`. */
  ghost predicate Moved<T>(z: Rotation, start: int, a: seq<T>, before: seq<T>, x: int)
    requires z.Valid() && 0 <= start && start + z.N() <= |a| == |before| && 0 <= x < z.N()
  {
    0 <= Source(z, x) < z.N() && a[start + x] == before[start + Source(z, x)]
  }

  /** Inside the cycle of `c`, after `j` swaps: the places visited are final, `c` holds the element
      in transit, and everything else is as it was. */
  ghost predicate CycleState<T>(z: Rotation, start: int, a: seq<T>, before: seq<T>, c: int, j: int)
    requires z.Valid() && 0 <= start && start + z.N() <= |a| == |before| && 0 <= c < z.N()
  {
    && 0 <= j <= z.Len()
    && (forall y :: 0 <= y < |a| && !(start <= y < start + z.N()) ==> a[y] == before[y])
    && (forall x :: 0 <= x < z.N() && !OnCycle(z, c, x) ==> a[start + x] == before[start + x])
    && (forall x :: 0 <= x < z.N() && x != c && OnCycle(z, c, x) ==>
          if Turn(z, c, x) <= j then Moved(z, start, a, before, x) else a[start + x] == before[start + x])
    && (if j < z.Len() then 0 <= Visit(z, c, j) < z.N() && a[start + c] == before[start + Visit(z, c, j)]
        else Moved(z, start, a, before, c))
  }

  /** One pass of the inner loop. */
  lemma SwapStep<T>(z: Rotation, start: int, a: seq<T>, before: seq<T>, c: int, j: int, a': seq<T>)
    requires z.Valid() && 0 <= start && start + z.N() <= |a| == |before| && 0 <= c < z.N()
    requires CycleState(z, start, a, before, c, j) && j < z.Len()
    requires 0 <= Visit(z, c, j + 1) < z.N()
    requires a' == a[start + Visit(z, c, j + 1) := a[start + c]][start + c := a[start + Visit(z, c, j + 1)]]
    ensures CycleState(z, start, a', before, c, j + 1)
  {
    hide Visit, Turn, Source, OnCycle, Rotation.Valid;
    VisitNext(z, c, j);
    FullCircle(z, c);
    if j + 1 < z.Len() { TurnVisit(z, c, j + 1); }
    forall x | 0 <= x < z.N() && x != c && OnCycle(z, c, x)
      ensures if Turn(z, c, x) <= j + 1 then Moved(z, start, a', before, x) else a'[start + x] == before[start + x]
    {
      VisitTurn(z, c, x);
    }
  }

  lemma StartCycle<T>(z: Rotation, start: int, a: seq<T>, c: int)
    requires z.Valid() && 0 <= start && start + z.N() <= |a| && 0 <= c < z.N()
    ensures CycleState(z, start, a, a, c, 0)
  {
    hide Visit, Turn, Source, OnCycle;
    FullCircle(z, c);
    forall x | 0 <= x < z.N() && x != c && OnCycle(z, c, x) ensures Turn(z, c, x) > 0 { VisitTurn(z, c, x); }
  }

  /** After `i` cycles: the places whose remainder modulo the gcd is below `i` are final. */
  ghost predicate AfterCycles<T>(z: Rotation, start: int, a: seq<T>, before: seq<T>, i: int)
    requires z.Valid() && 0 <= start && start + z.N() <= |a| == |before|
  {
    && (forall y :: 0 <= y < |a| && !(start <= y < start + z.N()) ==> a[y] == before[y])
    && (forall x :: 0 <= x < z.N() ==>
          if Class(z, x) < i then Moved(z, start, a, before, x) else a[start + x] == before[start + x])
  }

  lemma NoCycles<T>(z: Rotation, start: int, a: seq<T>)
    requires z.Valid() && 0 <= start && start + z.N() <= |a|
    ensures AfterCycles(z, start, a, a, 0)
  {}

  ghost function Class(z: Rotation, x: int): int
    requires z.Valid()
  {
    x % z.g
  }

  lemma SmallRemainder(d: int, g: int)
    requires g >= 1 && -g < d < g && d % g == 0
    ensures d == 0
  {
    assert d == (d / g) * g;
    Arith.ZeroMultiple(d / g, g);
  }

  lemma SameRemainder(x: int, i: int, p: int, g: int)
    requires g >= 1 && 0 <= i < g
    ensures (x - (p * g + i)) % g == 0 <==> x % g == i
  {
    var d, k := x % g - i, x / g - p;
    assert x - (p * g + i) == d + k * g by { assert (x / g - p) * g == (x / g) * g - p * g; }
    Arith.ModPlusMultiple(d, k, g);
    if d % g == 0 { SmallRemainder(d, g); }
  }

  lemma SourceIsOrigin(z: Rotation, x: int)
    requires z.Valid() && 0 <= x < z.N()
    ensures Source(z, x) == Origin(z, x) && 0 <= Origin(z, x) < z.N()
  {
    Arith.DivModUnique(x + z.nn, z.N(), if x < z.no then 0 else 1, Origin(z, x));
  }

  lemma SourceClass(z: Rotation, x: int)
    requires z.Valid() && 0 <= x < z.N()
    ensures Source(z, x) == Origin(z, x) && 0 <= Origin(z, x) < z.N() && Class(z, Source(z, x)) == Class(z, x)
  {
    SourceIsOrigin(z, x);
    if x < z.no {
      Arith.ModPlusMultiple(x, z.p, z.g);
    } else {
      assert x - z.no == x + (-z.q) * z.g;
      Arith.ModPlusMultiple(x, -z.q, z.g);
    }
  }

  ghost function Origin(z: Rotation, x: int): int { if x < z.no then x + z.nn else x - z.no }

  /** Cycle `i` starts at nn + i and consists of the places with remainder `i`: the cycles are
      disjoint, and an element never leaves its cycle. */
  lemma CycleIsClass(z: Rotation, i: int, x: int)
    requires z.Valid() && 0 <= i < z.g && 0 <= x < z.N()
    ensures z.nn + i < z.N() && (OnCycle(z, z.nn + i, x) <==> Class(z, x) == i)
    ensures 0 <= Source(z, x) < z.N() && Class(z, Source(z, x)) == Class(z, x)
  {
    Arith.MulPositive(z.q, z.g);
    SameRemainder(x, i, z.p, z.g);
    SourceClass(z, x);
  }

  lemma NextCycle<T>(z: Rotation, start: int, a: seq<T>, mid: seq<T>, before: seq<T>, i: int)
    requires z.Valid() && 0 <= start && start + z.N() <= |a| == |mid| == |before|
    requires 0 <= i < z.g && z.nn + i < z.N() && AfterCycles(z, start, mid, before, i)
    requires CycleState(z, start, a, mid, z.nn + i, z.Len())
    ensures AfterCycles(z, start, a, before, i + 1)
  {
    hide Visit, Turn, Source, OnCycle, Class, Rotation.Valid;
    var c := z.nn + i;
    forall x | 0 <= x < z.N()
      ensures if Class(z, x) < i + 1 then Moved(z, start, a, before, x) else a[start + x] == before[start + x]
    {
      CycleIsClass(z, i, x);
      if OnCycle(z, c, x) {
        if x != c { VisitTurn(z, c, x); }
        assert Moved(z, start, a, mid, x);
      }
    }
  }

  lemma CyclesDone<T>(z: Rotation, start: int, a: seq<T>, before: seq<T>)
    requires z.Valid() && 0 <= start && start + z.N() <= |a| == |before|
    requires AfterCycles(z, start, a, before, z.g)
    ensures z.nn >= 1 && z.no >= 1 && a == Exchanged(before, start, start + z.nn, start + z.N())
  {
    PositiveBlocks(z);
    hide Source, Class, Rotation.Valid;
    var e := Exchanged(before, start, start + z.nn, start + z.N());
    forall y | 0 <= y < |a| ensures a[y] == e[y] {
      var x := y - start;
      if 0 <= x < z.N() {
        SourceClass(z, x);
        ClassBelow(z, x);
        assert Moved(z, start, a, before, x);
      }
    }
  }

  lemma PositiveBlocks(z: Rotation)
    requires z.Valid()
    ensures z.nn >= 1 && z.no >= 1
  {}

  lemma ClassBelow(z: Rotation, x: int)
    requires z.Valid()
    ensures Class(z, x) < z.g
  {}

  /** The sequence with the adjacent blocks [start, end) and [end, stop) exchanged, each in its order. */
  function Exchanged<T>(s: seq<T>, start: nat, end: nat, stop: nat): (r: seq<T>)
    requires start <= end <= stop <= |s|
    ensures |r| == |s| && multiset(r) == multiset(s)
  {
    assert s == s[..start] + s[start..end] + s[end..stop] + s[stop..];
    s[..start] + s[end..stop] + s[start..end] + s[stop..]
  }

  lemma CycleLength(z: Rotation)
    requires z.Valid()
    ensures z.N() / z.g == z.Len() >= 1 && z.g >= 1
  {
    LengthTimesGcd(z);
    Arith.DivModUnique(z.N(), z.g, z.Len(), 0);
  }

  /** permute_args. Both blocks must be non-empty: the source divides by their gcd. */
  method Permute<T>(start: nat, end: nat, stop: nat, argv: array<T>)
    requires start < end < stop <= argv.Length
    modifies argv
    ensures argv[..] == Exchanged(old(argv[..]), start, end, stop)
  {
    hide Visit, Turn, Source, OnCycle, Class, CycleState, AfterCycles, Rotation.Valid, Exchanged;
    var nnonopts, nopts := end - start, stop - end;
    ghost var p, q, u, v;
    var ncycle;
    ncycle, p, q, u, v := Gcd(nnonopts, nopts);
    ghost var z := MakeRotation(nnonopts, nopts, ncycle, p, q, u, v);
    LengthTimesGcd(z);
    CycleLength(z);
    var cyclelen := (stop - start) / ncycle;
    ghost var before := argv[..];
    NoCycles(z, start, before);
    var i := 0;
    while i < ncycle
      invariant 0 <= i <= ncycle
      invariant AfterCycles(z, start, argv[..], before, i)
    {
      CycleIsClass(z, i, 0);
      var cstart := end + i;
      var pos := cstart;
      ghost var mid := argv[..];
      ghost var c := z.nn + i;
      StartCycle(z, start, mid, c);
      FullCircle(z, c);
      var j := 0;
      while j < cyclelen
        invariant 0 <= j <= cyclelen == z.Len()
        invariant pos == start + Visit(z, c, j) && start <= pos < stop
        invariant CycleState(z, start, argv[..], mid, c, j)
      {
        VisitNext(z, c, j);
        VisitNext(z, c, j + 1);
        ghost var a := argv[..];
        if pos >= end {
          pos := pos - nnonopts;
        } else {
          pos := pos + nopts;
        }
        var swap := argv[pos];
        argv[pos] := argv[cstart];
        argv[cstart] := swap;
        assert argv[..] == a[start + Visit(z, c, j + 1) := a[start + c]][start + c := a[start + Visit(z, c, j + 1)]];
        SwapStep(z, start, a, mid, c, j, argv[..]);
        j := j + 1;
      }
      NextCycle(z, start, argv[..], mid, before, i);
      i := i + 1;
    }
    CyclesDone(z, start, argv[..], before);
  }

  ghost function MakeRotation(nn: int, no: int, g: int, p: int, q: int, u: int, v: int): (z: Rotation)
    requires nn >= 1 && no >= 1 && g >= 1 && nn == p * g && no == q * g && u * p + v * q == 1
    ensures z.Valid() && z.nn == nn && z.no == no && z.g == g
  {
    Arith.PositiveFactor(p, g);
    Arith.PositiveFactor(q, g);
    assert (v - u) * q + u * (p + q) == u * p + v * q;
    Rotation(nn, no, g, p, q, v - u, u)
  }
}
