/** How the nodal solver (MNASolver.cpp) keeps one factorization per state of the switches. Matrices
    stand for the switch positions they were stamped with; the numerics are not modelled, and switches
    are taken to be stamped as switches only. */
module MnaSolver {
  import opened Events
  import opened PowerOfTwo

  const SWITCH_NUM: nat := 32

  /** A system matrix: zero, or stamped with the components and the switches in these positions. */
  datatype Matrix = Blank | Stamped(positions: seq<bool>)

  /** A factorization: default-constructed, or of a matrix. */
  datatype Factor = Unset | LU(matrix: Matrix)

  // ---------------------------------------------------------------- switch positions as numbers

  /** The positions as a number: switch `i` is bit `i`. */
  function Key(sw: seq<bool>): nat { if sw == [] then 0 else (if sw[0] then 1 else 0) + 2 * Key(sw[1..]) }

  /** The lowest `n` bits of `k`; std::bitset(k) for `n == SWITCH_NUM`. */
  function Bits(k: nat, n: nat): (sw: seq<bool>)
    ensures |sw| == n
  {
    if n == 0 then [] else [k % 2 == 1] + Bits(k / 2, n - 1)
  }

  /** Positions as a bit set. */
  function Padded(sw: seq<bool>): (b: seq<bool>)
    requires |sw| <= SWITCH_NUM
    ensures |b| == SWITCH_NUM
  {
    sw + seq(SWITCH_NUM - |sw|, _ => false)
  }

  lemma {:induction false} BitsOfKey(sw: seq<bool>)
    ensures Bits(Key(sw), |sw|) == sw && Key(sw) < Pow2(|sw|)
  {
    if sw != [] { BitsOfKey(sw[1..]); }
  }

  lemma {:induction false} KeyOfBits(k: nat, n: nat)
    requires k < Pow2(n)
    ensures Key(Bits(k, n)) == k
  {
    if n > 0 {
      KeyOfBits(k / 2, n - 1);
      assert Bits(k, n)[1..] == Bits(k / 2, n - 1);
    }
  }

  lemma {:induction false} KeyOfZeros(z: seq<bool>)
    requires forall i :: 0 <= i < |z| ==> !z[i]
    ensures Key(z) == 0
  {
    if z != [] { KeyOfZeros(z[1..]); }
  }

  lemma {:induction false} KeyPadded(sw: seq<bool>, z: seq<bool>)
    requires forall i :: 0 <= i < |z| ==> !z[i]
    ensures Key(sw + z) == Key(sw)
  {
    if sw == [] {
      assert sw + z == z;
      KeyOfZeros(z);
    } else {
      assert (sw + z)[1..] == sw[1..] + z;
      KeyPadded(sw[1..], z);
    }
  }

  lemma {:induction false} TwiceFits(n: nat)
    requires n >= 1
    ensures 2 * n <= Pow2(n)
    ensures n >= 3 ==> 2 * n < Pow2(n)
  {
    assert Pow2(1) == 2 && Pow2(2) == 2 * Pow2(1) && Pow2(3) == 2 * Pow2(2);
    if n > 3 { TwiceFits(n - 1); }
  }

  // ---------------------------------------------------------------- the stored keys

  /** The bit sets of the numbers below `m`. */
  ghost function Below(m: nat): set<seq<bool>> { if m == 0 then {} else Below(m - 1) + {Bits(m - 1, SWITCH_NUM)} }

  /** The keys that createEmptySystemMatrix stores for `n` switches. */
  ghost function Stored(n: nat): set<seq<bool>> { Below(2 * n) }

  lemma {:induction false} BelowExactly(m: nat, b: seq<bool>)
    requires m <= Pow2(SWITCH_NUM)
    ensures b in Below(m) <==> |b| == SWITCH_NUM && Key(b) < m
  {
    hide Pow2;
    if m > 0 {
      BelowExactly(m - 1, b);
      KeyOfBits(m - 1, SWITCH_NUM);
      BitsOfKey(b);
    }
  }

  lemma StoredExactly(n: nat, b: seq<bool>)
    requires n <= SWITCH_NUM
    ensures b in Stored(n) <==> |b| == SWITCH_NUM && Key(b) < 2 * n
    ensures Stored(n) == {} <==> n == 0
  {
    TwiceFits(SWITCH_NUM);
    BelowExactly(2 * n, b);
    if n > 0 { assert Bits(2 * n - 1, SWITCH_NUM) in Stored(n); }
  }

  /** What `operator[]` gives, which default-constructs a factorization that is not there. */
  function FactorAt(m: map<seq<bool>, Factor>, b: seq<bool>): Factor { if b in m then m[b] else Unset }

  /** The factorization that solving with the positions `b` last read uses. */
  function Used(n: nat, b: seq<bool>): Factor
    requires n <= |b|
  {
    if n == 0 then LU(Stamped([])) else if Key(b) < 2 * n then LU(Stamped(b[..n])) else Unset
  }

  ghost predicate FactorsOf(m: map<seq<bool>, Factor>, n: nat) {
    n <= SWITCH_NUM && forall b :: |b| == SWITCH_NUM ==> FactorAt(m, b) == if b in Stored(n) then LU(Stamped(b[..n])) else Unset
  }

  class Solver {
    const plant: Plant
    const count: nat                              // mSwitches.size()
    var matrices: map<seq<bool>, Matrix>          // mSwitchedMatrices
    var factorizations: map<seq<bool>, Factor>    // mLuFactorizations
    var common: Factor                            // mTmpLuFactorization
    var status: seq<bool>                         // mCurrentSwitchStatus

    constructor (plant: Plant)
      ensures this.plant == plant && count == |plant.closed| && matrices == map[] && factorizations == map[]
      ensures status == seq(SWITCH_NUM, _ => false)
    {
      this.plant, count := plant, |plant.closed|;
      matrices, factorizations, common := map[], map[], Unset;
      status := seq(SWITCH_NUM, _ => false);
    }

    ghost predicate Valid()
      reads this
    {
      && count <= SWITCH_NUM == |status|
      && (forall i :: count <= i < SWITCH_NUM ==> !status[i])
      && matrices.Keys == Stored(count)
      && FactorsOf(factorizations, count)
      && (count == 0 ==> common == LU(Stamped([])))
    }

    /** The switch-dependent part of initialize: one matrix and one factorization per stored key, each
        stamped with the positions its key spells; with more than SWITCH_NUM switches it throws. */
    method Initialize() returns (ok: bool)
      requires count == |plant.closed| && matrices == map[] && factorizations == map[] && status == seq(SWITCH_NUM, _ => false)
      modifies this
      ensures ok == (count <= SWITCH_NUM)
      ensures ok ==> Valid() && status == Padded(plant.closed)
    {
      var n := count;
      if n > SWITCH_NUM { return false; }
      CreateMatrices();
      common := LU(Stamped(plant.closed));
      Factorize();
      UpdateSwitchStatus();
      return true;
    }

    /** The loop over mSwitchedMatrices, in any order. */
    method Factorize()
      requires count <= SWITCH_NUM && matrices.Keys == Stored(count) && factorizations == map[]
      modifies this`matrices, this`factorizations
      ensures matrices.Keys == old(matrices.Keys) && FactorsOf(factorizations, count)
    {
      var n := count;
      var todo := matrices.Keys;
      while todo != {}
        invariant todo <= matrices.Keys == Stored(n)
        invariant factorizations.Keys == matrices.Keys - todo
        invariant forall b :: b in factorizations ==> n <= |b| && factorizations[b] == LU(Stamped(b[..n]))
        decreases |todo|
      {
        var b :| b in todo;
        StoredExactly(n, b);
        matrices := matrices[b := Stamped(b[..n])];
        factorizations := factorizations[b := LU(matrices[b])];
        todo := todo - {b};
      }
    }

    /** createEmptySystemMatrix */
    method CreateMatrices()
      requires matrices == map[]
      modifies this`matrices
      ensures matrices.Keys == Stored(count)
    {
      var i := 0;
      while i < 2 * count
        invariant i <= 2 * count
        invariant matrices.Keys == Below(i)
      {
        matrices := matrices[Bits(i, SWITCH_NUM) := Blank];
        i := i + 1;
      }
    }

    method UpdateSwitchStatus()
      requires count == |plant.closed| && count <= SWITCH_NUM == |status|
      requires forall i :: count <= i < SWITCH_NUM ==> !status[i]
      modifies this`status
      ensures status == Padded(plant.closed)
    {
      for i := 0 to count
        invariant |status| == SWITCH_NUM && status[..i] == plant.closed[..i]
        invariant forall j :: count <= j < SWITCH_NUM ==> !status[j]
      {
        status := status[i := plant.closed[i]];
      }
    }

    /** Which factorization a solve uses; one that is missing is added default-constructed. */
    method Solve() returns (f: Factor)
      requires Valid()
      modifies this`factorizations
      ensures Valid() && f == Used(count, status)
    {
      StoredExactly(count, status);
      if |matrices| > 0 {
        factorizations := factorizations[status := FactorAt(factorizations, status)];
        f := factorizations[status];
      } else {
        f := common;
      }
    }

    /** A time step: solve with the positions read last time, then read them anew. */
    method Step(time: real, timeStep: real) returns (next: real, f: Factor)
      requires Valid() && count == |plant.closed|
      modifies this
      ensures Valid() && status == Padded(plant.closed)
      ensures next == time + timeStep && f == Used(count, old(status))
    {
      f := Solve();
      UpdateSwitchStatus();
      next := time + timeStep;
    }
  }

  // ---------------------------------------------------------------- what is covered

  /** Solving uses the matrix stamped with the positions last read, exactly if they spell a number
      below twice the number of switches (or there are no switches). */
  lemma SolvesRightExactly(sw: seq<bool>)
    requires |sw| <= SWITCH_NUM
    ensures Used(|sw|, Padded(sw)) == LU(Stamped(sw)) <==> sw == [] || Key(sw) < 2 * |sw|
    ensures Used(|sw|, Padded(sw)) == (if sw == [] || Key(sw) < 2 * |sw| then LU(Stamped(sw)) else Unset)
  {
    KeyPadded(sw, seq(SWITCH_NUM - |sw|, _ => false));
    assert Padded(sw)[..|sw|] == sw;
  }

  ghost predicate AllCovered(n: nat)
    requires n <= SWITCH_NUM
  {
    forall sw: seq<bool> :: |sw| == n ==> Used(n, Padded(sw)) == LU(Stamped(sw))
  }

  /** All positions of `n` switches are covered exactly if there are at most two of them. */
  lemma CoveredExactly(n: nat)
    requires n <= SWITCH_NUM
    ensures AllCovered(n) <==> n <= 2
  {
    if n <= 2 {
      forall sw: seq<bool> | |sw| == n ensures Used(n, Padded(sw)) == LU(Stamped(sw)) {
        BitsOfKey(sw);
        assert Pow2(1) == 2 && Pow2(2) == 2 * Pow2(1);
        SolvesRightExactly(sw);
      }
    } else {
      TwiceFits(n);
      var sw := Bits(2 * n, n);
      KeyOfBits(2 * n, n);
      SolvesRightExactly(sw);
      assert Used(n, Padded(sw)) != LU(Stamped(sw));
    }
  }
}
