/** Rounding up to a power of two by smearing bits, and masking with a power of two less one.
    Words are natural numbers, with shifting and the bitwise operations written out. */
module PowerOfTwo {
  import Arith

  function Pow2(k: nat): (r: nat)
    ensures r >= 1
  {
    if k == 0 then 1 else 2 * Pow2(k - 1)
  }

  /** x >> k */
  function Shr(x: nat, k: nat): nat { if k == 0 then x else Shr(x / 2, k - 1) }

  /** x | y */
  function Or(x: nat, y: nat): nat
    decreases x + y
  {
    if x == 0 && y == 0 then 0 else 2 * Or(x / 2, y / 2) + (if x % 2 == 1 || y % 2 == 1 then 1 else 0)
  }

  /** x & y */
  function And(x: nat, y: nat): nat
    decreases x + y
  {
    if x == 0 || y == 0 then 0 else 2 * And(x / 2, y / 2) + (if x % 2 == 1 && y % 2 == 1 then 1 else 0)
  }

  /** `k` ones */
  function Ones(k: nat): nat { if k == 0 then 0 else 2 * Ones(k - 1) + 1 }

  function Length(x: nat): nat { if x == 0 then 0 else 1 + Length(x / 2) }

  ghost predicate IsPowerOfTwo(x: nat) { exists k: nat :: x == Pow2(k) }

  // ---------------------------------------------------------------- laws

  lemma {:induction false} OnesIsPow(k: nat)
    ensures Ones(k) + 1 == Pow2(k)
  {
    if k > 0 { OnesIsPow(k - 1); }
  }

  lemma {:induction false} PowMonotone(j: nat, k: nat)
    requires j <= k
    ensures Pow2(j) <= Pow2(k)
  {
    if j < k { PowMonotone(j, k - 1); }
  }

  lemma {:induction false} ShrShr(x: nat, a: nat, b: nat)
    ensures Shr(Shr(x, a), b) == Shr(x, a + b)
  {
    if a > 0 { ShrShr(x / 2, a - 1, b); }
  }

  lemma {:induction false} OrZero(x: nat)
    ensures Or(x, 0) == x == Or(0, x)
  {
    if x > 0 { OrZero(x / 2); }
  }

  lemma {:induction false} ShrOr(x: nat, y: nat, k: nat)
    ensures Shr(Or(x, y), k) == Or(Shr(x, k), Shr(y, k))
  {
    if k > 0 {
      assert Or(x, y) / 2 == Or(x / 2, y / 2);
      ShrOr(x / 2, y / 2, k - 1);
    }
  }

  lemma {:induction false} ShrOnes(k: nat, j: nat)
    ensures Shr(Ones(k), j) == Ones(if j <= k then k - j else 0)
  {
    if j > 0 {
      assert k == 0 ==> Ones(k) / 2 == Ones(0);
      assert k > 0 ==> Ones(k) / 2 == Ones(k - 1);
      ShrOnes(if k == 0 then 0 else k - 1, j - 1);
    }
  }

  /** Filling the low bits under a run of ones. */
  lemma {:induction false} FillLow(z: nat, j: nat, t: nat)
    requires Shr(z, j) == Ones(t)
    ensures Or(z, Ones(j)) == Ones(j + t)
  {
    if j == 0 {
      OrZero(z);
    } else {
      FillLow(z / 2, j - 1, t);
      assert Ones(j) / 2 == Ones(j - 1);
    }
  }

  lemma {:induction false} LengthBounds(x: nat)
    ensures x < Pow2(Length(x)) && (x > 0 ==> Pow2(Length(x) - 1) <= x)
    ensures x > 0 ==> Shr(x, Length(x) - 1) == 1
  {
    if x > 1 { LengthBounds(x / 2); }
  }

  // ---------------------------------------------------------------- smearing

  /** The upper `m` of the `len` bits of `x` are ones. */
  predicate Smeared(x: nat, len: nat, m: nat) { Shr(x, if m <= len then len - m else 0) == Ones(if m <= len then m else len) }

  lemma {:induction false} ShrAll(x: nat, k: nat)
    requires k >= Length(x)
    ensures Shr(x, k) == 0
  {
    if k > 0 { ShrAll(x / 2, k - 1); }
  }

  /** `x |= x >> m` doubles the run of ones at the top. */
  lemma SmearStep(x: nat, len: nat, m: nat)
    requires Smeared(x, len, m)
    ensures Smeared(Or(x, Shr(x, m)), len, 2 * m)
  {
    hide Shr, Or, Ones;
    if 2 * m <= len { SmearInside(x, len, m); } else if m <= len { SmearWhole(x, len, m); } else { SmearPast(x, len, m); }
  }

  lemma SmearInside(x: nat, len: nat, m: nat)
    requires 2 * m <= len && Shr(x, len - m) == Ones(m)
    ensures Shr(Or(x, Shr(x, m)), len - 2 * m) == Ones(2 * m)
  {
    hide Shr, Or, Ones;
    var d := len - 2 * m;
    ShrOr(x, Shr(x, m), d);
    ShrShr(x, m, d);
    ShrShr(x, d, m);
    FillLow(Shr(x, d), m, m);
  }

  lemma SmearWhole(x: nat, len: nat, m: nat)
    requires m <= len < 2 * m && Shr(x, len - m) == Ones(m)
    ensures Shr(Or(x, Shr(x, m)), 0) == Ones(len)
  {
    assert Shr(Or(x, Shr(x, m)), 0) == Or(x, Shr(x, m));
    hide Shr, Or, Ones;
    var j := len - m;
    ShrShr(x, j, 2 * m - len);
    ShrOnes(m, 2 * m - len);
    FillLow(x, j, m);
  }

  lemma SmearPast(x: nat, len: nat, m: nat)
    requires len < m && Shr(x, 0) == Ones(len)
    ensures Shr(Or(x, Shr(x, m)), 0) == Ones(len)
  {
    assert Shr(x, 0) == x && Shr(Or(x, Shr(x, m)), 0) == Or(x, Shr(x, m));
    hide Shr, Or, Ones;
    ShrOnes(len, m);
    OrZero(x);
  }

  /** ceilToPow2 for a size_t of `bytes` bytes. The decrement and the increment wrap, so that zero
      and everything above the largest power of two give zero. */
  method CeilToPow2(x: nat, bytes: nat) returns (r: nat)
    requires bytes >= 1 && x < Pow2(8 * bytes)
    ensures 1 <= x <= Pow2(8 * bytes - 1) ==>
      && IsPowerOfTwo(r) && x <= r
      && forall k: nat :: x <= Pow2(k) ==> r <= Pow2(k)
    ensures !(1 <= x <= Pow2(8 * bytes - 1)) ==> r == 0
  {
    hide Or, Shr, Ones, Length;
    var w := 8 * bytes;
    var y: nat := if x == 0 then Pow2(w) - 1 else x - 1;
    ghost var len := Length(y);
    SmearStart(y);
    LengthWithin(y, w);
    CeilMeaning(x, w, len);
    SmearStep(y, len, 1);
    y := Or(y, Shr(y, 1));
    SmearStep(y, len, 2);
    y := Or(y, Shr(y, 2));
    SmearStep(y, len, 4);
    y := Or(y, Shr(y, 4));
    var i := 1;
    while i < bytes
      invariant i >= 1 && Smeared(y, len, 8 * i)
      decreases bytes - i
    {
      SmearStep(y, len, 8 * i);
      y := Or(y, Shr(y, 8 * i));
      i := 2 * i;
    }
    SmearEnd(y, len, 8 * i);
    r := if y + 1 == Pow2(w) then 0 else y + 1;
  }

  lemma SmearStart(y: nat)
    ensures Smeared(y, Length(y), 1)
  {
    LengthBounds(y);
    assert Ones(1) == 1;
  }

  lemma SmearEnd(y: nat, len: nat, m: nat)
    requires Smeared(y, len, m) && len <= m
    ensures y + 1 == Pow2(len)
  {
    OnesIsPow(len);
  }

  lemma {:induction false} LengthWithin(x: nat, w: nat)
    requires x < Pow2(w)
    ensures Length(x) <= w
  {
    if x > 0 { LengthWithin(x / 2, w - 1); }
  }

  lemma PowInjective(j: nat, k: nat)
    ensures Pow2(j) <= Pow2(k) <==> j <= k
    ensures Pow2(j) == Pow2(k) <==> j == k
  {
    if j < k { PowMonotone(j + 1, k); }
    if k < j { PowMonotone(k + 1, j); }
  }

  lemma CeilMeaning(x: nat, w: nat, len: nat)
    requires w >= 1 && x < Pow2(w) && len == Length(if x == 0 then Pow2(w) - 1 else x - 1) <= w
    ensures 1 <= x ==> x <= Pow2(len) && forall k: nat :: x <= Pow2(k) ==> Pow2(len) <= Pow2(k)
    ensures 1 <= x <= Pow2(w - 1) <==> Pow2(len) != Pow2(w)
  {
    var y: nat := if x == 0 then Pow2(w) - 1 else x - 1;
    LengthBounds(y);
    PowInjective(len, w);
    if len < w { PowMonotone(len, w - 1); }
    forall k: nat | 1 <= x <= Pow2(k) ensures Pow2(len) <= Pow2(k) {
      if y > 0 { PowInjective(k, len - 1); }
      PowInjective(len, k);
    }
  }

  // ---------------------------------------------------------------- masks

  lemma HalfMod(x: nat, p: nat)
    requires p >= 1
    ensures x % (2 * p) == 2 * ((x / 2) % p) + x % 2
  {
    var q, r := (x / 2) / p, (x / 2) % p;
    assert x / 2 == q * p + r;
    assert q * (2 * p) == 2 * (q * p);
    Arith.DivModUnique(x, 2 * p, q, 2 * r + x % 2);
  }

  lemma {:induction false} AndOnes(x: nat, k: nat)
    ensures And(x, Ones(k)) == x % Pow2(k)
  {
    if x == 0 {
      Arith.DivModUnique(0, Pow2(k), 0, 0);
    } else if k > 0 {
      AndOnes(x / 2, k - 1);
      HalfMod(x, Pow2(k - 1));
      assert Ones(k) / 2 == Ones(k - 1);
    }
  }

  lemma MaskIsMod(x: nat, k: nat)
    ensures And(x, Pow2(k) - 1) == x % Pow2(k)
  {
    OnesIsPow(k);
    AndOnes(x, k);
  }

  lemma {:induction false} PowAdd(j: nat, k: nat)
    ensures Pow2(j + k) == Pow2(j) * Pow2(k)
  {
    if j > 0 {
      PowAdd(j - 1, k);
      assert 2 * (Pow2(j - 1) * Pow2(k)) == (2 * Pow2(j - 1)) * Pow2(k);
    }
  }
}
