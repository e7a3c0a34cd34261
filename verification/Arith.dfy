/** Facts about division and remainder by a variable divisor that several components share. */
module Arith {

  lemma MulPositive(k: int, b: int)
    requires k >= 1 && b >= 1
    ensures k * b >= b
  {
    assert k * b == (k - 1) * b + b;
  }

  lemma PositiveFactor(k: int, b: int)
    requires b >= 1 && k * b >= 1
    ensures k >= 1 && k * b >= b
  {
    assert (1 - k) * b == b - k * b;
    if k <= 0 { MulPositive(1 - k, b); }
    if k >= 1 { MulPositive(k, b); }
  }

  lemma ZeroMultiple(k: int, b: int)
    requires b >= 1 && -b < k * b < b
    ensures k == 0
  {
    assert (-k) * b == -(k * b);
    if k >= 1 { MulPositive(k, b); }
    if k <= -1 { MulPositive(-k, b); }
  }

  /** Quotient and remainder are determined by their defining equation. */
  lemma DivModUnique(i: int, b: int, q: int, r: int)
    requires b >= 1 && i == q * b + r && 0 <= r < b
    ensures i / b == q && i % b == r
  {
    var q' := i / b;
    assert i == q' * b + i % b;
    assert (q - q') * b == i % b - r;
    ZeroMultiple(q - q', b);
  }

  lemma ModPlusMultiple(a: int, k: int, b: int)
    requires b >= 1
    ensures (a + k * b) % b == a % b
    ensures (a + k * b) / b == a / b + k
  {
    assert a + k * b == (a / b + k) * b + a % b;
    DivModUnique(a + k * b, b, a / b + k, a % b);
  }

  /** A remainder may be taken before adding. */
  lemma ModAdd(a: int, c: int, b: int)
    requires b >= 1
    ensures (a % b + c) % b == (a + c) % b
  {
    assert a + c == (a % b + c) + (a / b) * b;
    ModPlusMultiple(a % b + c, a / b, b);
  }

  /** Numbers less than `b` apart with the same remainder are equal. */
  lemma ModInjective(a: int, c: int, b: int)
    requires b >= 1 && a <= c < a + b && a % b == c % b
    ensures a == c
  {
    var k := c / b - a / b;
    assert c - a == k * b by {
      assert a == (a / b) * b + a % b;
      assert c == (c / b) * b + c % b;
    }
    ZeroMultiple(k, b);
  }

  lemma DivMonotone(a: int, c: int, b: int)
    requires b >= 1 && a <= c
    ensures a / b <= c / b
  {
    assert a == (a / b) * b + a % b;
    assert c == (c / b) * b + c % b;
    var k := a / b - c / b;
    assert k * b == (a / b) * b - (c / b) * b;
    if k >= 1 { MulPositive(k, b); }
  }

  /** Counting on by one either stays in the block or starts the next one. */
  lemma DivModNext(i: int, b: int)
    requires b >= 1
    ensures i % b + 1 < b ==> (i + 1) / b == i / b && (i + 1) % b == i % b + 1
    ensures i % b + 1 == b ==> (i + 1) / b == i / b + 1 && (i + 1) % b == 0
  {
    assert i == (i / b) * b + i % b;
    if i % b + 1 < b {
      DivModUnique(i + 1, b, i / b, i % b + 1);
    } else {
      assert i + 1 == (i / b + 1) * b;
      DivModUnique(i + 1, b, i / b + 1, 0);
    }
  }

  /** A multiple of a multiple: reducing modulo the larger one first changes nothing. */
  lemma ModOfMod(a: int, b: int, m: int)
    requires b >= 1 && m >= 1
    ensures b * m >= 1 && (a % (b * m)) % b == a % b
  {
    MulPositive(b, m);
    var n := b * m;
    assert a == (a / n) * n + a % n;
    assert (a / n) * n == ((a / n) * m) * b;
    ModPlusMultiple(a % n, (a / n) * m, b);
  }

  /** The slot that position `x` of an endless sequence occupies in a circular buffer: the source
      masks with `size - 1`. Defined by walking, so that proofs about slots stay linear. */
  function Wrap(x: int, size: nat): (r: nat)
    requires size >= 1
    ensures r < size
    decreases if x < 0 then -x else x, x < 0
  {
    if x < 0 then
      if x + size < 0 then Wrap(x + size, size) else x + size
    else if x < size then x
    else Wrap(x - size, size)
  }

  lemma {:induction false} WrapIsMod(x: int, size: nat)
    requires size >= 1
    ensures Wrap(x, size) == x % size
    decreases if x < 0 then -x else x
  {
    if x < 0 {
      ModPlusMultiple(x, 1, size);
      if x + size < 0 { WrapIsMod(x + size, size); }
    } else if x >= size {
      ModPlusMultiple(x, -1, size);
      WrapIsMod(x - size, size);
    }
  }

  lemma WrapAdd(a: int, c: int, size: nat)
    requires size >= 1
    ensures Wrap(Wrap(a, size) + c, size) == Wrap(a + c, size)
  {
    WrapIsMod(a, size);
    WrapIsMod(Wrap(a, size) + c, size);
    WrapIsMod(a + c, size);
    ModAdd(a, c, size);
  }

  lemma WrapInjective(a: int, c: int, size: nat)
    requires size >= 1 && a <= c < a + size && Wrap(a, size) == Wrap(c, size)
    ensures a == c
  {
    WrapIsMod(a, size);
    WrapIsMod(c, size);
    ModInjective(a, c, size);
  }

  /** Equality modulo `m`. */
  predicate Cong(a: int, b: int, m: int)
    requires m >= 1
  {
    a % m == b % m
  }

  lemma CongAdd(a: int, b: int, c: int, m: int)
    requires m >= 1 && Cong(a, b, m)
    ensures Cong(a + c, b + c, m)
  {
    ModAdd(a, c, m);
    ModAdd(b, c, m);
  }

  lemma CongShift(a: int, b: int, c: int, m: int)
    requires m >= 1
    ensures Cong(a, b, m) <==> Cong(a + c, b + c, m)
  {
    hide Cong;
    if Cong(a, b, m) { CongAdd(a, b, c, m); }
    if Cong(a + c, b + c, m) { CongAdd(a + c, b + c, -c, m); }
  }

  lemma CongSym(a: int, b: int, m: int)
    requires m >= 1 && Cong(a, b, m)
    ensures Cong(b, a, m)
  {}

  lemma CongTrans(a: int, b: int, c: int, m: int)
    requires m >= 1 && Cong(a, b, m) && Cong(b, c, m)
    ensures Cong(a, c, m) && Cong(c, a, m)
  {}

  /** One whole turn. */
  lemma CongTurn(a: int, m: int)
    requires m >= 1
    ensures Cong(a, a + m, m) && Cong(a, a - m, m) && Cong(a, a, m)
  {
    ModPlusMultiple(a, 1, m);
    ModPlusMultiple(a, -1, m);
  }

  lemma CongMod(a: int, m: int)
    requires m >= 1
    ensures 0 <= a % m < m && Cong(a % m, a, m)
  {
    ModAdd(a, 0, m);
  }

  /** Less than a turn apart and equal modulo `m`. */
  lemma CongNear(a: int, b: int, m: int)
    requires m >= 1 && Cong(a, b, m) && -m < a - b < m
    ensures a == b
  {
    if a <= b { ModInjective(a, b, m); } else { ModInjective(b, a, m); }
  }

  ghost predicate Divides(m: int, n: int) { m >= 1 && exists k :: k >= 1 && n == m * k }

  lemma CongDown(a: int, b: int, m: int, n: int)
    requires Divides(m, n)
    ensures n >= m >= 1
    ensures Cong(a, b, n) ==> Cong(a, b, m)
  {
    var k :| k >= 1 && n == m * k;
    ModOfMod(a, m, k);
    ModOfMod(b, m, k);
    MulPositive(k, m);
    assert k * m == m * k;
  }

  lemma DividesDouble(m: int, n: int)
    requires Divides(m, n)
    ensures Divides(m, 2 * n)
  {
    var k :| k >= 1 && n == m * k;
    assert 2 * n == m * (2 * k);
  }

  lemma DividesSelf(m: int)
    requires m >= 1
    ensures Divides(m, m) && Divides(m, 2 * m)
  {
    assert m == m * 1 && 2 * m == m * 2;
  }
}
