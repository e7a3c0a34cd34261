/** The machine arithmetic under the block indexes of ConcurrentQueue.h. The protocols are modelled with
    unbounded indices; here a machine word is an index modulo `w`, the number of values of `index_t`,
    and `z` is the number of values of `size_t`, at most `w`. */
module SlotArithmetic {
  import opened Arith

  /** a - b, wrapping */
  function Minus(a: nat, b: nat, w: nat): nat
    requires w >= 1
  {
    (a - b) % w
  }

  /** The conversion to the signed type of the same width. */
  function Signed(x: nat, w: nat): int { if 2 * x >= w then x - w else x }

  /** Division of signed integers, toward zero. */
  function Quotient(a: int, b: nat): int
    requires b >= 1
  {
    if a >= 0 then a / b else -((-a) / b)
  }

  /** The offset of a block from the head of the index. BLOCK_SIZE is an unsigned `size_t`. Where
      `index_t` is no wider, the usual conversions make the dividend unsigned again before it is
      divided; where `index_t` is wider, BLOCK_SIZE becomes signed instead. */
  function Offset(base: nat, headBase: nat, blockSize: nat, w: nat, z: nat): nat
    requires blockSize >= 1 && w >= 1 && z >= 1
  {
    var d := Minus(base, headBase, w);
    if w == z then d / blockSize else Quotient(Signed(d, w), blockSize) % z
  }

  /** (head + offset) & (size - 1) */
  function SlotOf(head: nat, base: nat, headBase: nat, blockSize: nat, size: nat, w: nat, z: nat): nat
    requires blockSize >= 1 && w >= 1 && z >= 1 && size >= 1
  {
    ((head + Offset(base, headBase, blockSize, w, z)) % z) % size
  }

  // ---------------------------------------------------------------- helper laws

  lemma SubMod(a: int, b: int, w: int)
    requires w >= 1
    ensures Cong(a % w - b % w, a - b, w)
  {
    hide Cong;
    CongMod(a, w);
    CongMod(b, w);
    CongShift(a % w, a, -(b % w), w);
    CongShift(b % w, b, -b - b % w + a, w);
    assert b % w + (-b - b % w + a) == a - b && b + (-b - b % w + a) == a - b % w;
    CongSym(a - b, a - b % w, w);
    CongTrans(a % w - b % w, a - b % w, a - b, w);
  }

  /** Equal modulo `w` means a whole number of turns apart. */
  lemma Turns(a: int, b: int, w: int) returns (k: int)
    requires w >= 1 && Cong(a, b, w)
    ensures a == b + k * w
  {
    k := a / w - b / w;
    assert a == (a / w) * w + a % w && b == (b / w) * w + b % w;
  }

  /** Adding a multiple of a multiple. */
  lemma CongMultiple(a: int, k: int, m: int, c: int)
    requires m >= 1
    ensures Cong(a + k * (m * c), a, m)
  {
    assert k * (m * c) == (k * c) * m;
    ModPlusMultiple(a, k * c, m);
  }

  // ---------------------------------------------------------------- the slot

  /** What the machine computes is the true distance in blocks, up to whole turns of the index space. */
  lemma OffsetIsDistance(b: int, h: int, blockSize: nat, perTurn: nat, z: nat)
    requires blockSize >= 1 && perTurn >= 1 && z >= 1
    ensures var w := perTurn * blockSize;
      && w >= 1
      && exists k: int :: Offset((b * blockSize) % w, (h * blockSize) % w, blockSize, w, z) ==
           if w == z then b - h + k * perTurn else (b - h + k * perTurn) % z
  {
    MulPositive(perTurn, blockSize);
    var w := perTurn * blockSize;
    var x := Minus((b * blockSize) % w, (h * blockSize) % w, w);
    hide Cong;
    SubMod(b * blockSize, h * blockSize, w);
    var diff := (b * blockSize) % w - (h * blockSize) % w;
    CongMod(diff, w);
    CongTrans(x, diff, b * blockSize - h * blockSize, w);
    var k := Turns(x, b * blockSize - h * blockSize, w);
    var q := b - h + k * perTurn;
    assert x == q * blockSize by {
      assert k * (perTurn * blockSize) == (k * perTurn) * blockSize;
    }
    if w == z {
      ExactQuotient(q, blockSize);
      assert Offset((b * blockSize) % w, (h * blockSize) % w, blockSize, w, z) == b - h + k * perTurn;
    } else {
      var k' := if 2 * x >= w then k - 1 else k;
      var q' := b - h + k' * perTurn;
      assert k' * perTurn == k * perTurn - (if 2 * x >= w then perTurn else 0);
      assert Signed(x, w) == q' * blockSize by { assert (q - perTurn) * blockSize == q * blockSize - perTurn * blockSize; }
      ExactQuotient(q', blockSize);
      assert Offset((b * blockSize) % w, (h * blockSize) % w, blockSize, w, z) == (b - h + k' * perTurn) % z;
    }
  }

  lemma ExactQuotient(q: int, b: nat)
    requires b >= 1
    ensures Quotient(q * b, b) == q
    ensures q * b >= 0 ==> (q * b) / b == q
  {
    if q * b >= 0 {
      DivModUnique(q * b, b, q, 0);
    } else {
      assert -(q * b) == (-q) * b;
      DivModUnique((-q) * b, b, -q, 0);
    }
  }

  /** The slot the source computes is the one of the true signed distance in blocks, whatever the
      distance and wherever the indices have wrapped, if a turn of the index space is a whole number of
      turns of the block index: that is, if `size * blockSize` divides `w`. */
  lemma SlotIsTrueDistance(head: nat, b: int, h: int, blockSize: nat, size: nat, perTurn: nat, z: nat)
    requires blockSize >= 1 && z >= 1 && Divides(size, perTurn) && Divides(size, z)
    ensures size >= 1 && perTurn * blockSize >= 1
    ensures var w := perTurn * blockSize;
      SlotOf(head, (b * blockSize) % w, (h * blockSize) % w, blockSize, size, w, z) == (head + b - h) % size
  {
    hide Cong;
    CongDown(0, 0, size, perTurn);
    OffsetIsDistance(b, h, blockSize, perTurn, z);
    var w := perTurn * blockSize;
    var off := Offset((b * blockSize) % w, (h * blockSize) % w, blockSize, w, z);
    var k: int :| off == if w == z then b - h + k * perTurn else (b - h + k * perTurn) % z;
    var d := b - h + k * perTurn;
    OffsetCong(off, d, w == z, size, z);
    WholeTurns(b - h, k, perTurn, size);
    CongTrans(off, d, b - h, size);
    CongShift(off, b - h, head, size);
    ReduceTwice(head + off, size, z);
    CongTrans(((head + off) % z) % size, head + off, head + b - h, size);
    ReducedEqual(((head + off) % z) % size, head + b - h, size);
  }

  lemma OffsetCong(off: nat, d: int, same: bool, size: nat, z: nat)
    requires Divides(size, z) && z >= 1 && off == if same then d else d % z
    ensures size >= 1 && Cong(off, d, size)
  {
    hide Cong;
    CongMod(d, z);
    CongTurn(d, size);
    CongDown(d % z, d, size, z);
  }

  lemma WholeTurns(a: int, k: int, n: nat, size: nat)
    requires Divides(size, n)
    ensures size >= 1 && Cong(a + k * n, a, size)
  {
    var c :| c >= 1 && n == size * c;
    CongMultiple(a, k, size, c);
  }

  lemma ReduceTwice(x: nat, size: nat, z: nat)
    requires Divides(size, z) && z >= 1
    ensures size >= 1 && Cong((x % z) % size, x, size)
  {
    hide Cong;
    CongMod(x, z);
    CongDown(x % z, x, size, z);
    CongMod(x % z, size);
    CongTrans((x % z) % size, x % z, x, size);
  }

  lemma ReducedEqual(r: nat, x: int, size: nat)
    requires size >= 1 && r < size && Cong(r, x, size)
    ensures r == x % size
  {
    DivModUnique(r, size, 0, r);
  }

  /** And only then: with `index_t` as wide as `size_t`, an index that does not divide the turn gives a
      wrong slot, for instance for a block one whole turn ahead. */
  lemma SlotRightExactly(blockSize: nat, size: nat, perTurn: nat)
    requires blockSize >= 1 && perTurn >= 1 && perTurn * blockSize >= 1 && Divides(size, perTurn * blockSize)
    ensures size >= 1
    ensures Divides(size, perTurn) <==> forall head: nat, b: int, h: int :: SlotIsRight(head, b, h, blockSize, size, perTurn)
  {
    var w := perTurn * blockSize;
    if Divides(size, perTurn) {
      forall head: nat, b: int, h: int ensures SlotIsRight(head, b, h, blockSize, size, perTurn) {
        SlotIsTrueDistance(head, b, h, blockSize, size, perTurn, w);
      }
    }
    if forall head: nat, b: int, h: int :: SlotIsRight(head, b, h, blockSize, size, perTurn) {
      assert SlotIsRight(0, perTurn, 0, blockSize, size, perTurn);
      WholeTurnAhead(blockSize, size, perTurn);
      assert perTurn % size == 0;
      assert perTurn == size * (perTurn / size);
      PositiveFactor(perTurn / size, size);
      assert Divides(size, perTurn);
    }
  }

  predicate SlotIsRight(head: nat, b: int, h: int, blockSize: nat, size: nat, perTurn: nat)
    requires blockSize >= 1 && size >= 1 && perTurn * blockSize >= 1
  {
    var w := perTurn * blockSize;
    SlotOf(head, (b * blockSize) % w, (h * blockSize) % w, blockSize, size, w, w) == (head + b - h) % size
  }

  lemma WholeTurnAhead(blockSize: nat, size: nat, perTurn: nat)
    requires blockSize >= 1 && size >= 1 && perTurn * blockSize >= 1
    ensures var w := perTurn * blockSize;
      SlotOf(0, (perTurn * blockSize) % w, (0 * blockSize) % w, blockSize, size, w, w) == 0
  {
    var w := perTurn * blockSize;
    DivModUnique(w, w, 1, 0);
    DivModUnique(0, w, 0, 0);
    DivModUnique(0, blockSize, 0, 0);
    DivModUnique(0, size, 0, 0);
  }

  /** Masking out the place within the block commutes with wrapping. */
  lemma BaseOfWrapped(i: nat, blockSize: nat, perTurn: nat)
    requires blockSize >= 1 && perTurn >= 1
    ensures var w := perTurn * blockSize;
      && w >= 1 && (i % w) % blockSize == i % blockSize
      && i % w - (i % w) % blockSize == (i - i % blockSize) % w
  {
    var w := perTurn * blockSize;
    MulPositive(perTurn, blockSize);
    assert w == blockSize * perTurn;
    ModOfMod(i, blockSize, perTurn);
    var q, r := i / w, i % blockSize;
    assert i == q * w + i % w;
    assert (i % w) == ((i % w) / blockSize) * blockSize + r;
    DivModUnique(i - r, w, q, i % w - r);
  }

  // ---------------------------------------------------------------- comparison

  /** circular_less_than, for a word of `2 * half` values */
  predicate CircularLess(a: nat, b: nat, half: nat)
    requires half >= 1
  {
    Minus(a, b, 2 * half) > half
  }

  /** On words whose true indices are less than a whole turn apart the comparison is right exactly when
      the difference is above minus half a turn and at most half a turn. */
  lemma CircularLessExactly(x: int, y: int, half: nat)
    requires half >= 1 && -2 * half < x - y < 2 * half
    ensures (CircularLess(x % (2 * half), y % (2 * half), half) <==> x < y) <==> (x - y > -1 * half && x - y <= half)
  {
    var w := 2 * half;
    hide Cong;
    SubMod(x, y, w);
    var diff := x % w - y % w;
    CongMod(diff, w);
    CongTrans(diff % w, diff, x - y, w);
    CongTurn(x - y, w);
    if x >= y {
      CongNear(diff % w, x - y, w);
    } else {
      CongTrans(diff % w, x - y, x - y + w, w);
      CongNear(diff % w, x - y + w, w);
    }
  }
}
