/** How the indices of a producer are cut into the blocks of ConcurrentQueue.h. */
module Chunks {
  import Arith

  type Size = n: int | n >= 1 witness 1

  /** BLOCK_SIZE of the queue's traits: any positive number here. */
  const BLOCK_SIZE: Size

  /** The number of the chunk that index `i` belongs to, and its place inside it. */
  function Chunk(i: nat): nat { if i < BLOCK_SIZE then 0 else 1 + Chunk(i - BLOCK_SIZE) }

  function Off(i: nat): (o: nat)
    ensures o < BLOCK_SIZE
  { if i < BLOCK_SIZE then i else Off(i - BLOCK_SIZE) }

  function Base(q: nat): nat { if q == 0 then 0 else Base(q - 1) + BLOCK_SIZE }

  /** These are the divisions and masks of the source. */
  lemma {:induction false} ChunkIsDivision(i: nat)
    ensures Chunk(i) == i / BLOCK_SIZE && Off(i) == i % BLOCK_SIZE
    ensures Base(Chunk(i)) + Off(i) == i
  {
    if i >= BLOCK_SIZE {
      ChunkIsDivision(i - BLOCK_SIZE);
      Arith.ModPlusMultiple(i - BLOCK_SIZE, 1, BLOCK_SIZE);
    } else {
      Arith.DivModUnique(i, BLOCK_SIZE, 0, i);
    }
  }

  lemma {:induction false} BaseIsStart(q: nat, o: nat)
    requires o < BLOCK_SIZE
    ensures Chunk(Base(q) + o) == q && Off(Base(q) + o) == o
  {
    if q > 0 { BaseIsStart(q - 1, o); }
  }

  lemma ChunkNext(i: nat)
    ensures Off(i) + 1 < BLOCK_SIZE ==> Chunk(i + 1) == Chunk(i) && Off(i + 1) == Off(i) + 1
    ensures Off(i) + 1 == BLOCK_SIZE ==> Chunk(i + 1) == Chunk(i) + 1 && Off(i + 1) == 0
  {
    ChunkIsDivision(i);
    ChunkIsDivision(i + 1);
    Arith.DivModNext(i, BLOCK_SIZE);
  }

  lemma ChunkMonotone(i: nat, j: nat)
    requires i <= j
    ensures Chunk(i) <= Chunk(j)
  {
    ChunkIsDivision(i);
    ChunkIsDivision(j);
    Arith.DivMonotone(i, j, BLOCK_SIZE);
  }

  lemma ChunkOffInjective(i: nat, j: nat)
    requires Chunk(i) == Chunk(j) && Off(i) == Off(j)
    ensures i == j
  {
    ChunkIsDivision(i);
    ChunkIsDivision(j);
  }

  /** Everything below a chunk's base lies in an earlier chunk, everything above does not. */
  lemma BelowBase(i: nat, q: nat)
    ensures i < Base(q) <==> Chunk(i) < q
  {
    BaseIsStart(q, 0);
    ChunkIsDivision(i);
    if i >= Base(q) {
      ChunkMonotone(Base(q), i);
    } else {
      ChunkMonotone(i, Base(q));
      if Chunk(i) == q { assert Base(Chunk(i)) <= i; }
    }
  }
}
