/** Queue indices and the blocks that hold them: block n has the indices n * BLOCK_SIZE .. (n + 1) * BLOCK_SIZE. */
module BlockNumbers {
  import opened Bits

  /** Number of the block that holds index i; the code's i & ~(BLOCK_SIZE - 1), divided. */
  function Num(i: int, blockSize: nat): int
    requires blockSize > 0
  {
    i / blockSize
  }

  function Off(i: int, blockSize: nat): (o: nat)
    requires blockSize > 0
    ensures o < blockSize
  {
    i % blockSize
  }

  lemma NumFacts(i: int, blockSize: nat)
    requires blockSize > 0
    ensures Num(i, blockSize) * blockSize <= i < Num(i, blockSize) * blockSize + blockSize
    ensures Off(i, blockSize) == i - Num(i, blockSize) * blockSize
  {
    assert i == blockSize * (i / blockSize) + i % blockSize;
  }

  lemma NumUnique(i: int, n: int, blockSize: nat)
    requires blockSize > 0 && n * blockSize <= i < n * blockSize + blockSize
    ensures Num(i, blockSize) == n && Off(i, blockSize) == i - n * blockSize
  {
    ModUnique(i, blockSize, n, i - n * blockSize);
  }

  lemma NumMono(i: int, j: int, blockSize: nat)
    requires blockSize > 0 && i <= j
    ensures Num(i, blockSize) <= Num(j, blockSize)
  {
    NumFacts(i, blockSize);
    NumFacts(j, blockSize);
    if Num(j, blockSize) < Num(i, blockSize) {
      MulLe(blockSize, Num(j, blockSize) + 1, Num(i, blockSize));
    }
  }

  lemma NumStep(i: int, blockSize: nat)
    requires blockSize > 0
    ensures Num(i + 1, blockSize) == if Off(i + 1, blockSize) == 0 then Num(i, blockSize) + 1 else Num(i, blockSize)
  {
    NumFacts(i, blockSize);
    NumFacts(i + 1, blockSize);
    if Off(i + 1, blockSize) == 0 {
      NumUnique(i, Num(i + 1, blockSize) - 1, blockSize);
    } else {
      NumUnique(i, Num(i + 1, blockSize), blockSize);
    }
  }
}
