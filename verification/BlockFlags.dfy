/** How a Block of concurrentqueue.h remembers which of its elements are dequeued. In the explicit context with small
    blocks it keeps one flag per element, back to front; otherwise it only counts. Proved against the set of the
    offsets dequeued. */
module BlockFlags {

  /** The offsets lo .. hi of a block. */
  function Offsets(lo: nat, hi: nat): (s: set<nat>)
    ensures forall o :: o in s <==> lo <= o < hi
    decreases hi - lo
  {
    if lo < hi then {lo} + Offsets(lo + 1, hi) else {}
  }

  lemma {:induction false} OffsetsCount(lo: nat, hi: nat)
    requires lo <= hi
    ensures |Offsets(lo, hi)| == hi - lo
    decreases hi - lo
  {
    if lo < hi { OffsetsCount(lo + 1, hi); }
  }

  lemma ChunkSize(lo: nat, count: nat, blockSize: nat)
    requires lo + count <= blockSize
    ensures Offsets(lo, lo + count) <= Offsets(0, blockSize) && |Offsets(lo, lo + count)| == count
  {
    OffsetsCount(lo, lo + count);
  }

  lemma SizeOfUnion(a: set<nat>, b: set<nat>)
    requires a !! b
    ensures |a + b| == |a| + |b|
  {
  }

  /** A set of offsets is the whole block as soon as it has as many of them as the block. */
  lemma FullBySize(done: set<nat>, blockSize: nat)
    requires done <= Offsets(0, blockSize)
    ensures |done| <= blockSize
    ensures |done| == blockSize <==> done == Offsets(0, blockSize)
  {
    var rest := Offsets(0, blockSize) - done;
    OffsetsCount(0, blockSize);
    SizeOfUnion(done, rest);
    assert done + rest == Offsets(0, blockSize);
    if |done| == blockSize { assert rest == {}; }
  }

  lemma UnionFull(done: set<nat>, chunk: set<nat>, blockSize: nat)
    requires done <= Offsets(0, blockSize) && chunk <= Offsets(0, blockSize) && done !! chunk
    ensures |done + chunk| == |done| + |chunk|
    ensures |done + chunk| == blockSize <==> done + chunk == Offsets(0, blockSize)
  {
    SizeOfUnion(done, chunk);
    FullBySize(done + chunk, blockSize);
  }

  /** The explicit context, BLOCK_SIZE <= EXPLICIT_BLOCK_EMPTY_COUNTER_THRESHOLD. */
  class Flags {
    const blockSize: nat
    const emptyFlags: array<bool>
    ghost var done: set<nat>

    ghost predicate Valid()
      reads this, emptyFlags
    {
      && emptyFlags.Length == blockSize && done <= Offsets(0, blockSize)
      && forall o: nat {:trigger o in done} :: o < blockSize ==> (emptyFlags[blockSize - 1 - o] <==> o in done)
    }

    constructor (blockSize: nat)
      ensures Valid() && done == {} && this.blockSize == blockSize && fresh(emptyFlags)
    {
      this.blockSize := blockSize;
      emptyFlags := new bool[blockSize](_ => false);
      done := {};
    }

    method IsEmpty() returns (empty: bool)
      requires Valid()
      ensures empty <==> done == Offsets(0, blockSize)
    {
      for i := 0 to blockSize
        invariant forall f :: 0 <= f < i ==> emptyFlags[f]
      {
        if !emptyFlags[i] {
          assert blockSize - 1 - i in Offsets(0, blockSize) && (blockSize - 1 - i) as nat !in done;
          return false;
        }
      }
      forall o | o in Offsets(0, blockSize) ensures o in done { assert emptyFlags[blockSize - 1 - o]; }
      return true;
    }

    method SetEmpty(i: nat)
      requires Valid() && blockSize > 0 && i % blockSize !in done
      modifies this, emptyFlags
      ensures Valid() && done == old(done) + {i % blockSize}
    {
      emptyFlags[blockSize - 1 - i % blockSize] := true;
      done := done + {i % blockSize};
    }

    /** The flags of a chunk are one stretch of the array, which starts at the flag of its last element. */
    method SetOffsets(off: nat, count: nat)
      requires Valid() && off + count <= blockSize
      modifies emptyFlags
      ensures forall f {:trigger emptyFlags[f]} :: 0 <= f < blockSize ==>
        (emptyFlags[f] <==> old(emptyFlags[f]) || off <= blockSize - 1 - f < off + count)
    {
      ghost var flags := emptyFlags[..];
      var first := blockSize - 1 - off - count + 1;
      for j := 0 to count
        invariant forall f :: 0 <= f < blockSize ==> (emptyFlags[f] <==> flags[f] || first <= f < first + j)
      {
        emptyFlags[first + j] := true;
      }
    }

    method SetManyEmpty(i: nat, count: nat)
      requires Valid() && 0 < count && blockSize > 0 && i % blockSize + count <= blockSize
      requires done !! Offsets(i % blockSize, i % blockSize + count)
      modifies this, emptyFlags
      ensures Valid() && done == old(done) + Offsets(i % blockSize, i % blockSize + count)
    {
      ghost var chunk := Offsets(i % blockSize, i % blockSize + count);
      SetOffsets(i % blockSize, count);
      assert forall o: nat {:trigger o in chunk} :: o < blockSize ==>
        (emptyFlags[blockSize - 1 - o] <==> old(emptyFlags[blockSize - 1 - o]) || o in chunk);
      done := done + chunk;
    }

    method ResetEmpty()
      requires Valid()
      modifies this, emptyFlags
      ensures Valid() && done == {}
    {
      for i := 0 to blockSize
        invariant forall f :: 0 <= f < i ==> !emptyFlags[f]
      {
        emptyFlags[i] := false;
      }
      done := {};
    }
  }

  /** The implicit context: elementsCompletelyDequeued. */
  class Counter {
    const blockSize: nat
    var elementsCompletelyDequeued: nat
    ghost var done: set<nat>

    ghost predicate Valid() reads this { done <= Offsets(0, blockSize) && elementsCompletelyDequeued == |done| }

    constructor (blockSize: nat)
      ensures Valid() && done == {} && this.blockSize == blockSize
    {
      this.blockSize, elementsCompletelyDequeued, done := blockSize, 0, {};
    }

    /** fetch_add(count): true exactly when these were the last that were missing. */
    method CountUp(count: nat, ghost chunk: set<nat>) returns (empty: bool)
      requires Valid() && chunk <= Offsets(0, blockSize) && done !! chunk && count == |chunk|
      modifies this
      ensures Valid() && done == old(done) + chunk && (empty <==> done == Offsets(0, blockSize))
    {
      UnionFull(done, chunk, blockSize);
      var prevVal := elementsCompletelyDequeued;
      elementsCompletelyDequeued := elementsCompletelyDequeued + count;
      done := done + chunk;
      empty := prevVal + count == blockSize;
    }

    method SetManyEmpty(i: nat, count: nat) returns (empty: bool)
      requires Valid() && 0 < count && blockSize > 0 && i % blockSize + count <= blockSize
      requires done !! Offsets(i % blockSize, i % blockSize + count)
      modifies this
      ensures Valid() && done == old(done) + Offsets(i % blockSize, i % blockSize + count)
      ensures empty <==> done == Offsets(0, blockSize)
    {
      ghost var lo := i % blockSize;
      ChunkSize(lo, count, blockSize);
      empty := CountUp(count, Offsets(lo, lo + count));
    }

    method IsEmpty() returns (empty: bool)
      requires Valid()
      ensures empty <==> done == Offsets(0, blockSize)
    {
      FullBySize(done, blockSize);
      empty := elementsCompletelyDequeued == blockSize;
    }

    method ResetEmpty()
      modifies this
      ensures Valid() && done == {}
    {
      elementsCompletelyDequeued, done := 0, {};
    }
  }
}
