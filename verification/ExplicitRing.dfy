/** The explicit producer of concurrentqueue.h, single enqueue: its blocks form a ring that is used over and over, and
    its block index lists the ring in a circular buffer that doubles when it is full. Blocks are numbered as in
    BlockIndex: block n holds the indices n * BLOCK_SIZE .. (n + 1) * BLOCK_SIZE. */
module ExplicitRing {
  import opened Wrappers
  import opened Bits
  import opened BlockIndex
  import opened BlockNumbers
  import Implicit = ImplicitProducer

  datatype Slotted = Slotted(number: int, block: nat)

  /** What the producer and its blocks look like: tailIndex, tailBlock, Block::next, pr_blockIndexSlotsUsed,
      pr_blockIndexFront, the entries of the current index, and the emptyFlags of each block. */
  datatype Ring = Ring(
    tail: nat, tailBlock: Option<nat>, next: map<nat, nat>, used: nat, front: nat,
    entries: seq<Option<Slotted>>, flags: map<nat, seq<bool>>)

  /** An index that consumers may still hold after it was replaced. */
  datatype Retired = Retired(entries: seq<Option<Slotted>>, phase: int, last: int)

  /** Bookkeeping: the ring from the oldest block to tailBlock, the number of tailBlock, the phase of the index,
      the indices dequeued so far, and the replaced indexes. */
  datatype Record = Record(ring: seq<nat>, last: int, phase: int, done: set<int>, retired: seq<Retired>)

  /** The flag of index i in its block; set_empty stores them back to front. */
  function FlagOf(i: int, blockSize: nat): (f: nat)
    requires blockSize > 0
    ensures f < blockSize
  {
    blockSize - 1 - Off(i, blockSize)
  }

  // ----- The steps of enqueue

  predicate Empty(flags: seq<bool>) { forall f :: 0 <= f < |flags| ==> flags[f] }

  function AllClear(blockSize: nat): seq<bool> { seq(blockSize, _ => false) }

  /** The test at a block boundary: is the block ahead empty? */
  predicate CanReuse(r: Ring) {
    && r.tailBlock.Some? && r.tailBlock.value in r.next && r.next[r.tailBlock.value] in r.flags
    && Empty(r.flags[r.next[r.tailBlock.value]])
  }

  /** The index entry of the new tail block, the new front, and the new tailIndex. */
  function Announce(r: Ring, block: nat, blockSize: nat): Ring
    requires blockSize > 0 && r.front < |r.entries|
  {
    r.(tailBlock := Some(block), flags := r.flags[block := AllClear(blockSize)],
       entries := r.entries[r.front := Some(Slotted(Num(r.tail, blockSize), block))],
       front := (r.front + 1) % |r.entries|, tail := r.tail + 1)
  }

  function Reuse(r: Ring, blockSize: nat): Ring
    requires blockSize > 0 && r.front < |r.entries| && CanReuse(r)
  {
    Announce(r, r.next[r.tailBlock.value], blockSize)
  }

  function Linked(next: map<nat, nat>, tailBlock: Option<nat>, block: nat): map<nat, nat> {
    match tailBlock
    case None => next[block := block]
    case Some(t) => next[block := if t in next then next[t] else t][t := block]
  }

  function Insert(r: Ring, block: nat, blockSize: nat): Ring
    requires blockSize > 0 && r.front < |r.entries|
  {
    Announce(r.(next := Linked(r.next, r.tailBlock, block), used := r.used + 1), block, blockSize)
  }

  /** new_block_index: the used entries, oldest first, then room for as many again. */
  function Doubled(r: Ring): Ring
    requires |r.entries| > 0
  {
    var size := |r.entries|;
    r.(entries := Copied(r.entries, r.front, r.used), front := r.used % (2 * size))
  }

  function Copied(entries: seq<Option<Slotted>>, front: nat, used: nat): (c: seq<Option<Slotted>>)
    requires |entries| > 0
    ensures |c| == 2 * |entries|
  {
    seq(2 * |entries|, i => if 0 <= i < used then entries[(front - used + i) % |entries|] else None)
  }

  function SetFlag(r: Ring, block: nat, i: int, blockSize: nat): Ring
    requires blockSize > 0 && block in r.flags && |r.flags[block]| == blockSize
  {
    r.(flags := r.flags[block := r.flags[block][FlagOf(i, blockSize) := true]])
  }

  // ----- The invariant

  /** Number of the oldest block in the ring. */
  function First(b: Record): int { b.last - |b.ring| + 1 }

  predicate InWindow(b: Record, n: int) { First(b) <= n <= b.last }

  function BlockOf(b: Record, n: int): nat
    requires InWindow(b, n)
  {
    b.ring[n - First(b)]
  }

  /** The entry of number n is in its slot, with the block that has that number now. */
  predicate Shown(entries: seq<Option<Slotted>>, phase: int, b: Record, n: int)
    requires |entries| > 0
  {
    InWindow(b, n) && entries[Slot(phase, n, |entries|)] == Some(Slotted(n, BlockOf(b, n)))
  }

  /** Any entry, current or left over, is in the slot of its number. */
  ghost predicate InPlace(entries: seq<Option<Slotted>>, phase: int)
    requires |entries| > 0
  {
    forall s {:trigger entries[s]} :: 0 <= s < |entries| && entries[s].Some? ==> s == Slot(phase, entries[s].value.number, |entries|)
  }

  ghost predicate IndexOk(r: Ring, b: Record) {
    && 0 < |r.entries| && |b.ring| == r.used <= |r.entries|
    && r.front == Slot(b.phase, b.last + 1, |r.entries|)
    && InPlace(r.entries, b.phase)
    && (forall n {:trigger Shown(r.entries, b.phase, b, n)} :: InWindow(b, n) ==> Shown(r.entries, b.phase, b, n))
  }

  ghost predicate RingLinks(r: Ring, b: Record) {
    && (forall i, j :: 0 <= i < j < |b.ring| ==> b.ring[i] != b.ring[j])
    && r.tailBlock == (if b.ring == [] then None else Some(b.ring[|b.ring|-1]))
    && (forall j {:trigger LinkAt(r.next, b.ring, j)} :: 0 <= j < |b.ring| ==> LinkAt(r.next, b.ring, j))
  }

  predicate LinkAt(next: map<nat, nat>, ring: seq<nat>, j: nat)
    requires j < |ring|
  {
    ring[j] in next && next[ring[j]] == if j + 1 < |ring| then ring[j+1] else ring[0]
  }

  /** The flags of a block in the ring are those of its current number. */
  ghost predicate FlagsOk(r: Ring, b: Record, blockSize: nat)
    requires blockSize > 0
  {
    && (forall n {:trigger BlockFlags(r, b, n, blockSize)} :: InWindow(b, n) ==> BlockFlags(r, b, n, blockSize))
    && (forall i {:trigger Num(i, blockSize)} :: 0 <= i < r.tail && i !in b.done ==> First(b) <= Num(i, blockSize))
    && (forall i :: i in b.done ==> 0 <= i < r.tail)
  }

  ghost predicate BlockFlags(r: Ring, b: Record, n: int, blockSize: nat)
    requires blockSize > 0 && InWindow(b, n)
  {
    && BlockOf(b, n) in r.flags && |r.flags[BlockOf(b, n)]| == blockSize
    && (forall i {:trigger FlagOf(i, blockSize)} :: Num(i, blockSize) == n ==>
          (r.flags[BlockOf(b, n)][FlagOf(i, blockSize)] <==> i in b.done))
  }

  /** A replaced index still shows every block of the ring that it ever showed. */
  ghost predicate RetiredOk(x: Retired, b: Record) {
    && 0 < |x.entries| && x.last <= b.last && InPlace(x.entries, x.phase)
    && (forall n {:trigger Shown(x.entries, x.phase, b, n)} :: InWindow(b, n) && n <= x.last ==> Shown(x.entries, x.phase, b, n))
  }

  ghost predicate Inv(r: Ring, b: Record, blockSize: nat) {
    && blockSize > 0
    && b.last == Num(r.tail - 1, blockSize) && |b.ring| <= b.last + 1 && (b.ring == [] ==> b.last == -1)
    && IndexOk(r, b) && RingLinks(r, b) && FlagsOk(r, b, blockSize)
    && (forall k {:trigger RetiredOk(b.retired[k], b)} :: 0 <= k < |b.retired| ==> RetiredOk(b.retired[k], b))
  }

  // ----- Arithmetic

  /** At a block boundary the next number begins. */
  lemma Boundary(tail: nat, blockSize: nat)
    requires blockSize > 0
    ensures Num(tail, blockSize) == Num(tail - 1, blockSize) + if Off(tail, blockSize) == 0 then 1 else 0
  {
    NumStep(tail - 1, blockSize);
  }

  lemma SameFlagSameIndex(i: int, j: int, blockSize: nat)
    requires blockSize > 0 && Num(i, blockSize) == Num(j, blockSize) && FlagOf(i, blockSize) == FlagOf(j, blockSize)
    ensures i == j
  {
    NumFacts(i, blockSize);
    NumFacts(j, blockSize);
  }

  // ----- The number moves on: block `block` becomes number last + 1

  /** A new entry in the slot of the next number overwrites no entry of a block that stays in the ring. */
  lemma AnnounceIndex(r: Ring, b: Record, b': Record, block: nat, blockSize: nat)
    requires blockSize > 0 && IndexOk(r, b) && Num(r.tail, blockSize) == b.last + 1
    requires b' == b.(ring := b'.ring, last := b.last + 1) && 0 < |b'.ring| <= |r.entries| && First(b') >= First(b)
    requires BlockOf(b', b.last + 1) == block
    requires forall n :: InWindow(b', n) && n <= b.last ==> InWindow(b, n) && BlockOf(b', n) == BlockOf(b, n)
    ensures IndexOk(Announce(r, block, blockSize).(used := |b'.ring|), b')
  {
    var size, n1 := |r.entries|, b.last + 1;
    var r' := Announce(r, block, blockSize).(used := |b'.ring|);
    NextSlot(b.phase, n1, size);
    forall n | InWindow(b', n) ensures Shown(r'.entries, b.phase, b', n) {
      if n <= b.last {
        assert Shown(r.entries, b.phase, b, n);
        if Slot(b.phase, n, size) == r.front { SlotUnique(b.phase, n, n1, size); }
      }
    }
  }

  lemma RetiredKept(x: Retired, b: Record, b': Record)
    requires RetiredOk(x, b) && b.last <= b'.last
    requires forall n :: InWindow(b', n) && n <= b.last ==> InWindow(b, n) && BlockOf(b', n) == BlockOf(b, n)
    ensures RetiredOk(x, b')
  {
    forall n | InWindow(b', n) && n <= x.last ensures Shown(x.entries, x.phase, b', n) { assert Shown(x.entries, x.phase, b, n); }
  }

  /** What every announced block needs of the flags: the new number starts with none set, the others are as before. */
  lemma AnnounceFlags(r: Ring, b: Record, r': Ring, b': Record, block: nat, blockSize: nat)
    requires blockSize > 0 && FlagsOk(r, b, blockSize) && b.last == Num(r.tail - 1, blockSize) && Off(r.tail, blockSize) == 0
    requires r'.tail == r.tail + 1 && r'.flags == r.flags[block := AllClear(blockSize)]
    requires b' == b.(ring := b'.ring, last := b.last + 1) && b'.ring != [] && BlockOf(b', b.last + 1) == block
    requires forall n :: InWindow(b', n) && n <= b.last ==> InWindow(b, n) && BlockOf(b', n) == BlockOf(b, n) != block
    requires forall i :: 0 <= i < r.tail && i !in b.done ==> First(b') <= Num(i, blockSize)
    ensures FlagsOk(r', b', blockSize)
  {
    Boundary(r.tail, blockSize);
    forall n | InWindow(b', n) ensures BlockFlags(r', b', n, blockSize) {
      if n <= b.last {
        assert BlockFlags(r, b, n, blockSize);
      } else {
        forall i | Num(i, blockSize) == n ensures i !in b.done {
          if i in b.done { NumMono(i, r.tail - 1, blockSize); }
        }
      }
    }
    forall i {:trigger Num(i, blockSize)} | 0 <= i < r'.tail && i !in b'.done ensures First(b') <= Num(i, blockSize) {
      assert i < r.tail || i == r.tail;
    }
  }

  lemma ReusedIsDone(r: Ring, b: Record, blockSize: nat)
    requires Inv(r, b, blockSize) && CanReuse(r)
    ensures b.ring != [] && r.next[r.tailBlock.value] == b.ring[0]
    ensures forall i :: Num(i, blockSize) == First(b) ==> i in b.done
  {
    assert LinkAt(r.next, b.ring, |b.ring| - 1);
    assert BlockFlags(r, b, First(b), blockSize);
    forall i | Num(i, blockSize) == First(b) ensures i in b.done { assert r.flags[b.ring[0]][FlagOf(i, blockSize)]; }
  }

  /** Every element of the oldest block in the ring has been dequeued. */
  ghost predicate OldestIsDone(b: Record, blockSize: nat) {
    b.ring != [] && forall i :: First(b) * blockSize <= i < First(b) * blockSize + blockSize ==> i in b.done
  }

  /** One block more, from tail on, stays less than half a round of the counters ahead of head, and within
      MAX_SUBQUEUE_SIZE. */
  predicate HasRoom(c: Implicit.Config, tail: int, head: int) {
    && tail + c.blockSize - head < c.half
    && (c.maxSize.Some? ==> 0 < c.maxSize.value && tail + c.blockSize - head <= c.maxSize.value)
  }

  /** When enqueue succeeds: inside a block always; at a block boundary if all of the oldest block has been dequeued, or
      else if there is room for a block, one can be had, and so can an index entry for it. */
  ghost predicate Succeeds(tail: int, b: Record, c: Implicit.Config, head: int, entry: bool, newBlock: Option<nat>) {
    c.blockSize > 0 &&
    (tail % c.blockSize != 0 || OldestIsDone(b, c.blockSize) || (HasRoom(c, tail, head) && newBlock.Some? && entry))
  }

  /** What the flags say is what has happened: the block ahead tests empty exactly if all its elements are dequeued. */
  lemma EmptyIsDone(r: Ring, b: Record, blockSize: nat)
    requires Inv(r, b, blockSize)
    ensures CanReuse(r) <==> OldestIsDone(b, blockSize)
  {
    if CanReuse(r) {
      ReusedIsDone(r, b, blockSize);
      forall i | First(b) * blockSize <= i < First(b) * blockSize + blockSize ensures i in b.done {
        NumUnique(i, First(b), blockSize);
      }
    }
    if OldestIsDone(b, blockSize) {
      assert LinkAt(r.next, b.ring, |b.ring| - 1);
      assert BlockFlags(r, b, First(b), blockSize);
      forall f | 0 <= f < blockSize ensures r.flags[b.ring[0]][f] {
        var i := First(b) * blockSize + (blockSize - 1 - f);
        NumUnique(i, First(b), blockSize);
        NumFacts(i, blockSize);
        assert FlagOf(i, blockSize) == f;
      }
    }
  }

  /** The full test at a block boundary, in plain numbers. */
  lemma FullIsNoRoom(c: Implicit.Config, tail: nat, head: int)
    requires c.blockSize > 0 && tail % c.blockSize == 0
    ensures Implicit.Full(c, head, tail / c.blockSize) <==> !HasRoom(c, tail, head)
  {
  }

  function Rotated(b: Record): Record
    requires b.ring != []
  {
    b.(ring := b.ring[1..] + [b.ring[0]], last := b.last + 1)
  }

  lemma RotatedLinks(r: Ring, b: Record)
    requires b.ring != [] && RingLinks(r, b)
    ensures RingLinks(r.(tailBlock := Some(b.ring[0])), Rotated(b))
  {
    var ring, ring' := b.ring, Rotated(b).ring;
    forall j | 0 <= j < |ring'| ensures LinkAt(r.next, ring', j) {
      if j + 1 < |ring| { assert LinkAt(r.next, ring, j + 1); } else { assert LinkAt(r.next, ring, 0); }
    }
  }

  /** The block ahead of the tail is used again: the oldest number leaves the ring, the next one takes its block. */
  lemma ReuseKeepsInv(r: Ring, b: Record, blockSize: nat)
    requires Inv(r, b, blockSize) && Off(r.tail, blockSize) == 0 && CanReuse(r)
    ensures b.ring != [] && Inv(Reuse(r, blockSize), Rotated(b), blockSize)
  {
    ReusedIsDone(r, b, blockSize);
    Boundary(r.tail, blockSize);
    var block, b' := b.ring[0], Rotated(b);
    forall n | InWindow(b', n) && n <= b.last ensures InWindow(b, n) && BlockOf(b', n) == BlockOf(b, n) != block { }
    AnnounceIndex(r, b, b', block, blockSize);
    AnnounceFlags(r, b, Reuse(r, blockSize), b', block, blockSize);
    RotatedLinks(r, b);
    forall k | 0 <= k < |b.retired| ensures RetiredOk(b.retired[k], b') { RetiredKept(b.retired[k], b, b'); }
  }

  function Extended(b: Record, block: nat): Record { b.(ring := b.ring + [block], last := b.last + 1) }

  lemma ExtendedLinks(r: Ring, b: Record, block: nat)
    requires RingLinks(r, b) && block !in b.ring
    ensures RingLinks(r.(next := Linked(r.next, r.tailBlock, block), tailBlock := Some(block)), Extended(b, block))
  {
    var next', ring, ring' := Linked(r.next, r.tailBlock, block), b.ring, b.ring + [block];
    if ring != [] { assert LinkAt(r.next, ring, |ring| - 1); }
    forall j | 0 <= j < |ring'| ensures LinkAt(next', ring', j) {
      if j + 1 < |ring| { assert LinkAt(r.next, ring, j); assert ring[j] != ring[|ring|-1]; }
    }
  }

  /** A new block is linked in behind the tail. */
  lemma InsertKeepsInv(r: Ring, b: Record, block: nat, blockSize: nat)
    requires Inv(r, b, blockSize) && Off(r.tail, blockSize) == 0 && block !in b.ring && r.used < |r.entries|
    ensures Inv(Insert(r, block, blockSize), Extended(b, block), blockSize)
  {
    Boundary(r.tail, blockSize);
    var r0, b' := r.(next := Linked(r.next, r.tailBlock, block), used := r.used + 1), Extended(b, block);
    forall n | InWindow(b', n) && n <= b.last ensures InWindow(b, n) && BlockOf(b', n) == BlockOf(b, n) != block {
      assert b.ring[n - First(b)] in b.ring;
    }
    AnnounceIndex(r, b, b', block, blockSize);
    AnnounceFlags(r, b, Insert(r, block, blockSize), b', block, blockSize);
    ExtendedLinks(r, b, block);
    forall k | 0 <= k < |b.retired| ensures RetiredOk(b.retired[k], b') { RetiredKept(b.retired[k], b, b'); }
  }

  /** Inside a block, enqueue only moves tailIndex. */
  lemma ContinueKeepsInv(r: Ring, b: Record, blockSize: nat)
    requires Inv(r, b, blockSize) && Off(r.tail, blockSize) != 0
    ensures Inv(r.(tail := r.tail + 1), b, blockSize)
  {
    Boundary(r.tail, blockSize);
    var r' := r.(tail := r.tail + 1);
    forall n | InWindow(b, n) ensures BlockFlags(r', b, n, blockSize) { assert BlockFlags(r, b, n, blockSize); }
  }

  // ----- Doubling the index

  function DoubledBook(r: Ring, b: Record): Record {
    b.(phase := -First(b), retired := b.retired + [Retired(r.entries, b.phase, b.last)])
  }

  lemma CopiedFrom(r: Ring, b: Record, i: nat)
    requires IndexOk(r, b) && i < r.used
    ensures InWindow(b, First(b) + i)
    ensures (r.front - r.used + i) % |r.entries| == Slot(b.phase, First(b) + i, |r.entries|)
  {
    ModAdd(b.phase + b.last + 1, i - r.used, |r.entries|);
  }

  lemma DoubledIndex(r: Ring, b: Record)
    requires IndexOk(r, b) && 0 <= First(b)
    ensures IndexOk(Doubled(r), DoubledBook(r, b))
  {
    var r', b' := Doubled(r), DoubledBook(r, b);
    var size := |r.entries|;
    forall s | 0 <= s < 2 * size && r'.entries[s].Some? ensures s == Slot(b'.phase, r'.entries[s].value.number, 2 * size) {
      CopiedFrom(r, b, s);
      assert Shown(r.entries, b.phase, b, First(b) + s);
      SlotInRange(b'.phase, First(b) + s, 2 * size);
    }
    forall n | InWindow(b', n) ensures Shown(r'.entries, b'.phase, b', n) {
      var i := n - First(b);
      CopiedFrom(r, b, i);
      assert Shown(r.entries, b.phase, b, n);
      SlotInRange(b'.phase, n, 2 * size);
    }
  }

  /** new_block_index keeps what it copies in order; the index it replaces goes on showing what it showed. */
  lemma DoubleKeepsInv(r: Ring, b: Record, blockSize: nat)
    requires Inv(r, b, blockSize)
    ensures Inv(Doubled(r), DoubledBook(r, b), blockSize)
  {
    var r', b' := Doubled(r), DoubledBook(r, b);
    DoubledIndex(r, b);
    forall n | InWindow(b', n) ensures BlockFlags(r', b', n, blockSize) { assert BlockFlags(r, b, n, blockSize); }
    forall k | 0 <= k < |b'.retired| ensures RetiredOk(b'.retired[k], b') {
      if k < |b.retired| {
        RetiredKept(b.retired[k], b, b');
      } else {
        forall n | InWindow(b', n) ensures Shown(r.entries, b.phase, b', n) { assert Shown(r.entries, b.phase, b, n); }
      }
    }
  }

  // ----- Dequeuing

  /** An index claimed by a consumer and not dequeued yet is in a block of the ring. */
  lemma UndoneInWindow(r: Ring, b: Record, i: int, blockSize: nat)
    requires Inv(r, b, blockSize) && 0 <= i < r.tail && i !in b.done
    ensures InWindow(b, Num(i, blockSize))
  {
    NumMono(i, r.tail - 1, blockSize);
  }

  lemma SetFlagKeepsInv(r: Ring, b: Record, i: int, blockSize: nat)
    requires Inv(r, b, blockSize) && 0 <= i < r.tail && i !in b.done
    ensures InWindow(b, Num(i, blockSize))
    ensures var block := BlockOf(b, Num(i, blockSize));
      && block in r.flags && |r.flags[block]| == blockSize && !r.flags[block][FlagOf(i, blockSize)]
      && Inv(SetFlag(r, block, i, blockSize), b.(done := b.done + {i}), blockSize)
  {
    UndoneInWindow(r, b, i, blockSize);
    var n := Num(i, blockSize);
    var block := BlockOf(b, n);
    assert BlockFlags(r, b, n, blockSize);
    var r', b' := SetFlag(r, block, i, blockSize), b.(done := b.done + {i});
    forall x | InWindow(b', x) ensures BlockFlags(r', b', x, blockSize) {
      assert BlockFlags(r, b, x, blockSize);
      forall j | Num(j, blockSize) == x ensures r'.flags[BlockOf(b, x)][FlagOf(j, blockSize)] <==> j in b'.done {
        if x == n && FlagOf(j, blockSize) == FlagOf(i, blockSize) { SameFlagSameIndex(i, j, blockSize); }
      }
    }
    forall x | InWindow(b', x) ensures Shown(r'.entries, b.phase, b', x) { assert Shown(r.entries, b.phase, b, x); }
    forall k | 0 <= k < |b.retired| ensures RetiredOk(b.retired[k], b') { RetiredKept(b.retired[k], b, b'); }
  }

  /** The slot that dequeue computes, from any slot of the index and the base that it shows. */
  function DequeueSlot(front: nat, frontBase: int, i: int, size: nat, blockSize: nat): nat
    requires size > 0 && blockSize > 0
  {
    SlotFor(front, frontBase, Num(i, blockSize), size)
  }

  /** dequeue finds the block of its index: in the current index, through any slot it may have read as front. */
  lemma DequeueFindsBlock(r: Ring, b: Record, i: int, front: nat, blockSize: nat)
    requires Inv(r, b, blockSize) && 0 <= i < r.tail && i !in b.done
    requires front < |r.entries| && r.entries[front].Some?
    ensures var slot := DequeueSlot(front, r.entries[front].value.number, i, |r.entries|, blockSize);
      && InWindow(b, Num(i, blockSize)) && slot < |r.entries|
      && r.entries[slot] == Some(Slotted(Num(i, blockSize), BlockOf(b, Num(i, blockSize))))
  {
    UndoneInWindow(r, b, i, blockSize);
    LookupFindsSlot(b.phase, front, r.entries[front].value.number, Num(i, blockSize), |r.entries|);
    assert Shown(r.entries, b.phase, b, Num(i, blockSize));
  }

  /** So does a consumer that still holds an index which was replaced after its element was enqueued, whatever it saw at
      the front. */
  lemma StaleDequeueFindsBlock(r: Ring, b: Record, i: int, k: nat, front: nat, base: int, blockSize: nat)
    requires Inv(r, b, blockSize) && 0 <= i < r.tail && i !in b.done
    requires k < |b.retired| && Num(i, blockSize) <= b.retired[k].last
    requires |b.retired[k].entries| > 0 && front == Slot(b.retired[k].phase, base, |b.retired[k].entries|)
    ensures var x := b.retired[k];
      var slot := DequeueSlot(front, base, i, |x.entries|, blockSize);
      && InWindow(b, Num(i, blockSize)) && slot < |x.entries|
      && x.entries[slot] == Some(Slotted(Num(i, blockSize), BlockOf(b, Num(i, blockSize))))
  {
    var x := b.retired[k];
    UndoneInWindow(r, b, i, blockSize);
    assert RetiredOk(x, b);
    LookupFindsSlot(x.phase, front, base, Num(i, blockSize), |x.entries|);
    assert Shown(x.entries, x.phase, b, Num(i, blockSize));
  }

  // ----- The ring as the index lists it

  /** j links behind tailBlock->next. */
  function Follow(r: Ring, j: nat): Option<nat> {
    if j == 0 then (if r.tailBlock.Some? && r.tailBlock.value in r.next then Some(r.next[r.tailBlock.value]) else None)
    else var p := Follow(r, j - 1); if p.Some? && p.value in r.next then Some(r.next[p.value]) else None
  }

  lemma {:induction false} FollowIsRing(r: Ring, b: Record, j: nat)
    requires RingLinks(r, b) && j < |b.ring|
    ensures Follow(r, j) == Some(b.ring[j])
  {
    if j == 0 {
      assert LinkAt(r.next, b.ring, |b.ring| - 1);
    } else {
      FollowIsRing(r, b, j - 1);
      assert LinkAt(r.next, b.ring, j - 1);
    }
  }

  /** The last pr_blockIndexSlotsUsed entries before pr_blockIndexFront list the block ring from tailBlock->next to
      tailBlock, with bases that rise by one block, and no block twice. */
  lemma IndexListsRing(r: Ring, b: Record, j: nat, blockSize: nat)
    requires Inv(r, b, blockSize) && j < r.used
    ensures Follow(r, j).Some?
    ensures r.entries[(r.front - r.used + j) % |r.entries|]
      == Some(Slotted(Num(r.tail - 1, blockSize) - (r.used - 1 - j), Follow(r, j).value))
    ensures Follow(r, r.used - 1) == r.tailBlock
    ensures forall k: nat :: k < r.used && k != j ==> Follow(r, k) != Follow(r, j)
  {
    CopiedFrom(r, b, j);
    assert Shown(r.entries, b.phase, b, First(b) + j);
    FollowIsRing(r, b, j);
    FollowIsRing(r, b, r.used - 1);
    forall k: nat | k < r.used && k != j ensures Follow(r, k) != Follow(r, j) { FollowIsRing(r, b, k); }
  }

  // ----- The elements in their cells

  /** Cell of index i, while its block is in the ring. */
  function CellOf(b: Record, i: int, blockSize: nat): (nat, nat)
    requires blockSize > 0 && InWindow(b, Num(i, blockSize))
  {
    (BlockOf(b, Num(i, blockSize)), Off(i, blockSize))
  }

  predicate CellOk(b: Record, cells: map<(nat, nat), nat>, items: seq<nat>, i: int, blockSize: nat)
    requires blockSize > 0 && 0 <= i < |items|
  {
    InWindow(b, Num(i, blockSize)) && CellOf(b, i, blockSize) in cells && cells[CellOf(b, i, blockSize)] == items[i]
  }

  ghost predicate CellsOk(r: Ring, b: Record, cells: map<(nat, nat), nat>, items: seq<nat>, blockSize: nat)
    requires blockSize > 0
  {
    |items| == r.tail && forall i {:trigger CellOk(b, cells, items, i, blockSize)} ::
      0 <= i < r.tail && i !in b.done ==> CellOk(b, cells, items, i, blockSize)
  }

  /** Elements that are not dequeued stay where they are when the ring gets a new tail block. */
  lemma EnteredKeepsCells(r: Ring, b: Record, r': Ring, b': Record, cells: map<(nat, nat), nat>, items: seq<nat>,
                          blockSize: nat, newBlock: Option<nat>, ok: bool)
    requires blockSize > 0 && CellsOk(r, b, cells, items, blockSize) && r'.tail == r.tail && b'.done == b.done
    requires ok ==> FlagsOk(r'.(tail := r.tail + 1), b', blockSize)
    requires if ok then (if CanReuse(r) then b.ring != [] && b' == Rotated(b)
                         else newBlock.Some? && b'.ring == b.ring + [newBlock.value] && b'.last == b.last + 1)
             else b'.ring == b.ring && b'.last == b.last
    ensures CellsOk(r', b', cells, items, blockSize)
  {
    forall i | 0 <= i < r.tail && i !in b.done ensures CellOk(b', cells, items, i, blockSize) {
      assert CellOk(b, cells, items, i, blockSize);
    }
  }

  lemma TakenKeepsCells(r: Ring, b: Record, cells: map<(nat, nat), nat>, items: seq<nat>, i: int, blockSize: nat)
    requires blockSize > 0 && CellsOk(r, b, cells, items, blockSize)
    ensures CellsOk(r, b.(done := b.done + {i}), cells, items, blockSize)
  {
    forall j | 0 <= j < r.tail && j != i && j !in b.done ensures CellOk(b.(done := b.done + {i}), cells, items, j, blockSize) {
      assert CellOk(b, cells, items, j, blockSize);
    }
  }

  lemma CellsFrame(r: Ring, b: Record, r': Ring, b': Record, cells: map<(nat, nat), nat>, items: seq<nat>, blockSize: nat)
    requires blockSize > 0 && CellsOk(r, b, cells, items, blockSize) && r'.tail == r.tail && b' == b
    ensures CellsOk(r', b', cells, items, blockSize)
  {
  }

  /** The next element goes to a cell of its own. */
  lemma ConstructKeepsCells(r: Ring, b: Record, cells: map<(nat, nat), nat>, items: seq<nat>, blockSize: nat, element: nat)
    requires blockSize > 0 && CellsOk(r, b, cells, items, blockSize) && Inv(r.(tail := r.tail + 1), b, blockSize)
    ensures r.tailBlock.Some?
    ensures CellsOk(r.(tail := r.tail + 1), b, cells[(r.tailBlock.value, Off(r.tail, blockSize)) := element],
                    items + [element], blockSize)
  {
    var cells', items' := cells[(r.tailBlock.value, Off(r.tail, blockSize)) := element], items + [element];
    NumMono(0, r.tail, blockSize);
    NumUnique(0, 0, blockSize);
    assert CellOf(b, r.tail, blockSize) == (r.tailBlock.value, Off(r.tail, blockSize));
    forall i | 0 <= i <= r.tail && i !in b.done ensures CellOk(b, cells', items', i, blockSize) {
      if i < r.tail {
        assert CellOk(b, cells, items, i, blockSize);
        if CellOf(b, i, blockSize) == CellOf(b, r.tail, blockSize) {
          NumFacts(i, blockSize);
          NumFacts(r.tail, blockSize);
        }
      }
    }
  }

  // ----- The producer as the object it is

  /** What a mask does to a word that may have wrapped below zero. */
  method Masked(x: int, size: nat, ghost bits: nat, wordBits: nat) returns (m: nat)
    requires size == Pow2(bits) && bits <= wordBits
    ensures m == x % size
  {
    WrappedMaskIsMod(x, bits, wordBits);
    m := And(x % Pow2(wordBits), size - 1);
  }

  /** The copy loop of new_block_index: from the oldest used slot round to the front. */
  method CopyEntries(entries: array<Option<Slotted>>, front: nat, used: nat, ghost bits: nat, wordBits: nat)
    returns (newEntries: array<Option<Slotted>>, j: nat)
    requires entries.Length == Pow2(bits) && bits <= wordBits && front < entries.Length && used <= entries.Length
    ensures fresh(newEntries) && newEntries[..] == Copied(entries[..], front, used) && j == used
  {
    var size := entries.Length;
    newEntries := new Option<Slotted>[2 * size](_ => None);
    j := 0;
    if used != 0 {
      StepsTo(front, used, 0, size);
      var i := Masked(front - used, size, bits, wordBits);
      newEntries[0] := entries[i];
      j := 1;
      i := Masked(i + 1, size, bits, wordBits);
      while i != front
        invariant 1 <= j <= used && i == (front - used + j) % size
        invariant forall k :: 0 <= k < j ==> newEntries[k] == entries[(front - used + k) % size]
        invariant forall k :: j <= k < 2 * size ==> newEntries[k] == None
        decreases used - j
      {
        StepsTo(front, used, j, size);
        newEntries[j] := entries[i];
        j := j + 1;
        i := Masked(i + 1, size, bits, wordBits);
      }
      StepsTo(front, used, j, size);
    }
    assert newEntries[..] == Copied(entries[..], front, used);
  }

  class ExplicitProducer {
    const c: Implicit.Config
    const wordBits: nat                         // of size_t
    var tailIndex: nat
    var tailBlock: Option<nat>
    var next: map<nat, nat>
    var flags: map<nat, seq<bool>>
    var slotsUsed: nat
    var size: nat
    var front: nat                              // the next slot, the producer's own
    var published: nat                          // the current slot, as the index header shows it to consumers
    var hasIndex: bool
    var entries: array<Option<Slotted>>
    var cells: map<(nat, nat), nat>             // the element at an offset of a block
    ghost var book: Record
    ghost var bits: nat                         // size is a power of two
    ghost var items: seq<nat>                   // the elements enqueued so far

    ghost function View(): Ring
      reads this, entries
    {
      Ring(tailIndex, tailBlock, next, slotsUsed, front, entries[..], flags)
    }

    ghost predicate Valid()
      reads this, entries
    {
      Inv(View(), book, c.blockSize) && IndexFields()
    }

    /** Every element that is not dequeued yet is in its cell. */
    ghost predicate Stored()
      reads this, entries
    {
      c.blockSize > 0 && CellsOk(View(), book, cells, items, c.blockSize)
    }

    /** An index of twice the size, if memory can be had. */
    method NewBlockIndex(exposed: nat, canAllocate: bool) returns (ok: bool)
      requires Valid() && exposed == slotsUsed && (canAllocate ==> bits < wordBits)
      modifies this
      ensures cells == old(cells) && items == old(items)
      ensures Valid() && ok == canAllocate
      ensures ok ==> View() == Doubled(old(View())) && book == DoubledBook(old(View()), old(book))
      ensures ok ==> fresh(entries) && hasIndex && size == 2 * old(size) && bits == old(bits) + 1
      ensures !ok ==> Unchanged(old(View()), old(book), old(entries), old(size), old(bits), old(hasIndex))
    {
      if !canAllocate { return false; }
      ghost var r, b := View(), book;
      var newEntries, j := CopyEntries(entries, front, slotsUsed, bits, wordBits);
      Install(newEntries, j, exposed);
      ModUnique(slotsUsed, size, 0, slotsUsed);
      assert View() == Doubled(r);
      PublishedSlot(exposed, size, bits, wordBits);
      DoubleKeepsInv(r, b, c.blockSize);
      ok := true;
    }

    /** The new index takes the place of the old one; its header shows the last slot in use. */
    method Install(newEntries: array<Option<Slotted>>, newFront: nat, exposed: nat)
      requires newEntries.Length == 2 * size
      modifies this
      ensures cells == old(cells) && items == old(items)
      ensures View() == old(View()).(entries := newEntries[..], front := newFront) && entries == newEntries
      ensures book == DoubledBook(old(View()), old(book)) && hasIndex && size == 2 * old(size) && bits == old(bits) + 1
      ensures published == (exposed - 1) % Pow2(wordBits)
    {
      book := DoubledBook(View(), book);
      size, bits := 2 * size, bits + 1;
      published := (exposed - 1) % Pow2(wordBits);
      front, entries, hasIndex := newFront, newEntries, true;
    }

    ghost predicate Unchanged(r: Ring, b: Record, e: array<Option<Slotted>>, n: nat, bits0: nat, has: bool)
      reads this, entries
    {
      View() == r && book == b && entries == e && size == n && bits == bits0 && hasIndex == has
    }

    /** entry.base, entry.block, front, in the order of the code, around the switch to the new tail block. */
    method AnnounceBlock(block: nat)
      requires c.blockSize > 0 && entries.Length == size > 0 && front < size
      modifies this, entries
      ensures cells == old(cells) && items == old(items)
      ensures View() == Announce(old(View()), block, c.blockSize).(tail := tailIndex) && tailIndex == old(tailIndex)
      ensures published == old(front) && entries == old(entries) && size == old(size) && bits == old(bits)
      ensures hasIndex == old(hasIndex) && book == old(book)
    {
      tailBlock := Some(block);
      flags := flags[block := AllClear(c.blockSize)];
      entries[front] := Some(Slotted(tailIndex / c.blockSize, block));
      published := front;
      front := (front + 1) % size;
    }

    /** The index of an initial size, or half the size of the initial block pool if that is more. */
    constructor (c: Implicit.Config, initialBits: nat, poolSize: nat, bytes: nat)
      requires c.blockSize > 0 && 1 <= initialBits < 8 * bytes && poolSize < Pow2(8 * bytes)
      ensures this.c == c && wordBits == 8 * bytes && fresh(entries)
      ensures Valid() && Stored() && tailIndex == 0 && slotsUsed == 0 && !hasIndex && book.ring == []
      ensures Pow2(initialBits) <= 2 * size && bits < wordBits
    {
      var poolBased := CeilToPow2(poolSize, bytes);
      poolBased := poolBased / 2;
      var half := Pow2(initialBits) / 2;
      ghost var k: nat := initialBits - 1;
      if poolBased > half {
        half := poolBased;
        k := HalfOfPool(poolSize, bytes, 2 * poolBased);
      }
      this.c, wordBits := c, 8 * bytes;
      tailIndex, tailBlock, next, flags := 0, None, map[], map[];
      slotsUsed, size, front, published, hasIndex := 0, half, 0, 0, false;
      entries := new Option<Slotted>[half](_ => None);
      bits := k;
      book := Record([], -1, 0, {}, []);
      cells, items := map[], [];
      new;
      StartInv(View(), c.blockSize);
    }

    /** Everything is in place for element tailIndex; only tailIndex itself is still to be stored. */
    ghost predicate Ready()
      reads this, entries
    {
      && Inv(View().(tail := tailIndex + 1), book, c.blockSize) && IndexFields()
    }

    ghost predicate IndexFields()
      reads this
    {
      && size == entries.Length == Pow2(bits) && bits <= wordBits
      && (!hasIndex ==> slotsUsed == 0) && (slotsUsed > 0 ==> published == (front - 1) % size)
    }

    /** is_empty on the block ahead. */
    method IsEmpty(block: nat) returns (empty: bool)
      requires block in flags
      ensures empty == Empty(flags[block])
    {
      for i := 0 to |flags[block]|
        invariant forall f :: 0 <= f < i ==> flags[block][f]
      {
        if !flags[block][i] { return false; }
      }
      return true;
    }

    method ReuseBlockAhead()
      requires Valid() && Off(tailIndex, c.blockSize) == 0 && CanReuse(View())
      modifies this, entries
      ensures cells == old(cells) && items == old(items)
      ensures old(book).ring != [] && book == Rotated(old(book)) && slotsUsed == old(slotsUsed)
      ensures Ready() && tailIndex == old(tailIndex) && entries == old(entries) && size == old(size)
    {
      ReuseKeepsInv(View(), book, c.blockSize);
      SlotBack(front, size);
      book := Rotated(book);
      AnnounceBlock(next[tailBlock.value]);
    }

    method LinkNewBlock(block: nat)
      requires Valid() && Off(tailIndex, c.blockSize) == 0 && block !in book.ring && slotsUsed < size && hasIndex
      modifies this, entries
      ensures cells == old(cells) && items == old(items)
      ensures book == Extended(old(book), block) && slotsUsed == old(slotsUsed) + 1
      ensures Ready() && tailIndex == old(tailIndex) && entries == old(entries) && size == old(size)
    {
      InsertKeepsInv(View(), book, block, c.blockSize);
      SlotBack(front, size);
      book := Extended(book, block);
      if tailBlock.None? {
        next := next[block := block];
      } else {
        LinkExists(View(), old(book));
        next := next[block := next[tailBlock.value]];
        next := next[tailBlock.value := block];
      }
      slotsUsed := slotsUsed + 1;
      AnnounceBlock(block);
    }

    /** The index has its size, or has been doubled because it was full or not there yet. */
    ghost predicate GrownIfUsed(n: nat, has: bool, used: nat) reads this {
      size == n || (size == 2 * n && (!has || used == n))
    }

    /** Room for one more block in the index, by doubling it if need be. */
    method MakeRoom(canAllocate: bool) returns (ok: bool)
      requires Valid() && (canAllocate ==> bits < wordBits)
      modifies this
      ensures cells == old(cells) && items == old(items)
      ensures Valid() && (ok <==> (old(hasIndex) && old(slotsUsed) < old(size)) || canAllocate)
      ensures ok ==> hasIndex && slotsUsed < size
      ensures GrownIfUsed(old(size), old(hasIndex), old(slotsUsed))
      ensures SameRing(old(book)) && tailIndex == old(tailIndex)
      ensures fresh(entries) || entries == old(entries)
    {
      ok := true;
      if !hasIndex || slotsUsed == size {
        ok := NewBlockIndex(slotsUsed, canAllocate);
      }
    }

    ghost predicate SameRing(b: Record) reads this { book.ring == b.ring && book.last == b.last && book.done == b.done }

    /** A new block for the ring, if the test for fullness, the memory for a larger index and the pool allow it. */
    method AddBlock(head: int, canAllocate: bool, newBlock: Option<nat>) returns (ok: bool)
      requires Valid() && Off(tailIndex, c.blockSize) == 0 && (canAllocate ==> bits < wordBits)
      requires newBlock.Some? ==> newBlock.value !in book.ring
      modifies this, entries
      ensures cells == old(cells) && items == old(items)
      ensures c.blockSize > 0
      ensures ok <==> (!Implicit.Full(c, head, old(tailIndex) / c.blockSize) && newBlock.Some?
                       && ((old(hasIndex) && old(slotsUsed) < old(size)) || canAllocate))
      ensures ok ==> Ready() && book.ring == old(book).ring + [newBlock.value] && book.done == old(book).done
      ensures ok ==> book.last == old(book).last + 1
      ensures !ok ==> Valid() && SameRing(old(book))
      ensures GrownIfUsed(old(size), old(hasIndex), old(slotsUsed))
      ensures tailIndex == old(tailIndex) && (fresh(entries) || entries == old(entries))
    {
      if Implicit.Full(c, head, tailIndex / c.blockSize) { return false; }
      ok := MakeRoom(canAllocate);
      if ok && newBlock.Some? {
        LinkNewBlock(newBlock.value);
      } else {
        ok := false;
      }
    }

    /** is_empty on the block ahead of tailBlock, if there is one. */
    method AheadIsEmpty() returns (empty: bool)
      requires Valid()
      ensures empty == CanReuse(View())
    {
      empty := false;
      if tailBlock.Some? {
        AheadKnown(View(), book, c.blockSize);
        empty := IsEmpty(next[tailBlock.value]);
      }
    }

    ghost predicate RoomFor(canAllocate: bool) reads this { (hasIndex && slotsUsed < size) || canAllocate }

    /** At a block boundary: the block ahead, or a new one, becomes the tail block. */
    method EnterBlock(head: int, canAllocate: bool, newBlock: Option<nat>) returns (ok: bool)
      requires Valid() && Off(tailIndex, c.blockSize) == 0 && (canAllocate ==> bits < wordBits)
      requires newBlock.Some? ==> newBlock.value !in book.ring
      modifies this, entries
      ensures cells == old(cells) && items == old(items)
      ensures ok <==> Succeeds(tailIndex, old(book), c, head, old(RoomFor(canAllocate)), newBlock)
      ensures CanReuse(old(View())) <==> OldestIsDone(old(book), c.blockSize)
      ensures tailIndex == old(tailIndex) && book.done == old(book).done
      ensures if ok then Ready() && Entered(old(View()), old(book), newBlock) else Valid() && SameRing(old(book))
      ensures GrownIfUsed(old(size), old(hasIndex), old(slotsUsed))
      ensures fresh(entries) || entries == old(entries)
    {
      EmptyIsDone(View(), book, c.blockSize);
      FullIsNoRoom(c, tailIndex, head);
      var reuse := AheadIsEmpty();
      if reuse {
        ReuseBlockAhead();
        ok := true;
      } else {
        ok := AddBlock(head, canAllocate, newBlock);
      }
    }

    /** The ring after a new tail block: rotated by one, or longer by the new block. */
    ghost predicate Entered(r: Ring, b: Record, newBlock: Option<nat>) reads this {
      if CanReuse(r) then b.ring != [] && book == Rotated(b)
      else newBlock.Some? && book.ring == b.ring + [newBlock.value] && book.last == b.last + 1
    }

    /** enqueue: fails only at a block boundary, and then only if the block ahead is still in use and no other block can
        be had; a failure leaves the ring, the elements and tailIndex as they are, whatever has become of the index. */
    method Enqueue(element: nat, head: int, canAllocate: bool, newBlock: Option<nat>) returns (ok: bool)
      requires Valid() && Stored() && (canAllocate ==> bits < wordBits)
      requires newBlock.Some? ==> newBlock.value !in book.ring
      modifies this, entries
      ensures Valid() && Stored() && c.blockSize > 0 && book.done == old(book).done
      ensures ok <==> Succeeds(old(tailIndex), old(book), c, head, old(RoomFor(canAllocate)), newBlock)
      ensures items == old(items) + (if ok then [element] else []) && tailIndex == |items|
      ensures GrownIfUsed(old(size), old(hasIndex), old(slotsUsed))
      ensures if ok && Off(old(tailIndex), c.blockSize) == 0 then Entered(old(View()), old(book), newBlock)
              else SameRing(old(book))
    {
      ghost var r, b := View(), book;
      ok := true;
      if tailIndex % c.blockSize == 0 {
        ok := EnterBlock(head, canAllocate, newBlock);
        EnteredKeepsCells(r, b, View(), book, cells, items, c.blockSize, newBlock, ok);
        if !ok { return; }
      } else {
        ContinueKeepsInv(View(), book, c.blockSize);
      }
      Construct(element);
    }

    /** The element goes to its cell, and tailIndex past it. */
    method Construct(element: nat)
      requires Ready() && Stored()
      modifies this`cells, this`items, this`tailIndex
      ensures Valid() && Stored() && items == old(items) + [element] && tailIndex == |items|
    {
      ConstructKeepsCells(View(), book, cells, items, c.blockSize, element);
      cells := cells[(tailBlock.value, tailIndex % c.blockSize) := element];
      items := items + [element];
      tailIndex := tailIndex + 1;
    }

    /** dequeue, for a consumer that has claimed index i: the block of i, through the index as it is published now. */
    method FindBlock(i: nat) returns (block: nat)
      requires Valid() && i < tailIndex && i !in book.done
      ensures InWindow(book, Num(i, c.blockSize)) && block == BlockOf(book, Num(i, c.blockSize))
    {
      UndoneInWindow(View(), book, i, c.blockSize);
      FrontIsShown(View(), book, published, c.blockSize);
      var headBase := entries[published].value.number;
      DequeueFindsBlock(View(), book, i, published, c.blockSize);
      var slot := Masked(published + (i / c.blockSize - headBase), size, bits, wordBits);
      block := entries[slot].value.block;
    }

    /** The rest of dequeue: the element is moved out and its block told so. */
    method Take(i: nat) returns (element: nat)
      requires Valid() && Stored() && i < tailIndex && i !in book.done
      modifies this
      ensures Valid() && Stored() && element == old(items)[i] && items == old(items)
      ensures book == old(book).(done := old(book).done + {i as int}) && tailIndex == old(tailIndex)
    {
      var block := FindBlock(i);
      assert CellOk(book, cells, items, i, c.blockSize);
      element := cells[(block, i % c.blockSize)];
      TakenKeepsCells(View(), book, cells, items, i, c.blockSize);
      ghost var r, b := View(), book;
      SetEmpty(i);
      CellsFrame(r, b.(done := b.done + {i as int}), View(), book, cells, items, c.blockSize);
    }

    /** set_empty, once the element has been moved out. */
    method SetEmpty(i: nat)
      requires Valid() && i < tailIndex && i !in book.done
      modifies this
      ensures cells == old(cells) && items == old(items)
      ensures Valid() && book == old(book).(done := old(book).done + {i as int}) && tailIndex == old(tailIndex)
      ensures entries == old(entries)
    {
      SetFlagKeepsInv(View(), book, i, c.blockSize);
      var block := FindBlock(i);
      book := book.(done := book.done + {i as int});
      flags := flags[block := flags[block][c.blockSize - 1 - i % c.blockSize := true]];
    }
  }

  lemma AheadKnown(r: Ring, b: Record, blockSize: nat)
    requires Inv(r, b, blockSize) && r.tailBlock.Some?
    ensures b.ring != [] && r.tailBlock.value in r.next && r.next[r.tailBlock.value] in r.flags
  {
    assert LinkAt(r.next, b.ring, |b.ring| - 1);
    assert BlockFlags(r, b, First(b), blockSize);
  }

  lemma FrontIsShown(r: Ring, b: Record, published: nat, blockSize: nat)
    requires Inv(r, b, blockSize) && b.ring != [] && published == (r.front - 1) % |r.entries|
    ensures r.entries[published] == Some(Slotted(b.last, BlockOf(b, b.last)))
  {
    NextSlot(b.phase, b.last + 1, |r.entries|);
    assert Shown(r.entries, b.phase, b, b.last);
  }

  lemma LinkExists(r: Ring, b: Record)
    requires RingLinks(r, b) && r.tailBlock.Some?
    ensures r.tailBlock.value in r.next
  {
    assert LinkAt(r.next, b.ring, |b.ring| - 1);
  }

  /** One slot on and one slot back. */
  lemma SlotBack(front: nat, size: nat)
    requires size > 0 && front < size
    ensures ((front + 1) % size - 1) % size == front
  {
    ModAdd(front + 1, -1, size);
    ModUnique(front, size, 0, front);
  }

  /** poolBased is a power of two, one bit below the word. */
  lemma HalfOfPool(x: nat, bytes: nat, r: nat) returns (k: nat)
    requires bytes >= 1 && LeastPow2AtLeast(r, x) && r > 1 && x <= Pow2(8 * bytes - 1)
    ensures r == 2 * Pow2(k) && k < 8 * bytes
  {
    var n: nat :| r == Pow2(n);
    k := n - 1;
    if n > 8 * bytes - 1 { Pow2Grows(8 * bytes - 1, n - 1); }
  }

  lemma StartInv(r: Ring, blockSize: nat)
    requires blockSize > 0 && r.tail == 0 && r.tailBlock == None && r.used == 0 && r.front == 0 && |r.entries| > 0
    requires forall s :: 0 <= s < |r.entries| ==> r.entries[s].None?
    ensures Inv(r, Record([], -1, 0, {}, []), blockSize)
  {
    ModUnique(-1, blockSize, -1, blockSize - 1);
    SlotInRange(0, 0, |r.entries|);
  }

  /** The walk of the copy loop is back at the front exactly after `used` steps. */
  lemma StepsTo(front: nat, used: nat, j: nat, size: nat)
    requires front < size && 0 < used <= size && j <= used
    ensures ((front - used + j) % size + 1) % size == (front - used + (j + 1)) % size
    ensures j > 0 ==> ((front - used + j) % size == front <==> j == used)
  {
    ModAdd(front - used + j, 1, size);
    SlotInRange(0, front, size);
    if j > 0 && Slot(0, front - used + j, size) == Slot(0, front, size) { SlotUnique(0, front - used + j, front, size); }
  }

  lemma PublishedSlot(exposed: nat, size: nat, bits: nat, wordBits: nat)
    requires exposed < size == Pow2(bits) && bits <= wordBits
    ensures exposed > 0 ==> (exposed - 1) % Pow2(wordBits) == (exposed - 1) % size
  {
    Pow2Grows(bits, wordBits);
    if exposed > 0 {
      ModUnique(exposed - 1, Pow2(wordBits), 0, exposed - 1);
      ModUnique(exposed - 1, size, 0, exposed - 1);
    }
  }
}
