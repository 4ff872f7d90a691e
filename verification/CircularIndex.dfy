/** Indices that wrap: the N-bit counters of the queue against the unbounded counters they stand for.
    `half` is 2^(N-1), so the counters are residues modulo 2 * half. */
module CircularIndex {
  import opened Wrappers
  import opened Bits
  import opened OptimisticDequeue
  import Implicit = ImplicitProducer

  function Wrap(x: int, half: nat): nat
    requires half > 0
  {
    x % (2 * half)
  }

  /** circular_less_than: static_cast<T>(a - b) > static_cast<T>(1) << (bits - 1). */
  predicate CircularLessThan(a: int, b: int, half: nat)
    requires half > 0
  {
    Wrap(a - b, half) > half
  }

  lemma WrapShift(x: int, k: int, half: nat)
    requires half > 0
    ensures Wrap(x + k * (2 * half), half) == Wrap(x, half)
  {
    var m := 2 * half;
    ModUnique(x + k * m, m, x / m + k, x % m) by {
      assert x == m * (x / m) + x % m;
      assert m * (x / m + k) == m * (x / m) + k * m;
    }
  }

  /** Wrapping the operands first changes no difference or sum modulo 2^N. */
  lemma WrapSub(x: int, y: int, half: nat)
    requires half > 0
    ensures Wrap(Wrap(x, half) - Wrap(y, half), half) == Wrap(x - y, half)
  {
    var m := 2 * half;
    assert x == m * (x / m) + x % m && y == m * (y / m) + y % m;
    assert x - y == (x % m - y % m) + (x / m - y / m) * m;
    WrapShift(x % m - y % m, x / m - y / m, half);
  }

  lemma WrapSmall(x: int, half: nat)
    requires half > 0 && -2 * half <= x < 2 * half
    ensures Wrap(x, half) == if x < 0 then x + 2 * half else x
  {
    if x < 0 { WrapShift(x, 1, half); ModUnique(x + 2 * half, 2 * half, 0, x + 2 * half); }
    else { ModUnique(x, 2 * half, 0, x); }
  }

  /** For counters less than 2^N apart, the wrapped comparison is the comparison of the counters
      exactly when y is less than 2^(N-1) ahead of x and at most 2^(N-1) behind it. */
  lemma CircularExact(x: int, y: int, half: nat)
    requires half > 0 && -2 * half < y - x < 2 * half
    ensures (CircularLessThan(Wrap(x, half), Wrap(y, half), half) <==> x < y) <==> 0 <= half + y - x < 2 * half
  {
    WrapSub(x, y, half);
    WrapSmall(x - y, half);
  }

  /** The test of a single dequeue and the test of a bulk dequeue are the same test. */
  lemma SingleTestIsBulkTest(a: int, b: int, half: nat)
    requires half > 0
    ensures CircularLessThan(a, b, half) <==> CircularLessThan(0, Wrap(b - a, half), half)
  {
    WrapSub(0, b - a, half);
    WrapSmall(0, half);
    assert 0 - (b - a) == a - b;
  }

  // ----- The counters of the dequeue protocol, wrapped

  /** Every counter and every local copy of one, modulo 2^N. Amounts (max, desired, actual, excess) are not wrapped. */
  function WrapPc(pc: Pc, half: nat): Pc
    requires half > 0
  {
    match pc
    case LoadOvercommit(max, tail) => LoadOvercommit(max, Wrap(tail, half))
    case LoadOptimistic(max, tail, over) => LoadOptimistic(max, Wrap(tail, half), Wrap(over, half))
    case TakeTicket(d, over) => TakeTicket(d, Wrap(over, half))
    case ReloadTail(d, over, my) => ReloadTail(d, Wrap(over, half), Wrap(my, half))
    case Holding(first, count) => Holding(Wrap(first, half), count)
    case _ => pc
  }

  function WrapCounters(m: Counters, half: nat): (w: Counters)
    requires half > 0
    ensures |w.pc| == |m.pc|
  {
    Counters(Wrap(m.tail, half), Wrap(m.head, half), Wrap(m.opt, half), Wrap(m.over, half),
             seq(|m.pc|, i requires 0 <= i < |m.pc| => WrapPc(m.pc[i], half)))
  }

  function FirstCheckWrapped(tail: int, opt: int, over: int, max: nat, half: nat): Pc
    requires half > 0
  {
    var desired := Wrap(tail - Wrap(opt - over, half), half);
    if CircularLessThan(0, desired, half) then TakeTicket(Min(desired, max), over) else Out
  }

  function SecondCheckWrapped(tail: int, my: int, over: int, desired: int, half: nat): Pc
    requires half > 0
  {
    var available := Wrap(tail - Wrap(my - over, half), half);
    if CircularLessThan(0, available, half) then
      var actual := Min(desired, available);
      if actual < desired then GiveBack(desired - actual, actual) else Claim(actual)
    else GiveUp(desired)
  }

  /** The step of the code: as OptimisticDequeue.Step, on N-bit counters with the circular comparison. */
  function StepWrapped(m: Counters, t: nat, a: Action, half: nat): Counters
    requires half > 0 && Enabled(m, t, a)
  {
    match a
    case Enqueue(k) => m.(tail := Wrap(m.tail + k, half))
    case Call(max) => m.(pc := m.pc[t := LoadTail(max)])
    case Release => m.(pc := m.pc[t := Out])
    case Advance =>
      match m.pc[t]
      case LoadTail(max) => m.(pc := m.pc[t := LoadOvercommit(max, m.tail)])
      case LoadOvercommit(max, tail) => m.(pc := m.pc[t := LoadOptimistic(max, tail, m.over)])
      case LoadOptimistic(max, tail, over) => m.(pc := m.pc[t := FirstCheckWrapped(tail, m.opt, over, max, half)])
      case TakeTicket(d, over) => m.(opt := Wrap(m.opt + d, half), pc := m.pc[t := ReloadTail(d, over, m.opt)])
      case ReloadTail(d, over, my) => m.(pc := m.pc[t := SecondCheckWrapped(m.tail, my, over, d, half)])
      case GiveBack(excess, actual) => m.(over := Wrap(m.over + excess, half), pc := m.pc[t := Claim(actual)])
      case GiveUp(d) => m.(over := Wrap(m.over + d, half), pc := m.pc[t := Out])
      case Claim(actual) => m.(head := Wrap(m.head + actual, half), pc := m.pc[t := Holding(m.head, actual)])
      case _ => m
  }

  /** The assumption that the comments of the code make: between a consumer's loads and the test it makes with them the
      others move the counters by less than 2^(N-1): elements published, overcommits, unresolved tickets, later grants. */
  predicate InTime(m: Counters, b: Book, t: nat, half: nat)
    requires t < |m.pc| && |b.mine| == |m.pc|
  {
    match m.pc[t]
    case LoadOptimistic(max, tail, over) =>
      (m.tail - tail) + (m.over - over) + Unresolved(b.tickets) <= half
    case ReloadTail(d, over, my) =>
      && (m.over - over) + Unresolved(b.tickets) <= half
      && b.mine[t] < |b.tickets|
      && (m.tail - m.head) + Sum(b.tickets, Granted) - Sum(b.tickets[..b.mine[t]], Granted) < half
    case _ => true
  }

  lemma FirstCheckAgrees(tail: int, opt: int, over: int, max: nat, half: nat)
    requires half > 0 && 0 <= half + tail - (opt - over) < 2 * half
    ensures FirstCheckWrapped(Wrap(tail, half), Wrap(opt, half), Wrap(over, half), max, half)
         == WrapPc(FirstCheck(tail, opt, over, max), half)
  {
    var d := tail - (opt - over);
    WrapSub(opt, over, half);
    WrapSub(tail, opt - over, half);
    CircularExact(0, d, half);
    WrapSmall(0, half);
    WrapSmall(d, half);
  }

  lemma SecondCheckAgrees(tail: int, my: int, over: int, desired: int, half: nat)
    requires half > 0 && 0 <= half + tail - (my - over) < 2 * half
    ensures SecondCheckWrapped(Wrap(tail, half), Wrap(my, half), Wrap(over, half), desired, half)
         == WrapPc(SecondCheck(tail, my, over, desired), half)
  {
    var d := tail - (my - over);
    WrapSub(my, over, half);
    WrapSub(tail, my - over, half);
    CircularExact(0, d, half);
    WrapSmall(0, half);
    WrapSmall(d, half);
  }

  /** Why the assumption puts the first test in range. */
  lemma FirstTestInRange(m: Counters, b: Book, t: nat, half: nat)
    requires half > 0 && Inv(m, b) && t < |m.pc| && m.pc[t].LoadOptimistic?
    requires m.tail - m.head < half && InTime(m, b, t, half)
    ensures 0 <= half + m.pc[t].tail - (m.opt - m.pc[t].over) < 2 * half
  {
    assert OptimisticDequeue.ThreadOk(m, b, t);
    HeadNeverPassesTail(m, b);
    UnresolvedIsTheRest(b.tickets);
    assert b.tickets[..|b.tickets|] == b.tickets;
    SumsBounded(m, b.tickets, |b.tickets|);
  }

  /** Why it puts the second test in range: everything granted before this ticket fetched lies below my - overcommit. */
  lemma SecondTestInRange(m: Counters, b: Book, t: nat, half: nat)
    requires half > 0 && Inv(m, b) && t < |m.pc| && m.pc[t].ReloadTail? && InTime(m, b, t, half)
    ensures 0 <= half + m.tail - (m.pc[t].my - m.pc[t].over) < 2 * half
  {
    assert OptimisticDequeue.ThreadOk(m, b, t);
    var i := b.mine[t];
    assert TicketOk(m, b.tickets, i);
    HeadNeverPassesTail(m, b);
    UnresolvedIsTheRest(b.tickets);
    SumsBounded(m, b.tickets, i);
    TicketBelowTotal(m, b.tickets, i, |b.tickets|);
    assert b.tickets[..|b.tickets|] == b.tickets;
    SumsBounded(m, b.tickets, |b.tickets|);
  }

  lemma {:induction false} TicketBelowTotal(m: Counters, ts: seq<Ticket>, i: nat, k: nat)
    requires i < k <= |ts| && forall j :: 0 <= j < |ts| ==> TicketOk(m, ts, j)
    ensures ts[i].my + ts[i].desired <= Sum(ts[..k], Desired)
  {
    assert ts[..k][..k-1] == ts[..k-1];
    assert TicketOk(m, ts, k - 1) && TicketOk(m, ts, i);
    if i < k - 1 { TicketBelowTotal(m, ts, i, k - 1); }
  }

  /** Refinement: while the queue holds fewer than 2^(N-1) elements and every test is made in time, the N-bit counters
      step exactly as the unbounded ones do. */
  lemma WrappedStepRefines(m: Counters, b: Book, t: nat, a: Action, half: nat)
    requires half > 0 && Inv(m, b) && Enabled(m, t, a)
    requires a.Advance? && t < |m.pc| ==> m.tail - m.head < half && InTime(m, b, t, half)
    ensures Enabled(WrapCounters(m, half), t, a)
    ensures StepWrapped(WrapCounters(m, half), t, a, half) == WrapCounters(Step(m, t, a), half)
  {
    var w := WrapCounters(m, half);
    if a.Enqueue? {
      WrapAmount(m.tail, a.k, half);
    } else if a.Advance? {
      match m.pc[t]
      case LoadOptimistic(max, tail, over) =>
        FirstTestInRange(m, b, t, half);
        FirstCheckAgrees(tail, m.opt, over, max, half);
      case ReloadTail(d, over, my) =>
        SecondTestInRange(m, b, t, half);
        SecondCheckAgrees(m.tail, my, over, d, half);
      case TakeTicket(d, _) => WrapAmount(m.opt, d, half);
      case GiveBack(excess, _) => WrapAmount(m.over, excess, half);
      case GiveUp(d) => WrapAmount(m.over, d, half);
      case Claim(actual) => WrapAmount(m.head, actual, half);
      case _ =>
    }
    assert StepWrapped(w, t, a, half).pc == WrapCounters(Step(m, t, a), half).pc;
  }

  /** One scheduled event on the wrapped counters. */
  function PerformWrapped(w: Counters, e: Event, half: nat): Counters
    requires half > 0
  {
    if Enabled(w, e.thread, e.action) then StepWrapped(w, e.thread, e.action, half) else w
  }

  function ExecuteWrapped(w: Counters, events: seq<Event>, half: nat): Counters
    requires half > 0
  {
    if events == [] then w else PerformWrapped(ExecuteWrapped(w, events[..|events|-1], half), events[|events|-1], half)
  }

  lemma WrapAmount(x: int, d: int, half: nat)
    requires half > 0
    ensures Wrap(Wrap(x, half) + d, half) == Wrap(x + d, half)
  {
    var m := 2 * half;
    assert x == m * (x / m) + x % m;
    assert x + d == (x % m + d) + (x / m) * m;
    WrapShift(x % m + d, x / m, half);
  }

  // ----- From an index to a slot of the circular block index

  /** The slot as the code computes it: the block offset is a residue, C++ converts the signed difference back to
      unsigned before dividing by BLOCK_SIZE, and the sum is masked with capacity - 1. */
  function SlotUnsigned(tailSlot: nat, index: int, tailBase: int, blockSize: nat, capacity: nat, half: nat): nat
    requires half > 0 && blockSize > 0 && capacity > 0
  {
    (tailSlot + Wrap(index - tailBase, half) / blockSize) % capacity
  }

  /** The slot as the comment describes it: a signed count of blocks before or after the tail's. */
  function SlotSigned(tailSlot: nat, blocks: int, capacity: nat): nat
    requires capacity > 0
  {
    (tailSlot + blocks) % capacity
  }

  lemma ModOfSum(x: int, y: int, z: int, m: nat)
    requires m > 0 && y % m == z % m
    ensures (x + y) % m == (x + z) % m
  {
    assert y == m * (y / m) + y % m && z == m * (z / m) + z % m;
    var r := x + y % m;
    assert r == m * (r / m) + r % m;
    ModUnique(x + y, m, y / m + r / m, r % m) by { assert m * (y / m + r / m) == m * (y / m) + m * (r / m); }
    ModUnique(x + z, m, z / m + r / m, r % m) by { assert m * (z / m + r / m) == m * (z / m) + m * (r / m); }
  }

  /** `blocks * blockSize` wrapped and divided is `blocks` wrapped to the number of blocks in the index space. */
  lemma WrappedQuotient(blocks: int, blockSize: nat, span: nat, half: nat)
    requires half > 0 && blockSize > 0 && span > 0 && blockSize * span == 2 * half
    ensures Wrap(blocks * blockSize, half) / blockSize == blocks % span
  {
    var q, r := blocks / span, blocks % span;
    assert blocks == span * q + r;
    assert blocks * blockSize == (blockSize * span) * q + blockSize * r by {
      assert (span * q + r) * blockSize == (span * q) * blockSize + r * blockSize;
      assert (span * q) * blockSize == (blockSize * span) * q;
    }
    assert 0 <= blockSize * r < blockSize * span by { MulLe(blockSize, r + 1, span); }
    ModUnique(blocks * blockSize, 2 * half, q, blockSize * r);
    ModUnique(blockSize * r, blockSize, r, 0);
  }

  /** For every number of blocks between the index and the tail, the two computations find the same slot. */
  ghost predicate SlotsAgree(tailSlot: nat, tailBase: int, blockSize: nat, capacity: nat, half: nat)
    requires half > 0 && blockSize > 0 && capacity > 0
  {
    forall blocks: int ::
      SlotUnsigned(tailSlot, tailBase + blocks * blockSize, tailBase, blockSize, capacity, half)
      == SlotSigned(tailSlot, blocks, capacity)
  }

  lemma SlotIsWrappedBlocks(tailSlot: nat, tailBase: int, blocks: int, blockSize: nat, capacity: nat, span: nat, half: nat)
    requires half > 0 && blockSize > 0 && capacity > 0 && span > 0 && blockSize * span == 2 * half
    ensures SlotUnsigned(tailSlot, tailBase + blocks * blockSize, tailBase, blockSize, capacity, half)
         == (tailSlot + blocks % span) % capacity
  {
    assert tailBase + blocks * blockSize - tailBase == blocks * blockSize;
    WrappedQuotient(blocks, blockSize, span, half);
  }

  lemma SlotsAgreeWhenFitting(tailSlot: nat, tailBase: int, blockSize: nat, capacity: nat, rest: nat, half: nat)
    requires half > 0 && blockSize > 0 && capacity > 0 && rest > 0
    requires capacity * rest > 0 && blockSize * (capacity * rest) == 2 * half
    ensures SlotsAgree(tailSlot, tailBase, blockSize, capacity, half)
  {
    forall blocks: int
      ensures SlotUnsigned(tailSlot, tailBase + blocks * blockSize, tailBase, blockSize, capacity, half)
           == SlotSigned(tailSlot, blocks, capacity)
    {
      SlotIsWrappedBlocks(tailSlot, tailBase, blocks, blockSize, capacity, capacity * rest, half);
      ModOfMultiple(blocks, capacity, rest);
      ModOfSum(tailSlot, blocks % (capacity * rest), blocks, capacity);
    }
  }

  lemma SlotsDifferWhenNot(tailSlot: nat, tailBase: int, blockSize: nat, capacity: nat, span: nat, half: nat)
    requires half > 0 && blockSize > 0 && 0 < span < capacity && blockSize * span == 2 * half
    ensures !SlotsAgree(tailSlot, tailBase, blockSize, capacity, half)
  {
    SlotIsWrappedBlocks(tailSlot, tailBase, -1, blockSize, capacity, span, half);
    ModUnique(-1, span, -1, span - 1);
    BackOneDiffers(tailSlot, span, capacity);
    assert SlotUnsigned(tailSlot, tailBase + -1 * blockSize, tailBase, blockSize, capacity, half)
        != SlotSigned(tailSlot, -1, capacity);
  }

  /** The unsigned division lands on the slot of the signed one exactly when the index holds no more blocks
      than the index space has: capacity * BLOCK_SIZE <= 2^N. */
  lemma UnsignedDivisionFindsSlot(tailSlot: nat, tailBase: int, blockBits: nat, capacityBits: nat, wordBits: nat)
    requires 0 < wordBits && blockBits <= wordBits
    ensures SlotsAgree(tailSlot, tailBase, Pow2(blockBits), Pow2(capacityBits), Pow2(wordBits - 1))
      <==> Pow2(capacityBits) * Pow2(blockBits) <= Pow2(wordBits)
  {
    Pow2Sum(blockBits, wordBits - blockBits);
    Pow2Sum(capacityBits, blockBits);
    if capacityBits + blockBits <= wordBits {
      Pow2Grows(capacityBits + blockBits, wordBits);
      Pow2Sum(capacityBits, wordBits - blockBits - capacityBits);
      SlotsAgreeWhenFitting(tailSlot, tailBase, Pow2(blockBits), Pow2(capacityBits),
                            Pow2(wordBits - blockBits - capacityBits), Pow2(wordBits - 1));
    } else {
      Pow2Grows(wordBits, capacityBits + blockBits);
      Pow2Grows(wordBits - blockBits, capacityBits);
      SlotsDifferWhenNot(tailSlot, tailBase, Pow2(blockBits), Pow2(capacityBits), Pow2(wordBits - blockBits), Pow2(wordBits - 1));
    }
  }

  lemma {:induction false} Pow2Sum(a: nat, b: nat)
    ensures Pow2(a + b) == Pow2(a) * Pow2(b)
  {
    if a > 0 {
      Pow2Sum(a - 1, b);
      assert Pow2(a) * Pow2(b) == 2 * (Pow2(a - 1) * Pow2(b));
    }
  }

  /** One block behind the tail is not span - 1 blocks ahead of it when the ring is longer than span. */
  lemma BackOneDiffers(tailSlot: nat, span: nat, capacity: nat)
    requires 0 < span < capacity
    ensures (tailSlot + (span - 1)) % capacity != (tailSlot + -1) % capacity
  {
    var x := tailSlot - 1;
    if (x + span) % capacity == x % capacity {
      assert x == capacity * (x / capacity) + x % capacity;
      assert x + span == capacity * ((x + span) / capacity) + x % capacity;
      var k := (x + span) / capacity - x / capacity;
      assert span == capacity * k;
      if k <= 0 { MulLe(capacity, k, 0); } else { MulLe(capacity, 1, k); }
    }
  }

  // ----- The block arithmetic of bulk enqueue

  /** index & ~(BLOCK_SIZE - 1). */
  function BlockBase(index: nat, blockSize: nat): nat
    requires blockSize > 0
  {
    index - index % blockSize
  }

  /** blockBaseDiff as enqueue_bulk computes it, on words; startTailIndex - 1 wraps when startTailIndex is 0. */
  function BlockBaseDiff(start: int, count: nat, blockSize: nat, half: nat): nat
    requires half > 0 && blockSize > 0
  {
    Wrap(BlockBase(Wrap(Wrap(start, half) + count - 1, half), blockSize)
         - BlockBase(Wrap(Wrap(start, half) - 1, half), blockSize), half)
  }

  lemma WrappedBase(x: int, blockSize: nat, rest: nat, half: nat) returns (k: int)
    requires half > 0 && blockSize > 0 && blockSize * rest == 2 * half
    ensures BlockBase(Wrap(x, half), blockSize) == (x / blockSize) * blockSize + k * (2 * half)
  {
    var m := 2 * half;
    assert x == m * (x / m) + x % m;
    ModOfMultiple(x, blockSize, rest);
    assert x == blockSize * (x / blockSize) + x % blockSize;
    k := -(x / m);
    assert k * m == -(m * (x / m));
  }

  /** In a word of N bits, with BLOCK_SIZE a power of two, the difference is that of the unbounded block numbers. */
  lemma BlockBaseDiffWraps(start: int, count: nat, blockSize: nat, rest: nat, half: nat)
    requires half > 0 && blockSize > 0 && blockSize * rest == 2 * half
    ensures BlockBaseDiff(start, count, blockSize, half) == Wrap(Implicit.Needed(start, count, blockSize) * blockSize, half)
    ensures 0 <= Implicit.Needed(start, count, blockSize) * blockSize < 2 * half ==>
      BlockBaseDiff(start, count, blockSize, half) == Implicit.Needed(start, count, blockSize) * blockSize
  {
    var a, z := start + count - 1, start - 1;
    WrapAmount(start, count - 1, half);
    WrapAmount(start, -1, half);
    var j := WrappedBase(a, blockSize, rest, half);
    var k := WrappedBase(z, blockSize, rest, half);
    var blocks := a / blockSize - z / blockSize;
    assert (a / blockSize) * blockSize - (z / blockSize) * blockSize == blocks * blockSize;
    assert j * (2 * half) - k * (2 * half) == (j - k) * (2 * half);
    WrapShift(blocks * blockSize, j - k, half);
    if 0 <= blocks * blockSize < 2 * half { WrapSmall(blocks * blockSize, half); }
  }

  // ----- The full test at a block boundary

  /** The test of enqueue and enqueue_bulk on words: head, and currentTailIndex, the base of the block to acquire. */
  predicate FullWrapped(c: Implicit.Config, head: int, base: int)
    requires c.half > 0
  {
    || !CircularLessThan(head, Wrap(base + c.blockSize, c.half), c.half)
    || (c.maxSize.Some? && (c.maxSize.value == 0 || c.maxSize.value - c.blockSize < Wrap(base - head, c.half)))
  }

  /** It is the test of the unbounded machine, as long as the new block begins at or above the head and ends within 2^N
      of it. */
  lemma FullTestAgrees(c: Implicit.Config, head: int, number: int)
    requires c.half > 0 && 0 < number * c.blockSize + c.blockSize - head < 2 * c.half && head <= number * c.blockSize
    ensures FullWrapped(c, Wrap(head, c.half), Wrap(number * c.blockSize, c.half)) <==> Implicit.Full(c, head, number)
  {
    var base := number * c.blockSize;
    WrapAmount(base, c.blockSize, c.half);
    CircularExact(head, base + c.blockSize, c.half);
    WrapSub(base, head, c.half);
    WrapSmall(base - head, c.half);
  }
}
