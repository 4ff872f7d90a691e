/** The links between the blocks of a bulk: every step keeps firstAllocatedBlock, Block::next and endBlock a chain of
    exactly the acquired blocks, and the walks along it where they should be. With that, every step of the producer
    keeps the whole invariant. */
module ImplicitProducerChain {
  import opened Wrappers
  import opened Bits
  import opened BlockIndex
  import opened BlockNumbers
  import opened ImplicitProducer
  import opened ImplicitProducerInvariant
  import opened ImplicitProducerProof
  import opened ImplicitProducerSteps
  import opened ImplicitProducerBlocks
  import opened ImplicitProducerWrites
  import Claims = OptimisticDequeue

  // ----- Steps that touch no link

  /** Nothing that the chain is about changes. */
  predicate LinksKept(m: Memory, m': Memory) {
    && m'.q.tail == m.q.tail && m'.prod == m.prod && m'.local == m.local && m'.tailBlock == m.tailBlock
    && |m.blocks| <= |m'.blocks| && forall k :: 0 <= k < |m.blocks| ==> m'.blocks[k].next == m.blocks[k].next
  }

  lemma ChainFrame(c: Config, m: Memory, m': Memory)
    requires c.blockSize > 0 && ChainOk(c, m) && LinksKept(m, m')
    ensures ChainOk(c, m')
  {
    if !m.prod.PIdle? && m.local.bulk { ChainedFrame(m.blocks, m'.blocks, m.prod.got, FreedOf(m.prod), LinkedOf(m.prod)); }
  }

  lemma ChainedFrame(blocks: seq<Block>, blocks': seq<Block>, got: seq<nat>, lo: nat, linked: nat)
    requires Chained(blocks, got, lo, linked) && |blocks| <= |blocks'|
    requires forall j :: lo <= j < linked && got[j] < |blocks| ==> blocks'[got[j]].next == blocks[got[j]].next
    ensures Chained(blocks', got, lo, linked)
  {
    forall j | lo <= j < linked ensures LinkAt(blocks', got, j, linked) { assert LinkAt(blocks, got, j, linked); }
  }

  /** A pc within the same phase of an operation: acquiring blocks, or about to publish. */
  predicate Acquiring(p: Producing) {
    p.PCheck? || p.PRoom? || p.PGrow? || p.PKey? || p.PTail? || p.PRequest? || p.PReset? || p.PNull? || p.PRewind? || p.PClear?
  }

  lemma ChainPc(c: Config, m: Memory, p: Producing)
    requires c.blockSize > 0 && ChainOk(c, m) && Acquiring(m.prod) && Acquiring(p)
    requires p.got == m.prod.got && |p.vals| == |m.prod.vals|
    ensures ChainOk(c, m.(prod := p))
  {
  }

  // ----- Acquiring and linking

  lemma SingleNeedsOne(tail: int, blockSize: nat)
    requires blockSize > 0
    ensures Needed(tail, 1, blockSize) <= 1
  {
    NumStep(tail - 1, blockSize);
  }

  lemma RevertKeepsChain(c: Config, m: Memory)
    requires c.blockSize > 0 && ChainOk(c, m) && Acquiring(m.prod)
    requires |m.prod.got| < Needed(m.q.tail, |m.prod.vals|, c.blockSize)
    ensures ChainOk(c, Revert(m, m.prod.vals, m.prod.got))
  {
    SingleNeedsOne(m.q.tail, c.blockSize);
  }

  /** The acquired blocks are live under the numbers that follow the start block's, so no two of them are the same. */
  lemma AcquiredIsLive(c: Config, m: Memory, b: Ledger, j: nat)
    requires Core(c, m, b) && UndoneOf(m.prod) == 0 && j < |GotOf(m.prod)|
    ensures GotOf(m.prod)[j] < |b.use| && b.use[GotOf(m.prod)[j]] == Live(Base(c, m) + j)
  {
    GotIsLive(c, m, b, j);
  }

  lemma GotIsLive(c: Config, m: Memory, b: Ledger, j: nat)
    requires c.blockSize > 0 && Shaped(m.ix) && |b.ix.phase| == |m.ix.headers| && HaulOk(c, m, b)
    requires LinksOk(m.ix, b.ix, b.entryOf, b.use) && UndoneOf(m.prod) == 0 && j < |GotOf(m.prod)|
    ensures GotOf(m.prod)[j] < |b.use| && b.use[GotOf(m.prod)[j]] == Live(Base(c, m) + j)
  {
    assert BlockOf(m.ix, b.entryOf, Base(c, m) + j) == Some(GotOf(m.prod)[j]);
    FoundIsLive(m.ix, b.ix, b.entryOf, b.use, Base(c, m) + j);
  }

  lemma StartBlockIsLive(c: Config, m: Memory, b: Ledger)
    requires Core(c, m, b) && Off(m.q.tail, c.blockSize) != 0
    ensures StartBlock(m).Some? && StartBlock(m).value < |b.use| && b.use[StartBlock(m).value] == Live(Base(c, m) - 1)
  {
    TailNumber(m.q.tail, c.blockSize);
    FoundIsLive(m.ix, b.ix, b.entryOf, b.use, Base(c, m) - 1);
  }

  lemma ClearNextKeepsChain(c: Config, m: Memory, k: nat, p: Producing)
    requires c.blockSize > 0 && ChainOk(c, m) && m.prod.PNull? && k < |m.blocks|
    requires p.PPublish? && p.got == m.prod.got && p.vals == m.prod.vals && p.block == k
    requires forall j :: 0 <= j < |m.prod.got| ==> m.prod.got[j] != k
    requires Off(m.q.tail, c.blockSize) != 0 ==> m.local.start != Some(k)
    ensures ChainOk(c, SetNext(m, k, None).(prod := p))
  {
    if m.local.bulk { ChainedFrame(m.blocks, SetNext(m, k, None).blocks, m.prod.got, 0, |m.prod.got|); }
  }

  /** newBlock is on no chain yet. */
  lemma NullNextKeepsChain(c: Config, m: Memory, b: Ledger, r: Resource)
    requires Inv(c, m, b) && m.prod.PNull? && ProducerSafe(c, m)
    ensures ChainOk(c, StepProducer(c, m, r))
  {
    var k := m.prod.block;
    forall j | 0 <= j < |m.prod.got| ensures m.prod.got[j] != k { AcquiredIsLive(c, m, b, j); }
    if Off(m.q.tail, c.blockSize) != 0 { StartBlockIsLive(c, m, b); }
    ClearNextKeepsChain(c, m, k, StepProducer(c, m, r).prod);
  }

  lemma PublishKeepsChain(c: Config, m: Memory, r: Resource)
    requires ProducerSafe(c, m) && ChainOk(c, m) && m.prod.PPublish?
    ensures ChainOk(c, StepProducer(c, m, r))
  {
    var got, got', m' := m.prod.got, m.prod.got + [m.prod.block], StepProducer(c, m, r);
    assert LinkedOf(m'.prod) == |got| && FreedOf(m'.prod) == 0;
    if m.local.bulk {
      forall j | 0 <= j < |got| ensures LinkAt(m.blocks, got', j, |got|) { assert LinkAt(m.blocks, got, j, |got|); }
    }
  }

  /** The store to tailBlock->next appends the new block to the chain. */
  lemma LinkAppends(c: Config, m: Memory, b: Ledger, m': Memory)
    requires Inv(c, m, b) && m.prod.PLink? && LinksBehind(c, m) && Points(m, m.tailBlock)
    requires m' == SetNext(m, m.tailBlock.value, Some(m.prod.block))
    ensures Chained(m'.blocks, m.prod.got, 0, |m.prod.got|)
    ensures Off(m.q.tail, c.blockSize) != 0 ==>
      Points(m', m.local.start) && m'.blocks[m.local.start.value].next == Some(m.prod.got[0])
  {
    var got, last := m.prod.got, |m.prod.got| - 1;
    LinkIsOwn(c, m, b);
    forall j | 0 <= j < |got|
      ensures got[j] < |m.blocks| && (got[j] == m.tailBlock.value <==> j == last - 1)
    { AcquiredIsLive(c, m, b, j); }
    forall j | 0 <= j < |got| ensures LinkAt(m'.blocks, got, j, |got|) {
      if j < last { assert LinkAt(m.blocks, got, j, last); }
    }
    if Off(m.q.tail, c.blockSize) != 0 { StartBlockIsLive(c, m, b); }
  }

  lemma LinkedKeepsChain(c: Config, m: Memory, r: Resource)
    requires ProducerSafe(c, m) && ChainOk(c, m) && m.prod.PLink? && (!m.local.bulk ==> |m.prod.got| == 1)
    requires LinksBehind(c, m) ==>
      var m' := SetNext(m, m.tailBlock.value, Some(m.prod.block));
      && Chained(m'.blocks, m.prod.got, 0, |m.prod.got|)
      && (Off(m.q.tail, c.blockSize) != 0 ==>
            Points(m', m.local.start) && m'.blocks[m.local.start.value].next == Some(m.prod.got[0]))
    ensures ChainOk(c, StepProducer(c, m, r))
  {
  }

  lemma LinkKeepsChain(c: Config, m: Memory, b: Ledger, r: Resource)
    requires Inv(c, m, b) && m.prod.PLink? && ProducerSafe(c, m)
    ensures ChainOk(c, StepProducer(c, m, r))
  {
    SingleNeedsOne(m.q.tail, c.blockSize);
    if LinksBehind(c, m) {
      LinkIsOwn(c, m, b);
      LinkAppends(c, m, b, SetNext(m, m.tailBlock.value, Some(m.prod.block)));
    }
    LinkedKeepsChain(c, m, r);
  }

  // ----- The write walk

  /** The first chunk: elements 0 .. Stop, in the old tail block or, at a block boundary, in the first new one. */
  lemma FirstChunk(tail: int, count: nat, c: Config)
    requires c.blockSize > 0
    ensures var stop, f := Stop(c, tail, count, 0), FirstNew(tail, c.blockSize);
      && 0 <= stop && (stop == 0 ==> count == 0)
      && WalkNumber(c, tail, 0, stop) == (if count == 0 || Off(tail, c.blockSize) != 0 then f - 1 else f)
      && stop == (var end := (WalkNumber(c, tail, 0, stop) + 1) * c.blockSize - tail; if count < end then count else end)
      && (count > 0 && Off(tail, c.blockSize) == 0 ==> Needed(tail, count, c.blockSize) > 0)
      && (count == 0 ==> Needed(tail, count, c.blockSize) == 0)
  {
    NumStep(tail - 1, c.blockSize);
    NumFacts(tail, c.blockSize);
    NumFacts(tail - 1, c.blockSize);
    if count > 0 { NumMono(tail, tail + count - 1, c.blockSize); }
    assert (Num(tail, c.blockSize) + 1) * c.blockSize == Num(tail, c.blockSize) * c.blockSize + c.blockSize;
    assert (Num(tail - 1, c.blockSize) + 1) * c.blockSize == Num(tail - 1, c.blockSize) * c.blockSize + c.blockSize;
  }

  lemma WalkStarts(c: Config, m: Memory, r: Resource)
    requires ProducerSafe(c, m) && ChainOk(c, m) && m.prod.PCheck?
    requires |m.prod.got| == Needed(m.q.tail, |m.prod.vals|, c.blockSize)
    ensures ChainOk(c, StepProducer(c, m, r))
  {
    FirstChunk(m.q.tail, |m.prod.vals|, c);
    assert Walking(c, StepProducer(c, m, r));
  }

  /** One element on, in the same block. */
  lemma WalkNumberKept(c: Config, tail: int, k: nat, stop: int)
    requires c.blockSize > 0 && k < stop && tail + stop <= (WalkNumber(c, tail, k, stop) + 1) * c.blockSize
    ensures WalkNumber(c, tail, k + 1, stop) == WalkNumber(c, tail, k, stop)
  {
    NumFacts(tail + k, c.blockSize);
    NumUnique(tail + k, Num(tail + k, c.blockSize), c.blockSize);
    if k + 1 < stop { NumUnique(tail + k + 1, Num(tail + k, c.blockSize), c.blockSize); }
  }

  lemma WriteKeepsLinks(c: Config, m: Memory, r: Resource)
    requires ProducerSafe(c, m) && ChainOk(c, m) && m.prod.PWrite? && m.prod.k < m.prod.stop
    ensures LinksKept(m, StepProducer(c, m, r).(prod := m.prod))
  {
  }

  lemma WalkKept(c: Config, m: Memory)
    requires c.blockSize > 0 && ChainOk(c, m) && m.prod.PWrite? && m.prod.k < m.prod.stop
    ensures ChainOk(c, m.(prod := PWrite(m.prod.vals, m.prod.got, m.prod.k + 1, m.prod.stop)))
  {
    WalkNumberKept(c, m.q.tail, m.prod.k, m.prod.stop);
  }

  lemma WriteKeepsWalk(c: Config, m: Memory, r: Resource)
    requires ProducerSafe(c, m) && ChainOk(c, m) && m.prod.PWrite? && m.prod.k < m.prod.stop
    ensures ChainOk(c, StepProducer(c, m, r))
  {
    WriteKeepsLinks(c, m, r);
    ChainFrame(c, m, StepProducer(c, m, r).(prod := m.prod));
    WalkKept(c, StepProducer(c, m, r).(prod := m.prod));
  }

  /** tailBlock->next leads to the block of the next element. */
  lemma HopFindsNext(c: Config, m: Memory, b: Ledger)
    requires Inv(c, m, b) && m.prod.PWrite? && m.prod.k >= m.prod.stop && m.prod.k < |m.prod.vals|
    ensures m.local.bulk && Points(m, m.tailBlock)
    ensures var n := WalkNumber(c, m.q.tail, m.prod.k, m.prod.stop);
      && (n + 1) * c.blockSize == m.q.tail + m.prod.k
      && m.blocks[m.tailBlock.value].next == Nth(m.prod.got, n + 1 - Base(c, m))
  {
    EndTest(c, m, b);
    StopFacts(c, m.q.tail, |m.prod.vals|, m.prod.k, m.prod.stop);
    var n, f := WalkNumber(c, m.q.tail, m.prod.k, m.prod.stop), Base(c, m);
    if n < f { StartIsLive(c, m, b); } else { assert LinkAt(m.blocks, m.prod.got, n - f, |m.prod.got|); }
  }

  lemma NextChunkStops(c: Config, tail: int, count: nat, k: nat, n: int)
    requires c.blockSize > 0 && (n + 1) * c.blockSize == tail + k && k < count
    ensures var stop := Stop(c, tail, count, k);
      && k < stop && WalkNumber(c, tail, k, stop) == n + 1
      && stop == (var end := (n + 1 + 1) * c.blockSize - tail; if count < end then count else end)
  {
    NumUnique(tail + k, n + 1, c.blockSize);
    assert (n + 1 + 1) * c.blockSize == (n + 1) * c.blockSize + c.blockSize;
  }

  lemma HoppedKeepsChain(c: Config, m: Memory, n: int, r: Resource)
    requires ProducerSafe(c, m) && ChainOk(c, m) && m.prod.PWrite? && m.prod.k == m.prod.stop
    requires m.tailBlock != m.local.end && m.prod.k < |m.prod.vals| && n >= Base(c, m) - 1
    requires (n + 1) * c.blockSize == m.q.tail + m.prod.k
    requires m.blocks[m.tailBlock.value].next == Nth(m.prod.got, n + 1 - Base(c, m))
    ensures ChainOk(c, StepProducer(c, m, r))
  {
    NextChunkStops(c, m.q.tail, |m.prod.vals|, m.prod.k, n);
    assert Walking(c, StepProducer(c, m, r));
  }

  /** At the end of a chunk the comparison with endBlock sends the producer on along the link, or out of the loop. */
  lemma HopKeepsWalk(c: Config, m: Memory, b: Ledger, r: Resource)
    requires Inv(c, m, b) && m.prod.PWrite? && m.prod.k >= m.prod.stop && ProducerSafe(c, m)
    ensures ChainOk(c, StepProducer(c, m, r))
  {
    if m.tailBlock == m.local.end {
      LeaveKeepsChain(c, m, r);
    } else {
      EndTest(c, m, b);
      HopFindsNext(c, m, b);
      HoppedKeepsChain(c, m, WalkNumber(c, m.q.tail, m.prod.k, m.prod.stop), r);
    }
  }

  lemma LeaveKeepsChain(c: Config, m: Memory, r: Resource)
    requires ProducerSafe(c, m) && ChainOk(c, m) && m.prod.PWrite? && m.prod.k >= m.prod.stop && m.tailBlock == m.local.end
    ensures ChainOk(c, StepProducer(c, m, r))
  {
  }

  // ----- All steps

  lemma CheckKeepsChain(c: Config, m: Memory, r: Resource)
    requires ProducerSafe(c, m) && ChainOk(c, m) && m.prod.PCheck?
    requires |m.prod.got| <= Needed(m.q.tail, |m.prod.vals|, c.blockSize)
    ensures ChainOk(c, StepProducer(c, m, r))
  {
    if |m.prod.got| == Needed(m.q.tail, |m.prod.vals|, c.blockSize) {
      WalkStarts(c, m, r);
    } else if Full(c, m.q.head, FirstNew(m.q.tail, c.blockSize) + |m.prod.got|) {
      RevertKeepsChain(c, m);
    } else {
      ChainPc(c, m, StepProducer(c, m, r).prod);
    }
  }

  /** Accesses on the way to a block: none of them is to a link. */
  lemma AcquireKeepsChain(c: Config, m: Memory, r: Resource)
    requires ProducerSafe(c, m) && ChainOk(c, m) && Acquiring(m.prod) && !m.prod.PCheck? && !m.prod.PNull?
    requires |m.prod.got| < Needed(m.q.tail, |m.prod.vals|, c.blockSize)
    ensures ChainOk(c, StepProducer(c, m, r))
  {
    var m' := StepProducer(c, m, r);
    if m'.prod.PUndo? {
      var m1 := m'.(prod := m.prod, local := m.local);
      ChainFrame(c, m, m1);
      RevertKeepsChain(c, m1);
    } else if Acquiring(m'.prod) {
      ChainFrame(c, m, m'.(prod := m.prod));
      ChainPc(c, m'.(prod := m.prod), m'.prod);
    }
  }

  lemma UndoKeepsChain(c: Config, m: Memory, r: Resource)
    requires ProducerSafe(c, m) && ChainOk(c, m) && (m.prod.PUndo? || m.prod.PUndoTail?)
    ensures ChainOk(c, StepProducer(c, m, r))
  {
  }

  lemma UndoNextKeepsChain(c: Config, m: Memory, r: Resource)
    requires ProducerSafe(c, m) && ChainOk(c, m) && m.prod.PUndoNext?
    ensures ChainOk(c, StepProducer(c, m, r))
  {
    assert LinkAt(m.blocks, m.prod.got, m.prod.k, |m.prod.got|);
  }

  lemma FreeKeepsChain(c: Config, m: Memory, r: Resource)
    requires ProducerSafe(c, m) && ChainOk(c, m) && m.prod.PFree?
    ensures ChainOk(c, StepProducer(c, m, r))
  {
    if m.prod.k < |m.prod.got| { assert LinkAt(m.blocks, m.prod.got, m.prod.k, |m.prod.got|); }
  }

  lemma GiveKeepsChain(c: Config, m: Memory, r: Resource)
    requires ProducerSafe(c, m) && ChainOk(c, m) && m.prod.PGive?
    ensures ChainOk(c, StepProducer(c, m, r))
  {
    forall j | m.prod.k + 1 <= j < |m.prod.got| ensures LinkAt(m.blocks, m.prod.got, j, |m.prod.got|) { }
  }

  lemma RollbackKeepsChain(c: Config, m: Memory, r: Resource)
    requires ProducerSafe(c, m) && ChainOk(c, m)
    requires m.prod.PUndo? || m.prod.PUndoTail? || m.prod.PUndoNext? || m.prod.PFree? || m.prod.PGive?
    ensures ChainOk(c, StepProducer(c, m, r))
  {
    if m.prod.PUndoNext? { UndoNextKeepsChain(c, m, r); }
    else if m.prod.PFree? { FreeKeepsChain(c, m, r); }
    else if m.prod.PGive? { GiveKeepsChain(c, m, r); }
    else { UndoKeepsChain(c, m, r); }
  }

  /** How far the operation has come, by its access. */
  lemma HaulBound(c: Config, m: Memory, b: Ledger)
    requires Core(c, m, b) && (Acquiring(m.prod) || m.prod.PCheck?)
    ensures |m.prod.got| <= Needed(m.q.tail, |m.prod.vals|, c.blockSize)
    ensures !m.prod.PCheck? ==> |m.prod.got| < Needed(m.q.tail, |m.prod.vals|, c.blockSize)
  {
  }

  lemma ProducerKeepsChain(c: Config, m: Memory, b: Ledger, r: Resource)
    requires Inv(c, m, b) && !m.prod.PIdle? && ProducerSafe(c, m)
    ensures ChainOk(c, StepProducer(c, m, r))
  {
    if m.prod.PNull? {
      NullNextKeepsChain(c, m, b, r);
    } else if Acquiring(m.prod) {
      HaulBound(c, m, b);
      if m.prod.PCheck? { CheckKeepsChain(c, m, r); } else { AcquireKeepsChain(c, m, r); }
    } else if m.prod.PPublish? {
      PublishKeepsChain(c, m, r);
    } else if m.prod.PLink? {
      LinkKeepsChain(c, m, b, r);
    } else if m.prod.PWrite? {
      if m.prod.k < m.prod.stop { WriteKeepsWalk(c, m, r); } else { HopKeepsWalk(c, m, b, r); }
    } else if !m.prod.PStore? {
      RollbackKeepsChain(c, m, r);
    }
  }

  lemma ProducerKeepsCore(c: Config, m: Memory, b: Ledger, r: Resource)
    requires Inv(c, m, b) && !m.prod.PIdle?
    ensures ProducerSafe(c, m) && Core(c, StepProducer(c, m, r), TrackProducer(c, m, b, r))
  {
    match m.prod
    case PCheck(_, _) => CheckStep(c, m, b, r);
    case PRoom(_, _) => RoomStep(c, m, b, r);
    case PGrow(_, _) => GrowStep(c, m, b, r);
    case PKey(_, _, _) => KeyStep(c, m, b, r);
    case PTail(_, _, _) => AdvanceStep(c, m, b, r);
    case PRequest(_, _, _) => RequestStep(c, m, b, r);
    case PReset(_, _, _, _) => ResetStep(c, m, b, r);
    case PNull(_, _, _, _) => NullNextStep(c, m, b, r);
    case PPublish(_, _, _, _) => PublishStep(c, m, b, r);
    case PLink(_, _, _) => LinkStep(c, m, b, r);
    case PRewind(_, _, _) => RewindStep(c, m, b, r);
    case PClear(_, _, _) => ClearStep(c, m, b, r);
    case PUndo(_, _, _) => UndoStep(c, m, b, r);
    case PUndoTail(_, _, _) => UndoTailStep(c, m, b, r);
    case PUndoNext(_, _, _) => UndoNextStep(c, m, b, r);
    case PFree(_, _, _) => FreeStep(c, m, b, r);
    case PGive(_, _, _, _) => GiveBackStep(c, m, b, r);
    case PWrite(_, _, _, _) => WriteStep(c, m, b, r);
    case PStore(_, _) => StoreStep(c, m, b, r);
  }

  /** Every step of the producer keeps the invariant, and dereferences no null and no foreign pointer. */
  lemma ProducerStep(c: Config, m: Memory, b: Ledger, r: Resource)
    requires Inv(c, m, b) && !m.prod.PIdle?
    ensures ProducerSafe(c, m) && Inv(c, StepProducer(c, m, r), TrackProducer(c, m, b, r))
  {
    ProducerKeepsCore(c, m, b, r);
    ProducerKeepsChain(c, m, b, r);
  }
}
