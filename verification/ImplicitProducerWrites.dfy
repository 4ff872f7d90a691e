/** The rollback of the producer, the construction of the elements, and the store of tailIndex that publishes them. */
module ImplicitProducerWrites {
  import opened Wrappers
  import opened Bits
  import opened BlockIndex
  import opened BlockNumbers
  import opened ImplicitProducer
  import opened ImplicitProducerInvariant
  import opened ImplicitProducerProof
  import opened ImplicitProducerSteps
  import opened ImplicitProducerBlocks
  import Claims = OptimisticDequeue

  // ----- Rollback

  lemma ClearStep(c: Config, m: Memory, b: Ledger, r: Resource)
    requires Core(c, m, b) && m.prod.PClear?
    ensures ProducerSafe(c, m) && Core(c, StepProducer(c, m, r), TrackProducer(c, m, b, r))
  {
    var e := m.prod.e;
    assert m.ix.entries[e := m.ix.entries[e].(value := None)] == m.ix.entries;
    ProdOnly(c, m, b, StepProducer(c, m, r));
  }

  function TakenOut(m: Memory, e: nat): Memory
    requires m.prod.PUndo? && e < |m.ix.entries|
  {
    var p := m.prod;
    m.(ix := SetEntry(m.ix, e, m.ix.entries[e].(value := None)), prod := PUndoTail(p.vals, p.got, p.k))
  }

  function TakenOutBook(m: Memory, b: Ledger, n: int): Ledger
    requires m.prod.PUndo? && m.prod.k < |m.prod.got| && m.prod.got[m.prod.k] < |b.use|
  {
    b.(entryOf := b.entryOf - {n}, use := b.use[m.prod.got[m.prod.k] := Undone(m.prod.k)])
  }

  /** The lookup of the rollback finds the entry of the block to take back. */
  lemma UndoLookup(c: Config, m: Memory, b: Ledger)
    requires Sized(c, m, b) && Coherent(m.ix, b.ix) && LinksOk(m.ix, b.ix, b.entryOf, b.use)
    requires ProducerOk(c, m, b) && m.prod.PUndo? && m.prod.k < |m.prod.got|
    ensures ProducerSafe(c, m) && m.prod.got[m.prod.k] < |b.use|
    ensures m.ix.entries[Current(m.ix).index[Current(m.ix).tail]].key == Some(b.ix.count - 1)
    ensures var n, cur := Base(c, m) + m.prod.k, Current(m.ix);
      && n in b.entryOf && b.entryOf[n] < |m.ix.entries| && BlockOf(m.ix, b.entryOf, n) == Some(m.prod.got[m.prod.k])
      && cur.index[SlotFor(cur.tail, m.ix.entries[cur.index[cur.tail]].key.value, n, |cur.index|)] == b.entryOf[n]
  {
    var n, cur := Base(c, m) + m.prod.k, Current(m.ix);
    assert BlockOf(m.ix, b.entryOf, n) == Some(m.prod.got[m.prod.k]);
    assert LinkOk(m.ix, b.ix, b.entryOf, b.use, n);
    assert m.ix.entries[EntryAt(m.ix, b.ix, b.ix.count - 1)].key == Some(b.ix.count - 1);
    LookupFindsSlot(CurrentPhase(b.ix), cur.tail, b.ix.count - 1, n, |cur.index|);
  }

  lemma UndoContents(c: Config, m: Memory, b: Ledger, m': Memory, b': Ledger, n: int)
    requires c.blockSize > 0 && |b.items| == m.q.tail && ContentsOk(c, m, b) && n >= Base(c, m)
    requires m'.q == m.q && m'.blocks == m.blocks && b' == b.(entryOf := b.entryOf - {n}, use := b'.use)
    requires forall x :: x != n ==> BlockOf(m'.ix, b'.entryOf, x) == BlockOf(m.ix, b.entryOf, x)
    ensures ContentsOk(c, m', b')
  {
    forall x | x in b'.entryOf ensures CounterOk(c, m', b', x) { assert CounterOk(c, m, b, x); }
    forall i | 0 <= i < m.q.tail && i !in b.taken ensures CellOk(c, m', b', i) {
      assert CellOk(c, m, b, i);
      BaseFacts(i, m.q.tail, c.blockSize);
    }
  }

  lemma UndoUses(c: Config, m: Memory, b: Ledger, e: nat, n: int)
    requires c.blockSize > 0 && UsesOk(c, m, b) && m.prod.PUndo? && m.prod.k < |m.prod.got|
    requires e < |m.ix.entries| && m.prod.got[m.prod.k] < |b.use| && b.use[m.prod.got[m.prod.k]] == Live(n)
    ensures UsesOk(c, TakenOut(m, e), TakenOutBook(m, b, n))
  {
    var m', b' := TakenOut(m, e), TakenOutBook(m, b, n);
    forall k | 0 <= k < |b'.use| ensures UseOk(c, m', b', k) { assert UseOk(c, m, b, k); }
  }

  lemma UndoProducer(c: Config, m: Memory, b: Ledger, e: nat)
    requires Sized(c, m, b) && ProducerOk(c, m, b) && m.prod.PUndo? && m.prod.k < |m.prod.got|
    requires m.prod.got[m.prod.k] < |b.use| && e < |m.ix.entries| && Shaped(TakenOut(m, e).ix)
    requires b.use[m.prod.got[m.prod.k]].Live?
    requires forall x :: x != Base(c, m) + m.prod.k ==>
      BlockOf(TakenOut(m, e).ix, TakenOutBook(m, b, Base(c, m) + m.prod.k).entryOf, x) == BlockOf(m.ix, b.entryOf, x)
    ensures ProducerOk(c, TakenOut(m, e), TakenOutBook(m, b, Base(c, m) + m.prod.k))
  {
    var m', b' := TakenOut(m, e), TakenOutBook(m, b, Base(c, m) + m.prod.k);
    if Off(m.q.tail, c.blockSize) != 0 { TailNumber(m.q.tail, c.blockSize); }
    EntryKeepsShape(m.ix, b.ix, e, m'.ix.entries[e], b.ix.high);
    forall k {:trigger EntryAt(m'.ix, b'.ix, k)} | Base(c, m) <= k <= b.ix.high
      ensures m'.ix.entries[EntryAt(m'.ix, b'.ix, k)].key == Some(k)
    { assert EntryAt(m'.ix, b'.ix, k) == EntryAt(m.ix, b.ix, k); }
    assert KeysFrom(m', b', Base(c, m));
  }

  lemma UndoIndex(c: Config, m: Memory, b: Ledger, n: int)
    requires Sized(c, m, b) && Coherent(m.ix, b.ix) && LinksOk(m.ix, b.ix, b.entryOf, b.use)
    requires m.prod.PUndo? && m.prod.k < |m.prod.got|
    requires n in b.entryOf && b.entryOf[n] < |m.ix.entries| && BlockOf(m.ix, b.entryOf, n) == Some(m.prod.got[m.prod.k])
    ensures m.prod.got[m.prod.k] < |b.use| && b.use[m.prod.got[m.prod.k]] == Live(n)
    ensures var m', b' := TakenOut(m, b.entryOf[n]), TakenOutBook(m, b, n);
      && Coherent(m'.ix, b.ix) && LinksOk(m'.ix, b.ix, b'.entryOf, b'.use) && IndexGrows(m.ix, b.ix, m'.ix, b.ix)
      && forall x :: x != n ==> BlockOf(m'.ix, b'.entryOf, x) == BlockOf(m.ix, b.entryOf, x)
  {
    FoundIsLive(m.ix, b.ix, b.entryOf, b.use, n);
    ClearKeepsLinks(m.ix, b.ix, b.entryOf, b.use, n, m.prod.got[m.prod.k], Undone(m.prod.k));
    ValueKeepsCoherent(m.ix, b.ix, b.entryOf[n], None);
    ValueGrowsIndex(m.ix, b.ix, b.entryOf[n], None);
  }

  lemma UndoTakesOut(c: Config, m: Memory, b: Ledger)
    requires Core(c, m, b) && m.prod.PUndo? && m.prod.k < |m.prod.got|
    requires var n := Base(c, m) + m.prod.k;
      n in b.entryOf && b.entryOf[n] < |m.ix.entries| && BlockOf(m.ix, b.entryOf, n) == Some(m.prod.got[m.prod.k])
    ensures m.prod.got[m.prod.k] < |b.use|
    ensures Core(c, TakenOut(m, b.entryOf[Base(c, m) + m.prod.k]), TakenOutBook(m, b, Base(c, m) + m.prod.k))
  {
    var n := Base(c, m) + m.prod.k;
    UndoIndex(c, m, b, n);
    var m', b' := TakenOut(m, b.entryOf[n]), TakenOutBook(m, b, n);
    UndoContents(c, m, b, m', b', n);
    UndoUses(c, m, b, b.entryOf[n], n);
    UndoProducer(c, m, b, b.entryOf[n]);
    ProducerLeavesConsumers(c, m, b, m', b');
  }

  lemma UndoEnds(c: Config, m: Memory, b: Ledger, r: Resource)
    requires Inv(c, m, b) && m.prod.PUndo? && m.local.at.None?
    ensures ProducerSafe(c, m) && Core(c, StepProducer(c, m, r), TrackProducer(c, m, b, r))
  {
    assert TakenBack(b, m.prod.got, 0, |m.prod.got|);
    ProdOnly(c, m, b, StepProducer(c, m, r));
  }

  lemma UndoOne(c: Config, m: Memory, b: Ledger, r: Resource)
    requires Inv(c, m, b) && m.prod.PUndo? && m.local.at.Some?
    ensures ProducerSafe(c, m) && Core(c, StepProducer(c, m, r), TrackProducer(c, m, b, r))
  {
    UndoLookup(c, m, b);
    var n := Base(c, m) + m.prod.k;
    var m', b' := TakenOut(m, b.entryOf[n]), TakenOutBook(m, b, n);
    assert StepProducer(c, m, r) == m';
    assert TrackProducer(c, m, b, r) == b';
    UndoTakesOut(c, m, b);
  }

  lemma UndoStep(c: Config, m: Memory, b: Ledger, r: Resource)
    requires Inv(c, m, b) && m.prod.PUndo?
    ensures ProducerSafe(c, m) && Core(c, StepProducer(c, m, r), TrackProducer(c, m, b, r))
  {
    if m.local.at.Some? { UndoOne(c, m, b, r); } else { UndoEnds(c, m, b, r); }
  }

  lemma UndoNextStep(c: Config, m: Memory, b: Ledger, r: Resource)
    requires Inv(c, m, b) && m.prod.PUndoNext?
    ensures ProducerSafe(c, m) && Core(c, StepProducer(c, m, r), TrackProducer(c, m, b, r))
  {
    ProdOnly(c, m, b, StepProducer(c, m, r));
  }

  lemma FreeStep(c: Config, m: Memory, b: Ledger, r: Resource)
    requires Inv(c, m, b) && m.prod.PFree?
    ensures ProducerSafe(c, m) && Core(c, StepProducer(c, m, r), TrackProducer(c, m, b, r))
  {
    ProdOnly(c, m, b, StepProducer(c, m, r));
  }

  lemma GiveBackUses(c: Config, m: Memory, b: Ledger, m': Memory, b': Ledger)
    requires c.blockSize > 0 && UsesOk(c, m, b) && m.prod.PGive? && m.prod.k < |m.prod.got|
    requires m.prod.got[m.prod.k] < |b.use| && b.use[m.prod.got[m.prod.k]] == Undone(m.prod.k)
    requires m' == m.(free := m.free + {m.prod.got[m.prod.k]}, local := m'.local,
                      prod := PFree(m.prod.vals, m.prod.got, m.prod.k + 1))
    requires b' == b.(use := b.use[m.prod.got[m.prod.k] := Free])
    ensures UsesOk(c, m', b')
  {
    forall k | 0 <= k < |b'.use| ensures UseOk(c, m', b', k) { assert UseOk(c, m, b, k); }
  }

  function Returned(m: Memory): Memory
    requires m.prod.PGive? && m.local.at.Some?
  {
    m.(free := m.free + {m.local.at.value}, local := m.local.(at := m.prod.next),
       prod := PFree(m.prod.vals, m.prod.got, m.prod.k + 1))
  }

  lemma GiveBackProducer(c: Config, m: Memory, b: Ledger, b': Ledger)
    requires Sized(c, m, b) && ProducerOk(c, m, b) && m.prod.PGive? && m.prod.k < |m.prod.got|
    requires m.prod.got[m.prod.k] < |b.use| && b.use[m.prod.got[m.prod.k]] == Undone(m.prod.k)
    requires m.local.at.Some? && b' == b.(use := b.use[m.prod.got[m.prod.k] := Free])
    ensures ProducerOk(c, Returned(m), b')
  {
    assert TakenBack(b', m.prod.got, m.prod.k + 1, |m.prod.got|);
    ProducerOtherBlocks(c, m, b, Returned(m), b');
  }

  lemma GiveBackCore(c: Config, m: Memory, b: Ledger, b': Ledger)
    requires Core(c, m, b) && m.prod.PGive? && m.prod.k < |m.prod.got| && m.local.at == Some(m.prod.got[m.prod.k])
    requires m.prod.got[m.prod.k] < |b.use| && b.use[m.prod.got[m.prod.k]] == Undone(m.prod.k)
    requires b' == b.(use := b.use[m.prod.got[m.prod.k] := Free])
    ensures Core(c, Returned(m), b')
  {
    LinksSameUses(m.ix, b.ix, b.entryOf, b.use, b'.use);
    ProducerLeavesConsumers(c, m, b, Returned(m), b');
    ContentsFrame(c, m, b, Returned(m), b');
    GiveBackUses(c, m, b, Returned(m), b');
    GiveBackProducer(c, m, b, b');
  }

  lemma GiveBackStep(c: Config, m: Memory, b: Ledger, r: Resource)
    requires Inv(c, m, b) && m.prod.PGive?
    ensures ProducerSafe(c, m) && Core(c, StepProducer(c, m, r), TrackProducer(c, m, b, r))
  {
    GiveBackCore(c, m, b, TrackProducer(c, m, b, r));
    assert StepProducer(c, m, r) == Returned(m);
  }

  // ----- Writing the elements

  /** Every element of the operation goes to the live block that will hold its index. */
  lemma TargetIsLive(c: Config, m: Memory, b: Ledger, k: nat)
    requires Sized(c, m, b) && ProducerOk(c, m, b) && (m.prod.PWrite? || m.prod.PStore?) && k < |m.prod.vals|
    ensures Num(m.q.tail + k, c.blockSize) in b.entryOf
    ensures Target(c, m, m.prod.got, k) == BlockOf(m.ix, b.entryOf, Num(m.q.tail + k, c.blockSize))
    ensures Target(c, m, m.prod.got, k).Some?
  {
    var i, f := m.q.tail + k, Base(c, m);
    var n := Num(i, c.blockSize);
    NumMono(i, m.q.tail + |m.prod.vals| - 1, c.blockSize);
    if n < f {
      NumMono(m.q.tail - 1, m.q.tail, c.blockSize);
      NumMono(m.q.tail, i, c.blockSize);
      NumStep(m.q.tail - 1, c.blockSize);
    } else {
      assert BlockOf(m.ix, b.entryOf, f + (n - f)) == Some(m.prod.got[n - f]);
    }
  }

  lemma SameCell(i: int, j: int, blockSize: nat)
    requires blockSize > 0 && Num(i, blockSize) == Num(j, blockSize) && Off(i, blockSize) == Off(j, blockSize)
    ensures i == j
  {
    NumFacts(i, blockSize);
    NumFacts(j, blockSize);
  }

  function WithCell(m: Memory, k: nat, o: nat, v: Option<nat>): Memory
    requires k < |m.blocks| && o < |m.blocks[k].cells|
  {
    m.(blocks := m.blocks[k := m.blocks[k].(cells := m.blocks[k].cells[o := v])])
  }

  lemma WriteContents(c: Config, m: Memory, b: Ledger, j: int, k: nat, v: nat)
    requires Sized(c, m, b) && |b.items| == m.q.tail && LinksOk(m.ix, b.ix, b.entryOf, b.use) && ContentsOk(c, m, b)
    requires k < |m.blocks| && |m.blocks[k].cells| == c.blockSize && j >= m.q.tail
    requires BlockOf(m.ix, b.entryOf, Num(j, c.blockSize)) == Some(k)
    ensures ContentsOk(c, WithCell(m, k, Off(j, c.blockSize), Some(v)), b)
  {
    var m' := WithCell(m, k, Off(j, c.blockSize), Some(v));
    FoundIsLive(m.ix, b.ix, b.entryOf, b.use, Num(j, c.blockSize));
    forall n | n in b.entryOf ensures CounterOk(c, m', b, n) { assert CounterOk(c, m, b, n); }
    forall i | 0 <= i < m.q.tail && i !in b.taken ensures CellOk(c, m', b, i) {
      assert CellOk(c, m, b, i);
      FoundIsLive(m.ix, b.ix, b.entryOf, b.use, Num(i, c.blockSize));
      if Num(i, c.blockSize) == Num(j, c.blockSize) && Off(i, c.blockSize) == Off(j, c.blockSize) {
        SameCell(i, j, c.blockSize);
      }
    }
  }

  lemma WriteKeepsWritten(c: Config, m: Memory, b: Ledger, m': Memory, j: nat)
    requires Sized(c, m, b) && LinksOk(m.ix, b.ix, b.entryOf, b.use) && ProducerOk(c, m, b)
    requires m.prod.PWrite? && j <= m.prod.k < |m.prod.vals| && (j < m.prod.k ==> Written(c, m, j))
    requires var k, i := Target(c, m, m.prod.got, m.prod.k), m.q.tail + m.prod.k;
      && k.Some? && k.value < |m.blocks| && |m.blocks[k.value].cells| == c.blockSize
      && m' == WithCell(m, k.value, Off(i, c.blockSize), Some(m.prod.vals[m.prod.k]))
                .(prod := PWrite(m.prod.vals, m.prod.got, m.prod.k + 1, m.prod.stop))
    ensures Written(c, m', j)
  {
    TargetIsLive(c, m, b, j);
    TargetIsLive(c, m, b, m.prod.k);
    var x, y := Num(m.q.tail + j, c.blockSize), Num(m.q.tail + m.prod.k, c.blockSize);
    FoundIsLive(m.ix, b.ix, b.entryOf, b.use, x);
    FoundIsLive(m.ix, b.ix, b.entryOf, b.use, y);
    assert Target(c, m', m'.prod.got, j) == Target(c, m, m.prod.got, j);
    if x == y && Off(m.q.tail + j, c.blockSize) == Off(m.q.tail + m.prod.k, c.blockSize) {
      SameCell(m.q.tail + j, m.q.tail + m.prod.k, c.blockSize);
    }
  }

  /** The walk along the links has come to the block that element k belongs to. */
  lemma TailIsTarget(c: Config, m: Memory, b: Ledger)
    requires ShapeOk(c, m, b) && ProducerOk(c, m, b) && ChainOk(c, m) && m.prod.PWrite? && m.prod.k < m.prod.stop
    ensures m.prod.k < |m.prod.vals| && m.tailBlock == Target(c, m, m.prod.got, m.prod.k)
  {
  }

  /** The producer only writes to blocks that it owns or that hold elements not yet dequeued: never through a
      tail block that went back to the pool. */
  lemma WriteIsSafe(c: Config, m: Memory, b: Ledger)
    requires ShapeOk(c, m, b) && LinksOk(m.ix, b.ix, b.entryOf, b.use) && ProducerOk(c, m, b) && ChainOk(c, m)
    requires m.prod.PWrite? && m.prod.k < m.prod.stop
    ensures ProducerSafe(c, m) && m.prod.k < |m.prod.vals|
    ensures m.tailBlock == Target(c, m, m.prod.got, m.prod.k)
    ensures b.use[m.tailBlock.value] == Live(Num(m.q.tail + m.prod.k, c.blockSize))
  {
    TailIsTarget(c, m, b);
    TargetIsLive(c, m, b, m.prod.k);
    FoundIsLive(m.ix, b.ix, b.entryOf, b.use, Num(m.q.tail + m.prod.k, c.blockSize));
  }

  function LastNumber(c: Config, m: Memory): int
    requires c.blockSize > 0 && !m.prod.PIdle?
  {
    Num(m.q.tail + |m.prod.vals| - 1, c.blockSize)
  }

  /** Where a chunk stops: at the end of the operation exactly if its block is the last one. */
  lemma StopFacts(c: Config, tail: int, count: nat, k: nat, stop: int)
    requires c.blockSize > 0 && k == stop
    requires var end := (WalkNumber(c, tail, k, stop) + 1) * c.blockSize - tail; stop == if count < end then count else end
    ensures var n, last := WalkNumber(c, tail, k, stop), Num(tail + count - 1, c.blockSize);
      n <= last && (n == last <==> k == count) && (n < last ==> (n + 1) * c.blockSize == tail + k)
  {
    var n, last := WalkNumber(c, tail, k, stop), Num(tail + count - 1, c.blockSize);
    NumMono(tail + k - 1, tail + count - 1, c.blockSize);
    NumFacts(tail + count - 1, c.blockSize);
    NumFacts(tail + k - 1, c.blockSize);
    if n < last { MulLe(c.blockSize, n + 1, last); }
  }

  /** A chunk that ends in the start block, with more to come, began in the middle of it. */
  lemma StartIsLive(c: Config, m: Memory, b: Ledger)
    requires Core(c, m, b) && ChainOk(c, m) && m.prod.PWrite? && m.prod.k == m.prod.stop
    requires WalkNumber(c, m.q.tail, m.prod.k, m.prod.stop) < Base(c, m) && m.prod.k < |m.prod.vals|
    ensures Off(m.q.tail, c.blockSize) != 0 && m.tailBlock == m.local.start
    ensures Base(c, m) - 1 in b.entryOf && m.tailBlock == BlockOf(m.ix, b.entryOf, Base(c, m) - 1)
  {
    StopFacts(c, m.q.tail, |m.prod.vals|, m.prod.k, m.prod.stop);
    if Off(m.q.tail, c.blockSize) == 0 {
      NumStep(m.q.tail - 1, c.blockSize);
      NumFacts(m.q.tail, c.blockSize);
    } else {
      TailNumber(m.q.tail, c.blockSize);
    }
  }

  /** tailBlock == endBlock is a comparison of pointers; it holds exactly at the end of the operation, because no block
      is twice among those that the walk goes along. */
  lemma EndTest(c: Config, m: Memory, b: Ledger)
    requires Inv(c, m, b) && m.prod.PWrite? && m.prod.k >= m.prod.stop
    ensures m.tailBlock == m.local.end <==> m.prod.k == |m.prod.vals|
    ensures m.prod.k < |m.prod.vals| ==> var n := WalkNumber(c, m.q.tail, m.prod.k, m.prod.stop);
      && m.prod.k == m.prod.stop && n < LastNumber(c, m)
      && n in b.entryOf && m.tailBlock == BlockOf(m.ix, b.entryOf, n) && Points(m, m.tailBlock)
  {
    var f, n, got := Base(c, m), WalkNumber(c, m.q.tail, m.prod.k, m.prod.stop), m.prod.got;
    StopFacts(c, m.q.tail, |m.prod.vals|, m.prod.k, m.prod.stop);
    if n < LastNumber(c, m) {
      if n < f { StartIsLive(c, m, b); } else { assert BlockOf(m.ix, b.entryOf, f + (n - f)) == Some(got[n - f]); }
      assert BlockOf(m.ix, b.entryOf, f + (|got| - 1)) == Some(got[|got| - 1]);
      FoundIsLive(m.ix, b.ix, b.entryOf, b.use, n);
      FoundIsLive(m.ix, b.ix, b.entryOf, b.use, f + (|got| - 1));
    }
  }

  lemma WriteProducer(c: Config, m: Memory, b: Ledger, m': Memory)
    requires ShapeOk(c, m, b) && LinksOk(m.ix, b.ix, b.entryOf, b.use) && ProducerOk(c, m, b)
    requires m.prod.PWrite? && m.prod.k < |m.prod.vals|
    requires var k, i := Target(c, m, m.prod.got, m.prod.k), m.q.tail + m.prod.k;
      && k.Some? && k.value < |m.blocks| && |m.blocks[k.value].cells| == c.blockSize
      && m' == WithCell(m, k.value, Off(i, c.blockSize), Some(m.prod.vals[m.prod.k]))
                .(prod := PWrite(m.prod.vals, m.prod.got, m.prod.k + 1, m.prod.stop))
    ensures ProducerOk(c, m', b)
  {
    forall j | 0 <= j <= m.prod.k ensures Written(c, m', j) {
      if j < m.prod.k { assert Written(c, m, j); }
      WriteKeepsWritten(c, m, b, m', j);
    }
    ProducerOtherBlocks(c, m, b, m', b);
  }

  lemma WriteCore(c: Config, m: Memory, b: Ledger, k: nat, m': Memory)
    requires Core(c, m, b) && m.prod.PWrite? && m.prod.k < |m.prod.vals|
    requires Target(c, m, m.prod.got, m.prod.k) == Some(k) && k < |m.blocks| && |m.blocks[k].cells| == c.blockSize
    requires m' == WithCell(m, k, Off(m.q.tail + m.prod.k, c.blockSize), Some(m.prod.vals[m.prod.k]))
                .(prod := PWrite(m.prod.vals, m.prod.got, m.prod.k + 1, m.prod.stop))
    ensures Core(c, m', b)
  {
    TargetIsLive(c, m, b, m.prod.k);
    WriteContents(c, m, b, m.q.tail + m.prod.k, k, m.prod.vals[m.prod.k]);
    WriteProducer(c, m, b, m');
    ProducerLeavesConsumers(c, m, b, m', b);
    UsesFrame(c, m, b, m', b);
    ContentsFrame(c, m'.(prod := m.prod), b, m', b);
  }

  lemma WriteElement(c: Config, m: Memory, b: Ledger, r: Resource)
    requires Inv(c, m, b) && m.prod.PWrite? && m.prod.k < m.prod.stop
    ensures ProducerSafe(c, m) && Core(c, StepProducer(c, m, r), b)
  {
    WriteIsSafe(c, m, b);
    WriteCore(c, m, b, m.tailBlock.value, StepProducer(c, m, r));
  }

  lemma WrittenKept(c: Config, m: Memory, m': Memory, j: nat)
    requires c.blockSize > 0 && PointersOnly(m, m') && !m.prod.PIdle? && !m'.prod.PIdle?
    requires m'.prod.vals == m.prod.vals && m'.prod.got == m.prod.got && Written(c, m, j)
    ensures Written(c, m', j)
  {
  }

  /** At the end of a chunk: on to the next block, or to the store of tailIndex. */
  lemma ChunkEnds(c: Config, m: Memory, b: Ledger, r: Resource)
    requires Inv(c, m, b) && m.prod.PWrite? && m.prod.k >= m.prod.stop
    ensures ProducerSafe(c, m) && Core(c, StepProducer(c, m, r), b)
  {
    EndTest(c, m, b);
    var m' := StepProducer(c, m, r);
    forall j | 0 <= j < m.prod.k ensures Written(c, m', j) { WrittenKept(c, m, m', j); }
    ProdOnly(c, m, b, m');
  }

  lemma WriteStep(c: Config, m: Memory, b: Ledger, r: Resource)
    requires Inv(c, m, b) && m.prod.PWrite?
    ensures ProducerSafe(c, m) && Core(c, StepProducer(c, m, r), TrackProducer(c, m, b, r))
  {
    if m.prod.k < m.prod.stop { WriteElement(c, m, b, r); } else { ChunkEnds(c, m, b, r); }
  }

  // ----- Publishing the elements

  function Stored(m: Memory): Memory
    requires m.prod.PStore?
  {
    m.(q := m.q.(tail := m.q.tail + |m.prod.vals|), prod := PIdle)
  }

  lemma StoreContents(c: Config, m: Memory, b: Ledger, m': Memory, b': Ledger)
    requires Sized(c, m, b) && |b.items| == m.q.tail && LinksOk(m.ix, b.ix, b.entryOf, b.use)
    requires ContentsOk(c, m, b) && ProducerOk(c, m, b) && m.prod.PStore?
    requires m' == Stored(m)
    requires b' == b.(items := b.items + m.prod.vals)
    ensures ContentsOk(c, m', b')
  {
    var f := Base(c, m);
    forall n | 0 <= n < Base(c, m') && DoneIn(b.done, n, c.blockSize) < c.blockSize ensures n in b.entryOf {
      if n >= f { assert BlockOf(m.ix, b.entryOf, f + (n - f)) == Some(m.prod.got[n - f]); }
    }
    forall n | n in b.entryOf ensures CounterOk(c, m', b', n) { assert CounterOk(c, m, b, n); }
    forall i | 0 <= i < m'.q.tail && i !in b.taken ensures CellOk(c, m', b', i) {
      if i < m.q.tail {
        assert CellOk(c, m, b, i);
      } else {
        assert Written(c, m, i - m.q.tail);
        TargetIsLive(c, m, b, i - m.q.tail);
      }
    }
  }

  lemma StoreProducer(c: Config, m: Memory, b: Ledger, m': Memory, b': Ledger)
    requires Sized(c, m, b) && ProducerOk(c, m, b) && m.prod.PStore? && m' == Stored(m)
    requires m.tailBlock == if m.prod.got == [] then m.local.start else Some(m.prod.got[|m.prod.got|-1])
    requires b' == b.(items := b.items + m.prod.vals)
    ensures ProducerOk(c, m', b')
  {
    var f, got := Base(c, m), m.prod.got;
    assert Base(c, m') == f + |got|;
    if Off(m'.q.tail, c.blockSize) != 0 {
      TailNumber(m'.q.tail, c.blockSize);
      if got != [] {
        assert BlockOf(m.ix, b.entryOf, f + (|got| - 1)) == Some(got[|got|-1]);
      } else {
        NumMono(m.q.tail - 1, m.q.tail, c.blockSize);
        NumMono(m.q.tail, m'.q.tail, c.blockSize);
        NumStep(m.q.tail - 1, c.blockSize);
      }
    }
    KeysFromHigher(m, b, f, Base(c, m'));
    assert KeysFrom(m', b', Base(c, m'));
  }

  lemma StoreRest(c: Config, m: Memory, b: Ledger, m': Memory, b': Ledger)
    requires Sized(c, m, b) && |b.items| == m.q.tail && LinksOk(m.ix, b.ix, b.entryOf, b.use)
    requires ContentsOk(c, m, b) && ProducerOk(c, m, b) && UsesOk(c, m, b) && ConsumersOk(c, m, b) && m.prod.PStore?
    requires m.tailBlock == if m.prod.got == [] then m.local.start else Some(m.prod.got[|m.prod.got|-1])
    requires m' == Stored(m) && b' == b.(items := b.items + m.prod.vals)
    ensures ContentsOk(c, m', b') && ProducerOk(c, m', b') && UsesOk(c, m', b') && ConsumersOk(c, m', b')
  {
    StoreContents(c, m, b, m', b');
    StoreProducer(c, m, b, m', b');
    UsesFrame(c, m, b, m', b');
    ProducerLeavesConsumers(c, m, b, m', b');
  }

  /** The chain ends in the tail block. */
  lemma StoreTail(c: Config, m: Memory)
    requires c.blockSize > 0 && ChainOk(c, m) && m.prod.PStore?
    ensures m.tailBlock == if m.prod.got == [] then m.local.start else Some(m.prod.got[|m.prod.got|-1])
  {
  }

  lemma StoreShape(c: Config, m: Memory, b: Ledger)
    requires ShapeOk(c, m, b) && m.prod.PStore?
    ensures ShapeOk(c, Stored(m), b.(items := b.items + m.prod.vals))
  {
    assert Claims.Enabled(m.q, 0, Claims.Enqueue(|m.prod.vals|));
    Claims.StepKeepsInv(m.q, b.q, 0, Claims.Enqueue(|m.prod.vals|));
  }

  lemma StoreKeepsCore(c: Config, m: Memory, b: Ledger)
    requires Core(c, m, b) && m.prod.PStore?
    requires m.tailBlock == if m.prod.got == [] then m.local.start else Some(m.prod.got[|m.prod.got|-1])
    ensures Core(c, Stored(m), b.(items := b.items + m.prod.vals))
  {
    StoreShape(c, m, b);
    StoreRest(c, m, b, Stored(m), b.(items := b.items + m.prod.vals));
  }

  lemma StoreStep(c: Config, m: Memory, b: Ledger, r: Resource)
    requires Inv(c, m, b) && m.prod.PStore?
    ensures ProducerSafe(c, m) && Core(c, StepProducer(c, m, r), TrackProducer(c, m, b, r))
  {
    StoreTail(c, m);
    StoreKeepsCore(c, m, b);
    assert ProducerSafe(c, m) && StepProducer(c, m, r) == Stored(m);
  }

  lemma EnqueueStep(c: Config, m: Memory, b: Ledger, vals: seq<nat>, bulk: bool)
    requires Core(c, m, b) && m.prod.PIdle? && (!bulk ==> |vals| == 1)
    ensures Inv(c, Start(m, vals, bulk), b)
  {
    NumMono(m.q.tail - 1, m.q.tail + |vals| - 1, c.blockSize);
    ProdOnly(c, m, b, Start(m, vals, bulk));
  }
}
