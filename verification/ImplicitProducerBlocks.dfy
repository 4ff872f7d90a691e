/** The steps of the producer that touch blocks: resetting, publishing, taking back, writing elements, and the store
    of tailIndex that makes them visible. */
module ImplicitProducerBlocks {
  import opened Wrappers
  import opened Bits
  import opened BlockIndex
  import opened BlockNumbers
  import opened ImplicitProducer
  import opened ImplicitProducerInvariant
  import opened ImplicitProducerProof
  import opened ImplicitProducerSteps
  import Claims = OptimisticDequeue

  /** A block found by number is live under that number. */
  lemma FoundIsLive(ix: Index, b: BlockIndex.Book, entryOf: map<int, nat>, use: seq<Use>, n: int)
    requires Shaped(ix) && |b.phase| == |ix.headers| && LinksOk(ix, b, entryOf, use) && n in entryOf
    ensures BlockOf(ix, entryOf, n).Some? && BlockOf(ix, entryOf, n).value < |use|
    ensures use[BlockOf(ix, entryOf, n).value] == Live(n)
  {
    assert LinkOk(ix, b, entryOf, use, n);
  }

  /** Blocks that are not live do not matter to the contents. */
  lemma ContentsLiveBlocks(c: Config, m: Memory, b: Ledger, m': Memory)
    requires Sized(c, m, b) && |b.items| == m.q.tail && |b.use| == |m.blocks| == |m'.blocks|
    requires LinksOk(m.ix, b.ix, b.entryOf, b.use) && ContentsOk(c, m, b)
    requires m'.q == m.q && m'.ix == m.ix
    requires forall k :: 0 <= k < |b.use| && b.use[k].Live? ==>
      m'.blocks[k].cells == m.blocks[k].cells && m'.blocks[k].emptied == m.blocks[k].emptied
    ensures ContentsOk(c, m', b)
  {
    forall n | n in b.entryOf ensures CounterOk(c, m', b, n) {
      FoundIsLive(m.ix, b.ix, b.entryOf, b.use, n);
      assert CounterOk(c, m, b, n);
    }
    forall i | 0 <= i < m.q.tail && i !in b.taken ensures CellOk(c, m', b, i) {
      assert CellOk(c, m, b, i);
      FoundIsLive(m.ix, b.ix, b.entryOf, b.use, Num(i, c.blockSize));
    }
  }

  lemma ResetStep(c: Config, m: Memory, b: Ledger, r: Resource)
    requires Core(c, m, b) && m.prod.PReset?
    ensures ProducerSafe(c, m) && Core(c, StepProducer(c, m, r), TrackProducer(c, m, b, r))
  {
    var m' := StepProducer(c, m, r);
    ContentsLiveBlocks(c, m, b, m');
    ProducerLeavesConsumers(c, m, b, m', b);
    UsesFrame(c, m, b, m', b);
    ProducerOtherBlocks(c, m, b, m', b);
  }

  /** newBlock->next = nullptr. */
  lemma NullNextStep(c: Config, m: Memory, b: Ledger, r: Resource)
    requires Core(c, m, b) && m.prod.PNull?
    ensures ProducerSafe(c, m) && Core(c, StepProducer(c, m, r), TrackProducer(c, m, b, r))
  {
    var m' := StepProducer(c, m, r);
    ContentsLiveBlocks(c, m, b, m');
    ProducerLeavesConsumers(c, m, b, m', b);
    UsesFrame(c, m, b, m', b);
    ProducerOtherBlocks(c, m, b, m', b);
  }

  // ----- Hanging the new block behind the tail block

  /** The number of the block that the new block is hung behind. */
  function BehindNumber(c: Config, m: Memory): int
    requires c.blockSize > 0 && m.prod.PLink?
  {
    Base(c, m) + |m.prod.got| - 2
  }

  /** The guarded store goes to a live block of this producer: the block before the new one, be it the start block or
      an acquired one. */
  lemma LinkIsOwn(c: Config, m: Memory, b: Ledger)
    requires Inv(c, m, b) && m.prod.PLink? && LinksBehind(c, m)
    ensures BehindNumber(c, m) in b.entryOf && m.tailBlock == BlockOf(m.ix, b.entryOf, BehindNumber(c, m))
    ensures Points(m, m.tailBlock) && b.use[m.tailBlock.value] == Live(BehindNumber(c, m))
  {
    var got, n := m.prod.got, BehindNumber(c, m);
    if |got| == 1 {
      TailNumber(m.q.tail, c.blockSize);
    } else {
      assert BlockOf(m.ix, b.entryOf, Base(c, m) + (|got| - 2)) == Some(got[|got| - 2]);
    }
    FoundIsLive(m.ix, b.ix, b.entryOf, b.use, n);
  }

  /** The memory with another link, pointer and pc: all that hanging a block in changes. */
  lemma LinkCore(c: Config, m: Memory, b: Ledger, m': Memory)
    requires Core(c, m, b) && m.prod.PLink? && m'.prod == PCheck(m.prod.vals, m.prod.got)
    requires m' == m.(blocks := m'.blocks, tailBlock := m'.tailBlock, local := m'.local, prod := m'.prod)
    requires m'.local.start == m.local.start && |m'.blocks| == |m.blocks|
    requires forall k :: 0 <= k < |m.blocks| ==>
      m'.blocks[k].cells == m.blocks[k].cells && m'.blocks[k].emptied == m.blocks[k].emptied
    ensures Core(c, m', b)
  {
    ContentsLiveBlocks(c, m, b, m');
    ProducerLeavesConsumers(c, m, b, m', b);
    UsesFrame(c, m, b, m', b);
    ProducerOtherBlocks(c, m, b, m', b);
  }

  lemma LinkStep(c: Config, m: Memory, b: Ledger, r: Resource)
    requires Inv(c, m, b) && m.prod.PLink?
    ensures ProducerSafe(c, m) && Core(c, StepProducer(c, m, r), TrackProducer(c, m, b, r))
  {
    if LinksBehind(c, m) { LinkIsOwn(c, m, b); }
    LinkCore(c, m, b, StepProducer(c, m, r));
  }

  // ----- Publishing a block

  function Published(m: Memory): Memory
    requires m.prod.PPublish? && m.prod.e < |m.ix.entries|
  {
    var p := m.prod;
    m.(ix := SetEntry(m.ix, p.e, m.ix.entries[p.e].(value := Some(p.block))), prod := PLink(p.vals, p.got + [p.block], p.block))
  }

  function PublishedBook(m: Memory, b: Ledger): Ledger
    requires m.prod.PPublish? && m.prod.block < |b.use|
  {
    var n := b.ix.count - 1;
    b.(entryOf := b.entryOf[n := m.prod.e], use := b.use[m.prod.block := Live(n)])
  }

  lemma PublishFindsBlock(ix: Index, b: BlockIndex.Book, entryOf: map<int, nat>, use: seq<Use>, n: int, e: nat, k: nat)
    requires Shaped(ix) && |b.phase| == |ix.headers| && LinksOk(ix, b, entryOf, use)
    requires e < |ix.entries| && ix.entries[e].value.None? && n !in entryOf
    ensures var ix' := SetEntry(ix, e, ix.entries[e].(value := Some(k)));
      && BlockOf(ix', entryOf[n := e], n) == Some(k)
      && forall x :: x != n ==> BlockOf(ix', entryOf[n := e], x) == BlockOf(ix, entryOf, x)
  {
    var ix' := SetEntry(ix, e, ix.entries[e].(value := Some(k)));
    forall x | x != n ensures BlockOf(ix', entryOf[n := e], x) == BlockOf(ix, entryOf, x) {
      if x in entryOf { assert LinkOk(ix, b, entryOf, use, x); }
    }
  }

  /** Nothing of a block above the tail has been dequeued. */
  lemma NewBlockIsUndone(c: Config, m: Memory, b: Ledger, n: int)
    requires c.blockSize > 0 && n >= Base(c, m) && 0 <= m.q.head <= m.q.tail
    requires b.done <= b.taken && forall i :: i in b.taken ==> 0 <= i < m.q.head
    ensures DoneIn(b.done, n, c.blockSize) == 0
  {
    BaseNonnegative(m.q.tail, c.blockSize);
    MulLe(c.blockSize, Base(c, m), n);
    CountNone(b.done, n * c.blockSize, c.blockSize);
  }

  lemma PublishContents(c: Config, m: Memory, b: Ledger, m': Memory, b': Ledger, n: int, k: nat)
    requires c.blockSize > 0 && |b.items| == m.q.tail && ContentsOk(c, m, b) && 0 <= m.q.head <= m.q.tail
    requires m'.q == m.q && m'.blocks == m.blocks && n >= Base(c, m)
    requires b' == b.(entryOf := b'.entryOf, use := b'.use)
    requires forall x :: x in b'.entryOf <==> x in b.entryOf || x == n
    requires BlockOf(m'.ix, b'.entryOf, n) == Some(k) && k < |m.blocks| && m.blocks[k].emptied == 0
    requires forall x :: x != n ==> BlockOf(m'.ix, b'.entryOf, x) == BlockOf(m.ix, b.entryOf, x)
    ensures ContentsOk(c, m', b')
  {
    NewBlockIsUndone(c, m, b, n);
    forall x | x in b'.entryOf ensures CounterOk(c, m', b', x) { if x != n { assert CounterOk(c, m, b, x); } }
    forall i | 0 <= i < m.q.tail && i !in b.taken ensures CellOk(c, m', b', i) {
      assert CellOk(c, m, b, i);
      BaseFacts(i, m.q.tail, c.blockSize);
    }
  }

  lemma PublishUses(c: Config, m: Memory, b: Ledger)
    requires c.blockSize > 0 && UsesOk(c, m, b) && m.prod.PPublish? && m.prod.block < |b.use| && m.prod.e < |m.ix.entries|
    requires b.use[m.prod.block] == Private && DoneIn(b.done, b.ix.count - 1, c.blockSize) < c.blockSize
    ensures UsesOk(c, Published(m), PublishedBook(m, b))
  {
    var m', b' := Published(m), PublishedBook(m, b);
    forall k | 0 <= k < |b'.use| ensures UseOk(c, m', b', k) { assert UseOk(c, m, b, k); }
  }

  /** In the middle of a block the tail block is the last one published before. */
  lemma TailNumber(tail: int, blockSize: nat)
    requires blockSize > 0 && Off(tail, blockSize) != 0
    ensures Num(tail, blockSize) == FirstNew(tail, blockSize) - 1
  {
    NumStep(tail - 1, blockSize);
  }

  lemma PublishProducer(c: Config, m: Memory, b: Ledger)
    requires Sized(c, m, b) && ProducerOk(c, m, b) && m.prod.PPublish?
    requires m.prod.e < |m.ix.entries| && m.prod.block < |b.use| && Shaped(Published(m).ix)
    requires forall x :: x != b.ix.count - 1 ==>
      BlockOf(Published(m).ix, PublishedBook(m, b).entryOf, x) == BlockOf(m.ix, b.entryOf, x)
    requires BlockOf(Published(m).ix, PublishedBook(m, b).entryOf, b.ix.count - 1) == Some(m.prod.block)
    ensures ProducerOk(c, Published(m), PublishedBook(m, b))
  {
    var m', b' := Published(m), PublishedBook(m, b);
    if Off(m.q.tail, c.blockSize) != 0 { TailNumber(m.q.tail, c.blockSize); }
    EntryKeepsShape(m.ix, b.ix, m.prod.e, m'.ix.entries[m.prod.e], b.ix.high);
    forall k {:trigger EntryAt(m'.ix, b'.ix, k)} | Base(c, m) <= k <= b.ix.high
      ensures m'.ix.entries[EntryAt(m'.ix, b'.ix, k)].key == Some(k)
    { assert EntryAt(m'.ix, b'.ix, k) == EntryAt(m.ix, b.ix, k); }
    assert KeysFrom(m', b', Base(c, m));
  }

  /** Writing or nulling a value is all that happens to the index. */
  lemma ValueGrowsIndex(ix: Index, b: BlockIndex.Book, e: nat, value: Option<nat>)
    requires Shaped(ix) && |b.phase| == |ix.headers| && e < |ix.entries|
    ensures IndexGrows(ix, b, SetEntry(ix, e, ix.entries[e].(value := value)), b)
  {
    EntryKeepsShape(ix, b, e, ix.entries[e].(value := value), b.high);
  }

  lemma KeysFromHigher(m: Memory, b: Ledger, f: int, g: int)
    requires Shaped(m.ix) && |b.ix.phase| == |m.ix.headers| && KeysFrom(m, b, f) && f <= g
    ensures KeysUpTo(m.ix, b.ix, g)
  {
  }

  lemma PublishIndex(c: Config, m: Memory, b: Ledger)
    requires Sized(c, m, b) && Coherent(m.ix, b.ix) && LinksOk(m.ix, b.ix, b.entryOf, b.use)
    requires ProducerOk(c, m, b) && m.prod.PPublish? && m.prod.e < |m.ix.entries| && 0 <= Base(c, m)
    ensures m.prod.block < |b.use| && b.ix.count - 1 !in b.entryOf && m.ix.entries[m.prod.e].value.None?
    ensures Coherent(Published(m).ix, b.ix)
    ensures LinksOk(Published(m).ix, b.ix, PublishedBook(m, b).entryOf, PublishedBook(m, b).use)
  {
    KeysFromHigher(m, b, Base(c, m), b.ix.count - 1);
    ValueKeepsCoherent(m.ix, b.ix, m.prod.e, Some(m.prod.block));
    PublishKeepsLinks(m.ix, b.ix, b.entryOf, b.use, m.prod.block);
  }

  lemma PublishStep(c: Config, m: Memory, b: Ledger, r: Resource)
    requires Core(c, m, b) && m.prod.PPublish?
    ensures ProducerSafe(c, m) && Core(c, StepProducer(c, m, r), TrackProducer(c, m, b, r))
  {
    var p, n := m.prod, b.ix.count - 1;
    var m', b' := Published(m), PublishedBook(m, b);
    Claims.HeadNeverPassesTail(m.q, b.q);
    HeadNonnegative(m.q, b.q);
    BaseNonnegative(m.q.tail, c.blockSize);
    PublishIndex(c, m, b);
    PublishFindsBlock(m.ix, b.ix, b.entryOf, b.use, n, p.e, p.block);
    ValueGrowsIndex(m.ix, b.ix, p.e, Some(p.block));
    PublishContents(c, m, b, m', b', n, p.block);
    NewBlockIsUndone(c, m, b, n);
    PublishUses(c, m, b);
    PublishProducer(c, m, b);
    ProducerLeavesConsumers(c, m, b, m', b');
  }

  lemma HeadNonnegative(q: Claims.Counters, b: Claims.Book)
    requires Claims.Inv(q, b)
    ensures 0 <= q.head
  {
    if b.claims != [] { Claims.ClaimEndsBelowHead(q.head, b.claims, |b.claims| - 1); }
  }
}
