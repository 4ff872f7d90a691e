/** The steps by which a consumer counts the elements it moved out, and sends a block to the pool once all of it
    is counted. */
module ImplicitProducerRecycling {
  import opened Wrappers
  import opened Bits
  import opened BlockIndex
  import opened BlockNumbers
  import opened ImplicitProducer
  import opened ImplicitProducerInvariant
  import opened ImplicitProducerProof
  import opened ImplicitProducerSteps
  import opened ImplicitProducerBlocks
  import opened ImplicitProducerWrites
  import opened ImplicitProducerConsumers
  import opened ImplicitProducerTakes
  import Claims = OptimisticDequeue

  // ----- The next chunk

  /** When its chunk is finished, a consumer goes to the slot of the next block, or is done. */
  lemma NextConsumer(c: Config, m: Memory, b: Ledger, m1: Memory, b': Ledger, t: nat)
    requires Sized(c, m, b) && t < |m.cons| && ConsumerOk(c, m, b, t) && (m.cons[t].CCount? || m.cons[t].CFree?)
    requires m1 == m.(blocks := m1.blocks, free := m1.free)
    requires b' == b.(done := b'.done, use := b'.use)
    ensures var p := m.cons[t]; var m' := NextChunk(m1, t, p.cur, p.header, p.slot);
      Sized(c, m', b') && ConsumerOk(c, m', b', t)
  {
    var p := m.cons[t];
    var m' := NextChunk(m1, t, p.cur, p.header, p.slot);
    if p.cur != End(m, t) {
      NumStep(p.cur - 1, c.blockSize);
      NextSlot(b.ix.phase[p.header], Num(p.cur - 1, c.blockSize), |m.ix.headers[p.header].index|);
      ShowsFrame(c, m, b, m', b', p.header, p.cur, End(m, t));
    }
  }

  lemma NextClaims(m: Memory, b: Ledger, t: nat, cur: int, h: nat, slot: nat)
    requires t < |m.cons| == |m.q.pc| && m.q.pc[t].Holding? && h < |m.ix.headers| && Shaped(m.ix) && Claims.Inv(m.q, b.q)
    ensures var m' := NextChunk(m, t, cur, h, slot);
      && Claims.Inv(m'.q, b.q) && m'.q.tail == m.q.tail && m'.q.head == m.q.head && |m'.q.pc| == |m.q.pc|
      && (forall u :: 0 <= u < |m.q.pc| && u != t ==> m'.q.pc[u] == m.q.pc[u])
      && m' == m.(q := m'.q, cons := m.cons[t := m'.cons[t]]) && (m'.cons[t].CNone? || m'.cons[t].CLoad?)
  {
    if cur == End(m, t) { Claims.StepKeepsInv(m.q, b.q, t, Claims.Release); }
  }

  // ----- Counting a chunk

  function Counted(m: Memory, k: nat, n: int): Memory
    requires k < |m.blocks|
  {
    m.(blocks := m.blocks[k := m.blocks[k].(emptied := m.blocks[k].emptied + n)])
  }

  function CountedBook(b: Ledger, lo: int, cur: int): Ledger { b.(done := b.done + Range(lo, cur)) }

  /** Only the count of the chunk's own block changes. */
  lemma CountOther(done: set<int>, lo: int, cur: int, n: int, x: int, blockSize: nat)
    requires blockSize > 0 && lo < cur && Num(lo, blockSize) == n == Num(cur - 1, blockSize) && x != n
    ensures DoneIn(done + Range(lo, cur), x, blockSize) == DoneIn(done, x, blockSize)
  {
    forall i | x * blockSize <= i < x * blockSize + blockSize ensures i !in Range(lo, cur) {
      NumUnique(i, x, blockSize);
      if lo <= i < cur { NumMono(lo, i, blockSize); NumMono(i, cur - 1, blockSize); }
    }
    CountFrame(done + Range(lo, cur), done, x * blockSize, blockSize);
  }

  lemma CountOwn(done: set<int>, lo: int, cur: int, n: int, blockSize: nat)
    requires blockSize > 0 && lo < cur && Num(lo, blockSize) == n == Num(cur - 1, blockSize)
    requires forall i :: lo <= i < cur ==> i !in done
    ensures DoneIn(done + Range(lo, cur), n, blockSize) == DoneIn(done, n, blockSize) + (cur - lo)
  {
    NumFacts(lo, blockSize);
    NumFacts(cur - 1, blockSize);
    CountChunk(done, n * blockSize, blockSize, lo, cur);
  }

  lemma CountContents(c: Config, m: Memory, b: Ledger, m': Memory, lo: int, cur: int, n: int, k: nat)
    requires Sized(c, m, b) && |b.items| == m.q.tail && LinksOk(m.ix, b.ix, b.entryOf, b.use) && ContentsOk(c, m, b)
    requires lo < cur && Num(lo, c.blockSize) == n == Num(cur - 1, c.blockSize) && Moved(b, lo, cur)
    requires n in b.entryOf && BlockOf(m.ix, b.entryOf, n) == Some(k) && k < |m.blocks|
    requires m' == m.(q := m'.q, cons := m'.cons, blocks := Counted(m, k, cur - lo).blocks)
    requires m'.q.tail == m.q.tail && m'.q.head == m.q.head
    ensures ContentsOk(c, m', CountedBook(b, lo, cur))
  {
    var b' := CountedBook(b, lo, cur);
    forall x ensures x != n ==> DoneIn(b'.done, x, c.blockSize) == DoneIn(b.done, x, c.blockSize) {
      if x != n { CountOther(b.done, lo, cur, n, x, c.blockSize); }
    }
    CountOwn(b.done, lo, cur, n, c.blockSize);
    FoundIsLive(m.ix, b.ix, b.entryOf, b.use, n);
    forall x | x in b.entryOf ensures CounterOk(c, m', b', x) {
      assert CounterOk(c, m, b, x);
      FoundIsLive(m.ix, b.ix, b.entryOf, b.use, x);
    }
    forall i | 0 <= i < m.q.tail && i !in b.taken ensures CellOk(c, m', b', i) { assert CellOk(c, m, b, i); }
  }

  /** While t counts, the block is not full yet, so nobody is sending it to the pool. */
  lemma NobodyNulls(c: Config, m: Memory, b: Ledger, t: nat, u: nat)
    requires Sized(c, m, b) && LinksOk(m.ix, b.ix, b.entryOf, b.use)
    requires t < |m.cons| && ConsumerOk(c, m, b, t) && m.cons[t].CCount?
    requires u < |m.cons| && ConsumerOk(c, m, b, u) && m.cons[u].CNull?
    ensures m.cons[u].block != m.cons[t].block
  {
    FoundIsLive(m.ix, b.ix, b.entryOf, b.use, Num(m.cons[t].cur - 1, c.blockSize));
    FoundIsLive(m.ix, b.ix, b.entryOf, b.use, Num(m.cons[u].cur - 1, c.blockSize));
    NotAllDone(b.done, m.cons[t].lo, c.blockSize);
  }

  lemma CountUses(c: Config, m: Memory, b: Ledger, m': Memory, t: nat)
    requires Sized(c, m, b) && LinksOk(m.ix, b.ix, b.entryOf, b.use) && UsesOk(c, m, b) && ConsumersOk(c, m, b)
    requires t < |m.cons| && m.cons[t].CCount? && m.cons[t].lo < m.cons[t].cur
    requires var p, n := m.cons[t], Num(m.cons[t].cur - 1, c.blockSize);
      && |m'.cons| == |m.cons| && m' == m.(q := m'.q, blocks := m'.blocks, cons := m.cons[t := m'.cons[t]])
      && !m'.cons[t].CFree? && (m'.cons[t].CNull? ==> m'.cons[t].block == p.block)
      && (DoneIn(CountedBook(b, p.lo, p.cur).done, n, c.blockSize) == c.blockSize ==> m'.cons[t].CNull?)
    ensures UsesOk(c, m', CountedBook(b, m.cons[t].lo, m.cons[t].cur))
  {
    var p, n := m.cons[t], Num(m.cons[t].cur - 1, c.blockSize);
    var b' := CountedBook(b, p.lo, p.cur);
    assert ConsumerOk(c, m, b, t);
    forall k | 0 <= k < |b.use| ensures UseOk(c, m', b', k) {
      assert UseOk(c, m, b, k);
      if b.use[k].Live? && DoneIn(b'.done, b.use[k].number, c.blockSize) == c.blockSize {
        assert BlockOf(m.ix, b.entryOf, b.use[k].number) == Some(k);
        if b.use[k].number == n {
          assert m'.cons[t].CNull? && m'.cons[t].block == k;
        } else {
          CountOther(b.done, p.lo, p.cur, n, b.use[k].number, c.blockSize);
          var u :| 0 <= u < |m.cons| && m.cons[u].CNull? && m.cons[u].block == k;
          assert m'.cons[u].CNull? && m'.cons[u].block == k;
        }
      }
    }
    forall u | 0 <= u < |m.cons| && m.cons[u].CNull? ensures m.cons[u].block != p.block {
      assert ConsumerOk(c, m, b, u);
      NobodyNulls(c, m, b, t, u);
    }
  }

  lemma CountIsSafe(c: Config, m: Memory, b: Ledger, t: nat)
    requires ShapeOk(c, m, b) && LinksOk(m.ix, b.ix, b.entryOf, b.use) && ContentsOk(c, m, b)
    requires t < |m.cons| && ConsumerOk(c, m, b, t) && m.cons[t].CCount?
    ensures ConsumerSafe(c, m, t)
    ensures var p, n := m.cons[t], Num(m.cons[t].cur - 1, c.blockSize);
      && p.block < |b.use| && b.use[p.block] == Live(n)
      && m.blocks[p.block].emptied + (p.cur - p.lo) == DoneIn(CountedBook(b, p.lo, p.cur).done, n, c.blockSize)
  {
    var p, n := m.cons[t], Num(m.cons[t].cur - 1, c.blockSize);
    FoundIsLive(m.ix, b.ix, b.entryOf, b.use, n);
    assert CounterOk(c, m, b, n);
    CountOwn(b.done, p.lo, p.cur, n, c.blockSize);
  }

  /** After the count: on to the next chunk, or, if the block is all counted, to the null-out. */
  ghost predicate AfterCount(c: Config, m: Memory, b: Ledger, m': Memory, t: nat)
    requires t < |m.cons| && m.cons[t].CCount? && c.blockSize > 0
  {
    var p := m.cons[t];
    && p.block < |b.use| == |m.blocks| && b.use[p.block].Live?
    && |m'.cons| == |m.cons| && !m'.cons[t].CFree? && (m'.cons[t].CNull? ==> m'.cons[t].block == p.block)
    && m' == m.(q := m'.q, cons := m.cons[t := m'.cons[t]], blocks := Counted(m, p.block, p.cur - p.lo).blocks)
    && (DoneIn(CountedBook(b, p.lo, p.cur).done, Num(p.cur - 1, c.blockSize), c.blockSize) == c.blockSize ==> m'.cons[t].CNull?)
    && Claims.Inv(m'.q, b.q) && m'.q.tail == m.q.tail && m'.q.head == m.q.head && |m'.q.pc| == |m.q.pc|
    && (forall u :: 0 <= u < |m.q.pc| && u != t ==> m'.q.pc[u] == m.q.pc[u])
  }

  lemma CountProducer(c: Config, m: Memory, b: Ledger, m': Memory, t: nat)
    requires Sized(c, m, b) && ProducerOk(c, m, b)
    requires t < |m.cons| && ConsumerOk(c, m, b, t) && m.cons[t].CCount? && AfterCount(c, m, b, m', t)
    ensures OwnStep(c, m, b, m', CountedBook(b, m.cons[t].lo, m.cons[t].cur), t)
    ensures ProducerOk(c, m', CountedBook(b, m.cons[t].lo, m.cons[t].cur))
  {
    var b' := CountedBook(b, m.cons[t].lo, m.cons[t].cur);
    if m.prod.PWrite? || m.prod.PStore? {
      forall j | 0 <= j < |m.prod.vals| && Written(c, m, j) ensures Written(c, m', j) {
        assert Target(c, m', m.prod.got, j) == Target(c, m, m.prod.got, j);
      }
    }
    ProducerUnaware(c, m, b, m', b', t);
  }

  lemma CountRest(c: Config, m: Memory, b: Ledger, m': Memory, t: nat)
    requires Sized(c, m, b) && |b.items| == m.q.tail && LinksOk(m.ix, b.ix, b.entryOf, b.use) && Claims.Inv(m.q, b.q)
    requires ContentsOk(c, m, b) && UsesOk(c, m, b) && ConsumersOk(c, m, b)
    requires t < |m.cons| && ConsumerOk(c, m, b, t) && m.cons[t].CCount? && AfterCount(c, m, b, m', t)
    requires OwnStep(c, m, b, m', CountedBook(b, m.cons[t].lo, m.cons[t].cur), t)
    requires Sized(c, m', b) && ConsumerOk(c, m', CountedBook(b, m.cons[t].lo, m.cons[t].cur), t)
    ensures var b' := CountedBook(b, m.cons[t].lo, m.cons[t].cur);
      ContentsOk(c, m', b') && UsesOk(c, m', b') && ConsumersOk(c, m', b')
  {
    var p := m.cons[t];
    CountContents(c, m, b, m', p.lo, p.cur, Num(p.cur - 1, c.blockSize), p.block);
    CountUses(c, m, b, m', t);
    OtherConsumers(c, m, b, m', CountedBook(b, p.lo, p.cur), t);
  }

  lemma CountFinish(c: Config, m: Memory, b: Ledger, m': Memory, t: nat)
    requires Core(c, m, b) && t < |m.cons| && m.cons[t].CCount? && AfterCount(c, m, b, m', t)
    requires Sized(c, m', b) && ConsumerOk(c, m', CountedBook(b, m.cons[t].lo, m.cons[t].cur), t)
    ensures Core(c, m', CountedBook(b, m.cons[t].lo, m.cons[t].cur))
  {
    assert ConsumerOk(c, m, b, t);
    CountProducer(c, m, b, m', t);
    CountRest(c, m, b, m', t);
  }

  lemma NullNext(c: Config, m: Memory, b: Ledger, m': Memory, t: nat)
    requires Sized(c, m, b) && t < |m.cons| && ConsumerOk(c, m, b, t) && m.cons[t].CCount?
    requires var p := m.cons[t];
      && m' == m.(blocks := m'.blocks, cons := m.cons[t := CNull(p.cur, p.header, p.slot, p.e, p.block)])
      && DoneIn(CountedBook(b, p.lo, p.cur).done, Num(p.cur - 1, c.blockSize), c.blockSize) == c.blockSize
    ensures ConsumerOk(c, m', CountedBook(b, m.cons[t].lo, m.cons[t].cur), t)
  {
    var p := m.cons[t];
    ShowsFrame(c, m, b, m', CountedBook(b, p.lo, p.cur), p.header, p.cur, End(m, t));
  }

  function Nulling(m: Memory, t: nat): Memory
    requires t < |m.cons| && m.cons[t].CCount? && m.cons[t].block < |m.blocks|
  {
    var p := m.cons[t];
    SetCons(Counted(m, p.block, p.cur - p.lo), t, CNull(p.cur, p.header, p.slot, p.e, p.block))
  }

  lemma CountFills(c: Config, m: Memory, b: Ledger, t: nat)
    requires Core(c, m, b) && t < |m.cons| && m.cons[t].CCount? && ConsumerSafe(c, m, t)
    requires m.blocks[m.cons[t].block].emptied + (m.cons[t].cur - m.cons[t].lo) == c.blockSize
    ensures Core(c, Nulling(m, t), CountedBook(b, m.cons[t].lo, m.cons[t].cur))
  {
    assert ConsumerOk(c, m, b, t);
    CountIsSafe(c, m, b, t);
    NullNext(c, m, b, Nulling(m, t), t);
    CountFinish(c, m, b, Nulling(m, t), t);
  }

  lemma CountLeaves(c: Config, m: Memory, b: Ledger, t: nat)
    requires Core(c, m, b) && t < |m.cons| && m.cons[t].CCount? && ConsumerSafe(c, m, t)
    requires m.blocks[m.cons[t].block].emptied + (m.cons[t].cur - m.cons[t].lo) != c.blockSize
    ensures var p := m.cons[t];
      Core(c, NextChunk(Counted(m, p.block, p.cur - p.lo), t, p.cur, p.header, p.slot), CountedBook(b, p.lo, p.cur))
  {
    assert ConsumerOk(c, m, b, t);
    CountIsSafe(c, m, b, t);
    var p := m.cons[t];
    var m1, b' := Counted(m, p.block, p.cur - p.lo), CountedBook(b, p.lo, p.cur);
    NextConsumer(c, m, b, m1, b', t);
    NextClaims(m1, b', t, p.cur, p.header, p.slot);
    CountFinish(c, m, b, NextChunk(m1, t, p.cur, p.header, p.slot), t);
  }

  lemma CountIs(c: Config, m: Memory, b: Ledger, t: nat)
    requires ConsumerSafe(c, m, t) && m.cons[t].CCount? && |b.q.mine| == |b.q.claimOf| == |m.q.pc|
    ensures TrackConsumer(c, m, b, t) == CountedBook(b, m.cons[t].lo, m.cons[t].cur)
    ensures var p := m.cons[t];
      StepConsumer(c, m, t) ==
        if m.blocks[p.block].emptied + (p.cur - p.lo) == c.blockSize then Nulling(m, t)
        else NextChunk(Counted(m, p.block, p.cur - p.lo), t, p.cur, p.header, p.slot)
  {
  }

  lemma CountStep(c: Config, m: Memory, b: Ledger, t: nat)
    requires Core(c, m, b) && t < |m.cons| && m.cons[t].CCount?
    ensures ConsumerSafe(c, m, t) && Core(c, StepConsumer(c, m, t), TrackConsumer(c, m, b, t))
  {
    assert ConsumerOk(c, m, b, t);
    CountIsSafe(c, m, b, t);
    CountIs(c, m, b, t);
    if m.blocks[m.cons[t].block].emptied + (m.cons[t].cur - m.cons[t].lo) == c.blockSize {
      CountFills(c, m, b, t);
    } else {
      CountLeaves(c, m, b, t);
    }
  }

  // ----- Nulling out the entry of a block that is all counted

  function Nulled(m: Memory, t: nat): Memory
    requires t < |m.cons| && m.cons[t].CNull? && m.cons[t].e < |m.ix.entries|
  {
    var p := m.cons[t];
    m.(ix := SetEntry(m.ix, p.e, m.ix.entries[p.e].(value := None)),
       cons := m.cons[t := CFree(p.cur, p.header, p.slot, p.block)])
  }

  function NulledBook(b: Ledger, n: int, k: nat, t: nat): Ledger
    requires k < |b.use|
  {
    b.(entryOf := b.entryOf - {n}, use := b.use[k := Draining(t)])
  }

  /** The block being nulled out is full and counted; the producer is past it, and is not writing to it. */
  lemma NulledNumber(c: Config, m: Memory, b: Ledger, t: nat)
    requires ShapeOk(c, m, b) && LinksOk(m.ix, b.ix, b.entryOf, b.use) && ContentsOk(c, m, b)
    requires t < |m.cons| && ConsumerOk(c, m, b, t) && m.cons[t].CNull?
    ensures ConsumerSafe(c, m, t)
    ensures var n := Num(m.cons[t].cur - 1, c.blockSize);
      && n < Base(c, m) && (Off(m.q.tail, c.blockSize) != 0 ==> n != Num(m.q.tail, c.blockSize))
      && m.cons[t].block < |b.use| && b.use[m.cons[t].block] == Live(n) && m.ix.entries[m.cons[t].e].value.Some?
  {
    var n := Num(m.cons[t].cur - 1, c.blockSize);
    FoundIsLive(m.ix, b.ix, b.entryOf, b.use, n);
    assert LinkOk(m.ix, b.ix, b.entryOf, b.use, n);
    BaseFacts(m.cons[t].cur - 1, m.q.tail, c.blockSize);
    if Off(m.q.tail, c.blockSize) != 0 && n == Num(m.q.tail, c.blockSize) {
      Claims.HeadNeverPassesTail(m.q, b.q);
      assert m.q.tail !in b.done;
      NotAllDone(b.done, m.q.tail, c.blockSize);
    }
  }

  lemma NullIndex(c: Config, m: Memory, b: Ledger, t: nat, n: int)
    requires Sized(c, m, b) && Coherent(m.ix, b.ix) && LinksOk(m.ix, b.ix, b.entryOf, b.use)
    requires t < |m.cons| && m.cons[t].CNull? && m.cons[t].block < |b.use| && m.cons[t].e < |m.ix.entries|
    requires InHand(m, b, m.cons[t].header, m.cons[t].slot, m.cons[t].e, m.cons[t].block, n)
    ensures var m', b' := Nulled(m, t), NulledBook(b, n, m.cons[t].block, t);
      && Coherent(m'.ix, b.ix) && LinksOk(m'.ix, b.ix, b'.entryOf, b'.use) && IndexGrows(m.ix, b.ix, m'.ix, b.ix)
      && forall x :: x != n ==> BlockOf(m'.ix, b'.entryOf, x) == BlockOf(m.ix, b.entryOf, x)
  {
    ClearKeepsLinks(m.ix, b.ix, b.entryOf, b.use, n, m.cons[t].block, Draining(t));
    ValueKeepsCoherent(m.ix, b.ix, m.cons[t].e, None);
    ValueGrowsIndex(m.ix, b.ix, m.cons[t].e, None);
  }

  lemma NullContents(c: Config, m: Memory, b: Ledger, m': Memory, b': Ledger, n: int)
    requires c.blockSize > 0 && |b.items| == m.q.tail && ContentsOk(c, m, b)
    requires DoneIn(b.done, n, c.blockSize) == c.blockSize
    requires m'.q == m.q && m'.blocks == m.blocks && b' == b.(entryOf := b.entryOf - {n}, use := b'.use)
    requires forall x :: x != n ==> BlockOf(m'.ix, b'.entryOf, x) == BlockOf(m.ix, b.entryOf, x)
    ensures ContentsOk(c, m', b')
  {
    forall x | x in b'.entryOf ensures CounterOk(c, m', b', x) { assert CounterOk(c, m, b, x); }
    forall i | 0 <= i < m.q.tail && i !in b.taken ensures CellOk(c, m', b', i) {
      assert CellOk(c, m, b, i);
      NotAllDone(b.done, i, c.blockSize);
    }
  }

  lemma NullPhase(c: Config, m: Memory, b: Ledger, t: nat, n: int)
    requires Sized(c, m, b) && |b.use| == |m.blocks| && PhaseOk(c, m, b)
    requires t < |m.cons| && m.cons[t].CNull? && m.cons[t].block < |b.use| && m.cons[t].e < |m.ix.entries|
    requires m.ix.entries[m.cons[t].e].value.Some? && b.use[m.cons[t].block].Live? && Shaped(Nulled(m, t).ix)
    ensures PhaseOk(c, Nulled(m, t), NulledBook(b, n, m.cons[t].block, t))
  {
    var m', b' := Nulled(m, t), NulledBook(b, n, m.cons[t].block, t);
    EntryKeepsShape(m.ix, b.ix, m.cons[t].e, m'.ix.entries[m.cons[t].e], b.ix.high);
    assert EntryAt(m'.ix, b'.ix, b.ix.count) == EntryAt(m.ix, b.ix, b.ix.count);
    assert EntryAt(m'.ix, b'.ix, b.ix.count - 1) == EntryAt(m.ix, b.ix, b.ix.count - 1);
    if m.prod.PWrite? || m.prod.PStore? {
      forall j | 0 <= j < |m.prod.vals| && Written(c, m, j) ensures Written(c, m', j) { }
    }
  }

  lemma NullProducer(c: Config, m: Memory, b: Ledger, t: nat, n: int)
    requires Sized(c, m, b) && |b.use| == |m.blocks| && ProducerOk(c, m, b)
    requires t < |m.cons| && m.cons[t].CNull? && m.cons[t].block < |b.use| && m.cons[t].e < |m.ix.entries|
    requires m.ix.entries[m.cons[t].e].value.Some? && b.use[m.cons[t].block].Live? && Shaped(Nulled(m, t).ix)
    requires n < Base(c, m) && (Off(m.q.tail, c.blockSize) != 0 ==> n != Num(m.q.tail, c.blockSize))
    requires forall x :: x != n ==>
      BlockOf(Nulled(m, t).ix, NulledBook(b, n, m.cons[t].block, t).entryOf, x) == BlockOf(m.ix, b.entryOf, x)
    ensures ProducerOk(c, Nulled(m, t), NulledBook(b, n, m.cons[t].block, t))
  {
    NullPhase(c, m, b, t, n);
    NullHaul(c, m, b, t, n);
  }

  lemma NullKeys(c: Config, m: Memory, b: Ledger, t: nat, n: int)
    requires Sized(c, m, b) && KeysFrom(m, b, Base(c, m))
    requires t < |m.cons| && m.cons[t].CNull? && m.cons[t].block < |b.use| && m.cons[t].e < |m.ix.entries|
    requires Shaped(Nulled(m, t).ix)
    ensures KeysFrom(Nulled(m, t), NulledBook(b, n, m.cons[t].block, t), Base(c, m))
  {
    var m', b' := Nulled(m, t), NulledBook(b, n, m.cons[t].block, t);
    EntryKeepsShape(m.ix, b.ix, m.cons[t].e, m'.ix.entries[m.cons[t].e], b.ix.high);
    forall k {:trigger EntryAt(m'.ix, b'.ix, k)} | Base(c, m) <= k <= b.ix.high
      ensures m'.ix.entries[EntryAt(m'.ix, b'.ix, k)].key == Some(k)
    { assert EntryAt(m'.ix, b'.ix, k) == EntryAt(m.ix, b.ix, k); }
  }

  lemma NullHaul(c: Config, m: Memory, b: Ledger, t: nat, n: int)
    requires Sized(c, m, b) && HaulOk(c, m, b)
    requires t < |m.cons| && m.cons[t].CNull? && m.cons[t].block < |b.use| && m.cons[t].e < |m.ix.entries|
    requires Shaped(Nulled(m, t).ix)
    requires n < Base(c, m) && (Off(m.q.tail, c.blockSize) != 0 ==> n != Num(m.q.tail, c.blockSize))
    requires forall x :: x != n ==>
      BlockOf(Nulled(m, t).ix, NulledBook(b, n, m.cons[t].block, t).entryOf, x) == BlockOf(m.ix, b.entryOf, x)
    ensures HaulOk(c, Nulled(m, t), NulledBook(b, n, m.cons[t].block, t))
  {
    NullKeys(c, m, b, t, n);
  }

  lemma NullUses(c: Config, m: Memory, b: Ledger, t: nat, n: int)
    requires Sized(c, m, b) && UsesOk(c, m, b)
    requires t < |m.cons| && m.cons[t].CNull? && m.cons[t].block < |b.use| && m.cons[t].e < |m.ix.entries|
    requires b.use[m.cons[t].block].Live?
    ensures UsesOk(c, Nulled(m, t), NulledBook(b, n, m.cons[t].block, t))
  {
    var m', b' := Nulled(m, t), NulledBook(b, n, m.cons[t].block, t);
    forall k | 0 <= k < |b'.use| ensures UseOk(c, m', b', k) {
      assert UseOk(c, m, b, k);
      if k != m.cons[t].block && b.use[k].Live? && DoneIn(b.done, b.use[k].number, c.blockSize) == c.blockSize {
        var u :| 0 <= u < |m.cons| && m.cons[u].CNull? && m.cons[u].block == k;
        assert m'.cons[u].CNull? && m'.cons[u].block == k;
      }
    }
  }

  /** The number that goes is pinned by nobody else. */
  lemma NullFrees(c: Config, m: Memory, b: Ledger, t: nat, u: nat, n: int)
    requires Sized(c, m, b) && UsesOk(c, m, b) && t < |m.cons| && u < |m.cons| && u != t
    requires m.cons[t].CNull? && m.q.pc[t].Holding? && ConsumerOk(c, m, b, t)
    requires m.q.pc[u].Holding? && ConsumerOk(c, m, b, u) && Pinned(c, m, b, u, n)
    ensures n != Num(m.cons[t].cur - 1, c.blockSize)
  {
    if !(m.cons[u].CNull? && n == Num(m.cons[u].cur - 1, c.blockSize)) {
      var i :| m.q.pc[u].first <= i < End(m, u) && i !in b.done && n == Num(i, c.blockSize);
      NotAllDone(b.done, i, c.blockSize);
    }
  }

  lemma NullConsumer(c: Config, m: Memory, b: Ledger, t: nat, n: int)
    requires Sized(c, m, b) && t < |m.cons| && ConsumerOk(c, m, b, t) && m.cons[t].CNull? && b.done <= b.taken
    requires m.cons[t].block < |b.use| && m.cons[t].e < |m.ix.entries| && n == Num(m.cons[t].cur - 1, c.blockSize)
    requires IndexGrows(m.ix, b.ix, Nulled(m, t).ix, b.ix)
    requires forall x :: x != n ==>
      BlockOf(Nulled(m, t).ix, NulledBook(b, n, m.cons[t].block, t).entryOf, x) == BlockOf(m.ix, b.entryOf, x)
    ensures var m', b' := Nulled(m, t), NulledBook(b, n, m.cons[t].block, t);
      Sized(c, m', b') && ConsumerOk(c, m', b', t)
  {
    var m', b' := Nulled(m, t), NulledBook(b, n, m.cons[t].block, t);
    var p := m.cons[t];
    forall i | p.cur <= i < End(m, t) ensures KeepsNumber(m, b, m', b', Num(i, c.blockSize)) {
      assert i !in b.done;
      NotAllDone(b.done, i, c.blockSize);
    }
    ShowsFrame(c, m, b, m', b', p.header, p.cur, End(m, t));
  }

  lemma NullOthers(c: Config, m: Memory, b: Ledger, t: nat, n: int)
    requires Sized(c, m, b) && UsesOk(c, m, b) && ConsumersOk(c, m, b) && Claims.Inv(m.q, b.q) && b.done <= b.taken
    requires t < |m.cons| && m.cons[t].CNull? && n == Num(m.cons[t].cur - 1, c.blockSize)
    requires |b.use| == |m.blocks| && m.cons[t].block < |b.use| && m.cons[t].e < |m.ix.entries| && b.use[m.cons[t].block].Live?
    requires IndexGrows(m.ix, b.ix, Nulled(m, t).ix, b.ix)
    requires forall x :: x != n ==>
      BlockOf(Nulled(m, t).ix, NulledBook(b, n, m.cons[t].block, t).entryOf, x) == BlockOf(m.ix, b.entryOf, x)
    ensures Sized(c, Nulled(m, t), NulledBook(b, n, m.cons[t].block, t))
    ensures ConsumersOk(c, Nulled(m, t), NulledBook(b, n, m.cons[t].block, t))
  {
    var m', b' := Nulled(m, t), NulledBook(b, n, m.cons[t].block, t);
    assert ConsumerOk(c, m, b, t);
    NullConsumer(c, m, b, t, n);
    forall u, x {:trigger Pinned(c, m, b, u, x)} | 0 <= u < |m.cons| && u != t && m.q.pc[u].Holding? && Pinned(c, m, b, u, x)
      ensures KeepsNumber(m, b, m', b', x)
    {
      assert ConsumerOk(c, m, b, u);
      NullFrees(c, m, b, t, u, x);
    }
    assert OwnStep(c, m, b, m', b', t);
    OtherConsumers(c, m, b, m', b', t);
  }

  lemma NullKeepsInv(c: Config, m: Memory, b: Ledger, t: nat)
    requires Core(c, m, b) && t < |m.cons| && m.cons[t].CNull?
    requires m.cons[t].block < |b.use| && m.cons[t].e < |m.ix.entries|
    ensures Core(c, Nulled(m, t), NulledBook(b, Num(m.cons[t].cur - 1, c.blockSize), m.cons[t].block, t))
  {
    assert ConsumerOk(c, m, b, t);
    var n := Num(m.cons[t].cur - 1, c.blockSize);
    NulledNumber(c, m, b, t);
    var m', b' := Nulled(m, t), NulledBook(b, n, m.cons[t].block, t);
    NullIndex(c, m, b, t, n);
    NullContents(c, m, b, m', b', n);
    NullProducer(c, m, b, t, n);
    NullUses(c, m, b, t, n);
    NullOthers(c, m, b, t, n);
  }

  lemma NullStep(c: Config, m: Memory, b: Ledger, t: nat)
    requires Core(c, m, b) && t < |m.cons| && m.cons[t].CNull?
    ensures ConsumerSafe(c, m, t) && Core(c, StepConsumer(c, m, t), TrackConsumer(c, m, b, t))
  {
    assert ConsumerOk(c, m, b, t);
    NulledNumber(c, m, b, t);
    NullKeepsInv(c, m, b, t);
    assert StepConsumer(c, m, t) == Nulled(m, t);
  }

  // ----- Giving the block to the pool

  lemma GivenBack(c: Config, m: Memory, b: Ledger, t: nat, k: nat, m1: Memory, b': Ledger)
    requires Core(c, m, b) && t < |m.cons| && m.cons[t].CFree? && k == m.cons[t].block && k < |b.use| && b.use[k] == Draining(t)
    requires |m1.cons| == |m.cons| && !m1.cons[t].CFree? && !m1.cons[t].CNull?
    requires m1 == m.(free := m.free + {k}, q := m1.q, cons := m.cons[t := m1.cons[t]]) && b' == b.(use := b.use[k := Free])
    requires Claims.Inv(m1.q, b.q) && m1.q.tail == m.q.tail && m1.q.head == m.q.head && |m1.q.pc| == |m.q.pc|
    requires forall u :: 0 <= u < |m.q.pc| && u != t ==> m1.q.pc[u] == m.q.pc[u]
    requires Sized(c, m1, b') && ConsumerOk(c, m1, b', t)
    ensures Core(c, m1, b')
  {
    LinksSameUses(m.ix, b.ix, b.entryOf, b.use, b'.use);
    GivenBackOwn(c, m, b, t, k, m1, b');
    GivenBackRest(c, m, b, t, k, m1, b');
  }

  lemma GivenBackOwn(c: Config, m: Memory, b: Ledger, t: nat, k: nat, m1: Memory, b': Ledger)
    requires Sized(c, m, b) && Sized(c, m1, b') && t < |m.cons| == |m1.cons| && k < |b.use| && b.use[k] == Draining(t)
    requires m1 == m.(free := m.free + {k}, q := m1.q, cons := m.cons[t := m1.cons[t]]) && b' == b.(use := b.use[k := Free])
    requires m1.q.tail == m.q.tail && |m1.q.pc| == |m.q.pc|
    requires forall u :: 0 <= u < |m.q.pc| && u != t ==> m1.q.pc[u] == m.q.pc[u]
    ensures OwnStep(c, m, b, m1, b', t)
  {
  }

  lemma GivenBackRest(c: Config, m: Memory, b: Ledger, t: nat, k: nat, m1: Memory, b': Ledger)
    requires Sized(c, m, b) && |b.items| == m.q.tail && Claims.Inv(m.q, b.q)
    requires ContentsOk(c, m, b) && ProducerOk(c, m, b) && UsesOk(c, m, b) && ConsumersOk(c, m, b)
    requires t < |m.cons| == |m1.cons| && m.cons[t].CFree? && k == m.cons[t].block && k < |b.use| && b.use[k] == Draining(t)
    requires !m1.cons[t].CFree? && !m1.cons[t].CNull? && OwnStep(c, m, b, m1, b', t)
    requires m1 == m.(free := m.free + {k}, q := m1.q, cons := m.cons[t := m1.cons[t]]) && b' == b.(use := b.use[k := Free])
    requires m1.q.tail == m.q.tail && m1.q.head == m.q.head && ConsumerOk(c, m1, b', t)
    ensures ContentsOk(c, m1, b') && ProducerOk(c, m1, b') && UsesOk(c, m1, b') && ConsumersOk(c, m1, b')
  {
    ContentsFrame(c, m, b, m1, b');
    OtherConsumers(c, m, b, m1, b', t);
    ProducerUnaware(c, m, b, m1, b', t);
    GivenBackUses(c, m, b, m1, b', t, k);
  }

  lemma GivenBackUses(c: Config, m: Memory, b: Ledger, m1: Memory, b': Ledger, t: nat, k: nat)
    requires Sized(c, m, b) && UsesOk(c, m, b) && t < |m.cons| && m.cons[t].CFree? && k == m.cons[t].block && k < |b.use|
    requires b.use[k] == Draining(t)
    requires |m1.cons| == |m.cons| && !m1.cons[t].CFree? && !m1.cons[t].CNull?
    requires m1 == m.(free := m.free + {k}, q := m1.q, cons := m.cons[t := m1.cons[t]]) && b' == b.(use := b.use[k := Free])
    ensures UsesOk(c, m1, b')
  {
    forall x | 0 <= x < |b'.use| ensures UseOk(c, m1, b', x) {
      assert UseOk(c, m, b, x);
      if x != k && b.use[x].Live? && DoneIn(b.done, b.use[x].number, c.blockSize) == c.blockSize {
        var u :| 0 <= u < |m.cons| && m.cons[u].CNull? && m.cons[u].block == x;
        assert m1.cons[u].CNull? && m1.cons[u].block == x;
      }
    }
  }

  lemma GiveStep(c: Config, m: Memory, b: Ledger, t: nat)
    requires Core(c, m, b) && t < |m.cons| && m.cons[t].CFree?
    ensures ConsumerSafe(c, m, t) && Core(c, StepConsumer(c, m, t), TrackConsumer(c, m, b, t))
  {
    assert ConsumerOk(c, m, b, t);
    var p := m.cons[t];
    var m1, b' := m.(free := m.free + {p.block}), b.(use := b.use[p.block := Free]);
    NextConsumer(c, m, b, m1, b', t);
    NextClaims(m1, b', t, p.cur, p.header, p.slot);
    GivenBack(c, m, b, t, p.block, NextChunk(m1, t, p.cur, p.header, p.slot), b');
  }
}
