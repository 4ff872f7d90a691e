/** The steps of the consumers of an implicit producer keep the invariant, one access at a time. */
module ImplicitProducerConsumers {
  import opened Wrappers
  import opened Bits
  import opened BlockIndex
  import opened BlockNumbers
  import opened ImplicitProducer
  import opened ImplicitProducerInvariant
  import opened ImplicitProducerProof
  import opened ImplicitProducerSteps
  import opened ImplicitProducerBlocks
  import opened ImplicitProducerWrites
  import Claims = OptimisticDequeue

  // ----- What the other parts notice of a consumer's step

  predicate Held(m: Memory, t: nat, i: int)
    requires t < |m.q.pc|
  {
    m.q.pc[t].Holding? && m.q.pc[t].first <= i < End(m, t)
  }

  /** The step of consumer t touches only its own holdings. */
  ghost predicate OwnStep(c: Config, m: Memory, b: Ledger, m': Memory, b': Ledger, t: nat)
    requires Sized(c, m, b) && t < |m.cons|
  {
    && Sized(c, m', b') && |m'.cons| == |m.cons| && m'.q.tail == m.q.tail && m'.prod == m.prod && m'.tailBlock == m.tailBlock
    && m'.local == m.local && m'.abroad == m.abroad
    && |m'.blocks| == |m.blocks| && |b'.use| == |b.use| && b'.items == b.items && b'.ix == b.ix
    && (forall u :: 0 <= u < |m.cons| && u != t ==>
          m'.cons[u] == m.cons[u] && m'.out[u] == m.out[u] && m'.q.pc[u] == m.q.pc[u])
    && b.taken <= b'.taken && b.done <= b'.done
    && (forall i :: i in b'.taken && i !in b.taken ==> Held(m, t, i))
    && (forall i :: i in b'.done && i !in b.done ==> Held(m, t, i))
    && IndexGrows(m.ix, b.ix, m'.ix, b'.ix)
    && (forall k :: 0 <= k < |b.use| && (b.use[k].Private? || b.use[k].Undone? || b.use[k].Abroad?) ==> b'.use[k] == b.use[k])
    && (forall k :: 0 <= k < |b.use| && b.use[k].Draining? && b.use[k].t != t ==> b'.use[k] == b.use[k])
  }

  lemma StillAllDone(done: set<int>, more: set<int>, n: int, blockSize: nat)
    requires done <= more && DoneIn(done, n, blockSize) == blockSize
    ensures DoneIn(more, n, blockSize) == blockSize
  {
    CountAll(done, n * blockSize, blockSize);
    CountAll(more, n * blockSize, blockSize);
  }

  lemma OtherConsumer(c: Config, m: Memory, b: Ledger, m': Memory, b': Ledger, t: nat, u: nat)
    requires Sized(c, m, b) && t < |m.cons| && u < |m.cons| && u != t && OwnStep(c, m, b, m', b', t)
    requires Claims.Inv(m.q, b.q) && ConsumerOk(c, m, b, u) && b.done <= b.taken
    requires m.q.pc[u].Holding? ==> forall n :: Pinned(c, m, b, u, n) ==> KeepsNumber(m, b, m', b', n)
    ensures ConsumerOk(c, m', b', u)
  {
    if !m.cons[u].CNone? {
      forall i | Held(m, u, i) ensures !Held(m, t, i) {
        if m.q.pc[t].Holding? { Claims.HoldingsDisjoint(m.q, b.q, t, u); }
      }
      if m.cons[u].CNull? { StillAllDone(b.done, b'.done, Num(m.cons[u].cur - 1, c.blockSize), c.blockSize); }
      assert forall i :: m.q.pc[u].first <= i < End(m, u) ==> Held(m, u, i);
    }
    assert LeavesAlone(c, m, b, m', b', u);
    ConsumerFrame(c, m, b, m', b', u);
  }

  lemma OtherConsumers(c: Config, m: Memory, b: Ledger, m': Memory, b': Ledger, t: nat)
    requires Sized(c, m, b) && t < |m.cons| && OwnStep(c, m, b, m', b', t)
    requires Claims.Inv(m.q, b.q) && ConsumersOk(c, m, b) && b.done <= b.taken && ConsumerOk(c, m', b', t)
    requires forall u, n {:trigger Pinned(c, m, b, u, n)} :: 0 <= u < |m.cons| && u != t && m.q.pc[u].Holding? && Pinned(c, m, b, u, n) ==>
      KeepsNumber(m, b, m', b', n)
    ensures ConsumersOk(c, m', b')
  {
    forall u | 0 <= u < |m'.cons| ensures ConsumerOk(c, m', b', u) {
      if u != t {
        assert ConsumerOk(c, m, b, u);
        OtherConsumer(c, m, b, m', b', t, u);
      }
    }
  }

  /** The producer's part of the invariant, after a step that leaves the index alone. */
  lemma ProducerUnaware(c: Config, m: Memory, b: Ledger, m': Memory, b': Ledger, t: nat)
    requires Sized(c, m, b) && t < |m.cons| && ProducerOk(c, m, b) && OwnStep(c, m, b, m', b', t)
    requires m'.ix == m.ix && b'.entryOf == b.entryOf
    requires forall k :: 0 <= k < |b.use| && k < |m.blocks| && b.use[k].Private? ==> m'.blocks[k].emptied == m.blocks[k].emptied
    requires m.prod.PWrite? || m.prod.PStore? ==> forall j :: 0 <= j < |m.prod.vals| && Written(c, m, j) ==> Written(c, m', j)
    ensures ProducerOk(c, m', b')
  {
    assert PhaseOk(c, m', b');
  }

  lemma UsesSame(c: Config, m: Memory, b: Ledger, m': Memory, b': Ledger, t: nat)
    requires Sized(c, m, b) && t < |m.cons| && UsesOk(c, m, b) && OwnStep(c, m, b, m', b', t)
    requires !m.cons[t].CNull? && !m.cons[t].CFree? && !m'.cons[t].CNull?
    requires m'.free == m.free && b'.use == b.use && b'.done == b.done
    ensures UsesOk(c, m', b')
  {
    forall k | 0 <= k < |b'.use| ensures UseOk(c, m', b', k) {
      assert UseOk(c, m, b, k);
      if b.use[k].Live? && DoneIn(b.done, b.use[k].number, c.blockSize) == c.blockSize {
        var u :| 0 <= u < |m.cons| && m.cons[u].CNull? && m.cons[u].block == k;
        assert m'.cons[u].CNull? && m'.cons[u].block == k;
      }
    }
  }

  // ----- Steps that only move the consumer's program counter

  lemma ConsOnly(c: Config, m: Memory, b: Ledger, t: nat, p: Consuming)
    requires Core(c, m, b) && t < |m.cons|
    requires !m.cons[t].CNull? && !m.cons[t].CFree? && !p.CNull? && !p.CFree? && !p.CNone?
    requires ConsumerOk(c, SetCons(m, t, p), b, t)
    ensures Core(c, SetCons(m, t, p), b)
  {
    var m' := SetCons(m, t, p);
    assert OwnStep(c, m, b, m', b, t);
    OtherConsumers(c, m, b, m', b, t);
    UsesSame(c, m, b, m', b, t);
    ContentsFrame(c, m, b, m', b);
    ProducerUnaware(c, m, b, m', b, t);
  }

  /** The current header shows every index that is not counted yet. */
  lemma CurrentShows(c: Config, m: Memory, b: Ledger, lo: int, hi: int)
    requires Sized(c, m, b) && |b.items| == m.q.tail && LinksOk(m.ix, b.ix, b.entryOf, b.use) && ContentsOk(c, m, b)
    requires 0 <= lo && hi <= m.q.tail && forall i :: lo <= i < hi ==> i !in b.done
    ensures Shows(c, m, b, |m.ix.headers| - 1, lo, hi)
  {
    forall i | lo <= i < hi ensures ShowsNumber(m, b, |m.ix.headers| - 1, Num(i, c.blockSize)) {
      var n := Num(i, c.blockSize);
      BaseFacts(i, m.q.tail, c.blockSize);
      NumMono(0, i, c.blockSize);
      NumUnique(0, 0, c.blockSize);
      NotAllDone(b.done, i, c.blockSize);
      assert LinkOk(m.ix, b.ix, b.entryOf, b.use, n);
    }
  }

  lemma HeaderStep(c: Config, m: Memory, b: Ledger, t: nat)
    requires Core(c, m, b) && t < |m.cons| && m.cons[t].CHeader?
    ensures ConsumerSafe(c, m, t) && Core(c, StepConsumer(c, m, t), TrackConsumer(c, m, b, t))
  {
    assert ConsumerOk(c, m, b, t);
    CurrentShows(c, m, b, m.q.pc[t].first, End(m, t));
    var h := |m.ix.headers| - 1;
    ShowsFrame(c, m, b, SetCons(m, t, CTail(h)), b, h, m.q.pc[t].first, End(m, t));
    ConsOnly(c, m, b, t, CTail(h));
  }

  /** The tail slot of a header, old or current, shows a key as soon as a consumer may read it. */
  lemma TailKeyShown(c: Config, m: Memory, b: Ledger, h: nat, i: int)
    requires Sized(c, m, b) && Coherent(m.ix, b.ix) && LinksOk(m.ix, b.ix, b.entryOf, b.use) && ProducerOk(c, m, b)
    requires h < |m.ix.headers| && i < m.q.tail && Num(i, c.blockSize) in b.entryOf
    ensures m.ix.headers[h].tail < |m.ix.headers[h].index|
    ensures m.ix.entries[m.ix.headers[h].index[m.ix.headers[h].tail]].key.Some?
  {
    assert HeaderFits(m.ix.headers[h], |m.ix.entries|);
    if h == |m.ix.headers| - 1 {
      BaseFacts(i, m.q.tail, c.blockSize);
      TailKeyIsSet(m.ix, b.ix, b.entryOf, b.use, Num(i, c.blockSize));
    }
  }

  lemma TailLoadStep(c: Config, m: Memory, b: Ledger, t: nat)
    requires Core(c, m, b) && t < |m.cons| && m.cons[t].CTail?
    ensures ConsumerSafe(c, m, t) && Core(c, StepConsumer(c, m, t), TrackConsumer(c, m, b, t))
  {
    assert ConsumerOk(c, m, b, t);
    var h, first := m.cons[t].header, m.q.pc[t].first;
    assert ShowsNumber(m, b, h, Num(first, c.blockSize));
    TailKeyShown(c, m, b, h, first);
    ShowsFrame(c, m, b, SetCons(m, t, CBase(h, m.ix.headers[h].tail)), b, h, first, End(m, t));
    ConsOnly(c, m, b, t, CBase(h, m.ix.headers[h].tail));
  }

  lemma BaseLoadStep(c: Config, m: Memory, b: Ledger, t: nat)
    requires Core(c, m, b) && t < |m.cons| && m.cons[t].CBase?
    ensures ConsumerSafe(c, m, t) && Core(c, StepConsumer(c, m, t), TrackConsumer(c, m, b, t))
  {
    assert ConsumerOk(c, m, b, t);
    var h, tail, first := m.cons[t].header, m.cons[t].tail, m.q.pc[t].first;
    var index, phase := m.ix.headers[h].index, b.ix.phase[h];
    var key := m.ix.entries[index[tail]].key.value;
    assert KeysInPlace(index, phase, m.ix.entries);
    LookupFindsSlot(phase, tail, key, Num(first, c.blockSize), |index|);
    var p := CLoad(first, h, SlotFor(tail, key, Num(first, c.blockSize), |index|));
    ShowsFrame(c, m, b, SetCons(m, t, p), b, h, first, End(m, t));
    ConsOnly(c, m, b, t, p);
  }

  lemma LoadStep(c: Config, m: Memory, b: Ledger, t: nat)
    requires Core(c, m, b) && t < |m.cons| && m.cons[t].CLoad?
    ensures ConsumerSafe(c, m, t) && Core(c, StepConsumer(c, m, t), TrackConsumer(c, m, b, t))
  {
    assert ConsumerOk(c, m, b, t);
    var cur, h, slot := m.cons[t].cur, m.cons[t].header, m.cons[t].slot;
    var n := Num(cur, c.blockSize);
    assert ShowsNumber(m, b, h, n);
    assert LinkOk(m.ix, b.ix, b.entryOf, b.use, n);
    var e := m.ix.headers[h].index[slot];
    var p := CTake(cur, cur, h, slot, e, m.ix.entries[e].value.value);
    ShowsFrame(c, m, b, SetCons(m, t, p), b, h, cur, End(m, t));
    ConsOnly(c, m, b, t, p);
  }
}
