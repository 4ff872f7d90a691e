/** The steps by which a consumer claims, moves elements out, counts them, and sends an emptied block to the pool. */
module ImplicitProducerTakes {
  import opened Wrappers
  import opened Bits
  import opened BlockIndex
  import opened BlockNumbers
  import opened ImplicitProducer
  import opened ImplicitProducerInvariant
  import opened ImplicitProducerProof
  import opened ImplicitProducerSteps
  import opened ImplicitProducerBlocks
  import opened ImplicitProducerWrites
  import opened ImplicitProducerConsumers
  import Claims = OptimisticDequeue

  // ----- Claiming

  lemma ClaimsContents(c: Config, m: Memory, b: Ledger, m': Memory, b': Ledger)
    requires c.blockSize > 0 && |b.items| == m.q.tail && ContentsOk(c, m, b)
    requires m'.q.tail == m.q.tail && m.q.head <= m'.q.head && m'.ix == m.ix && m'.blocks == m.blocks
    requires b' == b.(q := b'.q)
    ensures ContentsOk(c, m', b')
  {
    forall n | n in b'.entryOf ensures CounterOk(c, m', b', n) { assert CounterOk(c, m, b, n); }
    forall i | 0 <= i < m.q.tail && i !in b.taken ensures CellOk(c, m', b', i) { assert CellOk(c, m, b, i); }
  }

  lemma ClaimsRest(c: Config, m: Memory, b: Ledger, m': Memory, b': Ledger, t: nat)
    requires Sized(c, m, b) && |b.items| == m.q.tail && Claims.Inv(m.q, b.q) && t < |m.cons|
    requires ContentsOk(c, m, b) && ProducerOk(c, m, b) && UsesOk(c, m, b) && ConsumersOk(c, m, b)
    requires !m.cons[t].CNull? && !m.cons[t].CFree? && |m'.cons| == |m.cons| && |m'.out| == |m.out|
    requires m' == m.(q := m'.q, cons := m.cons[t := m'.cons[t]], out := m.out[t := m'.out[t]])
    requires !m'.cons[t].CNull? && !m'.cons[t].CFree?
    requires b' == b.(q := b'.q) && OwnStep(c, m, b, m', b', t) && m.q.head <= m'.q.head && ConsumerOk(c, m', b', t)
    ensures ContentsOk(c, m', b') && ProducerOk(c, m', b') && UsesOk(c, m', b') && ConsumersOk(c, m', b')
  {
    OtherConsumers(c, m, b, m', b', t);
    UsesSame(c, m, b, m', b', t);
    ClaimsContents(c, m, b, m', b');
    ProducerUnaware(c, m, b, m', b', t);
  }

  /** A step that changes only the claims of consumer t, before or after it holds elements. */
  lemma ClaimsOnly(c: Config, m: Memory, b: Ledger, m': Memory, b': Ledger, t: nat)
    requires Core(c, m, b) && t < |m.cons| && !m.cons[t].CNull? && !m.cons[t].CFree?
    requires |m'.cons| == |m.cons| && |m'.out| == |m.out| == |m.cons|
    requires m' == m.(q := m'.q, cons := m.cons[t := m'.cons[t]], out := m.out[t := m'.out[t]])
    requires !m'.cons[t].CNull? && !m'.cons[t].CFree?
    requires b' == b.(q := b'.q) && Claims.Inv(m'.q, b'.q) && OwnStep(c, m, b, m', b', t)
    requires m.q.head <= m'.q.head && ConsumerOk(c, m', b', t)
    ensures Core(c, m', b')
  {
    ClaimsRest(c, m, b, m', b', t);
  }

  lemma AdvanceFacts(q: Claims.Counters, b: Claims.Book, t: nat)
    requires Claims.Inv(q, b) && Claims.Enabled(q, t, Claims.Advance)
    ensures var q' := Claims.Step(q, t, Claims.Advance);
      && |q'.pc| == |q.pc| && q'.tail == q.tail && q.head <= q'.head
      && (forall u :: 0 <= u < |q.pc| && u != t ==> q'.pc[u] == q.pc[u])
      && (q'.pc[t].Holding? ==> q'.pc[t].first == q.head)
  {
    if t < |q.pc| { assert Claims.ThreadOk(q, b, t); }
  }

  lemma ClaimStep(c: Config, m: Memory, b: Ledger, t: nat)
    requires Core(c, m, b) && t < |m.cons| && m.cons[t].CNone? && Claims.Enabled(m.q, t, Claims.Advance)
    ensures ConsumerSafe(c, m, t) && Core(c, StepConsumer(c, m, t), TrackConsumer(c, m, b, t))
  {
    var q', bq' := Claims.Step(m.q, t, Claims.Advance), Claims.Track(m.q, b.q, t, Claims.Advance);
    Claims.StepKeepsInv(m.q, b.q, t, Claims.Advance);
    AdvanceFacts(m.q, b.q, t);
    var b' := b.(q := bq');
    if q'.pc[t].Holding? {
      Claims.HoldingIsPublished(q', bq', t);
      var m' := m.(q := q', cons := m.cons[t := CHeader], out := m.out[t := []]);
      assert b.items[q'.pc[t].first..q'.pc[t].first] == [];
      ClaimsOnly(c, m, b, m', b', t);
    } else {
      var m' := m.(q := q');
      assert m' == m.(q := m'.q, cons := m.cons[t := m'.cons[t]], out := m.out[t := m'.out[t]]);
      ClaimsOnly(c, m, b, m', b', t);
    }
  }

  lemma DequeueStep(c: Config, m: Memory, b: Ledger, t: nat, max: nat)
    requires Core(c, m, b) && t < |m.cons| && m.cons[t].CNone? && Claims.Enabled(m.q, t, Claims.Call(max))
    ensures Core(c, m.(q := Claims.Step(m.q, t, Claims.Call(max))), b)
  {
    Claims.StepKeepsInv(m.q, b.q, t, Claims.Call(max));
    var m' := m.(q := Claims.Step(m.q, t, Claims.Call(max)));
    assert m' == m.(q := m'.q, cons := m.cons[t := m'.cons[t]], out := m.out[t := m'.out[t]]);
    ClaimsOnly(c, m, b, m', b, t);
  }

  // ----- Moving an element out

  lemma TakeContents(c: Config, m: Memory, b: Ledger, m': Memory, k: nat, cur: int)
    requires Sized(c, m, b) && |b.items| == m.q.tail && LinksOk(m.ix, b.ix, b.entryOf, b.use) && ContentsOk(c, m, b)
    requires k < |m.blocks| && |m.blocks[k].cells| == c.blockSize && BlockOf(m.ix, b.entryOf, Num(cur, c.blockSize)) == Some(k)
    requires 0 <= cur < m.q.head
    requires m'.blocks == WithCell(m, k, Off(cur, c.blockSize), None).blocks && m'.q == m.q && m'.ix == m.ix
    ensures ContentsOk(c, m', b.(taken := b.taken + {cur}))
  {
    var b' := b.(taken := b.taken + {cur});
    FoundIsLive(m.ix, b.ix, b.entryOf, b.use, Num(cur, c.blockSize));
    forall n | n in b.entryOf ensures CounterOk(c, m', b', n) { assert CounterOk(c, m, b, n); }
    forall i | 0 <= i < m.q.tail && i !in b'.taken ensures CellOk(c, m', b', i) {
      assert CellOk(c, m, b, i);
      FoundIsLive(m.ix, b.ix, b.entryOf, b.use, Num(i, c.blockSize));
      if Num(i, c.blockSize) == Num(cur, c.blockSize) && Off(i, c.blockSize) == Off(cur, c.blockSize) {
        SameCell(i, cur, c.blockSize);
      }
    }
  }

  /** A consumer never touches a cell that the running operation has written. */
  lemma TakeKeepsWritten(c: Config, m: Memory, b: Ledger, m': Memory, k: nat, cur: int, j: int)
    requires Sized(c, m, b) && LinksOk(m.ix, b.ix, b.entryOf, b.use) && ProducerOk(c, m, b)
    requires k < |m.blocks| && |m.blocks[k].cells| == c.blockSize && BlockOf(m.ix, b.entryOf, Num(cur, c.blockSize)) == Some(k)
    requires cur < m.q.tail && (m.prod.PWrite? || m.prod.PStore?) && 0 <= j < |m.prod.vals| && Written(c, m, j)
    requires m'.blocks == WithCell(m, k, Off(cur, c.blockSize), None).blocks
    requires Num(cur, c.blockSize) in b.entryOf
    requires m'.q == m.q && m'.prod == m.prod && m'.tailBlock == m.tailBlock && m'.local == m.local
    ensures Written(c, m', j)
  {
    var i := m.q.tail + j;
    TargetIsLive(c, m, b, j);
    FoundIsLive(m.ix, b.ix, b.entryOf, b.use, Num(cur, c.blockSize));
    FoundIsLive(m.ix, b.ix, b.entryOf, b.use, Num(i, c.blockSize));
    assert Target(c, m', m'.prod.got, j) == Target(c, m, m.prod.got, j);
    if Num(i, c.blockSize) == Num(cur, c.blockSize) && Off(i, c.blockSize) == Off(cur, c.blockSize) {
      SameCell(i, cur, c.blockSize);
    }
  }

  lemma TakeIsSafe(c: Config, m: Memory, b: Ledger, t: nat)
    requires ShapeOk(c, m, b) && ContentsOk(c, m, b) && t < |m.cons| && ConsumerOk(c, m, b, t) && m.cons[t].CTake?
    ensures ConsumerSafe(c, m, t)
    ensures m.blocks[m.cons[t].block].cells[Off(m.cons[t].cur, c.blockSize)] == Some(b.items[m.cons[t].cur])
    ensures 0 <= m.cons[t].cur < m.q.head
  {
    assert CellOk(c, m, b, m.cons[t].cur);
    Claims.HoldingIsPublished(m.q, b.q, t);
  }

  lemma TakeConsumer(c: Config, m: Memory, b: Ledger, t: nat)
    requires ShapeOk(c, m, b) && ContentsOk(c, m, b) && t < |m.cons| && ConsumerOk(c, m, b, t) && m.cons[t].CTake?
    requires ConsumerSafe(c, m, t)
    ensures var m', b' := StepConsumer(c, m, t), b.(taken := b.taken + {m.cons[t].cur});
      Sized(c, m', b') && ConsumerOk(c, m', b', t)
  {
    var m', b' := StepConsumer(c, m, t), b.(taken := b.taken + {m.cons[t].cur});
    var p, first := m.cons[t], m.q.pc[t].first;
    TakeIsSafe(c, m, b, t);
    NumStep(p.cur, c.blockSize);
    assert m'.out[t] == b.items[first..p.cur + 1];
    ShowsFrame(c, m, b, m', b', p.header, p.cur + 1, End(m, t));
  }

  lemma TakeOwnStep(c: Config, m: Memory, b: Ledger, t: nat)
    requires ShapeOk(c, m, b) && t < |m.cons| && ConsumerOk(c, m, b, t) && m.cons[t].CTake?
    requires ConsumerSafe(c, m, t)
    ensures OwnStep(c, m, b, StepConsumer(c, m, t), b.(taken := b.taken + {m.cons[t].cur}), t)
  {
  }

  lemma TakeProducer(c: Config, m: Memory, b: Ledger, t: nat)
    requires ShapeOk(c, m, b) && LinksOk(m.ix, b.ix, b.entryOf, b.use) && ProducerOk(c, m, b)
    requires t < |m.cons| && ConsumerOk(c, m, b, t) && m.cons[t].CTake? && ConsumerSafe(c, m, t)
    ensures ProducerOk(c, StepConsumer(c, m, t), b.(taken := b.taken + {m.cons[t].cur}))
  {
    var m', b' := StepConsumer(c, m, t), b.(taken := b.taken + {m.cons[t].cur});
    var p := m.cons[t];
    TakeOwnStep(c, m, b, t);
    if m.prod.PWrite? || m.prod.PStore? {
      forall j | 0 <= j < |m.prod.vals| && Written(c, m, j) ensures Written(c, m', j) {
        TakeKeepsWritten(c, m, b, m', p.block, p.cur, j);
      }
    }
    ProducerUnaware(c, m, b, m', b', t);
  }

  lemma TakeStep(c: Config, m: Memory, b: Ledger, t: nat)
    requires Core(c, m, b) && t < |m.cons| && m.cons[t].CTake?
    ensures ConsumerSafe(c, m, t) && Core(c, StepConsumer(c, m, t), TrackConsumer(c, m, b, t))
  {
    assert ConsumerOk(c, m, b, t);
    TakeIsSafe(c, m, b, t);
    var m', b' := StepConsumer(c, m, t), b.(taken := b.taken + {m.cons[t].cur});
    TakeOwnStep(c, m, b, t);
    TakeConsumer(c, m, b, t);
    TakeProducer(c, m, b, t);
    TakeContents(c, m, b, m', m.cons[t].block, m.cons[t].cur);
    OtherConsumers(c, m, b, m', b', t);
    UsesSame(c, m, b, m', b', t);
  }
}
