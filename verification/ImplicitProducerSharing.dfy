/** What other producers and their consumers do to the shared pool, and to blocks of their own, leaves the invariant of
    this producer as it is. */
module ImplicitProducerSharing {
  import opened Wrappers
  import opened Bits
  import opened BlockIndex
  import opened BlockNumbers
  import opened ImplicitProducer
  import opened ImplicitProducerInvariant
  import opened ImplicitProducerProof
  import opened ImplicitProducerSteps
  import opened ImplicitProducerBlocks
  import opened ImplicitProducerWrites
  import opened ImplicitProducerChain
  import Claims = OptimisticDequeue

  lemma ForeignUses(c: Config, m: Memory, b: Ledger, f: Foreign)
    requires c.blockSize > 0 && |b.use| == |m.blocks| && UsesOk(c, m, b) && ForeignEnabled(c, m, f)
    ensures UsesOk(c, StepForeign(c, m, f), TrackForeign(b, f))
  {
    var m', b' := StepForeign(c, m, f), TrackForeign(b, f);
    forall k | 0 <= k < |b'.use| ensures UseOk(c, m', b', k) { if k < |b.use| { assert UseOk(c, m, b, k); } }
  }

  /** A block of another producer is not one of this producer's. */
  lemma ForeignBlocks(c: Config, m: Memory, b: Ledger, f: Foreign)
    requires c.blockSize > 0 && |b.use| == |m.blocks| && UsesOk(c, m, b) && ForeignEnabled(c, m, f)
    ensures var m', b' := StepForeign(c, m, f), TrackForeign(b, f);
      && |b'.use| == |m'.blocks| && |m.blocks| <= |m'.blocks|
      && (forall k :: 0 <= k < |b.use| && !b.use[k].Free? && !b.use[k].Abroad? ==>
            m'.blocks[k] == m.blocks[k] && b'.use[k] == b.use[k])
      && (forall k :: 0 <= k < |b'.use| && !b'.use[k].Free? && !b'.use[k].Abroad? ==> k < |b.use| && b'.use[k] == b.use[k])
      && (forall k :: 0 <= k < |m'.blocks| ==> |m'.blocks[k].cells| == c.blockSize || (k < |m.blocks| && m'.blocks[k] == m.blocks[k]))
  {
  }

  lemma ForeignContents(c: Config, m: Memory, b: Ledger, m': Memory, b': Ledger)
    requires Sized(c, m, b) && |b.items| == m.q.tail && |b.use| == |m.blocks| <= |m'.blocks|
    requires LinksOk(m.ix, b.ix, b.entryOf, b.use) && ContentsOk(c, m, b)
    requires m'.q == m.q && m'.ix == m.ix && b' == b.(use := b'.use)
    requires forall k :: 0 <= k < |b.use| && b.use[k].Live? ==> m'.blocks[k] == m.blocks[k]
    ensures ContentsOk(c, m', b')
  {
    ContentsLiveBlocks(c, m, b, m.(blocks := m'.blocks[..|m.blocks|]));
    ContentsFrame(c, m.(blocks := m'.blocks[..|m.blocks|]), b, m', b');
  }

  /** What of the blocks and their uses the producer looks at. */
  predicate OwnKept(m: Memory, b: Ledger, m': Memory, b': Ledger) {
    && |b.use| == |m.blocks| <= |m'.blocks| == |b'.use|
    && forall k :: 0 <= k < |b.use| && !b.use[k].Free? && !b.use[k].Abroad? ==>
         m'.blocks[k] == m.blocks[k] && b'.use[k] == b.use[k]
  }

  lemma ForeignWritten(c: Config, m: Memory, b: Ledger, m': Memory, b': Ledger, j: nat)
    requires Sized(c, m, b) && LinksOk(m.ix, b.ix, b.entryOf, b.use) && ProducerOk(c, m, b)
    requires (m.prod.PWrite? || m.prod.PStore?) && j < |m.prod.vals| && Written(c, m, j)
    requires m' == m.(blocks := m'.blocks, free := m'.free, abroad := m'.abroad) && OwnKept(m, b, m', b')
    ensures Written(c, m', j)
  {
    TargetIsLive(c, m, b, j);
    FoundIsLive(m.ix, b.ix, b.entryOf, b.use, Num(m.q.tail + j, c.blockSize));
    assert Target(c, m', m'.prod.got, j) == Target(c, m, m.prod.got, j);
  }

  lemma ForeignPhase(c: Config, m: Memory, b: Ledger, m': Memory, b': Ledger)
    requires Sized(c, m, b) && PhaseOk(c, m, b)
    requires m' == m.(blocks := m'.blocks, free := m'.free, abroad := m'.abroad) && b' == b.(use := b'.use)
    requires OwnKept(m, b, m', b')
    requires m.prod.PWrite? || m.prod.PStore? ==>
      forall j: nat {:trigger Written(c, m', j)} :: j < |m.prod.vals| && Written(c, m, j) ==> Written(c, m', j)
    ensures PhaseOk(c, m', b')
  {
  }

  lemma ForeignProducer(c: Config, m: Memory, b: Ledger, m': Memory, b': Ledger)
    requires Sized(c, m, b) && LinksOk(m.ix, b.ix, b.entryOf, b.use) && ProducerOk(c, m, b)
    requires m' == m.(blocks := m'.blocks, free := m'.free, abroad := m'.abroad) && b' == b.(use := b'.use)
    requires OwnKept(m, b, m', b')
    ensures ProducerOk(c, m', b')
  {
    if m.prod.PWrite? || m.prod.PStore? {
      forall j: nat | j < |m.prod.vals| && Written(c, m, j) ensures Written(c, m', j) { ForeignWritten(c, m, b, m', b', j); }
    }
    ForeignPhase(c, m, b, m', b');
    ProducerOtherBlocks(c, m, b, m', b');
  }

  lemma ForeignKeepsCore(c: Config, m: Memory, b: Ledger, f: Foreign)
    requires Core(c, m, b) && ForeignEnabled(c, m, f)
    ensures Core(c, StepForeign(c, m, f), TrackForeign(b, f))
  {
    var m', b' := StepForeign(c, m, f), TrackForeign(b, f);
    ForeignBlocks(c, m, b, f);
    ForeignUses(c, m, b, f);
    ForeignProducer(c, m, b, m', b');
    LinksSameUses(m.ix, b.ix, b.entryOf, b.use, b'.use);
    ForeignContents(c, m, b, m', b');
    ProducerLeavesConsumers(c, m, b, m', b');
  }

  lemma ChainIsOwn(c: Config, m: Memory, b: Ledger, j: nat)
    requires Core(c, m, b) && ChainOk(c, m) && FreedOf(m.prod) <= j < LinkedOf(m.prod)
    ensures m.prod.got[j] < |b.use| && !b.use[m.prod.got[j]].Free? && !b.use[m.prod.got[j]].Abroad?
  {
    if j < UndoneOf(m.prod) {
      assert m.prod.got[j] < |b.use| && b.use[m.prod.got[j]] == Undone(j);
    } else {
      assert BlockOf(m.ix, b.entryOf, Base(c, m) + j) == Some(m.prod.got[j]);
      FoundIsLive(m.ix, b.ix, b.entryOf, b.use, Base(c, m) + j);
    }
  }

  /** The blocks that the chain and the producer's pointers lead to. */
  predicate OnChain(c: Config, m: Memory, k: nat)
    requires c.blockSize > 0 && !m.prod.PIdle?
  {
    || (exists j :: FreedOf(m.prod) <= j < LinkedOf(m.prod) && m.prod.got[j] == k)
    || (Off(m.q.tail, c.blockSize) != 0 && m.local.start == Some(k))
    || ((m.prod.PPublish? || m.prod.PLink?) && m.prod.block == k)
  }

  lemma OnChainIsOwn(c: Config, m: Memory, b: Ledger, k: nat)
    requires Inv(c, m, b) && !m.prod.PIdle? && OnChain(c, m, k)
    ensures k < |b.use| && !b.use[k].Free? && !b.use[k].Abroad?
  {
    if Off(m.q.tail, c.blockSize) != 0 && m.local.start == Some(k) {
      StartBlockIsLive(c, m, b);
    } else if m.prod.PLink? && m.prod.block == k {
      AcquiredIsLive(c, m, b, |m.prod.got| - 1);
    } else if !(m.prod.PPublish? && m.prod.block == k) {
      var j :| FreedOf(m.prod) <= j < LinkedOf(m.prod) && m.prod.got[j] == k;
      ChainIsOwn(c, m, b, j);
    }
  }

  lemma ChainUntouched(c: Config, m: Memory, m': Memory)
    requires c.blockSize > 0 && ChainOk(c, m) && !m.prod.PIdle?
    requires m' == m.(blocks := m'.blocks, free := m'.free, abroad := m'.abroad) && |m.blocks| <= |m'.blocks|
    requires forall k :: 0 <= k < |m.blocks| && OnChain(c, m, k) ==> m'.blocks[k].next == m.blocks[k].next
    ensures ChainOk(c, m')
  {
    if m.local.bulk {
      forall j | FreedOf(m.prod) <= j < LinkedOf(m.prod) && m.prod.got[j] < |m.blocks|
        ensures m'.blocks[m.prod.got[j]].next == m.blocks[m.prod.got[j]].next
      { assert OnChain(c, m, m.prod.got[j]); }
      ChainedFrame(m.blocks, m'.blocks, m.prod.got, FreedOf(m.prod), LinkedOf(m.prod));
      if Off(m.q.tail, c.blockSize) != 0 && m.local.start.Some? { assert OnChain(c, m, m.local.start.value); }
      if m.prod.PPublish? || m.prod.PLink? { assert OnChain(c, m, m.prod.block); }
    }
  }

  /** Whatever the others write to their blocks, the chain of this producer is out of their reach. */
  lemma ForeignKeepsChain(c: Config, m: Memory, b: Ledger, f: Foreign)
    requires Inv(c, m, b) && ForeignEnabled(c, m, f)
    ensures ChainOk(c, StepForeign(c, m, f))
  {
    var m' := StepForeign(c, m, f);
    ForeignBlocks(c, m, b, f);
    if !m.prod.PIdle? {
      forall k | 0 <= k < |m.blocks| && OnChain(c, m, k) ensures m'.blocks[k] == m.blocks[k] { OnChainIsOwn(c, m, b, k); }
      ChainUntouched(c, m, m');
    }
  }

  lemma ForeignStep(c: Config, m: Memory, b: Ledger, f: Foreign)
    requires Inv(c, m, b) && ForeignEnabled(c, m, f)
    ensures Inv(c, StepForeign(c, m, f), TrackForeign(b, f))
  {
    ForeignKeepsCore(c, m, b, f);
    ForeignKeepsChain(c, m, b, f);
  }
}
