/** The steps of the producer of an implicit queue, one access at a time, keep the invariant. */
module ImplicitProducerSteps {
  import opened Wrappers
  import opened Bits
  import opened BlockIndex
  import opened ImplicitProducer
  import opened ImplicitProducerInvariant
  import opened ImplicitProducerProof
  import Claims = OptimisticDequeue

  /** A step of the producer that changes only the index, and no entry's block. */
  lemma IndexOnly(c: Config, m: Memory, b: Ledger, m': Memory, b': Ledger)
    requires Sized(c, m, b) && Sized(c, m', b') && |b.items| == m.q.tail
    requires ContentsOk(c, m, b) && UsesOk(c, m, b) && ConsumersOk(c, m, b)
    requires m' == m.(ix := m'.ix, prod := m'.prod) && b' == b.(ix := b'.ix)
    requires IndexGrows(m.ix, b.ix, m'.ix, b'.ix)
    requires forall n :: BlockOf(m'.ix, b.entryOf, n) == BlockOf(m.ix, b.entryOf, n)
    requires GotOf(m'.prod) == GotOf(m.prod) && UndoneOf(m'.prod) == UndoneOf(m.prod)
    requires !Preparing(m.prod) && FreedOf(m'.prod) == FreedOf(m.prod)
    ensures ContentsOk(c, m', b') && UsesOk(c, m', b') && ConsumersOk(c, m', b')
  {
    ProducerLeavesConsumers(c, m, b, m', b');
    ContentsFrame(c, m, b, m', b');
    UsesFrame(c, m, b, m', b');
  }

  /** The producer's own part, when only the index changes. */
  lemma HaulIndexOnly(c: Config, m: Memory, b: Ledger, m': Memory, b': Ledger)
    requires Sized(c, m, b) && Sized(c, m', b') && HaulOk(c, m, b)
    requires m' == m.(ix := m'.ix, prod := m'.prod) && b' == b.(ix := b'.ix)
    requires forall n :: BlockOf(m'.ix, b.entryOf, n) == BlockOf(m.ix, b.entryOf, n)
    requires GotOf(m'.prod) == GotOf(m.prod) && UndoneOf(m'.prod) == UndoneOf(m.prod)
    requires b'.ix.count - InsertedOf(m'.prod) == b.ix.count - InsertedOf(m.prod)
    requires b'.ix.high - |Current(m'.ix).index| < Base(c, m) && StartBlock(m') == StartBlock(m)
    requires KeysUpTo(m'.ix, b'.ix, Base(c, m))
    ensures HaulOk(c, m', b')
  {
    assert KeysFrom(m', b', Base(c, m));
  }

  lemma ProducerIndexOnly(c: Config, m: Memory, b: Ledger, m': Memory, b': Ledger)
    requires Sized(c, m, b) && Sized(c, m', b') && ProducerOk(c, m, b)
    requires m' == m.(ix := m'.ix, prod := m'.prod) && b' == b.(ix := b'.ix)
    requires forall n :: BlockOf(m'.ix, b.entryOf, n) == BlockOf(m.ix, b.entryOf, n)
    requires GotOf(m'.prod) == GotOf(m.prod) && UndoneOf(m'.prod) == UndoneOf(m.prod)
    requires b'.ix.count - InsertedOf(m'.prod) == b.ix.count - InsertedOf(m.prod)
    requires b'.ix.high - |Current(m'.ix).index| < Base(c, m)
    requires m.prod.PIdle? <==> m'.prod.PIdle?
    requires KeysUpTo(m'.ix, b'.ix, Base(c, m)) && PhaseOk(c, m', b')
    ensures ProducerOk(c, m', b')
  {
    HaulIndexOnly(c, m, b, m', b');
  }

  lemma CheckStep(c: Config, m: Memory, b: Ledger, r: Resource)
    requires Core(c, m, b) && m.prod.PCheck?
    ensures ProducerSafe(c, m) && Core(c, StepProducer(c, m, r), TrackProducer(c, m, b, r))
  {
    ProdOnly(c, m, b, StepProducer(c, m, r));
  }

  /** The next slot is the slot of the next number; if it is taken, then by a live block. */
  lemma NextIsEntryAt(ix: Index, b: BlockIndex.Book)
    requires Coherent(ix, b)
    ensures Current(ix).index[Next(Current(ix))] == EntryAt(ix, b, b.count)
  {
    NextSlot(CurrentPhase(b), b.count - 1, |Current(ix).index|);
  }

  lemma FreeSlotHasNoBlock(ix: Index, b: BlockIndex.Book)
    requires Coherent(ix, b) && ix.entries[EntryAt(ix, b, b.count)].key.None?
    ensures ix.entries[EntryAt(ix, b, b.count)].value.None?
  {
    var cur := Current(ix).index;
    assert EntryOk(ix.entries[cur[Slot(CurrentPhase(b), b.count, |cur|)]], |cur|, b.high);
  }

  lemma TailKeyIsSet(ix: Index, b: BlockIndex.Book, entryOf: map<int, nat>, use: seq<Use>, n: int)
    requires Coherent(ix, b) && LinksOk(ix, b, entryOf, use) && n in entryOf && n <= b.count - 1
    ensures ix.entries[Current(ix).index[Current(ix).tail]].key == Some(b.count - 1)
  {
    assert LinkOk(ix, b, entryOf, use, n);
    assert ix.entries[EntryAt(ix, b, b.count - 1)].key == Some(b.count - 1);
  }

  /** A taken slot is one lap behind: the index is full of inserted blocks, and nothing rewound is ahead. */
  lemma TakenSlotMeansFull(c: Config, m: Memory, b: Ledger)
    requires Sized(c, m, b) && Coherent(m.ix, b.ix) && LinksOk(m.ix, b.ix, b.entryOf, b.use)
    requires ProducerOk(c, m, b) && m.prod.PRoom? && m.ix.entries[EntryAt(m.ix, b.ix, b.ix.count)].value.Some?
    ensures b.ix.high == b.ix.count - 1
    ensures m.ix.entries[Current(m.ix).index[Current(m.ix).tail]].key.Some?
  {
    assert EntryLinked(m.ix.entries[EntryAt(m.ix, b.ix, b.ix.count)], EntryAt(m.ix, b.ix, b.ix.count), b.entryOf);
    FullIsOneLapBack(m.ix, b.ix);
    TailKeyIsSet(m.ix, b.ix, b.entryOf, b.use, b.ix.count - |Current(m.ix).index|);
  }

  lemma RoomStep(c: Config, m: Memory, b: Ledger, r: Resource)
    requires Core(c, m, b) && m.prod.PRoom?
    ensures ProducerSafe(c, m) && Core(c, StepProducer(c, m, r), TrackProducer(c, m, b, r))
  {
    NextIsEntryAt(m.ix, b.ix);
    if m.ix.entries[EntryAt(m.ix, b.ix, b.ix.count)].key.None? {
      FreeSlotHasNoBlock(m.ix, b.ix);
    } else if m.ix.entries[EntryAt(m.ix, b.ix, b.ix.count)].value.Some? {
      TakenSlotMeansFull(c, m, b);
    }
    ProdOnly(c, m, b, StepProducer(c, m, r));
  }

  function KeyIndex(m: Memory, b: Ledger): Index
    requires Shaped(m.ix) && |b.ix.phase| == |m.ix.headers|
  {
    SetEntry(m.ix, EntryAt(m.ix, b.ix, b.ix.count), Entry(Some(b.ix.count), None))
  }

  function KeyBook(b: Ledger): BlockIndex.Book { b.ix.(high := if b.ix.count > b.ix.high then b.ix.count else b.ix.high) }

  lemma EntryKeepsShape(ix: Index, b: BlockIndex.Book, e: nat, entry: Entry, high: int)
    requires Shaped(ix) && |b.phase| == |ix.headers| && e < |ix.entries|
    ensures Shaped(SetEntry(ix, e, entry))
    ensures forall k :: EntryAt(SetEntry(ix, e, entry), b.(high := high), k) == EntryAt(ix, b, k)
  {
    var ix' := SetEntry(ix, e, entry);
    forall h | 0 <= h < |ix'.headers| ensures HeaderFits(ix'.headers[h], |ix'.entries|) {
      assert HeaderFits(ix.headers[h], |ix.entries|);
    }
  }

  /** The slot of the next number is not the slot of the operation's first block. */
  lemma NextSlotIsNotFirst(c: Config, m: Memory, b: Ledger)
    requires Sized(c, m, b) && LinksOk(m.ix, b.ix, b.entryOf, b.use) && ProducerOk(c, m, b) && m.prod.PKey?
    ensures Base(c, m) != b.ix.count - |Current(m.ix).index|
  {
    if GotOf(m.prod) != [] { FirstIsLive(c, m, b); }
    SlotPeriod(CurrentPhase(b.ix), b.ix.count, |Current(m.ix).index|);
  }

  lemma KeyKeepsProducer(c: Config, m: Memory, b: Ledger)
    requires Sized(c, m, b) && Coherent(m.ix, b.ix) && LinksOk(m.ix, b.ix, b.entryOf, b.use)
    requires ProducerOk(c, m, b) && m.prod.PKey? && Shaped(KeyIndex(m, b))
    ensures var m' := m.(ix := KeyIndex(m, b), prod := PTail(m.prod.vals, m.prod.got, m.prod.e));
      ProducerOk(c, m', b.(ix := KeyBook(b)))
  {
    var m', b' := m.(ix := KeyIndex(m, b), prod := PTail(m.prod.vals, m.prod.got, m.prod.e)), b.(ix := KeyBook(b));
    NextSlotIsNotFirst(c, m, b);
    KeyKeepsKeys(m.ix, b.ix, Base(c, m));
    EntryKeepsShape(m.ix, b.ix, m.prod.e, Entry(Some(b.ix.count), None), KeyBook(b).high);
    assert Sized(c, m', b');
    assert PhaseOk(c, m', b');
    assert b'.ix.high - |Current(m'.ix).index| < Base(c, m);
    ProducerIndexOnly(c, m, b, m', b');
  }

  lemma KeyStep(c: Config, m: Memory, b: Ledger, r: Resource)
    requires Core(c, m, b) && m.prod.PKey?
    ensures ProducerSafe(c, m) && Core(c, StepProducer(c, m, r), TrackProducer(c, m, b, r))
  {
    var m', b' := m.(ix := KeyIndex(m, b), prod := PTail(m.prod.vals, m.prod.got, m.prod.e)), b.(ix := KeyBook(b));
    SetKeyKeepsCoherent(m.ix, b.ix);
    KeyKeepsLinks(m.ix, b.ix, b.entryOf, b.use);
    KeyKeepsProducer(c, m, b);
    IndexOnly(c, m, b, m', b');
    assert StepProducer(c, m, r) == m';
  }

  /** Once the operation has acquired blocks, the first of them is live in its entry. */
  lemma FirstIsLive(c: Config, m: Memory, b: Ledger)
    requires Sized(c, m, b) && LinksOk(m.ix, b.ix, b.entryOf, b.use) && ProducerOk(c, m, b)
    requires UndoneOf(m.prod) == 0 && GotOf(m.prod) != []
    ensures Base(c, m) in b.entryOf && m.ix.entries[EntryAt(m.ix, b.ix, Base(c, m))].value.Some?
  {
    assert BlockOf(m.ix, b.entryOf, Base(c, m) + 0) == Some(GotOf(m.prod)[0]);
    LiveEntry(m.ix, b.ix, b.entryOf, b.use, Base(c, m));
  }

  // ----- The tail, forward and back

  lemma TailGrowsIndex(ix: Index, b: BlockIndex.Book, tail: nat, count: nat)
    requires Shaped(ix) && |b.phase| == |ix.headers| && tail < |Current(ix).index|
    ensures IndexGrows(ix, b, SetTail(ix, tail), b.(count := count))
  {
    TailKeepsEntryAt(ix, b, tail, count);
    var ix' := SetTail(ix, tail);
    forall h | 0 <= h < |ix.headers| ensures ix'.headers[h].index == ix.headers[h].index { }
  }

  lemma TailKeepsKeys(ix: Index, b: BlockIndex.Book, tail: nat, count: nat, f: int)
    requires Shaped(ix) && |b.phase| == |ix.headers| && tail < |Current(ix).index| && KeysUpTo(ix, b, f)
    ensures Shaped(SetTail(ix, tail)) && KeysUpTo(SetTail(ix, tail), b.(count := count), f)
  {
    TailKeepsEntryAt(ix, b, tail, count);
    var ix', b' := SetTail(ix, tail), b.(count := count);
    forall k {:trigger EntryAt(ix', b', k)} | f <= k <= b.high ensures ix'.entries[EntryAt(ix', b', k)].key == Some(k) {
      assert EntryAt(ix', b', k) == EntryAt(ix, b, k);
    }
  }

  /** A step of the producer that moves the index tail. */
  lemma TailStep(c: Config, m: Memory, b: Ledger, p: Producing, tail: nat, count: nat)
    requires Core(c, m, b) && tail < |Current(m.ix).index|
    requires Coherent(SetTail(m.ix, tail), b.ix.(count := count))
    requires GotOf(p) == GotOf(m.prod) && UndoneOf(p) == UndoneOf(m.prod)
    requires !Preparing(m.prod) && FreedOf(p) == FreedOf(m.prod)
    requires count - InsertedOf(p) == b.ix.count - InsertedOf(m.prod) && !m.prod.PIdle? && !p.PIdle?
    requires PhaseOk(c, m.(ix := SetTail(m.ix, tail), prod := p), b.(ix := b.ix.(count := count)))
    ensures Core(c, m.(ix := SetTail(m.ix, tail), prod := p), b.(ix := b.ix.(count := count)))
  {
    var m', b' := m.(ix := SetTail(m.ix, tail), prod := p), b.(ix := b.ix.(count := count));
    TailKeepsLinks(m.ix, b.ix, b.entryOf, b.use, tail, count);
    TailGrowsIndex(m.ix, b.ix, tail, count);
    TailKeepsKeys(m.ix, b.ix, tail, count, Base(c, m));
    IndexOnly(c, m, b, m', b');
    ProducerIndexOnly(c, m, b, m', b');
  }

  /** The entry whose key was written is that of the last number inserted, once the tail is past it. */
  lemma AdvancePhase(c: Config, m: Memory, b: Ledger, m': Memory, b': Ledger)
    requires Sized(c, m, b) && PhaseOk(c, m, b) && m.prod.PTail?
    requires m'.prod == PRequest(m.prod.vals, m.prod.got, m.prod.e) && m'.ix.entries == m.ix.entries && m'.q == m.q
    requires Shaped(m'.ix) && |b'.ix.phase| == |m'.ix.headers| && b'.ix.count == b.ix.count + 1
    requires EntryAt(m'.ix, b'.ix, b.ix.count) == EntryAt(m.ix, b.ix, b.ix.count)
    ensures PhaseOk(c, m', b')
  {
  }

  lemma AdvanceIs(c: Config, m: Memory, b: Ledger, r: Resource)
    requires c.blockSize > 0 && Shaped(m.ix) && m.prod.PTail?
    ensures ProducerSafe(c, m)
    ensures StepProducer(c, m, r) == m.(ix := SetTail(m.ix, Next(Current(m.ix))), prod := PRequest(m.prod.vals, m.prod.got, m.prod.e))
    ensures TrackProducer(c, m, b, r) == b.(ix := b.ix.(count := b.ix.count + 1))
  {
  }

  lemma AdvanceStep(c: Config, m: Memory, b: Ledger, r: Resource)
    requires Core(c, m, b) && m.prod.PTail?
    ensures ProducerSafe(c, m) && Core(c, StepProducer(c, m, r), TrackProducer(c, m, b, r))
  {
    var p, tail := PRequest(m.prod.vals, m.prod.got, m.prod.e), Next(Current(m.ix));
    AdvanceKeepsCoherent(m.ix, b.ix);
    TailKeepsEntryAt(m.ix, b.ix, tail, b.ix.count + 1);
    AdvancePhase(c, m, b, m.(ix := SetTail(m.ix, tail), prod := p), b.(ix := b.ix.(count := b.ix.count + 1)));
    TailStep(c, m, b, p, tail, b.ix.count + 1);
    AdvanceIs(c, m, b, r);
  }

  /** Rewinding shows the last number inserted in its entry still; its value is null. */
  lemma RewindPhase(c: Config, m: Memory, b: Ledger, m': Memory, b': Ledger)
    requires Sized(c, m, b) && PhaseOk(c, m, b) && m.prod.PRewind?
    requires m'.prod == PClear(m.prod.vals, m.prod.got, m.prod.e) && m'.ix.entries == m.ix.entries && m'.q == m.q
    requires Shaped(m'.ix) && |b'.ix.phase| == |m'.ix.headers|
    ensures PhaseOk(c, m', b')
  {
  }

  lemma RewindStep(c: Config, m: Memory, b: Ledger, r: Resource)
    requires Core(c, m, b) && m.prod.PRewind?
    ensures ProducerSafe(c, m) && Core(c, StepProducer(c, m, r), TrackProducer(c, m, b, r))
  {
    var p, tail := PClear(m.prod.vals, m.prod.got, m.prod.e), Previous(Current(m.ix));
    BaseNonnegative(m.q.tail, c.blockSize);
    RewindKeepsCoherent(m.ix, b.ix);
    RewindPhase(c, m, b, m.(ix := SetTail(m.ix, tail), prod := p), b.(ix := b.ix.(count := b.ix.count - 1)));
    TailStep(c, m, b, p, tail, b.ix.count - 1);
  }

  lemma UndoTailStep(c: Config, m: Memory, b: Ledger, r: Resource)
    requires Core(c, m, b) && m.prod.PUndoTail?
    ensures ProducerSafe(c, m) && Core(c, StepProducer(c, m, r), TrackProducer(c, m, b, r))
  {
    var p := PUndoNext(m.prod.vals, m.prod.got, m.prod.k);
    BaseNonnegative(m.q.tail, c.blockSize);
    RewindKeepsCoherent(m.ix, b.ix);
    TailStep(c, m, b, p, Previous(Current(m.ix)), b.ix.count - 1);
  }

  // ----- Growing the index

  lemma GrowGrowsIndex(ix: Index, b: BlockIndex.Book, phase: int)
    requires Shaped(ix) && |b.phase| == |ix.headers| && Shaped(Grow(ix))
    ensures IndexGrows(ix, b, Grow(ix), b.(phase := b.phase + [phase]))
  {
  }

  function GrownBook(m: Memory, b: Ledger): BlockIndex.Book
    requires Shaped(m.ix)
  {
    b.ix.(phase := b.ix.phase + [|Current(m.ix).index| - b.ix.count])
  }

  /** After growing, the next slot is a fresh one. */
  lemma GrownNextEntry(ix: Index, b: BlockIndex.Book)
    requires Shaped(ix) && |b.phase| == |ix.headers| && Shaped(Grow(ix))
    ensures var cap, b' := |Current(ix).index|, b.(phase := b.phase + [|Current(ix).index| - b.count]);
      && EntryAt(Grow(ix), b', b.count) == Grown(Current(ix), |ix.entries|).index[cap]
      && Grow(ix).entries[EntryAt(Grow(ix), b', b.count)] == Entry(None, None)
      && |Current(Grow(ix)).index| == 2 * cap
  {
    assert Current(Grow(ix)) == Grown(Current(ix), |ix.entries|);
    SlotInRange(|Current(ix).index| - b.count, b.count, 2 * |Current(ix).index|);
  }

  lemma GrowKeepsBlocks(ix: Index, b: BlockIndex.Book, entryOf: map<int, nat>, use: seq<Use>)
    requires Shaped(ix) && |b.phase| == |ix.headers| && LinksOk(ix, b, entryOf, use)
    ensures forall n :: BlockOf(Grow(ix), entryOf, n) == BlockOf(ix, entryOf, n)
  {
    forall n ensures BlockOf(Grow(ix), entryOf, n) == BlockOf(ix, entryOf, n) {
      if n in entryOf { assert LinkOk(ix, b, entryOf, use, n); }
    }
  }

  lemma GrowKeepsProducer(c: Config, m: Memory, b: Ledger)
    requires Sized(c, m, b) && Coherent(m.ix, b.ix) && LinksOk(m.ix, b.ix, b.entryOf, b.use)
    requires ProducerOk(c, m, b) && m.prod.PGrow? && Shaped(Grow(m.ix))
    ensures var e := Grown(Current(m.ix), |m.ix.entries|).index[|Current(m.ix).index|];
      ProducerOk(c, m.(ix := Grow(m.ix), prod := PKey(m.prod.vals, m.prod.got, e)), b.(ix := GrownBook(m, b)))
  {
    var e := Grown(Current(m.ix), |m.ix.entries|).index[|Current(m.ix).index|];
    var m', b' := m.(ix := Grow(m.ix), prod := PKey(m.prod.vals, m.prod.got, e)), b.(ix := GrownBook(m, b));
    GrownNextEntry(m.ix, b.ix);
    GrowKeepsKeys(m.ix, b.ix, Base(c, m));
    GrowKeepsBlocks(m.ix, b.ix, b.entryOf, b.use);
    assert PhaseOk(c, m', b');
    ProducerIndexOnly(c, m, b, m', b');
  }

  /** A step that changes only the index, once its own parts are known. */
  lemma IndexStep(c: Config, m: Memory, b: Ledger, m': Memory, b': Ledger)
    requires Core(c, m, b)
    requires m' == m.(ix := m'.ix, prod := m'.prod) && b' == b.(ix := b'.ix)
    requires Coherent(m'.ix, b'.ix) && LinksOk(m'.ix, b'.ix, b.entryOf, b.use) && ProducerOk(c, m', b')
    requires IndexGrows(m.ix, b.ix, m'.ix, b'.ix)
    requires forall n :: BlockOf(m'.ix, b.entryOf, n) == BlockOf(m.ix, b.entryOf, n)
    requires GotOf(m'.prod) == GotOf(m.prod) && UndoneOf(m'.prod) == UndoneOf(m.prod)
    requires !Preparing(m.prod) && FreedOf(m'.prod) == FreedOf(m.prod)
    ensures Core(c, m', b')
  {
    IndexOnly(c, m, b, m', b');
  }

  lemma GrowKeepsIndex(ix: Index, b: BlockIndex.Book, entryOf: map<int, nat>, use: seq<Use>)
    requires Coherent(ix, b) && LinksOk(ix, b, entryOf, use) && b.high == b.count - 1
    requires ix.entries[Current(ix).index[Current(ix).tail]].key.Some?
    ensures var b' := b.(phase := b.phase + [|Current(ix).index| - b.count]);
      Coherent(Grow(ix), b') && LinksOk(Grow(ix), b', entryOf, use) && IndexGrows(ix, b, Grow(ix), b')
  {
    GrowKeepsCoherent(ix, b);
    GrowKeepsLinks(ix, b, entryOf, use);
    GrowGrowsIndex(ix, b, |Current(ix).index| - b.count);
  }

  lemma GrowSuccess(c: Config, m: Memory, b: Ledger, ix': Index, e: nat)
    requires Core(c, m, b) && m.prod.PGrow?
    requires ix' == Grow(m.ix) && e == Grown(Current(m.ix), |m.ix.entries|).index[|Current(m.ix).index|]
    ensures Core(c, m.(ix := ix', prod := PKey(m.prod.vals, m.prod.got, e)), b.(ix := GrownBook(m, b)))
  {
    GrowKeepsIndex(m.ix, b.ix, b.entryOf, b.use);
    GrowKeepsProducer(c, m, b);
    GrowKeepsBlocks(m.ix, b.ix, b.entryOf, b.use);
    IndexStep(c, m, b, m.(ix := ix', prod := PKey(m.prod.vals, m.prod.got, e)), b.(ix := GrownBook(m, b)));
  }

  lemma GrowStep(c: Config, m: Memory, b: Ledger, r: Resource)
    requires Core(c, m, b) && m.prod.PGrow?
    ensures ProducerSafe(c, m) && Core(c, StepProducer(c, m, r), TrackProducer(c, m, b, r))
  {
    if r.Allocate? {
      GrowSuccess(c, m, b, Grow(m.ix), Grown(Current(m.ix), |m.ix.entries|).index[|Current(m.ix).index|]);
    } else {
      ProdOnly(c, m, b, StepProducer(c, m, r));
    }
  }

  // ----- Getting a block and publishing it

  lemma RequestUses(c: Config, m: Memory, b: Ledger, m': Memory, b': Ledger, k: nat)
    requires c.blockSize > 0 && UsesOk(c, m, b) && |b.use| == |m.blocks|
    requires k <= |b.use| && (k < |b.use| ==> b.use[k] == Free && k in m.free)
    requires b' == b.(use := if k < |b.use| then b.use[k := Private] else b.use + [Private])
    requires m.prod.PRequest? && m'.prod == PReset(m.prod.vals, m.prod.got, m.prod.e, k)
    requires m'.cons == m.cons && m'.free == m.free - {k} && m'.abroad == m.abroad
    ensures UsesOk(c, m', b')
  {
    forall x | 0 <= x < |b'.use| ensures UseOk(c, m', b', x) {
      if x < |b.use| { assert UseOk(c, m, b, x); }
    }
  }

  lemma LinksSameUses(ix: Index, b: BlockIndex.Book, entryOf: map<int, nat>, use: seq<Use>, use': seq<Use>)
    requires Shaped(ix) && |b.phase| == |ix.headers| && LinksOk(ix, b, entryOf, use)
    requires |use| <= |use'|
    requires forall k :: 0 <= k < |use| && use[k].Live? ==> use'[k] == use[k]
    requires forall k :: 0 <= k < |use'| && use'[k].Live? ==> k < |use| && use[k] == use'[k]
    ensures LinksOk(ix, b, entryOf, use')
  {
    forall n | n in entryOf ensures LinkOk(ix, b, entryOf, use', n) { assert LinkOk(ix, b, entryOf, use, n); }
    forall k | 0 <= k < |use'| && use'[k].Live? ensures BlockOf(ix, entryOf, use'[k].number) == Some(k) {
      assert BlockOf(ix, entryOf, use[k].number) == Some(k);
    }
  }

  /** The producer's part does not see a block that is not one of its own. */
  lemma ProducerOtherBlocks(c: Config, m: Memory, b: Ledger, m': Memory, b': Ledger)
    requires Sized(c, m, b) && Sized(c, m', b') && ProducerOk(c, m, b)
    requires m'.q == m.q && m'.ix == m.ix && StartBlock(m') == StartBlock(m) && b'.ix == b.ix && b'.entryOf == b.entryOf
    requires GotOf(m'.prod) == GotOf(m.prod) && UndoneOf(m'.prod) == UndoneOf(m.prod) && InsertedOf(m'.prod) == InsertedOf(m.prod)
    requires PhaseOk(c, m', b')
    ensures ProducerOk(c, m', b')
  {
  }

  lemma RequestTakes(c: Config, m: Memory, b: Ledger, k: nat, m': Memory, b': Ledger)
    requires Core(c, m, b) && m.prod.PRequest?
    requires k <= |b.use| && (k < |b.use| ==> k in m.free)
    requires m' == m.(free := m.free - {k}, blocks := m'.blocks, prod := PReset(m.prod.vals, m.prod.got, m.prod.e, k))
    requires b' == b.(use := if k < |b.use| then b.use[k := Private] else b.use + [Private])
    requires m'.blocks == if k < |b.use| then m.blocks else m.blocks + [Block(seq(c.blockSize, _ => None), 0, None)]
    ensures Core(c, m', b')
  {
    LinksSameUses(m.ix, b.ix, b.entryOf, b.use, b'.use);
    ProducerLeavesConsumers(c, m, b, m', b');
    ContentsFrame(c, m, b, m', b');
    RequestUses(c, m, b, m', b', k);
    ProducerOtherBlocks(c, m, b, m', b');
  }

  lemma RequestStep(c: Config, m: Memory, b: Ledger, r: Resource)
    requires Core(c, m, b) && m.prod.PRequest?
    ensures ProducerSafe(c, m) && Core(c, StepProducer(c, m, r), TrackProducer(c, m, b, r))
  {
    if r.FromPool? && r.block in m.free {
      RequestTakes(c, m, b, r.block, StepProducer(c, m, r), TrackProducer(c, m, b, r));
    } else if r.Allocate? {
      assert m.free - {|m.blocks|} == m.free;
      RequestTakes(c, m, b, |m.blocks|, StepProducer(c, m, r), TrackProducer(c, m, b, r));
    } else {
      ProdOnly(c, m, b, StepProducer(c, m, r));
    }
  }
}
