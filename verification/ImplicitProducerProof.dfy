/** Every step of the implicit producer keeps its invariant. */
module ImplicitProducerProof {
  import opened Wrappers
  import opened Bits
  import opened BlockIndex
  import opened BlockNumbers
  import opened ImplicitProducer
  import opened ImplicitProducerInvariant
  import Claims = OptimisticDequeue

  // ----- Published blocks

  /** The published blocks are exactly those that hold an index below the tail. */
  lemma BaseFacts(i: int, tail: int, blockSize: nat)
    requires blockSize > 0 && i < tail
    ensures Num(i, blockSize) < FirstNew(tail, blockSize)
  {
    NumMono(i, tail - 1, blockSize);
  }

  lemma BaseNonnegative(tail: int, blockSize: nat)
    requires blockSize > 0 && tail >= 0
    ensures FirstNew(tail, blockSize) >= 0
    ensures FirstNew(tail, blockSize) * blockSize >= tail
  {
    NumFacts(tail - 1, blockSize);
    NumMono(-1, tail - 1, blockSize);
    NumUnique(-1, -1, blockSize);
    assert (Num(tail - 1, blockSize) + 1) * blockSize == Num(tail - 1, blockSize) * blockSize + blockSize;
  }

  // ----- Counting

  lemma {:induction false} CountFrame(done: set<int>, more: set<int>, lo: int, n: nat)
    requires forall i :: lo <= i < lo + n ==> (i in done <==> i in more)
    ensures CountDone(done, lo, n) == CountDone(more, lo, n)
  {
    if n > 0 { CountFrame(done, more, lo, n - 1); }
  }

  lemma {:induction false} CountAll(done: set<int>, lo: int, n: nat)
    ensures CountDone(done, lo, n) == n <==> forall i :: lo <= i < lo + n ==> i in done
  {
    if n > 0 { CountAll(done, lo, n - 1); }
  }

  lemma {:induction false} CountNone(done: set<int>, lo: int, n: nat)
    requires forall i :: lo <= i < lo + n ==> i !in done
    ensures CountDone(done, lo, n) == 0
  {
    if n > 0 { CountNone(done, lo, n - 1); }
  }

  /** Counting the chunk a .. z adds its length to the count of the block around it. */
  lemma {:induction false} CountChunk(done: set<int>, lo: int, n: nat, a: int, z: int)
    requires lo <= a <= z <= lo + n && forall i :: a <= i < z ==> i !in done
    ensures CountDone(done + Range(a, z), lo, n) == CountDone(done, lo, n) + (z - a)
  {
    if n > 0 {
      if z == lo + n && a < z {
        CountChunk(done, lo, n - 1, a, z - 1);
        assert done + Range(a, z) == done + Range(a, z - 1) + {z - 1};
        CountFrame(done + Range(a, z), done + Range(a, z - 1), lo, n - 1);
      } else if z == lo + n {
        CountFrame(done + Range(a, z), done, lo, n);
      } else {
        CountChunk(done, lo, n - 1, a, z);
      }
    }
  }

  /** A block with an index that is not counted is not full. */
  lemma NotAllDone(done: set<int>, i: int, blockSize: nat)
    requires blockSize > 0 && i !in done
    ensures DoneIn(done, Num(i, blockSize), blockSize) < blockSize
  {
    NumFacts(i, blockSize);
    CountAll(done, Num(i, blockSize) * blockSize, blockSize);
  }

  // ----- What a step must leave alone for a consumer that does not take it

  /** Blocks that hold an index of consumer t which is not counted yet, and the block it has just filled up. */
  ghost predicate Pinned(c: Config, m: Memory, b: Ledger, t: nat, n: int)
    requires c.blockSize > 0 && t < |m.cons| == |m.q.pc| && m.q.pc[t].Holding?
  {
    || (exists i :: m.q.pc[t].first <= i < End(m, t) && i !in b.done && n == Num(i, c.blockSize))
    || (m.cons[t].CNull? && n == Num(m.cons[t].cur - 1, c.blockSize))
  }

  /** The index only gains headers, and keys once set stay set. */
  ghost predicate IndexGrows(ix: Index, b: BlockIndex.Book, ix': Index, b': BlockIndex.Book)
    requires Shaped(ix) && |b.phase| == |ix.headers|
  {
    && Shaped(ix') && |b'.phase| == |ix'.headers| >= |ix.headers| && |ix.entries| <= |ix'.entries|
    && (forall h :: 0 <= h < |ix.headers| ==> ix'.headers[h].index == ix.headers[h].index && b'.phase[h] == b.phase[h])
    && (forall e :: 0 <= e < |ix.entries| && ix.entries[e].key.Some? ==> ix'.entries[e].key.Some?)
  }

  ghost predicate KeepsNumber(m: Memory, b: Ledger, m': Memory, b': Ledger, n: int) {
    n in b.entryOf ==>
      n in b'.entryOf && b'.entryOf[n] == b.entryOf[n] && BlockOf(m'.ix, b'.entryOf, n) == BlockOf(m.ix, b.entryOf, n)
  }

  lemma ShowsFrame(c: Config, m: Memory, b: Ledger, m': Memory, b': Ledger, h: nat, lo: int, hi: int)
    requires Sized(c, m, b) && Sized(c, m', b') && IndexGrows(m.ix, b.ix, m'.ix, b'.ix)
    requires Shows(c, m, b, h, lo, hi)
    requires forall i :: lo <= i < hi ==> KeepsNumber(m, b, m', b', Num(i, c.blockSize))
    ensures Shows(c, m', b', h, lo, hi)
  {
    forall i | lo <= i < hi ensures ShowsNumber(m', b', h, Num(i, c.blockSize)) {
      assert ShowsNumber(m, b, h, Num(i, c.blockSize)) && KeepsNumber(m, b, m', b', Num(i, c.blockSize));
    }
  }

  lemma InHandFrame(m: Memory, b: Ledger, m': Memory, b': Ledger, h: nat, slot: nat, e: nat, k: nat, n: int)
    requires Shaped(m.ix) && |b.ix.phase| == |m.ix.headers| && IndexGrows(m.ix, b.ix, m'.ix, b'.ix)
    requires InHand(m, b, h, slot, e, k, n) && KeepsNumber(m, b, m', b', n)
    ensures InHand(m', b', h, slot, e, k, n)
  {
  }

  /** What the steps of others do to consumer t's holdings: nothing. */
  ghost predicate LeavesAlone(c: Config, m: Memory, b: Ledger, m': Memory, b': Ledger, t: nat)
    requires Sized(c, m, b) && Sized(c, m', b') && t < |m.cons| == |m'.cons|
  {
    && m'.cons[t] == m.cons[t] && m'.out[t] == m.out[t]
    && (if m.cons[t].CNone? then !m'.q.pc[t].Holding? else m'.q.pc[t] == m.q.pc[t])
    && IndexGrows(m.ix, b.ix, m'.ix, b'.ix) && b.items <= b'.items
    && (!m.cons[t].CNone? && m.q.pc[t].Holding? ==>
      && (forall i :: m.q.pc[t].first <= i < End(m, t) ==> (i in b'.taken <==> i in b.taken))
      && (forall i :: m.q.pc[t].first <= i < End(m, t) ==> (i in b'.done <==> i in b.done))
      && (forall n :: Pinned(c, m, b, t, n) ==> KeepsNumber(m, b, m', b', n))
      && (m.cons[t].CFree? ==> m.cons[t].block < |b'.use| && b'.use[m.cons[t].block] == Draining(t))
      && (m.cons[t].CNull? ==> DoneIn(b'.done, Num(m.cons[t].cur - 1, c.blockSize), c.blockSize) == c.blockSize))
  }

  lemma ConsumerFrame(c: Config, m: Memory, b: Ledger, m': Memory, b': Ledger, t: nat)
    requires Sized(c, m, b) && Sized(c, m', b') && t < |m.cons| == |m'.cons| && ConsumerOk(c, m, b, t)
    requires LeavesAlone(c, m, b, m', b', t) && b.done <= b.taken
    ensures ConsumerOk(c, m', b', t)
  {
    if !m.cons[t].CNone? {
      var first, end, cur := m.q.pc[t].first, End(m, t), Cur(m, t);
      forall i | cur <= i < end ensures KeepsNumber(m, b, m', b', Num(i, c.blockSize)) {
        assert i !in b.done;
        assert Pinned(c, m, b, t, Num(i, c.blockSize));
      }
      match m.cons[t]
      case CHeader =>
      case CTail(h) => ShowsFrame(c, m, b, m', b', h, cur, end);
      case CBase(h, _) => ShowsFrame(c, m, b, m', b', h, cur, end);
      case CLoad(_, h, _) => ShowsFrame(c, m, b, m', b', h, cur, end);
      case CTake(_, _, h, slot, e, k) =>
        ShowsFrame(c, m, b, m', b', h, cur, end);
        InHandFrame(m, b, m', b', h, slot, e, k, Num(cur, c.blockSize));
      case CCount(lo, _, h, slot, e, k) =>
        ShowsFrame(c, m, b, m', b', h, cur, end);
        assert lo !in b.done && Pinned(c, m, b, t, Num(lo, c.blockSize));
        InHandFrame(m, b, m', b', h, slot, e, k, Num(cur - 1, c.blockSize));
      case CNull(_, h, slot, e, k) =>
        ShowsFrame(c, m, b, m', b', h, cur, end);
        InHandFrame(m, b, m', b', h, slot, e, k, Num(cur - 1, c.blockSize));
      case CFree(_, h, _, _) => ShowsFrame(c, m, b, m', b', h, cur, end);
    }
  }

  // ----- Steps of the producer: what consumers notice

  lemma PinnedIsPublished(c: Config, m: Memory, b: Ledger, t: nat, n: int)
    requires Sized(c, m, b) && |b.items| == m.q.tail && t < |m.cons| && ConsumerOk(c, m, b, t)
    requires m.q.pc[t].Holding? && Pinned(c, m, b, t, n)
    ensures n < Base(c, m)
  {
    if m.cons[t].CNull? && n == Num(m.cons[t].cur - 1, c.blockSize) {
      BaseFacts(m.cons[t].cur - 1, m.q.tail, c.blockSize);
    } else {
      var i :| m.q.pc[t].first <= i < End(m, t) && i !in b.done && n == Num(i, c.blockSize);
      BaseFacts(i, m.q.tail, c.blockSize);
    }
  }

  lemma ProducerLeavesConsumers(c: Config, m: Memory, b: Ledger, m': Memory, b': Ledger)
    requires Sized(c, m, b) && Sized(c, m', b') && |b.items| == m.q.tail && ConsumersOk(c, m, b)
    requires m'.cons == m.cons && m'.out == m.out && m'.q.pc == m.q.pc
    requires b.done <= b.taken && b'.taken == b.taken && b'.done == b.done && b.items <= b'.items
    requires IndexGrows(m.ix, b.ix, m'.ix, b'.ix)
    requires forall n :: n < Base(c, m) ==> KeepsNumber(m, b, m', b', n)
    requires |b.use| <= |b'.use| && forall k :: 0 <= k < |b.use| && b.use[k].Draining? ==> b'.use[k] == b.use[k]
    ensures ConsumersOk(c, m', b')
  {
    forall t | 0 <= t < |m'.cons| ensures ConsumerOk(c, m', b', t) {
      assert ConsumerOk(c, m, b, t);
      if !m.cons[t].CNone? {
        forall n | Pinned(c, m, b, t, n) ensures KeepsNumber(m, b, m', b', n) { PinnedIsPublished(c, m, b, t, n); }
      }
      assert LeavesAlone(c, m, b, m', b', t);
      ConsumerFrame(c, m, b, m', b', t);
    }
  }

  /** The same live blocks with the same contents. */
  lemma ContentsFrame(c: Config, m: Memory, b: Ledger, m': Memory, b': Ledger)
    requires c.blockSize > 0 && |b.items| == m.q.tail && ContentsOk(c, m, b)
    requires m'.q.tail == m.q.tail && m'.q.head == m.q.head
    requires b'.items == b.items && b'.taken == b.taken && b'.done == b.done
    requires forall n :: n in b'.entryOf <==> n in b.entryOf
    requires forall n :: n in b.entryOf ==> BlockOf(m'.ix, b'.entryOf, n) == BlockOf(m.ix, b.entryOf, n)
    requires m.blocks <= m'.blocks
    ensures ContentsOk(c, m', b')
  {
    forall n | n in b'.entryOf ensures CounterOk(c, m', b', n) { assert CounterOk(c, m, b, n); }
    forall i | 0 <= i < m.q.tail && i !in b.taken ensures CellOk(c, m', b', i) { assert CellOk(c, m, b, i); }
  }

  lemma UsesFrame(c: Config, m: Memory, b: Ledger, m': Memory, b': Ledger)
    requires c.blockSize > 0 && UsesOk(c, m, b)
    requires m'.free == m.free && m'.abroad == m.abroad && m'.cons == m.cons && b'.use == b.use && b'.done == b.done
    requires forall k :: 0 <= k < |b.use| && (b.use[k].Private? || b.use[k].Undone?) && UseOk(c, m, b, k) ==> UseOk(c, m', b', k)
    ensures UsesOk(c, m', b')
  {
    forall k | 0 <= k < |b.use| ensures UseOk(c, m', b', k) { assert UseOk(c, m, b, k); }
  }

  /** The producer moves from one access to the next with the same acquired blocks. */
  predicate SameHaul(p: Producing, p': Producing) {
    && InsertedOf(p') == InsertedOf(p) && !Preparing(p)
    && ((GotOf(p') == GotOf(p) && UndoneOf(p') == UndoneOf(p) && FreedOf(p') == FreedOf(p))
        || (p' == PIdle && p.PFree? && p.k == |p.got|))
  }

  /** A step that moves the producer's program counter and its pointers, and nothing else. */
  predicate PointersOnly(m: Memory, m': Memory) {
    m' == m.(prod := m'.prod, local := m'.local, tailBlock := m'.tailBlock) && StartBlock(m') == StartBlock(m)
  }

  lemma ProdOnlyProducer(c: Config, m: Memory, b: Ledger, m': Memory)
    requires Sized(c, m, b) && ProducerOk(c, m, b) && PointersOnly(m, m') && SameHaul(m.prod, m'.prod) && PhaseOk(c, m', b)
    ensures ProducerOk(c, m', b)
  {
  }

  lemma ProdOnlyUses(c: Config, m: Memory, b: Ledger, m': Memory)
    requires Sized(c, m, b) && UsesOk(c, m, b) && PointersOnly(m, m') && SameHaul(m.prod, m'.prod)
    ensures UsesOk(c, m', b)
  {
    UsesFrame(c, m, b, m', b);
  }

  lemma ProdOnly(c: Config, m: Memory, b: Ledger, m': Memory)
    requires Core(c, m, b) && PointersOnly(m, m') && SameHaul(m.prod, m'.prod) && PhaseOk(c, m', b)
    ensures Core(c, m', b)
  {
    ProducerLeavesConsumers(c, m, b, m', b);
    ContentsFrame(c, m, b, m', b);
    ProdOnlyUses(c, m, b, m');
    ProdOnlyProducer(c, m, b, m');
  }

  // ----- The links between numbers, entries and blocks, under the operations on the index

  ghost predicate KeysUpTo(ix: Index, b: BlockIndex.Book, f: int)
    requires Shaped(ix) && |b.phase| == |ix.headers|
  {
    forall k {:trigger EntryAt(ix, b, k)} :: f <= k <= b.high ==> ix.entries[EntryAt(ix, b, k)].key == Some(k)
  }

  lemma LinkInWindow(ix: Index, b: BlockIndex.Book, entryOf: map<int, nat>, use: seq<Use>, n: int)
    requires Coherent(ix, b) && n in entryOf && LinkOk(ix, b, entryOf, use, n)
    ensures b.high - |Current(ix).index| < n
  {
    var cur := Current(ix).index;
    var i := Slot(CurrentPhase(b), n, |cur|);
    assert EntryOk(ix.entries[cur[i]], |cur|, b.high);
  }

  /** Writing the key of the next number to a free entry hides no number from `f` on. */
  lemma KeyKeepsKeys(ix: Index, b: BlockIndex.Book, f: int)
    requires Coherent(ix, b) && KeysUpTo(ix, b, f)
    requires b.high - |Current(ix).index| < f
    requires f == b.count - |Current(ix).index| ==> ix.entries[EntryAt(ix, b, b.count)].key != Some(f)
    ensures KeysUpTo(SetEntry(ix, EntryAt(ix, b, b.count), Entry(Some(b.count), None)),
                     b.(high := if b.count > b.high then b.count else b.high), f)
  {
    var cur, phase, e := Current(ix).index, CurrentPhase(b), EntryAt(ix, b, b.count);
    var high' := if b.count > b.high then b.count else b.high;
    var ix', b' := SetEntry(ix, e, Entry(Some(b.count), None)), b.(high := high');
    forall k {:trigger EntryAt(ix', b', k)} | f <= k <= high' ensures ix'.entries[EntryAt(ix', b', k)].key == Some(k) {
      assert EntryAt(ix', b', k) == EntryAt(ix, b, k);
      if EntryAt(ix, b, k) == e && k != b.count {
        assert ix.entries[e].key == Some(k);
        assert KeysInPlace(cur, phase, ix.entries);
        SameSlotOneLap(phase, k, b.count, |cur|);
      }
    }
  }

  /** Numbers less than two laps apart that share a slot are equal or one lap apart. */
  lemma SameSlotOneLap(phase: int, a: int, z: int, cap: nat)
    requires cap > 0 && Slot(phase, a, cap) == Slot(phase, z, cap) && z - cap <= a < z + cap
    ensures a == z || a == z - cap
  {
    if a != z - cap { SlotUnique(phase, a, z, cap); }
  }

  lemma KeyKeepsLink(ix: Index, b: BlockIndex.Book, entryOf: map<int, nat>, use: seq<Use>, n: int)
    requires Coherent(ix, b) && n in entryOf && LinkOk(ix, b, entryOf, use, n)
    requires ix.entries[EntryAt(ix, b, b.count)].value.None?
    ensures var ix' := SetEntry(ix, EntryAt(ix, b, b.count), Entry(Some(b.count), None));
      Shaped(ix') && LinkOk(ix', b.(high := if b.count > b.high then b.count else b.high), entryOf, use, n)
  {
    var ix' := SetEntry(ix, EntryAt(ix, b, b.count), Entry(Some(b.count), None));
    var b' := b.(high := if b.count > b.high then b.count else b.high);
    LinkInWindow(ix, b, entryOf, use, n);
    SlotPeriod(CurrentPhase(b), b.count, |Current(ix).index|);
    KeyKeepsKeys(ix, b, n);
    assert KeysUpTo(ix', b', n);
    assert EntryAt(ix', b', n) == EntryAt(ix, b, n);
  }

  lemma KeyKeepsLinks(ix: Index, b: BlockIndex.Book, entryOf: map<int, nat>, use: seq<Use>)
    requires Coherent(ix, b) && LinksOk(ix, b, entryOf, use)
    requires ix.entries[EntryAt(ix, b, b.count)].value.None?
    requires Shaped(SetEntry(ix, EntryAt(ix, b, b.count), Entry(Some(b.count), None)))
    ensures LinksOk(SetEntry(ix, EntryAt(ix, b, b.count), Entry(Some(b.count), None)),
                    b.(high := if b.count > b.high then b.count else b.high), entryOf, use)
  {
    var e := EntryAt(ix, b, b.count);
    var ix', b' := SetEntry(ix, e, Entry(Some(b.count), None)), b.(high := if b.count > b.high then b.count else b.high);
    forall n | n in entryOf ensures LinkOk(ix', b', entryOf, use, n) {
      assert LinkOk(ix, b, entryOf, use, n);
      KeyKeepsLink(ix, b, entryOf, use, n);
    }
    forall x | 0 <= x < |ix'.entries| ensures EntryLinked(ix'.entries[x], x, entryOf) {
      assert EntryLinked(ix.entries[x], x, entryOf);
    }
    forall k | 0 <= k < |use| && use[k].Live? ensures BlockOf(ix', entryOf, use[k].number) == Some(k) {
      assert BlockOf(ix, entryOf, use[k].number) == Some(k);
      assert LinkOk(ix, b, entryOf, use, use[k].number);
    }
  }

  lemma LiveEntry(ix: Index, b: BlockIndex.Book, entryOf: map<int, nat>, use: seq<Use>, n: int)
    requires Shaped(ix) && |b.phase| == |ix.headers| && LinksOk(ix, b, entryOf, use) && n in entryOf
    ensures entryOf[n] == EntryAt(ix, b, n) && ix.entries[EntryAt(ix, b, n)].value.Some?
  {
    assert LinkOk(ix, b, entryOf, use, n);
  }

  /** Moving the tail moves no entry. */
  lemma TailKeepsEntryAt(ix: Index, b: BlockIndex.Book, tail: nat, count: nat)
    requires Shaped(ix) && |b.phase| == |ix.headers| && tail < |Current(ix).index|
    ensures Shaped(SetTail(ix, tail)) && |SetTail(ix, tail).headers| == |ix.headers|
    ensures forall k :: EntryAt(SetTail(ix, tail), b.(count := count), k) == EntryAt(ix, b, k)
  {
    var ix' := SetTail(ix, tail);
    forall h | 0 <= h < |ix'.headers| ensures HeaderFits(ix'.headers[h], |ix.entries|) {
      assert HeaderFits(ix.headers[h], |ix.entries|);
    }
    assert Current(ix').index == Current(ix).index;
  }

  lemma TailKeepsLinks(ix: Index, b: BlockIndex.Book, entryOf: map<int, nat>, use: seq<Use>, tail: nat, count: nat)
    requires Shaped(ix) && |b.phase| == |ix.headers| && LinksOk(ix, b, entryOf, use) && tail < |Current(ix).index|
    ensures Shaped(SetTail(ix, tail)) && LinksOk(SetTail(ix, tail), b.(count := count), entryOf, use)
  {
    var ix', b' := SetTail(ix, tail), b.(count := count);
    TailKeepsEntryAt(ix, b, tail, count);
    forall n | n in entryOf ensures LinkOk(ix', b', entryOf, use, n) {
      assert LinkOk(ix, b, entryOf, use, n);
      forall k {:trigger EntryAt(ix', b', k)} | n <= k <= b.high ensures ix'.entries[EntryAt(ix', b', k)].key == Some(k) {
        assert EntryAt(ix', b', k) == EntryAt(ix, b, k);
      }
    }
  }

  lemma GrowKeepsEntryAt(ix: Index, b: BlockIndex.Book, k: int)
    requires Coherent(ix, b) && b.high == b.count - 1 && b.high - |Current(ix).index| < k <= b.high
    requires Shaped(Grow(ix))
    ensures EntryAt(Grow(ix), b.(phase := b.phase + [|Current(ix).index| - b.count]), k) == EntryAt(ix, b, k)
  {
    var cap := |Current(ix).index|;
    GrownSlot(ix, b, k);
    SlotInRange(cap - b.count, k, 2 * cap);
    assert Current(Grow(ix)) == Grown(Current(ix), |ix.entries|);
  }

  lemma GrowKeepsKeys(ix: Index, b: BlockIndex.Book, f: int)
    requires Coherent(ix, b) && b.high == b.count - 1 && b.high - |Current(ix).index| < f && KeysUpTo(ix, b, f)
    requires Shaped(Grow(ix))
    ensures KeysUpTo(Grow(ix), b.(phase := b.phase + [|Current(ix).index| - b.count]), f)
  {
    var ix', b' := Grow(ix), b.(phase := b.phase + [|Current(ix).index| - b.count]);
    forall k {:trigger EntryAt(ix', b', k)} | f <= k <= b.high ensures ix'.entries[EntryAt(ix', b', k)].key == Some(k) {
      GrowKeepsEntryAt(ix, b, k);
    }
  }

  lemma GrowKeepsLinks(ix: Index, b: BlockIndex.Book, entryOf: map<int, nat>, use: seq<Use>)
    requires Coherent(ix, b) && b.high == b.count - 1 && LinksOk(ix, b, entryOf, use)
    requires Shaped(Grow(ix))
    ensures LinksOk(Grow(ix), b.(phase := b.phase + [|Current(ix).index| - b.count]), entryOf, use)
  {
    var ix', b' := Grow(ix), b.(phase := b.phase + [|Current(ix).index| - b.count]);
    forall n | n in entryOf ensures LinkOk(ix', b', entryOf, use, n) {
      assert LinkOk(ix, b, entryOf, use, n);
      LinkInWindow(ix, b, entryOf, use, n);
      assert KeysUpTo(ix, b, n);
      GrowKeepsEntryAt(ix, b, n);
      GrowKeepsKeys(ix, b, n);
      assert KeysUpTo(ix', b', n);
    }
    forall x | 0 <= x < |ix'.entries| ensures EntryLinked(ix'.entries[x], x, entryOf) {
      if x < |ix.entries| { assert EntryLinked(ix.entries[x], x, entryOf); }
    }
  }

  lemma PublishKeepsLinks(ix: Index, b: BlockIndex.Book, entryOf: map<int, nat>, use: seq<Use>, k: nat)
    requires Coherent(ix, b) && LinksOk(ix, b, entryOf, use) && b.count > 0
    requires KeysUpTo(ix, b, b.count - 1)
    requires ix.entries[EntryAt(ix, b, b.count - 1)] == Entry(Some(b.count - 1), None)
    requires k < |use| && !use[k].Live?
    ensures b.count - 1 !in entryOf
    ensures var e, n := EntryAt(ix, b, b.count - 1), b.count - 1;
      LinksOk(SetEntry(ix, e, ix.entries[e].(value := Some(k))), b, entryOf[n := e], use[k := Live(n)])
  {
    var e, n := EntryAt(ix, b, b.count - 1), b.count - 1;
    var ix', entryOf', use' := SetEntry(ix, e, ix.entries[e].(value := Some(k))), entryOf[n := e], use[k := Live(n)];
    if n in entryOf { LiveEntry(ix, b, entryOf, use, n); }
    forall x | x in entryOf' ensures LinkOk(ix', b, entryOf', use', x) {
      if x != n { assert LinkOk(ix, b, entryOf, use, x); }
      forall j {:trigger EntryAt(ix', b, j)} | x <= j <= b.high ensures ix'.entries[EntryAt(ix', b, j)].key == Some(j) {
        assert EntryAt(ix', b, j) == EntryAt(ix, b, j);
      }
    }
    forall x | 0 <= x < |ix'.entries| ensures EntryLinked(ix'.entries[x], x, entryOf') {
      assert EntryLinked(ix.entries[x], x, entryOf);
    }
    forall x | 0 <= x < |use'| && use'[x].Live? ensures BlockOf(ix', entryOf', use'[x].number) == Some(x) {
      if x != k {
        assert BlockOf(ix, entryOf, use[x].number) == Some(x);
        assert LinkOk(ix, b, entryOf, use, use[x].number);
      }
    }
  }

  /** Nulling out the entry of a live number, and giving its block another use. */
  lemma ClearKeepsLinks(ix: Index, b: BlockIndex.Book, entryOf: map<int, nat>, use: seq<Use>, n: int, k: nat, u: Use)
    requires Coherent(ix, b) && LinksOk(ix, b, entryOf, use)
    requires n in entryOf && BlockOf(ix, entryOf, n) == Some(k) && k < |use| && !u.Live?
    ensures var e := entryOf[n];
      e < |ix.entries| && LinksOk(SetEntry(ix, e, ix.entries[e].(value := None)), b, entryOf - {n}, use[k := u])
    ensures forall x :: x != n ==>
      BlockOf(SetEntry(ix, entryOf[n], ix.entries[entryOf[n]].(value := None)), entryOf - {n}, x) == BlockOf(ix, entryOf, x)
  {
    var e := entryOf[n];
    var ix', entryOf', use' := SetEntry(ix, e, ix.entries[e].(value := None)), entryOf - {n}, use[k := u];
    assert LinkOk(ix, b, entryOf, use, n);
    forall x | x in entryOf' ensures LinkOk(ix', b, entryOf', use', x) {
      assert LinkOk(ix, b, entryOf, use, x);
      assert EntryLinked(ix.entries[entryOf[x]], entryOf[x], entryOf);
      forall j {:trigger EntryAt(ix', b, j)} | x <= j <= b.high ensures ix'.entries[EntryAt(ix', b, j)].key == Some(j) {
        assert EntryAt(ix', b, j) == EntryAt(ix, b, j);
      }
    }
    forall x | 0 <= x < |ix'.entries| ensures EntryLinked(ix'.entries[x], x, entryOf') {
      assert EntryLinked(ix.entries[x], x, entryOf);
    }
    forall x | x != n ensures BlockOf(ix', entryOf', x) == BlockOf(ix, entryOf, x) {
      if x in entryOf { assert LinkOk(ix, b, entryOf, use, x); }
    }
    forall x | 0 <= x < |use'| && use'[x].Live? ensures BlockOf(ix', entryOf', use'[x].number) == Some(x) {
      assert BlockOf(ix, entryOf, use[x].number) == Some(x);
    }
  }
}
