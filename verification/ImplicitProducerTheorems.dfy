/** What the invariant of the implicit producer means to its users, for every run. */
module ImplicitProducerTheorems {
  import opened Wrappers
  import opened Bits
  import opened BlockIndex
  import opened BlockNumbers
  import opened ImplicitProducer
  import opened ImplicitProducerInvariant
  import opened ImplicitProducerProof
  import opened ImplicitProducerSteps
  import opened ImplicitProducerBlocks
  import opened ImplicitProducerWrites
  import opened ImplicitProducerChain
  import opened ImplicitProducerConsumers
  import opened ImplicitProducerRecycling
  import opened ImplicitProducerRuns
  import Claims = OptimisticDequeue

  // ----- Elements

  /** The elements of the enqueues that have returned true, in order: the stores of tailIndex publish them. */
  function Accepted(c: Config, s: State, run: seq<Action>): seq<nat>
    requires Sensible(s)
  {
    if run == [] then [] else
    var p, a := Execute(c, s, run[..|run|-1]), run[|run|-1];
    Accepted(c, s, run[..|run|-1]) + if Enabled(c, p.m, a) && a.Produce? && p.m.prod.PStore? then p.m.prod.vals else []
  }

  lemma {:induction false} ItemsAreAccepted(c: Config, s: State, cap: nat, run: seq<Action>)
    requires Initial(c, s, cap)
    ensures Sensible(s) && Execute(c, s, run).b.items == Accepted(c, s, run)
  {
    if run != [] {
      ItemsAreAccepted(c, s, cap, run[..|run|-1]);
      var p, a := Execute(c, s, run[..|run|-1]), run[|run|-1];
      RunKeepsInv(c, s, cap, run[..|run|-1]);
      ItemsOfStep(c, p, a);
    }
  }

  lemma ItemsOfStep(c: Config, p: State, a: Action)
    requires Inv(c, p.m, p.b) && Sensible(p)
    ensures Perform(c, p, a).b.items ==
      p.b.items + if Enabled(c, p.m, a) && a.Produce? && p.m.prod.PStore? then p.m.prod.vals else []
  {
  }

  /** Call k, if it is finished, has returned the accepted elements at the indices of its claim. */
  predicate InOrder(p: State, accepted: seq<nat>, k: nat) {
    && p.m.q.tail == |accepted|
    && (k in p.log ==> k < |p.b.q.claims| && var i := p.b.q.claims[k];
          0 <= i.first < i.first + i.count <= |accepted| && p.log[k] == accepted[i.first..i.first + i.count])
  }

  lemma LogInOrder(c: Config, p: State, k: nat)
    requires Inv(c, p.m, p.b) && LogOk(p)
    ensures InOrder(p, p.b.items, k)
  {
    if k in p.log { assert Delivered(p, k); }
  }

  /** A queue: the indices below headIndex are partitioned into claims, numbered in the order in which they were made,
      and each finished call has returned the elements accepted at the indices of its claim. */
  lemma DeliveredInOrder(c: Config, s: State, cap: nat, run: seq<Action>, k: nat)
    requires Initial(c, s, cap)
    ensures Sensible(s)
    ensures Claims.ClaimsOk(Execute(c, s, run).m.q.head, Execute(c, s, run).b.q.claims)
    ensures InOrder(Execute(c, s, run), Accepted(c, s, run), k)
  {
    RunKeepsInv(c, s, cap, run);
    ItemsAreAccepted(c, s, cap, run);
    LogInOrder(c, Execute(c, s, run), k);
  }

  /** Element i was returned by call k, and by no other. */
  ghost predicate ReturnedBy(p: State, i: int, k: nat) {
    && 0 <= i < |p.b.items| && k < |p.b.q.claims| && Claims.Within(i, p.b.q.claims[k]) && k in p.log
    && 0 <= i - p.b.q.claims[k].first < |p.log[k]| && p.log[k][i - p.b.q.claims[k].first] == p.b.items[i]
    && forall j :: 0 <= j < |p.b.q.claims| && Claims.Within(i, p.b.q.claims[j]) ==> j == k
  }

  lemma FinishedClaim(p: State, i: int)
    requires LogOk(p) && Claims.ClaimsOk(p.m.q.head, p.b.q.claims) && 0 <= i < p.m.q.head
    requires forall t :: 0 <= t < |p.m.q.pc| ==> !p.m.q.pc[t].Holding?
    ensures exists k :: ReturnedBy(p, i, k)
  {
    Claims.ClaimsCover(p.m.q.head, p.b.q.claims, i);
    var k :| 0 <= k < |p.b.q.claims| && Claims.Within(i, p.b.q.claims[k]);
    assert Delivered(p, k);
    forall j | 0 <= j < |p.b.q.claims| && Claims.Within(i, p.b.q.claims[j]) ensures j == k {
      if j < k { Claims.ClaimsInOrder(p.m.q.head, p.b.q.claims, j, k); }
      if k < j { Claims.ClaimsInOrder(p.m.q.head, p.b.q.claims, k, j); }
    }
    assert ReturnedBy(p, i, k);
  }

  /** Once no consumer holds a claim any more, every element below headIndex has been returned by exactly one call. */
  lemma EachElementOnce(c: Config, s: State, cap: nat, run: seq<Action>, i: int)
    requires Initial(c, s, cap) && Sensible(s)
    requires var m := Execute(c, s, run).m; 0 <= i < m.q.head && forall t :: 0 <= t < |m.q.pc| ==> !m.q.pc[t].Holding?
    ensures exists k :: ReturnedBy(Execute(c, s, run), i, k)
    ensures Execute(c, s, run).b.items == Accepted(c, s, run)
  {
    RunKeepsInv(c, s, cap, run);
    ItemsAreAccepted(c, s, cap, run);
    FinishedClaim(Execute(c, s, run), i);
  }

  // ----- No bad pointer

  /** No access of the producer or of a consumer ever goes through a null or dangling pointer, or reads a cell that
      holds no element. */
  lemma EveryAccessIsSafe(c: Config, s: State, cap: nat, run: seq<Action>, t: nat)
    requires Initial(c, s, cap)
    ensures Sensible(s)
    ensures var m := Execute(c, s, run).m;
      && (!m.prod.PIdle? ==> ProducerSafe(c, m))
      && (t < |m.cons| && (m.cons[t].CNone? ==> Claims.Enabled(m.q, t, Claims.Advance)) ==> ConsumerSafe(c, m, t))
  {
    RunKeepsInv(c, s, cap, run);
    var p := Execute(c, s, run);
    if !p.m.prod.PIdle? { ProducerStep(c, p.m, p.b, Nothing); }
    if t < |p.m.cons| && (p.m.cons[t].CNone? ==> Claims.Enabled(p.m.q, t, Claims.Advance)) {
      ConsumerStep(c, p.m, p.b, t);
    }
  }

  // ----- The index

  /** get_block_index_index_for_index on the current header, for any element not yet dequeued: its slot shows the
      number of its block, and a block that holds it. */
  lemma LookupFindsBlock(c: Config, m: Memory, b: Ledger, i: int)
    requires Inv(c, m, b) && 0 <= i < m.q.tail && i !in b.done
    ensures var cur := Current(m.ix);
      && m.ix.entries[cur.index[cur.tail]].key.Some?
      && var slot := SlotFor(cur.tail, m.ix.entries[cur.index[cur.tail]].key.value, Num(i, c.blockSize), |cur.index|);
      && var entry := m.ix.entries[cur.index[slot]];
      && entry.key == Some(Num(i, c.blockSize)) && entry.value.Some? && entry.value.value < |m.blocks|
      && (i !in b.taken ==> m.blocks[entry.value.value].cells[Off(i, c.blockSize)] == Some(b.items[i]))
  {
    var cur, n := Current(m.ix), Num(i, c.blockSize);
    CurrentShows(c, m, b, i, i + 1);
    assert ShowsNumber(m, b, |m.ix.headers| - 1, n);
    BaseFacts(i, m.q.tail, c.blockSize);
    assert LinkOk(m.ix, b.ix, b.entryOf, b.use, n);
    TailKeyIsSet(m.ix, b.ix, b.entryOf, b.use, n);
    LookupFindsSlot(CurrentPhase(b.ix), cur.tail, b.ix.count - 1, n, |cur.index|);
    if i !in b.taken { assert CellOk(c, m, b, i); }
  }

  lemma LookupInRun(c: Config, s: State, cap: nat, run: seq<Action>, i: int)
    requires Initial(c, s, cap) && Sensible(s)
    requires 0 <= i < Execute(c, s, run).m.q.tail && i !in Execute(c, s, run).b.done
    ensures var m := Execute(c, s, run).m;
      && Shaped(m.ix) && c.blockSize > 0 && m.ix.entries[Current(m.ix).index[Current(m.ix).tail]].key.Some?
      && var cur := Current(m.ix);
      && var slot := SlotFor(cur.tail, m.ix.entries[cur.index[cur.tail]].key.value, Num(i, c.blockSize), |cur.index|);
      && m.ix.entries[cur.index[slot]].key == Some(Num(i, c.blockSize)) && m.ix.entries[cur.index[slot]].value.Some?
  {
    RunKeepsInv(c, s, cap, run);
    LookupFindsBlock(c, Execute(c, s, run).m, Execute(c, s, run).b, i);
  }

  /** The slot that consumer t computed, read now: the block of its next element, with the element in its cell. */
  predicate SlotHolds(c: Config, m: Memory, p: Consuming, items: seq<nat>)
    requires p.CLoad?
  {
    && c.blockSize > 0 && p.header < |m.ix.headers| && p.slot < |m.ix.headers[p.header].index| && 0 <= p.cur < |items|
    && m.ix.headers[p.header].index[p.slot] < |m.ix.entries|
    && var entry := m.ix.entries[m.ix.headers[p.header].index[p.slot]];
    && entry.key == Some(Num(p.cur, c.blockSize)) && entry.value.Some? && entry.value.value < |m.blocks|
    && Off(p.cur, c.blockSize) < |m.blocks[entry.value.value].cells|
    && m.blocks[entry.value.value].cells[Off(p.cur, c.blockSize)] == Some(items[p.cur])
  }

  /** A consumer that looks its block up through loads it made at different times, with blocks inserted, rewound and
      nulled out and the index doubled in between, still finds its block. */
  lemma StaleLookup(c: Config, s: State, cap: nat, run: seq<Action>, t: nat)
    requires Initial(c, s, cap) && Sensible(s)
    requires t < |Execute(c, s, run).m.cons| && Execute(c, s, run).m.cons[t].CLoad?
    ensures SlotHolds(c, Execute(c, s, run).m, Execute(c, s, run).m.cons[t], Accepted(c, s, run))
  {
    RunKeepsInv(c, s, cap, run);
    ItemsAreAccepted(c, s, cap, run);
    var m, b := Execute(c, s, run).m, Execute(c, s, run).b;
    assert ConsumerOk(c, m, b, t);
    var p := m.cons[t];
    assert HeaderFits(m.ix.headers[p.header], |m.ix.entries|);
    assert ShowsNumber(m, b, p.header, Num(p.cur, c.blockSize));
    assert LinkOk(m.ix, b.ix, b.entryOf, b.use, Num(p.cur, c.blockSize));
    assert CellOk(c, m, b, p.cur);
  }

  // ----- Blocks

  /** Where a block can be. */
  datatype Place = Pool | Requisitioned | InIndex(e: nat) | RolledBack(j: nat) | Recycling(t: nat) | WithOthers

  predicate At(m: Memory, k: nat, p: Place) {
    match p
    case Pool => k in m.free
    case Requisitioned => Preparing(m.prod) && m.prod.block == k
    case InIndex(e) => e < |m.ix.entries| && m.ix.entries[e].value == Some(k)
    case RolledBack(j) =>
      j < UndoneOf(m.prod) && j < |GotOf(m.prod)| && GotOf(m.prod)[j] == k && FreedOf(m.prod) <= j
    case Recycling(t) => t < |m.cons| && m.cons[t].CFree? && m.cons[t].block == k
    case WithOthers => k in m.abroad
  }

  /** The use that the bookkeeping gives to a block at this place. */
  lemma PlaceIsUse(c: Config, m: Memory, b: Ledger, k: nat, p: Place)
    requires Inv(c, m, b) && At(m, k, p)
    ensures k < |b.use|
    ensures match p
      case Pool => b.use[k] == Free
      case Requisitioned => b.use[k] == Private
      case InIndex(e) => b.use[k].Live? && b.use[k].number in b.entryOf && b.entryOf[b.use[k].number] == e
      case RolledBack(j) => b.use[k] == Undone(j)
      case Recycling(t) => b.use[k] == Draining(t)
      case WithOthers => b.use[k] == Abroad
  {
    match p
    case InIndex(e) =>
      assert EntryLinked(m.ix.entries[e], e, b.entryOf);
      assert LinkOk(m.ix, b.ix, b.entryOf, b.use, m.ix.entries[e].key.value);
    case Recycling(t) => assert ConsumerOk(c, m, b, t);
    case _ =>
  }

  function UsePlace(b: Ledger, k: nat): Place
    requires k < |b.use|
  {
    match b.use[k]
    case Free => Pool
    case Private => Requisitioned
    case Live(n) => InIndex(if n in b.entryOf then b.entryOf[n] else 0)
    case Undone(j) => RolledBack(j)
    case Draining(t) => Recycling(t)
    case Abroad => WithOthers
  }

  lemma UseIsPlace(c: Config, m: Memory, b: Ledger, k: nat)
    requires Inv(c, m, b) && k < |b.use|
    ensures At(m, k, UsePlace(b, k))
  {
    assert UseOk(c, m, b, k);
    if b.use[k].Live? { assert BlockOf(m.ix, b.entryOf, b.use[k].number) == Some(k); }
  }

  /** Every block is always in exactly one place: the pool, the hands of its requisitioner, one entry of the index,
      a rollback on its way back, a consumer on its way back, or another producer. */
  lemma OnePlacePerBlock(c: Config, s: State, cap: nat, run: seq<Action>, k: nat)
    requires Initial(c, s, cap) && Sensible(s) && k < |Execute(c, s, run).m.blocks|
    ensures exists p :: At(Execute(c, s, run).m, k, p) && forall q :: At(Execute(c, s, run).m, k, q) ==> q == p
  {
    RunKeepsInv(c, s, cap, run);
    var m, b := Execute(c, s, run).m, Execute(c, s, run).b;
    var p := UsePlace(b, k);
    UseIsPlace(c, m, b, k);
    forall q | At(m, k, q) ensures q == p { PlaceIsUse(c, m, b, k, q); }
  }

  /** When no call is running, no block is in transit: a failed enqueue has given back every block it acquired. */
  lemma IdleHoldsNoBlock(c: Config, s: State, cap: nat, run: seq<Action>, k: nat, p: Place)
    requires Initial(c, s, cap) && Sensible(s) && At(Execute(c, s, run).m, k, p)
    requires var m := Execute(c, s, run).m; m.prod.PIdle? && forall t :: 0 <= t < |m.cons| ==> m.cons[t].CNone?
    ensures p.Pool? || p.InIndex? || p.WithOthers?
    ensures var m, b := Execute(c, s, run).m, Execute(c, s, run).b;
      p.InIndex? ==> (p.e < |m.ix.entries| && m.ix.entries[p.e].key.Some?
        && c.blockSize > 0 && 0 <= m.ix.entries[p.e].key.value < FirstNew(m.q.tail, c.blockSize))
  {
    RunKeepsInv(c, s, cap, run);
    var m, b := Execute(c, s, run).m, Execute(c, s, run).b;
    PlaceIsUse(c, m, b, k, p);
    if p.InIndex? { assert LinkOk(m.ix, b.ix, b.entryOf, b.use, b.use[k].number); }
  }

  /** The block that consumer t nulls out: still shown by its entry, all its elements moved out and counted, in the hands
      of no other consumer, and not the block that the producer goes on writing to. */
  ghost predicate OwnedAndEmpty(c: Config, m: Memory, b: Ledger, t: nat)
    requires t < |m.cons| && m.cons[t].CNull?
  {
    var k, e := m.cons[t].block, m.cons[t].e;
    && c.blockSize > 0 && e < |m.ix.entries|
    && var n := Num(m.cons[t].cur - 1, c.blockSize);
    && m.ix.entries[e] == Entry(Some(n), Some(k))
    && (forall i :: Num(i, c.blockSize) == n ==> i in b.taken && i in b.done)
    && (forall u :: 0 <= u < |m.cons| && u != t && (m.cons[u].CNull? || m.cons[u].CFree?) ==> m.cons[u].block != k)
    && (Off(m.q.tail, c.blockSize) != 0 ==> StartBlock(m) != Some(k))
  }

  lemma NullerOwnsBlock(c: Config, m: Memory, b: Ledger, t: nat)
    requires Inv(c, m, b) && t < |m.cons| && m.cons[t].CNull?
    ensures OwnedAndEmpty(c, m, b, t)
  {
    var k, n := m.cons[t].block, Num(m.cons[t].cur - 1, c.blockSize);
    assert ConsumerOk(c, m, b, t);
    assert LinkOk(m.ix, b.ix, b.entryOf, b.use, n);
    NulledNumber(c, m, b, t);
    forall i | Num(i, c.blockSize) == n ensures i in b.done {
      NumFacts(i, c.blockSize);
      CountAll(b.done, n * c.blockSize, c.blockSize);
    }
    forall u | 0 <= u < |m.cons| && u != t && m.cons[u].CFree? ensures m.cons[u].block != k {
      assert ConsumerOk(c, m, b, u);
    }
    if Off(m.q.tail, c.blockSize) != 0 && StartBlock(m) == Some(k) {
      FoundIsLive(m.ix, b.ix, b.entryOf, b.use, Num(m.q.tail, c.blockSize));
    }
  }

  /** A consumer sends a block to the pool only when all its elements have been moved out and counted, and then no
      other consumer does; nor is it the block that the producer goes on writing to. */
  lemma RecycledOnceAndEmpty(c: Config, s: State, cap: nat, run: seq<Action>, t: nat)
    requires Initial(c, s, cap) && Sensible(s)
    requires t < |Execute(c, s, run).m.cons| && Execute(c, s, run).m.cons[t].CNull?
    ensures OwnedAndEmpty(c, Execute(c, s, run).m, Execute(c, s, run).b, t)
  {
    RunKeepsInv(c, s, cap, run);
    NullerOwnsBlock(c, Execute(c, s, run).m, Execute(c, s, run).b, t);
  }

  lemma ProducerBringsNewOnly(c: Config, m: Memory, b: Ledger, r: Resource, n: int)
    requires ProducerSafe(c, m) && !m.prod.PIdle? && Shaped(m.ix) && |b.ix.phase| == |m.ix.headers| && HaulOk(c, m, b)
    requires n < Base(c, m) && n !in b.entryOf
    ensures n < Base(c, StepProducer(c, m, r)) && n !in TrackProducer(c, m, b, r).entryOf
  {
    if m.prod.PStore? { NumMono(m.q.tail - 1, m.q.tail + |m.prod.vals| - 1, c.blockSize); }
  }

  lemma ConsumerBringsNone(c: Config, m: Memory, b: Ledger, t: nat)
    requires Claims.Inv(m.q, b.q) && ConsumerSafe(c, m, t)
    ensures StepConsumer(c, m, t).q.tail == m.q.tail && TrackConsumer(c, m, b, t).entryOf.Keys <= b.entryOf.Keys
  {
    if m.cons[t].CNone? { AdvanceTail(m.q, b.q, t); }
  }

  /** Each block number leaves the index at most once: what is gone stays gone. */
  lemma GoneStaysGone(c: Config, m: Memory, b: Ledger, a: Action, n: int)
    requires Inv(c, m, b) && Enabled(c, m, a) && n < Base(c, m) && n !in b.entryOf
    ensures n < Base(c, Step(c, m, a)) && n !in Track(c, m, b, a).entryOf
  {
    match a
    case Produce(r) => ProducerBringsNewOnly(c, m, b, r, n);
    case Consume(t) => ConsumerBringsNone(c, m, b, t);
    case _ =>
  }

  lemma AdvanceTail(q: Claims.Counters, b: Claims.Book, t: nat)
    requires Claims.Inv(q, b) && Claims.Enabled(q, t, Claims.Advance)
    ensures Claims.Step(q, t, Claims.Advance).tail == q.tail
  {
    assert Claims.ThreadOk(q, b, t);
  }

  /** Block k is neither in the pool nor on its way there, nor with another producer. */
  predicate NotRecycled(m: Memory, k: nat) {
    && k !in m.free && k !in m.abroad
    && forall t :: 0 <= t < |m.cons| && (m.cons[t].CNull? || m.cons[t].CFree?) ==> m.cons[t].block != k
  }

  /** A live block is not recycled while there are numbers at or behind it that are not published. */
  lemma LiveNotRecycled(c: Config, m: Memory, b: Ledger, k: nat, n: int)
    requires Core(c, m, b) && k < |b.use| && b.use[k] == Live(n)
    requires n >= Base(c, m) || (Off(m.q.tail, c.blockSize) != 0 && n == Base(c, m) - 1)
    ensures NotRecycled(m, k) && Entry(Some(n), Some(k)) in m.ix.entries
  {
    assert BlockOf(m.ix, b.entryOf, n) == Some(k);
    assert LinkOk(m.ix, b.ix, b.entryOf, b.use, n);
    assert m.ix.entries[b.entryOf[n]] == Entry(Some(n), Some(k));
    forall t | 0 <= t < |m.cons| && (m.cons[t].CNull? || m.cons[t].CFree?) ensures m.cons[t].block != k {
      assert ConsumerOk(c, m, b, t);
      if m.cons[t].CNull? {
        NulledNumber(c, m, b, t);
        if Off(m.q.tail, c.blockSize) != 0 { TailNumber(m.q.tail, c.blockSize); }
      }
    }
  }

  /** The block that the next element goes to is in the index under the element's number, and nowhere else. */
  predicate OwnTarget(c: Config, m: Memory) {
    c.blockSize > 0 && m.prod.PWrite? && Points(m, m.tailBlock) && NotRecycled(m, m.tailBlock.value)
    && Entry(Some(Num(m.q.tail + m.prod.k, c.blockSize)), m.tailBlock) in m.ix.entries
  }

  lemma WriteGoesToOwnBlock(c: Config, m: Memory, b: Ledger)
    requires Inv(c, m, b) && m.prod.PWrite? && m.prod.k < m.prod.stop
    ensures OwnTarget(c, m)
  {
    var n := Num(m.q.tail + m.prod.k, c.blockSize);
    WriteIsSafe(c, m, b);
    if n < Base(c, m) {
      NumMono(m.q.tail, m.q.tail + m.prod.k, c.blockSize);
      NumMono(m.q.tail - 1, m.q.tail, c.blockSize);
      NumStep(m.q.tail - 1, c.blockSize);
    }
    LiveNotRecycled(c, m, b, m.tailBlock.value, n);
  }

  /** Walking along the links, the producer constructs elements only in blocks that are in the index under their
      number, never in a former tail block that consumers have emptied and sent to the pool. */
  lemma WritesOnlyOwnBlocks(c: Config, s: State, cap: nat, run: seq<Action>)
    requires Initial(c, s, cap) && Sensible(s)
    requires var m := Execute(c, s, run).m; m.prod.PWrite? && m.prod.k < m.prod.stop
    ensures OwnTarget(c, Execute(c, s, run).m)
  {
    RunKeepsInv(c, s, cap, run);
    WriteGoesToOwnBlock(c, Execute(c, s, run).m, Execute(c, s, run).b);
  }

  // ----- The links between blocks

  /** newBlock is still the producer's own: not in the index, not in the pool, not with anyone else. */
  predicate OwnNewBlock(m: Memory, k: nat) {
    && k < |m.blocks| && NotRecycled(m, k)
    && forall e :: 0 <= e < |m.ix.entries| ==> m.ix.entries[e].value != Some(k)
  }

  /** tailBlock, when a new block is hung behind it: the block in the index one number before the new one. */
  predicate OwnTail(c: Config, m: Memory) {
    c.blockSize > 0 && m.prod.PLink? && Points(m, m.tailBlock) && NotRecycled(m, m.tailBlock.value)
    && Entry(Some(BehindNumber(c, m)), m.tailBlock) in m.ix.entries
    && Entry(Some(BehindNumber(c, m) + 1), Some(m.prod.block)) in m.ix.entries
  }

  lemma NewBlockIsOwn(c: Config, m: Memory, b: Ledger)
    requires Inv(c, m, b) && m.prod.PNull?
    ensures OwnNewBlock(m, m.prod.block)
  {
    var k := m.prod.block;
    forall e | 0 <= e < |m.ix.entries| ensures m.ix.entries[e].value != Some(k) {
      if m.ix.entries[e].value == Some(k) { PlaceIsUse(c, m, b, k, InIndex(e)); }
    }
    forall t | 0 <= t < |m.cons| && (m.cons[t].CNull? || m.cons[t].CFree?) ensures m.cons[t].block != k {
      assert ConsumerOk(c, m, b, t);
      if m.cons[t].CNull? { NulledNumber(c, m, b, t); }
    }
  }

  lemma TailIsOwn(c: Config, m: Memory, b: Ledger)
    requires Inv(c, m, b) && m.prod.PLink? && LinksBehind(c, m)
    ensures OwnTail(c, m)
  {
    LinkIsOwn(c, m, b);
    LiveNotRecycled(c, m, b, m.tailBlock.value, BehindNumber(c, m));
    AcquiredIsLive(c, m, b, |m.prod.got| - 1);
    LiveNotRecycled(c, m, b, m.prod.block, BehindNumber(c, m) + 1);
  }

  /** Every store to a block's `next` goes to a block that this producer owns at that moment: the one it has just
      requisitioned, or, through tailBlock, the block before it. When the operation has started at a block boundary, so
      that tailBlock may belong to someone else by now, the guard lets no block be touched. */
  lemma LinksOnlyOwnBlocks(c: Config, s: State, cap: nat, run: seq<Action>)
    requires Initial(c, s, cap) && Sensible(s)
    ensures c.blockSize > 0
    ensures var m := Execute(c, s, run).m;
      && (m.prod.PNull? ==> OwnNewBlock(m, m.prod.block))
      && (m.prod.PLink? && LinksBehind(c, m) ==> OwnTail(c, m))
      && (m.prod.PLink? && !LinksBehind(c, m) ==> ProducerSafe(c, m) && StepProducer(c, m, Nothing).blocks == m.blocks)
  {
    RunKeepsInv(c, s, cap, run);
    var m, b := Execute(c, s, run).m, Execute(c, s, run).b;
    if m.prod.PNull? { NewBlockIsOwn(c, m, b); }
    if m.prod.PLink? {
      ProducerStep(c, m, b, Nothing);
      if LinksBehind(c, m) { TailIsOwn(c, m, b); }
    }
  }

  /** The block that j links lead to. */
  function Follow(blocks: seq<Block>, p: Option<nat>, j: nat): Option<nat>
    decreases j
  {
    if j == 0 then p
    else if p.Some? && p.value < |blocks| then Follow(blocks, blocks[p.value].next, j - 1)
    else None
  }

  lemma {:induction false} FollowChain(blocks: seq<Block>, got: seq<nat>, i: nat, j: nat)
    requires Chained(blocks, got, 0, |got|) && i + j <= |got|
    ensures Follow(blocks, Nth(got, i), j) == Nth(got, i + j)
    decreases j
  {
    if j > 0 {
      assert LinkAt(blocks, got, i, |got|);
      FollowChain(blocks, got, i + 1, j - 1);
    }
  }

  predicate AcquiredAt(c: Config, m: Memory, j: nat) {
    c.blockSize > 0 && !m.prod.PIdle? && j < |m.prod.got| &&
    if j < UndoneOf(m.prod) then At(m, m.prod.got[j], RolledBack(j))
    else Entry(Some(FirstNew(m.q.tail, c.blockSize) + j), Some(m.prod.got[j])) in m.ix.entries
  }

  lemma AcquiredHasEntry(c: Config, m: Memory, b: Ledger, j: nat)
    requires Core(c, m, b) && !m.prod.PIdle? && FreedOf(m.prod) == 0 && j < |m.prod.got|
    ensures AcquiredAt(c, m, j)
  {
    var n := Base(c, m) + j;
    if j >= UndoneOf(m.prod) {
      assert BlockOf(m.ix, b.entryOf, n) == Some(m.prod.got[j]);
      assert LinkOk(m.ix, b.ix, b.entryOf, b.use, n);
      assert m.ix.entries[b.entryOf[n]] == Entry(Some(n), Some(m.prod.got[j]));
    }
  }

  lemma ChainLeads(c: Config, m: Memory, j: nat)
    requires c.blockSize > 0 && ChainOk(c, m) && !m.prod.PIdle? && m.local.bulk && !m.prod.PLink? && FreedOf(m.prod) == 0
    requires j <= |m.prod.got|
    ensures Follow(m.blocks, m.local.first, j) == Nth(m.prod.got, j)
  {
    FollowChain(m.blocks, m.prod.got, 0, j);
  }

  /** The links from firstAllocatedBlock lead through exactly the blocks that this bulk has acquired, and end in null:
      block j of the chain is in the index under the j-th new number, or, in a rollback, out of it again. */
  lemma ChainIsAcquired(c: Config, s: State, cap: nat, run: seq<Action>, j: nat)
    requires Initial(c, s, cap) && Sensible(s)
    requires var m := Execute(c, s, run).m;
      !m.prod.PIdle? && m.local.bulk && !m.prod.PLink? && FreedOf(m.prod) == 0 && j <= |m.prod.got|
    ensures var m := Execute(c, s, run).m;
      && Follow(m.blocks, m.local.first, j) == Nth(m.prod.got, j)
      && (j < |m.prod.got| ==> AcquiredAt(c, m, j))
  {
    RunKeepsInv(c, s, cap, run);
    var m, b := Execute(c, s, run).m, Execute(c, s, run).b;
    ChainLeads(c, m, j);
    if j < |m.prod.got| { AcquiredHasEntry(c, m, b, j); }
  }

  // ----- Bulk enqueue is all or nothing

  function Ceil(x: int, blockSize: nat): int
    requires blockSize > 0
  {
    (x + blockSize - 1) / blockSize
  }

  /** The blocks needed are the blocks that s + c elements touch and s elements do not, also when s is 0. */
  lemma NeededIsCeil(start: int, count: nat, blockSize: nat)
    requires blockSize > 0
    ensures Needed(start, count, blockSize) == Ceil(start + count, blockSize) - Ceil(start, blockSize)
  {
    CeilIsNext(start, blockSize);
    CeilIsNext(start + count, blockSize);
  }

  lemma CeilIsNext(x: int, blockSize: nat)
    requires blockSize > 0
    ensures Ceil(x, blockSize) == Num(x - 1, blockSize) + 1
  {
    NumFacts(x - 1, blockSize);
    ModUnique(x + blockSize - 1, blockSize, Num(x - 1, blockSize) + 1, Off(x - 1, blockSize));
  }

  /** What the rest of an operation sees of its start. */
  predicate SameStart(s: State, p: State) {
    && p.m.q.tail == s.m.q.tail && p.b.items == s.b.items && StartBlock(p.m) == StartBlock(s.m)
  }

  function From(c: Config, s: State, vals: seq<nat>, bulk: bool, run: seq<Action>): State
    requires Sensible(s)
  {
    Execute(c, s, [Enqueue(vals, bulk)] + run)
  }

  lemma FromNothing(c: Config, s: State, vals: seq<nat>, bulk: bool)
    requires Sensible(s) && s.m.prod.PIdle? && (!bulk ==> |vals| == 1)
    ensures From(c, s, vals, bulk, []) == s.(m := Start(s.m, vals, bulk))
  {
    assert [Enqueue(vals, bulk)] + [] == [Enqueue(vals, bulk)] && [Enqueue(vals, bulk)][..0] == [];
    assert Execute(c, s, [Enqueue(vals, bulk)]) == Perform(c, Execute(c, s, []), Enqueue(vals, bulk));
  }

  lemma FromLast(c: Config, s: State, vals: seq<nat>, bulk: bool, run: seq<Action>)
    requires Sensible(s) && run != []
    ensures From(c, s, vals, bulk, run) == Perform(c, From(c, s, vals, bulk, run[..|run|-1]), run[|run|-1])
  {
    assert ([Enqueue(vals, bulk)] + run)[..|run|] == [Enqueue(vals, bulk)] + run[..|run|-1];
  }

  lemma {:induction false} RunFromInv(c: Config, s: State, vals: seq<nat>, bulk: bool, run: seq<Action>)
    requires Sensible(s) && Inv(c, s.m, s.b) && s.m.prod.PIdle? && (!bulk ==> |vals| == 1)
    ensures Inv(c, From(c, s, vals, bulk, run).m, From(c, s, vals, bulk, run).b)
  {
    if run == [] {
      FromNothing(c, s, vals, bulk);
      EnqueueStep(c, s.m, s.b, vals, bulk);
    } else {
      RunFromInv(c, s, vals, bulk, run[..|run|-1]);
      FromLast(c, s, vals, bulk, run);
      PerformKeepsInv(c, From(c, s, vals, bulk, run[..|run|-1]), run[|run|-1]);
    }
  }

  lemma ConsumerKeepsProducing(c: Config, m: Memory, b: Ledger, t: nat)
    requires Inv(c, m, b) && ConsumerSafe(c, m, t)
    ensures var m' := StepConsumer(c, m, t);
      && m'.prod == m.prod && m'.q.tail == m.q.tail && m'.tailBlock == m.tailBlock && m'.local == m.local
      && TrackConsumer(c, m, b, t).items == b.items
  {
    if m.cons[t].CNone? { AdvanceTail(m.q, b.q, t); }
  }

  lemma ProducerMoves(c: Config, m: Memory, b: Ledger, r: Resource)
    requires ProducerSafe(c, m) && !m.prod.PIdle?
    ensures var m', b' := StepProducer(c, m, r), TrackProducer(c, m, b, r);
      if m.prod.PStore? then
        m'.prod.PIdle? && b'.items == b.items + m.prod.vals && m'.q.tail == m.q.tail + |m.prod.vals| && b'.ix == b.ix
      else
        && m'.q.tail == m.q.tail && b'.items == b.items && StartBlock(m') == StartBlock(m)
        && (m'.prod.PIdle? ==> m.prod.PFree?) && (!m'.prod.PIdle? ==> m'.prod.vals == m.prod.vals)
  {
  }

  lemma StepInside(c: Config, p: State, a: Action)
    requires Inv(c, p.m, p.b) && Sensible(p) && !p.m.prod.PIdle?
    ensures var p' := Perform(c, p, a);
      if Enabled(c, p.m, a) && a.Produce? && p.m.prod.PStore? then
        && p'.m.prod.PIdle? && p'.b.items == p.b.items + p.m.prod.vals && p'.m.q.tail == p.m.q.tail + |p.m.prod.vals|
        && p'.b.ix == p.b.ix
      else SameStart(p, p') && (!p'.m.prod.PIdle? ==> p'.m.prod.vals == p.m.prod.vals)
    ensures Perform(c, p, a).m.prod.PIdle? ==> Enabled(c, p.m, a) && a.Produce? && (p.m.prod.PStore? || p.m.prod.PFree?)
  {
    if Enabled(c, p.m, a) {
      match a
      case Consume(t) => ConsumerKeepsProducing(c, p.m, p.b, t);
      case Produce(r) => ProducerMoves(c, p.m, p.b, r);
      case _ =>
    }
  }

  /** The operation has been running since `s`, with nothing of it visible yet. */
  predicate Running(s: State, p: State, vals: seq<nat>) {
    SameStart(s, p) && !p.m.prod.PIdle? && p.m.prod.vals == vals
  }

  lemma {:induction false} NothingYet(c: Config, s: State, vals: seq<nat>, bulk: bool, run: seq<Action>)
    requires Sensible(s) && Inv(c, s.m, s.b) && s.m.prod.PIdle? && (!bulk ==> |vals| == 1)
    requires forall j :: 0 <= j <= |run| ==> !From(c, s, vals, bulk, run[..j]).m.prod.PIdle?
    ensures Running(s, From(c, s, vals, bulk, run), vals)
  {
    if run == [] {
      FromNothing(c, s, vals, bulk);
    } else {
      var front := run[..|run|-1];
      assert run[..|run|] == run;
      forall j | 0 <= j <= |front| ensures !From(c, s, vals, bulk, front[..j]).m.prod.PIdle? { assert front[..j] == run[..j]; }
      NothingYet(c, s, vals, bulk, front);
      RunFromInv(c, s, vals, bulk, front);
      FromLast(c, s, vals, bulk, run);
      StepInside(c, From(c, s, vals, bulk, front), run[|run|-1]);
    }
  }

  /** Published as a whole, with exactly the blocks needed, or not at all. */
  predicate AllOrNothing(c: Config, s: State, before: State, p: State, vals: seq<nat>) {
    c.blockSize > 0 && !before.m.prod.PIdle? &&
    if before.m.prod.PStore? then
      var more := Ceil(s.m.q.tail + |vals|, c.blockSize) - Ceil(s.m.q.tail, c.blockSize);
      && p.b.items == s.b.items + vals && p.m.q.tail == s.m.q.tail + |vals|
      && |before.m.prod.got| == more && p.b.ix.count == s.b.ix.count + more
    else
      && SameStart(s, p) && p.b.ix.count == s.b.ix.count
  }

  lemma LastStep(c: Config, s: State, before: State, vals: seq<nat>, a: Action)
    requires Inv(c, before.m, before.b) && Sensible(before) && Running(s, before, vals)
    requires Inv(c, s.m, s.b) && s.m.prod.PIdle? && Perform(c, before, a).m.prod.PIdle?
    ensures AllOrNothing(c, s, before, Perform(c, before, a), vals)
  {
    StepInside(c, before, a);
    NeededIsCeil(s.m.q.tail, |vals|, c.blockSize);
  }

  /** An enqueue, interleaved with any steps of the consumers and of other producers, either appends exactly its elements
      in order, having acquired exactly ceil((s + c) / B) - ceil(s / B) blocks, or leaves the queue, the tail block and
      the inserted part of the index as they were. */
  lemma BulkAllOrNothing(c: Config, s: State, vals: seq<nat>, bulk: bool, run: seq<Action>)
    requires Sensible(s) && Inv(c, s.m, s.b) && s.m.prod.PIdle? && (!bulk ==> |vals| == 1) && run != []
    requires forall j :: 0 <= j < |run| ==> !From(c, s, vals, bulk, run[..j]).m.prod.PIdle?
    requires From(c, s, vals, bulk, run).m.prod.PIdle?
    ensures AllOrNothing(c, s, From(c, s, vals, bulk, run[..|run|-1]), From(c, s, vals, bulk, run), vals)
  {
    var front := run[..|run|-1];
    forall j | 0 <= j <= |front| ensures !From(c, s, vals, bulk, front[..j]).m.prod.PIdle? { assert front[..j] == run[..j]; }
    NothingYet(c, s, vals, bulk, front);
    RunFromInv(c, s, vals, bulk, front);
    FromLast(c, s, vals, bulk, run);
    LastStep(c, s, From(c, s, vals, bulk, front), vals, run[|run|-1]);
  }
}
