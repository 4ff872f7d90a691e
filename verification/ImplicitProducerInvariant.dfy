/** What every reachable state of the implicit producer satisfies: where each block is, which index entry leads to it,
    what its cells hold, and how far the producer and every consumer have come. */
module ImplicitProducerInvariant {
  import opened Wrappers
  import opened Bits
  import opened BlockIndex
  import opened BlockNumbers
  import opened ImplicitProducer
  import Claims = OptimisticDequeue

  /** Where a block is: in the pool, with the producer but not yet published, holding block `number` of the queue,
      taken back in a rollback, on its way to the pool with the consumer that emptied it, or with another producer. */
  datatype Use = Free | Private | Live(number: int) | Undone(j: nat) | Draining(t: nat) | Abroad

  /** Bookkeeping: the elements enqueued so far, the index entry of every live block, the use of every block,
      and the indices whose element has been moved out (`taken`) and counted as dequeued (`done`). */
  datatype Ledger = Ledger(
    q: Claims.Book, ix: BlockIndex.Book, items: seq<nat>, entryOf: map<int, nat>, use: seq<Use>,
    taken: set<int>, done: set<int>)

  function Range(lo: int, hi: int): (s: set<int>)
    ensures forall i :: i in s <==> lo <= i < hi
    decreases hi - lo
  {
    if lo < hi then {lo} + Range(lo + 1, hi) else {}
  }

  /** How many indices of lo .. lo + n are in `done`. */
  function CountDone(done: set<int>, lo: int, n: nat): (count: nat)
    ensures count <= n
  {
    if n == 0 then 0 else CountDone(done, lo, n - 1) + (if lo + (n - 1) in done then 1 else 0)
  }

  function DoneIn(done: set<int>, number: int, blockSize: nat): nat { CountDone(done, number * blockSize, blockSize) }

  function GotOf(p: Producing): seq<nat> { if p.PIdle? then [] else p.got }

  /** How many of the acquired blocks the rollback has taken back. */
  function UndoneOf(p: Producing): nat {
    match p
    case PUndo(_, _, k) => k
    case PUndoTail(_, _, k) => k + 1
    case PUndoNext(_, _, k) => k + 1
    case PFree(_, got, _) => |got|
    case PGive(_, got, _, _) => |got|
    case _ => 0
  }

  /** How many of them it has given back to the pool. */
  function FreedOf(p: Producing): nat {
    match p
    case PFree(_, _, k) => k
    case PGive(_, _, k, _) => k
    case _ => 0
  }

  /** How many acquired blocks the chain of links has. */
  function LinkedOf(p: Producing): nat {
    match p
    case PLink(_, got, _) => if got == [] then 0 else |got| - 1
    case _ => |GotOf(p)|
  }

  /** How many numbers this operation has inserted into the index beyond the published blocks. */
  function InsertedOf(p: Producing): int {
    match p
    case PIdle => 0
    case PRequest(_, got, _) => |got| + 1
    case PReset(_, got, _, _) => |got| + 1
    case PNull(_, got, _, _) => |got| + 1
    case PPublish(_, got, _, _) => |got| + 1
    case PRewind(_, got, _) => |got| + 1
    case PUndo(_, got, k) => |got| - k
    case PUndoTail(_, got, k) => |got| - k
    case PUndoNext(_, got, k) => |got| - k - 1
    case PFree(_, _, _) => 0
    case PGive(_, _, _, _) => 0
    case _ => |p.got|
  }

  function Base(c: Config, m: Memory): int
    requires c.blockSize > 0
  {
    FirstNew(m.q.tail, c.blockSize)
  }

  /** The tail block that the running operation began with; between operations, the tail block. */
  function StartBlock(m: Memory): Option<nat> { if m.prod.PIdle? then m.tailBlock else m.local.start }

  /** The block that element k of the operation goes to: the old tail block, or one of the acquired ones. */
  function Target(c: Config, m: Memory, got: seq<nat>, k: int): Option<nat>
    requires c.blockSize > 0
  {
    var j := Num(m.q.tail + k, c.blockSize) - FirstNew(m.q.tail, c.blockSize);
    if j < 0 then StartBlock(m) else Nth(got, j)
  }

  /** Block j of the chain; null behind its end. */
  function Nth(got: seq<nat>, j: nat): Option<nat> { if j < |got| then Some(got[j]) else None }

  function BlockOf(ix: Index, entryOf: map<int, nat>, n: int): Option<nat> {
    if n in entryOf && entryOf[n] < |ix.entries| then ix.entries[entryOf[n]].value else None
  }

  // ----- The parts of the invariant

  ghost predicate ShapeOk(c: Config, m: Memory, b: Ledger) {
    && c.blockSize >= 2
    && |m.cons| == |m.out| == |m.q.pc| && |b.use| == |m.blocks| && |b.items| == m.q.tail
    && Claims.Inv(m.q, b.q) && Coherent(m.ix, b.ix)
    && (forall k :: 0 <= k < |m.blocks| ==> |m.blocks[k].cells| == c.blockSize)
  }

  /** A live block: its entry shows its number and the block, is where the index looks, and every number from it
      up to the highest one written is in its place too. */
  ghost predicate LinkOk(ix: Index, bix: BlockIndex.Book, entryOf: map<int, nat>, use: seq<Use>, n: int)
    requires Shaped(ix) && |bix.phase| == |ix.headers| && n in entryOf
  {
    var e := entryOf[n];
    && e < |ix.entries| && ix.entries[e].key == Some(n) && EntryAt(ix, bix, n) == e && 0 <= n <= bix.high
    && ix.entries[e].value.Some? && ix.entries[e].value.value < |use| && use[ix.entries[e].value.value] == Live(n)
    && (forall k {:trigger EntryAt(ix, bix, k)} :: n <= k <= bix.high ==> ix.entries[EntryAt(ix, bix, k)].key == Some(k))
  }

  ghost predicate LinksOk(ix: Index, bix: BlockIndex.Book, entryOf: map<int, nat>, use: seq<Use>)
    requires Shaped(ix) && |bix.phase| == |ix.headers|
  {
    && (forall n {:trigger LinkOk(ix, bix, entryOf, use, n)} :: n in entryOf ==> LinkOk(ix, bix, entryOf, use, n))
    && (forall e {:trigger EntryLinked(ix.entries[e], e, entryOf)} :: 0 <= e < |ix.entries| ==>
          EntryLinked(ix.entries[e], e, entryOf))
    && (forall k :: 0 <= k < |use| && use[k].Live? ==> BlockOf(ix, entryOf, use[k].number) == Some(k))
  }

  predicate EntryLinked(entry: Entry, e: nat, entryOf: map<int, nat>) {
    entry.value.Some? ==> entry.key.Some? && entry.key.value in entryOf && entryOf[entry.key.value] == e
  }

  /** A published block stays live until all its elements are counted; its counter is that count; every element
      not yet moved out is in its cell. */
  ghost predicate ContentsOk(c: Config, m: Memory, b: Ledger)
    requires c.blockSize > 0 && |b.items| == m.q.tail
  {
    && (forall n {:trigger n in b.entryOf} :: 0 <= n < Base(c, m) && DoneIn(b.done, n, c.blockSize) < c.blockSize ==> n in b.entryOf)
    && (forall n {:trigger CounterOk(c, m, b, n)} :: n in b.entryOf ==> CounterOk(c, m, b, n))
    && (forall i {:trigger CellOk(c, m, b, i)} :: 0 <= i < m.q.tail && i !in b.taken ==> CellOk(c, m, b, i))
    && b.done <= b.taken
    && (forall i :: i in b.taken ==> 0 <= i < m.q.head)
  }

  predicate CounterOk(c: Config, m: Memory, b: Ledger, n: int) {
    var k := BlockOf(m.ix, b.entryOf, n);
    k.Some? && k.value < |m.blocks| && m.blocks[k.value].emptied == DoneIn(b.done, n, c.blockSize)
  }

  predicate CellOk(c: Config, m: Memory, b: Ledger, i: int)
    requires c.blockSize > 0
  {
    var k := BlockOf(m.ix, b.entryOf, Num(i, c.blockSize));
    && k.Some? && k.value < |m.blocks| && Off(i, c.blockSize) < |m.blocks[k.value].cells|
    && 0 <= i < |b.items| && m.blocks[k.value].cells[Off(i, c.blockSize)] == Some(b.items[i])
  }

  /** The live blocks are the published ones and those of the running operation that are not taken back. */
  ghost predicate HaulOk(c: Config, m: Memory, b: Ledger)
    requires c.blockSize > 0 && Shaped(m.ix) && |b.ix.phase| == |m.ix.headers|
  {
    var p, f := m.prod, Base(c, m);
    var got := GotOf(p);
    && b.ix.count == f + InsertedOf(p) && b.ix.high - |Current(m.ix).index| < f
    && UndoneOf(p) <= |got| && KeysFrom(m, b, f)
    && (forall n :: n in b.entryOf ==> n < f || (f + UndoneOf(p) <= n < f + |got|))
    && (forall j :: UndoneOf(p) <= j < |got| ==> BlockOf(m.ix, b.entryOf, f + j) == Some(got[j]))
    && (Off(m.q.tail, c.blockSize) != 0 ==>
          StartBlock(m) == BlockOf(m.ix, b.entryOf, Num(m.q.tail, c.blockSize)) && StartBlock(m).Some?)
  }

  ghost predicate ProducerOk(c: Config, m: Memory, b: Ledger)
    requires c.blockSize > 0 && Shaped(m.ix) && |b.ix.phase| == |m.ix.headers|
  {
    HaulOk(c, m, b) && PhaseOk(c, m, b)
  }

  ghost predicate PhaseOk(c: Config, m: Memory, b: Ledger)
    requires c.blockSize > 0 && Shaped(m.ix) && |b.ix.phase| == |m.ix.headers|
  {
    var f, need := Base(c, m), if m.prod.PIdle? then 0 else Needed(m.q.tail, |m.prod.vals|, c.blockSize);
    match m.prod
    case PIdle => true
    case PCheck(vals, got) => |got| <= need
    case PRoom(vals, got) => |got| < need
    case PGrow(vals, got) =>
      |got| < need && b.ix.high == b.ix.count - 1 && m.ix.entries[Current(m.ix).index[Current(m.ix).tail]].key.Some?
    case PKey(vals, got, e) =>
      |got| < need && e == EntryAt(m.ix, b.ix, b.ix.count) && m.ix.entries[e].value.None?
    case PTail(vals, got, e) =>
      |got| < need && e == EntryAt(m.ix, b.ix, b.ix.count) && m.ix.entries[e] == Entry(Some(b.ix.count), None) && b.ix.count <= b.ix.high
    case PRequest(vals, got, e) => |got| < need && InsertedEntry(m, b, e)
    case PReset(vals, got, e, k) => |got| < need && InsertedEntry(m, b, e) && k < |b.use| && b.use[k] == Private
    case PNull(vals, got, e, k) =>
      |got| < need && InsertedEntry(m, b, e) && k < |b.use| && b.use[k] == Private && k < |m.blocks| && m.blocks[k].emptied == 0
    case PPublish(vals, got, e, k) =>
      |got| < need && InsertedEntry(m, b, e) && k < |b.use| && b.use[k] == Private && k < |m.blocks| && m.blocks[k].emptied == 0
    case PLink(vals, got, _) => 0 < |got| <= need
    case PRewind(vals, got, e) => |got| < need && InsertedEntry(m, b, e)
    case PClear(vals, got, e) => |got| < need && e < |m.ix.entries| && m.ix.entries[e].value.None?
    case PUndo(vals, got, k) => TakenBack(b, got, 0, k)
    case PUndoTail(vals, got, k) => TakenBack(b, got, 0, k + 1)
    case PUndoNext(vals, got, k) => TakenBack(b, got, 0, k + 1)
    case PFree(vals, got, k) => TakenBack(b, got, k, |got|)
    case PGive(vals, got, k, _) => TakenBack(b, got, k, |got|)
    case PWrite(vals, got, k, _) => |got| == need && k <= |vals| && (forall j :: 0 <= j < k ==> Written(c, m, j))
    case PStore(vals, got) => |got| == need && (forall j :: 0 <= j < |vals| ==> Written(c, m, j))
  }

  /** The acquired blocks lo .. hi are out of the index again. */
  ghost predicate TakenBack(b: Ledger, got: seq<nat>, lo: nat, hi: nat) {
    lo <= |got| && hi <= |got| && forall j :: lo <= j < hi ==> got[j] < |b.use| && b.use[got[j]] == Undone(j)
  }

  predicate InsertedEntry(m: Memory, b: Ledger, e: nat)
    requires Shaped(m.ix) && |b.ix.phase| == |m.ix.headers|
  {
    e == EntryAt(m.ix, b.ix, b.ix.count - 1) && m.ix.entries[e] == Entry(Some(b.ix.count - 1), None)
  }

  ghost predicate KeysFrom(m: Memory, b: Ledger, f: int)
    requires Shaped(m.ix) && |b.ix.phase| == |m.ix.headers|
  {
    forall k {:trigger EntryAt(m.ix, b.ix, k)} :: f <= k <= b.ix.high ==> m.ix.entries[EntryAt(m.ix, b.ix, k)].key == Some(k)
  }

  /** Element j of the running operation is in its cell. */
  predicate Written(c: Config, m: Memory, j: int)
    requires c.blockSize > 0 && !m.prod.PIdle?
  {
    var k := Target(c, m, m.prod.got, j);
    && 0 <= j < |m.prod.vals| && k.Some? && k.value < |m.blocks|
    && Off(m.q.tail + j, c.blockSize) < |m.blocks[k.value].cells|
    && m.blocks[k.value].cells[Off(m.q.tail + j, c.blockSize)] == Some(m.prod.vals[j])
  }

  /** Each use has its witness: the pool, the producer's locals, or exactly one consumer's. */
  ghost predicate UsesOk(c: Config, m: Memory, b: Ledger)
    requires c.blockSize > 0
  {
    && (forall k :: k in m.free ==> k < |b.use| && b.use[k] == Free)
    && (forall k :: k in m.abroad ==> k < |b.use| && b.use[k] == Abroad)
    && (forall k {:trigger UseOk(c, m, b, k)} :: 0 <= k < |b.use| ==> UseOk(c, m, b, k))
    && (forall t, u :: 0 <= t < u < |m.cons| && m.cons[t].CNull? && m.cons[u].CNull? ==> m.cons[t].block != m.cons[u].block)
  }

  /** The producer has a block in hand that nobody else can see yet. */
  predicate Preparing(p: Producing) { p.PReset? || p.PNull? || p.PPublish? }

  ghost predicate UseOk(c: Config, m: Memory, b: Ledger, k: nat)
    requires c.blockSize > 0 && k < |b.use|
  {
    match b.use[k]
    case Free => k in m.free
    case Private => Preparing(m.prod) && m.prod.block == k
    case Undone(j) => j < UndoneOf(m.prod) && j < |GotOf(m.prod)| && GotOf(m.prod)[j] == k && FreedOf(m.prod) <= j
    case Abroad => k in m.abroad
    case Draining(t) => t < |m.cons| && m.cons[t].CFree? && m.cons[t].block == k
    case Live(n) => DoneIn(b.done, n, c.blockSize) == c.blockSize ==> exists t :: 0 <= t < |m.cons| && m.cons[t].CNull? && m.cons[t].block == k
  }

  // ----- A consumer that holds indices

  function Cur(m: Memory, t: nat): int
    requires t < |m.cons| == |m.q.pc| && m.q.pc[t].Holding?
  {
    match m.cons[t]
    case CLoad(cur, _, _) => cur
    case CTake(_, cur, _, _, _, _) => cur
    case CCount(_, cur, _, _, _, _) => cur
    case CNull(cur, _, _, _, _) => cur
    case CFree(cur, _, _, _) => cur
    case _ => m.q.pc[t].first
  }

  /** The header shows the entry of every index lo .. hi in its slot. */
  ghost predicate Shows(c: Config, m: Memory, b: Ledger, h: nat, lo: int, hi: int)
    requires c.blockSize > 0 && Shaped(m.ix) && |b.ix.phase| == |m.ix.headers|
  {
    h < |m.ix.headers| && forall i :: lo <= i < hi ==> ShowsNumber(m, b, h, Num(i, c.blockSize))
  }

  predicate ShowsNumber(m: Memory, b: Ledger, h: nat, n: int)
    requires Shaped(m.ix) && |b.ix.phase| == |m.ix.headers| && h < |m.ix.headers|
  {
    n in b.entryOf && m.ix.headers[h].index[Slot(b.ix.phase[h], n, |m.ix.headers[h].index|)] == b.entryOf[n]
  }

  /** The slot, the entry and the block that the consumer has in hand are those of block n. */
  predicate InHand(m: Memory, b: Ledger, h: nat, slot: nat, e: nat, k: nat, n: int)
    requires Shaped(m.ix) && |b.ix.phase| == |m.ix.headers|
  {
    && h < |m.ix.headers| && slot == Slot(b.ix.phase[h], n, |m.ix.headers[h].index|)
    && n in b.entryOf && b.entryOf[n] == e && BlockOf(m.ix, b.entryOf, n) == Some(k)
  }

  predicate Sized(c: Config, m: Memory, b: Ledger) {
    c.blockSize > 0 && |m.cons| == |m.out| == |m.q.pc| && Shaped(m.ix) && |b.ix.phase| == |m.ix.headers|
  }

  ghost predicate ConsumerOk(c: Config, m: Memory, b: Ledger, t: nat)
    requires Sized(c, m, b) && t < |m.cons|
  {
    if m.cons[t].CNone? then !m.q.pc[t].Holding? else
    && m.q.pc[t].Holding?
    && var first, end, cur := m.q.pc[t].first, End(m, t), Cur(m, t);
    && 0 <= first <= cur <= end <= |b.items| && first < end
    && m.out[t] == b.items[first..cur]
    && (forall i :: cur <= i < end ==> i !in b.taken)
    && match m.cons[t]
       case CHeader => true
       case CTail(h) => Shows(c, m, b, h, cur, end)
       case CBase(h, tail) =>
         && Shows(c, m, b, h, cur, end)
         && tail < |m.ix.headers[h].index| && m.ix.entries[m.ix.headers[h].index[tail]].key.Some?
       case CLoad(_, h, slot) =>
         && Shows(c, m, b, h, cur, end) && cur < end
         && slot == Slot(b.ix.phase[h], Num(cur, c.blockSize), |m.ix.headers[h].index|)
       case CTake(lo, _, h, slot, e, k) =>
         && Shows(c, m, b, h, cur, end) && first <= lo <= cur < end && Num(lo, c.blockSize) == Num(cur, c.blockSize)
         && InHand(m, b, h, slot, e, k, Num(cur, c.blockSize)) && Moved(b, lo, cur)
       case CCount(lo, _, h, slot, e, k) =>
         && Shows(c, m, b, h, cur, end) && first <= lo < cur && Num(lo, c.blockSize) == Num(cur - 1, c.blockSize)
         && (cur == end || Off(cur, c.blockSize) == 0)
         && InHand(m, b, h, slot, e, k, Num(cur - 1, c.blockSize)) && Moved(b, lo, cur)
       case CNull(_, h, slot, e, k) =>
         && Shows(c, m, b, h, cur, end) && first < cur && (cur == end || Off(cur, c.blockSize) == 0)
         && InHand(m, b, h, slot, e, k, Num(cur - 1, c.blockSize))
         && DoneIn(b.done, Num(cur - 1, c.blockSize), c.blockSize) == c.blockSize
       case CFree(_, h, slot, k) =>
         && Shows(c, m, b, h, cur, end) && first < cur && (cur == end || Off(cur, c.blockSize) == 0)
         && slot == Slot(b.ix.phase[h], Num(cur - 1, c.blockSize), |m.ix.headers[h].index|)
         && k < |b.use| && b.use[k] == Draining(t)
  }

  /** Moved out, not yet counted. */
  ghost predicate Moved(b: Ledger, lo: int, cur: int) {
    forall i :: lo <= i < cur ==> i in b.taken && i !in b.done
  }

  ghost predicate ConsumersOk(c: Config, m: Memory, b: Ledger)
    requires Sized(c, m, b)
  {
    forall t {:trigger ConsumerOk(c, m, b, t)} :: 0 <= t < |m.cons| ==> ConsumerOk(c, m, b, t)
  }

  // ----- The chain of links, and where the producer is on it

  /** Block j of the chain leads to block j + 1; the last one ends it. */
  predicate LinkAt(blocks: seq<Block>, got: seq<nat>, j: nat, linked: nat)
    requires j < linked <= |got|
  {
    got[j] < |blocks| && blocks[got[j]].next == if j + 1 < linked then Some(got[j + 1]) else None
  }

  /** The links from block lo of the chain on lead through all of it and end in null. */
  predicate Chained(blocks: seq<Block>, got: seq<nat>, lo: nat, linked: nat) {
    linked <= |got| && forall j {:trigger LinkAt(blocks, got, j, linked)} :: lo <= j < linked ==> LinkAt(blocks, got, j, linked)
  }

  /** firstAllocatedBlock and endBlock are the ends of the chain, and in the middle of a block the old tail block
      leads to it. */
  predicate ChainOk(c: Config, m: Memory)
    requires c.blockSize > 0
  {
    m.prod.PIdle? ||
    (var got, linked, l := m.prod.got, LinkedOf(m.prod), m.local;
     && l.first == (if linked == 0 then None else Some(got[0]))
     && l.end == (if linked == 0 then l.start else Some(got[linked - 1]))
     && (!l.bulk ==> |m.prod.vals| == 1)
     && (l.bulk ==> Chained(m.blocks, got, FreedOf(m.prod), linked))
     && (l.bulk && linked > 0 && Off(m.q.tail, c.blockSize) != 0 ==>
           Points(m, l.start) && m.blocks[l.start.value].next == Some(got[0]))
     && PlaceOk(c, m))
  }

  /** The pointer that the producer is about to follow. */
  predicate PlaceOk(c: Config, m: Memory)
    requires c.blockSize > 0
  {
    var l := m.local;
    match m.prod
    case PPublish(_, _, _, k) => m.tailBlock == l.end && (l.bulk ==> Ends(m, k))
    case PLink(_, got, k) => m.tailBlock == l.end && |got| > 0 && k == got[|got|-1] && (l.bulk ==> Ends(m, k))
    case PUndo(_, got, k) => l.at == Nth(got, k) && (!l.bulk ==> got == [])
    case PUndoTail(_, got, k) => l.bulk && k < |got| && l.at == Some(got[k])
    case PUndoNext(_, got, k) => l.bulk && k < |got| && l.at == Some(got[k])
    case PFree(_, got, k) => l.at == Nth(got, k) && (!l.bulk ==> got == [])
    case PGive(_, got, k, next) => l.bulk && k < |got| && l.at == Some(got[k]) && next == Nth(got, k + 1)
    case PWrite(_, _, _, _) => Walking(c, m)
    case _ => m.tailBlock == l.end
  }

  predicate Ends(m: Memory, k: nat) { k < |m.blocks| && m.blocks[k].next.None? }

  /** Number of the block that elements k .. stop go to; at the stop, of the block just filled. */
  function WalkNumber(c: Config, tail: int, k: nat, stop: int): int
    requires c.blockSize > 0
  {
    Num(tail + if k == stop then k - 1 else k, c.blockSize)
  }

  /** The write walk: tailBlock is the block of the element to construct next. */
  predicate Walking(c: Config, m: Memory)
    requires c.blockSize > 0 && m.prod.PWrite?
  {
    var k, stop, count, got := m.prod.k, m.prod.stop, |m.prod.vals|, m.prod.got;
    var f, n := Base(c, m), WalkNumber(c, m.q.tail, k, stop);
    var end := (n + 1) * c.blockSize - m.q.tail;
    && k <= stop && stop == (if count < end then count else end) && (stop == 0 ==> count == 0)
    && f - 1 <= n && m.tailBlock == if n < f then m.local.start else Nth(got, n - f)
  }

  /** All of the invariant but the links. */
  ghost predicate Core(c: Config, m: Memory, b: Ledger) {
    && ShapeOk(c, m, b)
    && LinksOk(m.ix, b.ix, b.entryOf, b.use)
    && ContentsOk(c, m, b)
    && ProducerOk(c, m, b)
    && UsesOk(c, m, b)
    && ConsumersOk(c, m, b)
  }

  ghost predicate Inv(c: Config, m: Memory, b: Ledger) { Core(c, m, b) && ChainOk(c, m) }

  // ----- How the bookkeeping follows the steps

  function TrackProducer(c: Config, m: Memory, b: Ledger, r: Resource): Ledger
    requires ProducerSafe(c, m) && !m.prod.PIdle?
  {
    match m.prod
    case PGrow(_, _) =>
      if r.Allocate? then b.(ix := b.ix.(phase := b.ix.phase + [|Current(m.ix).index| - b.ix.count])) else b
    case PKey(_, _, _) => b.(ix := b.ix.(high := if b.ix.count > b.ix.high then b.ix.count else b.ix.high))
    case PTail(_, _, _) => b.(ix := b.ix.(count := b.ix.count + 1))
    case PRequest(_, _, _) =>
      if r.FromPool? && r.block in m.free && r.block < |b.use| then b.(use := b.use[r.block := Private])
      else if r.Allocate? then b.(use := b.use + [Private]) else b
    case PPublish(_, _, e, k) =>
      if k < |b.use|
      then b.(entryOf := b.entryOf[b.ix.count - 1 := e], use := b.use[k := Live(b.ix.count - 1)]) else b
    case PRewind(_, _, _) => b.(ix := b.ix.(count := if b.ix.count > 0 then b.ix.count - 1 else 0))
    case PUndo(_, got, k) =>
      if m.local.at.Some? && k < |got| && got[k] < |b.use|
      then b.(entryOf := b.entryOf - {Base(c, m) + k}, use := b.use[got[k] := Undone(k)]) else b
    case PUndoTail(_, _, _) => b.(ix := b.ix.(count := if b.ix.count > 0 then b.ix.count - 1 else 0))
    case PGive(_, got, k, _) => if k < |got| && got[k] < |b.use| then b.(use := b.use[got[k] := Free]) else b
    case PStore(vals, _) => b.(items := b.items + vals)
    case _ => b
  }

  function TrackConsumer(c: Config, m: Memory, b: Ledger, t: nat): Ledger
    requires ConsumerSafe(c, m, t) && |b.q.mine| == |b.q.claimOf| == |m.q.pc|
  {
    match m.cons[t]
    case CNone => b.(q := Claims.Track(m.q, b.q, t, Claims.Advance))
    case CTake(_, cur, _, _, _, _) => b.(taken := b.taken + {cur})
    case CCount(lo, cur, _, _, _, _) => b.(done := b.done + Range(lo, cur))
    case CNull(cur, _, _, _, k) =>
      if k < |b.use|
      then b.(entryOf := b.entryOf - {Num(cur - 1, c.blockSize)}, use := b.use[k := Draining(t)]) else b
    case CFree(_, _, _, k) => if k < |b.use| then b.(use := b.use[k := Free]) else b
    case _ => b
  }

  function TrackForeign(b: Ledger, f: Foreign): Ledger {
    match f
    case Takes(k) => if k < |b.use| then b.(use := b.use[k := Abroad]) else b
    case Creates(_) => b.(use := b.use + [Abroad])
    case Writes(_, _) => b
    case Gives(k) => if k < |b.use| then b.(use := b.use[k := Free]) else b
  }

  function Track(c: Config, m: Memory, b: Ledger, a: Action): Ledger
    requires Enabled(c, m, a) && |b.q.mine| == |b.q.claimOf| == |m.q.pc|
  {
    match a
    case Produce(r) => TrackProducer(c, m, b, r)
    case Consume(t) => TrackConsumer(c, m, b, t)
    case Elsewhere(f) => TrackForeign(b, f)
    case _ => b
  }
}
