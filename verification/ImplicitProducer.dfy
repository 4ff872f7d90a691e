/** The implicit producer of concurrentqueue.h: one producer thread that enqueues single elements or bulks, and any
    number of consumer threads, over blocks, the circular block index and the pool of free blocks.
    One atomic access per step, plain accesses of the producer's or a consumer's own element included.

    The claims on indices are those of OptimisticDequeue; the index is that of BlockIndex; the pool is what
    FreeLists shows of the free list (a node is taken by one owner at a time, and given back by any thread), together
    with the initial pool. The pool is shared with other producers: what they and their consumers do to it, and to the
    blocks they hold, is the action `Elsewhere`.
    A single enqueue makes the accesses of a bulk of one, but for the store to the new block's `next`. */
module ImplicitProducer {
  import opened Wrappers
  import opened BlockIndex
  import opened BlockNumbers
  import Claims = OptimisticDequeue

  /** BLOCK_SIZE, 2^(N-1) for the full test, and MAX_SUBQUEUE_SIZE when it is set. */
  datatype Config = Config(blockSize: nat, half: nat, maxSize: Option<nat>)

  /** The elements of a block by offset, elementsCompletelyDequeued, and the link that enqueue_bulk chains blocks by. */
  datatype Block = Block(cells: seq<Option<nat>>, emptied: int, next: Option<nat>)

  /** Locals of the running operation: startBlock, firstAllocatedBlock, endBlock, the block a rollback loop has come to,
      and whether it is enqueue_bulk. */
  datatype Locals = Locals(start: Option<nat>, first: Option<nat>, end: Option<nat>, at: Option<nat>, bulk: bool)

  /** The next access of the producer. The length of `got` says how many blocks the operation has acquired (how far
      blockBaseDiff has come down); which blocks they are is for the proof: the accesses follow the links. */
  datatype Producing =
    | PIdle
    | PCheck(vals: seq<nat>, got: seq<nat>)                     // more blocks? then headIndex, for the full test
    | PRoom(vals: seq<nat>, got: seq<nat>)                      // insert_block_index_entry: is the next slot free?
    | PGrow(vals: seq<nat>, got: seq<nat>)                      // new_block_index
    | PKey(vals: seq<nat>, got: seq<nat>, e: nat)               // entry key := base
    | PTail(vals: seq<nat>, got: seq<nat>, e: nat)              // index tail := next slot
    | PRequest(vals: seq<nat>, got: seq<nat>, e: nat)           // requisition_block
    | PReset(vals: seq<nat>, got: seq<nat>, e: nat, block: nat) // reset_empty
    | PNull(vals: seq<nat>, got: seq<nat>, e: nat, block: nat)  // newBlock->next := null
    | PPublish(vals: seq<nat>, got: seq<nat>, e: nat, block: nat) // entry value := block
    | PLink(vals: seq<nat>, got: seq<nat>, block: nat)          // tailBlock->next := newBlock, tailBlock := newBlock
    | PRewind(vals: seq<nat>, got: seq<nat>, e: nat)            // no block: rewind_block_index_tail
    | PClear(vals: seq<nat>, got: seq<nat>, e: nat)             // entry value := null
    | PUndo(vals: seq<nat>, got: seq<nat>, k: nat)              // rollback: look up the entry of block k, value := null
    | PUndoTail(vals: seq<nat>, got: seq<nat>, k: nat)          // rewind_block_index_tail
    | PUndoNext(vals: seq<nat>, got: seq<nat>, k: nat)          // block := block->next
    | PFree(vals: seq<nat>, got: seq<nat>, k: nat)              // add_blocks_to_free_list: next := block->next
    | PGive(vals: seq<nat>, got: seq<nat>, k: nat, next: Option<nat>) // add_block_to_free_list, block := next
    | PWrite(vals: seq<nat>, got: seq<nat>, k: nat, stop: int)  // construct element k in tailBlock; at stop, tailBlock->next
    | PStore(vals: seq<nat>, got: seq<nat>)                     // tailIndex := newTailIndex, return true

  /** The next access of a consumer, once it holds the indices that its claim gave it. */
  datatype Consuming =
    | CNone
    | CHeader                                                   // localBlockIndex := blockIndex
    | CTail(header: nat)                                        // tail := localBlockIndex->tail
    | CBase(header: nat, tail: nat)                             // tailBase := key of the entry at tail
    | CLoad(cur: int, header: nat, slot: nat)                   // block := value of the entry at slot
    | CTake(lo: int, cur: int, header: nat, slot: nat, e: nat, block: nat)  // move element cur out
    | CCount(lo: int, cur: int, header: nat, slot: nat, e: nat, block: nat) // set_many_empty(lo, cur - lo)
    | CNull(cur: int, header: nat, slot: nat, e: nat, block: nat)           // entry value := null
    | CFree(cur: int, header: nat, slot: nat, block: nat)                   // add_block_to_free_list

  /** `abroad` are the blocks that other producers hold; no access of this producer or its consumers looks at it. */
  datatype Memory = Memory(
    q: Claims.Counters,
    ix: Index,
    blocks: seq<Block>,
    free: set<nat>,
    abroad: set<nat>,
    tailBlock: Option<nat>,
    prod: Producing,
    local: Locals,
    cons: seq<Consuming>,
    out: seq<seq<nat>>)

  /** What the memory allocator and the free list answer, when they are asked. */
  datatype Resource = FromPool(block: nat) | Allocate | Nothing

  /** What other producers and their consumers do: take a block from the pool, allocate one, write to one that they
      hold, or give one to the pool. */
  datatype Foreign = Takes(block: nat) | Creates(content: Block) | Writes(block: nat, content: Block) | Gives(block: nat)

  datatype Action =
    | Enqueue(vals: seq<nat>, bulk: bool)
    | Produce(r: Resource)
    | Dequeue(t: nat, max: nat)
    | Consume(t: nat)
    | Elsewhere(f: Foreign)

  // ----- The arithmetic of the producer, as the code has it

  /** The first block to allocate is the one after the block of startTailIndex - 1, also when that is -1. */
  function FirstNew(start: int, blockSize: nat): int
    requires blockSize > 0
  {
    Num(start - 1, blockSize) + 1
  }

  /** blockBaseDiff / BLOCK_SIZE. */
  function Needed(start: int, count: nat, blockSize: nat): int
    requires blockSize > 0
  {
    Num(start + count - 1, blockSize) - Num(start - 1, blockSize)
  }

  predicate Full(c: Config, head: int, number: int) {
    var base := number * c.blockSize;
    || base + c.blockSize - head >= c.half
    || (c.maxSize.Some? && (c.maxSize.value == 0 || c.maxSize.value - c.blockSize < base - head))
  }

  /** stopIndex, counted from startTailIndex: the end of the block of element k, or of the operation. */
  function Stop(c: Config, tail: int, count: nat, k: int): int
    requires c.blockSize > 0
  {
    var end := (Num(tail + k, c.blockSize) + 1) * c.blockSize - tail;
    if count < end then count else end
  }

  /** Does the new block hang behind the tail block? Not when it is the first of an operation that starts at a block
      boundary: the tail block may have been emptied and be another producer's by now. */
  predicate LinksBehind(c: Config, m: Memory)
    requires c.blockSize > 0
  {
    m.local.bulk && (Off(m.q.tail, c.blockSize) != 0 || m.local.first.Some?)
  }

  function SetProd(m: Memory, p: Producing): Memory { m.(prod := p) }

  /** Failure: the loop over the blocks acquired so far begins. */
  function Revert(m: Memory, vals: seq<nat>, got: seq<nat>): Memory {
    m.(prod := PUndo(vals, got, 0), local := m.local.(at := m.local.first))
  }

  function SetNext(m: Memory, block: nat, next: Option<nat>): Memory
    requires block < |m.blocks|
  {
    m.(blocks := m.blocks[block := m.blocks[block].(next := next)])
  }

  /** A pointer that may be dereferenced. */
  predicate Points(m: Memory, p: Option<nat>) { p.Some? && p.value < |m.blocks| }

  /** Pointers that the producer's next access dereferences are not null and not dangling. */
  predicate ProducerSafe(c: Config, m: Memory) {
    && c.blockSize > 0 && Shaped(m.ix)
    && match m.prod
       case PKey(_, _, e) => e < |m.ix.entries|
       case PReset(_, _, _, b) => b < |m.blocks|
       case PNull(_, _, _, b) => b < |m.blocks|
       case PPublish(_, _, e, b) => e < |m.ix.entries|
       case PLink(_, _, _) => LinksBehind(c, m) ==> Points(m, m.tailBlock)
       case PClear(_, _, e) => e < |m.ix.entries|
       case PUndo(_, _, _) =>
         m.local.at.Some? ==> m.ix.entries[Current(m.ix).index[Current(m.ix).tail]].key.Some?
       case PUndoNext(_, _, _) => Points(m, m.local.at)
       case PFree(_, _, _) => m.local.at.Some? ==> Points(m, m.local.at)
       case PGive(_, _, _, _) => m.local.at.Some?
       case PWrite(vals, _, k, stop) =>
         if k < stop then
           k < |vals| && Points(m, m.tailBlock) && |m.blocks[m.tailBlock.value].cells| == c.blockSize
         else m.tailBlock != m.local.end ==> Points(m, m.tailBlock)
       case _ => true
  }

  function StepProducer(c: Config, m: Memory, r: Resource): Memory
    requires ProducerSafe(c, m) && !m.prod.PIdle?
  {
    var cur := Current(m.ix);
    match m.prod
    case PCheck(vals, got) =>
      if |got| < Needed(m.q.tail, |vals|, c.blockSize) then
        if Full(c, m.q.head, FirstNew(m.q.tail, c.blockSize) + |got|) then Revert(m, vals, got)
        else SetProd(m, PRoom(vals, got))
      else
        var first := if Off(m.q.tail, c.blockSize) == 0 && m.local.first.Some? then m.local.first else m.local.start;
        m.(tailBlock := first, prod := PWrite(vals, got, 0, Stop(c, m.q.tail, |vals|, 0)))
    case PRoom(vals, got) =>
      SetProd(m, if RoomFor(m.ix) then PKey(vals, got, cur.index[Next(cur)]) else PGrow(vals, got))
    case PGrow(vals, got) =>
      if r.Allocate? then
        var ix := Grow(m.ix);
        m.(ix := ix, prod := PKey(vals, got, Grown(cur, |m.ix.entries|).index[|cur.index|]))
      else Revert(m, vals, got)
    case PKey(vals, got, e) =>
      var number := FirstNew(m.q.tail, c.blockSize) + |got|;
      m.(ix := SetEntry(m.ix, e, m.ix.entries[e].(key := Some(number))), prod := PTail(vals, got, e))
    case PTail(vals, got, e) => m.(ix := SetTail(m.ix, Next(cur)), prod := PRequest(vals, got, e))
    case PRequest(vals, got, e) =>
      if r.FromPool? && r.block in m.free then
        m.(free := m.free - {r.block}, prod := PReset(vals, got, e, r.block))
      else if r.Allocate? then
        m.(blocks := m.blocks + [Block(seq(c.blockSize, _ => None), 0, None)], prod := PReset(vals, got, e, |m.blocks|))
      else SetProd(m, PRewind(vals, got, e))
    case PReset(vals, got, e, b) =>
      m.(blocks := m.blocks[b := m.blocks[b].(emptied := 0)],
         prod := if m.local.bulk then PNull(vals, got, e, b) else PPublish(vals, got, e, b))
    case PNull(vals, got, e, b) => SetNext(m, b, None).(prod := PPublish(vals, got, e, b))
    case PPublish(vals, got, e, b) =>
      m.(ix := SetEntry(m.ix, e, m.ix.entries[e].(value := Some(b))), prod := PLink(vals, got + [b], b))
    case PLink(vals, got, b) =>
      var m' := if LinksBehind(c, m) then SetNext(m, m.tailBlock.value, Some(b)) else m;
      m'.(tailBlock := Some(b), prod := PCheck(vals, got),
          local := m.local.(first := if m.local.first.None? then Some(b) else m.local.first, end := Some(b)))
    case PRewind(vals, got, e) => m.(ix := SetTail(m.ix, Previous(cur)), prod := PClear(vals, got, e))
    case PClear(vals, got, e) =>
      Revert(m.(ix := SetEntry(m.ix, e, m.ix.entries[e].(value := None))), vals, got)
    case PUndo(vals, got, k) =>
      if m.local.at.Some? then
        var number := FirstNew(m.q.tail, c.blockSize) + k;
        var tailKey := m.ix.entries[cur.index[cur.tail]].key.value;
        var e := cur.index[SlotFor(cur.tail, tailKey, number, |cur.index|)];
        m.(ix := SetEntry(m.ix, e, m.ix.entries[e].(value := None)), prod := PUndoTail(vals, got, k))
      else m.(prod := PFree(vals, got, 0), local := m.local.(at := m.local.first))
    case PUndoTail(vals, got, k) => m.(ix := SetTail(m.ix, Previous(cur)), prod := PUndoNext(vals, got, k))
    case PUndoNext(vals, got, k) =>
      m.(prod := PUndo(vals, got, k + 1), local := m.local.(at := m.blocks[m.local.at.value].next))
    case PFree(vals, got, k) =>
      if m.local.at.Some? then SetProd(m, PGive(vals, got, k, m.blocks[m.local.at.value].next))
      else m.(prod := PIdle, tailBlock := m.local.start)
    case PGive(vals, got, k, next) =>
      m.(free := m.free + {m.local.at.value}, prod := PFree(vals, got, k + 1), local := m.local.(at := next))
    case PWrite(vals, got, k, stop) =>
      if k < stop then
        var b := m.tailBlock.value;
        var cells := m.blocks[b].cells[Off(m.q.tail + k, c.blockSize) := Some(vals[k])];
        m.(blocks := m.blocks[b := m.blocks[b].(cells := cells)], prod := PWrite(vals, got, k + 1, stop))
      else if m.tailBlock == m.local.end then SetProd(m, PStore(vals, got))
      else
        m.(tailBlock := m.blocks[m.tailBlock.value].next, prod := PWrite(vals, got, k, Stop(c, m.q.tail, |vals|, k)))
    case PStore(vals, _) => m.(q := m.q.(tail := m.q.tail + |vals|), prod := PIdle)
  }

  // ----- Consumers

  function End(m: Memory, t: nat): int
    requires t < |m.q.pc| && m.q.pc[t].Holding?
  {
    m.q.pc[t].first + m.q.pc[t].count
  }

  predicate ConsumerSafe(c: Config, m: Memory, t: nat) {
    && c.blockSize > 0 && |m.cons| == |m.out| == |m.q.pc| && t < |m.cons| && Shaped(m.ix)
    && (m.cons[t].CNone? ==> Claims.Enabled(m.q, t, Claims.Advance))
    && (!m.cons[t].CNone? ==> m.q.pc[t].Holding?)
    && match m.cons[t]
       case CTail(h) => h < |m.ix.headers|
       case CBase(h, tail) =>
         && h < |m.ix.headers| && tail < |m.ix.headers[h].index|
         && m.ix.entries[m.ix.headers[h].index[tail]].key.Some?
       case CLoad(_, h, slot) =>
         && h < |m.ix.headers| && slot < |m.ix.headers[h].index|
         && m.ix.entries[m.ix.headers[h].index[slot]].value.Some?
       case CTake(_, cur, _, _, _, b) =>
         && b < |m.blocks| && |m.blocks[b].cells| == c.blockSize
         && m.blocks[b].cells[Off(cur, c.blockSize)].Some?
       case CCount(_, _, h, _, _, b) => b < |m.blocks| && h < |m.ix.headers|
       case CNull(_, h, _, e, b) => e < |m.ix.entries|
       case CFree(_, h, _, _) => h < |m.ix.headers|
       case _ => true
  }

  function SetCons(m: Memory, t: nat, p: Consuming): Memory
    requires t < |m.cons|
  {
    m.(cons := m.cons[t := p])
  }

  /** After a chunk: the next block of the same index, or the end of the call. */
  function NextChunk(m: Memory, t: nat, cur: int, header: nat, slot: nat): Memory
    requires t < |m.cons| == |m.q.pc| && m.q.pc[t].Holding? && header < |m.ix.headers| && Shaped(m.ix)
  {
    if cur == End(m, t) then m.(cons := m.cons[t := CNone], q := Claims.Step(m.q, t, Claims.Release))
    else SetCons(m, t, CLoad(cur, header, (slot + 1) % |m.ix.headers[header].index|))
  }

  function StepConsumer(c: Config, m: Memory, t: nat): Memory
    requires ConsumerSafe(c, m, t)
  {
    match m.cons[t]
    case CNone =>
      var q := Claims.Step(m.q, t, Claims.Advance);
      if q.pc[t].Holding? then m.(q := q, cons := m.cons[t := CHeader], out := m.out[t := []]) else m.(q := q)
    case CHeader => SetCons(m, t, CTail(|m.ix.headers| - 1))
    case CTail(h) => SetCons(m, t, CBase(h, m.ix.headers[h].tail))
    case CBase(h, tail) =>
      var first, index := m.q.pc[t].first, m.ix.headers[h].index;
      SetCons(m, t, CLoad(first, h, SlotFor(tail, m.ix.entries[index[tail]].key.value, Num(first, c.blockSize), |index|)))
    case CLoad(cur, h, slot) =>
      var e := m.ix.headers[h].index[slot];
      SetCons(m, t, CTake(cur, cur, h, slot, e, m.ix.entries[e].value.value))
    case CTake(lo, cur, h, slot, e, b) =>
      var cells := m.blocks[b].cells;
      var o := Off(cur, c.blockSize);
      var more := cur + 1 < End(m, t) && Off(cur + 1, c.blockSize) != 0;
      m.(blocks := m.blocks[b := m.blocks[b].(cells := cells[o := None])],
         out := m.out[t := m.out[t] + [cells[o].value]],
         cons := m.cons[t := if more then CTake(lo, cur + 1, h, slot, e, b) else CCount(lo, cur + 1, h, slot, e, b)])
    case CCount(lo, cur, h, slot, e, b) =>
      var emptied := m.blocks[b].emptied + (cur - lo);
      var m' := m.(blocks := m.blocks[b := m.blocks[b].(emptied := emptied)]);
      if emptied == c.blockSize then SetCons(m', t, CNull(cur, h, slot, e, b)) else NextChunk(m', t, cur, h, slot)
    case CNull(cur, h, slot, e, b) =>
      m.(ix := SetEntry(m.ix, e, m.ix.entries[e].(value := None)), cons := m.cons[t := CFree(cur, h, slot, b)])
    case CFree(cur, h, slot, b) => NextChunk(m.(free := m.free + {b}), t, cur, h, slot)
  }

  // ----- Other producers

  predicate ForeignEnabled(c: Config, m: Memory, f: Foreign) {
    match f
    case Takes(k) => k in m.free
    case Creates(content) => |content.cells| == c.blockSize
    case Writes(k, content) => k in m.abroad && k < |m.blocks| && |content.cells| == c.blockSize
    case Gives(k) => k in m.abroad
  }

  function StepForeign(c: Config, m: Memory, f: Foreign): Memory
    requires ForeignEnabled(c, m, f)
  {
    match f
    case Takes(k) => m.(free := m.free - {k}, abroad := m.abroad + {k})
    case Creates(content) => m.(blocks := m.blocks + [content], abroad := m.abroad + {|m.blocks|})
    case Writes(k, content) => m.(blocks := m.blocks[k := content])
    case Gives(k) => m.(free := m.free + {k}, abroad := m.abroad - {k})
  }

  predicate Enabled(c: Config, m: Memory, a: Action) {
    match a
    case Enqueue(vals, bulk) => m.prod.PIdle? && (!bulk ==> |vals| == 1)
    case Produce(_) => !m.prod.PIdle? && ProducerSafe(c, m)
    case Dequeue(t, max) => |m.cons| == |m.q.pc| && t < |m.cons| && m.cons[t].CNone? && Claims.Enabled(m.q, t, Claims.Call(max))
    case Consume(t) => ConsumerSafe(c, m, t)
    case Elsewhere(f) => ForeignEnabled(c, m, f)
  }

  function Start(m: Memory, vals: seq<nat>, bulk: bool): Memory {
    m.(prod := PCheck(vals, []), local := Locals(m.tailBlock, None, m.tailBlock, None, bulk))
  }

  function Step(c: Config, m: Memory, a: Action): Memory
    requires Enabled(c, m, a)
  {
    match a
    case Enqueue(vals, bulk) => Start(m, vals, bulk)
    case Produce(r) => StepProducer(c, m, r)
    case Dequeue(t, max) => m.(q := Claims.Step(m.q, t, Claims.Call(max)))
    case Consume(t) => StepConsumer(c, m, t)
    case Elsewhere(f) => StepForeign(c, m, f)
  }
}
