/** The implicit producer as the object it is, and why its enqueue is wait-free: the producer's own accesses are
    bounded in advance, whatever the consumers do in between. */
module ImplicitQueue {
  import opened Wrappers
  import opened BlockIndex
  import opened BlockNumbers
  import opened ImplicitProducer
  import opened ImplicitProducerInvariant
  import opened ImplicitProducerProof
  import opened ImplicitProducerWrites
  import opened ImplicitProducerChain
  import opened ImplicitProducerRuns
  import opened ImplicitProducerTheorems
  import opened EnqueueResults
  import Claims = OptimisticDequeue

  // ----- Wait-freedom

  function Blocks(c: Config, m: Memory): nat
    requires c.blockSize > 0 && !m.prod.PIdle?
  {
    var n := Needed(m.q.tail, |m.prod.vals|, c.blockSize);
    if n > 0 then n else 0
  }

  /** How many links the write walk still has to follow. */
  function Hops(c: Config, m: Memory): int
    requires c.blockSize > 0 && m.prod.PWrite?
  {
    LastNumber(c, m) - WalkNumber(c, m.q.tail, m.prod.k, m.prod.stop)
  }

  /** At most so many accesses of the producer are left in the running operation. */
  function Rank(c: Config, m: Memory): int
    requires c.blockSize > 0
  {
    if m.prod.PIdle? then 0 else
    var more, n := Blocks(c, m), |m.prod.vals|;
    var acquiring := n + 6 * more + 10 + 10 * (more - |m.prod.got|);
    match m.prod
    case PCheck(_, _) => acquiring
    case PRoom(_, _) => acquiring - 1
    case PGrow(_, _) => acquiring - 2
    case PKey(_, _, _) => acquiring - 3
    case PTail(_, _, _) => acquiring - 4
    case PRequest(_, _, _) => acquiring - 5
    case PReset(_, _, _, _) => acquiring - 6
    case PNull(_, _, _, _) => acquiring - 7
    case PPublish(_, _, _, _) => acquiring - 8
    case PLink(_, _, _) => acquiring + 1
    case PRewind(_, got, _) => 5 * |got| + 4
    case PClear(_, got, _) => 5 * |got| + 3
    case PUndo(_, got, k) => 3 * (|got| - k) + 2 * |got| + 2
    case PUndoTail(_, got, k) => 3 * (|got| - k) + 2 * |got| + 1
    case PUndoNext(_, got, k) => 3 * (|got| - k) + 2 * |got|
    case PFree(_, got, k) => 2 * (|got| - k) + 1
    case PGive(_, got, k, _) => 2 * (|got| - k)
    case PWrite(_, _, k, _) => n - k + Hops(c, m) + 2
    case PStore(_, _) => 1
  }

  /** The rollback frees no more blocks than the operation needs. */
  ghost predicate Bounded(c: Config, m: Memory)
    requires c.blockSize > 0
  {
    !m.prod.PIdle? ==> |m.prod.got| <= Blocks(c, m)
  }

  lemma WalkCounts(c: Config, m: Memory)
    requires c.blockSize > 0 && m.prod.PCheck? && |m.prod.got| >= Blocks(c, m)
    ensures var stop := Stop(c, m.q.tail, |m.prod.vals|, 0);
      0 <= LastNumber(c, m) - WalkNumber(c, m.q.tail, 0, stop) <= Blocks(c, m)
  {
    FirstChunk(m.q.tail, |m.prod.vals|, c);
    NumMono(m.q.tail - 1, m.q.tail + |m.prod.vals| - 1, c.blockSize);
  }

  lemma CheckCounts(c: Config, m: Memory, r: Resource)
    requires ProducerSafe(c, m) && m.prod.PCheck? && Bounded(c, m)
    ensures 0 <= Rank(c, StepProducer(c, m, r)) < Rank(c, m) && Bounded(c, StepProducer(c, m, r))
  {
    NumMono(m.q.tail - 1, m.q.tail + |m.prod.vals| - 1, c.blockSize);
    if |m.prod.got| >= Blocks(c, m) { WalkCounts(c, m); }
  }

  lemma AcquireCounts(c: Config, m: Memory, r: Resource)
    requires ProducerSafe(c, m) && !m.prod.PIdle? && |m.prod.got| < Blocks(c, m)
    requires (Acquiring(m.prod) && !m.prod.PCheck?) || m.prod.PPublish?
    ensures 0 <= Rank(c, StepProducer(c, m, r)) < Rank(c, m) && Bounded(c, StepProducer(c, m, r))
  {
    assert Blocks(c, StepProducer(c, m, r)) == Blocks(c, m);
  }

  lemma RollbackCounts(c: Config, m: Memory, r: Resource)
    requires ProducerSafe(c, m) && Bounded(c, m) && ChainOk(c, m)
    requires UndoneOf(m.prod) <= |GotOf(m.prod)| && FreedOf(m.prod) <= |GotOf(m.prod)|
    requires m.prod.PUndo? || m.prod.PUndoTail? || m.prod.PUndoNext? || m.prod.PFree? || m.prod.PGive?
    ensures 0 <= Rank(c, StepProducer(c, m, r)) < Rank(c, m) && Bounded(c, StepProducer(c, m, r))
  {
  }

  lemma WriteCounts(c: Config, m: Memory, r: Resource)
    requires ProducerSafe(c, m) && Bounded(c, m) && ChainOk(c, m) && m.prod.PWrite? && m.prod.k < m.prod.stop
    ensures 0 <= Rank(c, StepProducer(c, m, r)) < Rank(c, m) && Bounded(c, StepProducer(c, m, r))
  {
    WalkNumberKept(c, m.q.tail, m.prod.k, m.prod.stop);
    NumMono(m.q.tail + m.prod.k, m.q.tail + |m.prod.vals| - 1, c.blockSize);
  }

  lemma HopCounts(c: Config, m: Memory, b: Ledger, r: Resource)
    requires Inv(c, m, b) && ProducerSafe(c, m) && Bounded(c, m) && m.prod.PWrite? && m.prod.k >= m.prod.stop
    ensures 0 <= Rank(c, StepProducer(c, m, r)) < Rank(c, m) && Bounded(c, StepProducer(c, m, r))
  {
    var k, n := m.prod.k, WalkNumber(c, m.q.tail, m.prod.k, m.prod.stop);
    EndTest(c, m, b);
    StopFacts(c, m.q.tail, |m.prod.vals|, k, m.prod.stop);
    if k < |m.prod.vals| { NextChunkStops(c, m.q.tail, |m.prod.vals|, k, n); }
  }

  lemma EachStepCounts(c: Config, m: Memory, b: Ledger, r: Resource)
    requires Inv(c, m, b) && !m.prod.PIdle? && Bounded(c, m) && ProducerSafe(c, m)
    ensures 0 <= Rank(c, StepProducer(c, m, r)) < Rank(c, m)
    ensures Bounded(c, StepProducer(c, m, r))
  {
    if m.prod.PWrite? {
      if m.prod.k < m.prod.stop { WriteCounts(c, m, r); } else { HopCounts(c, m, b, r); }
    } else if m.prod.PCheck? {
      CheckCounts(c, m, r);
    } else if Acquiring(m.prod) || m.prod.PPublish? {
      Behind(c, m, b);
      AcquireCounts(c, m, r);
    } else if !m.prod.PStore? && !m.prod.PLink? {
      Behind(c, m, b);
      RollbackCounts(c, m, r);
    }
  }

  lemma Behind(c: Config, m: Memory, b: Ledger)
    requires Core(c, m, b) && !m.prod.PIdle?
    ensures UndoneOf(m.prod) <= |GotOf(m.prod)| && FreedOf(m.prod) <= |GotOf(m.prod)|
    ensures (Acquiring(m.prod) && !m.prod.PCheck?) || m.prod.PPublish? ==> |m.prod.got| < Blocks(c, m)
  {
    NumMono(m.q.tail - 1, m.q.tail + |m.prod.vals| - 1, c.blockSize);
  }

  function Steps(run: seq<Action>): nat {
    if run == [] then 0 else Steps(run[..|run|-1]) + if run[|run|-1].Produce? then 1 else 0
  }

  /** The accesses of the producer since the start of the operation, and those that may still come. */
  ghost predicate Budget(c: Config, s: State, p: State, vals: seq<nat>, steps: nat) {
    && c.blockSize > 0 && Bounded(c, p.m) && 0 <= Rank(c, p.m)
    && var more := Needed(s.m.q.tail, |vals|, c.blockSize);
    && 0 <= more && steps + Rank(c, p.m) <= |vals| + 16 * more + 10
  }

  lemma StartBudget(c: Config, s: State, vals: seq<nat>, bulk: bool)
    requires Sensible(s) && Inv(c, s.m, s.b) && s.m.prod.PIdle? && (!bulk ==> |vals| == 1)
    ensures Budget(c, s, From(c, s, vals, bulk, []), vals, 0)
  {
    FromNothing(c, s, vals, bulk);
    NumMono(s.m.q.tail - 1, s.m.q.tail + |vals| - 1, c.blockSize);
  }

  lemma ProduceBudget(c: Config, s: State, p: State, vals: seq<nat>, steps: nat, r: Resource)
    requires Inv(c, p.m, p.b) && Sensible(p) && Budget(c, s, p, vals, steps) && !p.m.prod.PIdle?
    ensures Budget(c, s, Perform(c, p, Produce(r)), vals, steps + 1)
  {
    ProducerStep(c, p.m, p.b, r);
    EachStepCounts(c, p.m, p.b, r);
    assert Perform(c, p, Produce(r)).m == StepProducer(c, p.m, r);
  }

  lemma RankFrame(c: Config, m: Memory, m': Memory)
    requires c.blockSize > 0 && m'.prod == m.prod && m'.q.tail == m.q.tail
    ensures Rank(c, m') == Rank(c, m) && (Bounded(c, m) ==> Bounded(c, m'))
  {
  }

  lemma StepBudget(c: Config, s: State, p: State, vals: seq<nat>, steps: nat, a: Action)
    requires Inv(c, p.m, p.b) && Sensible(p) && Budget(c, s, p, vals, steps) && !p.m.prod.PIdle?
    ensures Budget(c, s, Perform(c, p, a), vals, steps + if a.Produce? then 1 else 0)
  {
    if a.Produce? {
      ProduceBudget(c, s, p, vals, steps, a.r);
    } else if Enabled(c, p.m, a) {
      OthersKeepProducing(c, p.m, p.b, a);
      RankFrame(c, p.m, Step(c, p.m, a));
    }
  }

  /** enqueue and enqueue_bulk are wait-free up to requisition_block, which counts as one access here: an operation for
      c elements that needs k more blocks makes at most c + 16 * k + 10 accesses, in every interleaving with the
      consumers and whatever the allocator answers. */
  lemma {:induction false} EnqueueIsWaitFree(c: Config, s: State, vals: seq<nat>, bulk: bool, run: seq<Action>)
    requires Sensible(s) && Inv(c, s.m, s.b) && s.m.prod.PIdle? && (!bulk ==> |vals| == 1)
    requires forall j :: 0 <= j < |run| ==> !From(c, s, vals, bulk, run[..j]).m.prod.PIdle?
    ensures Budget(c, s, From(c, s, vals, bulk, run), vals, Steps(run))
    ensures Steps(run) <= |vals| + 16 * Needed(s.m.q.tail, |vals|, c.blockSize) + 10
  {
    if run == [] {
      StartBudget(c, s, vals, bulk);
    } else {
      var front := run[..|run|-1];
      forall j | 0 <= j < |front| ensures !From(c, s, vals, bulk, front[..j]).m.prod.PIdle? { assert front[..j] == run[..j]; }
      EnqueueIsWaitFree(c, s, vals, bulk, front);
      RunFromInv(c, s, vals, bulk, front);
      FromLast(c, s, vals, bulk, run);
      StepBudget(c, s, From(c, s, vals, bulk, front), vals, Steps(front), run[|run|-1]);
    }
  }

  // ----- The object

  function Numbers(n: nat): (s: set<nat>)
    ensures forall k: nat :: k in s <==> k < n
  {
    if n == 0 then {} else Numbers(n - 1) + {n - 1}
  }

  lemma StepIsSafe(c: Config, m: Memory, b: Ledger, r: Resource)
    requires Inv(c, m, b) && !m.prod.PIdle?
    ensures ProducerSafe(c, m)
  {
    ProducerStep(c, m, b, r);
  }

  lemma StepIsValid(c: Config, m: Memory, b: Ledger, r: Resource, m': Memory, b': Ledger)
    requires Inv(c, m, b) && !m.prod.PIdle? && ProducerSafe(c, m)
    requires m' == StepProducer(c, m, r) && b' == TrackProducer(c, m, b, r)
    ensures Inv(c, m', b')
  {
    ProducerStep(c, m, b, r);
  }

  class Producer {
    const c: Config
    var q: Claims.Counters
    var headers: seq<Header>
    var entries: seq<Entry>
    var blocks: seq<Block>
    var free: set<nat>
    ghost var abroad: set<nat>
    var tailBlock: Option<nat>
    var prod: Producing
    var local: Locals
    var cons: seq<Consuming>
    var out: seq<seq<nat>>
    ghost var book: Ledger

    ghost function View(): Memory reads this {
      Memory(q, Index(headers, entries), blocks, free, abroad, tailBlock, prod, local, cons, out)
    }

    ghost predicate Valid() reads this { Inv(c, View(), book) }

    constructor (c: Config, cap: nat, pool: seq<ImplicitProducer.Block>, threads: nat)
      requires c.blockSize >= 2 && cap > 0
      requires forall k :: 0 <= k < |pool| ==> |pool[k].cells| == c.blockSize
      ensures Valid() && this.c == c && prod.PIdle? && book.items == [] && |cons| == threads
    {
      this.c := c;
      q := Claims.Counters(0, 0, 0, 0, seq(threads, _ => Claims.Out));
      headers, entries := NewIndex(cap).headers, NewIndex(cap).entries;
      blocks, free := pool, Numbers(|pool|);
      abroad := {};
      tailBlock, prod, local := None, PIdle, Locals(None, None, None, None, true);
      cons, out := seq(threads, _ => CNone), seq(threads, _ => []);
      book := Ledger(Claims.Book([], seq(threads, _ => 0), [], seq(threads, _ => 0)), Book([0], 0, -1), [], map[],
                     FirstUses(|pool|, Numbers(|pool|)), {}, {});
      new;
      InitialInv(c, ImplicitProducerRuns.State(View(), book, map[]), cap);
    }

    /** insert_block_index_entry: is the next slot free, or is the index to be doubled? */
    method FindSlot(r: Resource)
      requires ProducerSafe(c, View()) && (prod.PRoom? || prod.PGrow?)
      modifies this`headers, this`entries, this`prod, this`local
      ensures View() == StepProducer(c, old(View()), r)
    {
      var cur := headers[|headers|-1];
      match prod
      case PRoom(vals, got) =>
        var e := cur.index[(cur.tail + 1) % |cur.index|];
        prod := if entries[e].key.None? || entries[e].value.None? then PKey(vals, got, e) else PGrow(vals, got);
      case PGrow(vals, got) =>
        if r.Allocate? {
          var bigger := Grown(cur, |entries|);
          headers := headers + [bigger];
          entries := entries + seq(|cur.index|, _ => Entry(None, None));
          prod := PKey(vals, got, bigger.index[|cur.index|]);
        } else {
          Fail(vals, got);
        }
    }

    /** The loop over the blocks acquired so far begins. */
    method Fail(vals: seq<nat>, got: seq<nat>)
      modifies this`prod, this`local
      ensures View() == Revert(old(View()), vals, got)
    {
      prod := PUndo(vals, got, 0);
      local := local.(at := local.first);
    }

    /** The key, the value taken back, and the index tail forward or back. */
    method MoveIndex(r: Resource)
      requires ProducerSafe(c, View()) && (prod.PKey? || prod.PTail? || prod.PRewind? || prod.PClear? || prod.PUndoTail?)
      modifies this`headers, this`entries, this`prod, this`local
      ensures View() == StepProducer(c, old(View()), r)
    {
      var last := |headers| - 1;
      var cur := headers[last];
      match prod
      case PKey(vals, got, e) =>
        entries := entries[e := entries[e].(key := Some(FirstNew(q.tail, c.blockSize) + |got|))];
        prod := PTail(vals, got, e);
      case PTail(vals, got, e) =>
        headers := headers[last := cur.(tail := (cur.tail + 1) % |cur.index|)];
        prod := PRequest(vals, got, e);
      case PRewind(vals, got, e) =>
        headers := headers[last := cur.(tail := (cur.tail - 1) % |cur.index|)];
        prod := PClear(vals, got, e);
      case PClear(vals, got, e) =>
        entries := entries[e := entries[e].(value := None)];
        Fail(vals, got);
      case PUndoTail(vals, got, k) =>
        headers := headers[last := cur.(tail := (cur.tail - 1) % |cur.index|)];
        prod := PUndoNext(vals, got, k);
    }

    /** Is another block needed and allowed, and is there one? */
    method AcquireBlock(r: Resource)
      requires ProducerSafe(c, View()) && (prod.PCheck? || prod.PRequest?)
      modifies this`free, this`blocks, this`tailBlock, this`prod, this`local
      ensures View() == StepProducer(c, old(View()), r)
    {
      match prod
      case PCheck(vals, got) =>
        if |got| < Needed(q.tail, |vals|, c.blockSize) {
          if Full(c, q.head, FirstNew(q.tail, c.blockSize) + |got|) {
            Fail(vals, got);
          } else {
            prod := PRoom(vals, got);
          }
        } else {
          tailBlock := local.start;
          if q.tail % c.blockSize == 0 && local.first.Some? {
            tailBlock := local.first;
          }
          prod := PWrite(vals, got, 0, Stop(c, q.tail, |vals|, 0));
        }
      case PRequest(vals, got, e) =>
        if r.FromPool? && r.block in free {
          free := free - {r.block};
          prod := PReset(vals, got, e, r.block);
        } else if r.Allocate? {
          prod := PReset(vals, got, e, |blocks|);
          blocks := blocks + [Block(seq(c.blockSize, _ => None), 0, None)];
        } else {
          prod := PRewind(vals, got, e);
        }
    }

    /** reset_empty, the store to newBlock->next, and the store of the block in its entry. */
    method PublishBlock(r: Resource)
      requires ProducerSafe(c, View()) && (prod.PReset? || prod.PNull? || prod.PPublish?)
      modifies this`entries, this`blocks, this`prod
      ensures View() == StepProducer(c, old(View()), r)
    {
      match prod
      case PReset(vals, got, e, b) =>
        blocks := blocks[b := blocks[b].(emptied := 0)];
        prod := if local.bulk then PNull(vals, got, e, b) else PPublish(vals, got, e, b);
      case PNull(vals, got, e, b) =>
        blocks := blocks[b := blocks[b].(next := None)];
        prod := PPublish(vals, got, e, b);
      case PPublish(vals, got, e, b) =>
        entries := entries[e := entries[e].(value := Some(b))];
        prod := PLink(vals, got + [b], b);
    }

    /** The guarded store to tailBlock->next, and the pointers to the ends of the chain. */
    method LinkBlock(r: Resource)
      requires ProducerSafe(c, View()) && prod.PLink?
      modifies this`blocks, this`tailBlock, this`prod, this`local
      ensures View() == StepProducer(c, old(View()), r)
    {
      var b := prod.block;
      if local.bulk && (q.tail % c.blockSize != 0 || local.first.Some?) {
        blocks := blocks[tailBlock.value := blocks[tailBlock.value].(next := Some(b))];
      }
      tailBlock := Some(b);
      local := local.(first := if local.first.None? then Some(b) else local.first, end := Some(b));
      prod := PCheck(prod.vals, prod.got);
    }

    /** The loop over the acquired blocks after a failure. */
    method RollBack(r: Resource)
      requires ProducerSafe(c, View()) && (prod.PUndo? || prod.PUndoNext?)
      modifies this`entries, this`prod, this`local
      ensures View() == StepProducer(c, old(View()), r)
    {
      match prod
      case PUndo(vals, got, k) =>
        if local.at.Some? {
          var cur := headers[|headers|-1];
          var tailKey := entries[cur.index[cur.tail]].key.value;
          var e := cur.index[SlotFor(cur.tail, tailKey, FirstNew(q.tail, c.blockSize) + k, |cur.index|)];
          entries := entries[e := entries[e].(value := None)];
          prod := PUndoTail(vals, got, k);
        } else {
          local := local.(at := local.first);
          prod := PFree(vals, got, 0);
        }
      case PUndoNext(vals, got, k) =>
        local := local.(at := blocks[local.at.value].next);
        prod := PUndo(vals, got, k + 1);
    }

    /** add_blocks_to_free_list, and the old tail block again. */
    method FreeBlocks(r: Resource)
      requires ProducerSafe(c, View()) && (prod.PFree? || prod.PGive?)
      modifies this`free, this`tailBlock, this`prod, this`local
      ensures View() == StepProducer(c, old(View()), r)
    {
      match prod
      case PFree(vals, got, k) =>
        if local.at.Some? {
          prod := PGive(vals, got, k, blocks[local.at.value].next);
        } else {
          tailBlock := local.start;
          prod := PIdle;
        }
      case PGive(vals, got, k, next) =>
        free := free + {local.at.value};
        local := local.(at := next);
        prod := PFree(vals, got, k + 1);
    }

    /** The construction of the elements, along the links from block to block, and the store of tailIndex. */
    method WriteElement(r: Resource)
      requires ProducerSafe(c, View()) && (prod.PWrite? || prod.PStore?)
      modifies this`q, this`blocks, this`tailBlock, this`prod
      ensures View() == StepProducer(c, old(View()), r)
    {
      match prod
      case PWrite(vals, got, k, stop) =>
        if k < stop {
          var b := tailBlock.value;
          blocks := blocks[b := blocks[b].(cells := blocks[b].cells[(q.tail + k) % c.blockSize := Some(vals[k])])];
          prod := PWrite(vals, got, k + 1, stop);
        } else if tailBlock == local.end {
          prod := PStore(vals, got);
        } else {
          tailBlock := blocks[tailBlock.value].next;
          prod := PWrite(vals, got, k, Stop(c, q.tail, |vals|, k));
        }
      case PStore(vals, got) =>
        q := q.(tail := q.tail + |vals|);
        prod := PIdle;
    }

    /** The next access of the producer, whichever it is. */
    method Access(r: Resource)
      requires ProducerSafe(c, View()) && !prod.PIdle?
      modifies this`q, this`headers, this`entries, this`blocks, this`free, this`tailBlock, this`prod, this`local
      ensures View() == StepProducer(c, old(View()), r)
    {
      if prod.PRoom? || prod.PGrow? {
        FindSlot(r);
      } else if prod.PCheck? || prod.PRequest? {
        AcquireBlock(r);
      } else if prod.PReset? || prod.PNull? || prod.PPublish? {
        PublishBlock(r);
      } else if prod.PLink? {
        LinkBlock(r);
      } else if prod.PUndo? || prod.PUndoNext? {
        RollBack(r);
      } else if prod.PFree? || prod.PGive? {
        FreeBlocks(r);
      } else if prod.PWrite? || prod.PStore? {
        WriteElement(r);
      } else {
        MoveIndex(r);
      }
    }

    method Produce(r: Resource)
      requires Valid() && !prod.PIdle?
      modifies this
      ensures ProducerSafe(c, old(View())) && Valid()
      ensures View() == StepProducer(c, old(View()), r) && book == TrackProducer(c, old(View()), old(book), r)
    {
      ghost var m, b := View(), book;
      StepIsSafe(c, m, b, r);
      Access(r);
      book := TrackProducer(c, m, b, r);
      StepIsValid(c, m, b, r, View(), book);
    }

    /** What the caller sees of a running operation, and of a finished one. */
    ghost predicate Progress(vals: seq<nat>, ok: bool, q0: Claims.Counters, items: seq<nat>, tail: Option<nat>)
      reads this
    {
      && (!prod.PIdle? ==> !ok && prod.vals == vals)
      && if prod.PIdle? && ok then book.items == items + vals && q.tail == q0.tail + |vals|
         else book.items == items && q == q0 && StartBlock(View()) == tail
    }

    /** A whole enqueue_bulk, run without interruption against an allocator that gives the answers in turn: it ends,
        and has enqueued all elements or none. It has enqueued them only if there was room, and if memory is there
        for the asking it fails only for want of room. */
    method EnqueueBulk(vals: seq<nat>, answers: seq<Resource>) returns (ok: bool)
      requires Valid() && prod.PIdle?
      modifies this
      ensures Valid() && prod.PIdle?
      ensures Progress(vals, ok, old(q), old(book).items, old(tailBlock))
      ensures Succeeds(c, old(q), |vals|, answers, ok)
    {
      Begin(vals, true);
      ok := Finish(vals, answers);
    }

    /** The same for a single enqueue. */
    method Enqueue(val: nat, answers: seq<Resource>) returns (ok: bool)
      requires Valid() && prod.PIdle?
      modifies this
      ensures Valid() && prod.PIdle?
      ensures Progress([val], ok, old(q), old(book).items, old(tailBlock))
      ensures Succeeds(c, old(q), 1, answers, ok)
    {
      Begin([val], false);
      ok := Finish([val], answers);
    }

    method Begin(vals: seq<nat>, bulk: bool)
      requires Valid() && prod.PIdle? && (!bulk ==> |vals| == 1)
      modifies this`prod, this`local
      ensures Valid() && Bounded(c, View()) && View() == Start(old(View()), vals, bulk)
      ensures 0 <= Rank(c, View()) == |vals| + 16 * (Ceil(q.tail + |vals|, c.blockSize) - Ceil(q.tail, c.blockSize)) + 10
    {
      EnqueueStep(c, View(), book, vals, bulk);
      NumMono(q.tail - 1, q.tail + |vals| - 1, c.blockSize);
      NeededIsCeil(q.tail, |vals|, c.blockSize);
      prod := PCheck(vals, []);
      local := Locals(tailBlock, None, tailBlock, None, bulk);
    }

    /** What holds between the accesses of an operation that runs alone. */
    ghost predicate Going(vals: seq<nat>, ok: bool, smooth: bool, q0: Claims.Counters, items: seq<nat>, tail: Option<nat>)
      reads this
    {
      && Valid() && Bounded(c, View()) && 0 <= Rank(c, View())
      && Progress(vals, ok, q0, items, tail) && OnCourse(c, View(), smooth, ok)
      && (ok ==> HasRoom(c, q0.tail, q0.head, |vals|))
    }

    method Finish(vals: seq<nat>, answers: seq<Resource>) returns (ok: bool)
      requires Valid() && Bounded(c, View()) && 0 <= Rank(c, View()) && prod == PCheck(vals, [])
      modifies this
      ensures Valid() && prod.PIdle?
      ensures Progress(vals, ok, old(q), old(book).items, old(StartBlock(View())))
      ensures ok ==> HasRoom(c, old(q).tail, old(q).head, |vals|)
      ensures HasRoom(c, old(q).tail, old(q).head, |vals|) && AllGranted(answers) && |answers| >= old(Rank(c, View())) ==> ok
    {
      ghost var room := HasRoom(c, q.tail, q.head, |vals|);
      ok := Loop(vals, answers, room && AllGranted(answers) && |answers| >= Rank(c, View()), q, book.items, local.start);
    }

    method Loop(vals: seq<nat>, answers: seq<Resource>, ghost smooth: bool, ghost q0: Claims.Counters, ghost items: seq<nat>,
            ghost tail: Option<nat>) returns (ok: bool)
      requires Going(vals, false, smooth, q0, items, tail)
      requires smooth ==> !prod.PIdle? && HasRoom(c, q0.tail, q0.head, |vals|) && AllGranted(answers) && |answers| >= Rank(c, View())
      modifies this
      ensures Going(vals, ok, smooth, q0, items, tail) && prod.PIdle?
    {
      ok := false;
      var asked := 0;
      ghost var rank := Rank(c, View());
      while !prod.PIdle?
        invariant Going(vals, ok, smooth, q0, items, tail)
        invariant 0 <= asked && asked + Rank(c, View()) <= rank
        decreases Rank(c, View())
      {
        RankPositive(c, View(), book);
        var r := if asked < |answers| then answers[asked] else Nothing;
        asked := asked + 1;
        ok := Continue(vals, r, smooth, q0, items, tail);
      }
    }

    method Continue(vals: seq<nat>, r: Resource, ghost smooth: bool, ghost q0: Claims.Counters, ghost items: seq<nat>,
            ghost tail: Option<nat>) returns (ok: bool)
      requires Going(vals, false, smooth, q0, items, tail) && !prod.PIdle?
      requires smooth ==> r.Allocate? && HasRoom(c, q0.tail, q0.head, |vals|)
      modifies this
      ensures Going(vals, ok, smooth, q0, items, tail) && Rank(c, View()) < Rank(c, old(View()))
    {
      ok := Advance(r, smooth);
    }

    /** One access, and whether it was the store that publishes the elements. */
    method Advance(r: Resource, ghost smooth: bool) returns (ok: bool)
      requires Valid() && Bounded(c, View()) && !prod.PIdle? && OnCourse(c, View(), smooth, false)
      requires smooth ==> r.Allocate? && HasRoom(c, q.tail, q.head, |prod.vals|)
      modifies this
      ensures Valid() && Bounded(c, View()) && 0 <= Rank(c, View()) < Rank(c, old(View()))
      ensures ok == old(prod).PStore?
      ensures if ok then prod.PIdle? && book.items == old(book).items + old(prod).vals && q.tail == old(q).tail + |old(prod).vals|
              else book.items == old(book).items && q == old(q) && StartBlock(View()) == StartBlock(old(View()))
      ensures !prod.PIdle? ==> prod.vals == old(prod).vals
      ensures OnCourse(c, View(), smooth, ok) && (ok ==> HasRoom(c, old(q).tail, old(q).head, |old(prod).vals|))
    {
      ProducerStep(c, View(), book, r);
      EachStepCounts(c, View(), book, r);
      ImplicitProducerTheorems.ProducerMoves(c, View(), book, r);
      QueueSame(c, View(), r);
      StaysOnCourse(c, View(), book, r, smooth);
      ok := prod.PStore?;
      Produce(r);
    }
  }

  lemma RankPositive(c: Config, m: Memory, b: Ledger)
    requires Inv(c, m, b) && !m.prod.PIdle? && Bounded(c, m)
    ensures Rank(c, m) > 0
  {
    StepIsSafe(c, m, b, Nothing);
    EachStepCounts(c, m, b, Nothing);
  }

  predicate AllGranted(answers: seq<Resource>) { forall i :: 0 <= i < |answers| ==> answers[i].Allocate? }

  /** A lone operation succeeds only if there is room for its elements, and if there is room and enough memory, it does. */
  predicate Succeeds(c: Config, q: Claims.Counters, count: nat, answers: seq<Resource>, ok: bool) {
    c.blockSize > 0 &&
    var more := Ceil(q.tail + count, c.blockSize) - Ceil(q.tail, c.blockSize);
    && (ok ==> HasRoom(c, q.tail, q.head, count))
    && (AllGranted(answers) && |answers| >= count + 16 * more + 10 ==> (ok <==> HasRoom(c, q.tail, q.head, count)))
  }

  /** A lone operation: blocks that have passed the full test had room; one that cannot fail does not. */
  predicate OnCourse(c: Config, m: Memory, smooth: bool, ok: bool) {
    && c.blockSize > 0 && PassedTest(c, m)
    && (smooth ==> if m.prod.PIdle? then ok else !Failing(m.prod))
  }

  lemma StaysOnCourse(c: Config, m: Memory, b: Ledger, r: Resource, smooth: bool)
    requires Inv(c, m, b) && ProducerSafe(c, m) && !m.prod.PIdle? && OnCourse(c, m, smooth, false)
    requires smooth ==> r.Allocate? && HasRoom(c, m.q.tail, m.q.head, |m.prod.vals|)
    ensures OnCourse(c, StepProducer(c, m, r), smooth, m.prod.PStore?)
    ensures m.prod.PStore? ==> HasRoom(c, m.q.tail, m.q.head, |m.prod.vals|)
  {
    EnqueueResults.ProducerMoves(c, m, r);
    if smooth { RoomMeansNoCause(c, m); }
    var p := StepProducer(c, m, r).prod;
    if m.prod.PStore? {
      StoreHasAll(c, m, b);
      AllPassedIsRoom(c, m);
    } else if !Failing(m.prod) && !Failing(p) {
      PassesOn(c, m, r);
    }
  }

  lemma QueueSame(c: Config, m: Memory, r: Resource)
    requires ProducerSafe(c, m) && !m.prod.PIdle?
    ensures !m.prod.PStore? ==> StepProducer(c, m, r).q == m.q
  {
  }
}
