/** When an enqueue of the implicit producer succeeds and when it fails. */
module EnqueueResults {
  import opened Wrappers
  import opened BlockIndex
  import opened BlockNumbers
  import opened ImplicitProducer
  import opened ImplicitProducerInvariant
  import opened ImplicitProducerProof
  import opened ImplicitProducerRuns
  import opened ImplicitProducerTheorems
  import opened ImplicitProducerChain

  // ----- The causes of a failure

  /** On the way to return false. */
  predicate Failing(p: Producing) {
    p.PRewind? || p.PClear? || p.PUndo? || p.PUndoTail? || p.PUndoNext? || p.PFree? || p.PGive?
  }

  /** A block more, the n-th of the queue counted from 0, would bring the producer half way round the counters ahead of
      the consumers, or the sub-queue beyond MAX_SUBQUEUE_SIZE. */
  predicate NoRoom(c: Config, head: int, n: int) {
    || n * c.blockSize + c.blockSize - head >= c.half
    || (c.maxSize.Some? && n * c.blockSize + c.blockSize - head > c.maxSize.value)
    || c.maxSize == Some(0)
  }

  /** The entry behind the index tail is in use: it shows a block that is not completely dequeued yet. */
  predicate NextIsUsed(ix: Index)
    requires Shaped(ix)
  {
    var h := ix.headers[|ix.headers| - 1];
    var e := ix.entries[h.index[(h.tail + 1) % |h.index|]];
    e.key.Some? && e.value.Some?
  }

  /** Why an access is the one that makes the operation fail: the full test, for the next block of the queue; a bigger
      index that is not to be had; or a block that neither the pool nor the allocator has. */
  predicate Cause(c: Config, m: Memory, a: Action) {
    c.blockSize > 0 && a.Produce? && ProducerSafe(c, m) && match m.prod
    case PCheck(vals, got) =>
      var n := Ceil(m.q.tail, c.blockSize) + |got|;
      n * c.blockSize < m.q.tail + |vals| && NoRoom(c, m.q.head, n)
    case PGrow(_, _) => !a.r.Allocate?
    case PRequest(_, _, _) => !a.r.Allocate? && !(a.r.FromPool? && a.r.block in m.free)
    case _ => false
  }

  /** A further block is needed as long as the elements reach beyond those acquired. */
  lemma NeedsMore(start: int, count: nat, blockSize: nat, got: nat)
    requires blockSize > 0
    ensures got < Needed(start, count, blockSize) <==> (Ceil(start, blockSize) + got) * blockSize < start + count
    ensures Ceil(start, blockSize) == FirstNew(start, blockSize)
  {
    NeededIsCeil(start, count, blockSize);
    CeilIsNext(start, blockSize);
    CeilAbove(Ceil(start, blockSize) + got, start + count, blockSize);
  }

  /** n is below the number of blocks that x elements touch exactly if n blocks do not hold them. */
  lemma CeilAbove(n: int, x: int, blockSize: nat)
    requires blockSize > 0
    ensures n < Ceil(x, blockSize) <==> n * blockSize < x
  {
    var q, y := Ceil(x, blockSize), x + blockSize - 1;
    assert y == q * blockSize + y % blockSize;
    if n < q { MulMono(n + 1, q, blockSize); } else { MulMono(q, n, blockSize); }
  }

  lemma MulMono(a: int, z: int, k: nat)
    requires a <= z
    ensures a * k <= z * k
  {
  }

  lemma StartsFailing(c: Config, m: Memory, r: Resource)
    requires ProducerSafe(c, m) && !m.prod.PIdle? && !Failing(m.prod)
    ensures var p := StepProducer(c, m, r).prod;
      if m.prod.PStore? then p.PIdle? else !p.PIdle? && (Failing(p) <==> Cause(c, m, Produce(r)))
  {
    if m.prod.PCheck? { NeedsMore(m.q.tail, |m.prod.vals|, c.blockSize, |m.prod.got|); }
  }

  lemma StaysFailing(c: Config, m: Memory, r: Resource)
    requires ProducerSafe(c, m) && Failing(m.prod)
    ensures var p := StepProducer(c, m, r).prod; p.PIdle? || Failing(p)
  {
  }

  lemma OthersKeepProducing(c: Config, m: Memory, b: Ledger, a: Action)
    requires Inv(c, m, b) && Enabled(c, m, a) && !a.Produce? && !m.prod.PIdle?
    ensures Step(c, m, a).prod == m.prod && Step(c, m, a).q.tail == m.q.tail
  {
    if a.Consume? { ConsumerKeepsProducing(c, m, b, a.t); }
  }

  lemma PerformProduces(c: Config, p: State, r: Resource)
    requires Sensible(p) && !p.m.prod.PIdle? && ProducerSafe(c, p.m)
    ensures Perform(c, p, Produce(r)).m == StepProducer(c, p.m, r)
  {
  }

  /** What one event of a run, of the producer or of others, does to the phase of the operation. */
  predicate Moves(c: Config, m: Memory, a: Action, now: Producing) {
    if Failing(m.prod) then now.PIdle? || Failing(now)
    else if now.PIdle? then m.prod.PStore?
    else Failing(now) <==> Cause(c, m, a)
  }

  /** A bigger index is asked for only after the next entry was found used. */
  predicate Grows(m: Memory, a: Action, now: Producing) {
    now.PGrow? ==> m.prod.PGrow? || (a.Produce? && m.prod.PRoom? && Shaped(m.ix) && NextIsUsed(m.ix))
  }

  lemma ProducerMoves(c: Config, m: Memory, r: Resource)
    requires ProducerSafe(c, m) && !m.prod.PIdle?
    ensures Moves(c, m, Produce(r), StepProducer(c, m, r).prod)
  {
    if Failing(m.prod) { StaysFailing(c, m, r); } else { StartsFailing(c, m, r); }
  }

  lemma ProducerGrows(c: Config, m: Memory, r: Resource)
    requires ProducerSafe(c, m) && !m.prod.PIdle?
    ensures Grows(m, Produce(r), StepProducer(c, m, r).prod)
  {
  }

  lemma EventMoves(c: Config, p: State, a: Action)
    requires Inv(c, p.m, p.b) && Sensible(p) && !p.m.prod.PIdle?
    ensures Moves(c, p.m, a, Perform(c, p, a).m.prod) && Grows(p.m, a, Perform(c, p, a).m.prod)
  {
    if a.Produce? {
      ProducerStep(c, p.m, p.b, a.r);
      PerformProduces(c, p, a.r);
      ProducerMoves(c, p.m, a.r);
      ProducerGrows(c, p.m, a.r);
    } else {
      OthersPerform(c, p, a);
    }
  }

  lemma OthersPerform(c: Config, p: State, a: Action)
    requires Inv(c, p.m, p.b) && Sensible(p) && !p.m.prod.PIdle? && !a.Produce?
    ensures Perform(c, p, a).m.prod == p.m.prod
  {
    if Enabled(c, p.m, a) { OthersKeepProducing(c, p.m, p.b, a); }
  }

  // ----- In every interleaving

  predicate CauseAt(c: Config, h: seq<Memory>, run: seq<Action>, j: nat)
    requires |h| == |run| + 1 && j < |run|
  {
    Cause(c, h[j], run[j])
  }

  predicate SomeCause(c: Config, h: seq<Memory>, run: seq<Action>)
    requires |h| == |run| + 1
  {
    exists j :: 0 <= j < |run| && CauseAt(c, h, run, j)
  }

  predicate MovesAt(c: Config, h: seq<Memory>, run: seq<Action>, j: nat)
    requires |h| == |run| + 1 && j < |run|
  {
    Moves(c, h[j], run[j], h[j+1].prod) && Grows(h[j], run[j], h[j+1].prod)
  }

  /** The memories of an operation, from its start on; it has not ended before the last of them. */
  predicate Follows(c: Config, h: seq<Memory>, run: seq<Action>) {
    && |h| == |run| + 1 && h[0].prod.PCheck?
    && (forall j {:trigger MovesAt(c, h, run, j)} :: 0 <= j < |run| ==> MovesAt(c, h, run, j))
    && (forall j :: 0 <= j < |run| ==> !h[j].prod.PIdle?)
  }

  lemma FollowsFront(c: Config, h: seq<Memory>, run: seq<Action>)
    requires Follows(c, h, run) && run != []
    ensures Follows(c, h[..|run|], run[..|run|-1])
    ensures SomeCause(c, h, run) <==> SomeCause(c, h[..|run|], run[..|run|-1]) || CauseAt(c, h, run, |run| - 1)
  {
    var h', run' := h[..|run|], run[..|run|-1];
    forall j | 0 <= j < |run'| ensures MovesAt(c, h', run', j) { assert MovesAt(c, h, run, j); }
    forall j | 0 <= j < |run'| ensures CauseAt(c, h', run', j) <==> CauseAt(c, h, run, j) { }
  }

  lemma {:induction false} FailingHasCause(c: Config, h: seq<Memory>, run: seq<Action>)
    requires Follows(c, h, run) && !h[|run|].prod.PIdle?
    ensures Failing(h[|run|].prod) <==> SomeCause(c, h, run)
  {
    if run != [] {
      FollowsFront(c, h, run);
      FailingHasCause(c, h[..|run|], run[..|run|-1]);
      assert MovesAt(c, h, run, |run| - 1);
    }
  }

  lemma EndsByStore(c: Config, h: seq<Memory>, run: seq<Action>)
    requires Follows(c, h, run) && h[|run|].prod.PIdle?
    ensures run != [] && (h[|run|-1].prod.PStore? <==> !SomeCause(c, h, run))
  {
    FollowsFront(c, h, run);
    FailingHasCause(c, h[..|run|], run[..|run|-1]);
    assert MovesAt(c, h, run, |run| - 1);
  }

  /** The memory before each event since the start of the operation, and after the last one. */
  function History(c: Config, s: State, vals: seq<nat>, bulk: bool, run: seq<Action>): (h: seq<Memory>)
    requires Sensible(s)
    ensures |h| == |run| + 1 && forall j :: 0 <= j <= |run| ==> h[j] == From(c, s, vals, bulk, run[..j]).m
  {
    seq(|run| + 1, j requires 0 <= j <= |run| => From(c, s, vals, bulk, run[..j]).m)
  }

  lemma LastEvent(c: Config, s: State, vals: seq<nat>, bulk: bool, run: seq<Action>)
    requires Sensible(s) && Inv(c, s.m, s.b) && s.m.prod.PIdle? && (!bulk ==> |vals| == 1) && run != []
    requires !From(c, s, vals, bulk, run[..|run|-1]).m.prod.PIdle?
    ensures var m, a, now := From(c, s, vals, bulk, run[..|run|-1]).m, run[|run|-1], From(c, s, vals, bulk, run).m.prod;
      Moves(c, m, a, now) && Grows(m, a, now)
  {
    RunFromInv(c, s, vals, bulk, run[..|run|-1]);
    FromLast(c, s, vals, bulk, run);
    EventMoves(c, From(c, s, vals, bulk, run[..|run|-1]), run[|run|-1]);
  }

  lemma EventOfHistory(c: Config, s: State, vals: seq<nat>, bulk: bool, run: seq<Action>, j: nat)
    requires Sensible(s) && Inv(c, s.m, s.b) && s.m.prod.PIdle? && (!bulk ==> |vals| == 1) && j < |run|
    requires !History(c, s, vals, bulk, run)[j].prod.PIdle?
    ensures MovesAt(c, History(c, s, vals, bulk, run), run, j)
  {
    assert run[..j+1][..j] == run[..j] && run[..j+1][j] == run[j];
    LastEvent(c, s, vals, bulk, run[..j+1]);
  }

  lemma StartsAtCheck(c: Config, s: State, vals: seq<nat>, bulk: bool, run: seq<Action>)
    requires Sensible(s) && s.m.prod.PIdle? && (!bulk ==> |vals| == 1)
    ensures History(c, s, vals, bulk, run)[0].prod.PCheck?
  {
    assert run[..0] == [];
    FromNothing(c, s, vals, bulk);
  }

  lemma HistoryFollows(c: Config, s: State, vals: seq<nat>, bulk: bool, run: seq<Action>)
    requires Sensible(s) && Inv(c, s.m, s.b) && s.m.prod.PIdle? && (!bulk ==> |vals| == 1)
    requires forall j :: 0 <= j < |run| ==> !History(c, s, vals, bulk, run)[j].prod.PIdle?
    ensures Follows(c, History(c, s, vals, bulk, run), run)
  {
    StartsAtCheck(c, s, vals, bulk, run);
    forall j | 0 <= j < |run| ensures MovesAt(c, History(c, s, vals, bulk, run), run, j) {
      EventOfHistory(c, s, vals, bulk, run, j);
    }
  }

  lemma Outcome(c: Config, s: State, vals: seq<nat>, bulk: bool, run: seq<Action>)
    requires Sensible(s) && Inv(c, s.m, s.b) && s.m.prod.PIdle? && (!bulk ==> |vals| == 1) && run != []
    requires forall j :: 0 <= j < |run| ==> !From(c, s, vals, bulk, run[..j]).m.prod.PIdle?
    requires From(c, s, vals, bulk, run).m.prod.PIdle?
    ensures var p := From(c, s, vals, bulk, run);
      if From(c, s, vals, bulk, run[..|run|-1]).m.prod.PStore?
      then p.b.items == s.b.items + vals && p.m.q.tail == s.m.q.tail + |vals|
      else p.b.items == s.b.items && p.m.q.tail == s.m.q.tail
  {
    BulkAllOrNothing(c, s, vals, bulk, run);
  }

  /** An enqueue, interleaved with any steps of the consumers and of other producers: it publishes its elements if no
      access of it since its start met a cause of failure, and leaves the queue as it was if one did. */
  lemma SucceedsUnlessCause(c: Config, s: State, vals: seq<nat>, bulk: bool, run: seq<Action>)
    requires Sensible(s) && Inv(c, s.m, s.b) && s.m.prod.PIdle? && (!bulk ==> |vals| == 1)
    requires forall j :: 0 <= j < |run| ==> !History(c, s, vals, bulk, run)[j].prod.PIdle?
    requires History(c, s, vals, bulk, run)[|run|].prod.PIdle?
    ensures var p, failed := From(c, s, vals, bulk, run), SomeCause(c, History(c, s, vals, bulk, run), run);
      && p.b.items == (if failed then s.b.items else s.b.items + vals)
      && p.m.q.tail == (if failed then s.m.q.tail else s.m.q.tail + |vals|)
  {
    HistoryFollows(c, s, vals, bulk, run);
    EndsByStore(c, History(c, s, vals, bulk, run), run);
    assert run[..|run|] == run;
    forall j | 0 <= j < |run| ensures !From(c, s, vals, bulk, run[..j]).m.prod.PIdle? {
      assert !History(c, s, vals, bulk, run)[j].prod.PIdle?;
    }
    Outcome(c, s, vals, bulk, run);
  }

  /** At event i the insertion finds the next entry used; from then on the producer is about to ask for a bigger index. */
  predicate FoundUsed(h: seq<Memory>, run: seq<Action>, i: nat)
    requires |h| == |run| + 1
  {
    && i < |run| && run[i].Produce? && h[i].prod.PRoom? && Shaped(h[i].ix) && NextIsUsed(h[i].ix)
    && forall j :: i < j <= |run| ==> h[j].prod.PGrow?
  }

  lemma {:induction false} GrowHasReason(c: Config, h: seq<Memory>, run: seq<Action>) returns (i: nat)
    requires Follows(c, h, run) && h[|run|].prod.PGrow?
    ensures FoundUsed(h, run, i)
  {
    FollowsFront(c, h, run);
    assert MovesAt(c, h, run, |run| - 1);
    if h[|run|-1].prod.PGrow? {
      i := GrowHasReason(c, h[..|run|], run[..|run|-1]);
    } else {
      i := |run| - 1;
    }
  }

  /** The index is doubled only when the entry behind its tail is still in use. */
  lemma GrowsOnlyWhenUsed(c: Config, s: State, vals: seq<nat>, bulk: bool, run: seq<Action>) returns (i: nat)
    requires Sensible(s) && Inv(c, s.m, s.b) && s.m.prod.PIdle? && (!bulk ==> |vals| == 1)
    requires forall j :: 0 <= j < |run| ==> !History(c, s, vals, bulk, run)[j].prod.PIdle?
    requires History(c, s, vals, bulk, run)[|run|].prod.PGrow?
    ensures FoundUsed(History(c, s, vals, bulk, run), run, i)
  {
    HistoryFollows(c, s, vals, bulk, run);
    i := GrowHasReason(c, History(c, s, vals, bulk, run), run);
  }

  // ----- An enqueue that runs alone

  /** Room for count more elements: counted in whole blocks, the sub-queue stays less than half a round long and within
      MAX_SUBQUEUE_SIZE; or no further block is needed. */
  predicate HasRoom(c: Config, tail: int, head: int, count: nat)
    requires c.blockSize > 0
  {
    var end := Ceil(tail + count, c.blockSize) * c.blockSize;
    || Ceil(tail + count, c.blockSize) == Ceil(tail, c.blockSize)
    || (end - head < c.half && (c.maxSize.Some? ==> 0 < c.maxSize.value && end - head <= c.maxSize.value))
  }

  /** How many of the blocks needed have passed the full test. */
  function Tested(p: Producing): nat {
    if p.PIdle? || Failing(p) then 0
    else |p.got| + if p.PCheck? || p.PLink? || p.PWrite? || p.PStore? then 0 else 1
  }

  /** The last of them passed it. */
  predicate PassedTest(c: Config, m: Memory)
    requires c.blockSize > 0
  {
    Tested(m.prod) > 0 ==> !NoRoom(c, m.q.head, Ceil(m.q.tail, c.blockSize) + Tested(m.prod) - 1)
  }

  lemma PassesOn(c: Config, m: Memory, r: Resource)
    requires ProducerSafe(c, m) && !m.prod.PIdle? && !Failing(m.prod) && !m.prod.PStore?
    requires PassedTest(c, m) && !Failing(StepProducer(c, m, r).prod)
    ensures PassedTest(c, StepProducer(c, m, r))
  {
    if m.prod.PCheck? { NeedsMore(m.q.tail, |m.prod.vals|, c.blockSize, |m.prod.got|); }
  }

  /** Rooms shrink with the number of the block. */
  lemma RoomForAll(c: Config, m: Memory)
    requires c.blockSize > 0 && m.prod.PCheck?
    ensures HasRoom(c, m.q.tail, m.q.head, |m.prod.vals|) && |m.prod.got| < Needed(m.q.tail, |m.prod.vals|, c.blockSize) ==>
      !NoRoom(c, m.q.head, Ceil(m.q.tail, c.blockSize) + |m.prod.got|)
  {
    NeededIsCeil(m.q.tail, |m.prod.vals|, c.blockSize);
    if |m.prod.got| < Needed(m.q.tail, |m.prod.vals|, c.blockSize) {
      MulMono(Ceil(m.q.tail, c.blockSize) + |m.prod.got| + 1, Ceil(m.q.tail + |m.prod.vals|, c.blockSize), c.blockSize);
    }
  }

  lemma StoreHasAll(c: Config, m: Memory, b: Ledger)
    requires Core(c, m, b) && m.prod.PStore?
    ensures |m.prod.got| == Needed(m.q.tail, |m.prod.vals|, c.blockSize)
  {
  }

  /** Once all blocks needed have passed, there was room for all the elements. */
  lemma AllPassedIsRoom(c: Config, m: Memory)
    requires c.blockSize > 0 && m.prod.PStore? && PassedTest(c, m)
    requires |m.prod.got| == Needed(m.q.tail, |m.prod.vals|, c.blockSize)
    ensures HasRoom(c, m.q.tail, m.q.head, |m.prod.vals|)
  {
    NeededIsCeil(m.q.tail, |m.prod.vals|, c.blockSize);
  }

  /** With room, and memory for the asking, no access fails. */
  lemma RoomMeansNoCause(c: Config, m: Memory)
    requires ProducerSafe(c, m) && !m.prod.PIdle? && !Failing(m.prod)
    requires HasRoom(c, m.q.tail, m.q.head, |m.prod.vals|)
    ensures !Cause(c, m, Produce(Allocate))
  {
    if m.prod.PCheck? {
      RoomForAll(c, m);
      NeedsMore(m.q.tail, |m.prod.vals|, c.blockSize, |m.prod.got|);
    }
  }
}
