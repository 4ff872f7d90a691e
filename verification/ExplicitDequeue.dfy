/** Consumers of an explicit producer while it goes on enqueuing: each loads the current index, its front, the base it shows
    and the entry of its own block at different times, between which the producer may reuse blocks, link in new ones and
    replace the index. That a consumer claims its element before it loads the index is what makes a replaced index good
    enough. An enqueue is one step here (ExplicitRing has its loops and its order of stores). */
module ExplicitDequeue {
  import opened Wrappers
  import opened Bits
  import opened BlockIndex
  import opened BlockNumbers
  import opened ExplicitRing

  /** The next access of a consumer that has claimed index i. Indexes are numbered in the order of their making. */
  datatype Pc =
    | Out
    | LoadIndex(i: nat)                                     // localBlockIndex := blockIndex
    | LoadFront(i: nat, k: nat)                             // localBlockIndexHead := localBlockIndex->front
    | LoadBase(i: nat, k: nat, front: nat)                  // headBase := entries[localBlockIndexHead].base
    | LoadBlock(i: nat, k: nat, front: nat, base: int)      // block := entries[slot].block
    | Move(i: nat, block: nat)                              // element moved out, set_empty

  datatype State = State(r: Ring, b: Record, cells: map<(nat, nat), nat>, items: seq<nat>, pc: seq<Pc>)

  /** `Claim` is what OptimisticDequeue grants: an index below tailIndex that nobody else has. */
  datatype Action = Reuse(v: nat) | Add(block: nat, v: nat) | Continue(v: nat) | Double | Claim(t: nat, i: nat) | Advance(t: nat)

  function EntriesOf(s: State, k: nat): seq<Option<Slotted>> {
    if k < |s.b.retired| then s.b.retired[k].entries else s.r.entries
  }

  function PhaseOf(s: State, k: nat): int { if k < |s.b.retired| then s.b.retired[k].phase else s.b.phase }

  /** The front that index k shows: the slot of the last block announced in it. */
  function FrontOf(s: State, k: nat): nat
    requires |EntriesOf(s, k)| > 0
  {
    Slot(PhaseOf(s, k), if k < |s.b.retired| then s.b.retired[k].last else s.b.last, |EntriesOf(s, k)|)
  }

  predicate Claims(pc: Pc, i: nat) { !pc.Out? && pc.i == i }

  predicate Unclaimed(pcs: seq<Pc>, i: nat) { forall u :: 0 <= u < |pcs| ==> !Claims(pcs[u], i) }

  /** The accesses of a consumer meet no missing entry and no missing block. */
  predicate Safe(s: State, t: nat, blockSize: nat) {
    t < |s.pc| && blockSize > 0 &&
    match s.pc[t]
    case Out => false
    case LoadIndex(_) => true
    case LoadFront(_, k) => |EntriesOf(s, k)| > 0
    case LoadBase(_, k, front) => front < |EntriesOf(s, k)| && EntriesOf(s, k)[front].Some?
    case LoadBlock(i, k, front, base) =>
      |EntriesOf(s, k)| > 0 && EntriesOf(s, k)[DequeueSlot(front, base, i, |EntriesOf(s, k)|, blockSize)].Some?
    case Move(i, block) =>
      (block, Off(i, blockSize)) in s.cells && block in s.r.flags && |s.r.flags[block]| == blockSize
  }

  predicate Enabled(s: State, a: Action, blockSize: nat) {
    && blockSize > 0 && s.r.front < |s.r.entries|
    && match a
       case Reuse(_) => Off(s.r.tail, blockSize) == 0 && CanReuse(s.r)
       case Add(block, _) => Off(s.r.tail, blockSize) == 0 && block !in s.b.ring && s.r.used < |s.r.entries|
       case Continue(_) => Off(s.r.tail, blockSize) != 0 && s.r.tailBlock.Some?
       case Double => true
       case Claim(t, i) =>
         t < |s.pc| && s.pc[t].Out? && i < s.r.tail && i !in s.b.done && Unclaimed(s.pc, i)
       case Advance(t) => Safe(s, t, blockSize)
  }

  /** Element v goes to the cell of tailIndex in the tail block of ring r. */
  function Store(s: State, r: Ring, b: Record, v: nat, blockSize: nat): State
    requires blockSize > 0 && r.tailBlock.Some?
  {
    s.(r := r, b := b, cells := s.cells[(r.tailBlock.value, Off(s.r.tail, blockSize)) := v], items := s.items + [v])
  }

  function StepConsumer(s: State, t: nat, blockSize: nat): State
    requires Safe(s, t, blockSize)
  {
    match s.pc[t]
    case LoadIndex(i) => s.(pc := s.pc[t := LoadFront(i, |s.b.retired|)])
    case LoadFront(i, k) => s.(pc := s.pc[t := LoadBase(i, k, FrontOf(s, k))])
    case LoadBase(i, k, front) => s.(pc := s.pc[t := LoadBlock(i, k, front, EntriesOf(s, k)[front].value.number)])
    case LoadBlock(i, k, front, base) =>
      s.(pc := s.pc[t := Move(i, EntriesOf(s, k)[DequeueSlot(front, base, i, |EntriesOf(s, k)|, blockSize)].value.block)])
    case Move(i, block) =>
      s.(r := SetFlag(s.r, block, i, blockSize), b := s.b.(done := s.b.done + {i as int}), pc := s.pc[t := Out])
  }

  function Step(s: State, a: Action, blockSize: nat): State
    requires Enabled(s, a, blockSize)
  {
    match a
    case Reuse(v) =>
      Store(s, ExplicitRing.Reuse(s.r, blockSize), if s.b.ring == [] then s.b else Rotated(s.b), v, blockSize)
    case Add(block, v) => Store(s, Insert(s.r, block, blockSize), Extended(s.b, block), v, blockSize)
    case Continue(v) => Store(s, s.r.(tail := s.r.tail + 1), s.b, v, blockSize)
    case Double => s.(r := Doubled(s.r), b := DoubledBook(s.r, s.b))
    case Claim(t, i) => s.(pc := s.pc[t := LoadIndex(i)])
    case Advance(t) => StepConsumer(s, t, blockSize)
  }

  // ----- The invariant

  predicate PcOk(s: State, pc: Pc, blockSize: nat)
    requires blockSize > 0
  {
    pc.Out? ||
    (&& pc.i < s.r.tail && pc.i !in s.b.done
     && match pc
        case LoadIndex(_) => true
        case LoadFront(i, k) => SeenBefore(s, k, i, blockSize)
        case LoadBase(i, k, front) =>
          SeenBefore(s, k, i, blockSize) && front < |EntriesOf(s, k)| && EntriesOf(s, k)[front].Some?
        case LoadBlock(i, k, front, base) =>
          SeenBefore(s, k, i, blockSize) && |EntriesOf(s, k)| > 0 && front == Slot(PhaseOf(s, k), base, |EntriesOf(s, k)|)
        case Move(i, block) => InWindow(s.b, Num(i, blockSize)) && block == BlockOf(s.b, Num(i, blockSize)))
  }

  /** Index k was still in use when the block of i was announced. */
  predicate SeenBefore(s: State, k: nat, i: nat, blockSize: nat)
    requires blockSize > 0
  {
    k <= |s.b.retired| && (k < |s.b.retired| ==> Num(i, blockSize) <= s.b.retired[k].last)
  }

  ghost predicate Inv(s: State, blockSize: nat) {
    && ExplicitRing.Inv(s.r, s.b, blockSize) && CellsOk(s.r, s.b, s.cells, s.items, blockSize)
    && (forall t {:trigger PcOk(s, s.pc[t], blockSize)} :: 0 <= t < |s.pc| ==> PcOk(s, s.pc[t], blockSize))
    && (forall t, u :: 0 <= t < u < |s.pc| && !s.pc[t].Out? && !s.pc[u].Out? ==> s.pc[t].i != s.pc[u].i)
  }

  // ----- What an index shows, current or replaced

  lemma IndexShows(s: State, k: nat, n: int, blockSize: nat)
    requires ExplicitRing.Inv(s.r, s.b, blockSize) && k <= |s.b.retired| && InWindow(s.b, n)
    requires k < |s.b.retired| ==> n <= s.b.retired[k].last
    ensures |EntriesOf(s, k)| > 0 && Shown(EntriesOf(s, k), PhaseOf(s, k), s.b, n) && InPlace(EntriesOf(s, k), PhaseOf(s, k))
  {
    if k < |s.b.retired| { assert RetiredOk(s.b.retired[k], s.b); }
  }

  /** The front of index k is the slot of a block that is still in the ring, as long as one older than it is. */
  lemma FrontShown(s: State, k: nat, i: nat, blockSize: nat)
    requires ExplicitRing.Inv(s.r, s.b, blockSize) && i < s.r.tail && i !in s.b.done && SeenBefore(s, k, i, blockSize)
    ensures |EntriesOf(s, k)| > 0 && EntriesOf(s, k)[FrontOf(s, k)].Some?
  {
    UndoneInWindow(s.r, s.b, i, blockSize);
    if k < |s.b.retired| {
      assert RetiredOk(s.b.retired[k], s.b);
      IndexShows(s, k, s.b.retired[k].last, blockSize);
    } else {
      IndexShows(s, k, s.b.last, blockSize);
    }
  }

  lemma SlotFound(s: State, k: nat, i: nat, front: nat, base: int, blockSize: nat)
    requires ExplicitRing.Inv(s.r, s.b, blockSize) && i < s.r.tail && i !in s.b.done && SeenBefore(s, k, i, blockSize)
    requires |EntriesOf(s, k)| > 0 && front == Slot(PhaseOf(s, k), base, |EntriesOf(s, k)|)
    ensures InWindow(s.b, Num(i, blockSize))
    ensures EntriesOf(s, k)[DequeueSlot(front, base, i, |EntriesOf(s, k)|, blockSize)]
         == Some(Slotted(Num(i, blockSize), BlockOf(s.b, Num(i, blockSize))))
  {
    if k < |s.b.retired| {
      StaleDequeueFindsBlock(s.r, s.b, i, k, front, base, blockSize);
    } else {
      UndoneInWindow(s.r, s.b, i, blockSize);
      IndexShows(s, k, Num(i, blockSize), blockSize);
      LookupFindsSlot(PhaseOf(s, k), front, base, Num(i, blockSize), |EntriesOf(s, k)|);
    }
  }

  lemma CellFound(s: State, i: nat, blockSize: nat)
    requires ExplicitRing.Inv(s.r, s.b, blockSize) && CellsOk(s.r, s.b, s.cells, s.items, blockSize)
    requires i < s.r.tail && i !in s.b.done
    ensures InWindow(s.b, Num(i, blockSize)) && |s.items| == s.r.tail
    ensures var block := BlockOf(s.b, Num(i, blockSize));
      && (block, Off(i, blockSize)) in s.cells && s.cells[(block, Off(i, blockSize))] == s.items[i]
      && block in s.r.flags && |s.r.flags[block]| == blockSize && !s.r.flags[block][FlagOf(i, blockSize)]
  {
    assert CellOk(s.b, s.cells, s.items, i, blockSize);
    SetFlagKeepsInv(s.r, s.b, i, blockSize);
  }

  /** Every access of a consumer is safe. */
  lemma ConsumerIsSafe(s: State, t: nat, blockSize: nat)
    requires Inv(s, blockSize) && t < |s.pc| && !s.pc[t].Out?
    ensures Safe(s, t, blockSize)
  {
    assert PcOk(s, s.pc[t], blockSize);
    match s.pc[t]
    case LoadFront(i, k) => FrontShown(s, k, i, blockSize);
    case LoadBlock(i, k, front, base) => SlotFound(s, k, i, front, base, blockSize);
    case Move(i, _) => CellFound(s, i, blockSize);
    case _ =>
  }

  // ----- Steps

  /** What a step of the producer leaves as it is for a consumer: the indexes that were there, and the blocks of the
      elements that are not dequeued. */
  ghost predicate Unmoved(s: State, s': State, blockSize: nat)
    requires blockSize > 0
  {
    && s'.pc == s.pc && s.r.tail <= s'.r.tail && s'.b.done == s.b.done
    && |s.b.retired| <= |s'.b.retired|
    && (forall k: nat :: k <= |s.b.retired| ==> |EntriesOf(s', k)| == |EntriesOf(s, k)| && PhaseOf(s', k) == PhaseOf(s, k))
    && (forall k: nat, f: nat :: k <= |s.b.retired| && f < |EntriesOf(s, k)| && EntriesOf(s, k)[f].Some? ==> EntriesOf(s', k)[f].Some?)
    && (forall k: nat, i: nat :: i < s.r.tail && SeenBefore(s, k, i, blockSize) ==> SeenBefore(s', k, i, blockSize))
    && (forall i: nat {:trigger Num(i, blockSize)} :: i < s.r.tail && i !in s.b.done && InWindow(s.b, Num(i, blockSize)) ==>
          InWindow(s'.b, Num(i, blockSize)) && BlockOf(s'.b, Num(i, blockSize)) == BlockOf(s.b, Num(i, blockSize)))
  }

  lemma PcsFrame(s: State, s': State, blockSize: nat)
    requires Inv(s, blockSize) && Unmoved(s, s', blockSize)
    ensures forall t {:trigger PcOk(s', s'.pc[t], blockSize)} :: 0 <= t < |s'.pc| ==> PcOk(s', s'.pc[t], blockSize)
  {
    forall t {:trigger PcOk(s', s'.pc[t], blockSize)} | 0 <= t < |s'.pc| ensures PcOk(s', s'.pc[t], blockSize) {
      assert PcOk(s, s.pc[t], blockSize);
    }
  }

  lemma StoreKeepsCells(s: State, r: Ring, b: Record, v: nat, blockSize: nat)
    requires blockSize > 0 && CellsOk(s.r, b, s.cells, s.items, blockSize) && ExplicitRing.Inv(r, b, blockSize)
    requires r.tail == s.r.tail + 1
    ensures r.tailBlock.Some?
    ensures CellsOk(r, b, Store(s, r, b, v, blockSize).cells, Store(s, r, b, v, blockSize).items, blockSize)
  {
    ConstructKeepsCells(r.(tail := s.r.tail), b, s.cells, s.items, blockSize, v) by {
      assert r.(tail := s.r.tail).(tail := s.r.tail + 1) == r;
    }
  }

  lemma ReuseStep(s: State, v: nat, blockSize: nat)
    requires Inv(s, blockSize) && Enabled(s, Reuse(v), blockSize)
    ensures Inv(Step(s, Reuse(v), blockSize), blockSize)
  {
    ReuseKeepsInv(s.r, s.b, blockSize);
    var r', b' := ExplicitRing.Reuse(s.r, blockSize), Rotated(s.b);
    EnteredKeepsCells(s.r, s.b, r'.(tail := s.r.tail), b', s.cells, s.items, blockSize, None, true);
    StoreKeepsCells(s, r', b', v, blockSize);
    PcsFrame(s, Step(s, Reuse(v), blockSize), blockSize);
  }

  lemma AddStep(s: State, block: nat, v: nat, blockSize: nat)
    requires Inv(s, blockSize) && Enabled(s, Add(block, v), blockSize)
    ensures Inv(Step(s, Add(block, v), blockSize), blockSize)
  {
    InsertKeepsInv(s.r, s.b, block, blockSize);
    var r', b' := Insert(s.r, block, blockSize), Extended(s.b, block);
    ExtendedKeepsCells(s.r, s.b, block, s.cells, s.items, blockSize);
    StoreKeepsCells(s, r', b', v, blockSize);
    PcsFrame(s, Step(s, Add(block, v), blockSize), blockSize);
  }

  lemma ExtendedKeepsCells(r: Ring, b: Record, block: nat, cells: map<(nat, nat), nat>, items: seq<nat>, blockSize: nat)
    requires blockSize > 0 && CellsOk(r, b, cells, items, blockSize)
    ensures CellsOk(r, Extended(b, block), cells, items, blockSize)
  {
    forall i | 0 <= i < r.tail && i !in b.done ensures CellOk(Extended(b, block), cells, items, i, blockSize) {
      assert CellOk(b, cells, items, i, blockSize);
    }
  }

  lemma ContinueStep(s: State, v: nat, blockSize: nat)
    requires Inv(s, blockSize) && Enabled(s, Continue(v), blockSize)
    ensures Inv(Step(s, Continue(v), blockSize), blockSize)
  {
    ContinueKeepsInv(s.r, s.b, blockSize);
    StoreKeepsCells(s, s.r.(tail := s.r.tail + 1), s.b, v, blockSize);
    PcsFrame(s, Step(s, Continue(v), blockSize), blockSize);
  }

  lemma DoubleStep(s: State, blockSize: nat)
    requires Inv(s, blockSize) && Enabled(s, Double, blockSize)
    ensures Inv(Step(s, Double, blockSize), blockSize)
  {
    var s' := Step(s, Double, blockSize);
    DoubleKeepsInv(s.r, s.b, blockSize);
    CellsFrame(s.r, s.b, s'.r, s.b, s.cells, s.items, blockSize);
    DoubledKeepsCells(s'.r, s.b, s'.b, s.cells, s.items, blockSize);
    forall k: nat, i: nat | i < s.r.tail && SeenBefore(s, k, i, blockSize) ensures SeenBefore(s', k, i, blockSize) {
      NumMono(i, s.r.tail - 1, blockSize);
    }
    PcsFrame(s, s', blockSize);
  }

  lemma DoubledKeepsCells(r: Ring, b: Record, b': Record, cells: map<(nat, nat), nat>, items: seq<nat>, blockSize: nat)
    requires blockSize > 0 && CellsOk(r, b, cells, items, blockSize) && b'.ring == b.ring && b'.last == b.last && b'.done == b.done
    ensures CellsOk(r, b', cells, items, blockSize)
  {
    forall i | 0 <= i < r.tail && i !in b'.done ensures CellOk(b', cells, items, i, blockSize) {
      assert CellOk(b, cells, items, i, blockSize);
    }
  }

  lemma ClaimStep(s: State, t: nat, i: nat, blockSize: nat)
    requires Inv(s, blockSize) && Enabled(s, Claim(t, i), blockSize)
    ensures Inv(Step(s, Claim(t, i), blockSize), blockSize)
  {
    var s' := Step(s, Claim(t, i), blockSize);
    forall u {:trigger PcOk(s', s'.pc[u], blockSize)} | 0 <= u < |s'.pc| ensures PcOk(s', s'.pc[u], blockSize) {
      assert PcOk(s, s.pc[u], blockSize);
    }
    forall u | 0 <= u < |s.pc| && u != t && !s.pc[u].Out? ensures s.pc[u].i != i { assert !Claims(s.pc[u], i); }
  }

  lemma LoadStep(s: State, t: nat, blockSize: nat)
    requires Inv(s, blockSize) && Safe(s, t, blockSize) && !s.pc[t].Move?
    ensures Inv(StepConsumer(s, t, blockSize), blockSize)
  {
    var s' := StepConsumer(s, t, blockSize);
    assert PcOk(s, s.pc[t], blockSize);
    match s.pc[t] {
      case LoadFront(i, k) => FrontShown(s, k, i, blockSize);
      case LoadBase(i, k, front) =>
        UndoneInWindow(s.r, s.b, i, blockSize);
        IndexShows(s, k, Num(i, blockSize), blockSize);
      case LoadBlock(i, k, front, base) => SlotFound(s, k, i, front, base, blockSize);
      case _ =>
    }
    forall u {:trigger PcOk(s', s'.pc[u], blockSize)} | 0 <= u < |s'.pc| ensures PcOk(s', s'.pc[u], blockSize) {
      assert PcOk(s, s.pc[u], blockSize);
    }
  }

  lemma MoveStep(s: State, t: nat, blockSize: nat)
    requires Inv(s, blockSize) && Safe(s, t, blockSize) && s.pc[t].Move?
    ensures Inv(StepConsumer(s, t, blockSize), blockSize)
  {
    var s', i := StepConsumer(s, t, blockSize), s.pc[t].i;
    assert PcOk(s, s.pc[t], blockSize);
    SetFlagKeepsInv(s.r, s.b, i, blockSize);
    TakenKeepsCells(s.r, s.b, s.cells, s.items, i, blockSize);
    CellsFrame(s.r, s'.b, s'.r, s'.b, s.cells, s.items, blockSize);
    forall u {:trigger PcOk(s', s'.pc[u], blockSize)} | 0 <= u < |s'.pc| ensures PcOk(s', s'.pc[u], blockSize) {
      assert PcOk(s, s.pc[u], blockSize);
    }
  }

  lemma StepKeepsInv(s: State, a: Action, blockSize: nat)
    requires Inv(s, blockSize) && Enabled(s, a, blockSize)
    ensures Inv(Step(s, a, blockSize), blockSize)
  {
    match a
    case Reuse(v) => ReuseStep(s, v, blockSize);
    case Add(block, v) => AddStep(s, block, v, blockSize);
    case Continue(v) => ContinueStep(s, v, blockSize);
    case Double => DoubleStep(s, blockSize);
    case Claim(t, i) => ClaimStep(s, t, i, blockSize);
    case Advance(t) => if s.pc[t].Move? { MoveStep(s, t, blockSize); } else { LoadStep(s, t, blockSize); }
  }

  // ----- Runs

  ghost predicate Initial(s: State, blockSize: nat) {
    && blockSize > 0 && s.r.tail == 0 && s.r.tailBlock == None && s.r.used == 0 && s.r.front == 0 && |s.r.entries| > 0
    && (forall e :: 0 <= e < |s.r.entries| ==> s.r.entries[e].None?)
    && s.b == Record([], -1, 0, {}, []) && s.items == []
    && (forall t :: 0 <= t < |s.pc| ==> s.pc[t] == Out)
  }

  function Run(s: State, run: seq<Action>, blockSize: nat): State {
    if run == [] then s else
    var p, a := Run(s, run[..|run|-1], blockSize), run[|run|-1];
    if Enabled(p, a, blockSize) then Step(p, a, blockSize) else p
  }

  lemma {:induction false} RunKeepsInv(s: State, run: seq<Action>, blockSize: nat)
    requires Initial(s, blockSize)
    ensures Inv(Run(s, run, blockSize), blockSize)
  {
    if run == [] {
      StartInv(s.r, blockSize);
    } else {
      RunKeepsInv(s, run[..|run|-1], blockSize);
      var p, a := Run(s, run[..|run|-1], blockSize), run[|run|-1];
      if Enabled(p, a, blockSize) { StepKeepsInv(p, a, blockSize); }
    }
  }

  /** The elements enqueued in a run, in order. */
  function Enqueued(s: State, run: seq<Action>, blockSize: nat): seq<nat> {
    if run == [] then [] else
    var p, a := Run(s, run[..|run|-1], blockSize), run[|run|-1];
    Enqueued(s, run[..|run|-1], blockSize)
      + if Enabled(p, a, blockSize) && (a.Reuse? || a.Add? || a.Continue?) then [a.v] else []
  }

  lemma {:induction false} ItemsAreEnqueued(s: State, run: seq<Action>, blockSize: nat)
    requires Initial(s, blockSize)
    ensures Run(s, run, blockSize).items == Enqueued(s, run, blockSize)
  {
    if run != [] { ItemsAreEnqueued(s, run[..|run|-1], blockSize); }
  }

  /** No access of a consumer, at any moment of any run, meets an entry or a block that is not there; and a consumer that
      holds a replaced index claimed an element of a block that this index shows. */
  lemma StaleLoadsAreSafe(s: State, run: seq<Action>, blockSize: nat, t: nat)
    requires Initial(s, blockSize) && t < |Run(s, run, blockSize).pc| && !Run(s, run, blockSize).pc[t].Out?
    ensures Safe(Run(s, run, blockSize), t, blockSize)
    ensures var p := Run(s, run, blockSize); var pc := p.pc[t];
      pc.LoadFront? && pc.k < |p.b.retired| ==> Num(pc.i, blockSize) <= p.b.retired[pc.k].last
  {
    RunKeepsInv(s, run, blockSize);
    ConsumerIsSafe(Run(s, run, blockSize), t, blockSize);
    assert PcOk(Run(s, run, blockSize), Run(s, run, blockSize).pc[t], blockSize);
  }

  /** A consumer that has looked its block up, through loads made at any times and through an index that may have been
      replaced since, moves out the element that was enqueued at the index it claimed, and which is not yet marked. */
  lemma MovesItsElement(s: State, run: seq<Action>, blockSize: nat, t: nat)
    requires Initial(s, blockSize) && t < |Run(s, run, blockSize).pc| && Run(s, run, blockSize).pc[t].Move?
    ensures blockSize > 0
    ensures var p := Run(s, run, blockSize); var i, block := p.pc[t].i, p.pc[t].block;
      && i < |Enqueued(s, run, blockSize)| && (block, Off(i, blockSize)) in p.cells
      && p.cells[(block, Off(i, blockSize))] == Enqueued(s, run, blockSize)[i]
      && block in p.r.flags && |p.r.flags[block]| == blockSize && !p.r.flags[block][FlagOf(i, blockSize)]
  {
    RunKeepsInv(s, run, blockSize);
    ItemsAreEnqueued(s, run, blockSize);
    var p := Run(s, run, blockSize);
    assert PcOk(p, p.pc[t], blockSize);
    CellFound(p, p.pc[t].i, blockSize);
  }

  // ----- A claim is never dropped

  /** Accesses left to a consumer. */
  function Left(pc: Pc): nat {
    match pc
    case Out => 0
    case LoadIndex(_) => 5
    case LoadFront(_, _) => 4
    case LoadBase(_, _, _) => 3
    case LoadBlock(_, _, _, _) => 2
    case Move(_, _) => 1
  }

  function Accesses(run: seq<Action>, t: nat): nat {
    if run == [] then 0 else Accesses(run[..|run|-1], t) + if run[|run|-1] == Advance(t) then 1 else 0
  }

  /** Consumer t, which claimed i, has dequeued it, or still has five accesses to make less those it has made. */
  predicate Served(s: State, t: nat, i: nat, made: nat) {
    i in s.b.done || (t < |s.pc| && Claims(s.pc[t], i) && Left(s.pc[t]) + made == 5)
  }

  lemma StepServes(s: State, a: Action, blockSize: nat, t: nat, i: nat, made: nat)
    requires Inv(s, blockSize) && Served(s, t, i, made)
    ensures Served(if Enabled(s, a, blockSize) then Step(s, a, blockSize) else s, t, i, made + if a == Advance(t) then 1 else 0)
  {
    if i !in s.b.done && a == Advance(t) { ConsumerIsSafe(s, t, blockSize); }
  }

  lemma LastServes(s: State, run: seq<Action>, blockSize: nat, t: nat, i: nat, made: nat)
    requires Initial(s, blockSize) && run != [] && Served(Run(s, run[..|run|-1], blockSize), t, i, made)
    ensures Served(Run(s, run, blockSize), t, i, made + if run[|run|-1] == Advance(t) then 1 else 0)
  {
    RunKeepsInv(s, run[..|run|-1], blockSize);
    StepServes(Run(s, run[..|run|-1], blockSize), run[|run|-1], blockSize, t, i, made);
  }

  /** In every interleaving a consumer that has claimed an index makes exactly five accesses for it, and with the last of
      them the index is dequeued. */
  lemma {:induction false} ClaimIsServed(s: State, run: seq<Action>, more: seq<Action>, blockSize: nat, t: nat, i: nat)
    requires Initial(s, blockSize) && Enabled(Run(s, run, blockSize), Claim(t, i), blockSize)
    ensures var p := Run(s, run + [Claim(t, i)] + more, blockSize);
      && Served(p, t, i, Accesses(more, t))
      && (Accesses(more, t) >= 5 ==> i in p.b.done)
  {
    var all := run + [Claim(t, i)] + more;
    if more == [] {
      assert all == run + [Claim(t, i)] && all[..|all|-1] == run;
    } else {
      var front := more[..|more|-1];
      assert all[..|all|-1] == run + [Claim(t, i)] + front;
      ClaimIsServed(s, run, front, blockSize, t, i);
      LastServes(s, all, blockSize, t, i, Accesses(front, t));
    }
  }
}
