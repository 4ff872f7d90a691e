/** Whole runs of the implicit producer: what every interleaving of the producer with any number of consumers keeps,
    and what that means for the elements, the blocks and the index. */
module ImplicitProducerRuns {
  import opened Wrappers
  import opened Bits
  import opened BlockIndex
  import opened BlockNumbers
  import opened ImplicitProducer
  import opened ImplicitProducerInvariant
  import opened ImplicitProducerProof
  import opened ImplicitProducerSteps
  import opened ImplicitProducerBlocks
  import opened ImplicitProducerWrites
  import opened ImplicitProducerChain
  import opened ImplicitProducerConsumers
  import opened ImplicitProducerTakes
  import opened ImplicitProducerRecycling
  import opened ImplicitProducerSharing
  import Claims = OptimisticDequeue

  lemma ConsumerKeepsCore(c: Config, m: Memory, b: Ledger, t: nat)
    requires Core(c, m, b) && t < |m.cons| && (m.cons[t].CNone? ==> Claims.Enabled(m.q, t, Claims.Advance))
    ensures ConsumerSafe(c, m, t) && Core(c, StepConsumer(c, m, t), TrackConsumer(c, m, b, t))
  {
    match m.cons[t]
    case CNone => ClaimStep(c, m, b, t);
    case CHeader => HeaderStep(c, m, b, t);
    case CTail(_) => TailLoadStep(c, m, b, t);
    case CBase(_, _) => BaseLoadStep(c, m, b, t);
    case CLoad(_, _, _) => LoadStep(c, m, b, t);
    case CTake(_, _, _, _, _, _) => TakeStep(c, m, b, t);
    case CCount(_, _, _, _, _, _) => CountStep(c, m, b, t);
    case CNull(_, _, _, _, _) => NullStep(c, m, b, t);
    case CFree(_, _, _, _) => GiveStep(c, m, b, t);
  }

  /** A consumer moves elements and counts them; it touches no link. */
  lemma ConsumerKeepsLinks(c: Config, m: Memory, b: Ledger, t: nat)
    requires Claims.Inv(m.q, b.q) && ConsumerSafe(c, m, t)
    ensures LinksKept(m, StepConsumer(c, m, t))
  {
    if m.cons[t].CNone? { AdvanceFacts(m.q, b.q, t); }
  }

  lemma ConsumerStep(c: Config, m: Memory, b: Ledger, t: nat)
    requires Inv(c, m, b) && t < |m.cons| && (m.cons[t].CNone? ==> Claims.Enabled(m.q, t, Claims.Advance))
    ensures ConsumerSafe(c, m, t) && Inv(c, StepConsumer(c, m, t), TrackConsumer(c, m, b, t))
  {
    ConsumerKeepsCore(c, m, b, t);
    ConsumerKeepsLinks(c, m, b, t);
    ChainFrame(c, m, StepConsumer(c, m, t));
  }

  lemma StepKeepsInv(c: Config, m: Memory, b: Ledger, a: Action)
    requires Inv(c, m, b) && Enabled(c, m, a)
    ensures Inv(c, Step(c, m, a), Track(c, m, b, a))
  {
    match a
    case Enqueue(vals, bulk) => EnqueueStep(c, m, b, vals, bulk);
    case Produce(r) => ProducerStep(c, m, b, r);
    case Dequeue(t, max) =>
      DequeueStep(c, m, b, t, max);
      ChainFrame(c, m, Step(c, m, a));
    case Consume(t) => ConsumerStep(c, m, b, t);
    case Elsewhere(f) => ForeignStep(c, m, b, f);
  }

  // ----- Runs

  /** `log` keeps what every finished dequeue returned, under the number of its claim. */
  datatype State = State(m: Memory, b: Ledger, log: map<nat, seq<nat>>)

  /** At the start every block is in the pool or with another producer. */
  function FirstUses(n: nat, free: set<nat>): seq<Use> { seq(n, k => if k in free then Free else Abroad) }

  /** The first index, which new_block_index makes when there is none to copy. */
  function NewIndex(cap: nat): Index
    requires cap > 0
  {
    Index([Header(cap - 1, seq(cap, i => i))], seq(cap, _ => Entry(None, None)))
  }

  /** A new producer: an index of `cap` empty entries, a pool of blocks left over from anyone, and other producers that
      hold the rest. */
  ghost predicate Initial(c: Config, s: State, cap: nat) {
    && c.blockSize >= 2 && cap > 0
    && Claims.Initial(Claims.State(s.m.q, s.b.q))
    && s.m.ix == NewIndex(cap)
    && |s.m.cons| == |s.m.out| == |s.m.q.pc|
    && (forall t :: 0 <= t < |s.m.cons| ==> s.m.cons[t] == CNone)
    && (forall k :: 0 <= k < |s.m.blocks| ==> |s.m.blocks[k].cells| == c.blockSize)
    && (forall k: nat :: k in s.m.free || k in s.m.abroad <==> k < |s.m.blocks|) && s.m.free !! s.m.abroad
    && s.m.prod == PIdle
    && s.b == Ledger(s.b.q, Book([0], 0, -1), [], map[], FirstUses(|s.m.blocks|, s.m.free), {}, {})
    && s.log == map[]
  }

  lemma InitialLinks(c: Config, s: State, cap: nat)
    requires Initial(c, s, cap)
    ensures Coherent(s.m.ix, s.b.ix) && LinksOk(s.m.ix, s.b.ix, s.b.entryOf, s.b.use)
  {
    var ix := s.m.ix;
    assert HeaderFits(ix.headers[0], |ix.entries|);
    SlotInRange(0, 0, cap);
    NextSlot(0, 0, cap);
    ModUnique(-1, cap, -1, cap - 1);
    forall i | 0 <= i < cap ensures EntryOk(ix.entries[ix.headers[0].index[i]], cap, -1) { }
    ModUnique(cap, cap, 1, 0);
    forall i, j | 0 <= i < cap && 0 <= j < cap && ix.headers[0].index[i] == ix.headers[0].index[j] ensures j == Slot(0, i, cap) {
      SlotInRange(0, i, cap);
    }
    assert Aligned(ix.headers[0].index, 0, ix.headers[0].index, 0);
  }

  lemma InitialInv(c: Config, s: State, cap: nat)
    requires Initial(c, s, cap)
    ensures Inv(c, s.m, s.b)
  {
    InitialLinks(c, s, cap);
    NumUnique(-1, -1, c.blockSize);
    assert Off(0, c.blockSize) == 0;
    Claims.RunKeepsInv(Claims.State(s.m.q, s.b.q), []);
  }

  predicate Sensible(s: State) { |s.b.q.mine| == |s.b.q.claimOf| == |s.m.q.pc| }

  predicate Ends(c: Config, m: Memory, a: Action)
    requires Enabled(c, m, a)
  {
    a.Consume? && !m.cons[a.t].CNone? && Step(c, m, a).cons[a.t].CNone?
  }

  function Perform(c: Config, s: State, a: Action): (s': State)
    requires Sensible(s)
  {
    if !Enabled(c, s.m, a) then s
    else
      var m' := Step(c, s.m, a);
      State(m', Track(c, s.m, s.b, a),
            if Ends(c, s.m, a) && a.t < |m'.out| && a.t < |s.b.q.claimOf| then s.log[s.b.q.claimOf[a.t] := m'.out[a.t]] else s.log)
  }

  lemma PerformSensible(c: Config, s: State, a: Action)
    requires Sensible(s)
    ensures Sensible(Perform(c, s, a))
  {
  }

  function Execute(c: Config, s: State, run: seq<Action>): (s': State)
    requires Sensible(s)
    ensures Sensible(s')
  {
    if run == [] then s else
    var p := Execute(c, s, run[..|run|-1]);
    PerformSensible(c, p, run[|run|-1]);
    Perform(c, p, run[|run|-1])
  }

  // ----- Every claim is delivered once it is finished, and only then

  ghost predicate LogOk(s: State) {
    && |s.b.q.claimOf| == |s.m.q.pc|
    && (forall k :: k in s.log ==> k < |s.b.q.claims|)
    && (forall k :: 0 <= k < |s.b.q.claims| ==>
          k in s.log || exists t :: 0 <= t < |s.m.q.pc| && s.m.q.pc[t].Holding? && s.b.q.claimOf[t] == k)
    && (forall k :: 0 <= k < |s.b.q.claims| && k in s.log ==> Delivered(s, k))
    && (forall t :: 0 <= t < |s.m.q.pc| && s.m.q.pc[t].Holding? ==> s.b.q.claimOf[t] !in s.log)
  }

  predicate Delivered(s: State, k: nat)
    requires k < |s.b.q.claims| && k in s.log
  {
    var c := s.b.q.claims[k];
    0 <= c.first <= c.first + c.count <= |s.b.items| && s.log[k] == s.b.items[c.first..c.first + c.count]
  }

  predicate SameHolders(s: State, s': State) {
    && s'.b.q.claims == s.b.q.claims && s'.b.q.claimOf == s.b.q.claimOf && |s'.m.q.pc| == |s.m.q.pc|
    && (forall t :: 0 <= t < |s.m.q.pc| ==> (s'.m.q.pc[t].Holding? <==> s.m.q.pc[t].Holding?))
    && s.b.items <= s'.b.items && s'.log == s.log
  }

  lemma LogSameHolders(s: State, s': State)
    requires LogOk(s) && SameHolders(s, s')
    ensures LogOk(s')
  {
    forall k | 0 <= k < |s'.b.q.claims| && k in s'.log ensures Delivered(s', k) { assert Delivered(s, k); }
  }

  lemma LogNewClaim(s: State, s': State, t: nat, i: Claims.Interval)
    requires LogOk(s) && t < |s.m.q.pc| && !s.m.q.pc[t].Holding?
    requires s'.b.q.claims == s.b.q.claims + [i] && s'.b.q.claimOf == s.b.q.claimOf[t := |s.b.q.claims|]
    requires |s'.m.q.pc| == |s.m.q.pc| && s'.m.q.pc[t].Holding? && s'.b.items == s.b.items && s'.log == s.log
    requires forall u :: 0 <= u < |s.m.q.pc| && u != t ==> s'.m.q.pc[u] == s.m.q.pc[u]
    ensures LogOk(s')
  {
    forall k | 0 <= k < |s'.b.q.claims| && k in s'.log ensures Delivered(s', k) { assert Delivered(s, k); }
    forall k | 0 <= k < |s'.b.q.claims|
      ensures k in s'.log || exists u :: 0 <= u < |s'.m.q.pc| && s'.m.q.pc[u].Holding? && s'.b.q.claimOf[u] == k
    {
      if k == |s.b.q.claims| {
        assert s'.b.q.claimOf[t] == k;
      } else if k !in s.log {
        var u :| 0 <= u < |s.m.q.pc| && s.m.q.pc[u].Holding? && s.b.q.claimOf[u] == k;
        assert s'.m.q.pc[u].Holding? && s'.b.q.claimOf[u] == k;
      }
    }
  }

  lemma LogDelivery(s: State, s': State, t: nat)
    requires LogOk(s) && Claims.Inv(s.m.q, s.b.q) && t < |s.m.q.pc| && s.m.q.pc[t].Holding?
    requires var p := s.m.q.pc[t];
      0 <= p.first <= p.first + p.count <= |s.b.items| &&
      s'.log == s.log[s.b.q.claimOf[t] := s.b.items[p.first..p.first + p.count]]
    requires s'.b.q == s.b.q && s'.b.items == s.b.items
    requires |s'.m.q.pc| == |s.m.q.pc| && !s'.m.q.pc[t].Holding?
    requires forall u :: 0 <= u < |s.m.q.pc| && u != t ==> s'.m.q.pc[u] == s.m.q.pc[u]
    ensures LogOk(s')
  {
    assert Claims.ThreadOk(s.m.q, s.b.q, t);
    var c := s.b.q.claimOf[t];
    forall k | 0 <= k < |s'.b.q.claims| && k in s'.log ensures Delivered(s', k) { if k != c { assert Delivered(s, k); } }
    forall k | 0 <= k < |s'.b.q.claims|
      ensures k in s'.log || exists u :: 0 <= u < |s'.m.q.pc| && s'.m.q.pc[u].Holding? && s'.b.q.claimOf[u] == k
    {
      if k !in s.log && k != c {
        var u :| 0 <= u < |s.m.q.pc| && s.m.q.pc[u].Holding? && s.b.q.claimOf[u] == k;
        assert s'.m.q.pc[u].Holding? && s'.b.q.claimOf[u] == k;
      }
    }
  }

  lemma AdvanceClaims(q: Claims.Counters, b: Claims.Book, t: nat)
    requires Claims.Inv(q, b) && Claims.Enabled(q, t, Claims.Advance)
    ensures var q', b' := Claims.Step(q, t, Claims.Advance), Claims.Track(q, b, t, Claims.Advance);
      if q'.pc[t].Holding?
      then b'.claims == b.claims + [Claims.Interval(q.head, q'.pc[t].count)] && b'.claimOf == b.claimOf[t := |b.claims|]
      else b'.claims == b.claims && b'.claimOf == b.claimOf
  {
    assert Claims.ThreadOk(q, b, t);
  }

  /** A consumer that ends its call returns exactly the elements of the indices it had claimed. */
  lemma EndDelivers(c: Config, m: Memory, b: Ledger, t: nat)
    requires Inv(c, m, b) && t < |m.cons| && !m.cons[t].CNone? && ConsumerSafe(c, m, t)
    ensures var m' := StepConsumer(c, m, t);
      && |m'.q.pc| == |m.q.pc| && (forall u :: 0 <= u < |m.q.pc| && u != t ==> m'.q.pc[u] == m.q.pc[u])
      && m.q.pc[t].Holding? && 0 <= m.q.pc[t].first < End(m, t) <= |b.items| && |m'.out| == |m.out| == |m'.cons| == |m.cons|
      && if m'.cons[t].CNone? then m'.out[t] == b.items[m.q.pc[t].first..End(m, t)] && !m'.q.pc[t].Holding?
         else m'.q == m.q
  {
    assert ConsumerOk(c, m, b, t);
  }

  lemma ClaimKeepsLog(c: Config, s: State, t: nat)
    requires Inv(c, s.m, s.b) && LogOk(s) && Enabled(c, s.m, Consume(t)) && s.m.cons[t].CNone?
    ensures LogOk(Perform(c, s, Consume(t)))
  {
    var s' := Perform(c, s, Consume(t));
    assert ConsumerOk(c, s.m, s.b, t);
    AdvanceClaims(s.m.q, s.b.q, t);
    AdvanceFacts(s.m.q, s.b.q, t);
    if s'.m.q.pc[t].Holding? {
      LogNewClaim(s, s', t, Claims.Interval(s.m.q.head, s'.m.q.pc[t].count));
    } else {
      LogSameHolders(s, s');
    }
  }

  lemma HoldKeepsLog(c: Config, s: State, t: nat)
    requires Inv(c, s.m, s.b) && LogOk(s) && Enabled(c, s.m, Consume(t)) && !s.m.cons[t].CNone?
    ensures LogOk(Perform(c, s, Consume(t)))
  {
    var s' := Perform(c, s, Consume(t));
    EndDelivers(c, s.m, s.b, t);
    ConsumeKeepsBook(c, s.m, s.b, t);
    if s'.m.cons[t].CNone? { LogDelivery(s, s', t); } else { LogSameHolders(s, s'); }
  }

  lemma ConsumeKeepsBook(c: Config, m: Memory, b: Ledger, t: nat)
    requires ConsumerSafe(c, m, t) && |b.q.mine| == |b.q.claimOf| == |m.q.pc| && !m.cons[t].CNone?
    ensures TrackConsumer(c, m, b, t).q == b.q && TrackConsumer(c, m, b, t).items == b.items
  {
  }

  lemma ConsumeKeepsLog(c: Config, s: State, t: nat)
    requires Inv(c, s.m, s.b) && LogOk(s) && Enabled(c, s.m, Consume(t))
    ensures LogOk(Perform(c, s, Consume(t)))
  {
    if s.m.cons[t].CNone? { ClaimKeepsLog(c, s, t); } else { HoldKeepsLog(c, s, t); }
  }

  /** Only the producer appends to the elements, and only consumers come to hold claims or give them up. */
  lemma NoClaimMoves(c: Config, m: Memory, b: Ledger, a: Action)
    requires Enabled(c, m, a) && !a.Consume? && |b.q.mine| == |b.q.claimOf| == |m.q.pc|
    ensures var m', b' := Step(c, m, a), Track(c, m, b, a);
      && b'.q == b.q && b.items <= b'.items && |m'.q.pc| == |m.q.pc|
      && forall t :: 0 <= t < |m.q.pc| ==> (m'.q.pc[t] == m.q.pc[t] || (!m.q.pc[t].Holding? && !m'.q.pc[t].Holding?))
  {
  }

  lemma OthersKeepLog(c: Config, s: State, a: Action)
    requires LogOk(s) && Sensible(s) && Enabled(c, s.m, a) && !a.Consume?
    ensures LogOk(Perform(c, s, a))
  {
    NoClaimMoves(c, s.m, s.b, a);
    LogSameHolders(s, Perform(c, s, a));
  }

  lemma PerformKeepsLog(c: Config, s: State, a: Action)
    requires Inv(c, s.m, s.b) && LogOk(s)
    ensures LogOk(Perform(c, s, a))
  {
    if Enabled(c, s.m, a) {
      if a.Consume? { ConsumeKeepsLog(c, s, a.t); } else { OthersKeepLog(c, s, a); }
    }
  }

  lemma PerformKeepsInv(c: Config, s: State, a: Action)
    requires Inv(c, s.m, s.b) && Sensible(s)
    ensures Inv(c, Perform(c, s, a).m, Perform(c, s, a).b)
  {
    if Enabled(c, s.m, a) { StepKeepsInv(c, s.m, s.b, a); }
  }

  lemma {:induction false} RunKeepsInv(c: Config, s: State, cap: nat, run: seq<Action>)
    requires Initial(c, s, cap)
    ensures Sensible(s)
    ensures var p := Execute(c, s, run); Inv(c, p.m, p.b) && LogOk(p)
  {
    if run == [] {
      InitialInv(c, s, cap);
    } else {
      RunKeepsInv(c, s, cap, run[..|run|-1]);
      var p, a := Execute(c, s, run[..|run|-1]), run[|run|-1];
      PerformKeepsLog(c, p, a);
      PerformKeepsInv(c, p, a);
    }
  }
}
