/** Several implicit producers, each with its consumers, over one pool of blocks and one memory for them: at any time any
    of them makes one access. What a producer sees of such a run is a run of the machine of one producer, so all that is
    proved of that machine holds for each of them; and every block has one place in the whole system. */
module SharedPool {
  import opened Wrappers
  import opened BlockIndex
  import opened BlockNumbers
  import opened ImplicitProducer
  import opened ImplicitProducerInvariant
  import opened ImplicitProducerProof
  import opened ImplicitProducerBlocks
  import opened ImplicitProducerWrites
  import opened ImplicitProducerChain
  import opened ImplicitProducerRecycling
  import opened ImplicitProducerSharing
  import opened Runs = ImplicitProducerRuns
  import opened ImplicitProducerTheorems
  import Claims = OptimisticDequeue

  // ----- What one access does to the blocks and the pool, as others see it

  function NewBlock(c: Config): Block { Block(seq(c.blockSize, _ => None), 0, None) }

  function Writing(m: Memory, k: nat): Option<Foreign> {
    if k < |m.blocks| then Some(Writes(k, m.blocks[k])) else None
  }

  function ProducerEffect(c: Config, m: Memory, r: Resource): Option<Foreign>
    requires ProducerSafe(c, m) && !m.prod.PIdle?
  {
    var m' := StepProducer(c, m, r);
    match m.prod
    case PRequest(_, _, _) =>
      if r.FromPool? && r.block in m.free then Some(Takes(r.block))
      else if r.Allocate? then Some(Creates(NewBlock(c)))
      else None
    case PReset(_, _, _, k) => Writing(m', k)
    case PNull(_, _, _, k) => Writing(m', k)
    case PLink(_, _, _) => if LinksBehind(c, m) then Writing(m', m.tailBlock.value) else None
    case PWrite(_, _, k, stop) => if k < stop then Writing(m', m.tailBlock.value) else None
    case PGive(_, _, _, _) => Some(Gives(m.local.at.value))
    case _ => None
  }

  function ConsumerEffect(c: Config, m: Memory, t: nat): Option<Foreign>
    requires ConsumerSafe(c, m, t)
  {
    match m.cons[t]
    case CTake(_, _, _, _, _, k) => Writing(StepConsumer(c, m, t), k)
    case CCount(_, _, _, _, _, k) => Writing(StepConsumer(c, m, t), k)
    case CFree(_, _, _, k) => Some(Gives(k))
    case _ => None
  }

  function Effect(c: Config, m: Memory, a: Action): Option<Foreign>
    requires Enabled(c, m, a)
  {
    match a
    case Produce(r) => ProducerEffect(c, m, r)
    case Consume(t) => ConsumerEffect(c, m, t)
    case _ => None
  }

  /** The producer, or one of its consumers, has the block. */
  predicate Holds(b: Ledger, k: nat) { k < |b.use| && !b.use[k].Free? && !b.use[k].Abroad? }

  /** What an effect says of the blocks and the pool, and of who holds what. */
  ghost predicate EffectOk(c: Config, m: Memory, b: Ledger, m': Memory, b': Ledger, e: Option<Foreign>) {
    match e
    case None => m'.blocks == m.blocks && m'.free == m.free && forall x :: Holds(b', x) <==> Holds(b, x)
    case Some(Takes(k)) =>
      k in m.free && m'.blocks == m.blocks && m'.free == m.free - {k} && forall x :: Holds(b', x) <==> Holds(b, x) || x == k
    case Some(Creates(content)) =>
      && |content.cells| == c.blockSize && m'.blocks == m.blocks + [content] && m'.free == m.free
      && forall x :: Holds(b', x) <==> Holds(b, x) || x == |m.blocks|
    case Some(Writes(k, content)) =>
      && |content.cells| == c.blockSize && k < |m.blocks| && Holds(b, k)
      && m'.blocks == m.blocks[k := content] && m'.free == m.free && forall x :: Holds(b', x) <==> Holds(b, x)
    case Some(Gives(k)) =>
      && Holds(b, k) && m'.blocks == m.blocks && m'.free == m.free + {k}
      && forall x :: Holds(b', x) <==> Holds(b, x) && x != k
  }

  lemma PrepareEffect(c: Config, m: Memory, b: Ledger, r: Resource)
    requires Core(c, m, b) && ProducerSafe(c, m) && (m.prod.PReset? || m.prod.PNull?)
    ensures EffectOk(c, m, b, StepProducer(c, m, r), TrackProducer(c, m, b, r), ProducerEffect(c, m, r))
  {
  }

  lemma LinkEffect(c: Config, m: Memory, b: Ledger, r: Resource)
    requires Inv(c, m, b) && ProducerSafe(c, m) && m.prod.PLink?
    ensures EffectOk(c, m, b, StepProducer(c, m, r), TrackProducer(c, m, b, r), ProducerEffect(c, m, r))
  {
    if LinksBehind(c, m) { LinkIsOwn(c, m, b); }
  }

  lemma WriteEffect(c: Config, m: Memory, b: Ledger, r: Resource)
    requires Inv(c, m, b) && ProducerSafe(c, m) && m.prod.PWrite?
    ensures EffectOk(c, m, b, StepProducer(c, m, r), TrackProducer(c, m, b, r), ProducerEffect(c, m, r))
  {
    if m.prod.k < m.prod.stop { WriteIsSafe(c, m, b); }
  }

  lemma RequestEffect(c: Config, m: Memory, b: Ledger, r: Resource)
    requires Core(c, m, b) && ProducerSafe(c, m) && m.prod.PRequest?
    ensures EffectOk(c, m, b, StepProducer(c, m, r), TrackProducer(c, m, b, r), ProducerEffect(c, m, r))
  {
  }

  lemma KeepEffect(c: Config, m: Memory, b: Ledger, r: Resource)
    requires Inv(c, m, b) && ProducerSafe(c, m) && (m.prod.PPublish? || m.prod.PUndo? || m.prod.PGive?)
    ensures EffectOk(c, m, b, StepProducer(c, m, r), TrackProducer(c, m, b, r), ProducerEffect(c, m, r))
  {
    if m.prod.PUndo? && m.local.at.Some? { AcquiredBefore(c, m, b); }
  }

  lemma AcquiredBefore(c: Config, m: Memory, b: Ledger)
    requires Inv(c, m, b) && m.prod.PUndo? && m.prod.k < |m.prod.got|
    ensures Holds(b, m.prod.got[m.prod.k])
  {
    UndoLookup(c, m, b);
    FoundIsLive(m.ix, b.ix, b.entryOf, b.use, Base(c, m) + m.prod.k);
  }

  lemma ProducerEffectOk(c: Config, m: Memory, b: Ledger, r: Resource)
    requires Inv(c, m, b) && ProducerSafe(c, m) && !m.prod.PIdle?
    ensures EffectOk(c, m, b, StepProducer(c, m, r), TrackProducer(c, m, b, r), ProducerEffect(c, m, r))
  {
    if m.prod.PReset? || m.prod.PNull? { PrepareEffect(c, m, b, r); }
    else if m.prod.PLink? { LinkEffect(c, m, b, r); }
    else if m.prod.PWrite? { WriteEffect(c, m, b, r); }
    else if m.prod.PRequest? { RequestEffect(c, m, b, r); }
    else if m.prod.PPublish? || m.prod.PUndo? || m.prod.PGive? { KeepEffect(c, m, b, r); }
  }

  /** The block that a consumer has in hand is its producer's. */
  lemma InHandIsHeld(c: Config, m: Memory, b: Ledger, t: nat)
    requires Core(c, m, b) && t < |m.cons| && (m.cons[t].CTake? || m.cons[t].CCount? || m.cons[t].CNull? || m.cons[t].CFree?)
    ensures Holds(b, m.cons[t].block) && |b.use| == |m.blocks|
  {
    assert ConsumerOk(c, m, b, t);
    match m.cons[t]
    case CTake(_, cur, _, _, _, _) => FoundIsLive(m.ix, b.ix, b.entryOf, b.use, Num(cur, c.blockSize));
    case CCount(_, cur, _, _, _, _) => FoundIsLive(m.ix, b.ix, b.entryOf, b.use, Num(cur - 1, c.blockSize));
    case CNull(cur, _, _, _, _) => FoundIsLive(m.ix, b.ix, b.entryOf, b.use, Num(cur - 1, c.blockSize));
    case _ =>
  }

  lemma ConsumerEffectOk(c: Config, m: Memory, b: Ledger, t: nat)
    requires Inv(c, m, b) && ConsumerSafe(c, m, t)
    ensures EffectOk(c, m, b, StepConsumer(c, m, t), TrackConsumer(c, m, b, t), ConsumerEffect(c, m, t))
  {
    if m.cons[t].CTake? || m.cons[t].CCount? || m.cons[t].CNull? || m.cons[t].CFree? {
      InHandIsHeld(c, m, b, t);
      InHandEffect(c, m, b, t);
    }
  }

  lemma InHandEffect(c: Config, m: Memory, b: Ledger, t: nat)
    requires ConsumerSafe(c, m, t) && (m.cons[t].CTake? || m.cons[t].CCount? || m.cons[t].CNull? || m.cons[t].CFree?)
    requires Holds(b, m.cons[t].block) && |b.use| == |m.blocks| && |b.q.mine| == |b.q.claimOf| == |m.q.pc|
    requires forall k :: 0 <= k < |m.blocks| ==> |m.blocks[k].cells| == c.blockSize
    ensures EffectOk(c, m, b, StepConsumer(c, m, t), TrackConsumer(c, m, b, t), ConsumerEffect(c, m, t))
  {
  }

  lemma StepEffectOk(c: Config, m: Memory, b: Ledger, a: Action)
    requires Inv(c, m, b) && Enabled(c, m, a) && !a.Elsewhere?
    ensures EffectOk(c, m, b, Step(c, m, a), Track(c, m, b, a), Effect(c, m, a))
  {
    match a
    case Produce(r) => ProducerEffectOk(c, m, b, r);
    case Consume(t) => ConsumerEffectOk(c, m, b, t);
    case _ =>
  }

  // ----- The system

  /** What belongs to one producer and its consumers alone. */
  datatype Part = Part(
    q: Claims.Counters, ix: Index, tailBlock: Option<nat>, prod: Producing, local: Locals,
    cons: seq<Consuming>, out: seq<seq<nat>>, b: Ledger, log: map<nat, seq<nat>>)

  datatype System = System(blocks: seq<Block>, free: set<nat>, parts: seq<Part>)

  datatype Event = Event(producer: nat, action: Action)

  function AbroadIn(b: Ledger): set<nat> { set k: nat | k < |b.use| && b.use[k].Abroad? }

  /** The system as producer i sees it: blocks that others hold are abroad. */
  function View(s: System, i: nat): State
    requires i < |s.parts|
  {
    var p := s.parts[i];
    State(Memory(p.q, p.ix, s.blocks, s.free, AbroadIn(p.b), p.tailBlock, p.prod, p.local, p.cons, p.out), p.b, p.log)
  }

  function PartOf(p: State): Part {
    Part(p.m.q, p.m.ix, p.m.tailBlock, p.m.prod, p.m.local, p.m.cons, p.m.out, p.b, p.log)
  }

  predicate Admissible(c: Config, s: System, e: Event) {
    && e.producer < |s.parts| && !e.action.Elsewhere? && Runs.Sensible(View(s, e.producer))
    && Enabled(c, View(s, e.producer).m, e.action)
  }

  /** How producer j's bookkeeping follows an access of producer i. */
  function Noticed(p: Part, f: Option<Foreign>): Part { if f.Some? then p.(b := TrackForeign(p.b, f.value)) else p }

  /** One access of one producer or of one of its consumers, on the shared memory. */
  function Act(c: Config, s: System, e: Event): System
    requires Admissible(c, s, e)
  {
    var i := e.producer;
    var p := Runs.Perform(c, View(s, i), e.action);
    var f := Effect(c, View(s, i).m, e.action);
    System(p.m.blocks, p.m.free,
           seq(|s.parts|, j requires 0 <= j < |s.parts| => if j == i then PartOf(p) else Noticed(s.parts[j], f)))
  }

  function Run(c: Config, s: System, events: seq<Event>): System {
    if events == [] then s else
    var p, e := Run(c, s, events[..|events|-1]), events[|events|-1];
    if Admissible(c, p, e) then Act(c, p, e) else p
  }

  /** Producer i's own actions in the run, and what it notices of the others'. */
  function Seen(c: Config, s: System, i: nat, events: seq<Event>): seq<Action> {
    if events == [] then [] else
    var p, e := Run(c, s, events[..|events|-1]), events[|events|-1];
    Seen(c, s, i, events[..|events|-1]) + SeenStep(c, p, i, e)
  }

  function SeenStep(c: Config, p: System, i: nat, e: Event): seq<Action> {
    if !Admissible(c, p, e) then []
    else if e.producer == i then [e.action]
    else
      var f := Effect(c, View(p, e.producer).m, e.action);
      if f.Some? then [Elsewhere(f.value)] else []
  }

  // ----- Its invariant

  ghost predicate PartOk(c: Config, s: System, i: nat)
    requires i < |s.parts|
  {
    Inv(c, View(s, i).m, View(s, i).b)
  }

  /** Producers i and j hold no block in common. */
  ghost predicate Apart(s: System, i: nat, j: nat)
    requires i < |s.parts| && j < |s.parts|
  {
    forall k: nat :: !Holds(s.parts[i].b, k) || !Holds(s.parts[j].b, k)
  }

  ghost predicate SystemOk(c: Config, s: System) {
    && (forall i {:trigger PartOk(c, s, i)} :: 0 <= i < |s.parts| ==> PartOk(c, s, i))
    && (forall i, j {:trigger Apart(s, i, j)} :: 0 <= i < |s.parts| && 0 <= j < |s.parts| && i != j ==> Apart(s, i, j))
    && (forall k {:trigger SomeoneHolds(s, k)} :: 0 <= k < |s.blocks| ==> k in s.free || SomeoneHolds(s, k))
  }

  ghost predicate SomeoneHolds(s: System, k: nat) { exists i :: 0 <= i < |s.parts| && Holds(s.parts[i].b, k) }

  /** The blocks abroad are those that the bookkeeping says are. */
  lemma AbroadIs(c: Config, m: Memory, b: Ledger)
    requires Inv(c, m, b)
    ensures m.abroad == AbroadIn(b)
  {
    forall k | k in AbroadIn(b) ensures k in m.abroad { assert UseOk(c, m, b, k); }
  }

  lemma StepEffectHere(c: Config, s: System, e: Event)
    requires SystemOk(c, s) && Admissible(c, s, e)
    ensures var m, b := View(s, e.producer).m, View(s, e.producer).b;
      EffectOk(c, m, b, Step(c, m, e.action), Track(c, m, b, e.action), Effect(c, m, e.action))
  {
    assert PartOk(c, s, e.producer);
    StepEffectOk(c, View(s, e.producer).m, View(s, e.producer).b, e.action);
  }

  /** An access of producer i is, for producer j, the foreign action that it amounts to. */
  lemma EffectIsForeign(c: Config, s: System, e: Event, j: nat)
    requires SystemOk(c, s) && Admissible(c, s, e) && j < |s.parts| && j != e.producer
    ensures var m, m', f := View(s, j).m, Step(c, View(s, e.producer).m, e.action), Effect(c, View(s, e.producer).m, e.action);
      match f
      case None => m'.blocks == s.blocks && m'.free == s.free
      case Some(f) => ForeignEnabled(c, m, f) && StepForeign(c, m, f).blocks == m'.blocks && StepForeign(c, m, f).free == m'.free
  {
    var i := e.producer;
    var f := Effect(c, View(s, i).m, e.action);
    StepEffectHere(c, s, e);
    assert PartOk(c, s, i);
    assert PartOk(c, s, j);
    if f.Some? && (f.value.Writes? || f.value.Gives?) {
      assert Apart(s, i, j);
      HeldIsAbroad(c, View(s, i).m, View(s, i).b, View(s, j).m, View(s, j).b, f.value.block);
    }
  }

  lemma HeldIsAbroad(c: Config, m: Memory, b: Ledger, n: Memory, d: Ledger, k: nat)
    requires Inv(c, m, b) && Inv(c, n, d) && m.free == n.free && |b.use| == |d.use|
    requires Holds(b, k) && !Holds(d, k)
    ensures k in n.abroad
  {
    assert UseOk(c, n, d, k);
  }

  /** Producer i's view after its own access is the state that the machine of one producer comes to. */
  lemma OwnView(c: Config, s: System, e: Event)
    requires SystemOk(c, s) && Admissible(c, s, e)
    ensures View(Act(c, s, e), e.producer) == Runs.Perform(c, View(s, e.producer), e.action)
    ensures Inv(c, View(Act(c, s, e), e.producer).m, View(Act(c, s, e), e.producer).b)
  {
    var p := View(s, e.producer);
    assert PartOk(c, s, e.producer);
    PerformKeepsInv(c, p, e.action);
    AbroadIs(c, Runs.Perform(c, p, e.action).m, Runs.Perform(c, p, e.action).b);
  }

  lemma ForeignView(c: Config, p: State, f: Foreign)
    requires Inv(c, p.m, p.b) && ForeignEnabled(c, p.m, f)
    ensures StepForeign(c, p.m, f).abroad == AbroadIn(TrackForeign(p.b, f))
    ensures Inv(c, StepForeign(c, p.m, f), TrackForeign(p.b, f))
  {
    ForeignStep(c, p.m, p.b, f);
    AbroadIs(c, StepForeign(c, p.m, f), TrackForeign(p.b, f));
  }

  lemma NoticedView(c: Config, s: System, s': System, j: nat, f: Foreign)
    requires j < |s.parts| == |s'.parts| && ForeignEnabled(c, View(s, j).m, f) && s'.parts[j] == Noticed(s.parts[j], Some(f))
    requires s'.blocks == StepForeign(c, View(s, j).m, f).blocks && s'.free == StepForeign(c, View(s, j).m, f).free
    requires StepForeign(c, View(s, j).m, f).abroad == AbroadIn(TrackForeign(View(s, j).b, f))
    requires Runs.Sensible(View(s, j))
    ensures View(s', j) == Runs.Perform(c, View(s, j), Elsewhere(f))
  {
  }

  /** And producer j's is the state that the foreign action leads to, or the same as before. */
  lemma OtherView(c: Config, s: System, e: Event, j: nat)
    requires SystemOk(c, s) && Admissible(c, s, e) && j < |s.parts| && j != e.producer && Runs.Sensible(View(s, j))
    ensures var f := Effect(c, View(s, e.producer).m, e.action);
      View(Act(c, s, e), j) == if f.Some? then Runs.Perform(c, View(s, j), Elsewhere(f.value)) else View(s, j)
    ensures Inv(c, View(Act(c, s, e), j).m, View(Act(c, s, e), j).b)
  {
    var f, p := Effect(c, View(s, e.producer).m, e.action), View(s, j);
    assert PartOk(c, s, j);
    EffectIsForeign(c, s, e, j);
    if f.Some? {
      ForeignView(c, p, f.value);
      NoticedView(c, s, Act(c, s, e), j, f.value);
    }
  }

  lemma InvIsSensible(c: Config, p: State)
    requires Inv(c, p.m, p.b)
    ensures Runs.Sensible(p)
  {
  }

  /** What the actor may come to hold, and what it may lose. */
  lemma ActorHoldings(c: Config, s: System, e: Event, k: nat)
    requires SystemOk(c, s) && Admissible(c, s, e)
    ensures var before, after := s.parts[e.producer].b, Act(c, s, e).parts[e.producer].b;
      && (Holds(after, k) && !Holds(before, k) ==> k in s.free || k == |s.blocks|)
      && (Holds(before, k) && !Holds(after, k) ==> k in Act(c, s, e).free)
      && (k in s.free && k !in Act(c, s, e).free ==> Holds(after, k))
      && (|s.blocks| <= k < |Act(c, s, e).blocks| ==> Holds(after, k))
  {
    StepEffectHere(c, s, e);
  }

  lemma NoticedHoldings(p: Part, f: Option<Foreign>, k: nat)
    requires f.Some? && (f.value.Takes? || f.value.Gives?) ==> !Holds(p.b, f.value.block)
    requires f.Some? && f.value.Creates? ==> k < |p.b.use| || !Holds(p.b, k)
    ensures Holds(Noticed(p, f).b, k) <==> Holds(p.b, k)
  {
  }

  /** The others hold what they held. */
  lemma OtherHoldings(c: Config, s: System, e: Event, j: nat, k: nat)
    requires SystemOk(c, s) && Admissible(c, s, e) && j < |s.parts| && j != e.producer
    ensures Holds(Act(c, s, e).parts[j].b, k) <==> Holds(s.parts[j].b, k)
  {
    assert Apart(s, e.producer, j) && PartOk(c, s, j);
    StepEffectHere(c, s, e);
    NoticedHoldings(s.parts[j], Effect(c, View(s, e.producer).m, e.action), k);
  }

  /** A block of the pool, or one that is not there yet, is nobody's. */
  lemma FreeIsNobodys(c: Config, s: System, j: nat, k: nat)
    requires SystemOk(c, s) && j < |s.parts| && (k in s.free || k == |s.blocks|)
    ensures !Holds(s.parts[j].b, k)
  {
    assert PartOk(c, s, j);
  }

  lemma ActorApart(c: Config, s: System, e: Event, j: nat)
    requires SystemOk(c, s) && Admissible(c, s, e) && j < |s.parts| && j != e.producer
    ensures Apart(Act(c, s, e), e.producer, j)
  {
    var s', i := Act(c, s, e), e.producer;
    assert Apart(s, i, j);
    forall k: nat ensures !Holds(s'.parts[i].b, k) || !Holds(s'.parts[j].b, k) {
      ActorHoldings(c, s, e, k);
      OtherHoldings(c, s, e, j, k);
      if k in s.free || k == |s.blocks| { FreeIsNobodys(c, s, j, k); }
    }
  }

  lemma ActKeepsApart(c: Config, s: System, e: Event, i: nat, j: nat)
    requires SystemOk(c, s) && Admissible(c, s, e) && i < |s.parts| && j < |s.parts| && i != j
    ensures Apart(Act(c, s, e), i, j)
  {
    var s' := Act(c, s, e);
    if i == e.producer {
      ActorApart(c, s, e, j);
    } else if j == e.producer {
      ActorApart(c, s, e, i);
      assert Apart(s', j, i);
    } else {
      assert Apart(s, i, j);
      forall k: nat ensures !Holds(s'.parts[i].b, k) || !Holds(s'.parts[j].b, k) {
        OtherHoldings(c, s, e, i, k);
        OtherHoldings(c, s, e, j, k);
      }
    }
  }

  lemma ActKeepsHeld(c: Config, s: System, e: Event, k: nat)
    requires SystemOk(c, s) && Admissible(c, s, e) && k < |Act(c, s, e).blocks|
    ensures k in Act(c, s, e).free || SomeoneHolds(Act(c, s, e), k)
  {
    var s', i := Act(c, s, e), e.producer;
    ActorHoldings(c, s, e, k);
    if k < |s.blocks| && k !in s.free {
      assert SomeoneHolds(s, k);
      var j :| 0 <= j < |s.parts| && Holds(s.parts[j].b, k);
      if j != i { OtherHoldings(c, s, e, j, k); }
      assert k in s'.free || Holds(s'.parts[j].b, k);
    } else {
      assert k in s'.free || Holds(s'.parts[i].b, k);
    }
  }

  lemma ActKeepsViews(c: Config, s: System, e: Event, j: nat)
    requires SystemOk(c, s) && Admissible(c, s, e) && j < |s.parts|
    ensures Inv(c, View(Act(c, s, e), j).m, View(Act(c, s, e), j).b)
  {
    if j == e.producer {
      OwnView(c, s, e);
    } else {
      assert PartOk(c, s, j);
      InvIsSensible(c, View(s, j));
      OtherView(c, s, e, j);
    }
  }

  lemma ActKeepsSystem(c: Config, s: System, e: Event)
    requires SystemOk(c, s) && Admissible(c, s, e)
    ensures SystemOk(c, Act(c, s, e))
  {
    var s' := Act(c, s, e);
    forall j {:trigger PartOk(c, s', j)} | 0 <= j < |s'.parts| ensures PartOk(c, s', j) { ActKeepsViews(c, s, e, j); }
    forall i, j {:trigger Apart(s', i, j)} | 0 <= i < |s'.parts| && 0 <= j < |s'.parts| && i != j ensures Apart(s', i, j) {
      ActKeepsApart(c, s, e, i, j);
    }
    forall k {:trigger SomeoneHolds(s', k)} | 0 <= k < |s'.blocks| ensures k in s'.free || SomeoneHolds(s', k) {
      ActKeepsHeld(c, s, e, k);
    }
  }

  // ----- Whole runs

  /** New producers, each with an index of its own size and its consumers, and a pool that has every block. */
  ghost predicate Initial(c: Config, s: System, caps: seq<nat>) {
    && |caps| == |s.parts| && (forall k: nat :: k in s.free <==> k < |s.blocks|)
    && forall i {:trigger s.parts[i]} :: 0 <= i < |s.parts| ==> Runs.Initial(c, View(s, i), caps[i])
  }

  lemma InitialPart(c: Config, s: System, caps: seq<nat>, i: nat)
    requires Initial(c, s, caps) && i < |s.parts|
    ensures PartOk(c, s, i) && forall k: nat :: !Holds(s.parts[i].b, k)
  {
    assert Runs.Initial(c, View(s, i), caps[i]) by { assert s.parts[i] == s.parts[i]; }
    Runs.InitialInv(c, View(s, i), caps[i]);
  }

  lemma InitialSystem(c: Config, s: System, caps: seq<nat>)
    requires Initial(c, s, caps)
    ensures SystemOk(c, s)
  {
    forall i {:trigger PartOk(c, s, i)} | 0 <= i < |s.parts| ensures PartOk(c, s, i) { InitialPart(c, s, caps, i); }
    forall i, j {:trigger Apart(s, i, j)} | 0 <= i < |s.parts| && 0 <= j < |s.parts| && i != j ensures Apart(s, i, j) {
      InitialPart(c, s, caps, i);
    }
  }

  lemma {:induction false} RunKeepsSystem(c: Config, s: System, caps: seq<nat>, events: seq<Event>)
    requires Initial(c, s, caps)
    ensures SystemOk(c, Run(c, s, events)) && |Run(c, s, events).parts| == |s.parts|
  {
    if events == [] {
      InitialSystem(c, s, caps);
    } else {
      RunKeepsSystem(c, s, caps, events[..|events|-1]);
      var p, e := Run(c, s, events[..|events|-1]), events[|events|-1];
      if Admissible(c, p, e) { ActKeepsSystem(c, p, e); }
    }
  }

  lemma ExecuteMore(c: Config, p: State, run: seq<Action>, more: seq<Action>)
    requires Runs.Sensible(p) && |more| <= 1
    ensures Runs.Execute(c, p, run + more)
         == if more == [] then Runs.Execute(c, p, run) else Runs.Perform(c, Runs.Execute(c, p, run), more[0])
  {
    if more == [] { assert run + more == run; } else { assert (run + more)[..|run|] == run; }
  }

  lemma SeenStepIs(c: Config, s: System, i: nat, e: Event)
    requires SystemOk(c, s) && i < |s.parts| && Runs.Sensible(View(s, i))
    ensures var more := SeenStep(c, s, i, e);
      |more| <= 1 && View(if Admissible(c, s, e) then Act(c, s, e) else s, i)
                  == if more == [] then View(s, i) else Runs.Perform(c, View(s, i), more[0])
  {
    if Admissible(c, s, e) {
      if e.producer == i { OwnView(c, s, e); } else { OtherView(c, s, e, i); }
    }
  }

  /** What producer i sees of the shared run is the run of the machine of one producer on the actions it takes and
      notices: no other producer, whatever it does with the pool and with the blocks it gets from it, shows up as anything
      but a foreign action. */
  lemma {:induction false} SharedRunProjects(c: Config, s: System, caps: seq<nat>, events: seq<Event>, i: nat)
    requires Initial(c, s, caps) && i < |s.parts|
    ensures i < |Run(c, s, events).parts| && Runs.Initial(c, View(s, i), caps[i]) && Runs.Sensible(View(s, i))
    ensures View(Run(c, s, events), i) == Runs.Execute(c, View(s, i), Seen(c, s, i, events))
  {
    assert Runs.Initial(c, View(s, i), caps[i]) by { assert s.parts[i] == s.parts[i]; }
    InitialSystem(c, s, caps);
    assert PartOk(c, s, i);
    InvIsSensible(c, View(s, i));
    if events != [] {
      var front, e := events[..|events|-1], events[|events|-1];
      SharedRunProjects(c, s, caps, front, i);
      RunKeepsSystem(c, s, caps, front);
      var p := Run(c, s, front);
      assert PartOk(c, p, i);
      InvIsSensible(c, View(p, i));
      SeenStepIs(c, p, i, e);
      ExecuteMore(c, View(s, i), Seen(c, s, i, front), SeenStep(c, p, i, e));
    }
  }

  // ----- One place for every block, over all producers

  datatype Where = InPool | With(producer: nat, place: Place)

  predicate Found(s: System, k: nat, w: Where) {
    match w
    case InPool => k in s.free
    case With(i, p) => i < |s.parts| && !p.Pool? && !p.WithOthers? && At(View(s, i).m, k, p)
  }

  lemma FoundIsHeld(c: Config, s: System, k: nat, w: Where)
    requires SystemOk(c, s) && Found(s, k, w)
    ensures match w
      case InPool => forall i :: 0 <= i < |s.parts| ==> !Holds(s.parts[i].b, k)
      case With(i, p) => Holds(s.parts[i].b, k) && p == UsePlace(s.parts[i].b, k)
  {
    if w.InPool? {
      forall i | 0 <= i < |s.parts| ensures !Holds(s.parts[i].b, k) {
        assert PartOk(c, s, i);
      }
    } else {
      assert PartOk(c, s, w.producer);
      PlaceIsUse(c, View(s, w.producer).m, View(s, w.producer).b, k, w.place);
    }
  }

  lemma HeldIsFound(c: Config, s: System, k: nat, i: nat)
    requires SystemOk(c, s) && i < |s.parts| && Holds(s.parts[i].b, k)
    ensures Found(s, k, With(i, UsePlace(s.parts[i].b, k)))
  {
    assert PartOk(c, s, i);
    UseIsPlace(c, View(s, i).m, View(s, i).b, k);
  }

  lemma OnlyPlace(c: Config, s: System, k: nat, w: Where)
    requires SystemOk(c, s) && Found(s, k, w)
    ensures forall v :: Found(s, k, v) ==> v == w
  {
    FoundIsHeld(c, s, k, w);
    forall v | Found(s, k, v) ensures v == w {
      FoundIsHeld(c, s, k, v);
      assert w.With? && v.With? && w.producer != v.producer ==> Apart(s, w.producer, v.producer);
    }
  }

  lemma SomePlace(c: Config, s: System, k: nat) returns (w: Where)
    requires SystemOk(c, s) && k < |s.blocks|
    ensures Found(s, k, w)
  {
    if k in s.free { return InPool; }
    assert SomeoneHolds(s, k);
    var i :| 0 <= i < |s.parts| && Holds(s.parts[i].b, k);
    HeldIsFound(c, s, k, i);
    w := With(i, UsePlace(s.parts[i].b, k));
  }

  /** In every run of several producers on one pool, every block is always in exactly one place: the pool, or one
      producer's hands, index or rollback, or on the way back with one of its consumers. */
  lemma OnePlaceOverall(c: Config, s: System, caps: seq<nat>, events: seq<Event>, k: nat)
    requires Initial(c, s, caps) && k < |Run(c, s, events).blocks|
    ensures exists w :: Found(Run(c, s, events), k, w) && forall v :: Found(Run(c, s, events), k, v) ==> v == w
  {
    RunKeepsSystem(c, s, caps, events);
    var w := SomePlace(c, Run(c, s, events), k);
    OnlyPlace(c, Run(c, s, events), k, w);
  }

  lemma StoreIsOwn(c: Config, s: System, i: nat)
    requires SystemOk(c, s) && i < |s.parts|
    ensures var m := View(s, i).m;
      && c.blockSize > 0
      && (m.prod.PNull? ==> Found(s, m.prod.block, With(i, Requisitioned)))
      && (m.prod.PLink? && LinksBehind(c, m) ==>
            m.tailBlock.Some? && exists e :: Found(s, m.tailBlock.value, With(i, InIndex(e))))
  {
    assert PartOk(c, s, i);
    var m, b := View(s, i).m, View(s, i).b;
    if m.prod.PLink? && LinksBehind(c, m) {
      LinkIsOwn(c, m, b);
      HeldIsFound(c, s, m.tailBlock.value, i);
    }
  }

  /** The store to tailBlock->next never meets a block that is in the pool or with another producer, although tailBlock may
      point to one: the guard keeps the store to blocks that are in this producer's index, and nowhere else. */
  lemma LinkStoresMeetNoOther(c: Config, s: System, caps: seq<nat>, events: seq<Event>, i: nat, w: Where)
    requires Initial(c, s, caps) && i < |Run(c, s, events).parts| && c.blockSize > 0
    requires var p := Run(c, s, events); var m := View(p, i).m;
      m.prod.PLink? && LinksBehind(c, m) && m.tailBlock.Some? && Found(p, m.tailBlock.value, w)
    ensures w.With? && w.producer == i && w.place.InIndex?
  {
    RunKeepsSystem(c, s, caps, events);
    var p := Run(c, s, events);
    StoreIsOwn(c, p, i);
    var e :| Found(p, View(p, i).m.tailBlock.value, With(i, InIndex(e)));
    OnlyPlace(c, p, View(p, i).m.tailBlock.value, With(i, InIndex(e)));
  }

  /** And so every producer of the shared run delivers its own elements, in the order in which it accepted them, each
      finished call those of the indices that it had claimed. */
  lemma EachDeliversItsOwn(c: Config, s: System, caps: seq<nat>, events: seq<Event>, i: nat, k: nat)
    requires Initial(c, s, caps) && i < |s.parts|
    ensures i < |Run(c, s, events).parts| && Runs.Sensible(View(s, i))
    ensures InOrder(View(Run(c, s, events), i), Accepted(c, View(s, i), Seen(c, s, i, events)), k)
  {
    SharedRunProjects(c, s, caps, events, i);
    DeliveredInOrder(c, View(s, i), caps[i], Seen(c, s, i, events), k);
  }
}
