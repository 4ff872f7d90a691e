/** The full test at block boundaries, and what it is for: with N-bit counters an implicit producer never gets 2^(N-1)
    elements ahead of its consumers, although it reads headIndex long before it publishes anything, tests once for each
    block of a bulk, and publishes all of them at once. So the wrapped queue behaves as the unbounded one. */
module ImplicitProducerWindow {
  import opened Wrappers
  import opened Bits
  import opened BlockIndex
  import opened BlockNumbers
  import opened ImplicitProducer
  import opened ImplicitProducerInvariant
  import opened ImplicitProducerProof
  import opened ImplicitProducerBlocks
  import opened ImplicitProducerWrites
  import opened ImplicitProducerTakes
  import opened ImplicitProducerRuns
  import opened CircularIndex
  import Claims = OptimisticDequeue

  /** The blocks that have passed the full test in the running operation, beyond the published ones. */
  function Extra(p: Producing): nat {
    match p
    case PCheck(_, got) => |got|
    case PRoom(_, got) => |got| + 1
    case PGrow(_, got) => |got| + 1
    case PKey(_, got, _) => |got| + 1
    case PTail(_, got, _) => |got| + 1
    case PRequest(_, got, _) => |got| + 1
    case PReset(_, got, _, _) => |got| + 1
    case PNull(_, got, _, _) => |got| + 1
    case PPublish(_, got, _, _) => |got| + 1
    case PLink(_, got, _) => |got|
    case PWrite(_, got, _, _) => |got|
    case PStore(_, got) => |got|
    case _ => 0
  }

  /** Neither the published blocks nor those on the way end 2^(N-1) or more above the head. */
  predicate WindowOk(c: Config, m: Memory)
    requires c.blockSize > 0
  {
    && Base(c, m) * c.blockSize - m.q.head < c.half
    && (Base(c, m) + Extra(m.prod)) * c.blockSize - m.q.head < c.half
  }

  lemma NextBlockEnds(number: int, blockSize: nat)
    ensures (number + 1) * blockSize == number * blockSize + blockSize
  {
  }

  lemma ProducerKeepsWindow(c: Config, m: Memory, r: Resource)
    requires ProducerSafe(c, m) && !m.prod.PIdle? && WindowOk(c, m)
    requires m.prod.PStore? ==> |m.prod.got| == Needed(m.q.tail, |m.prod.vals|, c.blockSize)
    ensures WindowOk(c, StepProducer(c, m, r))
  {
    if m.prod.PCheck? { NextBlockEnds(Base(c, m) + |m.prod.got|, c.blockSize); }
  }

  /** The head never falls. */
  lemma HeadRises(c: Config, m: Memory, b: Ledger, a: Action)
    requires Inv(c, m, b) && Enabled(c, m, a) && !a.Produce?
    ensures m.q.head <= Step(c, m, a).q.head && Step(c, m, a).q.tail == m.q.tail
  {
    if a.Consume? && m.cons[a.t].CNone? { AdvanceFacts(m.q, b.q, a.t); }
  }

  lemma StepKeepsWindow(c: Config, m: Memory, b: Ledger, a: Action)
    requires Inv(c, m, b) && Enabled(c, m, a) && WindowOk(c, m)
    ensures WindowOk(c, Step(c, m, a))
  {
    if a.Produce? {
      ProducerKeepsWindow(c, m, a.r);
    } else {
      HeadRises(c, m, b, a);
      OthersKeepExtra(c, m, a);
    }
  }

  lemma OthersKeepExtra(c: Config, m: Memory, a: Action)
    requires Enabled(c, m, a) && !a.Produce?
    ensures Extra(Step(c, m, a).prod) == Extra(m.prod)
  {
  }

  lemma PerformKeepsWindow(c: Config, p: State, a: Action)
    requires Inv(c, p.m, p.b) && Sensible(p) && WindowOk(c, p.m)
    ensures WindowOk(c, Perform(c, p, a).m)
  {
    if Enabled(c, p.m, a) { StepKeepsWindow(c, p.m, p.b, a); }
  }

  lemma InitialWindow(c: Config, s: State, cap: nat)
    requires Initial(c, s, cap) && c.half > 0
    ensures WindowOk(c, s.m)
  {
    NumUnique(-1, -1, c.blockSize);
  }

  lemma {:induction false} RunKeepsWindow(c: Config, s: State, cap: nat, run: seq<Action>)
    requires Initial(c, s, cap) && c.half > 0
    ensures Sensible(s) && WindowOk(c, Execute(c, s, run).m)
  {
    if run == [] {
      InitialWindow(c, s, cap);
    } else {
      RunKeepsWindow(c, s, cap, run[..|run|-1]);
      RunKeepsInv(c, s, cap, run[..|run|-1]);
      PerformKeepsWindow(c, Execute(c, s, run[..|run|-1]), run[|run|-1]);
    }
  }

  /** In every run of the producer, bulks and failures included, with any number of consumers: the queue holds fewer than
      2^(N-1) elements, and the last block in use ends less than 2^(N-1) above the head. */
  lemma TailStaysInWindow(c: Config, s: State, cap: nat, run: seq<Action>)
    requires Initial(c, s, cap) && c.half > 0
    ensures Sensible(s)
    ensures var m := Execute(c, s, run).m;
      && 0 <= m.q.tail - m.q.head < c.half
      && m.q.tail <= FirstNew(m.q.tail, c.blockSize) * c.blockSize < m.q.head + c.half
  {
    RunKeepsInv(c, s, cap, run);
    RunKeepsWindow(c, s, cap, run);
    var p := Execute(c, s, run);
    Claims.HeadNeverPassesTail(p.m.q, p.b.q);
    BaseNonnegative(p.m.q.tail, c.blockSize);
  }

  lemma CheckInWindow(c: Config, m: Memory)
    requires 0 < c.blockSize <= c.half && WindowOk(c, m) && m.prod.PCheck? && 0 <= m.q.head <= m.q.tail
    ensures FullTestRight(c, m)
  {
    var number := Base(c, m) + |m.prod.got|;
    BaseNonnegative(m.q.tail, c.blockSize);
    MulLe(c.blockSize, Base(c, m), number);
    FullTestAgrees(c, m.q.head, number);
    CircularExact(number * c.blockSize, m.q.head, c.half);
  }

  /** The test on words, of the block that would be acquired next, says what the unbounded counters say; and the
      assertion before it, that the block does not begin below the head, holds. */
  predicate FullTestRight(c: Config, m: Memory) {
    c.half > 0 && c.blockSize > 0 && m.prod.PCheck? &&
    var number := FirstNew(m.q.tail, c.blockSize) + |m.prod.got|;
    && (FullWrapped(c, Wrap(m.q.head, c.half), Wrap(number * c.blockSize, c.half)) <==> Full(c, m.q.head, number))
    && !CircularLessThan(Wrap(number * c.blockSize, c.half), Wrap(m.q.head, c.half), c.half)
  }

  /** Whenever the producer makes the full test, on N-bit words, whichever block of a bulk it is for, the test is right. */
  lemma FullTestIsExact(c: Config, s: State, cap: nat, run: seq<Action>)
    requires Initial(c, s, cap) && c.blockSize <= c.half && Sensible(s) && Execute(c, s, run).m.prod.PCheck?
    ensures FullTestRight(c, Execute(c, s, run).m)
  {
    TailStaysInWindow(c, s, cap, run);
    RunKeepsWindow(c, s, cap, run);
    HeadStaysNonnegative(c, s, cap, run);
    CheckInWindow(c, Execute(c, s, run).m);
  }

  lemma HeadStaysNonnegative(c: Config, s: State, cap: nat, run: seq<Action>)
    requires Initial(c, s, cap)
    ensures Sensible(s) && 0 <= Execute(c, s, run).m.q.head
  {
    RunKeepsInv(c, s, cap, run);
    HeadNonnegative(Execute(c, s, run).m.q, Execute(c, s, run).b.q);
  }

  // ----- The queue on wrapped counters

  /** What an action does to the four counters, if anything. */
  function CounterEvent(c: Config, m: Memory, a: Action): Option<Claims.Event>
    requires Enabled(c, m, a)
  {
    match a
    case Produce(_) => if m.prod.PStore? then Some(Claims.Event(0, Claims.Enqueue(|m.prod.vals|))) else None
    case Dequeue(t, max) => Some(Claims.Event(t, Claims.Call(max)))
    case Consume(t) =>
      if m.cons[t].CNone? then Some(Claims.Event(t, Claims.Advance))
      else if Step(c, m, a).cons[t].CNone? then Some(Claims.Event(t, Claims.Release))
      else None
    case _ => None
  }

  lemma CounterStep(c: Config, m: Memory, a: Action)
    requires Enabled(c, m, a)
    ensures match CounterEvent(c, m, a)
      case None => Step(c, m, a).q == m.q
      case Some(e) => Claims.Enabled(m.q, e.thread, e.action) && Step(c, m, a).q == Claims.Step(m.q, e.thread, e.action)
  {
  }

  /** The events on the counters in a run. */
  function CounterEvents(c: Config, s: State, run: seq<Action>): seq<Claims.Event>
    requires Sensible(s)
  {
    if run == [] then [] else
    var p, a := Execute(c, s, run[..|run|-1]), run[|run|-1];
    CounterEvents(c, s, run[..|run|-1]) + EventOf(c, p, a)
  }

  function EventOf(c: Config, p: State, a: Action): seq<Claims.Event> {
    if Enabled(c, p.m, a) && CounterEvent(c, p.m, a).Some? then [CounterEvent(c, p.m, a).value] else []
  }

  /** Every consumer makes its tests in time. */
  predicate RunInTime(c: Config, s: State, run: seq<Action>)
    requires Sensible(s)
  {
    run == [] ||
    (var p, a := Execute(c, s, run[..|run|-1]), run[|run|-1];
     && RunInTime(c, s, run[..|run|-1])
     && (a.Consume? && a.t < |p.m.q.pc| ==> InTime(p.m.q, p.b.q, a.t, c.half)))
  }

  lemma ExecuteOne(w: Claims.Counters, events: seq<Claims.Event>, e: Claims.Event, half: nat)
    requires half > 0
    ensures ExecuteWrapped(w, events + [e], half) == PerformWrapped(ExecuteWrapped(w, events, half), e, half)
  {
    assert (events + [e])[..|events|] == events;
  }

  lemma WrappedPerform(c: Config, p: State, a: Action, w: Claims.Counters, events: seq<Claims.Event>)
    requires c.half > 0 && Inv(c, p.m, p.b) && Sensible(p) && p.m.q.tail - p.m.q.head < c.half
    requires a.Consume? && a.t < |p.m.q.pc| ==> InTime(p.m.q, p.b.q, a.t, c.half)
    requires ExecuteWrapped(w, events, c.half) == WrapCounters(p.m.q, c.half)
    ensures ExecuteWrapped(w, events + EventOf(c, p, a), c.half) == WrapCounters(Perform(c, p, a).m.q, c.half)
  {
    if Enabled(c, p.m, a) {
      CounterStep(c, p.m, a);
      if CounterEvent(c, p.m, a).Some? {
        var e := CounterEvent(c, p.m, a).value;
        ExecuteOne(w, events, e, c.half);
        WrappedStepRefines(p.m.q, p.b.q, e.thread, e.action, c.half);
      }
    }
    if EventOf(c, p, a) == [] { assert events + EventOf(c, p, a) == events; }
  }

  /** Refinement over whole runs: the N-bit counters, stepped by the code's own wrapped arithmetic, are at every moment
      the residues of the unbounded ones, so the wrapped queue grants the same indices to the same consumers. Only that
      consumers are not overtaken by 2^(N-1) is assumed; that the queue stays below 2^(N-1) elements is proved. */
  lemma {:induction false} WrappedQueueRefines(c: Config, s: State, cap: nat, run: seq<Action>)
    requires Initial(c, s, cap) && c.half > 0
    requires Sensible(s) && RunInTime(c, s, run)
    ensures ExecuteWrapped(WrapCounters(s.m.q, c.half), CounterEvents(c, s, run), c.half)
         == WrapCounters(Execute(c, s, run).m.q, c.half)
  {
    if run != [] {
      var front := run[..|run|-1];
      WrappedQueueRefines(c, s, cap, front);
      RunKeepsInv(c, s, cap, front);
      TailStaysInWindow(c, s, cap, front);
      WrappedPerform(c, Execute(c, s, front), run[|run|-1], WrapCounters(s.m.q, c.half), CounterEvents(c, s, front));
    }
  }
}
