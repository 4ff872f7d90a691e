/** The BlockingConcurrentQueue of blockingconrurrentqueue.h: every enqueue that succeeds signals the semaphore once
    per element, every dequeue first gets permits and then takes that many elements from the inner queue, in a loop
    that has no other exit. The inner queue is here a list of sub-queues, one per producer, as OptimisticDequeue
    has them; which sub-queue a dequeue tries next is left open. */
module BlockingQueue {
  import opened Wrappers
  import Claims = OptimisticDequeue
  import Results = ClaimResults
  import Sema = Semaphore
  import SemaphoreResults

  /** What a thread is doing. `left` counts the permits for which it has no element yet, `at` is the sub-queue it is
      trying. */
  datatype Pc = Idle | Signalling | Waiting | Draining(left: nat, at: Option<nat>)

  datatype State = State(subs: seq<Claims.State>, sema: Sema.State, pc: seq<Pc>)

  datatype Action =
    | Enqueue(q: nat, count: nat)                // the inner enqueue succeeds; its last access is the store of tailIndex
    | Dequeue(max: nat, p: Sema.Patience)
    | Semaphore(flag: bool)                      // an access inside the semaphore
    | Granted                                    // the wait returns
    | Try(q: nat)                                // call dequeue_bulk of sub-queue q for the elements still missing
    | Inner                                      // an access inside that call
    | Take                                       // that call returns its elements

  function Thread(s: State, t: nat): Sema.Pc {
    if t < |s.sema.m.pc| then s.sema.m.pc[t] else Sema.Out
  }

  function At(s: State, t: nat, q: nat): Claims.Pc {
    if q < |s.subs| && t < |s.subs[q].m.pc| then s.subs[q].m.pc[t] else Claims.Out
  }

  predicate Enabled(s: State, t: nat, a: Action) {
    t < |s.pc| == |s.sema.m.pc| && match a
    case Enqueue(q, _) => s.pc[t].Idle? && q < |s.subs| && s.sema.m.pc[t].Out?
    case Dequeue(_, _) => s.pc[t].Idle? && s.sema.m.pc[t].Out?
    case Semaphore(flag) => (s.pc[t].Signalling? || s.pc[t].Waiting?) && Sema.Enabled(s.sema.m, t, Sema.Advance(flag))
    case Granted => s.pc[t].Waiting? && Sema.Enabled(s.sema.m, t, Sema.Return)
    case Try(q) => s.pc[t].Draining? && s.pc[t].left > 0 && s.pc[t].at.None? && q < |s.subs| && Ready(s, t, q, Claims.Call(s.pc[t].left))
    case Inner => s.pc[t].Draining? && s.pc[t].at.Some? && Ready(s, t, s.pc[t].at.value, Claims.Advance)
    case Take => s.pc[t].Draining? && s.pc[t].at.Some? && Ready(s, t, s.pc[t].at.value, Claims.Release)
  }

  predicate Ready(s: State, t: nat, q: nat, a: Claims.Action) {
    && q < |s.subs| && t < |s.subs[q].m.pc| == |s.subs[q].b.mine| == |s.subs[q].b.claimOf|
    && Claims.Enabled(s.subs[q].m, t, a)
  }

  function SubStep(s: State, t: nat, q: nat, a: Claims.Action): seq<Claims.State>
    requires q < |s.subs| && (a.Enqueue? || Ready(s, t, q, a))
  {
    s.subs[q := Claims.State(Claims.Step(s.subs[q].m, t, a), if a.Enqueue? then s.subs[q].b else Claims.Track(s.subs[q].m, s.subs[q].b, t, a))]
  }

  function SemaStep(s: State, t: nat, a: Sema.Action): Sema.State
    requires Sema.Enabled(s.sema.m, t, a)
  {
    Sema.State(Sema.Step(s.sema.m, t, a), Sema.Track(s.sema.m, s.sema.b, t, a))
  }

  function Drained(left: nat, at: Option<nat>): Pc { if left == 0 then Idle else Draining(left, at) }

  function Step(s: State, t: nat, a: Action): State
    requires Enabled(s, t, a)
  {
    match a
    case Enqueue(q, count) =>
      s.(subs := SubStep(s, t, q, Claims.Enqueue(count)), sema := SemaStep(s, t, Sema.Post(count)), pc := s.pc[t := Signalling])
    case Dequeue(max, p) => s.(sema := SemaStep(s, t, Sema.Wait(max, p)), pc := s.pc[t := Waiting])
    case Semaphore(flag) =>
      var sema := SemaStep(s, t, Sema.Advance(flag));
      s.(sema := sema, pc := if sema.m.pc[t].Out? then s.pc[t := Idle] else s.pc)
    case Granted =>
      s.(sema := SemaStep(s, t, Sema.Return), pc := s.pc[t := Drained(s.sema.m.pc[t].n, None)])
    case Try(q) =>
      s.(subs := SubStep(s, t, q, Claims.Call(s.pc[t].left)), pc := s.pc[t := Draining(s.pc[t].left, Some(q))])
    case Inner =>
      var q := s.pc[t].at.value;
      var subs := SubStep(s, t, q, Claims.Advance);
      s.(subs := subs, pc := if subs[q].m.pc[t].Out? then s.pc[t := Draining(s.pc[t].left, None)] else s.pc)
    case Take =>
      var q := s.pc[t].at.value;
      var count := s.subs[q].m.pc[t].count;
      var left := if 0 <= count <= s.pc[t].left then s.pc[t].left - count else 0;
      s.(subs := SubStep(s, t, q, Claims.Release), pc := s.pc[t := Drained(left, None)])
  }

  // ----- Totals

  function Tails(subs: seq<Claims.State>): int {
    if subs == [] then 0 else Tails(subs[..|subs|-1]) + subs[|subs|-1].m.tail
  }

  function Heads(subs: seq<Claims.State>): int {
    if subs == [] then 0 else Heads(subs[..|subs|-1]) + subs[|subs|-1].m.head
  }

  lemma {:induction false} TailsUpdate(subs: seq<Claims.State>, q: nat, sub: Claims.State)
    requires q < |subs|
    ensures Tails(subs[q := sub]) == Tails(subs) - subs[q].m.tail + sub.m.tail
    ensures Heads(subs[q := sub]) == Heads(subs) - subs[q].m.head + sub.m.head
  {
    var last := |subs| - 1;
    if q < last {
      assert subs[q := sub][..last] == subs[..last][q := sub];
      TailsUpdate(subs[..last], q, sub);
    } else {
      assert subs[q := sub][..last] == subs[..last];
    }
  }

  /** Elements enqueued whose signal is still to come. */
  function Unsignalled(pcs: seq<Sema.Pc>): nat {
    if pcs == [] then 0 else
    Unsignalled(pcs[..|pcs|-1]) + (if pcs[|pcs|-1].Signal? then pcs[|pcs|-1].count else 0)
  }

  function SignalOf(pc: Sema.Pc): nat { if pc.Signal? then pc.count else 0 }

  lemma {:induction false} UnsignalledUpdate(pcs: seq<Sema.Pc>, t: nat, pc: Sema.Pc)
    requires t < |pcs|
    ensures Unsignalled(pcs[t := pc]) == Unsignalled(pcs) - SignalOf(pcs[t]) + SignalOf(pc)
  {
    var last := |pcs| - 1;
    if t < last {
      assert pcs[t := pc][..last] == pcs[..last][t := pc];
      UnsignalledUpdate(pcs[..last], t, pc);
    } else {
      assert pcs[t := pc][..last] == pcs[..last];
    }
  }

  /** Permits that a thread holds and for which it has not claimed an element yet. */
  function Owed(s: State, t: nat): int
    requires t < |s.pc|
  {
    match s.pc[t]
    case Draining(left, at) =>
      var c := if at.Some? then At(s, t, at.value) else Claims.Out;
      left - (if c.Holding? then c.count else 0)
    case _ => 0
  }

  function OwedSeq(s: State): seq<int> { seq(|s.pc|, t requires 0 <= t < |s.pc| => Owed(s, t)) }

  function Sum(xs: seq<int>): int { if xs == [] then 0 else Sum(xs[..|xs|-1]) + xs[|xs|-1] }

  lemma {:induction false} SumUpdate(xs: seq<int>, t: nat, x: int)
    requires t < |xs|
    ensures Sum(xs[t := x]) == Sum(xs) - xs[t] + x
  {
    var last := |xs| - 1;
    if t < last {
      assert xs[t := x][..last] == xs[..last][t := x];
      SumUpdate(xs[..last], t, x);
    } else {
      assert xs[t := x][..last] == xs[..last];
    }
  }

  lemma {:induction false} SumAtLeast(xs: seq<int>, t: nat)
    requires t < |xs| && forall i :: 0 <= i < |xs| ==> xs[i] >= 0
    ensures 0 <= xs[t] <= Sum(xs)
  {
    if t < |xs| - 1 { SumAtLeast(xs[..|xs|-1], t); } else { SumNonnegative(xs[..|xs|-1]); }
  }

  lemma {:induction false} SumNonnegative(xs: seq<int>)
    requires forall i :: 0 <= i < |xs| ==> xs[i] >= 0
    ensures 0 <= Sum(xs)
  {
    if xs != [] { SumNonnegative(xs[..|xs|-1]); }
  }

  // ----- The invariant

  predicate ThreadOk(s: State, t: nat)
    requires t < |s.pc|
  {
    && (s.pc[t].Signalling? <==> Thread(s, t).Signal? || Thread(s, t).Release?)
    && (s.pc[t].Waiting? <==> !Thread(s, t).Out? && !Thread(s, t).Signal? && !Thread(s, t).Release?)
    && (s.pc[t].Draining? ==> s.pc[t].left > 0)
    && (s.pc[t].Draining? && s.pc[t].at.Some? ==>
          s.pc[t].at.value < |s.subs| && Results.Ask(At(s, t, s.pc[t].at.value)) <= s.pc[t].left)
  }

  /** A thread is inside at most the sub-queue that it is trying. */
  ghost predicate SubsOk(s: State) {
    && (forall q :: 0 <= q < |s.subs| ==> |s.subs[q].m.pc| == |s.pc| && Claims.Inv(s.subs[q].m, s.subs[q].b))
    && (forall t, q {:trigger At(s, t, q)} :: 0 <= t < |s.pc| && 0 <= q < |s.subs| ==>
          (At(s, t, q) != Claims.Out <==> s.pc[t].Draining? && s.pc[t].at == Some(q)))
  }

  ghost predicate Inv(s: State) {
    && |s.sema.m.pc| == |s.pc| && Sema.Inv(s.sema.m, s.sema.b) && s.sema.b.initial == 0
    && SubsOk(s)
    && (forall t {:trigger ThreadOk(s, t)} :: 0 <= t < |s.pc| ==> ThreadOk(s, t))
    && Tails(s.subs) == s.sema.b.signalled + Unsignalled(s.sema.m.pc)
    && Heads(s.subs) + Sum(OwedSeq(s)) == s.sema.b.returned
  }

  // ----- Every step keeps it

  lemma SubFacts(m: Claims.Counters, b: Claims.Book, t: nat, a: Claims.Action)
    requires Claims.Inv(m, b) && Claims.Enabled(m, t, a) && t < |m.pc|
    ensures var m' := Claims.Step(m, t, a);
      && |m'.pc| == |m.pc| && (forall u :: 0 <= u < |m.pc| && u != t ==> m'.pc[u] == m.pc[u])
      && m'.tail == m.tail + (if a.Enqueue? then a.k else 0)
      && m'.head == m.head + (if a.Advance? && m.pc[t].Claim? then m.pc[t].actual else 0)
      && (a.Enqueue? ==> m'.pc == m.pc)
      && (a.Advance? ==> Results.Ask(m'.pc[t]) <= Results.Ask(m.pc[t]))
      && (a.Advance? ==> (m'.pc[t].Holding? <==> m.pc[t].Claim?))
      && (m.pc[t].Claim? || m.pc[t].Holding? ==> Results.Ask(m.pc[t]) > 0)
  {
    assert Claims.ThreadOk(m, b, t);
    if Claims.Active(m.pc[t]) { assert Claims.TicketOk(m, b.tickets, b.mine[t]); }
    if m.pc[t].Holding? { Claims.HoldingIsPublished(m, b, t); }
  }

  /** A step of thread t leaves what the others do, and what they owe. */
  predicate OthersSame(s: State, s': State, t: nat) {
    && |s'.pc| == |s.pc| && |s'.sema.m.pc| == |s.sema.m.pc| && |s'.subs| == |s.subs|
    && (forall u :: 0 <= u < |s.pc| && u != t ==> s'.pc[u] == s.pc[u] && Thread(s', u) == Thread(s, u))
    && (forall u, q {:trigger At(s', u, q)} :: 0 <= u < |s.pc| && u != t && 0 <= q < |s.subs| ==> At(s', u, q) == At(s, u, q))
  }

  lemma OwedChange(s: State, s': State, t: nat)
    requires t < |s.pc| && OthersSame(s, s', t)
    requires forall u :: 0 <= u < |s.pc| ==> ThreadOk(s, u)
    ensures Sum(OwedSeq(s')) == Sum(OwedSeq(s)) - Owed(s, t) + Owed(s', t)
  {
    forall u | 0 <= u < |s.pc| && u != t ensures Owed(s', u) == Owed(s, u) {
      assert ThreadOk(s, u);
      if s.pc[u].Draining? && s.pc[u].at.Some? {
        assert At(s', u, s.pc[u].at.value) == At(s, u, s.pc[u].at.value);
      }
    }
    assert OwedSeq(s') == OwedSeq(s)[t := Owed(s', t)];
    SumUpdate(OwedSeq(s), t, Owed(s', t));
  }

  lemma ThreadsChange(s: State, s': State, t: nat)
    requires t < |s.pc| && OthersSame(s, s', t) && ThreadOk(s', t)
    requires forall u {:trigger ThreadOk(s, u)} :: 0 <= u < |s.pc| ==> ThreadOk(s, u)
    ensures forall u {:trigger ThreadOk(s', u)} :: 0 <= u < |s'.pc| ==> ThreadOk(s', u)
  {
    forall u | 0 <= u < |s'.pc| ensures ThreadOk(s', u) {
      if u != t {
        assert ThreadOk(s, u);
        if s.pc[u].Draining? && s.pc[u].at.Some? {
          assert At(s', u, s.pc[u].at.value) == At(s, u, s.pc[u].at.value);
        }
      }
    }
  }

  lemma SubKeepsOthers(s: State, t: nat, q: nat, a: Claims.Action, s': State)
    requires SubsOk(s) && t < |s.pc| && q < |s.subs| && (a.Enqueue? || Ready(s, t, q, a))
    requires |s'.pc| == |s.pc| && s'.subs == SubStep(s, t, q, a)
    ensures |s'.subs| == |s.subs|
    ensures forall u, x {:trigger At(s', u, x)} :: 0 <= u < |s.pc| && 0 <= x < |s.subs| && (u != t || x != q) ==> At(s', u, x) == At(s, u, x)
    ensures forall x :: 0 <= x < |s'.subs| ==> |s'.subs[x].m.pc| == |s.pc| && Claims.Inv(s'.subs[x].m, s'.subs[x].b)
  {
    SubFacts(s.subs[q].m, s.subs[q].b, t, a);
    Claims.StepKeepsInv(s.subs[q].m, s.subs[q].b, t, a);
  }

  lemma SemaOthers(m: Sema.Memory, t: nat, a: Sema.Action)
    requires Sema.Enabled(m, t, a)
    ensures |Sema.Step(m, t, a).pc| == |m.pc|
    ensures Sema.Step(m, t, a).pc == m.pc[t := Sema.Step(m, t, a).pc[t]]
  {
  }

  /** What the semaphore's own accesses can turn into. */
  lemma SemaphoreMoves(m: Sema.Memory, t: nat, flag: bool)
    requires Sema.Enabled(m, t, Sema.Advance(flag))
    ensures var pc, pc' := m.pc[t], Sema.Step(m, t, Sema.Advance(flag)).pc[t];
      if pc.Signal? || pc.Release? then pc'.Release? || pc'.Out? else !pc'.Out? && !pc'.Signal? && !pc'.Release?
  {
  }

  lemma SemaphoreStep(s: State, t: nat, flag: bool)
    requires Inv(s) && Enabled(s, t, Semaphore(flag))
    ensures Inv(Step(s, t, Semaphore(flag)))
  {
    var s' := Step(s, t, Semaphore(flag));
    assert ThreadOk(s, t);
    Sema.StepKeepsInv(s.sema.m, s.sema.b, t, Sema.Advance(flag));
    SemaOthers(s.sema.m, t, Sema.Advance(flag));
    SemaphoreMoves(s.sema.m, t, flag);
    UnsignalledUpdate(s.sema.m.pc, t, s'.sema.m.pc[t]);
    forall u, q | 0 <= u < |s.pc| && 0 <= q < |s.subs| ensures At(s', u, q) == At(s, u, q) { }
    OwedChange(s, s', t);
    ThreadsChange(s, s', t);
  }

  lemma DequeueStep(s: State, t: nat, max: nat, p: Sema.Patience)
    requires Inv(s) && Enabled(s, t, Dequeue(max, p))
    ensures Inv(Step(s, t, Dequeue(max, p)))
  {
    var s' := Step(s, t, Dequeue(max, p));
    assert ThreadOk(s, t);
    Sema.StepKeepsInv(s.sema.m, s.sema.b, t, Sema.Wait(max, p));
    UnsignalledUpdate(s.sema.m.pc, t, s'.sema.m.pc[t]);
    forall u, q | 0 <= u < |s.pc| && 0 <= q < |s.subs| ensures At(s', u, q) == At(s, u, q) { }
    OwedChange(s, s', t);
    ThreadsChange(s, s', t);
  }

  lemma GrantedStep(s: State, t: nat)
    requires Inv(s) && Enabled(s, t, Granted)
    ensures Inv(Step(s, t, Granted))
  {
    var s' := Step(s, t, Granted);
    assert ThreadOk(s, t);
    Sema.StepKeepsInv(s.sema.m, s.sema.b, t, Sema.Return);
    UnsignalledUpdate(s.sema.m.pc, t, s'.sema.m.pc[t]);
    forall u, q | 0 <= u < |s.pc| && 0 <= q < |s.subs| ensures At(s', u, q) == At(s, u, q) { }
    OwedChange(s, s', t);
    ThreadsChange(s, s', t);
  }

  lemma EnqueueSubs(s: State, t: nat, q: nat, count: nat, s': State)
    requires SubsOk(s) && t < |s.pc| && q < |s.subs|
    requires s'.subs == SubStep(s, t, q, Claims.Enqueue(count)) && |s'.pc| == |s.pc|
    requires !s.pc[t].Draining? && !s'.pc[t].Draining? && forall u :: 0 <= u < |s.pc| && u != t ==> s'.pc[u] == s.pc[u]
    ensures SubsOk(s') && Tails(s'.subs) == Tails(s.subs) + count && Heads(s'.subs) == Heads(s.subs)
    ensures |s'.subs| == |s.subs| && forall u, x {:trigger At(s', u, x)} :: 0 <= u < |s.pc| && 0 <= x < |s.subs| ==> At(s', u, x) == At(s, u, x)
  {
    SubKeepsOthers(s, t, q, Claims.Enqueue(count), s');
    TailsUpdate(s.subs, q, s'.subs[q]);
    forall u, x | 0 <= u < |s.pc| && 0 <= x < |s.subs| ensures At(s', u, x) == At(s, u, x) { }
    forall u, x {:trigger At(s', u, x)} | 0 <= u < |s'.pc| && 0 <= x < |s'.subs|
      ensures At(s', u, x) != Claims.Out <==> s'.pc[u].Draining? && s'.pc[u].at == Some(x)
    { assert At(s, u, x) != Claims.Out <==> s.pc[u].Draining? && s.pc[u].at == Some(x); }
  }

  lemma EnqueueStep(s: State, t: nat, q: nat, count: nat)
    requires Inv(s) && Enabled(s, t, Enqueue(q, count))
    ensures Inv(Step(s, t, Enqueue(q, count)))
  {
    var s' := Step(s, t, Enqueue(q, count));
    assert ThreadOk(s, t);
    Sema.StepKeepsInv(s.sema.m, s.sema.b, t, Sema.Post(count));
    UnsignalledUpdate(s.sema.m.pc, t, s'.sema.m.pc[t]);
    EnqueueSubs(s, t, q, count, s');
    OwedChange(s, s', t);
    ThreadsChange(s, s', t);
  }

  lemma InsideSubs(s: State, t: nat, q: nat, a: Claims.Action, s': State)
    requires SubsOk(s) && t < |s.pc| && q < |s.subs| && !a.Enqueue? && Ready(s, t, q, a)
    requires |s'.pc| == |s.pc| && s'.pc == s.pc[t := s'.pc[t]] && s'.subs == SubStep(s, t, q, a)
    requires s.pc[t].Draining? && s.pc[t].at == if a.Call? then None else Some(q)
    requires At(s', t, q) != Claims.Out <==> s'.pc[t].Draining? && s'.pc[t].at == Some(q)
    requires s'.pc[t].Draining? ==> s'.pc[t].at == Some(q) || s'.pc[t].at == None
    ensures SubsOk(s')
  {
    SubKeepsOthers(s, t, q, a, s');
    forall u, x {:trigger At(s', u, x)} | 0 <= u < |s.pc| && 0 <= x < |s.subs|
      ensures At(s', u, x) != Claims.Out <==> s'.pc[u].Draining? && s'.pc[u].at == Some(x)
    {
      assert At(s, u, x) != Claims.Out <==> s.pc[u].Draining? && s.pc[u].at == Some(x);
      if u != t || x != q { assert At(s', u, x) == At(s, u, x); }
    }
  }

  /** A step inside the sub-queue that thread t is trying, or into it, or out of it. */
  lemma SubOk(s: State, t: nat, q: nat, a: Claims.Action, s': State)
    requires Inv(s) && t < |s.pc| && s.pc[t].Draining? && q < |s.subs| && !a.Enqueue? && Ready(s, t, q, a)
    requires a.Call? ==> a.max > 0
    requires s.pc[t].at == if a.Call? then None else Some(q)
    requires s' == s.(subs := SubStep(s, t, q, a), pc := s'.pc) && |s'.pc| == |s.pc| && s'.pc == s.pc[t := s'.pc[t]]
    requires !s'.pc[t].Signalling? && !s'.pc[t].Waiting?
    requires At(s', t, q) != Claims.Out <==> s'.pc[t].Draining? && s'.pc[t].at == Some(q)
    requires s'.pc[t].Draining? ==> s'.pc[t].left > 0 && (s'.pc[t].at == Some(q) || s'.pc[t].at == None)
    requires s'.pc[t].Draining? && s'.pc[t].at.Some? ==> Results.Ask(At(s', t, q)) <= s'.pc[t].left
    requires Owed(s', t) - Owed(s, t) == s.subs[q].m.head - s'.subs[q].m.head
    ensures Inv(s')
  {
    assert ThreadOk(s, t);
    SubFacts(s.subs[q].m, s.subs[q].b, t, a);
    SubKeepsOthers(s, t, q, a, s');
    InsideSubs(s, t, q, a, s');
    TailsUpdate(s.subs, q, s'.subs[q]);
    OwedChange(s, s', t);
    ThreadsChange(s, s', t);
  }

  lemma TryStep(s: State, t: nat, q: nat)
    requires Inv(s) && Enabled(s, t, Try(q))
    ensures Inv(Step(s, t, Try(q)))
  {
    SubOk(s, t, q, Claims.Call(s.pc[t].left), Step(s, t, Try(q)));
  }

  lemma InnerStep(s: State, t: nat)
    requires Inv(s) && Enabled(s, t, Inner)
    ensures Inv(Step(s, t, Inner))
  {
    var q := s.pc[t].at.value;
    assert ThreadOk(s, t);
    SubFacts(s.subs[q].m, s.subs[q].b, t, Claims.Advance);
    SubOk(s, t, q, Claims.Advance, Step(s, t, Inner));
  }

  lemma TakeStep(s: State, t: nat)
    requires Inv(s) && Enabled(s, t, Take)
    ensures Inv(Step(s, t, Take))
  {
    var q := s.pc[t].at.value;
    assert ThreadOk(s, t);
    SubFacts(s.subs[q].m, s.subs[q].b, t, Claims.Release);
    SubOk(s, t, q, Claims.Release, Step(s, t, Take));
  }

  lemma StepKeepsInv(s: State, t: nat, a: Action)
    requires Inv(s) && Enabled(s, t, a)
    ensures Inv(Step(s, t, a))
  {
    match a
    case Enqueue(q, count) => EnqueueStep(s, t, q, count);
    case Dequeue(max, p) => DequeueStep(s, t, max, p);
    case Semaphore(flag) => SemaphoreStep(s, t, flag);
    case Granted => GrantedStep(s, t);
    case Try(q) => TryStep(s, t, q);
    case Inner => InnerStep(s, t);
    case Take => TakeStep(s, t);
  }

  // ----- Runs

  datatype Event = Event(thread: nat, action: Action)

  ghost predicate Initial(s: State) {
    && |s.sema.m.pc| == |s.pc| && Sema.Initial(s.sema) && s.sema.b.initial == 0
    && (forall t :: 0 <= t < |s.pc| ==> s.pc[t] == Idle)
    && (forall q :: 0 <= q < |s.subs| ==> Claims.Initial(s.subs[q]) && |s.subs[q].m.pc| == |s.pc|)
  }

  function Perform(s: State, e: Event): State {
    if Enabled(s, e.thread, e.action) then Step(s, e.thread, e.action) else s
  }

  function Execute(s: State, events: seq<Event>): State {
    if events == [] then s else Perform(Execute(s, events[..|events|-1]), events[|events|-1])
  }

  lemma {:induction false} NothingYet(subs: seq<Claims.State>)
    requires forall q :: 0 <= q < |subs| ==> Claims.Initial(subs[q])
    ensures Tails(subs) == Heads(subs) == 0
  {
    if subs != [] { NothingYet(subs[..|subs|-1]); }
  }

  lemma {:induction false} NoSignals(pcs: seq<Sema.Pc>)
    requires forall t :: 0 <= t < |pcs| ==> pcs[t] == Sema.Out
    ensures Unsignalled(pcs) == 0
  {
    if pcs != [] { NoSignals(pcs[..|pcs|-1]); }
  }

  lemma {:induction false} SumZero(xs: seq<int>)
    requires forall i :: 0 <= i < |xs| ==> xs[i] == 0
    ensures Sum(xs) == 0
  {
    if xs != [] { SumZero(xs[..|xs|-1]); }
  }

  lemma InitialSubs(s: State)
    requires Initial(s)
    ensures SubsOk(s) && forall t :: 0 <= t < |s.pc| ==> ThreadOk(s, t)
  {
    forall q | 0 <= q < |s.subs| ensures Claims.Inv(s.subs[q].m, s.subs[q].b) { Claims.RunKeepsInv(s.subs[q], []); }
  }

  lemma InitialInv(s: State)
    requires Initial(s)
    ensures Inv(s)
  {
    Sema.RunKeepsInv(s.sema, []);
    InitialSubs(s);
    NothingYet(s.subs);
    NoSignals(s.sema.m.pc);
    SumZero(OwedSeq(s));
  }

  lemma {:induction false} RunKeepsInv(s: State, events: seq<Event>)
    requires Initial(s)
    ensures Inv(Execute(s, events))
  {
    if events == [] {
      InitialInv(s);
    } else {
      RunKeepsInv(s, events[..|events|-1]);
      var p, e := Execute(s, events[..|events|-1]), events[|events|-1];
      if Enabled(p, e.thread, e.action) { StepKeepsInv(p, e.thread, e.action); }
    }
  }

  // ----- Matching

  lemma OwedNonnegative(s: State)
    requires Inv(s)
    ensures forall t :: 0 <= t < |OwedSeq(s)| ==> OwedSeq(s)[t] >= 0
  {
    forall t | 0 <= t < |s.pc| ensures Owed(s, t) >= 0 { assert ThreadOk(s, t); }
  }

  /** The elements in the inner queue are exactly the permits that are available or on their way through the kernel,
      plus the permits granted for which no element is claimed yet, plus the elements not signalled yet. */
  lemma Matching(s: State, events: seq<Event>)
    requires Initial(s)
    ensures var p := Execute(s, events);
      && Tails(p.subs) - Heads(p.subs)
         == Sema.Positive(p.sema.m.count) + p.sema.m.kernel + Sema.Total(p.sema.m.pc, Sema.Releasing)
            + Sema.Total(p.sema.m.pc, Sema.Acquired) + Sum(OwedSeq(p)) + Unsignalled(p.sema.m.pc)
      && 0 <= Sum(OwedSeq(p))
  {
    RunKeepsInv(s, events);
    OwedNonnegative(Execute(s, events));
    SumNonnegative(OwedSeq(Execute(s, events)));
  }

  lemma {:induction false} SomeSubNotEmpty(subs: seq<Claims.State>)
    requires Tails(subs) > Heads(subs)
    ensures exists q :: 0 <= q < |subs| && subs[q].m.head < subs[q].m.tail
  {
    var last := |subs| - 1;
    if subs[last].m.head >= subs[last].m.tail {
      SomeSubNotEmpty(subs[..last]);
      var q :| 0 <= q < last && subs[..last][q].m.head < subs[..last][q].m.tail;
      assert subs[q].m.head < subs[q].m.tail;
    }
  }

  /** Behind the unguarded retry loops: whoever holds permits has that many elements waiting for it, whatever the
      others do, so some sub-queue is not empty. */
  lemma PermitHasElement(s: State, events: seq<Event>, t: nat)
    requires Initial(s) && t < |Execute(s, events).pc|
    ensures var p := Execute(s, events);
      && 0 <= Owed(p, t) <= Tails(p.subs) - Heads(p.subs)
      && (Owed(p, t) > 0 ==> exists q :: 0 <= q < |p.subs| && p.subs[q].m.head < p.subs[q].m.tail)
  {
    var p := Execute(s, events);
    RunKeepsInv(s, events);
    Matching(s, events);
    OwedNonnegative(p);
    SumAtLeast(OwedSeq(p), t);
    assert OwedSeq(p)[t] == Owed(p, t);
    if Owed(p, t) > 0 { SomeSubNotEmpty(p.subs); }
  }

  /** What a wait grants: at most what was asked for, and at least one permit if it waits without a timeout. */
  lemma GrantInRange(s: State, events: seq<Event>, t: nat)
    requires Initial(s) && Enabled(Execute(s, events), t, Granted)
    ensures var c := Thread(Execute(s, events), t);
      c.Done? && c.n <= c.want && (c.p.Forever? && c.want > 0 ==> c.n > 0)
    ensures var left := Owed(Step(Execute(s, events), t, Granted), t); left == Thread(Execute(s, events), t).n
  {
    RunKeepsInv(s, events);
    GrantIsDone(Execute(s, events), t);
  }

  lemma GrantIsDone(s: State, t: nat)
    requires Enabled(s, t, Granted) && Sema.Inv(s.sema.m, s.sema.b)
    ensures var c := Thread(s, t); c.Done? && c.n <= c.want && (c.p.Forever? && c.want > 0 ==> c.n > 0)
    ensures Owed(Step(s, t, Granted), t) == Thread(s, t).n
  {
    assert Sema.ThreadOk(s.sema.m.pc[t]);
  }

  /** A wait comes back with less than it asked for only when every element in the queue is spoken for: by a kernel permit
      or a post to come, by a call that has its permits, or by a signal to come. */
  lemma ShortOnlyWhenSpokenFor(s: State, events: seq<Event>, t: nat, flag: bool)
    requires Initial(s) && Enabled(Execute(s, events), t, Semaphore(flag))
    requires var c := Thread(Step(Execute(s, events), t, Semaphore(flag)), t); c.Done? && c.n < c.want
    ensures var p := Step(Execute(s, events), t, Semaphore(flag));
      Tails(p.subs) - Heads(p.subs)
      == p.sema.m.kernel + Sema.Total(p.sema.m.pc, Sema.Releasing) + Sema.Total(p.sema.m.pc, Sema.Acquired)
         + Sum(OwedSeq(p)) + Unsignalled(p.sema.m.pc)
  {
    RunKeepsInv(s, events);
    var q := Execute(s, events);
    assert Sema.ThreadOk(q.sema.m.pc[t]);
    SemaphoreResults.AccessEndsShort(q.sema.m.count, q.sema.m.kernel, q.sema.m.pc[t], flag);
    assert (events + [Event(t, Semaphore(flag))])[..|events|] == events;
    Matching(s, events + [Event(t, Semaphore(flag))]);
  }

  /** size_approx never exceeds the number of elements. */
  lemma SizeIsNotExceeded(s: State, events: seq<Event>)
    requires Initial(s)
    ensures var p := Execute(s, events); Sema.Positive(p.sema.m.count) <= Tails(p.subs) - Heads(p.subs)
  {
    Matching(s, events);
  }

  /** When every thread is out of its call, size_approx is exact: each element has its permit in the count. */
  lemma SizeIsExactWhenIdle(s: State, events: seq<Event>)
    requires Initial(s) && forall t :: 0 <= t < |Execute(s, events).pc| ==> Execute(s, events).pc[t].Idle?
    ensures var p := Execute(s, events);
      p.sema.m.count == Tails(p.subs) - Heads(p.subs)
  {
    var p := Execute(s, events);
    RunKeepsInv(s, events);
    Matching(s, events);
    forall t | 0 <= t < |p.pc| ensures p.sema.m.pc[t] == Sema.Out && OwedSeq(p)[t] == 0 { assert ThreadOk(p, t); }
    Sema.TotalZero(p.sema.m.pc, Sema.Waiting);
    Sema.TotalZero(p.sema.m.pc, Sema.Releasing);
    Sema.TotalZero(p.sema.m.pc, Sema.Acquired);
    NoSignals(p.sema.m.pc);
    SumZero(OwedSeq(p));
  }

  // ----- The loops of a thread that runs alone

  function Size(subs: seq<Claims.Counters>): int {
    if subs == [] then 0 else Size(subs[..|subs|-1]) + (subs[|subs|-1].tail - subs[|subs|-1].head)
  }

  lemma {:induction false} SizeUpdate(subs: seq<Claims.Counters>, q: nat, m: Claims.Counters)
    requires q < |subs|
    ensures Size(subs[q := m]) == Size(subs) - (subs[q].tail - subs[q].head) + (m.tail - m.head)
  {
    var last := |subs| - 1;
    if q < last {
      assert subs[q := m][..last] == subs[..last][q := m];
      SizeUpdate(subs[..last], q, m);
    } else {
      assert subs[q := m][..last] == subs[..last];
    }
  }

  lemma {:induction false} AllEmpty(subs: seq<Claims.Counters>)
    requires forall q :: 0 <= q < |subs| ==> subs[q].tail == subs[q].head
    ensures Size(subs) == 0
  {
    if subs != [] { AllEmpty(subs[..|subs|-1]); }
  }

  lemma {:induction false} SizeNonnegative(subs: seq<Claims.Counters>)
    requires forall q :: 0 <= q < |subs| ==> subs[q].head <= subs[q].tail
    ensures 0 <= Size(subs)
  {
    if subs != [] { SizeNonnegative(subs[..|subs|-1]); }
  }

  /** The inner queue of a thread t that runs alone while no other call is unsettled. */
  class InnerQueue {
    var subs: seq<Claims.Counters>

    constructor (subs: seq<Claims.Counters>)
      ensures this.subs == subs
    {
      this.subs := subs;
    }

    /** What every quiet state gives (OptimisticDequeue.QuietBalance, HeadNeverPassesTail). */
    predicate Balanced(t: nat) reads this {
      forall q :: 0 <= q < |subs| ==> BalancedSub(subs[q], t)
    }

    static predicate BalancedSub(m: Claims.Counters, t: nat) {
      t < |m.pc| && m.pc[t].Out? && m.opt - m.over == m.head <= m.tail
    }

    /** One dequeue_bulk call on sub-queue q. */
    method DequeueFrom(q: nat, t: nat, max: nat) returns (count: nat)
      requires Balanced(t) && q < |subs| && max > 0
      modifies this
      ensures Balanced(t) && |subs| == |old(subs)|
      ensures count == Min(max, old(subs)[q].tail - old(subs)[q].head)
      ensures subs == old(subs)[q := subs[q]]
      ensures subs[q].tail - subs[q].head == old(subs)[q].tail - old(subs)[q].head - count
    {
      var m := subs[q];
      if m.head < m.tail { Claims.SoloSuccess(m, t, max); } else { Claims.SoloFailure(m, t, max); }
      m := Claims.Finish(Claims.Step(m, t, Claims.Call(max)), t, 6);
      count := 0;
      if m.pc[t].Holding? {
        count := m.pc[t].count;
        m := Claims.Step(m, t, Claims.Release);
      }
      subs := subs[q := m];
    }

    /** try_dequeue_bulk of the inner queue: one producer after the other, until max elements are found. */
    method TryDequeueBulk(t: nat, max: nat) returns (count: nat)
      requires Balanced(t) && max > 0
      modifies this
      ensures Balanced(t)
      ensures count == Min(max, old(Size(subs))) && Size(subs) == old(Size(subs)) - count
    {
      count := 0;
      var q := 0;
      while q < |subs|
        invariant 0 <= q <= |subs| == |old(subs)| && count < max && Balanced(t)
        invariant Size(subs) == old(Size(subs)) - count
        invariant forall x :: 0 <= x < q ==> subs[x].tail == subs[x].head
      {
        ghost var before := subs;
        var n := DequeueFrom(q, t, max - count);
        SizeUpdate(before, q, subs[q]);
        count := count + n;
        if count == max { SizeNonnegative(subs); return; }
        q := q + 1;
      }
      AllEmpty(subs);
    }

    /** The loop of wait_dequeue_bulk, which has no exit but success: with max elements there it ends, and has exactly
        max elements then. */
    method DequeueGranted(t: nat, max: nat) returns (count: nat)
      requires Balanced(t) && max <= Size(subs)
      modifies this
      ensures Balanced(t) && count == max && Size(subs) == old(Size(subs)) - max
    {
      count := 0;
      while count != max
        invariant count <= max && Balanced(t) && Size(subs) == old(Size(subs)) - count
        decreases max - count
      {
        var n := TryDequeueBulk(t, max - count);
        count := count + n;
      }
    }
  }

  function CountersOf(subs: seq<Claims.State>): (ms: seq<Claims.Counters>)
    ensures |ms| == |subs| && forall q :: 0 <= q < |subs| ==> ms[q] == subs[q].m
  {
    seq(|subs|, q requires 0 <= q < |subs| => subs[q].m)
  }

  lemma {:induction false} SizeIsDifference(subs: seq<Claims.State>)
    ensures Size(CountersOf(subs)) == Tails(subs) - Heads(subs)
  {
    if subs != [] {
      var front := subs[..|subs|-1];
      SizeIsDifference(front);
      assert CountersOf(subs)[..|subs|-1] == CountersOf(front);
    }
  }

  lemma QuietIsBalanced(s: State, t: nat)
    requires Inv(s) && t < |s.pc| && s.pc[t].Draining? && s.pc[t].at.None?
    requires forall q :: 0 <= q < |s.subs| ==> Claims.Quiet(s.subs[q].m)
    ensures forall q :: 0 <= q < |s.subs| ==> InnerQueue.BalancedSub(s.subs[q].m, t)
  {
    forall q | 0 <= q < |s.subs| ensures InnerQueue.BalancedSub(s.subs[q].m, t) {
      Claims.QuietBalance(s.subs[q].m, s.subs[q].b);
      Claims.HeadNeverPassesTail(s.subs[q].m, s.subs[q].b);
      assert At(s, t, q) == Claims.Out;
    }
  }

  /** The start of that loop, in any run: a thread with permits, while no call is unsettled, has the sub-queues balanced
      and enough elements in them. */
  lemma GrantedLoopEnds(s: State, events: seq<Event>, t: nat)
    requires Initial(s) && t < |Execute(s, events).pc|
    requires var p := Execute(s, events);
      && p.pc[t].Draining? && p.pc[t].at.None? && forall q :: 0 <= q < |p.subs| ==> Claims.Quiet(p.subs[q].m)
    ensures var p := Execute(s, events);
      && (forall q :: 0 <= q < |p.subs| ==> InnerQueue.BalancedSub(p.subs[q].m, t))
      && p.pc[t].left <= Size(CountersOf(p.subs))
  {
    var p := Execute(s, events);
    RunKeepsInv(s, events);
    PermitHasElement(s, events, t);
    SizeIsDifference(p.subs);
    QuietIsBalanced(p, t);
  }
}
