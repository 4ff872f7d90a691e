/** The dequeue side of ProducerBase in concurrentqueue.h: how any number of consumers, single or bulk,
    claim elements of one sub-queue with the four counters tailIndex, headIndex, dequeueOptimisticCount
    and dequeueOvercommit. One atomic access per step; counters are unbounded here (CircularIndex has the
    wrapped ones). A single dequeue is the bulk form with max == 1: same loads, same tests, same additions. */
module OptimisticDequeue {
  import opened Wrappers


  /** The next atomic access of a consumer, with its live locals. */
  datatype Pc =
    | Out
    | LoadTail(max: nat)
    | LoadOvercommit(max: nat, tail: int)
    | LoadOptimistic(max: nat, tail: int, over: int)
    | TakeTicket(desired: int, over: int)                  // dequeueOptimisticCount.fetch_add(desired)
    | ReloadTail(desired: int, over: int, my: int)
    | GiveBack(excess: int, actual: int)                   // dequeueOvercommit.fetch_add(desired - actual)
    | GiveUp(desired: int)                                 // dequeueOvercommit.fetch_add(desired), return 0
    | Claim(actual: int)                                   // headIndex.fetch_add(actual)
    | Holding(first: int, count: int)                      // owns the indices first .. first + count

  datatype Counters = Counters(tail: int, head: int, opt: int, over: int, pc: seq<Pc>)

  /** `Enqueue(k)`: the producer publishes k more elements. `Call(max)`, `Release`: a consumer enters, leaves. */
  datatype Action = Enqueue(k: nat) | Call(max: nat) | Release | Advance

  predicate Enabled(m: Counters, t: nat, a: Action) {
    a.Enqueue? ||
    (t < |m.pc| && match a
      case Call(max) => max > 0 && m.pc[t].Out?
      case Release => m.pc[t].Holding?
      case _ => !m.pc[t].Out? && !m.pc[t].Holding?)
  }

  /** After the loads: is anything left, and how much of it is asked for? */
  function FirstCheck(tail: int, opt: int, over: int, max: nat): Pc {
    var desired := tail - (opt - over);
    if 0 < desired then TakeTicket(Min(desired, max), over) else Out
  }

  /** After the reload of tailIndex. */
  function SecondCheck(tail: int, my: int, over: int, desired: int): Pc {
    var available := tail - (my - over);
    if 0 < available then
      var actual := Min(desired, available);
      if actual < desired then GiveBack(desired - actual, actual) else Claim(actual)
    else GiveUp(desired)
  }

  function Step(m: Counters, t: nat, a: Action): Counters
    requires Enabled(m, t, a)
  {
    match a
    case Enqueue(k) => m.(tail := m.tail + k)
    case Call(max) => m.(pc := m.pc[t := LoadTail(max)])
    case Release => m.(pc := m.pc[t := Out])
    case Advance =>
      match m.pc[t]
      case LoadTail(max) => m.(pc := m.pc[t := LoadOvercommit(max, m.tail)])
      case LoadOvercommit(max, tail) => m.(pc := m.pc[t := LoadOptimistic(max, tail, m.over)])
      case LoadOptimistic(max, tail, over) => m.(pc := m.pc[t := FirstCheck(tail, m.opt, over, max)])
      case TakeTicket(d, over) => m.(opt := m.opt + d, pc := m.pc[t := ReloadTail(d, over, m.opt)])
      case ReloadTail(d, over, my) => m.(pc := m.pc[t := SecondCheck(m.tail, my, over, d)])
      case GiveBack(excess, actual) => m.(over := m.over + excess, pc := m.pc[t := Claim(actual)])
      case GiveUp(d) => m.(over := m.over + d, pc := m.pc[t := Out])
      case Claim(actual) => m.(head := m.head + actual, pc := m.pc[t := Holding(m.head, actual)])
      case _ => m
  }

  // ----- Bookkeeping of the proof

  /** One fetch_add on dequeueOptimisticCount: the count it saw, the stale overcommit its thread had loaded,
      and how much of what it asked for has been granted, given back and claimed so far. */
  datatype Ticket = Ticket(my: int, over: int, desired: int, granted: int, returned: int, claimed: int)

  datatype Interval = Interval(first: int, count: int)

  /** Tickets and claims in the order of their fetch_adds; which of them each thread made last. */
  datatype Book = Book(tickets: seq<Ticket>, mine: seq<nat>, claims: seq<Interval>, claimOf: seq<nat>)

  function Mine(b: Book, t: nat): Ticket
    requires t < |b.mine|
  {
    if b.mine[t] < |b.tickets| then b.tickets[b.mine[t]] else Ticket(0, 0, 0, 0, 0, 0)
  }

  function Revise(b: Book, t: nat, tk: Ticket): Book
    requires t < |b.mine|
  {
    if b.mine[t] < |b.tickets| then b.(tickets := b.tickets[b.mine[t] := tk]) else b
  }

  function Track(m: Counters, b: Book, t: nat, a: Action): Book
    requires Enabled(m, t, a) && |b.mine| == |b.claimOf| == |m.pc|
  {
    if !a.Advance? then b else
    match m.pc[t]
    case TakeTicket(d, over) =>
      b.(tickets := b.tickets + [Ticket(m.opt, over, d, 0, 0, 0)], mine := b.mine[t := |b.tickets|])
    case ReloadTail(d, over, my) =>
      var available := m.tail - (my - over);
      Revise(b, t, Mine(b, t).(granted := if 0 < available then Min(d, available) else 0))
    case GiveBack(excess, _) => Revise(b, t, Mine(b, t).(returned := excess))
    case GiveUp(d) => Revise(b, t, Mine(b, t).(returned := d))
    case Claim(actual) =>
      Revise(b, t, Mine(b, t).(claimed := actual))
        .(claims := b.claims + [Interval(m.head, actual)], claimOf := b.claimOf[t := |b.claims|])
    case _ => b
  }

  datatype Field = Desired | Granted | Returned | Claimed

  function Get(tk: Ticket, f: Field): int {
    match f case Desired => tk.desired case Granted => tk.granted case Returned => tk.returned case Claimed => tk.claimed
  }

  function Sum(ts: seq<Ticket>, f: Field): int {
    if ts == [] then 0 else Sum(ts[..|ts|-1], f) + Get(ts[|ts|-1], f)
  }

  lemma SumAppend(ts: seq<Ticket>, tk: Ticket, f: Field)
    ensures Sum(ts + [tk], f) == Sum(ts, f) + Get(tk, f)
  {
    assert (ts + [tk])[..|ts|] == ts;
  }

  lemma {:induction false} SumUpdate(ts: seq<Ticket>, i: nat, tk: Ticket, f: Field)
    requires i < |ts|
    ensures Sum(ts[i := tk], f) == Sum(ts, f) - Get(ts[i], f) + Get(tk, f)
  {
    var last := |ts| - 1;
    if i < last {
      assert ts[i := tk][..last] == ts[..last][i := tk];
      SumUpdate(ts[..last], i, tk, f);
    } else {
      assert ts[i := tk][..last] == ts[..last];
    }
  }

  // ----- The invariant

  predicate TicketOk(m: Counters, ts: seq<Ticket>, i: nat)
    requires i < |ts|
  {
    var tk := ts[i];
    && 0 < tk.desired && 0 <= tk.claimed <= tk.granted && 0 <= tk.returned
    && tk.granted + tk.returned <= tk.desired
    && tk.my == Sum(ts[..i], Desired)
    && tk.over <= Sum(ts[..i], Returned)
    && (tk.granted > 0 ==> tk.my - tk.over + tk.granted <= m.tail)
  }

  /** The thread still has to settle its last ticket. */
  predicate Active(pc: Pc) { pc.ReloadTail? || pc.GiveBack? || pc.GiveUp? || pc.Claim? }

  predicate ThreadOk(m: Counters, b: Book, t: nat)
    requires t < |m.pc| && |b.mine| == |b.claimOf| == |m.pc|
  {
    && (Active(m.pc[t]) ==> b.mine[t] < |b.tickets|)
    && match m.pc[t]
       case LoadTail(max) => max > 0
       case LoadOvercommit(max, tail) => max > 0 && tail <= m.tail
       case LoadOptimistic(max, tail, over) => max > 0 && tail <= m.tail && over <= m.over
       case TakeTicket(d, over) => d > 0 && over <= m.over
       case ReloadTail(d, over, my) => b.tickets[b.mine[t]] == Ticket(my, over, d, 0, 0, 0)
       case GiveBack(excess, actual) =>
         var tk := b.tickets[b.mine[t]];
         actual > 0 && tk.granted == actual && tk.returned == 0 && tk.claimed == 0 && excess == tk.desired - actual
       case GiveUp(d) =>
         var tk := b.tickets[b.mine[t]];
         tk.granted == 0 && tk.returned == 0 && tk.claimed == 0 && tk.desired == d
       case Claim(actual) =>
         var tk := b.tickets[b.mine[t]];
         actual > 0 && tk.granted == actual && tk.claimed == 0 && tk.returned == tk.desired - actual
       case Holding(first, count) =>
         b.claimOf[t] < |b.claims| && b.claims[b.claimOf[t]] == Interval(first, count)
       case Out => true
  }

  predicate ClaimsOk(head: int, claims: seq<Interval>) {
    && (forall i :: 0 <= i < |claims| ==> claims[i].count > 0)
    && (claims != [] ==> claims[0].first == 0)
    && (forall i :: 0 < i < |claims| ==> claims[i].first == claims[i-1].first + claims[i-1].count)
    && head == if claims == [] then 0 else claims[|claims|-1].first + claims[|claims|-1].count
  }

  ghost predicate CountersOk(m: Counters, b: Book) {
    && 0 <= m.tail
    && m.opt == Sum(b.tickets, Desired)
    && m.over == Sum(b.tickets, Returned)
    && m.head == Sum(b.tickets, Claimed)
    && (forall i {:trigger TicketOk(m, b.tickets, i)} :: 0 <= i < |b.tickets| ==> TicketOk(m, b.tickets, i))
  }

  /** No two threads settle the same ticket or hold the same claim, and no ticket is forgotten. */
  ghost predicate SharingOk(m: Counters, b: Book)
    requires |b.mine| == |b.claimOf| == |m.pc|
  {
    && (forall t, u :: 0 <= t < |m.pc| && 0 <= u < |m.pc| && t != u && Active(m.pc[t]) && Active(m.pc[u]) ==>
          b.mine[t] != b.mine[u])
    && (forall t, u :: 0 <= t < |m.pc| && 0 <= u < |m.pc| && t != u && m.pc[t].Holding? && m.pc[u].Holding? ==>
          b.claimOf[t] != b.claimOf[u])
    && (forall i :: 0 <= i < |b.tickets| && !Settled(b.tickets[i]) ==>
          exists t :: 0 <= t < |m.pc| && Active(m.pc[t]) && b.mine[t] == i)
  }

  ghost predicate Inv(m: Counters, b: Book) {
    && |b.mine| == |b.claimOf| == |m.pc|
    && CountersOk(m, b)
    && SharingOk(m, b)
    && (forall t {:trigger ThreadOk(m, b, t)} :: 0 <= t < |m.pc| ==> ThreadOk(m, b, t))
    && ClaimsOk(m.head, b.claims)
  }

  predicate Settled(tk: Ticket) { tk.claimed + tk.returned == tk.desired }

  // ----- headIndex never passes tailIndex

  lemma {:induction false} SumsBounded(m: Counters, ts: seq<Ticket>, k: nat)
    requires k <= |ts| && forall i :: 0 <= i < |ts| ==> TicketOk(m, ts, i)
    ensures Sum(ts[..k], Granted) + Sum(ts[..k], Returned) <= Sum(ts[..k], Desired)
    ensures 0 <= Sum(ts[..k], Returned)
    ensures Sum(ts[..k], Claimed) <= Sum(ts[..k], Granted)
  {
    if k > 0 {
      assert ts[..k][..k-1] == ts[..k-1];
      SumsBounded(m, ts, k - 1);
      assert TicketOk(m, ts, k - 1);
    }
  }

  /** The argument: of all granted tickets look at the one that fetched last. Everything granted to it and
      to the tickets before it fits below the tail value that it saw when it was granted. */
  lemma {:induction false} GrantsFitBelowTail(m: Counters, ts: seq<Ticket>, k: nat)
    requires 0 <= m.tail && k <= |ts| && forall i :: 0 <= i < |ts| ==> TicketOk(m, ts, i)
    ensures Sum(ts[..k], Granted) <= m.tail
  {
    if k > 0 {
      assert ts[..k][..k-1] == ts[..k-1];
      assert TicketOk(m, ts, k - 1);
      if ts[k-1].granted > 0 {
        SumsBounded(m, ts, k - 1);
      } else {
        GrantsFitBelowTail(m, ts, k - 1);
      }
    }
  }

  lemma HeadNeverPassesTail(m: Counters, b: Book)
    requires Inv(m, b)
    ensures m.head <= Sum(b.tickets, Granted) <= m.tail
  {
    assert b.tickets[..|b.tickets|] == b.tickets;
    SumsBounded(m, b.tickets, |b.tickets|);
    GrantsFitBelowTail(m, b.tickets, |b.tickets|);
  }

  // ----- Every step keeps the invariant

  /** Revising one ticket, without lowering what it has returned, keeps every other ticket in order. */
  lemma ReviseKeepsTickets(m: Counters, ts: seq<Ticket>, i: nat, tk: Ticket, ts': seq<Ticket>)
    requires forall k :: 0 <= k < |ts| ==> TicketOk(m, ts, k)
    requires i < |ts| && ts' == ts[i := tk]
    requires tk.my == ts[i].my && tk.over == ts[i].over && tk.desired == ts[i].desired
    requires ts[i].returned <= tk.returned && 0 <= tk.claimed <= tk.granted && tk.granted + tk.returned <= tk.desired
    requires tk.granted > 0 ==> tk.my - tk.over + tk.granted <= m.tail
    ensures forall k :: 0 <= k < |ts'| ==> TicketOk(m, ts', k)
  {
    forall k | 0 <= k < |ts'| ensures TicketOk(m, ts', k) {
      assert TicketOk(m, ts, k) && TicketOk(m, ts, i);
      if i < k {
        assert ts'[..k] == ts[..k][i := tk];
        SumUpdate(ts[..k], i, tk, Desired);
        SumUpdate(ts[..k], i, tk, Returned);
      } else {
        assert ts'[..k] == ts[..k];
      }
    }
  }

  lemma AppendKeepsTickets(m: Counters, ts: seq<Ticket>, tk: Ticket)
    requires forall k :: 0 <= k < |ts| ==> TicketOk(m, ts, k)
    requires tk == Ticket(Sum(ts, Desired), tk.over, tk.desired, 0, 0, 0) && tk.desired > 0 && tk.over <= Sum(ts, Returned)
    ensures forall k :: 0 <= k <= |ts| ==> TicketOk(m, ts + [tk], k)
  {
    forall k | 0 <= k <= |ts| ensures TicketOk(m, ts + [tk], k) {
      assert (ts + [tk])[..k] == ts[..k];
      if k < |ts| { assert TicketOk(m, ts, k); } else { assert ts[..k] == ts; }
    }
  }

  lemma ReviseKeepsCounters(m: Counters, b: Book, t: nat, a: Action)
    requires Inv(m, b) && Enabled(m, t, a) && a.Advance? && Active(m.pc[t])
    ensures CountersOk(Step(m, t, a), Track(m, b, t, a))
  {
    assert ThreadOk(m, b, t);
    var b' := Track(m, b, t, a);
    var i := b.mine[t];
    var tk := b'.tickets[i];
    assert b'.tickets == b.tickets[i := tk];
    assert TicketOk(m, b.tickets, i);
    SumUpdate(b.tickets, i, tk, Desired);
    SumUpdate(b.tickets, i, tk, Returned);
    SumUpdate(b.tickets, i, tk, Claimed);
    ReviseKeepsTickets(m, b.tickets, i, tk, b'.tickets);
    forall k | 0 <= k < |b'.tickets| ensures TicketOk(Step(m, t, a), b'.tickets, k) {
      assert TicketOk(m, b'.tickets, k);
    }
  }

  lemma TicketKeepsCounters(m: Counters, b: Book, m': Counters, b': Book, tk: Ticket)
    requires CountersOk(m, b) && tk == Ticket(m.opt, tk.over, tk.desired, 0, 0, 0) && tk.desired > 0 && tk.over <= m.over
    requires b'.tickets == b.tickets + [tk] && m' == m.(opt := m.opt + tk.desired, pc := m'.pc)
    ensures CountersOk(m', b')
  {
    AppendKeepsTickets(m, b.tickets, tk);
    SumAppend(b.tickets, tk, Desired);
    SumAppend(b.tickets, tk, Returned);
    SumAppend(b.tickets, tk, Claimed);
    forall i | 0 <= i < |b'.tickets| ensures TicketOk(m', b'.tickets, i) { assert TicketOk(m, b'.tickets, i); }
  }

  lemma SameTicketsKeepCounters(m: Counters, b: Book, m': Counters)
    requires CountersOk(m, b) && m.tail <= m'.tail && m' == m.(tail := m'.tail, pc := m'.pc)
    ensures CountersOk(m', b)
  {
    forall i | 0 <= i < |b.tickets| ensures TicketOk(m', b.tickets, i) { assert TicketOk(m, b.tickets, i); }
  }

  lemma StepKeepsCounters(m: Counters, b: Book, t: nat, a: Action)
    requires Inv(m, b) && Enabled(m, t, a)
    ensures CountersOk(Step(m, t, a), Track(m, b, t, a))
  {
    var m', b' := Step(m, t, a), Track(m, b, t, a);
    if a.Advance? && m.pc[t].TakeTicket? {
      assert ThreadOk(m, b, t);
      TicketKeepsCounters(m, b, m', b', Ticket(m.opt, m.pc[t].over, m.pc[t].desired, 0, 0, 0));
    } else if a.Advance? && Active(m.pc[t]) {
      ReviseKeepsCounters(m, b, t, a);
    } else {
      SameTicketsKeepCounters(m, b, m');
    }
  }

  /** What a step of thread `t` leaves alone. */
  predicate Extends(m: Counters, b: Book, m': Counters, b': Book, t: nat)
    requires |b.mine| == |b.claimOf| == |m.pc| && |b'.mine| == |b'.claimOf| == |m'.pc| == |m.pc|
  {
    && m.tail <= m'.tail && m.over <= m'.over
    && |b.tickets| <= |b'.tickets| && |b.claims| <= |b'.claims|
    && (forall i :: 0 <= i < |b.claims| ==> b'.claims[i] == b.claims[i])
    && (forall i :: 0 <= i < |b.tickets| ==>
          b'.tickets[i] == b.tickets[i] || (t < |m.pc| && Active(m.pc[t]) && b.mine[t] == i))
    && (forall u :: 0 <= u < |m.pc| && u != t ==>
          m'.pc[u] == m.pc[u] && b'.mine[u] == b.mine[u] && b'.claimOf[u] == b.claimOf[u])
  }

  lemma StepExtends(m: Counters, b: Book, t: nat, a: Action)
    requires Inv(m, b) && Enabled(m, t, a)
    ensures |Track(m, b, t, a).mine| == |Track(m, b, t, a).claimOf| == |Step(m, t, a).pc| == |m.pc|
    ensures Extends(m, b, Step(m, t, a), Track(m, b, t, a), t)
    ensures a.Enqueue? ==> Step(m, t, a).pc == m.pc && Track(m, b, t, a) == b
  {
    if !a.Enqueue? { assert ThreadOk(m, b, t); }
    StepKeepsCounters(m, b, t, a);
    var m', b' := Step(m, t, a), Track(m, b, t, a);
    if a.Advance? && Active(m.pc[t]) {
      assert TicketOk(m, b.tickets, b.mine[t]);
    }
  }

  lemma OtherThread(m: Counters, b: Book, m': Counters, b': Book, t: nat, u: nat)
    requires Inv(m, b) && |b'.mine| == |b'.claimOf| == |m'.pc| == |m.pc| && Extends(m, b, m', b', t)
    requires u < |m.pc| && m'.pc[u] == m.pc[u] && b'.mine[u] == b.mine[u] && b'.claimOf[u] == b.claimOf[u]
    requires u == t ==> b' == b
    ensures ThreadOk(m', b', u)
  {
    assert ThreadOk(m, b, u);
    if Active(m.pc[u]) {
      assert u != t && t < |m.pc| && Active(m.pc[t]) ==> b.mine[t] != b.mine[u];
      assert b'.tickets[b.mine[u]] == b.tickets[b.mine[u]];
    }
  }

  lemma SameThread(m: Counters, b: Book, t: nat, a: Action)
    requires Inv(m, b) && Enabled(m, t, a) && !a.Enqueue?
    ensures ThreadOk(Step(m, t, a), Track(m, b, t, a), t)
  {
    assert ThreadOk(m, b, t);
    if Active(m.pc[t]) { assert TicketOk(m, b.tickets, b.mine[t]); }
    OwnStep(m, b, t, a);
  }

  lemma OwnStep(m: Counters, b: Book, t: nat, a: Action)
    requires |b.mine| == |b.claimOf| == |m.pc| && Enabled(m, t, a) && !a.Enqueue? && ThreadOk(m, b, t)
    requires Active(m.pc[t]) ==> b.mine[t] < |b.tickets| && TicketOk(m, b.tickets, b.mine[t])
    ensures |Track(m, b, t, a).mine| == |Track(m, b, t, a).claimOf| == |Step(m, t, a).pc|
    ensures ThreadOk(Step(m, t, a), Track(m, b, t, a), t)
  {
  }

  lemma OthersDiffer(m: Counters, b: Book, t: nat, a: Action, u: nat)
    requires Inv(m, b) && Enabled(m, t, a) && !a.Enqueue? && u < |m.pc| && u != t
    requires |Step(m, t, a).pc| == |m.pc| && |Track(m, b, t, a).mine| == |Track(m, b, t, a).claimOf| == |m.pc|
    ensures Active(m.pc[u]) && Active(Step(m, t, a).pc[t]) ==> Track(m, b, t, a).mine[t] != b.mine[u]
    ensures m.pc[u].Holding? && Step(m, t, a).pc[t].Holding? ==> Track(m, b, t, a).claimOf[t] != b.claimOf[u]
  {
    assert ThreadOk(m, b, t) && ThreadOk(m, b, u);
    SameThread(m, b, t, a);
  }

  /** Each step appends at most one ticket and one claim, and gives them to the thread that steps. */
  lemma StepKeepsSharing(m: Counters, b: Book, t: nat, a: Action)
    requires Inv(m, b) && Enabled(m, t, a)
    ensures SharingOk(Step(m, t, a), Track(m, b, t, a))
  {
    var m', b' := Step(m, t, a), Track(m, b, t, a);
    StepExtends(m, b, t, a);
    if !a.Enqueue? {
      forall u | 0 <= u < |m.pc| && u != t
        ensures Active(m.pc[u]) && Active(m'.pc[t]) ==> b'.mine[t] != b.mine[u]
        ensures m.pc[u].Holding? && m'.pc[t].Holding? ==> b'.claimOf[t] != b.claimOf[u]
      { OthersDiffer(m, b, t, a, u); }
      forall i | 0 <= i < |b'.tickets| && !Settled(b'.tickets[i])
        ensures exists u :: 0 <= u < |m'.pc| && Active(m'.pc[u]) && b'.mine[u] == i
      { StillHeld(m, b, t, a, i); }
    }
  }

  lemma StillHeld(m: Counters, b: Book, t: nat, a: Action, i: nat)
    requires Inv(m, b) && Enabled(m, t, a) && !a.Enqueue?
    requires |Track(m, b, t, a).mine| == |Step(m, t, a).pc|
    requires i < |Track(m, b, t, a).tickets| && !Settled(Track(m, b, t, a).tickets[i])
    ensures exists u :: 0 <= u < |Step(m, t, a).pc| && Active(Step(m, t, a).pc[u]) && Track(m, b, t, a).mine[u] == i
  {
    var m', b' := Step(m, t, a), Track(m, b, t, a);
    StepExtends(m, b, t, a);
    assert ThreadOk(m, b, t);
    if i < |b.tickets| {
      assert TicketOk(m, b.tickets, i);
      if !Settled(b.tickets[i]) {
        var u :| 0 <= u < |m.pc| && Active(m.pc[u]) && b.mine[u] == i;
        assert b'.mine[u] == i && m'.pc == m.pc[t := m'.pc[t]];
      }
    } else {
      assert b'.mine[t] == i && m'.pc == m.pc[t := m'.pc[t]];
    }
  }

  lemma StepKeepsInv(m: Counters, b: Book, t: nat, a: Action)
    requires Inv(m, b) && Enabled(m, t, a)
    ensures Inv(Step(m, t, a), Track(m, b, t, a))
  {
    var m', b' := Step(m, t, a), Track(m, b, t, a);
    StepKeepsCounters(m, b, t, a);
    StepExtends(m, b, t, a);
    StepKeepsSharing(m, b, t, a);
    forall u | 0 <= u < |m.pc| ensures ThreadOk(m', b', u) {
      if a.Enqueue? || u != t { OtherThread(m, b, m', b', t, u); } else { SameThread(m, b, t, a); }
    }
    if a.Advance? { assert ThreadOk(m, b, t); }
  }

  // ----- Whole runs

  datatype Event = Event(thread: nat, action: Action)
  datatype State = State(m: Counters, b: Book)

  ghost predicate Initial(s: State) {
    && s.m.tail == s.m.head == s.m.opt == s.m.over == 0
    && |s.b.mine| == |s.b.claimOf| == |s.m.pc|
    && s.b.tickets == [] && s.b.claims == []
    && forall t :: 0 <= t < |s.m.pc| ==> s.m.pc[t] == Out
  }

  predicate Sensible(s: State) { |s.b.mine| == |s.b.claimOf| == |s.m.pc| }

  function Perform(s: State, e: Event): (s': State)
    requires Sensible(s)
    ensures Sensible(s')
  {
    if Enabled(s.m, e.thread, e.action)
    then State(Step(s.m, e.thread, e.action), Track(s.m, s.b, e.thread, e.action))
    else s
  }

  function Execute(s: State, events: seq<Event>): (s': State)
    requires Sensible(s)
    ensures Sensible(s')
  {
    if events == [] then s else Perform(Execute(s, events[..|events|-1]), events[|events|-1])
  }

  lemma {:induction false} RunKeepsInv(s: State, events: seq<Event>)
    requires Initial(s)
    ensures Inv(Execute(s, events).m, Execute(s, events).b)
  {
    if events != [] {
      RunKeepsInv(s, events[..|events|-1]);
      var p, e := Execute(s, events[..|events|-1]), events[|events|-1];
      if Enabled(p.m, e.thread, e.action) { StepKeepsInv(p.m, p.b, e.thread, e.action); }
    }
  }

  // ----- What the runs mean

  /** What the tickets of unfinished calls may still add to dequeueOvercommit or to headIndex. */
  function Unresolved(ts: seq<Ticket>): int {
    if ts == [] then 0
    else var tk := ts[|ts|-1]; Unresolved(ts[..|ts|-1]) + tk.desired - tk.claimed - tk.returned
  }

  lemma {:induction false} UnresolvedIsTheRest(ts: seq<Ticket>)
    ensures Unresolved(ts) == Sum(ts, Desired) - Sum(ts, Claimed) - Sum(ts, Returned)
  {
    if ts != [] { UnresolvedIsTheRest(ts[..|ts|-1]); }
  }

  /** With any mix of single and bulk consumers and however stale their copies of dequeueOvercommit:
      headIndex never passes tailIndex, and the optimistic count is conserved. */
  lemma ClaimSafety(s: State, events: seq<Event>)
    requires Initial(s)
    ensures var p := Execute(s, events);
      && 0 <= p.m.head <= p.m.tail
      && p.m.opt == p.m.head + p.m.over + Unresolved(p.b.tickets)
      && 0 <= Unresolved(p.b.tickets)
  {
    RunKeepsInv(s, events);
    var p := Execute(s, events);
    var ts := p.b.tickets;
    HeadNeverPassesTail(p.m, p.b);
    UnresolvedIsTheRest(ts);
    assert ts[..|ts|] == ts;
    SumsBounded(p.m, ts, |ts|);
    ClaimedNonnegative(p.m, ts, |ts|);
  }

  lemma {:induction false} ClaimedNonnegative(m: Counters, ts: seq<Ticket>, k: nat)
    requires k <= |ts| && forall i :: 0 <= i < |ts| ==> TicketOk(m, ts, i)
    ensures 0 <= Sum(ts[..k], Claimed)
  {
    if k > 0 {
      assert ts[..k][..k-1] == ts[..k-1];
      ClaimedNonnegative(m, ts, k - 1);
      assert TicketOk(m, ts, k - 1);
    }
  }

  /** The assertion between the two loads of dequeue: overcommit <= myDequeueCount. */
  lemma OvercommitIsNeverAhead(s: State, events: seq<Event>, t: nat)
    requires Initial(s) && t < |Execute(s, events).m.pc| && Execute(s, events).m.pc[t].ReloadTail?
    ensures var pc := Execute(s, events).m.pc[t]; pc.over <= pc.my
  {
    RunKeepsInv(s, events);
    var p := Execute(s, events);
    assert ThreadOk(p.m, p.b, t);
    var i := p.b.mine[t];
    assert TicketOk(p.m, p.b.tickets, i);
    SumsBounded(p.m, p.b.tickets, i);
    GrantedNonnegative(p.m, p.b.tickets, i);
  }

  lemma {:induction false} GrantedNonnegative(m: Counters, ts: seq<Ticket>, k: nat)
    requires k <= |ts| && forall i :: 0 <= i < |ts| ==> TicketOk(m, ts, i)
    ensures 0 <= Sum(ts[..k], Granted)
  {
    if k > 0 {
      assert ts[..k][..k-1] == ts[..k-1];
      GrantedNonnegative(m, ts, k - 1);
      assert TicketOk(m, ts, k - 1);
    }
  }

  predicate Within(i: int, c: Interval) { c.first <= i < c.first + c.count }

  /** Claims are made in order, so an earlier one ends before a later one starts. */
  lemma {:induction false} ClaimsInOrder(head: int, claims: seq<Interval>, j: nat, k: nat)
    requires ClaimsOk(head, claims) && j < k < |claims|
    ensures claims[j].first + claims[j].count <= claims[k].first
  {
    if j + 1 < k { ClaimsInOrder(head, claims, j, k - 1); }
  }

  lemma {:induction false} ClaimsCover(head: int, claims: seq<Interval>, i: int)
    requires ClaimsOk(head, claims) && 0 <= i < head
    ensures exists k :: 0 <= k < |claims| && Within(i, claims[k])
  {
    var last := |claims| - 1;
    if i < claims[last].first {
      ClaimsCover(claims[last].first, claims[..last], i);
      var k :| 0 <= k < last && Within(i, claims[..last][k]);
      assert claims[..last][k] == claims[k] && Within(i, claims[k]);
    } else {
      assert Within(i, claims[last]);
    }
  }

  lemma {:induction false} ClaimEndsBelowHead(head: int, claims: seq<Interval>, k: nat)
    requires ClaimsOk(head, claims) && k < |claims|
    ensures 0 <= claims[k].first && claims[k].first + claims[k].count <= head
  {
    assert claims[0].count > 0 && claims[|claims|-1].count > 0;
    if k > 0 { ClaimsInOrder(head, claims, 0, k); }
    if k < |claims| - 1 { ClaimsInOrder(head, claims, k, |claims| - 1); }
  }

  /** The claimed intervals are disjoint and exactly cover 0 .. headIndex. */
  lemma ClaimsPartition(s: State, events: seq<Event>, i: int)
    requires Initial(s)
    ensures var p := Execute(s, events);
      && (0 <= i < p.m.head <==> exists k :: 0 <= k < |p.b.claims| && Within(i, p.b.claims[k]))
      && (forall j, k :: 0 <= j < k < |p.b.claims| ==> !(Within(i, p.b.claims[j]) && Within(i, p.b.claims[k])))
  {
    RunKeepsInv(s, events);
    var p := Execute(s, events);
    if 0 <= i < p.m.head { ClaimsCover(p.m.head, p.b.claims, i); }
    forall k | 0 <= k < |p.b.claims| && Within(i, p.b.claims[k]) ensures 0 <= i < p.m.head {
      ClaimEndsBelowHead(p.m.head, p.b.claims, k);
    }
    forall j, k | 0 <= j < k < |p.b.claims| ensures !(Within(i, p.b.claims[j]) && Within(i, p.b.claims[k])) {
      ClaimsInOrder(p.m.head, p.b.claims, j, k);
    }
  }

  /** Two consumers never hold the same index, and every index held has been published. */
  lemma HoldingsDisjoint(m: Counters, b: Book, t: nat, u: nat)
    requires Inv(m, b) && t < |m.pc| && u < |m.pc| && t != u && m.pc[t].Holding? && m.pc[u].Holding?
    ensures var c, d := m.pc[t], m.pc[u];
      c.first + c.count <= d.first || d.first + d.count <= c.first
  {
    assert ThreadOk(m, b, t) && ThreadOk(m, b, u);
    var j, k := b.claimOf[t], b.claimOf[u];
    if j < k { ClaimsInOrder(m.head, b.claims, j, k); } else { ClaimsInOrder(m.head, b.claims, k, j); }
  }

  lemma HoldingIsPublished(m: Counters, b: Book, t: nat)
    requires Inv(m, b) && t < |m.pc| && m.pc[t].Holding?
    ensures 0 <= m.pc[t].first && 0 < m.pc[t].count && m.pc[t].first + m.pc[t].count <= m.head <= m.tail
  {
    assert ThreadOk(m, b, t);
    ClaimEndsBelowHead(m.head, b.claims, b.claimOf[t]);
    HeadNeverPassesTail(m, b);
  }

  // ----- A dequeue that runs alone

  predicate Quiet(m: Counters) { forall t :: 0 <= t < |m.pc| ==> !Active(m.pc[t]) }

  lemma {:induction false} AllSettled(ts: seq<Ticket>)
    requires forall i :: 0 <= i < |ts| ==> Settled(ts[i])
    ensures Unresolved(ts) == 0
  {
    if ts != [] { AllSettled(ts[..|ts|-1]); }
  }

  /** Thread `t` alone runs to the end of its call, within `fuel` accesses. */
  function Finish(m: Counters, t: nat, fuel: nat): Counters
    requires t < |m.pc|
    decreases fuel
  {
    if fuel == 0 || m.pc[t].Out? || m.pc[t].Holding? then m else Finish(Step(m, t, Advance), t, fuel - 1)
  }

  lemma QuietBalance(m: Counters, b: Book)
    requires Inv(m, b) && Quiet(m)
    ensures m.opt - m.over == m.head
  {
    UnresolvedIsTheRest(b.tickets);
    AllSettled(b.tickets);
  }

  lemma SoloSuccess(m: Counters, t: nat, max: nat)
    requires t < |m.pc| && m.pc[t].Out? && max > 0 && m.opt - m.over == m.head < m.tail
    ensures var n := Min(max, m.tail - m.head);
      Finish(Step(m, t, Call(max)), t, 6)
      == m.(head := m.head + n, opt := m.opt + n, pc := m.pc[t := Holding(m.head, n)])
  {
    var n := Min(max, m.tail - m.head);
    var m1 := Step(m, t, Call(max));
    var m2 := Step(m1, t, Advance);
    var m3 := Step(m2, t, Advance);
    var m4 := Step(m3, t, Advance);
    assert m4 == m.(pc := m.pc[t := TakeTicket(n, m.over)]);
    var m5 := Step(m4, t, Advance);
    var m6 := Step(m5, t, Advance);
    assert m6 == m.(opt := m.opt + n, pc := m.pc[t := Claim(n)]);
    var m7 := Step(m6, t, Advance);
    assert Finish(m4, t, 3) == Finish(m5, t, 2) == Finish(m6, t, 1) == Finish(m7, t, 0);
    assert Finish(m1, t, 6) == Finish(m2, t, 5) == Finish(m3, t, 4) == Finish(m4, t, 3);
  }

  lemma SoloFailure(m: Counters, t: nat, max: nat)
    requires t < |m.pc| && m.pc[t].Out? && max > 0 && m.opt - m.over == m.head >= m.tail
    ensures Finish(Step(m, t, Call(max)), t, 6) == m
  {
    var m1 := Step(m, t, Call(max));
    var m2 := Step(m1, t, Advance);
    var m3 := Step(m2, t, Advance);
    var m4 := Step(m3, t, Advance);
    assert m4 == m;
    assert Finish(m1, t, 6) == Finish(m2, t, 5) == Finish(m3, t, 4) == Finish(m4, t, 3);
  }

  /** When no call is unsettled, a dequeue that runs alone succeeds iff the sub-queue is not empty,
      and takes as much as it may of what is there, from the front. */
  lemma SoloDequeue(s: State, events: seq<Event>, t: nat, max: nat)
    requires Initial(s) && Quiet(Execute(s, events).m) && max > 0
    requires t < |Execute(s, events).m.pc| && Execute(s, events).m.pc[t].Out?
    ensures var m := Execute(s, events).m;
      var m' := Finish(Step(m, t, Call(max)), t, 6);
      if m.head < m.tail then
        var n := Min(max, m.tail - m.head);
        m' == m.(head := m.head + n, opt := m.opt + n, pc := m.pc[t := Holding(m.head, n)])
      else m' == m
  {
    RunKeepsInv(s, events);
    var m, b := Execute(s, events).m, Execute(s, events).b;
    QuietBalance(m, b);
    if m.head < m.tail { SoloSuccess(m, t, max); } else { SoloFailure(m, t, max); }
  }

  // ----- The counters as the object they are

  class SubQueueCounters {
    var tailIndex: int
    var headIndex: int
    var dequeueOptimisticCount: int
    var dequeueOvercommit: int
    var pc: seq<Pc>
    ghost var book: Book

    ghost function View(): Counters reads this {
      Counters(tailIndex, headIndex, dequeueOptimisticCount, dequeueOvercommit, pc)
    }

    ghost predicate Valid() reads this { Inv(View(), book) }

    constructor (threads: nat)
      ensures Initial(State(View(), book)) && Valid() && |pc| == threads
    {
      tailIndex, headIndex, dequeueOptimisticCount, dequeueOvercommit := 0, 0, 0, 0;
      pc := seq(threads, _ => Out);
      book := Book([], seq(threads, _ => 0), [], seq(threads, _ => 0));
    }

    /** The store of tailIndex: k more elements may be claimed. */
    method Publish(k: nat)
      requires Valid()
      modifies this
      ensures Valid() && View() == Step(old(View()), 0, Enqueue(k)) && book == old(book)
    {
      StepKeepsInv(View(), book, 0, Enqueue(k));
      tailIndex := tailIndex + k;
    }

    /** The accesses of dequeue and dequeue_bulk up to the fetch_add on dequeueOptimisticCount. */
    method RequestTicket(t: nat)
      requires Valid() && Enabled(View(), t, Advance) && !Active(pc[t])
      modifies this
      ensures View() == Step(old(View()), t, Advance) && book == Track(old(View()), old(book), t, Advance)
      ensures Valid()
    {
      StepKeepsInv(View(), book, t, Advance);
      book := Track(View(), book, t, Advance);
      match pc[t]
      case LoadTail(max) => pc := pc[t := LoadOvercommit(max, tailIndex)];
      case LoadOvercommit(max, tail) => pc := pc[t := LoadOptimistic(max, tail, dequeueOvercommit)];
      case LoadOptimistic(max, tail, over) =>
        var desired := tail - (dequeueOptimisticCount - over);
        if 0 < desired {
          pc := pc[t := TakeTicket(Min(desired, max), over)];
        } else {
          pc := pc[t := Out];
        }
      case TakeTicket(d, over) =>
        pc := pc[t := ReloadTail(d, over, dequeueOptimisticCount)];
        dequeueOptimisticCount := dequeueOptimisticCount + d;
    }

    /** The accesses after it, which end with the claim of an interval or with giving up. */
    method SettleTicket(t: nat)
      requires Valid() && Enabled(View(), t, Advance) && Active(pc[t])
      modifies this
      ensures View() == Step(old(View()), t, Advance) && book == Track(old(View()), old(book), t, Advance)
      ensures Valid()
    {
      StepKeepsInv(View(), book, t, Advance);
      book := Track(View(), book, t, Advance);
      match pc[t]
      case ReloadTail(d, over, my) =>
        var actual := tailIndex - (my - over);
        if 0 < actual {
          actual := Min(d, actual);
          if actual < d {
            pc := pc[t := GiveBack(d - actual, actual)];
          } else {
            pc := pc[t := Claim(actual)];
          }
        } else {
          pc := pc[t := GiveUp(d)];
        }
      case GiveBack(excess, actual) =>
        dequeueOvercommit := dequeueOvercommit + excess;
        pc := pc[t := Claim(actual)];
      case GiveUp(d) =>
        dequeueOvercommit := dequeueOvercommit + d;
        pc := pc[t := Out];
      case Claim(actual) =>
        pc := pc[t := Holding(headIndex, actual)];
        headIndex := headIndex + actual;
    }
  }
}
