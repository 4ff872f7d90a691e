/** What a dequeue on the counters of concurrentqueue.h obtains: how many elements a ticket is worth, when a consumer goes
    away with nothing, and how few accesses it makes. */
module ClaimResults {
  import opened Wrappers
  import opened OptimisticDequeue

  /** At most so many accesses are left of a call, up to and including the claim. */
  function ClaimRank(pc: Pc): nat {
    match pc
    case Out => 0
    case Holding(_, _) => 0
    case LoadTail(_) => 7
    case LoadOvercommit(_, _) => 6
    case LoadOptimistic(_, _, _) => 5
    case TakeTicket(_, _) => 4
    case ReloadTail(_, _, _) => 3
    case GiveBack(_, _) => 2
    case GiveUp(_) => 1
    case Claim(_) => 1
  }

  /** No more than this can a call still come to hold. */
  function Ask(pc: Pc): int {
    match pc
    case Out => 0
    case Holding(_, count) => count
    case LoadTail(max) => max
    case LoadOvercommit(max, _) => max
    case LoadOptimistic(max, _, _) => max
    case TakeTicket(d, _) => d
    case ReloadTail(d, _, _) => d
    case GiveBack(_, actual) => actual
    case GiveUp(_) => 0
    case Claim(actual) => actual
  }

  /** No loop and no wait: every access brings the call closer to its end, and asks for no more than before. */
  lemma ClaimCounts(m: Counters, b: Book, t: nat)
    requires Inv(m, b) && Enabled(m, t, Advance)
    ensures var pc, pc' := m.pc[t], Step(m, t, Advance).pc[t];
      ClaimRank(pc') < ClaimRank(pc) && 0 <= Ask(pc') <= Ask(pc)
  {
    assert ThreadOk(m, b, t);
    if Active(m.pc[t]) { assert TicketOk(m, b.tickets, b.mine[t]); }
  }

  // ----- The first look

  lemma FirstLookAt(m: Counters, b: Book, t: nat)
    requires Inv(m, b) && t < |m.pc| && m.pc[t].LoadOptimistic?
    ensures var pc, pc' := m.pc[t], Step(m, t, Advance).pc[t];
      var left := pc.tail - m.head - Unresolved(b.tickets) - (m.over - pc.over);
      && pc.tail <= m.tail && pc.over <= m.over
      && pc' == if left <= 0 then Out else TakeTicket(if left < pc.max then left else pc.max, pc.over)
  {
    assert ThreadOk(m, b, t);
    UnresolvedIsTheRest(b.tickets);
  }

  /** In every interleaving, a consumer turns away at its first look if and only if all the elements it saw published are
      claimed, asked for by calls not settled yet, or asked for by calls that have given back since it loaded the
      overcommit; otherwise it asks for what is left of them, but no more than max. */
  lemma FirstLook(s: State, events: seq<Event>, t: nat)
    requires Initial(s) && t < |Execute(s, events).m.pc| && Execute(s, events).m.pc[t].LoadOptimistic?
    ensures var m, b := Execute(s, events).m, Execute(s, events).b;
      var pc, pc' := m.pc[t], Step(m, t, Advance).pc[t];
      var left := pc.tail - m.head - Unresolved(b.tickets) - (m.over - pc.over);
      && pc.tail <= m.tail && pc.over <= m.over
      && pc' == if left <= 0 then Out else TakeTicket(if left < pc.max then left else pc.max, pc.over)
  {
    RunKeepsInv(s, events);
    FirstLookAt(Execute(s, events).m, Execute(s, events).b, t);
  }

  // ----- The second look

  /** What a ticket is worth when tailIndex is looked at again: the elements beyond those of earlier tickets, as far as the
      overcommit that the thread has seen tells, but no more than it asked for. */
  function Worth(tail: int, my: int, over: int, desired: int): int {
    if tail <= my - over then 0 else if tail - (my - over) < desired then tail - (my - over) else desired
  }

  lemma SettlesWith(m: Counters, t: nat, d: int, over: int, my: int, n: int)
    requires t < |m.pc| && m.pc[t] == ReloadTail(d, over, my) && d > 0 && n == Worth(m.tail, my, over, d)
    ensures Finish(m, t, 3) == m.(head := m.head + n, over := m.over + (d - n),
                                  pc := m.pc[t := if n > 0 then Holding(m.head, n) else Out])
  {
    var m1 := Step(m, t, Advance);
    assert Finish(m, t, 3) == Finish(m1, t, 2);
    var m2 := Step(m1, t, Advance);
    assert Finish(m1, t, 2) == Finish(m2, t, 1);
    if n == 0 {
      assert m1.pc[t] == GiveUp(d);
    } else if n < d {
      assert m1.pc[t] == GiveBack(d - n, n);
      var m3 := Step(m2, t, Advance);
      assert Finish(m2, t, 1) == Finish(m3, t, 0);
    } else {
      assert m1.pc[t] == Claim(n);
    }
  }

  /** With a ticket taken, whatever the others are in the middle of: a consumer that goes on alone gets exactly what the
      ticket is worth, all of it, part of it or nothing, from headIndex on, and gives back the rest. */
  lemma TicketIsHonoured(s: State, events: seq<Event>, t: nat)
    requires Initial(s) && t < |Execute(s, events).m.pc| && Execute(s, events).m.pc[t].ReloadTail?
    ensures var m := Execute(s, events).m;
      var pc := m.pc[t];
      var n := Worth(m.tail, pc.my, pc.over, pc.desired);
      Finish(m, t, 3) == m.(head := m.head + n, over := m.over + (pc.desired - n),
                            pc := m.pc[t := if n > 0 then Holding(m.head, n) else Out])
  {
    RunKeepsInv(s, events);
    var m, b := Execute(s, events).m, Execute(s, events).b;
    assert ThreadOk(m, b, t) && TicketOk(m, b.tickets, b.mine[t]);
    SettlesWith(m, t, m.pc[t].desired, m.pc[t].over, m.pc[t].my, Worth(m.tail, m.pc[t].my, m.pc[t].over, m.pc[t].desired));
  }

  lemma {:induction false} SumUpTo(m: Counters, ts: seq<Ticket>, i: nat)
    requires i < |ts| && forall k :: 0 <= k < |ts| ==> TicketOk(m, ts, k)
    ensures Sum(ts[..i], Desired) + ts[i].desired <= Sum(ts, Desired)
  {
    var last := |ts| - 1;
    assert TicketOk(m, ts, last);
    if i < last {
      forall k | 0 <= k < last ensures TicketOk(m, ts[..last], k) {
        assert TicketOk(m, ts, k) && ts[..last][..k] == ts[..k];
      }
      SumUpTo(m, ts[..last], i);
      assert ts[..last][..i] == ts[..i];
    }
  }

  /** A ticket is worth all that is left when it is settled, up to what it asked for, but for what other calls have asked
      for and not settled, and what has been given back since the overcommit was loaded. */
  lemma TicketIsWorth(s: State, events: seq<Event>, t: nat)
    requires Initial(s) && t < |Execute(s, events).m.pc| && Execute(s, events).m.pc[t].ReloadTail?
    ensures var m, b := Execute(s, events).m, Execute(s, events).b;
      var pc := m.pc[t];
      var others, givenBack := Unresolved(b.tickets) - pc.desired, m.over - pc.over;
      var left := m.tail - m.head - others - givenBack;
      && 0 <= givenBack
      && Worth(m.tail, pc.my, pc.over, pc.desired) >= (if left < pc.desired then left else pc.desired)
  {
    RunKeepsInv(s, events);
    var m, b := Execute(s, events).m, Execute(s, events).b;
    var i := b.mine[t];
    assert ThreadOk(m, b, t) && TicketOk(m, b.tickets, i);
    UnresolvedIsTheRest(b.tickets);
    SumUpTo(m, b.tickets, i);
    ReturnedGrows(m, b.tickets, i);
  }

  lemma {:induction false} ReturnedGrows(m: Counters, ts: seq<Ticket>, i: nat)
    requires i <= |ts| && forall k :: 0 <= k < |ts| ==> TicketOk(m, ts, k)
    ensures Sum(ts[..i], Returned) <= Sum(ts, Returned)
    decreases |ts| - i
  {
    if i == |ts| {
      assert ts[..i] == ts;
    } else {
      assert TicketOk(m, ts, i) && ts[..i+1][..i] == ts[..i];
      ReturnedGrows(m, ts, i + 1);
    }
  }

  lemma {:induction false} OneUnresolved(ts: seq<Ticket>, i: nat)
    requires i < |ts| && forall k :: 0 <= k < |ts| && k != i ==> Settled(ts[k])
    ensures Unresolved(ts) == ts[i].desired - ts[i].claimed - ts[i].returned
  {
    var last := |ts| - 1;
    if i < last { OneUnresolved(ts[..last], i); } else { AllSettled(ts[..last]); }
  }

  lemma OnlyMine(m: Counters, b: Book, t: nat)
    requires Inv(m, b) && t < |m.pc| && m.pc[t].ReloadTail?
    requires forall u :: 0 <= u < |m.pc| && u != t ==> !Active(m.pc[u])
    ensures Unresolved(b.tickets) == m.pc[t].desired
  {
    assert ThreadOk(m, b, t);
    forall k | 0 <= k < |b.tickets| && k != b.mine[t] ensures Settled(b.tickets[k]) { }
    OneUnresolved(b.tickets, b.mine[t]);
  }

  /** So with no other call unsettled and nothing given back since it looked, a ticket takes exactly the smaller of what it
      asked for and what the sub-queue holds, and nothing only if the sub-queue is empty. */
  lemma OnlyTicketTakesAll(s: State, events: seq<Event>, t: nat)
    requires Initial(s) && t < |Execute(s, events).m.pc| && Execute(s, events).m.pc[t].ReloadTail?
    requires var m := Execute(s, events).m;
      m.over == m.pc[t].over && forall u :: 0 <= u < |m.pc| && u != t ==> !Active(m.pc[u])
    ensures var m := Execute(s, events).m;
      var pc := m.pc[t];
      Worth(m.tail, pc.my, pc.over, pc.desired) == if m.tail - m.head < pc.desired then m.tail - m.head else pc.desired
  {
    RunKeepsInv(s, events);
    var m, b := Execute(s, events).m, Execute(s, events).b;
    TicketIsWorth(s, events, t);
    assert ThreadOk(m, b, t);
    assert Unresolved(b.tickets) == m.pc[t].desired by { OnlyMine(m, b, t); }
    WorthFits(s, events, t);
    assert m.pc[t].desired > 0 by { assert TicketOk(m, b.tickets, b.mine[t]); }
    HeadNeverPassesTail(m, b);
  }

  /** And it is never worth more than the elements that are there. */
  lemma WorthFits(s: State, events: seq<Event>, t: nat)
    requires Initial(s) && t < |Execute(s, events).m.pc| && Execute(s, events).m.pc[t].ReloadTail?
    ensures var m := Execute(s, events).m;
      var pc := m.pc[t];
      m.head + Worth(m.tail, pc.my, pc.over, pc.desired) <= m.tail
  {
    RunKeepsInv(s, events);
    var m, b := Execute(s, events).m, Execute(s, events).b;
    assert ThreadOk(m, b, t) && TicketOk(m, b.tickets, b.mine[t]);
    StepKeepsInv(m, b, t, Advance);
    var m1, b1 := Step(m, t, Advance), Track(m, b, t, Advance);
    GrantedIsUnclaimed(m1, b1.tickets, b.mine[t]);
    HeadNeverPassesTail(m1, b1);
  }

  lemma GrantedIsUnclaimed(m: Counters, ts: seq<Ticket>, i: nat)
    requires i < |ts| && ts[i].claimed == 0 && forall k :: 0 <= k < |ts| ==> TicketOk(m, ts, k)
    ensures Sum(ts, Claimed) + ts[i].granted <= Sum(ts, Granted)
  {
    assert TicketOk(m, ts, i);
    var tk := ts[i].(claimed := ts[i].granted);
    var ts' := ts[i := tk];
    SumUpdate(ts, i, tk, Claimed);
    SumUpdate(ts, i, tk, Granted);
    ReviseKeepsTickets(m, ts, i, tk, ts');
    assert ts'[..|ts'|] == ts';
    SumsBounded(m, ts', |ts'|);
  }
}
