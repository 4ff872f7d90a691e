/** The dequeue of the implicit producer from its call to its end: it is wait-free, and alone it returns the oldest
    elements, as many as it may. */
module DequeueResults {
  import opened Wrappers
  import opened BlockIndex
  import opened BlockNumbers
  import opened ImplicitProducer
  import opened ImplicitProducerInvariant
  import opened ImplicitProducerProof
  import opened ImplicitProducerTakes
  import opened ImplicitProducerRuns
  import opened ImplicitProducerTheorems
  import Claims = OptimisticDequeue
  import opened ClaimResults

  predicate InCall(m: Memory, t: nat) { t < |m.cons| == |m.q.pc| && !m.q.pc[t].Out? }

  /** Accesses left in the current chunk of a consumer that holds its indices, beyond five for each element still to be
      moved out. */
  function ChunkRank(p: Consuming): int {
    match p
    case CNone => 0
    case CHeader => 3
    case CTail(_) => 2
    case CBase(_, _) => 1
    case CLoad(_, _, _) => 0
    case CTake(_, _, _, _, _, _) => -1
    case CCount(_, _, _, _, _, _) => 3
    case CNull(_, _, _, _, _) => 2
    case CFree(_, _, _, _) => 1
  }

  /** At most so many accesses are left of the call of consumer t. */
  function Rank(m: Memory, t: nat): int
    requires InCall(m, t)
  {
    if m.q.pc[t].Holding? then 5 * (End(m, t) - Cur(m, t)) + ChunkRank(m.cons[t])
    else 5 * Ask(m.q.pc[t]) + ClaimRank(m.q.pc[t]) + 3
  }

  lemma RankStart(c: Config, m: Memory, b: Ledger, t: nat)
    requires Core(c, m, b) && InCall(m, t)
    ensures Rank(m, t) >= 0
  {
    assert ConsumerOk(c, m, b, t);
    if !m.q.pc[t].Holding? { ClaimCounts(m.q, b.q, t); }
  }

  lemma ClaimStepCounts(c: Config, m: Memory, b: Ledger, t: nat)
    requires Core(c, m, b) && InCall(m, t) && m.cons[t].CNone? && ConsumerSafe(c, m, t)
    ensures var m' := StepConsumer(c, m, t); InCall(m', t) ==> Rank(m', t) < Rank(m, t)
  {
    assert ConsumerOk(c, m, b, t);
    ClaimCounts(m.q, b.q, t);
  }

  lemma TakeStepCounts(c: Config, m: Memory, b: Ledger, t: nat)
    requires InCall(m, t) && !m.cons[t].CNone? && ConsumerSafe(c, m, t)
    requires Sized(c, m, b) && ConsumerOk(c, m, b, t)
    ensures var m' := StepConsumer(c, m, t); InCall(m', t) ==> Rank(m', t) < Rank(m, t)
  {
  }

  lemma ConsumerCounts(c: Config, m: Memory, b: Ledger, t: nat)
    requires Inv(c, m, b) && InCall(m, t)
    ensures ConsumerSafe(c, m, t)
    ensures var m' := StepConsumer(c, m, t); InCall(m', t) ==> Rank(m', t) < Rank(m, t)
  {
    assert ConsumerOk(c, m, b, t);
    ConsumerStep(c, m, b, t);
    if m.cons[t].CNone? { ClaimStepCounts(c, m, b, t); } else { TakeStepCounts(c, m, b, t); }
  }

  // ----- Wait-freedom

  /** Consumer t has been calling dequeue for max elements since s; then the run. */
  function FromCall(c: Config, s: State, t: nat, max: nat, run: seq<Action>): State
    requires Sensible(s)
  {
    Execute(c, s, [Dequeue(t, max)] + run)
  }

  lemma FromCallNothing(c: Config, s: State, t: nat, max: nat)
    requires Sensible(s) && Inv(c, s.m, s.b) && Enabled(c, s.m, Dequeue(t, max))
    ensures var p := FromCall(c, s, t, max, []); p.m == Step(c, s.m, Dequeue(t, max)) && Inv(c, p.m, p.b) && p.b == s.b
  {
    assert [Dequeue(t, max)] + [] == [Dequeue(t, max)] && [Dequeue(t, max)][..0] == [];
    assert FromCall(c, s, t, max, []) == Perform(c, Execute(c, s, []), Dequeue(t, max));
    PerformKeepsInv(c, s, Dequeue(t, max));
  }

  lemma FromCallLast(c: Config, s: State, t: nat, max: nat, run: seq<Action>)
    requires Sensible(s) && run != []
    ensures FromCall(c, s, t, max, run) == Perform(c, FromCall(c, s, t, max, run[..|run|-1]), run[|run|-1])
  {
    assert ([Dequeue(t, max)] + run)[..|run|] == [Dequeue(t, max)] + run[..|run|-1];
  }

  function Accesses(run: seq<Action>, t: nat): nat {
    if run == [] then 0 else Accesses(run[..|run|-1], t) + if run[|run|-1] == Consume(t) then 1 else 0
  }

  /** Where consumer t is in its call. */
  predicate SamePlace(m: Memory, m': Memory, t: nat) {
    t < |m.cons| == |m.q.pc| && t < |m'.cons| == |m'.q.pc| && m'.q.pc[t] == m.q.pc[t] && m'.cons[t] == m.cons[t]
  }

  lemma SamePlaceRank(m: Memory, m': Memory, t: nat)
    requires SamePlace(m, m', t) && InCall(m, t)
    ensures InCall(m', t) && Rank(m', t) == Rank(m, t)
  {
  }

  lemma ProducerKeepsPlace(c: Config, m: Memory, r: Resource, t: nat)
    requires ProducerSafe(c, m) && !m.prod.PIdle? && t < |m.cons| == |m.q.pc|
    ensures SamePlace(m, StepProducer(c, m, r), t)
  {
  }

  lemma ConsumerKeepsPlace(c: Config, m: Memory, b: Ledger, u: nat, t: nat)
    requires Inv(c, m, b) && ConsumerSafe(c, m, u) && t < |m.cons| && t != u
    ensures SamePlace(m, StepConsumer(c, m, u), t)
  {
    if m.cons[u].CNone? { AdvanceFacts(m.q, b.q, u); }
  }

  /** No event of anyone else changes where consumer t is in its call. */
  lemma OthersKeepPlace(c: Config, m: Memory, b: Ledger, t: nat, a: Action)
    requires Inv(c, m, b) && InCall(m, t) && Enabled(c, m, a) && a != Consume(t)
    ensures SamePlace(m, Step(c, m, a), t)
  {
    match a
    case Produce(r) => ProducerKeepsPlace(c, m, r, t);
    case Consume(u) => ConsumerKeepsPlace(c, m, b, u, t);
    case _ =>
  }

  lemma PerformConsumes(c: Config, p: State, t: nat)
    requires Sensible(p) && ConsumerSafe(c, p.m, t)
    ensures Perform(c, p, Consume(t)).m == StepConsumer(c, p.m, t)
    ensures Perform(c, p, Consume(t)).b == TrackConsumer(c, p.m, p.b, t)
  {
  }

  /** What an event leaves of the accesses that a call may still make. */
  predicate Counts(m: Memory, a: Action, m': Memory, t: nat) {
    InCall(m, t) && InCall(m', t) ==> Rank(m', t) + (if a == Consume(t) then 1 else 0) <= Rank(m, t)
  }

  lemma EventCounts(c: Config, p: State, t: nat, a: Action)
    requires Inv(c, p.m, p.b) && Sensible(p) && InCall(p.m, t)
    ensures Counts(p.m, a, Perform(c, p, a).m, t)
  {
    if a == Consume(t) {
      ConsumerCounts(c, p.m, p.b, t);
      PerformConsumes(c, p, t);
    } else if Enabled(c, p.m, a) {
      OthersKeepPlace(c, p.m, p.b, t, a);
      SamePlaceRank(p.m, Step(c, p.m, a), t);
    }
  }

  lemma CallRank(c: Config, s: State, t: nat, max: nat)
    requires Sensible(s) && Inv(c, s.m, s.b) && Enabled(c, s.m, Dequeue(t, max))
    ensures var m := Step(c, s.m, Dequeue(t, max)); InCall(m, t) && Rank(m, t) == 5 * max + 10
  {
  }

  lemma {:induction false} RunFromCallInv(c: Config, s: State, t: nat, max: nat, run: seq<Action>)
    requires Sensible(s) && Inv(c, s.m, s.b) && Enabled(c, s.m, Dequeue(t, max))
    ensures Inv(c, FromCall(c, s, t, max, run).m, FromCall(c, s, t, max, run).b)
  {
    if run == [] {
      FromCallNothing(c, s, t, max);
    } else {
      RunFromCallInv(c, s, t, max, run[..|run|-1]);
      FromCallLast(c, s, t, max, run);
      PerformKeepsInv(c, FromCall(c, s, t, max, run[..|run|-1]), run[|run|-1]);
    }
  }

  /** The memory before each event since the call, and after the last one. */
  function History(c: Config, s: State, t: nat, max: nat, run: seq<Action>): (h: seq<Memory>)
    requires Sensible(s)
    ensures |h| == |run| + 1 && forall j :: 0 <= j <= |run| ==> h[j] == FromCall(c, s, t, max, run[..j]).m
  {
    seq(|run| + 1, j requires 0 <= j <= |run| => FromCall(c, s, t, max, run[..j]).m)
  }

  lemma EventOfHistory(c: Config, s: State, t: nat, max: nat, run: seq<Action>, j: nat)
    requires Sensible(s) && Inv(c, s.m, s.b) && Enabled(c, s.m, Dequeue(t, max)) && j < |run|
    requires InCall(History(c, s, t, max, run)[j], t)
    ensures var h := History(c, s, t, max, run); Counts(h[j], run[j], h[j+1], t)
  {
    assert run[..j+1][..j] == run[..j] && run[..j+1][j] == run[j];
    RunFromCallInv(c, s, t, max, run[..j]);
    FromCallLast(c, s, t, max, run[..j+1]);
    EventCounts(c, FromCall(c, s, t, max, run[..j]), t, run[j]);
  }

  lemma {:induction false} CountsDown(h: seq<Memory>, run: seq<Action>, t: nat)
    requires |h| == |run| + 1 && forall j :: 0 <= j <= |run| ==> InCall(h[j], t)
    requires forall j {:trigger run[j]} :: 0 <= j < |run| ==> Counts(h[j], run[j], h[j+1], t)
    ensures Accesses(run, t) + Rank(h[|run|], t) <= Rank(h[0], t)
  {
    if run != [] {
      var h', front := h[..|run|], run[..|run|-1];
      forall j {:trigger front[j]} | 0 <= j < |front| ensures Counts(h'[j], front[j], h'[j+1], t) {
        assert front[j] == run[j];
      }
      CountsDown(h', front, t);
      assert run[|run|-1] == run[|front|];
    }
  }

  /** dequeue and dequeue_bulk are wait-free: in every interleaving a call for at most max elements makes no more than
      5 * max + 10 accesses, whatever the producer and the other consumers do in between. */
  lemma DequeueIsWaitFree(c: Config, s: State, t: nat, max: nat, run: seq<Action>)
    requires Sensible(s) && Inv(c, s.m, s.b) && Enabled(c, s.m, Dequeue(t, max))
    requires forall j :: 0 <= j <= |run| ==> InCall(History(c, s, t, max, run)[j], t)
    ensures Accesses(run, t) <= 5 * max + 10
  {
    var h := History(c, s, t, max, run);
    forall j {:trigger run[j]} | 0 <= j < |run| ensures Counts(h[j], run[j], h[j+1], t) {
      EventOfHistory(c, s, t, max, run, j);
    }
    CountsDown(h, run, t);
    CallStarts(c, s, t, max, run);
    RunFromCallInv(c, s, t, max, run);
    assert run[..|run|] == run;
    RankStart(c, h[|run|], FromCall(c, s, t, max, run).b, t);
  }

  lemma CallStarts(c: Config, s: State, t: nat, max: nat, run: seq<Action>)
    requires Sensible(s) && Inv(c, s.m, s.b) && Enabled(c, s.m, Dequeue(t, max))
    ensures var m := History(c, s, t, max, run)[0]; InCall(m, t) && Rank(m, t) == 5 * max + 10
  {
    assert run[..0] == [];
    FromCallNothing(c, s, t, max);
    CallRank(c, s, t, max);
  }

  // ----- A dequeue that runs alone

  predicate NextAlone(c: Config, p: State, p1: State, t: nat) { Sensible(p) && p1 == Perform(c, p, Consume(t)) }

  predicate NextAt(c: Config, h: seq<State>, t: nat, i: nat)
    requires i + 1 < |h|
  {
    NextAlone(c, h[i], h[i+1], t)
  }

  /** The states that accesses of consumer t, and nothing else, lead through. */
  predicate Alone(c: Config, h: seq<State>, t: nat) {
    h != [] && forall i {:trigger NextAt(c, h, t, i)} :: 0 <= i < |h| - 1 ==> NextAt(c, h, t, i)
  }

  lemma AloneStep(c: Config, p: State, t: nat) returns (p1: State)
    requires Sensible(p) && Inv(c, p.m, p.b) && InCall(p.m, t)
    ensures ConsumerSafe(c, p.m, t) && NextAlone(c, p, p1, t) && Sensible(p1) && Inv(c, p1.m, p1.b)
    ensures p1.m == StepConsumer(c, p.m, t) && p1.b == TrackConsumer(c, p.m, p.b, t)
  {
    ConsumerCounts(c, p.m, p.b, t);
    p1 := Perform(c, p, Consume(t));
    PerformConsumes(c, p, t);
    PerformKeepsInv(c, p, Consume(t));
    PerformSensible(c, p, Consume(t));
  }

  /** What is seen of consumer t, between its call and its end. */
  predicate Shaped(m: Memory, t: nat) { t < |m.cons| == |m.out| == |m.q.pc| }

  lemma FinishNext(q: Claims.Counters, t: nat, fuel: nat)
    requires Claims.Enabled(q, t, Claims.Advance) && t < |Claims.Step(q, t, Claims.Advance).pc|
    requires var pc := Claims.Finish(q, t, fuel).pc; t < |pc| && (pc[t].Out? || pc[t].Holding?)
    ensures fuel > 0 && Claims.Finish(q, t, fuel) == Claims.Finish(Claims.Step(q, t, Claims.Advance), t, fuel - 1)
  {
  }

  lemma FinishEnded(q: Claims.Counters, t: nat, fuel: nat)
    requires t < |q.pc| && (q.pc[t].Out? || q.pc[t].Holding?)
    ensures Claims.Finish(q, t, fuel) == q
  {
  }

  lemma ClaimFacts(c: Config, m: Memory, b: Ledger, t: nat)
    requires Inv(c, m, b) && InCall(m, t) && m.cons[t].CNone? && ConsumerSafe(c, m, t)
    ensures var m' := StepConsumer(c, m, t);
      && m'.q == Claims.Step(m.q, t, Claims.Advance) && Shaped(m', t) && TrackConsumer(c, m, b, t).items == b.items
      && (if m'.q.pc[t].Holding? then m'.cons[t].CHeader? else m'.cons[t].CNone? && m'.out == m.out)
  {
    AdvanceFacts(m.q, b.q, t);
  }

  lemma ReleaseOnly(c: Config, m: Memory, t: nat)
    requires ConsumerSafe(c, m, t) && !m.cons[t].CNone?
    ensures var m' := StepConsumer(c, m, t);
      m'.q == if m'.cons[t].CNone? then m.q.(pc := m.q.pc[t := Claims.Out]) else m.q
  {
  }

  /** The elements at the indices that consumer t holds. */
  function Held(m: Memory, items: seq<nat>, t: nat): seq<nat>
    requires t < |m.q.pc| && m.q.pc[t].Holding?
    requires 0 <= m.q.pc[t].first <= m.q.pc[t].first + m.q.pc[t].count <= |items|
  {
    items[m.q.pc[t].first..m.q.pc[t].first + m.q.pc[t].count]
  }

  lemma TakeFacts(c: Config, m: Memory, b: Ledger, t: nat)
    requires Inv(c, m, b) && InCall(m, t) && !m.cons[t].CNone? && ConsumerSafe(c, m, t)
    ensures var m', q := StepConsumer(c, m, t), m.q.pc[t];
      && Shaped(m', t) && TrackConsumer(c, m, b, t).items == b.items
      && q.Holding? && 0 <= q.first <= q.first + q.count <= |b.items|
      && (if m'.cons[t].CNone? then m'.q == m.q.(pc := m.q.pc[t := Claims.Out]) && m'.out[t] == Held(m, b.items, t)
          else m'.q == m.q)
  {
    EndDelivers(c, m, b, t);
    ConsumeKeepsBook(c, m, b, t);
    ReleaseOnly(c, m, t);
  }

  predicate ClaimMove(m: Memory, m': Memory, t: nat)
    requires Shaped(m, t) && Shaped(m', t)
  {
    && !m.q.pc[t].Holding? && Claims.Enabled(m.q, t, Claims.Advance) && m'.q == Claims.Step(m.q, t, Claims.Advance)
    && (if m'.q.pc[t].Holding? then m'.cons[t].CHeader? else m'.cons[t].CNone? && m'.out == m.out)
  }

  predicate TakeMove(m: Memory, items: seq<nat>, m': Memory, t: nat)
    requires Shaped(m, t) && Shaped(m', t)
  {
    var q := m.q.pc[t];
    && q.Holding? && 0 <= q.first <= q.first + q.count <= |items|
    && (if m'.cons[t].CNone? then m'.q == m.q.(pc := m.q.pc[t := Claims.Out]) && m'.out[t] == Held(m, items, t)
        else m'.q == m.q)
  }

  /** What one access of a consumer in its call does, to itself. */
  predicate Moved(p: State, p1: State, t: nat) {
    && InCall(p.m, t) && Shaped(p.m, t) && Shaped(p1.m, t) && p1.b.items == p.b.items
    && if p.m.cons[t].CNone? then ClaimMove(p.m, p1.m, t) else TakeMove(p.m, p.b.items, p1.m, t)
  }

  lemma AccessMoves(c: Config, p: State, p1: State, t: nat)
    requires Inv(c, p.m, p.b) && InCall(p.m, t) && ConsumerSafe(c, p.m, t)
    requires p1.m == StepConsumer(c, p.m, t) && p1.b == TrackConsumer(c, p.m, p.b, t)
    ensures Moved(p, p1, t)
  {
    assert ConsumerOk(c, p.m, p.b, t);
    if p.m.cons[t].CNone? { ClaimFacts(c, p.m, p.b, t); } else { TakeFacts(c, p.m, p.b, t); }
  }

  predicate MovedAt(h: seq<State>, t: nat, i: nat)
    requires i + 1 < |h|
  {
    Moved(h[i], h[i+1], t)
  }

  /** A call that runs alone, to its end. */
  predicate WholeCall(h: seq<State>, t: nat) {
    && h != [] && Shaped(h[|h|-1].m, t) && !InCall(h[|h|-1].m, t)
    && forall i {:trigger MovedAt(h, t, i)} :: 0 <= i < |h| - 1 ==> MovedAt(h, t, i)
  }

  lemma Longer(c: Config, p: State, h: seq<State>, t: nat)
    requires Alone(c, h, t) && WholeCall(h, t) && NextAlone(c, p, h[0], t) && Moved(p, h[0], t)
    ensures Alone(c, [p] + h, t) && WholeCall([p] + h, t) && ([p] + h)[0] == p
  {
    var h' := [p] + h;
    forall i | 0 <= i < |h'| - 1 ensures NextAt(c, h', t, i) && MovedAt(h', t, i) {
      if i > 0 { assert NextAt(c, h, t, i - 1) && MovedAt(h, t, i - 1); }
    }
  }

  /** A consumer that runs alone ends its call. */
  lemma {:induction false} RunsToEnd(c: Config, p: State, t: nat, rank: nat) returns (h: seq<State>)
    requires Sensible(p) && Inv(c, p.m, p.b) && InCall(p.m, t) && Rank(p.m, t) <= rank
    ensures Alone(c, h, t) && WholeCall(h, t) && h[0] == p
    decreases rank
  {
    var p1 := AloneStep(c, p, t);
    AccessMoves(c, p, p1, t);
    h := [p1];
    if InCall(p1.m, t) {
      ConsumerCounts(c, p.m, p.b, t);
      RankStart(c, p1.m, p1.b, t);
      h := RunsToEnd(c, p1, t, rank - 1);
    }
    Longer(c, p, h, t);
    h := [p] + h;
  }

  lemma TailIsCall(h: seq<State>, t: nat)
    requires WholeCall(h, t) && InCall(h[0].m, t)
    ensures |h| > 1 && WholeCall(h[1..], t) && Moved(h[0], h[1], t)
  {
    forall i | 0 <= i < |h| - 2 ensures MovedAt(h[1..], t, i) { assert MovedAt(h, t, i + 1); }
    assert MovedAt(h, t, 0);
  }

  /** Once the indices are claimed, their elements are returned in order. */
  lemma {:induction false} ReturnsHeld(h: seq<State>, t: nat)
    requires WholeCall(h, t) && InCall(h[0].m, t) && !h[0].m.cons[t].CNone?
    ensures var q, last := h[0].m.q.pc[t], h[|h|-1];
      && q.Holding? && 0 <= q.first <= q.first + q.count <= |h[0].b.items|
      && last.m.q == h[0].m.q.(pc := h[0].m.q.pc[t := Claims.Out])
      && last.b.items == h[0].b.items && last.m.out[t] == h[0].b.items[q.first..q.first + q.count]
  {
    TailIsCall(h, t);
    if h[1].m.cons[t].CNone? { EndsHere(h[1..], t); } else { ReturnsHeld(h[1..], t); }
  }

  lemma EndsHere(h: seq<State>, t: nat)
    requires WholeCall(h, t) && !InCall(h[0].m, t)
    ensures |h| == 1
  {
    forall i | 0 <= i < |h| - 1 ensures InCall(h[i].m, t) { assert MovedAt(h, t, i); }
  }

  /** The claim: the accesses to the counters, one after the other. */
  lemma {:induction false} ClaimsFirst(h: seq<State>, t: nat, fuel: nat, goal: Claims.Counters) returns (j: nat)
    requires WholeCall(h, t) && InCall(h[0].m, t) && h[0].m.cons[t].CNone?
    requires goal == Claims.Finish(h[0].m.q, t, fuel) && t < |goal.pc| && (goal.pc[t].Out? || goal.pc[t].Holding?)
    ensures j < |h| && WholeCall(h[j..], t) && h[j].m.q == goal && h[j].b.items == h[0].b.items
    ensures if goal.pc[t].Holding? then InCall(h[j].m, t) && !h[j].m.cons[t].CNone? else j == |h| - 1 && h[j].m.out == h[0].m.out
    decreases fuel
  {
    TailIsCall(h, t);
    FinishNext(h[0].m.q, t, fuel);
    if h[1].m.q.pc[t].Holding? || h[1].m.q.pc[t].Out? {
      j := 1;
      FinishEnded(h[1].m.q, t, fuel - 1);
      if h[1].m.q.pc[t].Out? { EndsHere(h[1..], t); }
    } else {
      j := ClaimsFirst(h[1..], t, fuel - 1, goal);
      assert h[1..][j..] == h[j+1..];
      j := j + 1;
    }
  }

  lemma CallAlone(c: Config, s: State, t: nat, max: nat) returns (p: State)
    requires Sensible(s) && Inv(c, s.m, s.b) && Enabled(c, s.m, Dequeue(t, max))
    ensures Sensible(p) && Inv(c, p.m, p.b) && p.b == s.b && p.m == s.m.(q := Claims.Step(s.m.q, t, Claims.Call(max)))
    ensures InCall(p.m, t) && p.m.cons[t].CNone?
  {
    PerformKeepsInv(c, s, Dequeue(t, max));
    p := Perform(c, s, Dequeue(t, max));
  }

  /** The claim of a call that runs alone while no other claim is unsettled. */
  function LoneGoal(q: Claims.Counters, t: nat, max: nat): Claims.Counters
    requires t < |q.pc|
  {
    var n := if q.tail - q.head < max then q.tail - q.head else max;
    if n > 0 then q.(head := q.head + n, opt := q.opt + n, pc := q.pc[t := Claims.Holding(q.head, n)]) else q
  }

  lemma LoneClaim(q: Claims.Counters, b: Claims.Book, t: nat, max: nat)
    requires Claims.Inv(q, b) && Claims.Quiet(q) && Claims.Enabled(q, t, Claims.Call(max))
    ensures 0 <= q.head <= q.tail
    ensures Claims.Finish(Claims.Step(q, t, Claims.Call(max)), t, 6) == LoneGoal(q, t, max)
  {
    Claims.QuietBalance(q, b);
    Claims.HeadNeverPassesTail(q, b);
    assert b.tickets[..|b.tickets|] == b.tickets;
    Claims.ClaimedNonnegative(q, b.tickets, |b.tickets|);
    if q.head < q.tail { Claims.SoloSuccess(q, t, max); } else { Claims.SoloFailure(q, t, max); }
  }

  lemma LoneOutcome(h: seq<State>, q: Claims.Counters, t: nat, max: nat)
    requires WholeCall(h, t) && InCall(h[0].m, t) && h[0].m.cons[t].CNone?
    requires t < |q.pc| && q.pc[t].Out? && max > 0 && 0 <= q.head <= q.tail
    requires Claims.Finish(h[0].m.q, t, 6) == LoneGoal(q, t, max)
    ensures var m', n := h[|h|-1].m, if q.tail - q.head < max then q.tail - q.head else max;
      && m'.q.pc[t].Out? && m'.q.head == q.head + n && h[|h|-1].b.items == h[0].b.items
      && (if n > 0 then q.head + n <= |h[0].b.items| && m'.out[t] == h[0].b.items[q.head..q.head + n]
          else m'.out == h[0].m.out)
  {
    var j := ClaimsFirst(h, t, 6, LoneGoal(q, t, max));
    if q.head < q.tail { ReturnsHeldFrom(h, t, j); }
  }

  lemma ReturnsHeldFrom(h: seq<State>, t: nat, j: nat)
    requires j < |h| && WholeCall(h[j..], t) && InCall(h[j].m, t) && !h[j].m.cons[t].CNone?
    ensures var q, last := h[j].m.q.pc[t], h[|h|-1];
      && q.Holding? && 0 <= q.first <= q.first + q.count <= |h[j].b.items|
      && last.m.q == h[j].m.q.(pc := h[j].m.q.pc[t := Claims.Out]) && t < |last.m.out|
      && last.b.items == h[j].b.items && last.m.out[t] == h[j].b.items[q.first..q.first + q.count]
  {
    ReturnsHeld(h[j..], t);
    assert h[j..][|h|-1-j] == h[|h|-1];
  }

  lemma LoneRun(c: Config, s: State, t: nat, max: nat) returns (h: seq<State>)
    requires Sensible(s) && Inv(c, s.m, s.b) && Enabled(c, s.m, Dequeue(t, max))
    ensures Alone(c, h, t) && WholeCall(h, t) && InCall(h[0].m, t) && h[0].m.cons[t].CNone?
    ensures h[0].m == s.m.(q := Claims.Step(s.m.q, t, Claims.Call(max))) && h[0].b == s.b
    ensures |s.b.items| == s.m.q.tail
  {
    var p := CallAlone(c, s, t, max);
    RankStart(c, p.m, p.b, t);
    h := RunsToEnd(c, p, t, Rank(p.m, t));
  }

  /** A whole dequeue, while no other claim is unsettled: alone it returns the oldest elements of the queue, in order, as
      many as there are but no more than max, and moves headIndex behind them; from an empty queue it takes nothing. */
  lemma LoneDequeue(c: Config, s: State, t: nat, max: nat) returns (h: seq<State>)
    requires Sensible(s) && Inv(c, s.m, s.b) && Enabled(c, s.m, Dequeue(t, max)) && Claims.Quiet(s.m.q)
    ensures Alone(c, h, t) && h[0].m == s.m.(q := Claims.Step(s.m.q, t, Claims.Call(max))) && h[0].b == s.b
    ensures 0 <= s.m.q.head <= s.m.q.tail == |s.b.items|
    ensures var m, m', n := s.m, h[|h|-1].m, if s.m.q.tail - s.m.q.head < max then s.m.q.tail - s.m.q.head else max;
      && Shaped(m', t) && m'.q.pc[t].Out? && m'.q.head == m.q.head + n && h[|h|-1].b.items == s.b.items
      && (if n > 0 then m'.out[t] == s.b.items[m.q.head..m.q.head + n] else m'.out == m.out)
  {
    h := LoneRun(c, s, t, max);
    LoneClaim(s.m.q, s.b.q, t, max);
    LoneOutcome(h, s.m.q, t, max);
  }
}
