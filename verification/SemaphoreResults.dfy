/** What a wait of the LightweightSemaphore of blockingconrurrentqueue.h obtains, and when it comes back with less
    than it asked for. */
module SemaphoreResults {
  import opened Wrappers
  import opened Semaphore

  // ----- A thread that runs alone

  lemma FinishStep(m: Memory, t: nat, fuel: nat)
    requires t < |m.pc| && fuel > 0 && Enabled(m, t, Advance(false))
    ensures Finish(m, t, fuel) == Finish(Step(m, t, Advance(false)), t, fuel - 1)
  {
  }

  lemma FinishDone(m: Memory, t: nat, fuel: nat)
    requires t < |m.pc| && (m.pc[t].Done? || m.pc[t].Out?)
    ensures Finish(m, t, fuel) == m
  {
  }

  /** The accesses of a wait before it has made a reservation, with permits still to be had. */
  predicate BeforeQueueing(pc: Pc) { pc.TryLoad? || pc.TryCas? || pc.SpinLoad? || pc.SpinCas? || pc.Sub? }

  function GotSoFar(pc: Pc): nat { if pc.TryLoad? || pc.TryCas? then pc.got else 0 }

  /** The state in which t has taken n permits off the count, g of them before. */
  function TookAll(m: Memory, t: nat, n: nat, g: nat, want: nat, p: Patience): Memory
    requires t < |m.pc|
  {
    m.(count := m.count - n, pc := m.pc[t := Done(g + n, want, p)])
  }

  /** Alone, t ends its call with g permits and as many more as it wants and there are. */
  predicate TakesAlone(m: Memory, t: nat, want: nat, g: nat, p: Patience, fuel: nat)
    requires t < |m.pc| && g <= want && m.count > 0
  {
    Finish(m, t, fuel) == TookAll(m, t, Min(want - g, m.count), g, want, p)
  }

  lemma CasTakes(m: Memory, t: nat, want: nat, got: nat, p: Patience, fuel: nat)
    requires t < |m.pc| && m.pc[t] == TryCas(want, got, p, m.count) && m.count > 0 && got <= want && fuel > 0
    ensures Finish(m, t, fuel) == TookAll(m, t, Min(want - got, m.count), got, want, p)
  {
    FinishStep(m, t, fuel);
    var m1 := Step(m, t, Advance(false));
    if got == want {
      assert m1.pc[t] == EndTry(want, got, p, 0);
    }
    FinishDone(m1, t, fuel - 1);
  }

  lemma LoadTakes(m: Memory, t: nat, want: nat, got: nat, p: Patience, fuel: nat)
    requires t < |m.pc| && m.pc[t] == TryLoad(want, got, p) && m.count > 0 && got <= want && fuel > 1
    ensures Finish(m, t, fuel) == TookAll(m, t, Min(want - got, m.count), got, want, p)
  {
    FinishStep(m, t, fuel);
    CasTakes(Step(m, t, Advance(false)), t, want, got, p, fuel - 1);
  }

  /** Once it has a permit, a call takes what more it may. */
  lemma GotOneGoesOn(m: Memory, t: nat, want: nat, p: Patience, fuel: nat)
    requires t < |m.pc| && want > 0 && m.pc[t] == GotOne(want, p) && fuel > 1
    ensures Finish(m, t, fuel) == TookAll(m, t, Min(want - 1, Positive(m.count)), 1, want, p)
  {
    if want == 1 {
      FinishDone(m, t, fuel);
    } else if m.count > 0 {
      LoadTakes(m, t, want, 1, p, fuel);
    } else {
      FinishStep(m, t, fuel);
      FinishDone(Step(m, t, Advance(false)), t, fuel - 1);
    }
  }

  lemma SpinTakes(m: Memory, t: nat, want: nat, p: Patience, fuel: nat)
    requires t < |m.pc| && m.pc[t] == SpinLoad(want, p) && m.count > 0 && want > 0 && fuel > 1
    ensures Finish(m, t, fuel) == TookAll(m, t, Min(want, m.count), 0, want, p)
  {
    FinishStep(m, t, fuel);
    var m1 := Step(m, t, Advance(false));
    FinishStep(m1, t, fuel - 1);
    FinishDone(Step(m1, t, Advance(false)), t, fuel - 2);
  }

  lemma StaleCasTakes(m: Memory, t: nat, want: nat, got: nat, p: Patience, seen: int)
    requires t < |m.pc| && m.pc[t] == TryCas(want, got, p, seen) && m.count > 0 && got <= want
    ensures TakesAlone(m, t, want, got, p, 4)
  {
    if m.count == seen {
      CasTakes(m, t, want, got, p, 4);
    } else {
      FinishStep(m, t, 4);
      CasTakes(Step(m, t, Advance(false)), t, want, got, p, 3);
    }
  }

  lemma StaleSpinTakes(m: Memory, t: nat, want: nat, p: Patience, seen: int)
    requires t < |m.pc| && m.pc[t] == SpinCas(want, p, seen) && m.count > 0 && want > 0
    ensures TakesAlone(m, t, want, 0, p, 4)
  {
    FinishStep(m, t, 4);
    var m1 := Step(m, t, Advance(false));
    if m.count == seen { FinishDone(m1, t, 3); } else { SpinTakes(m1, t, want, p, 3); }
  }

  lemma SubTakes(m: Memory, t: nat, want: nat, p: Patience)
    requires t < |m.pc| && m.pc[t] == Sub(want, p) && m.count > 0 && want > 0
    ensures TakesAlone(m, t, want, 0, p, 4)
  {
    FinishStep(m, t, 4);
    GotOneGoesOn(Step(m, t, Advance(false)), t, want, p, 3);
  }

  lemma FastPathTakes(m: Memory, t: nat)
    requires t < |m.pc| && BeforeQueueing(m.pc[t]) && ThreadOk(m.pc[t]) && m.count > 0
    ensures GotSoFar(m.pc[t]) <= m.pc[t].want
    ensures TakesAlone(m, t, m.pc[t].want, GotSoFar(m.pc[t]), m.pc[t].p, 4)
  {
    var pc := m.pc[t];
    if pc.TryLoad? {
      LoadTakes(m, t, pc.want, pc.got, pc.p, 4);
    } else if pc.TryCas? {
      StaleCasTakes(m, t, pc.want, pc.got, pc.p, pc.seen);
    } else if pc.SpinLoad? {
      SpinTakes(m, t, pc.want, pc.p, 4);
    } else if pc.SpinCas? {
      StaleSpinTakes(m, t, pc.want, pc.p, pc.seen);
    } else {
      SubTakes(m, t, pc.want, pc.p);
    }
  }

  /** A wait of any kind, at any access of its fast path, stale values and all, takes as much as it may as soon as the
      others pause while the count is positive. */
  lemma LoneWaitTakes(m: Memory, b: Book, t: nat)
    requires Inv(m, b) && t < |m.pc| && BeforeQueueing(m.pc[t]) && m.count > 0
    ensures var pc := m.pc[t];
      var more := if pc.want - GotSoFar(pc) < m.count then pc.want - GotSoFar(pc) else m.count;
      Finish(m, t, 4) == m.(count := m.count - more, pc := m.pc[t := Done(GotSoFar(pc) + more, pc.want, pc.p)])
  {
    assert ThreadOk(m.pc[t]);
    FastPathTakes(m, t);
  }

  /** The whole call, with any patience: alone it takes the smaller of what it wants and what is there. */
  lemma LoneCallTakes(m: Memory, t: nat, want: nat, p: Patience)
    requires t < |m.pc| && m.pc[t].Out? && m.count > 0
    ensures var n := if want < m.count then want else m.count;
      Finish(Step(m, t, Wait(want, p)), t, 2) == m.(count := m.count - n, pc := m.pc[t := Done(n, want, p)])
  {
    LoadTakes(Step(m, t, Wait(want, p)), t, want, 0, p, 2);
  }

  /** The kernel permit counts, and what is in the count is added to it. */
  lemma LoneWakeTakes(m: Memory, b: Book, t: nat)
    requires Inv(m, b) && t < |m.pc| && m.pc[t].Kernel? && m.kernel > 0
    ensures var pc := m.pc[t];
      var more := if m.count <= 0 then 0 else if pc.want - 1 < m.count then pc.want - 1 else m.count;
      Finish(m, t, 3) == Memory(m.count - more, m.kernel - 1, m.pc[t := Done(1 + more, pc.want, pc.p)])
  {
    assert ThreadOk(m.pc[t]);
    FinishStep(m, t, 3);
    GotOneGoesOn(Step(m, t, Advance(false)), t, m.pc[t].want, m.pc[t].p, 2);
  }

  lemma LateRepair(m: Memory, t: nat, want: nat)
    requires t < |m.pc| && m.pc[t] == RepairTry(want) && m.kernel > 0 && m.count >= 0 && want > 0
    ensures var more := if want - 1 < m.count then want - 1 else m.count;
      Finish(m, t, 3) == Memory(m.count - more, m.kernel - 1, m.pc[t := Done(1 + more, want, Timed)])
  {
    FinishStep(m, t, 3);
    GotOneGoesOn(Step(m, t, Advance(false)), t, want, Timed, 2);
  }

  lemma RepairFindsPermit(m: Memory, b: Book, t: nat)
    requires Inv(m, b) && t < |m.pc| && m.pc[t].RepairLoad? && Total(m.pc, Releasing) == 0
    ensures m.pc[t].want > 0 && (m.count >= 0 ==> m.kernel > 0)
  {
    TotalAtLeast(m.pc, t, Waiting);
    assert ThreadOk(m.pc[t]);
  }

  lemma LateTimeout(m: Memory, t: nat, want: nat)
    requires t < |m.pc| && m.pc[t] == RepairLoad(want) && m.kernel > 0 && m.count >= 0 && want > 0
    ensures var more := if want - 1 < m.count then want - 1 else m.count;
      Finish(m, t, 4) == Memory(m.count - more, m.kernel - 1, m.pc[t := Done(1 + more, want, Timed)])
  {
    FinishStep(m, t, 4);
    var m1 := m.(pc := m.pc[t := RepairTry(want)]);
    assert Step(m, t, Advance(false)) == m1;
    LateRepair(m1, t, want);
  }

  lemma TimelyTimeout(m: Memory, t: nat, want: nat)
    requires t < |m.pc| && m.pc[t] == RepairLoad(want) && m.count < 0
    ensures Finish(m, t, 4) == m.(count := m.count + 1, pc := m.pc[t := Done(0, want, Timed)])
  {
    FinishStep(m, t, 4);
    var m1 := m.(pc := m.pc[t := RepairCas(want, m.count)]);
    assert Step(m, t, Advance(false)) == m1;
    FinishStep(m1, t, 3);
    FinishDone(Step(m1, t, Advance(false)), t, 2);
  }

  /** A timeout that comes too late: with a count that is not negative the thread has been signalled, and its call ends
      with that permit and what else is there; otherwise it ends with nothing and gives back its unit of the count. */
  lemma LoneTimeout(m: Memory, b: Book, t: nat)
    requires Inv(m, b) && t < |m.pc| && m.pc[t].RepairLoad? && Total(m.pc, Releasing) == 0
    ensures m.count >= 0 ==> m.kernel > 0
    ensures var want := m.pc[t].want;
      Finish(m, t, 4) ==
        if m.count < 0 then m.(count := m.count + 1, pc := m.pc[t := Done(0, want, Timed)])
        else var more := if want - 1 < m.count then want - 1 else m.count;
          Memory(m.count - more, m.kernel - 1, m.pc[t := Done(1 + more, want, Timed)])
  {
    RepairFindsPermit(m, b, t);
    if m.count < 0 { TimelyTimeout(m, t, m.pc[t].want); } else { LateTimeout(m, t, m.pc[t].want); }
  }

  /** signal(c) alone adds c to the count and posts once for each waiter that was still owed a post. */
  lemma LoneSignal(m: Memory, t: nat, c: nat)
    requires t < |m.pc| && m.pc[t].Out?
    ensures var posts := if m.count >= 0 then 0 else if -m.count < c then -m.count else c;
      Finish(Step(m, t, Post(c)), t, 1 + c) == Memory(m.count + c, m.kernel + posts, m.pc)
  {
    var m1 := Step(m, t, Post(c));
    FinishStep(m1, t, 1 + c);
    var m2 := Step(m1, t, Advance(false));
    if m2.pc[t].Release? { PostsFinish(m2, t, m2.pc[t].n, c); } else { FinishDone(m2, t, c); }
    assert m.pc[t := Out] == m.pc;
  }

  lemma {:induction false} PostsFinish(m: Memory, t: nat, n: nat, fuel: nat)
    requires t < |m.pc| && m.pc[t] == Release(n) && 0 < n <= fuel
    ensures Finish(m, t, fuel) == m.(kernel := m.kernel + n, pc := m.pc[t := Out])
    decreases n
  {
    FinishStep(m, t, fuel);
    var m1 := Step(m, t, Advance(false));
    if n > 1 { PostsFinish(m1, t, n - 1, fuel - 1); } else { FinishDone(m1, t, fuel - 1); }
  }

  // ----- In every interleaving

  lemma AccessEndsShort(count: int, kernel: nat, pc: Pc, flag: bool)
    requires !pc.Out? && !pc.Done? && (pc.Kernel? ==> kernel > 0 || (flag && pc.p.Timed?)) && ThreadOk(pc)
    ensures var e := Access(count, kernel, pc, flag);
      e.pc.Done? && e.pc.n < e.pc.want ==> e.count <= 0
  {
  }

  /** No wait comes back with less than it asked for while permits are left: the access that ends such a call leaves
      no positive count behind. */
  lemma ShortOnlyWhenEmpty(s: State, events: seq<Event>, t: nat, flag: bool)
    requires Initial(s) && Enabled(Execute(s, events).m, t, Advance(flag))
    ensures var m' := Execute(s, events + [Event(t, Advance(flag))]).m;
      m'.pc[t].Done? && m'.pc[t].n < m'.pc[t].want ==> m'.count <= 0
  {
    RunKeepsInv(s, events);
    var p := Execute(s, events);
    assert ThreadOk(p.m.pc[t]);
    assert (events + [Event(t, Advance(flag))])[..|events|] == events;
    AccessEndsShort(p.m.count, p.m.kernel, p.m.pc[t], flag);
  }

  /** The memory before event k. */
  function Before(s: State, events: seq<Event>, k: nat): Memory
    requires k <= |events|
  {
    Execute(s, events[..k]).m
  }

  predicate Repairing(pc: Pc) { pc.RepairLoad? || pc.RepairCas? || pc.RepairTry? }

  /** At event i the kernel wait of thread t expires, and up to event j the thread undoes its reservation. */
  ghost predicate Expired(s: State, events: seq<Event>, t: nat, i: nat, j: nat)
    requires t < |s.m.pc| && i < j <= |events|
  {
    && |Before(s, events, i).pc| == |s.m.pc|
    && Before(s, events, i).pc[t].Kernel? && Before(s, events, i).pc[t].p.Timed?
    && events[i] == Event(t, Advance(true))
    && forall k {:trigger Before(s, events, k)} :: i < k <= j ==>
         |Before(s, events, k).pc| == |s.m.pc| && Repairing(Before(s, events, k).pc[t])
  }

  /** At event j thread t gives back its unit of a negative count. */
  ghost predicate GaveBack(s: State, events: seq<Event>, t: nat, j: nat)
    requires t < |s.m.pc| && j < |events|
  {
    var m := Before(s, events, j);
    && |m.pc| == |s.m.pc|
    && m.pc[t].RepairCas? && m.count == m.pc[t].seen && m.count < 0
    && events[j].thread == t && events[j].action.Advance?
  }

  lemma {:induction false} SameThreads(s: State, events: seq<Event>)
    ensures |Execute(s, events).m.pc| == |s.m.pc|
  {
    if events != [] { SameThreads(s, events[..|events|-1]); }
  }

  lemma BeforeOfFront(s: State, events: seq<Event>, k: nat)
    requires events != [] && k < |events|
    ensures Before(s, events, k) == Before(s, events[..|events|-1], k)
    ensures Before(s, events, |events|) == Execute(s, events).m
  {
    assert events[..|events|-1][..k] == events[..k];
    assert events[..|events|] == events;
  }

  /** Only a thread's own event changes its program counter. */
  lemma OthersKeep(s: State, events: seq<Event>, t: nat)
    requires t < |s.m.pc| && events != []
    ensures |Execute(s, events).m.pc| == |Execute(s, events[..|events|-1]).m.pc| == |s.m.pc|
    ensures events[|events|-1].thread != t ==>
      Execute(s, events).m.pc[t] == Execute(s, events[..|events|-1]).m.pc[t]
  {
    SameThreads(s, events);
    SameThreads(s, events[..|events|-1]);
  }

  lemma ExpiredLonger(s: State, events: seq<Event>, t: nat, i: nat)
    requires t < |s.m.pc| && events != [] && i < |events| - 1
    requires Expired(s, events[..|events|-1], t, i, |events| - 1)
    ensures Expired(s, events, t, i, |events| - 1)
    ensures |Execute(s, events).m.pc| == |s.m.pc| && Repairing(Execute(s, events).m.pc[t]) ==>
      Expired(s, events, t, i, |events|)
  {
    var front := events[..|events|-1];
    BeforeOfFront(s, events, i);
    forall k: nat | i < k <= |events| - 1
      ensures Before(s, events, k) == Before(s, front, k) { BeforeOfFront(s, events, k); }
  }

  lemma EntersRepair(s: State, e: Event, t: nat)
    requires t < |s.m.pc| && !Repairing(s.m.pc[t])
    requires |Perform(s, e).m.pc| == |s.m.pc| && Repairing(Perform(s, e).m.pc[t])
    ensures e == Event(t, Advance(true)) && s.m.pc[t].Kernel? && s.m.pc[t].p.Timed?
  {
  }

  lemma EndsWithNothing(s: State, e: Event, t: nat)
    requires t < |s.m.pc| && !s.m.pc[t].Done? && ThreadOk(s.m.pc[t])
    requires |Perform(s, e).m.pc| == |s.m.pc|
    requires var pc := Perform(s, e).m.pc[t]; pc.Done? && pc.n == 0 && pc.want > 0 && pc.p.Timed?
    ensures e.thread == t && e.action.Advance? && s.m.pc[t].RepairCas? && s.m.count == s.m.pc[t].seen && s.m.count < 0
  {
  }

  lemma ExpiresNow(s: State, events: seq<Event>, t: nat)
    requires t < |s.m.pc| && events != []
    requires var m := Execute(s, events[..|events|-1]).m; |m.pc| == |s.m.pc| && !Repairing(m.pc[t])
    requires |Execute(s, events).m.pc| == |s.m.pc| && Repairing(Execute(s, events).m.pc[t])
    ensures Expired(s, events, t, |events| - 1, |events|)
  {
    var i := |events| - 1;
    EntersRepair(Execute(s, events[..i]), events[i], t);
    assert events[..|events|] == events;
  }

  lemma {:induction false} RepairIsAfterTimeout(s: State, events: seq<Event>, t: nat) returns (i: nat)
    requires Initial(s) && t < |Execute(s, events).m.pc| == |s.m.pc| && Repairing(Execute(s, events).m.pc[t])
    ensures i < |events| && Expired(s, events, t, i, |events|)
  {
    i := 0;
    if events == [] {
      assert false;
    } else {
      var front := events[..|events|-1];
      OthersKeep(s, events, t);
      if Repairing(Execute(s, front).m.pc[t]) {
        i := RepairIsAfterTimeout(s, front, t);
        ExpiredLonger(s, events, t, i);
      } else {
        i := |events| - 1;
        ExpiresNow(s, events, t);
      }
    }
  }

  /** Thread t is in one call from event i on. */
  ghost predicate StillInCall(s: State, events: seq<Event>, t: nat, i: nat)
    requires t < |s.m.pc|
  {
    forall k: nat {:trigger Before(s, events, k)} :: i <= k <= |events| ==>
      |Before(s, events, k).pc| == |s.m.pc| && !Before(s, events, k).pc[t].Out?
  }

  /** What a timed wait must have gone through to return nothing, as its last event so far or earlier. */
  ghost predicate TimedOut(s: State, events: seq<Event>, t: nat, i: nat, j: nat)
    requires t < |s.m.pc| && i < j < |events|
  {
    Expired(s, events, t, i, j) && GaveBack(s, events, t, j) && StillInCall(s, events, t, i)
  }

  /** In every interleaving a timed wait for a positive number of permits that returns 0 has waited in the kernel until
      its timeout, and has afterwards found the count negative: nobody had signalled for it. */
  lemma {:induction false} NothingOnlyAfterTimeout(s: State, events: seq<Event>, t: nat) returns (i: nat, j: nat)
    requires Initial(s) && t < |Execute(s, events).m.pc| == |s.m.pc|
    requires var pc := Execute(s, events).m.pc[t]; pc.Done? && pc.n == 0 && pc.want > 0 && pc.p.Timed?
    ensures i < j < |events| && TimedOut(s, events, t, i, j)
  {
    i, j := 0, 0;
    if events == [] {
      assert false;
    } else {
      var front := events[..|events|-1];
      OthersKeep(s, events, t);
      RunKeepsInv(s, front);
      var p := Execute(s, front);
      assert ThreadOk(p.m.pc[t]);
      if p.m.pc[t].Done? {
        SameCallStill(p, events[|events|-1], t);
        i, j := NothingOnlyAfterTimeout(s, front, t);
        TimedOutLonger(s, events, t, i, j);
      } else {
        j := |events| - 1;
        EndsWithNothing(p, events[j], t);
        i := RepairIsAfterTimeout(s, front, t);
        ExpiredLonger(s, events, t, i);
        BeforeOfFront(s, events, j);
        assert front[..j] == front;
        CallSinceExpiry(s, events, t, i);
      }
    }
  }

  lemma SameCallStill(s: State, e: Event, t: nat)
    requires t < |s.m.pc| && s.m.pc[t].Done? && |Perform(s, e).m.pc| == |s.m.pc| && Perform(s, e).m.pc[t].Done?
    ensures Perform(s, e).m.pc[t] == s.m.pc[t]
  {
  }

  lemma CallSinceExpiry(s: State, events: seq<Event>, t: nat, i: nat)
    requires t < |s.m.pc| && i < |events| - 1 && Expired(s, events, t, i, |events| - 1)
    requires |Execute(s, events).m.pc| == |s.m.pc| && Execute(s, events).m.pc[t].Done?
    ensures StillInCall(s, events, t, i)
  {
    assert events[..|events|] == events;
    forall k: nat | i <= k <= |events|
      ensures |Before(s, events, k).pc| == |s.m.pc| && !Before(s, events, k).pc[t].Out?
    {
      if i < k < |events| { assert Repairing(Before(s, events, k).pc[t]); }
    }
  }

  lemma TimedOutLonger(s: State, events: seq<Event>, t: nat, i: nat, j: nat)
    requires t < |s.m.pc| && events != [] && i < j < |events| - 1
    requires TimedOut(s, events[..|events|-1], t, i, j)
    requires |Execute(s, events).m.pc| == |s.m.pc| && !Execute(s, events).m.pc[t].Out?
    ensures TimedOut(s, events, t, i, j)
  {
    var front := events[..|events|-1];
    forall k: nat | k < |events|
      ensures Before(s, events, k) == Before(s, front, k) { BeforeOfFront(s, events, k); }
    assert events[..|events|] == events;
    assert front[i] == events[i] && front[j] == events[j];
    forall k: nat | i <= k <= |events|
      ensures |Before(s, events, k).pc| == |s.m.pc| && !Before(s, events, k).pc[t].Out?
    {
      if k < |events| { assert Before(s, front, k) == Before(s, events, k); }
    }
  }
}
