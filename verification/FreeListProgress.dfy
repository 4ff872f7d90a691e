/** When try_get of the free list comes back without a node, and that no call hangs on a thread that pauses. */
module FreeListProgress {
  import opened Wrappers
  import opened FreeLists

  // ----- Null is returned only for an empty list

  /** Inside try_get, the insertion that it may have to do included. */
  predicate InGet(pc: Pc) { pc.GetLoad? || Getting(pc) || (Inserting(pc) && pc.ret.ToGet?) }

  /** Bound to return null: the compare-exchange of the head has delivered null. */
  predicate Nulled(pc: Pc) { (pc.GetDrop? && pc.head.None?) || (Inserting(pc) && pc.ret == ToGet(None)) }

  /** The memory before each event, and after the last one. */
  function Memories(s: State, events: seq<Event>): (h: seq<Memory>)
    requires Sensible(s)
    ensures |h| == |events| + 1 && h[|events|] == Execute(s, events).m
  {
    (if events == [] then [] else Memories(s, events[..|events|-1])) + [Execute(s, events).m]
  }

  predicate InGetAt(m: Memory, t: nat) { t < |m.pc| && InGet(m.pc[t]) }

  /** At event j thread t, inside try_get, reads freeListHead or compares and exchanges it, and it is null; up to event
      k it is in the same call. */
  ghost predicate SawEmpty(h: seq<Memory>, events: seq<Event>, t: nat, j: nat, k: nat)
    requires |h| == |events| + 1
  {
    && j < |events| && j <= k <= |events|
    && events[j] == Event(t, Advance)
    && t < |h[j].pc| && h[j].head == None && (h[j].pc[t].GetLoad? || h[j].pc[t].GetCas?)
    && forall i :: j <= i <= k ==> InGetAt(h[i], t)
  }

  lemma {:induction false} SameThreads(s: State, events: seq<Event>)
    requires Sensible(s)
    ensures |Execute(s, events).m.pc| == |s.m.pc|
  {
    if events != [] { SameThreads(s, events[..|events|-1]); }
  }

  lemma SawEmptyLonger(h: seq<Memory>, events: seq<Event>, t: nat, j: nat, m: Memory, e: Event)
    requires |h| == |events| + 1 && SawEmpty(h, events, t, j, |events|)
    ensures SawEmpty(h + [m], events + [e], t, j, |events|)
    ensures InGetAt(m, t) ==> SawEmpty(h + [m], events + [e], t, j, |events| + 1)
  {
    var h', events' := h + [m], events + [e];
    assert events'[j] == events[j];
    forall i | j <= i <= |events| ensures InGetAt(h'[i], t) { assert h'[i] == h[i]; }
  }

  lemma BecomesNulled(s: State, e: Event, t: nat)
    requires Sensible(s) && t < |s.m.pc| && !Nulled(s.m.pc[t])
    requires t < |Perform(s, e).m.pc| && Nulled(Perform(s, e).m.pc[t])
    ensures e == Event(t, Advance) && s.m.pc[t].GetCas? && s.m.head == None
  {
  }

  lemma SeesEmptyNow(h: seq<Memory>, events: seq<Event>, t: nat, m: Memory, e: Event)
    requires |h| == |events| + 1 && e == Event(t, Advance)
    requires var last := h[|events|]; t < |last.pc| && (last.pc[t].GetCas? || last.pc[t].GetLoad?) && last.head == None
    ensures SawEmpty(h + [m], events + [e], t, |events|, |events|)
    ensures InGetAt(m, t) ==> SawEmpty(h + [m], events + [e], t, |events|, |events| + 1)
  {
  }

  lemma MemoriesOf(s: State, events: seq<Event>, e: Event)
    requires Sensible(s)
    ensures Memories(s, events + [e]) == Memories(s, events) + [Execute(s, events + [e]).m]
    ensures Execute(s, events + [e]) == Perform(Execute(s, events), e)
  {
    assert (events + [e])[..|events|] == events;
  }

  lemma {:induction false} NullWasSeen(s: State, events: seq<Event>, t: nat) returns (j: nat)
    requires Initial(s) && t < |Execute(s, events).m.pc| && Nulled(Execute(s, events).m.pc[t])
    ensures SawEmpty(Memories(s, events), events, t, j, |events|)
  {
    j := 0;
    if events == [] {
      assert false;
    } else {
      var front, e := events[..|events|-1], events[|events|-1];
      var m := Execute(s, events).m;
      assert events == front + [e];
      MemoriesOf(s, front, e);
      SameThreads(s, front);
      SameThreads(s, events);
      if Nulled(Execute(s, front).m.pc[t]) {
        j := NullWasSeen(s, front, t);
        SawEmptyLonger(Memories(s, front), front, t, j, m, e);
      } else {
        j := |front|;
        BecomesNulled(Execute(s, front), e, t);
        SeesEmptyNow(Memories(s, front), front, t, m, e);
      }
    }
  }

  lemma EndsWithoutNode(m: Memory, t: nat)
    requires Typed(m) && Enabled(m, t, Advance) && InGet(m.pc[t]) && !m.pc[t].GetTake?
    ensures Step(m, t, Advance).pc[t].Idle? ==> Nulled(m.pc[t]) || (m.pc[t].GetLoad? && m.head == None)
  {
  }

  /** In every interleaving: when an access ends a try_get without a node, then freeListHead was null at an access of
      this very call, the last one or an earlier compare-exchange of the head that failed. */
  lemma NullOnlyFromEmpty(s: State, events: seq<Event>, t: nat) returns (j: nat)
    requires Initial(s) && Enabled(Execute(s, events).m, t, Advance)
    requires var pc := Execute(s, events).m.pc[t]; InGet(pc) && !pc.GetTake?
    requires Step(Execute(s, events).m, t, Advance).pc[t].Idle?
    ensures var events' := events + [Event(t, Advance)]; SawEmpty(Memories(s, events'), events', t, j, |events|)
  {
    var e, m := Event(t, Advance), Execute(s, events + [Event(t, Advance)]).m;
    MemoriesOf(s, events, e);
    EndsWithoutNode(Execute(s, events).m, t);
    if Nulled(Execute(s, events).m.pc[t]) {
      j := NullWasSeen(s, events, t);
      SawEmptyLonger(Memories(s, events), events, t, j, m, e);
    } else {
      j := |events|;
      SeesEmptyNow(Memories(s, events), events, t, m, e);
    }
  }

  // ----- Every call ends once the others pause

  /** Thread t alone ends its call within k accesses. */
  predicate Ends(m: Memory, t: nat, k: nat)
    requires Typed(m) && t < |m.pc|
    decreases k
  {
    m.pc[t].Idle? || (k > 0 && (StepTyped(m, t); Ends(Step(m, t, Advance), t, k - 1)))
  }

  lemma {:induction false} EndsLater(m: Memory, t: nat, k: nat, l: nat)
    requires Typed(m) && t < |m.pc| && Ends(m, t, k) && k <= l
    ensures Ends(m, t, l)
    decreases k
  {
    if !m.pc[t].Idle? { StepTyped(m, t); EndsLater(Step(m, t, Advance), t, k - 1, l - 1); }
  }

  /** One access, to a state that is given. */
  lemma Via(m: Memory, t: nat, m1: Memory, k: nat)
    requires Typed(m) && t < |m.pc| && !m.pc[t].Idle? && m1 == Step(m, t, Advance)
    requires Typed(m1) && |m1.pc| == |m.pc| && Ends(m1, t, k)
    ensures Ends(m, t, k + 1)
  {
  }

  predicate Usable(m: Memory, n: nat) { n < |m.refs| && 1 <= m.refs[n] < SHOULD_BE_ON_FREELIST - 1 }

  /** From a node seen as head to the compare-exchange of the head. */
  lemma ReachesCas(m: Memory, t: nat, n: nat, k: nat)
    requires Typed(m) && t < |m.pc| && m.pc[t] == GetRefs(n) && Usable(m, n)
    requires Ends(m.(refs := m.refs[n := m.refs[n] + 1], pc := m.pc[t := GetCas(n, m.next[n])]), t, k)
    ensures Ends(m, t, k + 3)
  {
    var r := m.refs[n];
    var m1 := m.(pc := m.pc[t := GetInc(n, r)]);
    var m2 := m.(refs := m.refs[n := r + 1], pc := m.pc[t := GetNext(n)]);
    var m3 := m2.(pc := m.pc[t := GetCas(n, m.next[n])]);
    Via(m2, t, m3, k);
    Via(m1, t, m2, k + 1);
    Via(m, t, m1, k + 2);
  }

  lemma WinsCas(m: Memory, t: nat, n: nat, x: Option<nat>)
    requires Typed(m) && t < |m.pc| && m.pc[t] == GetCas(n, x) && m.head == Some(n) && 2 <= m.refs[n] < SHOULD_BE_ON_FREELIST
    ensures Ends(m, t, 2)
  {
    var m1 := m.(head := x, pc := m.pc[t := GetTake(n)]);
    var m2 := m1.(refs := m.refs[n := m.refs[n] - 2], pc := m.pc[t := Idle]);
    Via(m1, t, m2, 0);
    Via(m, t, m1, 1);
  }

  /** The head has not moved: the node is taken. */
  lemma FreshEnds(m: Memory, t: nat, n: nat)
    requires Typed(m) && t < |m.pc| && m.pc[t] == GetRefs(n) && m.head == Some(n) && Usable(m, n)
    ensures Ends(m, t, 5)
  {
    WinsCas(m.(refs := m.refs[n := m.refs[n] + 1], pc := m.pc[t := GetCas(n, m.next[n])]), t, n, m.next[n]);
    ReachesCas(m, t, n, 2);
  }

  /** A drop that is not the last one goes on with the head delivered. */
  lemma DropEnds(m: Memory, t: nat, n: nat)
    requires Typed(m) && t < |m.pc| && m.pc[t] == GetDrop(n, m.head)
    requires 1 <= m.refs[n] < WORD_MODULUS && m.refs[n] != SHOULD_BE_ON_FREELIST + 1
    requires m.head.Some? ==>
      if m.head.value == n then 2 <= m.refs[n] < SHOULD_BE_ON_FREELIST else Usable(m, m.head.value)
    ensures Ends(m, t, 6)
  {
    var m1 := m.(refs := m.refs[n := m.refs[n] - 1], pc := m.pc[t := Loop(m.head)]);
    if m.head.Some? { FreshEnds(m1, t, m.head.value); }
    Via(m, t, m1, 5);
  }

  lemma LosesCas(m: Memory, t: nat, g: nat, x: Option<nat>)
    requires Typed(m) && t < |m.pc| && m.pc[t] == GetCas(g, x) && m.head.Some? && m.head.value != g
    requires 2 <= m.refs[g] < SHOULD_BE_ON_FREELIST && Usable(m, m.head.value)
    ensures Ends(m, t, 7)
  {
    var m1 := m.(pc := m.pc[t := GetDrop(g, m.head)]);
    DropEnds(m1, t, g);
    Via(m, t, m1, 6);
  }

  /** A node that is on the list but perhaps no longer its head: at most one more round. */
  lemma ListedEnds(m: Memory, t: nat, g: nat)
    requires Typed(m) && t < |m.pc| && m.pc[t] == GetRefs(g) && Usable(m, g)
    requires m.head.Some? && Usable(m, m.head.value)
    ensures Ends(m, t, 10)
  {
    if m.head == Some(g) {
      FreshEnds(m, t, g);
      EndsLater(m, t, 5, 10);
    } else {
      LosesCas(m.(refs := m.refs[g := m.refs[g] + 1], pc := m.pc[t := GetCas(g, m.next[g])]), t, g, m.next[g]);
      ReachesCas(m, t, g, 7);
    }
  }

  /** The next access, with the invariant. */
  lemma Next(m: Memory, b: Book, t: nat) returns (m1: Memory, b1: Book)
    requires Inv(m, b) && t < |m.pc| && !m.pc[t].Idle?
    ensures m1 == Step(m, t, Advance) && Inv(m1, b1) && |m1.pc| == |m.pc|
    ensures forall k: nat {:trigger Ends(m1, t, k)} :: Ends(m1, t, k) ==> Ends(m, t, k + 1)
  {
    StepKeepsInv(m, b, t, Advance);
    StepTyped(m, t);
    m1, b1 := Step(m, t, Advance), Track(m, b, t, Advance);
  }

  lemma LoadEnds(m: Memory, b: Book, t: nat)
    requires Inv(m, b) && t < |m.pc| && m.pc[t].GetLoad?
    ensures Ends(m, t, 6)
  {
    if m.head.Some? { ListedWord(m, b, t, m.head.value); }
    var m1, b1 := Next(m, b, t);
    if m.head.Some? { FreshEnds(m1, t, m.head.value); } else { EndsLater(m1, t, 0, 5); }
  }

  lemma HolderWord(m: Memory, b: Book, t: nat, n: nat)
    requires Inv(m, b) && t < |m.pc| && n < |m.refs| && Holds(m.pc[t], n)
    ensures 1 <= m.refs[n] < WORD_MODULUS && m.refs[n] != SHOULD_BE_ON_FREELIST
    ensures b.place[n].Listed? ==> 2 <= m.refs[n] < SHOULD_BE_ON_FREELIST
    ensures m.refs[n] >= SHOULD_BE_ON_FREELIST ==> !b.place[n].Listed?
  {
    WordInRange(m, b, n);
    HolderCounts(m.pc, t, n);
    assert NodeOk(m, b, n);
  }

  lemma FreshInsertion(m: Memory, t: nat, n: nat, ret: Return, k: nat)
    requires Typed(m) && t < |m.pc| && m.pc[t] == InsLoad(n, ret)
    requires Ends(m.(head := Some(n), next := m.next[n := m.head], refs := m.refs[n := 1], pc := m.pc[t := Resume(ret)]), t, k)
    ensures Ends(m, t, k + 4)
  {
    var m2 := m.(pc := m.pc[t := InsNext(n, m.head, ret)]);
    var m3 := m2.(next := m.next[n := m.head], pc := m.pc[t := InsRefs(n, m.head, ret)]);
    var m4 := m3.(refs := m.refs[n := 1], pc := m.pc[t := InsCas(n, m.head, ret)]);
    var m5 := m4.(head := Some(n), pc := m.pc[t := Resume(ret)]);
    Via(m4, t, m5, k);
    Via(m3, t, m4, k + 1);
    Via(m2, t, m3, k + 2);
    Via(m, t, m2, k + 3);
  }

  lemma LastDropEnds(m: Memory, t: nat, n: nat)
    requires Typed(m) && t < |m.pc| && m.pc[t] == GetDrop(n, m.head) && m.refs[n] == SHOULD_BE_ON_FREELIST + 1
    requires m.head.Some? ==> m.head.value != n && Usable(m, m.head.value)
    ensures Ends(m, t, 15)
  {
    var m1 := m.(refs := m.refs[n := SHOULD_BE_ON_FREELIST], pc := m.pc[t := InsLoad(n, ToGet(m.head))]);
    var m5 := m.(head := Some(n), next := m.next[n := m.head], refs := m.refs[n := 1], pc := m.pc[t := Loop(m.head)]);
    if m.head.Some? { ListedEnds(m5, t, m.head.value); }
    assert m5 == m1.(head := Some(n), next := m1.next[n := m1.head], refs := m1.refs[n := 1], pc := m1.pc[t := Resume(ToGet(m.head))]);
    FreshInsertion(m1, t, n, ToGet(m.head), 10);
    Via(m, t, m1, 14);
  }

  /** A drop with the head that is still there. */
  lemma FreshDropEnds(m: Memory, b: Book, t: nat)
    requires Inv(m, b) && t < |m.pc| && m.pc[t].GetDrop? && m.pc[t].head == m.head
    ensures Ends(m, t, 15)
  {
    var n := m.pc[t].node;
    HolderWord(m, b, t, n);
    if m.head.Some? && m.head.value != n { ListedWord(m, b, t, m.head.value); }
    if m.refs[n] == SHOULD_BE_ON_FREELIST + 1 {
      LastDropEnds(m, t, n);
    } else {
      DropEnds(m, t, n);
      EndsLater(m, t, 6, 15);
    }
  }

  lemma TakeEnds(m: Memory, t: nat)
    requires Typed(m) && t < |m.pc| && m.pc[t].GetTake?
    ensures Ends(m, t, 1)
  {
    StepTyped(m, t);
  }

  lemma CasEnds(m: Memory, b: Book, t: nat)
    requires Inv(m, b) && t < |m.pc| && m.pc[t].GetCas?
    ensures Ends(m, t, 16)
  {
    var m1, b1 := Next(m, b, t);
    if m1.pc[t].GetTake? {
      TakeEnds(m1, t);
      EndsLater(m1, t, 1, 15);
    } else {
      FreshDropEnds(m1, b1, t);
    }
  }

  lemma NextEnds(m: Memory, b: Book, t: nat)
    requires Inv(m, b) && t < |m.pc| && m.pc[t].GetNext?
    ensures Ends(m, t, 17)
  {
    var m1, b1 := Next(m, b, t);
    CasEnds(m1, b1, t);
  }

  lemma IncEnds(m: Memory, b: Book, t: nat)
    requires Inv(m, b) && t < |m.pc| && m.pc[t].GetInc?
    ensures Ends(m, t, 18)
  {
    var m1, b1 := Next(m, b, t);
    if m1.pc[t].GetNext? {
      NextEnds(m1, b1, t);
    } else {
      LoadEnds(m1, b1, t);
      EndsLater(m1, t, 6, 17);
    }
  }

  /** A head read at any time before. */
  lemma StaleEnds(m: Memory, b: Book, t: nat)
    requires Inv(m, b) && t < |m.pc| && m.pc[t].GetRefs?
    ensures Ends(m, t, 19)
  {
    var m1, b1 := Next(m, b, t);
    if m1.pc[t].GetInc? {
      IncEnds(m1, b1, t);
    } else {
      LoadEnds(m1, b1, t);
      EndsLater(m1, t, 6, 18);
    }
  }

  /** Back from the insertion. */
  lemma ResumeEnds(m: Memory, b: Book, t: nat, ret: Return)
    requires Inv(m, b) && t < |m.pc| && m.pc[t] == Resume(ret)
    ensures Ends(m, t, 19)
  {
    if m.pc[t].GetRefs? { StaleEnds(m, b, t); }
  }

  /** The insertion, from any of its accesses; `fresh`: its local head is the head. */
  lemma InsCasFresh(m: Memory, b: Book, t: nat)
    requires Inv(m, b) && t < |m.pc| && m.pc[t].InsCas? && m.pc[t].head == m.head
    ensures Ends(m, t, 20)
  {
    var m1, b1 := Next(m, b, t);
    ResumeEnds(m1, b1, t, m.pc[t].ret);
  }

  lemma InsNextFresh(m: Memory, b: Book, t: nat)
    requires Inv(m, b) && t < |m.pc| && m.pc[t].InsNext? && m.pc[t].head == m.head
    ensures Ends(m, t, 22)
  {
    var m1, b1 := Next(m, b, t);
    var m2, b2 := Next(m1, b1, t);
    InsCasFresh(m2, b2, t);
    assert Ends(m1, t, 21);
  }

  lemma InsBackFresh(m: Memory, b: Book, t: nat)
    requires Inv(m, b) && t < |m.pc| && m.pc[t].InsBack? && m.pc[t].head == m.head
    ensures Ends(m, t, 23)
  {
    var m1, b1 := Next(m, b, t);
    if m1.pc[t].InsNext? {
      InsNextFresh(m1, b1, t);
    } else {
      ResumeEnds(m1, b1, t, m.pc[t].ret);
      EndsLater(m1, t, 19, 22);
    }
  }

  lemma InsCasEnds(m: Memory, b: Book, t: nat)
    requires Inv(m, b) && t < |m.pc| && m.pc[t].InsCas?
    ensures Ends(m, t, 24)
  {
    if m.pc[t].head == m.head {
      InsCasFresh(m, b, t);
      EndsLater(m, t, 20, 24);
    } else {
      var m1, b1 := Next(m, b, t);
      InsBackFresh(m1, b1, t);
    }
  }

  lemma InsNextEnds(m: Memory, b: Book, t: nat)
    requires Inv(m, b) && t < |m.pc| && (m.pc[t].InsNext? || m.pc[t].InsRefs?)
    ensures Ends(m, t, 26)
  {
    var m1, b1 := Next(m, b, t);
    if m1.pc[t].InsCas? {
      InsCasEnds(m1, b1, t);
      EndsLater(m1, t, 24, 25);
    } else {
      var m2, b2 := Next(m1, b1, t);
      InsCasEnds(m2, b2, t);
      assert Ends(m1, t, 25);
    }
  }

  lemma InsertionEnds(m: Memory, b: Book, t: nat)
    requires Inv(m, b) && t < |m.pc| && Inserting(m.pc[t])
    ensures Ends(m, t, 27)
  {
    var m1, b1 := Next(m, b, t);
    if m.pc[t].InsNext? || m.pc[t].InsRefs? {
      InsNextEnds(m, b, t);
      EndsLater(m, t, 26, 27);
    } else if m.pc[t].InsCas? {
      InsCasEnds(m, b, t);
      EndsLater(m, t, 24, 27);
    } else if m1.pc[t].InsNext? {
      InsNextEnds(m1, b1, t);
    } else {
      ResumeEnds(m1, b1, t, m.pc[t].ret);
      EndsLater(m1, t, 19, 26);
    }
  }

  lemma AnyDropEnds(m: Memory, b: Book, t: nat)
    requires Inv(m, b) && t < |m.pc| && m.pc[t].GetDrop?
    ensures Ends(m, t, 28)
  {
    var m1, b1 := Next(m, b, t);
    if m1.pc[t].InsLoad? {
      InsertionEnds(m1, b1, t);
    } else {
      ResumeEnds(m1, b1, t, ToGet(m.pc[t].head));
      EndsLater(m1, t, 19, 27);
    }
  }

  lemma GettingEnds(m: Memory, b: Book, t: nat)
    requires Inv(m, b) && t < |m.pc| && Getting(m.pc[t])
    ensures Ends(m, t, 28)
  {
    if m.pc[t].GetRefs? {
      StaleEnds(m, b, t);
      EndsLater(m, t, 19, 28);
    } else if m.pc[t].GetInc? {
      IncEnds(m, b, t);
      EndsLater(m, t, 18, 28);
    } else if m.pc[t].GetNext? {
      NextEnds(m, b, t);
      EndsLater(m, t, 17, 28);
    } else if m.pc[t].GetCas? {
      CasEnds(m, b, t);
      EndsLater(m, t, 16, 28);
    } else if m.pc[t].GetTake? {
      TakeEnds(m, t);
      EndsLater(m, t, 1, 28);
    } else {
      AnyDropEnds(m, b, t);
    }
  }

  /** No call waits for another thread: wherever the others have stopped, in any interleaving, a thread that goes on
      alone ends its call within 28 accesses. */
  lemma EveryCallEndsAlone(s: State, events: seq<Event>, t: nat)
    requires Initial(s) && t < |Execute(s, events).m.pc|
    ensures Ends(Execute(s, events).m, t, 28)
  {
    RunKeepsInv(s, events);
    var m, b := Execute(s, events).m, Execute(s, events).b;
    if Inserting(m.pc[t]) {
      InsertionEnds(m, b, t);
      EndsLater(m, t, 27, 28);
    } else if m.pc[t].GetLoad? {
      LoadEnds(m, b, t);
      EndsLater(m, t, 6, 28);
    } else if Getting(m.pc[t]) {
      GettingEnds(m, b, t);
    }
  }
}
