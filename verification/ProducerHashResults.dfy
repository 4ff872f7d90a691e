/** When a thread gets an implicit producer from the hash tables of concurrentqueue.h: it goes away without one only
    after a failed allocation, and alone with memory to be had it always gets one. */
module ProducerHashResults {
  import opened Wrappers
  import opened Bits
  import opened ProducerHash
  import opened ProducerHashProof

  // ----- Null only after a failed allocation

  /** On the way to return null, or there. */
  predicate Failing(pc: Pc) { pc.CountDown? || pc.UnlockFailed? || pc == Done(None) }

  predicate FailingAt(m: Memory, t: nat) { t < |m.pc| && Failing(m.pc[t]) }

  /** The memory before each event, and after the last one. */
  function Memories(c: Config, s: State, run: seq<Event>): (h: seq<Memory>)
    requires |s.b.num| == |s.m.pc|
    ensures |h| == |run| + 1 && h[|run|] == Execute(c, s, run).m
  {
    (if run == [] then [] else Memories(c, s, run[..|run|-1])) + [Execute(c, s, run).m]
  }

  /** At event j an allocation of thread t fails, of a table or of a producer; from then on it is about to return null. */
  ghost predicate AllocationFailed(h: seq<Memory>, run: seq<Event>, t: nat, j: nat)
    requires |h| == |run| + 1
  {
    && j < |run| && run[j] == Event(t, Advance(false))
    && t < |h[j].pc| && (h[j].pc[t].Allocate? || h[j].pc[t].Create?)
    && forall i :: j < i <= |run| ==> FailingAt(h[i], t)
  }

  lemma MemoriesOf(c: Config, s: State, run: seq<Event>, e: Event)
    requires |s.b.num| == |s.m.pc|
    ensures Memories(c, s, run + [e]) == Memories(c, s, run) + [Execute(c, s, run + [e]).m]
    ensures Execute(c, s, run + [e]) == Perform(c, Execute(c, s, run), e)
  {
    assert (run + [e])[..|run|] == run;
  }

  lemma FailedLonger(h: seq<Memory>, run: seq<Event>, t: nat, j: nat, m: Memory, e: Event)
    requires |h| == |run| + 1 && AllocationFailed(h, run, t, j) && FailingAt(m, t)
    ensures AllocationFailed(h + [m], run + [e], t, j)
  {
    var h', run' := h + [m], run + [e];
    assert run'[j] == run[j];
    forall i | j < i <= |run'| ensures FailingAt(h'[i], t) { if i <= |run| { assert h'[i] == h[i]; } }
  }

  lemma FailsNow(h: seq<Memory>, run: seq<Event>, t: nat, m: Memory)
    requires |h| == |run| + 1 && FailingAt(m, t)
    requires t < |h[|run|].pc| && (h[|run|].pc[t].Allocate? || h[|run|].pc[t].Create?)
    ensures AllocationFailed(h + [m], run + [Event(t, Advance(false))], t, |run|)
  {
  }

  lemma ProbeFindsSome(c: Config, m: Memory, b: Book, t: nat, ok: bool)
    requires Inv(c, m, b) && Enabled(c, m, t, Advance(ok)) && m.pc[t].Probe?
    ensures !Failing(StepThread(c, m, t, ok).pc[t])
  {
    assert ThreadOk(c, m, b, t);
    var p := m.pc[t];
    if SlotAt(m, p.h, p.i).Taken? && SlotAt(m, p.h, p.i).key == t { ProbeFound(c, m, b, t); }
  }

  lemma OthersFail(c: Config, m: Memory, t: nat, ok: bool)
    requires Enabled(c, m, t, Advance(ok)) && !Failing(m.pc[t]) && !m.pc[t].Probe?
    ensures Failing(StepThread(c, m, t, ok).pc[t]) ==> !ok && (m.pc[t].Allocate? || m.pc[t].Create?)
  {
  }

  lemma BecomesFailing(c: Config, m: Memory, b: Book, t: nat, ok: bool)
    requires Inv(c, m, b) && Enabled(c, m, t, Advance(ok)) && !Failing(m.pc[t])
    ensures Failing(StepThread(c, m, t, ok).pc[t]) ==> !ok && (m.pc[t].Allocate? || m.pc[t].Create?)
  {
    if m.pc[t].Probe? { ProbeFindsSome(c, m, b, t, ok); } else { OthersFail(c, m, t, ok); }
  }

  lemma StartsFailing(c: Config, p: State, e: Event, t: nat)
    requires |p.b.num| == |p.m.pc| && Inv(c, p.m, p.b)
    requires t < |p.m.pc| && !Failing(p.m.pc[t]) && FailingAt(Perform(c, p, e).m, t)
    ensures e == Event(t, Advance(false)) && (p.m.pc[t].Allocate? || p.m.pc[t].Create?)
  {
    if Enabled(c, p.m, e.thread, e.action) && e.thread == t && e.action.Advance? {
      BecomesFailing(c, p.m, p.b, t, e.action.ok);
    }
  }

  lemma {:induction false} SameThreads(c: Config, s: State, run: seq<Event>)
    requires |s.b.num| == |s.m.pc|
    ensures |Execute(c, s, run).m.pc| == |s.m.pc|
  {
    if run != [] { SameThreads(c, s, run[..|run|-1]); }
  }

  /** In every interleaving: a call that returns null, or is about to, has asked for memory and not got it. */
  lemma {:induction false} NullOnlyWithoutMemory(c: Config, s: State, cap: nat, run: seq<Event>, t: nat) returns (j: nat)
    requires Initial(c, s, cap) && FailingAt(Execute(c, s, run).m, t)
    ensures AllocationFailed(Memories(c, s, run), run, t, j)
  {
    j := 0;
    if run == [] {
      assert false;
    } else {
      var front, e := run[..|run|-1], run[|run|-1];
      var m := Execute(c, s, run).m;
      assert run == front + [e];
      MemoriesOf(c, s, front, e);
      SameThreads(c, s, front);
      SameThreads(c, s, run);
      if FailingAt(Execute(c, s, front).m, t) {
        j := NullOnlyWithoutMemory(c, s, cap, front, t);
        FailedLonger(Memories(c, s, front), front, t, j, m, e);
      } else {
        j := |front|;
        RunKeepsInv(c, s, cap, front);
        StartsFailing(c, Execute(c, s, front), e, t);
        FailsNow(Memories(c, s, front), front, t, m);
      }
    }
  }

  // ----- Alone, with memory

  /** The key of t with value p is in table h. */
  predicate StoredIn(m: Memory, t: nat, h: nat, p: nat) {
    h < |m.tables| && exists s :: 0 <= s < |m.tables[h].slots| && m.tables[h].slots[s] == Taken(t, Some(p))
  }

  /** If a thread has been counted beyond `before`, the newest table is less than half full. */
  predicate Roomy(m: Memory, before: int) {
    m.main < |m.tables| && (m.count == before || m.count < Cap(m, m.main) / 2)
  }

  /** Where a call that runs alone is to end: with its key in the newest table, which is less than half full if the call has
      been counted; or anywhere. */
  datatype Aim = Newest(before: int) | Anywhere

  /** Thread t, alone and with every allocation granted, returns a producer after k accesses, with which its key is then
      in a table, as the aim says. */
  ghost predicate Gets(c: Config, m: Memory, t: nat, k: nat, aim: Aim)
    decreases k
  {
    if t < |m.pc| && m.pc[t].Done? then
      && m.pc[t].result.Some?
      && if aim.Newest? then StoredIn(m, t, m.main, m.pc[t].result.value) && Roomy(m, aim.before)
         else exists h :: 0 <= h < |m.tables| && StoredIn(m, t, h, m.pc[t].result.value)
    else
      k > 0 && Enabled(c, m, t, Advance(true)) && Gets(c, StepThread(c, m, t, true), t, k - 1, aim)
  }

  /** The next access, with the invariant. */
  lemma Next(c: Config, m: Memory, b: Book, t: nat, aim: Aim) returns (m1: Memory, b1: Book)
    requires Inv(c, m, b) && t < |m.pc| && !m.pc[t].Idle? && !m.pc[t].Done?
    ensures Enabled(c, m, t, Advance(true)) && m1 == StepThread(c, m, t, true) && Inv(c, m1, b1) && |m1.pc| == |m.pc|
    ensures forall k: nat {:trigger Gets(c, m1, t, k, aim)} :: Gets(c, m1, t, k, aim) ==> Gets(c, m, t, k + 1, aim)
  {
    AdvanceKeepsInv(c, m, b, t, true);
    m1, b1 := StepThread(c, m, t, true), Track(c, m, b, t, Advance(true));
  }

  lemma StoreGets(c: Config, m: Memory, b: Book, t: nat, aim: Aim) returns (k: nat)
    requires Inv(c, m, b) && t < |m.pc| && (m.pc[t].CopyStore? || m.pc[t].InsertStore?)
    requires aim.Newest? ==> m.pc[t].main == m.main && Roomy(m, aim.before)
    ensures Gets(c, m, t, k, aim)
  {
    var x := m.pc[t];
    var m1, b1 := Next(c, m, b, t, aim);
    assert m1.tables[x.main].slots[x.i % Cap(m, x.main)] == Taken(t, Some(x.p));
    assert StoredIn(m1, t, x.main, x.p);
    assert Gets(c, m1, t, 0, aim);
    k := 1;
  }

  lemma CasFreeGets(c: Config, m: Memory, b: Book, t: nat, aim: Aim) returns (k: nat)
    requires Inv(c, m, b) && t < |m.pc| && (m.pc[t].CopyCas? || m.pc[t].InsertCas?)
    requires m.pc[t].main < |m.tables| && SlotAt(m, m.pc[t].main, m.pc[t].i).Free?
    requires aim.Newest? ==> m.pc[t].main == m.main && Roomy(m, aim.before)
    ensures Gets(c, m, t, k, aim)
  {
    var m1, b1 := Next(c, m, b, t, aim);
    k := StoreGets(c, m1, b1, t, aim);
    k := k + 1;
  }

  lemma SeekBound(c: Config, m: Memory, b: Book, t: nat)
    requires Inv(c, m, b) && t < |m.pc| && (m.pc[t].CopyProbe? || m.pc[t].InsertProbe?)
    ensures m.pc[t].main < |m.tables| && m.pc[t].i < c.hashed[t] + Cap(m, m.pc[t].main)
  {
    assert ThreadOk(c, m, b, t);
    assert TableOk(m.tables[m.pc[t].main].slots, c, b);
    ProbeEnds(c, m, b, m.pc[t].main, c.hashed[t], m.pc[t].i);
  }

  /** The search for a free slot ends, and the thread puts its key there. */
  lemma {:induction false} SeekGets(c: Config, m: Memory, b: Book, t: nat, left: nat, aim: Aim) returns (k: nat)
    requires Inv(c, m, b) && t < |m.pc| && (m.pc[t].CopyProbe? || m.pc[t].InsertProbe?)
    requires m.pc[t].main < |m.tables| && left == c.hashed[t] + Cap(m, m.pc[t].main) - m.pc[t].i
    requires aim.Newest? ==> m.pc[t].main == m.main && Roomy(m, aim.before)
    ensures Gets(c, m, t, k, aim)
    decreases left
  {
    var m1, b1 := Next(c, m, b, t, aim);
    if SlotAt(m, m.pc[t].main, m.pc[t].i).Free? {
      k := CasFreeGets(c, m1, b1, t, aim);
    } else {
      SeekBound(c, m1, b1, t);
      k := SeekGets(c, m1, b1, t, left - 1, aim);
    }
    k := k + 1;
  }

  lemma PlaceGets(c: Config, m: Memory, b: Book, t: nat, aim: Aim) returns (k: nat)
    requires Inv(c, m, b) && t < |m.pc| && (m.pc[t].CopyProbe? || m.pc[t].InsertProbe? || m.pc[t].CopyCas? || m.pc[t].InsertCas?)
    requires aim.Newest? ==> m.pc[t].main == m.main && Roomy(m, aim.before)
    ensures Gets(c, m, t, k, aim)
  {
    if m.pc[t].CopyProbe? || m.pc[t].InsertProbe? {
      SeekBound(c, m, b, t);
      k := SeekGets(c, m, b, t, c.hashed[t] + Cap(m, m.pc[t].main) - m.pc[t].i, aim);
    } else {
      assert ThreadOk(c, m, b, t);
      if SlotAt(m, m.pc[t].main, m.pc[t].i).Free? {
        k := CasFreeGets(c, m, b, t, aim);
      } else {
        var m1, b1 := Next(c, m, b, t, aim);
        SeekBound(c, m1, b1, t);
        k := SeekGets(c, m1, b1, t, c.hashed[t] + Cap(m1, m1.pc[t].main) - m1.pc[t].i, aim);
        k := k + 1;
      }
    }
  }

  lemma CreateGets(c: Config, m: Memory, b: Book, t: nat, aim: Aim) returns (k: nat)
    requires Inv(c, m, b) && t < |m.pc| && m.pc[t].Create?
    requires aim.Newest? ==> m.pc[t].main == m.main && Roomy(m, aim.before)
    ensures Gets(c, m, t, k, aim)
  {
    var m1, b1 := Next(c, m, b, t, aim);
    k := PlaceGets(c, m1, b1, t, aim);
    k := k + 1;
  }

  // ----- Through the resize

  lemma UnlockSmallGets(c: Config, m: Memory, b: Book, t: nat, aim: Aim) returns (k: nat)
    requires Inv(c, m, b) && t < |m.pc| && m.pc[t].Unlock?
    requires m.pc[t].main == m.main && m.pc[t].n < Cap(m, m.main) / 2 && (aim.Newest? ==> m.count == m.pc[t].n)
    ensures Gets(c, m, t, k, aim)
  {
    var m1, b1 := Next(c, m, b, t, aim);
    k := CreateGets(c, m1, b1, t, aim);
    k := k + 1;
  }

  /** The table that a thread allocates is big enough for its own count. */
  lemma AllocateGets(c: Config, m: Memory, b: Book, t: nat, aim: Aim) returns (k: nat)
    requires Inv(c, m, b) && t < |m.pc| && m.pc[t].Allocate?
    requires aim.Newest? ==> m.count == m.pc[t].n
    ensures Gets(c, m, t, k, aim)
  {
    assert ThreadOk(c, m, b, t);
    var m1, b1 := Next(c, m, b, t, aim);
    k := UnlockSmallGets(c, m1, b1, t, aim);
    k := k + 1;
  }

  lemma LockedLoadGets(c: Config, m: Memory, b: Book, t: nat, aim: Aim) returns (k: nat)
    requires Inv(c, m, b) && t < |m.pc| && m.pc[t].LockedLoad?
    requires aim.Newest? ==> m.count == m.pc[t].n
    ensures Gets(c, m, t, k, aim)
  {
    var m1, b1 := Next(c, m, b, t, aim);
    if m1.pc[t].Allocate? { k := AllocateGets(c, m1, b1, t, aim); } else { k := UnlockSmallGets(c, m1, b1, t, aim); }
    k := k + 1;
  }

  lemma TestLockGets(c: Config, m: Memory, b: Book, t: nat, aim: Aim) returns (k: nat)
    requires Inv(c, m, b) && t < |m.pc| && m.pc[t].TestLock? && !m.resizing
    requires aim.Newest? ==> m.count == m.pc[t].n
    ensures Gets(c, m, t, k, aim)
  {
    var m1, b1 := Next(c, m, b, t, aim);
    k := LockedLoadGets(c, m1, b1, t, aim);
    k := k + 1;
  }

  lemma AfterCountGets(c: Config, m: Memory, b: Book, t: nat, main: nat, n: nat, aim: Aim) returns (k: nat)
    requires Inv(c, m, b) && t < |m.pc| && main < |m.tables| && m.pc[t] == AfterCount(m, main, n) && !m.resizing
    requires aim.Newest? ==> main == m.main && m.count == n
    ensures Gets(c, m, t, k, aim)
  {
    if m.pc[t].TestLock? { k := TestLockGets(c, m, b, t, aim); } else { k := CreateGets(c, m, b, t, aim); }
  }

  lemma CountUpGets(c: Config, m: Memory, b: Book, t: nat, aim: Aim) returns (k: nat)
    requires Inv(c, m, b) && t < |m.pc| && m.pc[t].CountUp? && !m.resizing
    requires aim.Newest? ==> m.pc[t].main == m.main && Roomy(m, aim.before)
    ensures Gets(c, m, t, k, aim)
  {
    var m1, b1 := Next(c, m, b, t, aim);
    assert m1.tables == m.tables;
    k := AfterCountGets(c, m1, b1, t, m.pc[t].main, if m.count >= 0 then m.count + 1 else 0, aim);
    k := k + 1;
  }

  lemma ReloadGets(c: Config, m: Memory, b: Book, t: nat, aim: Aim) returns (k: nat)
    requires Inv(c, m, b) && t < |m.pc| && m.pc[t].Reload? && !m.resizing
    requires aim.Newest? ==> m.count == m.pc[t].n
    ensures Gets(c, m, t, k, aim)
  {
    var m1, b1 := Next(c, m, b, t, aim);
    k := AfterCountGets(c, m1, b1, t, m.main, m.pc[t].n, aim);
    k := k + 1;
  }

  /** Whoever holds the lock needs nobody else. */
  lemma UnlockGets(c: Config, m: Memory, b: Book, t: nat) returns (k: nat)
    requires Inv(c, m, b) && t < |m.pc| && m.pc[t].Unlock?
    ensures Gets(c, m, t, k, Anywhere)
  {
    var m1, b1 := Next(c, m, b, t, Anywhere);
    if m1.pc[t].Create? { k := CreateGets(c, m1, b1, t, Anywhere); } else { k := ReloadGets(c, m1, b1, t, Anywhere); }
    k := k + 1;
  }

  // ----- The search through the tables

  lemma ProbeBound(c: Config, m: Memory, b: Book, t: nat)
    requires Inv(c, m, b) && t < |m.pc| && m.pc[t].Probe?
    ensures m.pc[t].h <= m.pc[t].main < |m.tables| && m.pc[t].i < c.hashed[t] + Cap(m, m.pc[t].h)
    ensures m.tables[m.pc[t].h].prev == if m.pc[t].h == 0 then None else Some(m.pc[t].h - 1)
  {
    assert ThreadOk(c, m, b, t);
    var p := m.pc[t];
    var slots := m.tables[p.h].slots;
    assert TableOk(slots, c, b);
    forall i {:trigger Filled(slots, i)} | c.hashed[t] <= i < p.i ensures Filled(slots, i) { }
    ProbeEnds(c, m, b, p.h, c.hashed[t], p.i);
  }

  lemma FoundGets(c: Config, m: Memory, b: Book, t: nat, aim: Aim) returns (k: nat)
    requires Inv(c, m, b) && t < |m.pc| && m.pc[t].Probe? && m.pc[t].h < |m.tables|
    requires SlotAt(m, m.pc[t].h, m.pc[t].i).Taken? && SlotAt(m, m.pc[t].h, m.pc[t].i).key == t
    requires aim.Newest? ==> m.pc[t].main == m.main && Roomy(m, aim.before)
    ensures Gets(c, m, t, k, aim)
  {
    var p := m.pc[t];
    ProbeFound(c, m, b, t);
    var m1, b1 := Next(c, m, b, t, aim);
    if p.h != p.main {
      k := PlaceGets(c, m1, b1, t, aim);
    } else {
      assert m1.tables[p.h].slots[p.i % Cap(m, p.h)] == Taken(t, Some(SlotAt(m, p.h, p.i).value.value));
      assert StoredIn(m1, t, p.h, SlotAt(m, p.h, p.i).value.value);
      k := 0;
      assert Gets(c, m1, t, 0, aim);
    }
    k := k + 1;
  }

  lemma {:induction false} ProbeGets(c: Config, m: Memory, b: Book, t: nat, h: nat, left: nat, aim: Aim) returns (k: nat)
    requires Inv(c, m, b) && t < |m.pc| && m.pc[t].Probe? && !m.resizing
    requires m.pc[t].h == h < |m.tables| && left == c.hashed[t] + Cap(m, h) - m.pc[t].i
    requires aim.Newest? ==> m.pc[t].main == m.main && Roomy(m, aim.before)
    ensures Gets(c, m, t, k, aim)
    decreases h, left
  {
    ProbeBound(c, m, b, t);
    var p, slot := m.pc[t], SlotAt(m, h, m.pc[t].i);
    if slot.Taken? && slot.key == t {
      k := FoundGets(c, m, b, t, aim);
    } else {
      var m1, b1 := Next(c, m, b, t, aim);
      if slot.Taken? {
        ProbeBound(c, m1, b1, t);
        k := ProbeGets(c, m1, b1, t, h, left - 1, aim);
      } else if h > 0 {
        ProbeBound(c, m1, b1, t);
        k := ProbeGets(c, m1, b1, t, h - 1, Cap(m1, h - 1), aim);
      } else {
        k := CountUpGets(c, m1, b1, t, aim);
      }
      k := k + 1;
    }
  }

  lemma LoadMainGets(c: Config, m: Memory, b: Book, t: nat) returns (k: nat)
    requires Inv(c, m, b) && t < |m.pc| && m.pc[t].LoadMain? && !m.resizing
    ensures Gets(c, m, t, k, Newest(m.count))
  {
    var m1, b1 := Next(c, m, b, t, Newest(m.count));
    k := ProbeGets(c, m1, b1, t, m.main, Cap(m1, m.main), Newest(m.count));
    k := k + 1;
  }

  /** A whole call: whatever the other threads are in the middle of, as long as none of them is resizing, a thread that
      runs alone and is given the memory it asks for gets its producer, and its key is in the newest table, which is less than
      half full if the thread is new. */
  lemma AloneGetsProducer(c: Config, s: State, cap: nat, run: seq<Event>, t: nat) returns (k: nat)
    requires Initial(c, s, cap)
    requires var m := Execute(c, s, run).m; t < |m.pc| && m.pc[t].Idle? && !m.resizing
    ensures Enabled(c, Execute(c, s, run).m, t, Call)
    ensures Gets(c, Step(c, Execute(c, s, run).m, t, Call), t, k, Newest(Execute(c, s, run).m.count))
  {
    RunKeepsInv(c, s, cap, run);
    var m, b := Execute(c, s, run).m, Execute(c, s, run).b;
    CallOrReturn(c, m, b, t, LoadMain);
    k := LoadMainGets(c, Step(c, m, t, Call), b, t);
  }

  lemma GetsAnywhere(c: Config, m: Memory, t: nat, k: nat, aim: Aim)
    requires Gets(c, m, t, k, aim)
    ensures Gets(c, m, t, k, Anywhere)
    decreases k
  {
    if !(t < |m.pc| && m.pc[t].Done?) { GetsAnywhere(c, StepThread(c, m, t, true), t, k - 1, aim); }
  }

  /** And from any point of a call that has not failed yet, unless another thread is resizing. */
  lemma CallGoesOnAlone(c: Config, s: State, cap: nat, run: seq<Event>, t: nat) returns (k: nat)
    requires Initial(c, s, cap)
    requires var m := Execute(c, s, run).m;
      && t < |m.pc| && !m.pc[t].Idle? && !m.pc[t].Done? && !Failing(m.pc[t]) && (m.resizing ==> Locked(m.pc[t]))
    ensures Gets(c, Execute(c, s, run).m, t, k, Anywhere)
  {
    RunKeepsInv(c, s, cap, run);
    k := AnyGets(c, Execute(c, s, run).m, Execute(c, s, run).b, t);
  }

  /** A resize by another thread does not hold up a call either, until the table is three quarters full. */
  lemma GoesOnDuringResize(c: Config, s: State, cap: nat, run: seq<Event>, t: nat) returns (k: nat)
    requires Initial(c, s, cap)
    requires var m := Execute(c, s, run).m;
      && t < |m.pc| && m.pc[t].TestLock? && m.resizing && m.pc[t].main < |m.tables|
      && var full := Cap(m, m.pc[t].main); m.pc[t].n < full / 2 + full / 4
    ensures Gets(c, Execute(c, s, run).m, t, k, Anywhere)
  {
    RunKeepsInv(c, s, cap, run);
    var m1, b1 := Next(c, Execute(c, s, run).m, Execute(c, s, run).b, t, Anywhere);
    k := CreateGets(c, m1, b1, t, Anywhere);
    k := k + 1;
  }

  lemma AnyGets(c: Config, m: Memory, b: Book, t: nat) returns (k: nat)
    requires Inv(c, m, b) && t < |m.pc| && !m.pc[t].Idle? && !m.pc[t].Done? && !Failing(m.pc[t])
    requires m.resizing ==> Locked(m.pc[t])
    ensures Gets(c, m, t, k, Anywhere)
  {
    var pc := m.pc[t];
    if pc.LoadMain? {
      k := LoadMainGets(c, m, b, t);
      GetsAnywhere(c, m, t, k, Newest(m.count));
    } else if pc.Probe? {
      ProbeBound(c, m, b, t);
      k := ProbeGets(c, m, b, t, pc.h, c.hashed[t] + Cap(m, pc.h) - pc.i, Anywhere);
    } else if pc.CopyStore? || pc.InsertStore? {
      k := StoreGets(c, m, b, t, Anywhere);
    } else if pc.Create? {
      k := CreateGets(c, m, b, t, Anywhere);
    } else if pc.CountUp? {
      k := CountUpGets(c, m, b, t, Anywhere);
    } else if pc.TestLock? {
      k := TestLockGets(c, m, b, t, Anywhere);
    } else if pc.LockedLoad? {
      k := LockedLoadGets(c, m, b, t, Anywhere);
    } else if pc.Allocate? {
      k := AllocateGets(c, m, b, t, Anywhere);
    } else if pc.Unlock? {
      k := UnlockGets(c, m, b, t);
    } else if pc.Reload? {
      k := ReloadGets(c, m, b, t, Anywhere);
    } else {
      k := PlaceGets(c, m, b, t, Anywhere);
    }
  }

  // ----- When the tables grow, and by how much

  predicate HalfFull(m: Memory, t: nat) {
    t < |m.pc| && m.pc[t].Allocate? ==> m.pc[t].main < |m.tables| && m.pc[t].n >= Cap(m, m.pc[t].main) / 2
  }

  lemma SizesKept(c: Config, m: Memory, u: nat, ok: bool)
    requires Enabled(c, m, u, Advance(ok))
    ensures var m' := StepThread(c, m, u, ok);
      && |m.tables| <= |m'.tables| && |m'.pc| == |m.pc| && m'.pc == m.pc[u := m'.pc[u]]
      && forall h :: 0 <= h < |m.tables| ==> |m'.tables[h].slots| == |m.tables[h].slots|
  {
  }

  lemma FromLockedLoad(c: Config, m: Memory, t: nat, ok: bool)
    requires Enabled(c, m, t, Advance(ok)) && StepThread(c, m, t, ok).pc[t].Allocate?
    ensures m.pc[t].LockedLoad?
  {
  }

  lemma LockedLoadMoves(c: Config, m: Memory, t: nat, ok: bool, n: nat)
    requires Enabled(c, m, t, Advance(ok)) && m.pc[t] == LockedLoad(n)
    ensures HalfFull(Move(m, t, if n >= Cap(m, m.main) / 2 then Allocate(m.main, n) else Unlock(m.main, n)), t)
  {
  }

  lemma EntersAllocate(c: Config, m: Memory, t: nat, ok: bool)
    requires Enabled(c, m, t, Advance(ok)) && StepThread(c, m, t, ok).pc[t].Allocate?
    ensures HalfFull(StepThread(c, m, t, ok), t)
  {
    FromLockedLoad(c, m, t, ok);
    LockedLoadMoves(c, m, t, ok, m.pc[t].n);
  }

  lemma StepKeepsHalfFull(c: Config, m: Memory, u: nat, a: Action, t: nat)
    requires Enabled(c, m, u, a) && HalfFull(m, t)
    ensures HalfFull(Step(c, m, u, a), t)
  {
    if a.Advance? {
      SizesKept(c, m, u, a.ok);
      if u == t && StepThread(c, m, u, a.ok).pc[t].Allocate? { EntersAllocate(c, m, t, a.ok); }
    }
  }

  lemma {:induction false} AllocatesHalfFull(c: Config, s: State, cap: nat, run: seq<Event>, t: nat)
    requires Initial(c, s, cap)
    ensures HalfFull(Execute(c, s, run).m, t)
  {
    if run != [] {
      AllocatesHalfFull(c, s, cap, run[..|run|-1], t);
      var p, e := Execute(c, s, run[..|run|-1]), run[|run|-1];
      if Enabled(c, p.m, e.thread, e.action) { StepKeepsHalfFull(c, p.m, e.thread, e.action, t); }
    }
  }

  lemma TwiceProduct(cap: nat, p: nat)
    ensures 2 * cap * p == cap * (2 * p)
  {
  }

  /** The capacity is doubled until it is more than twice the count, and no more often. */
  lemma {:induction false} LeastDoubling(cap: nat, n: nat) returns (k: nat)
    requires cap > 0
    ensures NewCapacity(cap, n) == cap * Pow2(k)
    ensures k > 0 ==> n >= NewCapacity(cap, n) / 2 / 2
    decreases n + 1 - cap / 2
  {
    k := 0;
    if n >= cap / 2 {
      var j := LeastDoubling(2 * cap, n);
      TwiceProduct(cap, Pow2(j));
      k := j + 1;
      if j == 0 { assert NewCapacity(cap, n) == 2 * cap; }
    }
  }

  /** In every run a thread asks for a new table only for a count that fills half of the newest one, and the new one is the
      old capacity doubled once, and then as often as it takes to be less than half full. */
  lemma ResizesWhenHalfFull(c: Config, s: State, cap: nat, run: seq<Event>, t: nat) returns (k: nat)
    requires Initial(c, s, cap) && t < |Execute(c, s, run).m.pc| && Execute(c, s, run).m.pc[t].Allocate?
    ensures Enabled(c, Execute(c, s, run).m, t, Advance(true))
    ensures var m, n := Execute(c, s, run).m, Execute(c, s, run).m.pc[t].n;
      var m' := StepThread(c, m, t, true);
      && m.main < |m.tables| && m'.main < |m'.tables| && n >= Cap(m, m.main) / 2
      && var size := Cap(m', m'.main); size == 2 * Cap(m, m.main) * Pow2(k) && n < size / 2 && (k > 0 ==> n >= size / 2 / 2)
  {
    RunKeepsInv(c, s, cap, run);
    AllocatesHalfFull(c, s, cap, run, t);
    var m, b := Execute(c, s, run).m, Execute(c, s, run).b;
    ThreadIsSafe(c, m, b, t, true);
    assert ThreadOk(c, m, b, t);
    k := LeastDoubling(2 * Cap(m, m.main), m.pc[t].n);
  }
}
