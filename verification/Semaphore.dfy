/** The multi-consumer LightweightSemaphore of blockingconrurrentqueue.h: a counter in front of a kernel semaphore,
    with spinning, timeouts that are undone, and bulk waits. One atomic access per step, any number of threads.
    A single wait makes the accesses of a bulk wait for one permit. */
module Semaphore {
  import opened Wrappers

  /** tryWait and tryWaitMany never block; a negative timeout waits forever. */
  datatype Patience = Never | Forever | Timed

  /** The next atomic access of a thread. `want` is the argument of its call, `got` what the call has so far. */
  datatype Pc =
    | Out
    | TryLoad(want: nat, got: nat, p: Patience)              // oldCount := m_count
    | TryCas(want: nat, got: nat, p: Patience, seen: int)     // m_count: oldCount -> newCount
    | SpinLoad(want: nat, p: Patience)
    | SpinCas(want: nat, p: Patience, seen: int)
    | Sub(want: nat, p: Patience)                            // m_count.fetch_sub(1)
    | Kernel(want: nat, p: Patience)                         // m_sema.wait() or timed_wait()
    | RepairLoad(want: nat)                                  // timed out: oldCount := m_count
    | RepairCas(want: nat, seen: int)                         // m_count: oldCount -> oldCount + 1
    | RepairTry(want: nat)                                   // m_sema.try_wait()
    | Done(n: nat, want: nat, p: Patience)                   // the call returns n
    | Signal(count: nat)                                     // m_count.fetch_add(count)
    | Release(n: nat)                                        // m_sema.signal(n): one post after the other

  /** m_count, the count of the kernel semaphore, and the threads. */
  datatype Memory = Memory(count: int, kernel: nat, pc: seq<Pc>)

  /** `Advance(flag)`: the next access. The flag is what the environment decides: that a weak compare-exchange fails
      for no reason, that the spinning has lasted long enough, that the timeout of the kernel wait expires. */
  datatype Action = Wait(want: nat, p: Patience) | Post(count: nat) | Advance(flag: bool) | Return

  predicate Enabled(m: Memory, t: nat, a: Action) {
    t < |m.pc| && match a
    case Wait(_, _) => m.pc[t].Out?
    case Post(_) => m.pc[t].Out?
    case Return => m.pc[t].Done?
    case Advance(flag) =>
      && !m.pc[t].Out? && !m.pc[t].Done?
      && (m.pc[t].Kernel? ==> m.kernel > 0 || (flag && m.pc[t].p.Timed?))
  }

  function Positive(x: int): int { if x > 0 then x else 0 }

  /** The loop test of tryWaitMany. */
  function TryTest(want: nat, got: nat, p: Patience, seen: int): Pc {
    if seen > 0 then TryCas(want, got, p, seen) else EndTry(want, got, p, 0)
  }

  /** What follows a tryWaitMany that took n permits: it is the first or the last part of the call. */
  function EndTry(want: nat, got: nat, p: Patience, n: nat): Pc {
    if got == 0 && n == 0 && want > 0 && !p.Never? then SpinLoad(want, p) else Done(got + n, want, p)
  }

  /** One permit taken on the slow path; a bulk wait tries for more. */
  function GotOne(want: nat, p: Patience): Pc {
    if want > 1 then TryLoad(want, 1, p) else Done(1, want, p)
  }

  /** How many permits tryWaitMany takes when it sees the count: all of it, but not more than max. */
  function Taken(seen: int, max: int): (n: nat)
    ensures seen > 0 && max >= 0 ==> seen - n == if seen > max then seen - max else 0
  {
    if seen <= 0 || max <= 0 then 0 else Min(seen, max)
  }

  /** The count, the kernel count and the thread after an access. */
  datatype Effect = Effect(count: int, kernel: nat, pc: Pc)

  function Access(count: int, kernel: nat, pc: Pc, flag: bool): Effect
    requires !pc.Out? && !pc.Done? && (pc.Kernel? ==> kernel > 0 || (flag && pc.p.Timed?))
  {
    match pc
    case TryLoad(want, got, p) => Effect(count, kernel, TryTest(want, got, p, count))
    case TryCas(want, got, p, seen) =>
      if count == seen && seen > 0 && !flag then
        var n := Taken(seen, want - got);
        Effect(seen - n, kernel, EndTry(want, got, p, n))
      else Effect(count, kernel, TryTest(want, got, p, count))
    case SpinLoad(want, p) =>
      Effect(count, kernel, if flag then Sub(want, p) else if count > 0 then SpinCas(want, p, count) else SpinLoad(want, p))
    case SpinCas(want, p, seen) =>
      if count == seen && seen > 0 then
        var n := Taken(seen, want);
        Effect(seen - n, kernel, Done(n, want, p))
      else Effect(count, kernel, SpinLoad(want, p))
    case Sub(want, p) => Effect(count - 1, kernel, if count > 0 then GotOne(want, p) else Kernel(want, p))
    case Kernel(want, p) =>
      if flag && p.Timed? then Effect(count, kernel, RepairLoad(want)) else Effect(count, kernel - 1, GotOne(want, p))
    case RepairLoad(want) => Effect(count, kernel, if count < 0 then RepairCas(want, count) else RepairTry(want))
    case RepairCas(want, seen) =>
      if count == seen then Effect(count + 1, kernel, Done(0, want, Timed))
      else Effect(count, kernel, if count >= 0 then RepairTry(want) else RepairLoad(want))
    case RepairTry(want) =>
      if kernel > 0 then Effect(count, kernel - 1, GotOne(want, Timed)) else Effect(count, kernel, RepairLoad(want))
    case Signal(c) =>
      var release := Min(-count, c);
      Effect(count + c, kernel, if release > 0 then Release(release) else Out)
    case Release(n) => Effect(count, kernel + 1, if n > 1 then Release(n - 1) else Out)
  }

  function Step(m: Memory, t: nat, a: Action): Memory
    requires Enabled(m, t, a)
  {
    match a
    case Wait(want, p) => m.(pc := m.pc[t := TryLoad(want, 0, p)])
    case Post(count) => m.(pc := m.pc[t := Signal(count)])
    case Return => m.(pc := m.pc[t := Out])
    case Advance(flag) =>
      var e := Access(m.count, m.kernel, m.pc[t], flag);
      Memory(e.count, e.kernel, m.pc[t := e.pc])
  }

  // ----- Counting over the threads

  datatype Measure = Waiting | Releasing | Acquired

  function Of(pc: Pc, f: Measure): nat {
    match f
    case Waiting => if pc.Kernel? || pc.RepairLoad? || pc.RepairCas? || pc.RepairTry? then 1 else 0
    case Releasing => if pc.Release? then pc.n else 0
    case Acquired => if pc.TryLoad? || pc.TryCas? then pc.got else if pc.Done? then pc.n else 0
  }

  function Total(pcs: seq<Pc>, f: Measure): nat {
    if pcs == [] then 0 else Total(pcs[..|pcs|-1], f) + Of(pcs[|pcs|-1], f)
  }

  lemma {:induction false} TotalUpdate(pcs: seq<Pc>, t: nat, pc: Pc, f: Measure)
    requires t < |pcs|
    ensures Total(pcs[t := pc], f) == Total(pcs, f) - Of(pcs[t], f) + Of(pc, f)
  {
    var last := |pcs| - 1;
    if t < last {
      assert pcs[t := pc][..last] == pcs[..last][t := pc];
      TotalUpdate(pcs[..last], t, pc, f);
    } else {
      assert pcs[t := pc][..last] == pcs[..last];
    }
  }

  lemma {:induction false} TotalAtLeast(pcs: seq<Pc>, t: nat, f: Measure)
    requires t < |pcs|
    ensures Of(pcs[t], f) <= Total(pcs, f)
  {
    if t < |pcs| - 1 { TotalAtLeast(pcs[..|pcs|-1], t, f); }
  }

  lemma {:induction false} TotalZero(pcs: seq<Pc>, f: Measure)
    requires forall t :: 0 <= t < |pcs| ==> Of(pcs[t], f) == 0
    ensures Total(pcs, f) == 0
  {
    if pcs != [] { TotalZero(pcs[..|pcs|-1], f); }
  }

  // ----- The conservation laws

  /** Permits granted to calls, permits signalled, permits that finished calls have returned. */
  datatype Book = Book(initial: nat, granted: nat, signalled: nat, returned: nat)

  function Gain(before: Pc, after: Pc): int { Of(after, Acquired) - Of(before, Acquired) }

  function Track(m: Memory, b: Book, t: nat, a: Action): Book
    requires Enabled(m, t, a)
  {
    match a
    case Advance(flag) =>
      var gain := Gain(m.pc[t], Step(m, t, a).pc[t]);
      b.(granted := if gain > 0 then b.granted + gain else b.granted,
         signalled := if m.pc[t].Signal? then b.signalled + m.pc[t].count else b.signalled)
    case Return => b.(returned := b.returned + m.pc[t].n)
    case _ => b
  }

  predicate ThreadOk(pc: Pc) {
    match pc
    case TryLoad(want, got, _) => got <= want && got <= 1
    case TryCas(want, got, _, seen) => got <= want && got <= 1 && seen > 0
    case SpinLoad(want, p) => want > 0 && !p.Never?
    case SpinCas(want, p, seen) => want > 0 && seen > 0 && !p.Never?
    case Sub(want, p) => want > 0 && !p.Never?
    case Kernel(want, p) => want > 0 && !p.Never?
    case RepairLoad(want) => want > 0
    case RepairCas(want, seen) => want > 0 && seen < 0
    case RepairTry(want) => want > 0
    case Done(n, want, p) => n <= want && (p.Forever? && want > 0 ==> n > 0)
    case Release(n) => n > 0
    case _ => true
  }

  /** First law: every thread on the slow path is accounted for, by a kernel permit, a post still to come, or a unit
      of negative count. Second law: every permit ever put in is with a caller, in the count, in the kernel, or on
      its way to the kernel. */
  ghost predicate Inv(m: Memory, b: Book) {
    && m.kernel + Total(m.pc, Releasing) + Positive(-m.count) == Total(m.pc, Waiting)
    && b.granted + Positive(m.count) + m.kernel + Total(m.pc, Releasing) == b.initial + b.signalled
    && b.granted == b.returned + Total(m.pc, Acquired)
    && forall t :: 0 <= t < |m.pc| ==> ThreadOk(m.pc[t])
  }

  /** Each access, by itself, keeps both balances. */
  lemma AccessKeepsWaiters(count: int, kernel: nat, pc: Pc, flag: bool)
    requires !pc.Out? && !pc.Done? && (pc.Kernel? ==> kernel > 0 || (flag && pc.p.Timed?)) && ThreadOk(pc)
    ensures var e := Access(count, kernel, pc, flag);
      e.kernel + Of(e.pc, Releasing) + Positive(-e.count) - Of(e.pc, Waiting)
      == kernel + Of(pc, Releasing) + Positive(-count) - Of(pc, Waiting)
  {
  }

  lemma AccessKeepsPermits(count: int, kernel: nat, pc: Pc, flag: bool)
    requires !pc.Out? && !pc.Done? && (pc.Kernel? ==> kernel > 0 || (flag && pc.p.Timed?)) && ThreadOk(pc)
    ensures var e := Access(count, kernel, pc, flag);
      && Gain(pc, e.pc) >= 0
      && Gain(pc, e.pc) + Positive(e.count) + e.kernel + Of(e.pc, Releasing)
         == Positive(count) + kernel + Of(pc, Releasing) + if pc.Signal? then pc.count else 0
  {
    var e := Access(count, kernel, pc, flag);
    match pc
    case TryLoad(_, got, _) => assert Of(e.pc, Acquired) == got;
    case TryCas(want, got, p, seen) =>
      if count == seen && !flag {
        TakenInRange(seen, want - got);
        assert Of(e.pc, Acquired) == got + Taken(seen, want - got);
      }
    case SpinCas(want, p, seen) => TakenInRange(seen, want);
    case _ =>
  }

  lemma TakenInRange(seen: int, max: int)
    requires seen > 0 && max >= 0
    ensures Positive(seen - Taken(seen, max)) == seen - Taken(seen, max)
  {
  }

  lemma AccessKeepsThread(count: int, kernel: nat, pc: Pc, flag: bool)
    requires !pc.Out? && !pc.Done? && (pc.Kernel? ==> kernel > 0 || (flag && pc.p.Timed?)) && ThreadOk(pc)
    ensures ThreadOk(Access(count, kernel, pc, flag).pc)
  {
  }

  lemma AccessBalances(count: int, kernel: nat, pc: Pc, flag: bool)
    requires !pc.Out? && !pc.Done? && (pc.Kernel? ==> kernel > 0 || (flag && pc.p.Timed?)) && ThreadOk(pc)
    ensures var e := Access(count, kernel, pc, flag);
      && ThreadOk(e.pc) && Gain(pc, e.pc) >= 0
      && e.kernel + Of(e.pc, Releasing) + Positive(-e.count) - Of(e.pc, Waiting)
         == kernel + Of(pc, Releasing) + Positive(-count) - Of(pc, Waiting)
      && Gain(pc, e.pc) + Positive(e.count) + e.kernel + Of(e.pc, Releasing)
         == Positive(count) + kernel + Of(pc, Releasing) + if pc.Signal? then pc.count else 0
  {
    AccessKeepsWaiters(count, kernel, pc, flag);
    AccessKeepsPermits(count, kernel, pc, flag);
    AccessKeepsThread(count, kernel, pc, flag);
  }

  /** The three totals after thread t has gone on to pc. */
  lemma TotalsUpdate(m: Memory, t: nat, pc: Pc)
    requires t < |m.pc|
    ensures Total(m.pc[t := pc], Waiting) == Total(m.pc, Waiting) - Of(m.pc[t], Waiting) + Of(pc, Waiting)
    ensures Total(m.pc[t := pc], Releasing) == Total(m.pc, Releasing) - Of(m.pc[t], Releasing) + Of(pc, Releasing)
    ensures Total(m.pc[t := pc], Acquired) == Total(m.pc, Acquired) - Of(m.pc[t], Acquired) + Of(pc, Acquired)
  {
    TotalUpdate(m.pc, t, pc, Waiting);
    TotalUpdate(m.pc, t, pc, Releasing);
    TotalUpdate(m.pc, t, pc, Acquired);
  }

  lemma AdvanceIs(m: Memory, b: Book, t: nat, flag: bool)
    requires Enabled(m, t, Advance(flag))
    ensures var e := Access(m.count, m.kernel, m.pc[t], flag);
      && Step(m, t, Advance(flag)) == Memory(e.count, e.kernel, m.pc[t := e.pc])
      && (Gain(m.pc[t], e.pc) >= 0 ==>
            Track(m, b, t, Advance(flag)) == b.(granted := b.granted + Gain(m.pc[t], e.pc),
              signalled := b.signalled + if m.pc[t].Signal? then m.pc[t].count else 0))
  {
  }

  lemma AdvanceKeepsInv(m: Memory, b: Book, t: nat, flag: bool)
    requires Inv(m, b) && Enabled(m, t, Advance(flag))
    ensures Inv(Step(m, t, Advance(flag)), Track(m, b, t, Advance(flag)))
  {
    assert ThreadOk(m.pc[t]);
    AccessBalances(m.count, m.kernel, m.pc[t], flag);
    AdvanceIs(m, b, t, flag);
    TotalsUpdate(m, t, Access(m.count, m.kernel, m.pc[t], flag).pc);
  }

  lemma CallKeepsInv(m: Memory, b: Book, t: nat, a: Action)
    requires Inv(m, b) && Enabled(m, t, a) && !a.Advance?
    ensures Inv(Step(m, t, a), Track(m, b, t, a))
  {
    TotalsUpdate(m, t, Step(m, t, a).pc[t]);
    assert Step(m, t, a).pc == m.pc[t := Step(m, t, a).pc[t]];
  }

  lemma StepKeepsInv(m: Memory, b: Book, t: nat, a: Action)
    requires Inv(m, b) && Enabled(m, t, a)
    ensures Inv(Step(m, t, a), Track(m, b, t, a))
  {
    if a.Advance? { AdvanceKeepsInv(m, b, t, a.flag); } else { CallKeepsInv(m, b, t, a); }
  }

  // ----- Runs

  datatype Event = Event(thread: nat, action: Action)
  datatype State = State(m: Memory, b: Book)

  ghost predicate Initial(s: State) {
    && s.m.count == s.b.initial && s.m.kernel == 0
    && s.b.granted == s.b.signalled == s.b.returned == 0
    && forall t :: 0 <= t < |s.m.pc| ==> s.m.pc[t] == Out
  }

  function Perform(s: State, e: Event): State {
    if Enabled(s.m, e.thread, e.action)
    then State(Step(s.m, e.thread, e.action), Track(s.m, s.b, e.thread, e.action))
    else s
  }

  function Execute(s: State, events: seq<Event>): State {
    if events == [] then s else Perform(Execute(s, events[..|events|-1]), events[|events|-1])
  }

  lemma {:induction false} RunKeepsInv(s: State, events: seq<Event>)
    requires Initial(s)
    ensures Inv(Execute(s, events).m, Execute(s, events).b)
    ensures Execute(s, events).b.initial == s.b.initial
  {
    if events == [] {
      TotalZero(s.m.pc, Waiting);
      TotalZero(s.m.pc, Releasing);
      TotalZero(s.m.pc, Acquired);
    } else {
      RunKeepsInv(s, events[..|events|-1]);
      var p, e := Execute(s, events[..|events|-1]), events[|events|-1];
      if Enabled(p.m, e.thread, e.action) { StepKeepsInv(p.m, p.b, e.thread, e.action); }
    }
  }

  // ----- What the laws mean

  /** Never more permits are handed out than were put in, whatever times out and whatever the interleaving; and
      exactly the granted permits are returned by the calls. */
  lemma NoOvergrant(s: State, events: seq<Event>)
    requires Initial(s)
    ensures var p := Execute(s, events);
      && p.b.returned <= p.b.granted <= s.b.initial + p.b.signalled
      && p.b.granted + Positive(p.m.count) + p.m.kernel + Total(p.m.pc, Releasing) == s.b.initial + p.b.signalled
  {
    RunKeepsInv(s, events);
  }

  /** No wake-up is lost: while the count is not negative, every thread on the slow path has its own kernel permit,
      or a post that is still to come. */
  lemma NoLostWakeup(s: State, events: seq<Event>)
    requires Initial(s) && Execute(s, events).m.count >= 0
    ensures var m := Execute(s, events).m; Total(m.pc, Waiting) == m.kernel + Total(m.pc, Releasing)
  {
    RunKeepsInv(s, events);
  }

  lemma WaiterHasPermit(s: State, events: seq<Event>, t: nat)
    requires Initial(s)
    requires var m := Execute(s, events).m; t < |m.pc| && Of(m.pc[t], Waiting) == 1 && m.count >= 0
    ensures var m := Execute(s, events).m; m.kernel > 0 || exists u :: 0 <= u < |m.pc| && m.pc[u].Release?
  {
    var m := Execute(s, events).m;
    NoLostWakeup(s, events);
    TotalAtLeast(m.pc, t, Waiting);
    if forall u :: 0 <= u < |m.pc| ==> !m.pc[u].Release? { TotalZero(m.pc, Releasing); }
  }

  /** And while it is negative, no permit is idle: all that was signalled is granted or in the kernel. */
  lemma NegativeMeansHandedOut(s: State, events: seq<Event>)
    requires Initial(s) && Execute(s, events).m.count <= 0
    ensures var p := Execute(s, events); p.b.granted + p.m.kernel + Total(p.m.pc, Releasing) == s.b.initial + p.b.signalled
  {
    RunKeepsInv(s, events);
  }

  /** A call returns between 0 and its maximum; an untimed one for a positive maximum at least one. */
  lemma ResultInRange(s: State, events: seq<Event>, t: nat)
    requires Initial(s) && t < |Execute(s, events).m.pc| && Execute(s, events).m.pc[t].Done?
    ensures var pc := Execute(s, events).m.pc[t]; pc.n <= pc.want && (pc.p.Forever? && pc.want > 0 ==> pc.n > 0)
  {
    RunKeepsInv(s, events);
  }

  // ----- A thread that runs alone

  /** Thread t alone, with no timeout and no spurious failure, until its call is over, within `fuel` accesses. */
  function Finish(m: Memory, t: nat, fuel: nat): Memory
    requires t < |m.pc|
    decreases fuel
  {
    if fuel == 0 || !Enabled(m, t, Advance(false)) then m else Finish(Step(m, t, Advance(false)), t, fuel - 1)
  }

  /** The undo of a timeout ends as soon as the others pause: it gives its unit of the count back, or finds that it
      was signalled after all and takes its kernel permit. */
  lemma SoloRepair(m: Memory, b: Book, t: nat)
    requires Inv(m, b) && t < |m.pc| && m.pc[t].RepairLoad? && Total(m.pc, Releasing) == 0
    ensures m.count >= 0 ==> m.kernel > 0
    ensures Finish(m, t, 2) ==
      if m.count < 0 then m.(count := m.count + 1, pc := m.pc[t := Done(0, m.pc[t].want, Timed)])
      else m.(kernel := m.kernel - 1, pc := m.pc[t := GotOne(m.pc[t].want, Timed)])
  {
    TotalAtLeast(m.pc, t, Waiting);
    assert ThreadOk(m.pc[t]);
    var m1 := Step(m, t, Advance(false));
    var m2 := Step(m1, t, Advance(false));
    assert Finish(m, t, 2) == Finish(m1, t, 1) == Finish(m2, t, 0);
  }

  /** tryWaitMany alone takes as much as it may of what is there. */
  lemma SoloTry(m: Memory, t: nat, want: nat)
    requires t < |m.pc| && m.pc[t].Out?
    ensures var n := if m.count <= 0 then 0 else if want < m.count then want else m.count;
      Finish(Step(m, t, Wait(want, Never)), t, 2) == m.(count := m.count - n, pc := m.pc[t := Done(n, want, Never)])
  {
    var m1 := Step(m, t, Wait(want, Never));
    var m2 := Step(m1, t, Advance(false));
    assert Finish(m1, t, 2) == Finish(m2, t, 1);
    if m.count > 0 {
      var m3 := Step(m2, t, Advance(false));
      assert Finish(m2, t, 1) == Finish(m3, t, 0);
    }
  }

  // ----- The semaphore as the object it is

  class LightweightSemaphore {
    var count: int
    var kernel: nat
    var pc: seq<Pc>
    ghost var book: Book

    ghost function View(): Memory reads this { Memory(count, kernel, pc) }

    ghost predicate Valid() reads this { Inv(View(), book) }

    constructor (initialCount: nat, threads: nat)
      ensures Initial(State(View(), book)) && Valid() && book.initial == initialCount && |pc| == threads
    {
      count, kernel, pc := initialCount, 0, seq(threads, _ => Out);
      book := Book(initialCount, 0, 0, 0);
      new;
      RunKeepsInv(State(View(), book), []);
    }

    /** The accesses of tryWaitMany and of the spinning. */
    method TryOrSpin(t: nat, flag: bool)
      requires Valid() && Enabled(View(), t, Advance(flag))
      requires pc[t].TryLoad? || pc[t].TryCas? || pc[t].SpinLoad? || pc[t].SpinCas?
      modifies this
      ensures View() == Step(old(View()), t, Advance(flag)) && book == Track(old(View()), old(book), t, Advance(flag))
      ensures Valid()
    {
      StepKeepsInv(View(), book, t, Advance(flag));
      book := Track(View(), book, t, Advance(flag));
      match pc[t]
      case TryLoad(want, got, p) => pc := pc[t := TryTest(want, got, p, count)];
      case TryCas(want, got, p, seen) =>
        if count == seen && !flag {
          count := if seen > want - got then seen - (want - got) else 0;
          pc := pc[t := EndTry(want, got, p, seen - count)];
        } else {
          pc := pc[t := TryTest(want, got, p, count)];
        }
      case SpinLoad(want, p) =>
        if flag {
          pc := pc[t := Sub(want, p)];
        } else if count > 0 {
          pc := pc[t := SpinCas(want, p, count)];
        }
      case SpinCas(want, p, seen) =>
        if count == seen {
          count := if seen > want then seen - want else 0;
          pc := pc[t := Done(seen - count, want, p)];
        } else {
          pc := pc[t := SpinLoad(want, p)];
        }
    }

    /** The accesses of the slow path: the decrement, the kernel wait, and the undo after a timeout. */
    method SlowPath(t: nat, flag: bool)
      requires Valid() && Enabled(View(), t, Advance(flag)) && (pc[t].Sub? || Of(pc[t], Waiting) == 1)
      modifies this
      ensures View() == Step(old(View()), t, Advance(flag)) && book == Track(old(View()), old(book), t, Advance(flag))
      ensures Valid()
    {
      StepKeepsInv(View(), book, t, Advance(flag));
      book := Track(View(), book, t, Advance(flag));
      match pc[t]
      case Sub(want, p) =>
        var seen := count;
        count := count - 1;
        pc := pc[t := if seen > 0 then GotOne(want, p) else Kernel(want, p)];
      case Kernel(want, p) =>
        if flag && p.Timed? {
          pc := pc[t := RepairLoad(want)];
        } else {
          kernel := kernel - 1;
          pc := pc[t := GotOne(want, p)];
        }
      case RepairLoad(want) => pc := pc[t := if count < 0 then RepairCas(want, count) else RepairTry(want)];
      case RepairCas(want, seen) =>
        if count == seen {
          count := count + 1;
          pc := pc[t := Done(0, want, Timed)];
        } else {
          pc := pc[t := if count >= 0 then RepairTry(want) else RepairLoad(want)];
        }
      case RepairTry(want) =>
        if kernel > 0 {
          kernel := kernel - 1;
          pc := pc[t := GotOne(want, Timed)];
        } else {
          pc := pc[t := RepairLoad(want)];
        }
    }

    /** The accesses of signal. */
    method SignalStep(t: nat)
      requires Valid() && Enabled(View(), t, Advance(false)) && (pc[t].Signal? || pc[t].Release?)
      modifies this
      ensures View() == Step(old(View()), t, Advance(false)) && book == Track(old(View()), old(book), t, Advance(false))
      ensures Valid()
    {
      StepKeepsInv(View(), book, t, Advance(false));
      book := Track(View(), book, t, Advance(false));
      match pc[t]
      case Signal(c) =>
        var toRelease := if -count < c then -count else c;
        count := count + c;
        pc := pc[t := if toRelease > 0 then Release(toRelease) else Out];
      case Release(n) =>
        kernel := kernel + 1;
        pc := pc[t := if n > 1 then Release(n - 1) else Out];
    }
  }
}
