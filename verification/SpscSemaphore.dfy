/** The single-consumer LightweightSemaphore of atomicops.h: one thread waits, signals are serialised. Its undo of a
    timeout does not compare and exchange: it adds one to the count, looks at what was there, and takes the one back
    if the consumer had been signalled after all. */
module SpscSemaphore {

  datatype Patience = Never | Forever | Timed

  /** The next atomic access of the consumer. */
  datatype Consumer =
    | Free
    | TryLoad(p: Patience)           // tryWait: m_count > 0?
    | TrySub                         // m_count.fetch_add(-1)
    | SpinLoad(p: Patience)
    | SpinSub
    | Sub(p: Patience)               // after the spinning: m_count.fetch_add(-1)
    | Kernel(p: Patience)            // m_sema.wait() or timed_wait()
    | RepairAdd                      // timed out: m_count.fetch_add(1)
    | RepairSub                      // m_count.fetch_add(-1)
    | RepairTry(seen: int)           // m_sema.try_wait()
    | Done(ok: bool)

  datatype Producer = Idle | Signal(count: nat) | Post

  datatype Memory = Memory(count: int, kernel: nat, cons: Consumer, prod: Producer)

  /** `Consume(flag)`: the flag ends the spinning, or lets the timeout of the kernel wait expire. */
  datatype Action = Wait(p: Patience) | Consume(flag: bool) | Return | Start(count: nat) | Produce

  predicate Enabled(m: Memory, a: Action) {
    match a
    case Wait(_) => m.cons.Free?
    case Consume(flag) =>
      !m.cons.Free? && !m.cons.Done? && (m.cons.Kernel? ==> m.kernel > 0 || (flag && m.cons.p.Timed?))
    case Return => m.cons.Done?
    case Start(_) => m.prod.Idle?
    case Produce => !m.prod.Idle?
  }

  function ConsumerStep(m: Memory, flag: bool): Memory
    requires Enabled(m, Consume(flag))
  {
    match m.cons
    case TryLoad(p) => m.(cons := if m.count > 0 then TrySub else if p.Never? then Done(false) else SpinLoad(p))
    case TrySub => m.(count := m.count - 1, cons := Done(true))
    case SpinLoad(p) => m.(cons := if flag then Sub(p) else if m.count > 0 then SpinSub else SpinLoad(p))
    case SpinSub => m.(count := m.count - 1, cons := Done(true))
    case Sub(p) => m.(count := m.count - 1, cons := if m.count > 0 then Done(true) else Kernel(p))
    case Kernel(p) =>
      if flag && p.Timed? then m.(cons := RepairAdd) else m.(kernel := m.kernel - 1, cons := Done(true))
    case RepairAdd => m.(count := m.count + 1, cons := if m.count < 0 then Done(false) else RepairSub)
    case RepairSub => m.(count := m.count - 1, cons := RepairTry(m.count))
    case RepairTry(seen) =>
      if seen > 0 && m.kernel > 0 then m.(kernel := m.kernel - 1, cons := Done(true)) else m.(cons := RepairAdd)
  }

  function ProducerStep(m: Memory): Memory
    requires Enabled(m, Produce)
  {
    match m.prod
    case Signal(c) => m.(count := m.count + c, prod := if m.count < 0 then Post else Idle)
    case Post => m.(kernel := m.kernel + 1, prod := Idle)
  }

  function Step(m: Memory, a: Action): Memory
    requires Enabled(m, a)
  {
    match a
    case Wait(p) => m.(cons := TryLoad(p))
    case Consume(flag) => ConsumerStep(m, flag)
    case Return => m.(cons := Free)
    case Start(count) => m.(prod := Signal(count))
    case Produce => ProducerStep(m)
  }

  // ----- The invariant

  datatype Book = Book(initial: nat, granted: nat, signalled: nat)

  function Track(m: Memory, b: Book, a: Action): Book
    requires Enabled(m, a)
  {
    match a
    case Consume(flag) => if ConsumerStep(m, flag).cons == Done(true) then b.(granted := b.granted + 1) else b
    case Produce => if m.prod.Signal? then b.(signalled := b.signalled + m.prod.count) else b
    case _ => b
  }

  predicate Waiting(c: Consumer) { c.Kernel? || c.RepairAdd? || c.RepairSub? || c.RepairTry? }

  /** The count without the one that the undo has added and is going to take back. */
  function Settled(m: Memory): int { m.count - if m.cons.RepairSub? then 1 else 0 }

  function Permits(m: Memory): int { m.kernel + if m.prod.Post? then 1 else 0 }

  predicate Inv(m: Memory, b: Book) {
    && Settled(m) >= -1 && m.count >= -1
    && Permits(m) + (if Settled(m) < 0 then 1 else 0) == (if Waiting(m.cons) then 1 else 0)
    && b.granted + (if Settled(m) > 0 then Settled(m) else 0) + Permits(m) == b.initial + b.signalled
    && (m.cons.TrySub? || m.cons.SpinSub? ==> m.count > 0)
    && (m.cons.RepairSub? ==> Settled(m) >= 0)
    && (m.cons.RepairTry? ==> m.cons.seen > 0)
  }

  /** The one access that breaks it: signal(0) while the consumer waits posts to the kernel for nothing. */
  predicate Stray(m: Memory, a: Action) { a.Produce? && m.prod.Signal? && m.prod.count == 0 && m.count < 0 }

  lemma StepKeepsInvIff(m: Memory, b: Book, a: Action)
    requires Inv(m, b) && Enabled(m, a)
    ensures Inv(Step(m, a), Track(m, b, a)) <==> !Stray(m, a)
  {
    match a
    case Consume(_) =>
    case Produce =>
    case _ =>
  }

  // ----- Runs

  datatype State = State(m: Memory, b: Book)

  predicate Initial(s: State) {
    s.m == Memory(s.b.initial, 0, Free, Idle) && s.b.granted == s.b.signalled == 0
  }

  function Perform(s: State, a: Action): State {
    if Enabled(s.m, a) then State(Step(s.m, a), Track(s.m, s.b, a)) else s
  }

  function Execute(s: State, run: seq<Action>): State {
    if run == [] then s else Perform(Execute(s, run[..|run|-1]), run[|run|-1])
  }

  /** No access of the run is a stray one: whenever signal(0) is called, the count is not negative. */
  predicate Clean(s: State, run: seq<Action>) {
    run == [] ||
    (var p, a := Execute(s, run[..|run|-1]), run[|run|-1];
     Clean(s, run[..|run|-1]) && !(Enabled(p.m, a) && Stray(p.m, a)))
  }

  lemma {:induction false} RunKeepsInv(s: State, run: seq<Action>)
    requires Initial(s) && Clean(s, run)
    ensures var p := Execute(s, run); Inv(p.m, p.b) && p.b.initial == s.b.initial
  {
    if run != [] {
      RunKeepsInv(s, run[..|run|-1]);
      var p, a := Execute(s, run[..|run|-1]), run[|run|-1];
      if Enabled(p.m, a) { StepKeepsInvIff(p.m, p.b, a); }
    }
  }

  /** The invariant holds throughout a run exactly if no signal(0) of it meets a negative count. */
  lemma {:induction false} RunKeepsInvIff(s: State, run: seq<Action>)
    requires Initial(s)
    ensures Clean(s, run) <==> forall j {:trigger run[..j]} :: 0 <= j <= |run| ==> Inv(Execute(s, run[..j]).m, Execute(s, run[..j]).b)
  {
    assert run[..|run|] == run;
    if run != [] {
      var front := run[..|run|-1];
      RunKeepsInvIff(s, front);
      assert forall j {:trigger run[..j]} :: 0 <= j < |run| ==> front[..j] == run[..j];
      assert forall j {:trigger front[..j]} :: 0 <= j < |run| ==> front[..j] == run[..j];
      assert front[..|front|] == front;
      var p, a := Execute(s, front), run[|run|-1];
      if Inv(p.m, p.b) && Enabled(p.m, a) { StepKeepsInvIff(p.m, p.b, a); }
    }
  }

  /** No signal(0) at all: what a caller can see to without looking at the count. */
  predicate Positive(run: seq<Action>) { forall i :: 0 <= i < |run| && run[i].Start? ==> run[i].count > 0 }

  lemma {:induction false} PositiveIsClean(s: State, run: seq<Action>)
    requires Initial(s) && Positive(run)
    ensures Clean(s, run) && (Execute(s, run).m.prod.Signal? ==> Execute(s, run).m.prod.count > 0)
  {
    if run != [] { PositiveIsClean(s, run[..|run|-1]); }
  }

  /** m_count never falls below -1, as signal asserts. */
  lemma CountAtLeastMinusOne(s: State, run: seq<Action>)
    requires Initial(s) && Clean(s, run)
    ensures Execute(s, run).m.count >= -1
  {
    RunKeepsInv(s, run);
  }

  /** A wait that returns false leaves no kernel permit behind, neither in the kernel nor on its way there, and has
      given its unit of the count back. */
  lemma FalseWaitLeavesNothing(s: State, run: seq<Action>)
    requires Initial(s) && Clean(s, run)
    requires var c := Execute(s, run).m.cons; c == Done(false) || c.Free?
    ensures var m, b := Execute(s, run).m, Execute(s, run).b;
      m.kernel == 0 && !m.prod.Post? && m.count == s.b.initial + b.signalled - b.granted >= 0
  {
    RunKeepsInv(s, run);
  }

  lemma NoOvergrant(s: State, run: seq<Action>)
    requires Initial(s) && Clean(s, run)
    ensures Execute(s, run).b.granted <= s.b.initial + Execute(s, run).b.signalled
  {
    RunKeepsInv(s, run);
  }

  /** availableApprox can be one too high, but only in the middle of the undo. */
  lemma AvailableIsOffByOne(s: State, run: seq<Action>)
    requires Initial(s) && Clean(s, run)
    ensures var m, b := Execute(s, run).m, Execute(s, run).b;
      m.count <= s.b.initial + b.signalled - b.granted + (if m.cons.RepairSub? then 1 else 0)
  {
    RunKeepsInv(s, run);
  }

  /** With the producer out of signal, the undo ends: the consumer gives its unit back, or finds its permit. */
  lemma SoloRepair(m: Memory, b: Book)
    requires Inv(m, b) && m.cons.RepairAdd? && m.prod.Idle?
    ensures m.count >= 0 ==> m.kernel == 1
    ensures if m.count < 0 then ConsumerStep(m, false) == m.(count := 0, cons := Done(false))
      else ConsumerStep(ConsumerStep(ConsumerStep(m, false), false), false) == m.(kernel := 0, cons := Done(true))
  {
  }

  // ----- What a wait comes back with

  /** The consumer alone, its spinning and its kernel wait never cut short, within `fuel` accesses. */
  function Finish(m: Memory, fuel: nat): Memory
    decreases fuel
  {
    if fuel == 0 || !Enabled(m, Consume(false)) then m else Finish(Step(m, Consume(false)), fuel - 1)
  }

  /** A permit that is there is taken, whatever the patience of the wait and however far it has come; and one that is
      in the kernel is taken by the wait for it. */
  lemma LoneWaitTakes(m: Memory, p: Patience)
    requires m.count > 0 && m.prod.Idle?
    ensures m.cons.Free? ==> Finish(Step(m, Wait(p)), 2) == m.(count := m.count - 1, cons := Done(true))
    ensures m.cons.TryLoad? || m.cons.TrySub? || m.cons.SpinLoad? || m.cons.SpinSub? || m.cons.Sub? ==>
      Finish(m, 2) == m.(count := m.count - 1, cons := Done(true))
    ensures m.cons.Kernel? && m.kernel > 0 ==> Finish(m, 2) == m.(kernel := m.kernel - 1, cons := Done(true))
  {
    var m0 := if m.cons.Free? then Step(m, Wait(p)) else m;
    if Enabled(m0, Consume(false)) {
      var m1 := Step(m0, Consume(false));
      assert Finish(m0, 2) == Finish(m1, 1);
      if Enabled(m1, Consume(false)) { assert Finish(m1, 1) == Finish(Step(m1, Consume(false)), 0); }
    }
  }

  /** The access that ends a wait with false finds every permit handed out; and tryWait fails exactly then. */
  lemma FalseOnlyWhenEmpty(s: State, run: seq<Action>, flag: bool)
    requires Initial(s) && Clean(s, run) && Enabled(Execute(s, run).m, Consume(flag))
    ensures var p, p' := Execute(s, run), Execute(s, run + [Consume(flag)]);
      && (p'.m.cons == Done(false) ==> p.b.granted == s.b.initial + p.b.signalled)
      && (p.m.cons == TryLoad(Never) ==>
            (p'.m.cons == Done(false) <==> p.b.granted == s.b.initial + p.b.signalled))
  {
    RunKeepsInv(s, run);
    Replay(s, run, Consume(flag));
  }

  predicate Repairing(c: Consumer) { c.RepairAdd? || c.RepairSub? || c.RepairTry? }

  /** The memory before access k. */
  function Before(s: State, run: seq<Action>, k: nat): Memory
    requires k <= |run|
  {
    Execute(s, run[..k]).m
  }

  /** At access i the kernel wait expires; up to access j the consumer undoes its reservation. */
  ghost predicate Expired(s: State, run: seq<Action>, i: nat, j: nat)
    requires i < j <= |run|
  {
    && Before(s, run, i).cons == Kernel(Timed) && run[i] == Consume(true)
    && forall k {:trigger Before(s, run, k)} :: i < k <= j ==> Repairing(Before(s, run, k).cons)
  }

  /** At access j the wait ends with false: tryWait that sees no permit, or a timed wait whose kernel wait has expired
      and that finds the count negative. */
  ghost predicate GaveUp(s: State, run: seq<Action>, j: nat)
    requires j < |run|
  {
    var m := Before(s, run, j);
    && run[j].Consume?
    && ((m.cons == TryLoad(Never) && m.count <= 0)
        || (m.cons.RepairAdd? && m.count < 0 && exists i :: 0 <= i < j && Expired(s, run, i, j)))
  }

  lemma ExpiredLonger(s: State, run: seq<Action>, i: nat, a: Action)
    requires i < |run| && Expired(s, run, i, |run|)
    ensures Expired(s, run + [a], i, |run|)
    ensures Repairing(Execute(s, run + [a]).m.cons) ==> Expired(s, run + [a], i, |run| + 1)
  {
    var run' := run + [a];
    forall k: nat | k <= |run| ensures Before(s, run', k) == Before(s, run, k) { assert run'[..k] == run[..k]; }
    assert run'[..|run'|] == run';
  }

  lemma {:induction false} RepairIsAfterTimeout(s: State, run: seq<Action>) returns (i: nat)
    requires Initial(s) && Repairing(Execute(s, run).m.cons)
    ensures i < |run| && Expired(s, run, i, |run|)
  {
    i := 0;
    if run == [] {
      assert false;
    } else {
      var front, a := run[..|run|-1], run[|run|-1];
      assert run == front + [a];
      if Repairing(Execute(s, front).m.cons) {
        i := RepairIsAfterTimeout(s, front);
        ExpiredLonger(s, front, i, a);
      } else {
        i := |front|;
        assert run[..|run|] == run;
      }
    }
  }

  /** In every interleaving: a wait that waits forever never returns false; a timed one does so only after its timeout
      and with a negative count, tryWait only when it sees no permit. */
  lemma {:induction false} FalseWaitGaveUp(s: State, run: seq<Action>) returns (j: nat)
    requires Initial(s) && Execute(s, run).m.cons == Done(false)
    ensures j < |run| && GaveUp(s, run, j)
    ensures forall k {:trigger Before(s, run, k)} :: j < k <= |run| ==> Before(s, run, k).cons == Done(false)
  {
    j := 0;
    if run == [] {
      assert false;
    } else {
      var front, a := run[..|run|-1], run[|run|-1];
      assert run == front + [a] && run[..|run|] == run;
      forall k: nat | k <= |front| ensures Before(s, run, k) == Before(s, front, k) { assert run[..k] == front[..k]; }
      if Execute(s, front).m.cons == Done(false) {
        j := FalseWaitGaveUp(s, front);
        GaveUpLonger(s, front, j, a);
      } else {
        j := |front|;
        if Execute(s, front).m.cons.RepairAdd? {
          var i := RepairIsAfterTimeout(s, front);
          ExpiredLonger(s, front, i, a);
        }
      }
    }
  }

  lemma GaveUpLonger(s: State, run: seq<Action>, j: nat, a: Action)
    requires j < |run| && GaveUp(s, run, j)
    ensures GaveUp(s, run + [a], j)
  {
    var run' := run + [a];
    forall k: nat | k <= |run| ensures Before(s, run', k) == Before(s, run, k) { assert run'[..k] == run[..k]; }
    if Before(s, run, j).cons.RepairAdd? {
      var i :| 0 <= i < j && Expired(s, run, i, j);
      assert Expired(s, run', i, j);
    }
  }

  // ----- What signal(0) does

  /** A signal(0) while the consumer waits grants a permit that nobody put in: the wait returns true, and the count
      stays at -1 with nobody waiting. */
  lemma ZeroSignalStrays(s: State) returns (run: seq<Action>)
    requires Initial(s) && s.b.initial == 0
    ensures Execute(s, run) == State(Memory(-1, 0, Done(true), Idle), Book(0, 1, 0))
  {
    var slow := SlowPathRun(s);
    Replay(s, slow, Start(0));
    var r1 := slow + [Start(0)];
    Replay(s, r1, Produce);
    var r2 := r1 + [Produce];
    Replay(s, r2, Produce);
    var r3 := r2 + [Produce];
    Replay(s, r3, Consume(false));
    run := r3 + [Consume(false)];
  }

  /** And the next wait that finds nothing takes the count to -2, which signal asserts against. */
  lemma SecondWaitBreaksCount(s: State) returns (run: seq<Action>)
    requires Initial(s) && s.b.initial == 0
    ensures Execute(s, run) == State(Memory(-2, 0, Kernel(Forever), Idle), Book(0, 1, 0))
    ensures !Clean(s, run)
  {
    var r0 := ZeroSignalStrays(s);
    var r1 := WaitsAgain(s, r0);
    run := GoesBelow(s, r1);
    if Clean(s, run) { RunKeepsInv(s, run); }
  }

  lemma WaitsAgain(s: State, r0: seq<Action>) returns (run: seq<Action>)
    requires Execute(s, r0) == State(Memory(-1, 0, Done(true), Idle), Book(0, 1, 0))
    ensures Execute(s, run) == State(Memory(-1, 0, SpinLoad(Forever), Idle), Book(0, 1, 0))
  {
    var r1 := r0 + [Return];
    Replay(s, r0, Return);
    var r2 := r1 + [Wait(Forever)];
    Replay(s, r1, Wait(Forever));
    run := r2 + [Consume(false)];
    Replay(s, r2, Consume(false));
  }

  lemma GoesBelow(s: State, r0: seq<Action>) returns (run: seq<Action>)
    requires Execute(s, r0) == State(Memory(-1, 0, SpinLoad(Forever), Idle), Book(0, 1, 0))
    ensures Execute(s, run) == State(Memory(-2, 0, Kernel(Forever), Idle), Book(0, 1, 0))
  {
    var r1 := r0 + [Consume(true)];
    Replay(s, r0, Consume(true));
    run := r1 + [Consume(false)];
    Replay(s, r1, Consume(false));
  }

  lemma SlowPathRun(s: State) returns (run: seq<Action>)
    requires Initial(s) && s.b.initial == 0
    ensures Execute(s, run) == s.(m := Memory(-1, 0, Kernel(Forever), Idle))
  {
    var r1 := [] + [Wait(Forever)];
    Replay(s, [], Wait(Forever));
    var r2 := r1 + [Consume(false)];
    Replay(s, r1, Consume(false));
    var r3 := r2 + [Consume(true)];
    Replay(s, r2, Consume(true));
    run := r3 + [Consume(false)];
    Replay(s, r3, Consume(false));
  }

  lemma Replay(s: State, run: seq<Action>, a: Action)
    ensures Execute(s, run + [a]) == Perform(Execute(s, run), a)
  {
    assert (run + [a])[..|run|] == run;
  }

  // ----- The semaphore as the object it is

  class LightweightSemaphore {
    var count: int
    var kernel: nat
    var cons: Consumer
    var prod: Producer
    ghost var book: Book

    ghost function View(): Memory reads this { Memory(count, kernel, cons, prod) }

    ghost predicate Valid() reads this { Inv(View(), book) }

    constructor (initialCount: nat)
      ensures Initial(State(View(), book)) && book.initial == initialCount && Valid()
    {
      count, kernel, cons, prod, book := initialCount, 0, Free, Idle, Book(initialCount, 0, 0);
    }

    /** The accesses of tryWait and of the spinning. */
    method TryOrSpin(flag: bool)
      requires Valid() && Enabled(View(), Consume(flag)) && !Waiting(cons)
      modifies this
      ensures View() == Step(old(View()), Consume(flag)) && book == Track(old(View()), old(book), Consume(flag))
      ensures Valid()
    {
      StepKeepsInvIff(View(), book, Consume(flag));
      book := Track(View(), book, Consume(flag));
      match cons
      case TryLoad(p) =>
        cons := if count > 0 then TrySub else if p.Never? then Done(false) else SpinLoad(p);
      case SpinLoad(p) =>
        if flag {
          cons := Sub(p);
        } else if count > 0 {
          cons := SpinSub;
        }
      case Sub(p) =>
        var oldCount := count;
        count := count - 1;
        cons := if oldCount > 0 then Done(true) else Kernel(p);
      case TrySub =>
        count := count - 1;
        cons := Done(true);
      case SpinSub =>
        count := count - 1;
        cons := Done(true);
    }

    /** The kernel wait and the loop that undoes it. */
    method WaitOrRepair(flag: bool)
      requires Valid() && Enabled(View(), Consume(flag)) && Waiting(cons)
      modifies this
      ensures View() == Step(old(View()), Consume(flag)) && book == Track(old(View()), old(book), Consume(flag))
      ensures Valid()
    {
      StepKeepsInvIff(View(), book, Consume(flag));
      book := Track(View(), book, Consume(flag));
      match cons
      case Kernel(p) =>
        if flag && p.Timed? {
          cons := RepairAdd;
        } else {
          kernel := kernel - 1;
          cons := Done(true);
        }
      case RepairAdd =>
        var oldCount := count;
        count := count + 1;
        cons := if oldCount < 0 then Done(false) else RepairSub;
      case RepairSub =>
        var oldCount := count;
        count := count - 1;
        cons := RepairTry(oldCount);
      case RepairTry(seen) =>
        if seen > 0 && kernel > 0 {
          kernel := kernel - 1;
          cons := Done(true);
        } else {
          cons := RepairAdd;
        }
    }

    /** The accesses of signal; the contract needs the caller not to pass 0 to a waiting consumer. */
    method SignalStep()
      requires Valid() && Enabled(View(), Produce)
      modifies this
      ensures View() == Step(old(View()), Produce) && book == Track(old(View()), old(book), Produce)
      ensures Valid() <==> !Stray(old(View()), Produce)
    {
      StepKeepsInvIff(View(), book, Produce);
      book := Track(View(), book, Produce);
      match prod
      case Signal(c) =>
        var oldCount := count;
        count := count + c;
        prod := if oldCount < 0 then Post else Idle;
      case Post =>
        kernel := kernel + 1;
        prod := Idle;
    }
  }
}
