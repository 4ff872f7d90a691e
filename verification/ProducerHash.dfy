/** The hash tables of concurrentqueue.h that lead each thread to its implicit producer: open addressing in a chain of
    tables, newest first. Threads insert themselves, copy themselves lazily into newer tables, resize, and fail to
    allocate, all at once. One atomic access per step; thread exit, which is compiled out, is not modelled. */
module ProducerHash {
  import opened Wrappers
  import opened Bits

  /** A slot: key, and value once it is stored. The key of thread t is t. */
  datatype Slot = Free | Taken(key: nat, value: Option<nat>)

  datatype Table = Table(slots: seq<Slot>, prev: Option<nat>)

  /** The next access of a thread. `main` is its copy of implicitProducerHash, `i` its index before masking,
      `n` its newCount. */
  datatype Pc =
    | Idle
    | LoadMain
    | Probe(main: nat, h: nat, i: nat)                  // look for the own key in table h
    | CopyProbe(main: nat, p: nat, i: nat)              // found in an older table: a free slot in main?
    | CopyCas(main: nat, p: nat, i: nat)
    | CopyStore(main: nat, p: nat, i: nat)
    | CountUp(main: nat)                                // implicitProducerHashCount.fetch_add(1)
    | TestLock(main: nat, n: nat)                       // test_and_set, if the table is half full
    | LockedLoad(n: nat)                                // reload implicitProducerHash
    | Allocate(main: nat, n: nat)                       // a bigger table, published at once if it can be had
    | Unlock(main: nat, n: nat)
    | UnlockFailed
    | Reload(n: nat)                                    // wait for the table of another thread
    | Create(main: nat, n: nat)                         // recycle_or_create_producer
    | InsertProbe(main: nat, p: nat, i: nat)
    | InsertCas(main: nat, p: nat, i: nat)
    | InsertStore(main: nat, p: nat, i: nat)
    | CountDown(unlock: bool)                           // fetch_add(-1), after a failed allocation
    | Done(result: Option<nat>)

  datatype Memory = Memory(tables: seq<Table>, main: nat, count: int, resizing: bool, producers: nat, pc: seq<Pc>)

  /** `hashed[t]` is the hash of the id of thread t. */
  datatype Config = Config(hashed: seq<nat>)

  /** `Advance(ok)`: the next access; ok says whether an allocation that is asked for succeeds. */
  datatype Action = Call | Advance(ok: bool) | Return

  function Cap(m: Memory, h: nat): nat
    requires h < |m.tables|
  {
    |m.tables[h].slots|
  }

  /** Three quarters, as the code has it. */
  function Limit(cap: nat): nat { cap / 2 + cap / 4 }

  function NewCapacity(cap: nat, n: nat): (r: nat)
    requires cap > 0
    ensures r >= cap && n < r / 2
    decreases n + 1 - cap / 2
  {
    if n >= cap / 2 then NewCapacity(2 * cap, n) else cap
  }

  /** The test after the count, and after each reload. */
  function AfterCount(m: Memory, main: nat, n: nat): Pc
    requires main < |m.tables|
  {
    if n >= Cap(m, main) / 2 then TestLock(main, n) else AfterLock(m, main, n)
  }

  function AfterLock(m: Memory, main: nat, n: nat): Pc
    requires main < |m.tables|
  {
    if n < Limit(Cap(m, main)) then Create(main, n) else Reload(n)
  }

  function SlotAt(m: Memory, h: nat, i: nat): Slot
    requires h < |m.tables| && Cap(m, h) > 0
  {
    m.tables[h].slots[i % Cap(m, h)]
  }

  function SetSlot(m: Memory, h: nat, i: nat, slot: Slot): Memory
    requires h < |m.tables| && Cap(m, h) > 0
  {
    m.(tables := m.tables[h := m.tables[h].(slots := m.tables[h].slots[i % Cap(m, h) := slot])])
  }

  /** Tables that the thread's next access touches exist. */
  predicate Safe(m: Memory, pc: Pc) {
    && m.main < |m.tables| && (forall h :: 0 <= h < |m.tables| ==> Cap(m, h) > 0)
    && match pc
       case Probe(main, h, i) => main < |m.tables| && h < |m.tables| && (m.tables[h].prev.Some? ==> m.tables[h].prev.value < |m.tables|)
       case CopyProbe(main, _, _) => main < |m.tables|
       case CopyCas(main, _, _) => main < |m.tables|
       case CopyStore(main, _, _) => main < |m.tables|
       case CountUp(main) => main < |m.tables|
       case TestLock(main, _) => main < |m.tables|
       case Allocate(main, _) => main < |m.tables|
       case Unlock(main, _) => main < |m.tables|
       case Create(main, _) => main < |m.tables|
       case InsertProbe(main, _, _) => main < |m.tables|
       case InsertCas(main, _, _) => main < |m.tables|
       case InsertStore(main, _, _) => main < |m.tables|
       case _ => true
  }

  predicate Enabled(c: Config, m: Memory, t: nat, a: Action) {
    t < |m.pc| == |c.hashed| && match a
    case Call => m.pc[t].Idle?
    case Return => m.pc[t].Done?
    case Advance(_) => !m.pc[t].Idle? && !m.pc[t].Done? && Safe(m, m.pc[t])
  }

  function Move(m: Memory, t: nat, pc: Pc): Memory
    requires t < |m.pc|
  {
    m.(pc := m.pc[t := pc])
  }

  function StepThread(c: Config, m: Memory, t: nat, ok: bool): Memory
    requires Enabled(c, m, t, Advance(ok))
  {
    match m.pc[t]
    case LoadMain => Move(m, t, Probe(m.main, m.main, c.hashed[t]))
    case Probe(main, h, i) =>
      (match SlotAt(m, h, i)
       case Taken(key, value) =>
         if key != t then Move(m, t, Probe(main, h, i + 1))
         else if h != main && value.Some? then Move(m, t, CopyProbe(main, value.value, c.hashed[t]))
         else Move(m, t, Done(value))
       case Free =>
         Move(m, t, if m.tables[h].prev.Some? then Probe(main, m.tables[h].prev.value, c.hashed[t]) else CountUp(main)))
    case CopyProbe(main, p, i) => Move(m, t, if SlotAt(m, main, i).Free? then CopyCas(main, p, i) else CopyProbe(main, p, i + 1))
    case CopyCas(main, p, i) =>
      if SlotAt(m, main, i).Free? then Move(SetSlot(m, main, i, Taken(t, None)), t, CopyStore(main, p, i))
      else Move(m, t, CopyProbe(main, p, i + 1))
    case CopyStore(main, p, i) => Move(SetSlot(m, main, i, Taken(t, Some(p))), t, Done(Some(p)))
    case CountUp(main) =>
      var n := if m.count >= 0 then m.count + 1 else 0;
      Move(m.(count := m.count + 1), t, AfterCount(m, main, n))
    case TestLock(main, n) =>
      if m.resizing then Move(m, t, AfterLock(m, main, n)) else Move(m.(resizing := true), t, LockedLoad(n))
    case LockedLoad(n) => Move(m, t, if n >= Cap(m, m.main) / 2 then Allocate(m.main, n) else Unlock(m.main, n))
    case Allocate(main, n) =>
      if ok then
        var table := Table(seq(NewCapacity(2 * Cap(m, main), n), _ => Free), Some(main));
        Move(m.(tables := m.tables + [table], main := |m.tables|), t, Unlock(|m.tables|, n))
      else Move(m, t, CountDown(true))
    case Unlock(main, n) => Move(m.(resizing := false), t, AfterLock(m, main, n))
    case UnlockFailed => Move(m.(resizing := false), t, Done(None))
    case Reload(n) => Move(m, t, AfterCount(m, m.main, n))
    case Create(main, n) =>
      if ok then Move(m.(producers := m.producers + 1), t, InsertProbe(main, m.producers, c.hashed[t]))
      else Move(m, t, CountDown(false))
    case InsertProbe(main, p, i) => Move(m, t, if SlotAt(m, main, i).Free? then InsertCas(main, p, i) else InsertProbe(main, p, i + 1))
    case InsertCas(main, p, i) =>
      if SlotAt(m, main, i).Free? then Move(SetSlot(m, main, i, Taken(t, None)), t, InsertStore(main, p, i))
      else Move(m, t, InsertProbe(main, p, i + 1))
    case InsertStore(main, p, i) => Move(SetSlot(m, main, i, Taken(t, Some(p))), t, Done(Some(p)))
    case CountDown(unlock) => Move(m.(count := m.count - 1), t, if unlock then UnlockFailed else Done(None))
  }

  function Step(c: Config, m: Memory, t: nat, a: Action): Memory
    requires Enabled(c, m, t, a)
  {
    match a
    case Call => Move(m, t, LoadMain)
    case Return => Move(m, t, Idle)
    case Advance(ok) => StepThread(c, m, t, ok)
  }

  // ----- Bookkeeping

  /** The threads that are counted, in the order in which they counted themselves; their newCount; the producer of each
      thread whose key is in a table; and the thread for which each producer was created. */
  datatype Book = Book(live: seq<nat>, num: seq<nat>, home: map<nat, nat>, owner: seq<nat>)

  function Without(s: seq<nat>, t: nat): seq<nat> {
    if s == [] then [] else if s[0] == t then Without(s[1..], t) else [s[0]] + Without(s[1..], t)
  }

  function Track(c: Config, m: Memory, b: Book, t: nat, a: Action): Book
    requires Enabled(c, m, t, a) && |b.num| == |m.pc|
  {
    if !a.Advance? then b else
    match m.pc[t]
    case CountUp(main) => b.(live := b.live + [t], num := b.num[t := if m.count >= 0 then m.count + 1 else 0])
    case Create(_, _) => if a.ok then b.(owner := b.owner + [t]) else b
    case InsertCas(main, p, i) => if SlotAt(m, main, i).Free? then b.(home := b.home[t := p]) else b
    case CountDown(_) => b.(live := Without(b.live, t))
    case _ => b
  }

  // ----- The invariant

  predicate Filled(slots: seq<Slot>, i: int)
    requires |slots| > 0
  {
    slots[i % |slots|].Taken?
  }

  /** Every slot that a probe from `from` meets before `to` is taken. */
  ghost predicate FilledTo(slots: seq<Slot>, from: int, to: int)
    requires |slots| > 0
  {
    forall i {:trigger Filled(slots, i)} :: from <= i < to ==> Filled(slots, i)
  }

  /** The index, before masking, at which a probe from `hash` first meets slot s. */
  function Meets(hash: nat, s: nat, cap: nat): (i: int)
    requires cap > 0
    ensures hash <= i < hash + cap
  {
    hash + (s - hash) % cap
  }

  predicate HasKey(slots: seq<Slot>, s: nat, t: nat) { s < |slots| && slots[s].Taken? && slots[s].key == t }

  ghost predicate InTable(slots: seq<Slot>, t: nat) { exists s :: HasKey(slots, s, t) }

  /** A key in a table belongs to a registered thread, which was counted early enough, and whose probes reach it. */
  ghost predicate KeyOk(slots: seq<Slot>, s: nat, c: Config, b: Book)
    requires 0 < |slots| && s < |slots|
  {
    slots[s].Taken? ==>
      && var t := slots[s].key;
      && t < |c.hashed| && t in b.live && t in b.home && t < |b.num| && b.num[t] < Limit(|slots|)
      && FilledTo(slots, c.hashed[t], Meets(c.hashed[t], s, |slots|))
  }

  ghost predicate TableOk(slots: seq<Slot>, c: Config, b: Book) {
    && |slots| > 0
    && (forall s {:trigger KeyOk(slots, s, c, b)} :: 0 <= s < |slots| ==> KeyOk(slots, s, c, b))
    && (forall s, u, t {:trigger HasKey(slots, s, t), HasKey(slots, u, t)} :: HasKey(slots, s, t) && HasKey(slots, u, t) ==> s == u)
  }

  ghost predicate ChainOk(c: Config, m: Memory, b: Book) {
    && |m.tables| > 0 && m.main == |m.tables| - 1
    && (forall h :: 0 <= h < |m.tables| ==> |m.tables[h].slots| > 0)
    && (forall h {:trigger TableOk(m.tables[h].slots, c, b)} :: 0 <= h < |m.tables| ==> TableOk(m.tables[h].slots, c, b))
    && (forall h :: 0 <= h < |m.tables| ==> m.tables[h].prev == if h == 0 then None else Some(h - 1))
    && (forall h, k {:trigger m.tables[h], m.tables[k]} :: 0 <= h <= k < |m.tables| ==> |m.tables[h].slots| <= |m.tables[k].slots|)
  }

  predicate Stores(pc: Pc, h: nat, s: nat, cap: nat)
    requires cap > 0
  {
    (pc.CopyStore? || pc.InsertStore?) && pc.main == h && pc.i % cap == s
  }

  /** A key's value is its thread's producer, or is just about to be stored by that thread. */
  predicate ValueOk(m: Memory, b: Book, h: nat, s: nat)
    requires h < |m.tables| && s < |m.tables[h].slots|
  {
    match m.tables[h].slots[s]
    case Free => true
    case Taken(k, v) =>
      k < |m.pc| && k in b.home && (v == Some(b.home[k]) || (v.None? && Stores(m.pc[k], h, s, |m.tables[h].slots|)))
  }

  ghost predicate ValuesOk(m: Memory, b: Book) {
    forall h, s {:trigger ValueOk(m, b, h, s)} :: 0 <= h < |m.tables| && 0 <= s < |m.tables[h].slots| ==> ValueOk(m, b, h, s)
  }

  /** Whoever counted itself at position k of the live threads saw a count of at least k + 1. */
  ghost predicate LiveOk(m: Memory, b: Book) {
    && m.count == |b.live| && |b.num| == |m.pc|
    && (forall k :: 0 <= k < |b.live| ==> b.live[k] < |m.pc|)
    && (forall k :: 0 <= k < |b.live| && b.live[k] < |b.num| ==> k + 1 <= b.num[b.live[k]])
    && (forall j, k :: 0 <= j < k < |b.live| ==> b.live[j] != b.live[k])
  }

  ghost predicate HomesOk(m: Memory, b: Book) {
    && |b.owner| == m.producers
    && (forall t {:trigger HomeOk(m, b, t)} :: t in b.home ==> HomeOk(m, b, t))
  }

  ghost predicate HomeOk(m: Memory, b: Book, t: nat)
    requires t in b.home
  {
    && t in b.live && b.home[t] < |b.owner| && b.owner[b.home[t]] == t
    && exists h :: 0 <= h < |m.tables| && InTable(m.tables[h].slots, t)
  }

  predicate Locked(pc: Pc) {
    pc.LockedLoad? || pc.Allocate? || pc.UnlockFailed? || (pc.Unlock?) || (pc.CountDown? && pc.unlock)
  }

  ghost predicate LockOk(m: Memory) {
    && (forall t :: 0 <= t < |m.pc| && Locked(m.pc[t]) ==> m.resizing)
    && (forall t, u :: 0 <= t < |m.pc| && 0 <= u < |m.pc| && Locked(m.pc[t]) && Locked(m.pc[u]) ==> t == u)
  }

  /** The probe of thread t so far: every slot it has seen is taken, by another thread. */
  ghost predicate Passed(slots: seq<Slot>, from: int, to: int, t: nat)
    requires |slots| > 0
  {
    forall i {:trigger Filled(slots, i)} :: from <= i < to ==> Filled(slots, i) && slots[i % |slots|].key != t
  }

  predicate Counting(pc: Pc) {
    pc.TestLock? || pc.LockedLoad? || pc.Allocate? || pc.Unlock? || pc.Reload? || pc.Create?
  }

  ghost predicate ThreadOk(c: Config, m: Memory, b: Book, t: nat)
    requires t < |m.pc| == |c.hashed| == |b.num| && ChainOk(c, m, b)
  {
    var pc := m.pc[t];
    if pc.Idle? || pc.LoadMain? then (t in b.live <==> t in b.home)
    else if pc.Done? then
      && (t in b.live <==> t in b.home)
      && (pc.result.Some? ==> t in b.home && b.home[t] == pc.result.value) && (pc.result.None? ==> t !in b.home)
    else if pc.Probe? then
      && (t in b.live <==> t in b.home) && pc.main < |m.tables| && pc.h <= pc.main && c.hashed[t] <= pc.i
      && Passed(m.tables[pc.h].slots, c.hashed[t], pc.i, t)
      && (forall h :: pc.h < h < |m.tables| ==> !InTable(m.tables[h].slots, t))
    else if pc.CountUp? then t !in b.live && t !in b.home && pc.main < |m.tables|
    else if pc.UnlockFailed? then t !in b.live && t !in b.home
    else if pc.CountDown? then t in b.live && t !in b.home
    else if Counting(pc) then
      && t in b.live && t !in b.home && pc.n == b.num[t]
      && (!pc.LockedLoad? && !pc.Reload? ==> pc.main < |m.tables|)
      && (pc.Allocate? ==> pc.main == m.main)
      && (pc.Create? ==> pc.n < Limit(|m.tables[pc.main].slots|))
    else
      && t in b.live && pc.main < |m.tables| && b.num[t] < Limit(|m.tables[pc.main].slots|) && c.hashed[t] <= pc.i
      && if pc.CopyStore? || pc.InsertStore? then
           t in b.home && b.home[t] == pc.p && m.tables[pc.main].slots[pc.i % |m.tables[pc.main].slots|] == Taken(t, None)
         else
           && FilledTo(m.tables[pc.main].slots, c.hashed[t], pc.i) && !InTable(m.tables[pc.main].slots, t)
           && if pc.CopyProbe? || pc.CopyCas? then t in b.home && b.home[t] == pc.p
              else t !in b.home && pc.p < |b.owner| && b.owner[pc.p] == t
  }

  ghost predicate ThreadsOk(c: Config, m: Memory, b: Book)
    requires |m.pc| == |c.hashed| == |b.num| && ChainOk(c, m, b)
  {
    forall t {:trigger ThreadOk(c, m, b, t)} :: 0 <= t < |m.pc| ==> ThreadOk(c, m, b, t)
  }

  ghost predicate Inv(c: Config, m: Memory, b: Book) {
    && |m.pc| == |c.hashed| && LiveOk(m, b) && ChainOk(c, m, b) && ValuesOk(m, b) && HomesOk(m, b) && LockOk(m)
    && ThreadsOk(c, m, b)
  }

  // ----- Every table keeps a free slot

  function Occupied(slots: seq<Slot>): (n: nat)
    ensures n <= |slots|
  {
    if slots == [] then 0 else Occupied(slots[..|slots|-1]) + if slots[|slots|-1].Taken? then 1 else 0
  }

  /** Distinct keys, all among the first k live threads: no more than k. */
  lemma {:induction false} KeysAmong(slots: seq<Slot>, among: seq<nat>)
    requires forall s, u, t {:trigger HasKey(slots, s, t), HasKey(slots, u, t)} :: HasKey(slots, s, t) && HasKey(slots, u, t) ==> s == u
    requires forall s :: 0 <= s < |slots| && slots[s].Taken? ==> slots[s].key in among
    ensures Occupied(slots) <= |among|
  {
    if slots != [] {
      var last := |slots| - 1;
      var front := slots[..last];
      forall s, u, t | HasKey(front, s, t) && HasKey(front, u, t) ensures s == u {
        assert HasKey(slots, s, t) && HasKey(slots, u, t);
      }
      if slots[last].Taken? {
        var t := slots[last].key;
        var k :| 0 <= k < |among| && among[k] == t;
        assert HasKey(slots, last, t);
        forall s | 0 <= s < |front| && front[s].Taken? ensures front[s].key in among[..k] + among[k+1..] {
          assert HasKey(slots, s, slots[s].key);
          assert slots[s].key in among && slots[s].key != t;
          var j :| 0 <= j < |among| && among[j] == slots[s].key;
          assert if j < k then (among[..k] + among[k+1..])[j] == among[j] else (among[..k] + among[k+1..])[j-1] == among[j];
        }
        KeysAmong(front, among[..k] + among[k+1..]);
      } else {
        KeysAmong(front, among);
      }
    }
  }

  lemma {:induction false} LastOf(slots: seq<Slot>, live: seq<nat>) returns (k: nat)
    requires forall s :: 0 <= s < |slots| && slots[s].Taken? ==> slots[s].key in live
    ensures k <= |live| && forall s :: 0 <= s < |slots| && slots[s].Taken? ==> slots[s].key in live[..k]
    ensures k > 0 ==> exists s :: 0 <= s < |slots| && slots[s].Taken? && slots[s].key == live[k-1]
  {
    if live == [] {
      k := 0;
    } else {
      var last := |live| - 1;
      if s :| 0 <= s < |slots| && slots[s].Taken? && slots[s].key == live[last] {
        k := |live|;
        assert live[..k] == live;
      } else {
        forall s | 0 <= s < |slots| && slots[s].Taken? ensures slots[s].key in live[..last] {
          var j :| 0 <= j < |live| && live[j] == slots[s].key;
          assert live[..last][j] == slots[s].key;
        }
        k := LastOf(slots, live[..last]);
        assert live[..last][..k] == live[..k];
      }
    }
  }

  /** The table holds fewer keys than three quarters of its capacity: of all the threads with a key in it look at the
      one that counted itself last. All the others were counted by then, and it saw a count below that limit. */
  lemma FewKeys(c: Config, m: Memory, b: Book, h: nat)
    requires LiveOk(m, b) && h < |m.tables| && TableOk(m.tables[h].slots, c, b)
    ensures var n := Occupied(m.tables[h].slots); n == 0 || n < Limit(Cap(m, h))
  {
    var slots := m.tables[h].slots;
    forall s | 0 <= s < |slots| && slots[s].Taken? ensures slots[s].key in b.live { assert KeyOk(slots, s, c, b); }
    var k := LastOf(slots, b.live);
    KeysAmong(slots, b.live[..k]);
    if k > 0 {
      var s :| 0 <= s < |slots| && slots[s].Taken? && slots[s].key == b.live[k-1];
      assert KeyOk(slots, s, c, b);
    }
  }

  lemma {:induction false} AllTakenIsFull(slots: seq<Slot>)
    requires forall s :: 0 <= s < |slots| ==> slots[s].Taken?
    ensures Occupied(slots) == |slots|
  {
    if slots != [] { AllTakenIsFull(slots[..|slots|-1]); }
  }

  lemma MeetsSlot(hash: nat, s: nat, cap: nat)
    requires cap > 0 && s < cap
    ensures Meets(hash, s, cap) % cap == s
  {
    var x := s - hash;
    assert x == cap * (x / cap) + x % cap;
    assert cap * (-(x / cap)) == -(cap * (x / cap));
    ModUnique(Meets(hash, s, cap), cap, -(x / cap), s);
  }

  /** No probe loop runs round: within the capacity it meets a free slot. */
  lemma ProbeEnds(c: Config, m: Memory, b: Book, h: nat, from: nat, to: int)
    requires LiveOk(m, b) && h < |m.tables| && TableOk(m.tables[h].slots, c, b)
    requires FilledTo(m.tables[h].slots, from, to)
    ensures to < from + Cap(m, h)
  {
    var slots := m.tables[h].slots;
    FewKeys(c, m, b, h);
    if to >= from + |slots| {
      forall s | 0 <= s < |slots| ensures slots[s].Taken? {
        MeetsSlot(from, s, |slots|);
        assert Filled(slots, Meets(from, s, |slots|));
      }
      AllTakenIsFull(slots);
    }
  }
}
