/** Every step of the threads on the hash tables keeps the invariant; what runs mean. */
module ProducerHashProof {
  import opened Wrappers
  import opened Bits
  import opened ProducerHash

  // ----- Tables only gain keys

  ghost predicate SlotsGrow(slots: seq<Slot>, slots': seq<Slot>) {
    && |slots'| == |slots|
    && forall s :: 0 <= s < |slots| && slots[s].Taken? ==> slots'[s].Taken? && slots'[s].key == slots[s].key
  }

  ghost predicate TablesGrow(m: Memory, m': Memory) {
    && |m.tables| <= |m'.tables|
    && (forall h {:trigger SlotsGrow(m.tables[h].slots, m'.tables[h].slots)} :: 0 <= h < |m.tables| ==>
          SlotsGrow(m.tables[h].slots, m'.tables[h].slots))
  }

  lemma FilledGrows(slots: seq<Slot>, slots': seq<Slot>, from: int, to: int)
    requires |slots| > 0 && SlotsGrow(slots, slots') && FilledTo(slots, from, to)
    ensures FilledTo(slots', from, to)
  {
    forall i {:trigger Filled(slots', i)} | from <= i < to ensures Filled(slots', i) { assert Filled(slots, i); }
  }

  lemma PassedGrows(slots: seq<Slot>, slots': seq<Slot>, from: int, to: int, t: nat)
    requires |slots| > 0 && SlotsGrow(slots, slots') && Passed(slots, from, to, t)
    ensures Passed(slots', from, to, t)
  {
    forall i {:trigger Filled(slots', i)} | from <= i < to ensures Filled(slots', i) && slots'[i % |slots'|].key != t {
      assert Filled(slots, i) && slots[i % |slots|].key != t;
      var k := i % |slots|;
      assert slots[k].Taken? && slots'[k].key == slots[k].key;
    }
  }

  // ----- What a step leaves alone for a thread that does not take it

  ghost predicate LeavesThread(m: Memory, b: Book, m': Memory, b': Book, u: nat)
    requires u < |m.pc| == |m'.pc| == |b.num| == |b'.num|
  {
    && m'.pc[u] == m.pc[u] && TablesGrow(m, m') && b'.num[u] == b.num[u]
    && (u in b'.live <==> u in b.live) && (u in b'.home <==> u in b.home) && (u in b.home ==> b'.home[u] == b.home[u])
    && b.owner <= b'.owner
    && (m.pc[u].Allocate? ==> m'.main == m.main)
    && (forall h :: 0 <= h < |m'.tables| && InTable(m'.tables[h].slots, u) ==> h < |m.tables| && InTable(m.tables[h].slots, u))
    && (m.pc[u].CopyStore? || m.pc[u].InsertStore? ==> m.pc[u].main < |m.tables| ==>
          forall s :: 0 <= s < |m.tables[m.pc[u].main].slots| && m.tables[m.pc[u].main].slots[s] == Taken(u, None) ==>
            s < |m'.tables[m.pc[u].main].slots| && m'.tables[m.pc[u].main].slots[s] == Taken(u, None))
  }

  lemma ThreadFrame(c: Config, m: Memory, b: Book, m': Memory, b': Book, u: nat)
    requires u < |m.pc| == |m'.pc| == |c.hashed| == |b.num| == |b'.num| && ChainOk(c, m, b) && ChainOk(c, m', b')
    requires ThreadOk(c, m, b, u) && LeavesThread(m, b, m', b', u)
    ensures ThreadOk(c, m', b', u)
  {
    var pc := m.pc[u];
    if pc.Probe? {
      assert SlotsGrow(m.tables[pc.h].slots, m'.tables[pc.h].slots);
      PassedGrows(m.tables[pc.h].slots, m'.tables[pc.h].slots, c.hashed[u], pc.i, u);
    } else if pc.CopyProbe? || pc.CopyCas? || pc.InsertProbe? || pc.InsertCas? {
      assert SlotsGrow(m.tables[pc.main].slots, m'.tables[pc.main].slots);
      FilledGrows(m.tables[pc.main].slots, m'.tables[pc.main].slots, c.hashed[u], pc.i);
    } else if pc.CopyStore? || pc.InsertStore? || pc.Create? {
      assert SlotsGrow(m.tables[pc.main].slots, m'.tables[pc.main].slots);
    }
  }

  lemma OtherThreads(c: Config, m: Memory, b: Book, m': Memory, b': Book, t: nat)
    requires t < |m.pc| == |m'.pc| == |c.hashed| == |b.num| == |b'.num| && ChainOk(c, m, b) && ChainOk(c, m', b')
    requires ThreadsOk(c, m, b) && ThreadOk(c, m', b', t)
    requires forall u :: 0 <= u < |m.pc| && u != t ==> LeavesThread(m, b, m', b', u)
    ensures ThreadsOk(c, m', b')
  {
    forall u | 0 <= u < |m'.pc| ensures ThreadOk(c, m', b', u) {
      if u != t {
        assert ThreadOk(c, m, b, u);
        ThreadFrame(c, m, b, m', b', u);
      }
    }
  }

  /** A table stays in order when the book changes for threads that have no key anywhere. */
  lemma TableSameKeys(slots: seq<Slot>, c: Config, b: Book, b': Book)
    requires TableOk(slots, c, b) && |b'.num| == |b.num|
    requires forall t :: t in b.home && t in b.live && t < |b.num| ==> t in b'.home && t in b'.live && b'.num[t] == b.num[t]
    ensures TableOk(slots, c, b')
  {
    forall s | 0 <= s < |slots| ensures KeyOk(slots, s, c, b') { assert KeyOk(slots, s, c, b); }
  }

  lemma ChainSameKeys(c: Config, m: Memory, b: Book, m': Memory, b': Book)
    requires ChainOk(c, m, b) && m'.tables == m.tables && m'.main == m.main && |b'.num| == |b.num|
    requires forall t :: t in b.home && t in b.live && t < |b.num| ==> t in b'.home && t in b'.live && b'.num[t] == b.num[t]
    ensures ChainOk(c, m', b')
  {
    forall h | 0 <= h < |m'.tables| ensures TableOk(m'.tables[h].slots, c, b') {
      assert TableOk(m.tables[h].slots, c, b);
      TableSameKeys(m.tables[h].slots, c, b, b');
    }
  }

  lemma SelfGrows(m: Memory, m': Memory)
    requires m'.tables == m.tables
    ensures TablesGrow(m, m')
  {
  }

  lemma ValuesMove(m: Memory, b: Book, m': Memory, b': Book, t: nat)
    requires ValuesOk(m, b) && t < |m.pc| == |m'.pc| && m'.tables == m.tables
    requires forall u :: 0 <= u < |m.pc| && u != t ==> m'.pc[u] == m.pc[u]
    requires !m.pc[t].CopyStore? && !m.pc[t].InsertStore?
    requires forall u :: u in b.home ==> u in b'.home && b'.home[u] == b.home[u]
    ensures ValuesOk(m', b')
  {
    forall h, s | 0 <= h < |m'.tables| && 0 <= s < |m'.tables[h].slots| ensures ValueOk(m', b', h, s) {
      assert ValueOk(m, b, h, s);
    }
  }

  lemma HomesSame(m: Memory, b: Book, m': Memory, b': Book)
    requires HomesOk(m, b) && |b'.owner| == m'.producers && b.owner <= b'.owner && b'.home == b.home
    requires forall t :: t in b.home && t in b.live ==> t in b'.live
    requires m'.tables == m.tables
    ensures HomesOk(m', b')
  {
    forall t | t in b'.home ensures HomeOk(m', b', t) { assert HomeOk(m, b, t); }
  }

  // ----- Steps that leave tables and counts alone

  /** Only the thread's program counter moves, and perhaps the lock. */
  lemma MoveOnly(c: Config, m: Memory, b: Book, t: nat, pc: Pc, resizing: bool)
    requires Inv(c, m, b) && t < |m.pc| && !m.pc[t].CopyStore? && !m.pc[t].InsertStore?
    requires ChainOk(c, Move(m.(resizing := resizing), t, pc), b) ==> ThreadOk(c, Move(m.(resizing := resizing), t, pc), b, t)
    requires if resizing == m.resizing then Locked(pc) ==> Locked(m.pc[t])
             else if resizing then Locked(pc) else Locked(m.pc[t]) && !Locked(pc)
    ensures Inv(c, Move(m.(resizing := resizing), t, pc), b)
  {
    var m' := Move(m.(resizing := resizing), t, pc);
    ChainSameKeys(c, m, b, m', b);
    ValuesMove(m, b, m', b, t);
    HomesSame(m, b, m', b);
    SelfGrows(m, m');
    OtherThreads(c, m, b, m', b, t);
  }

  lemma ChainMoves(c: Config, m: Memory, b: Book, t: nat, pc: Pc, resizing: bool)
    requires ChainOk(c, m, b) && t < |m.pc|
    ensures ChainOk(c, Move(m.(resizing := resizing), t, pc), b)
  {
    forall h | 0 <= h < |m.tables| ensures TableOk(m.tables[h].slots, c, b) { }
  }

  /** A probe that has passed other keys only has not gone beyond the key it looks for: the next slot is taken. */
  lemma OnTheWay(slots: seq<Slot>, c: Config, b: Book, t: nat, s: nat, i: int)
    requires TableOk(slots, c, b) && t < |c.hashed| && c.hashed[t] <= i && Passed(slots, c.hashed[t], i, t)
    requires HasKey(slots, s, t)
    ensures Filled(slots, i)
  {
    var goal := Meets(c.hashed[t], s, |slots|);
    assert KeyOk(slots, s, c, b);
    MeetsSlot(c.hashed[t], s, |slots|);
    assert Filled(slots, goal);
  }

  /** A probe that ends at a free slot proves that the key is not in the table. */
  lemma NotHere(slots: seq<Slot>, c: Config, b: Book, t: nat, i: int)
    requires TableOk(slots, c, b) && t < |c.hashed| && c.hashed[t] <= i && Passed(slots, c.hashed[t], i, t)
    requires !Filled(slots, i)
    ensures !InTable(slots, t)
  {
    if InTable(slots, t) {
      var s: nat :| HasKey(slots, s, t);
      OnTheWay(slots, c, b, t, s, i);
    }
  }

  lemma RegisteredInTable(m: Memory, b: Book, t: nat)
    requires HomesOk(m, b) && t in b.home
    ensures exists h :: 0 <= h < |m.tables| && InTable(m.tables[h].slots, t)
  {
    assert HomeOk(m, b, t);
  }

  lemma InNoTable(c: Config, m: Memory, b: Book, t: nat)
    requires HomesOk(m, b) && forall h :: 0 <= h < |m.tables| ==> !InTable(m.tables[h].slots, t)
    ensures t !in b.home
  {
    if t in b.home { RegisteredInTable(m, b, t); }
  }

  lemma KeyIsRegistered(c: Config, m: Memory, b: Book, h: nat, t: nat)
    requires ChainOk(c, m, b) && h < |m.tables| && InTable(m.tables[h].slots, t)
    ensures t in b.home
  {
    var s: nat :| HasKey(m.tables[h].slots, s, t);
    assert TableOk(m.tables[h].slots, c, b) && KeyOk(m.tables[h].slots, s, c, b);
  }

  lemma NotRegistered(c: Config, m: Memory, b: Book, h: nat, t: nat)
    requires ChainOk(c, m, b) && h < |m.tables| && t !in b.home
    ensures !InTable(m.tables[h].slots, t)
  {
    if InTable(m.tables[h].slots, t) { KeyIsRegistered(c, m, b, h, t); }
  }

  lemma FoundKey(c: Config, m: Memory, b: Book, t: nat, h: nat, s: nat)
    requires ChainOk(c, m, b) && ValuesOk(m, b) && t < |m.pc| && !m.pc[t].CopyStore? && !m.pc[t].InsertStore?
    requires h < |m.tables| && HasKey(m.tables[h].slots, s, t)
    ensures t in b.live && t in b.home && t < |b.num| && b.num[t] < Limit(|m.tables[h].slots|)
    ensures m.tables[h].slots[s].value == Some(b.home[t])
  {
    assert TableOk(m.tables[h].slots, c, b) && KeyOk(m.tables[h].slots, s, c, b);
    assert ValueOk(m, b, h, s);
  }

  lemma LimitGrows(a: nat, z: nat)
    requires a <= z
    ensures Limit(a) <= Limit(z)
  {
  }

  lemma JustMove(c: Config, m: Memory, b: Book, t: nat, pc: Pc)
    requires Inv(c, m, b) && t < |m.pc| && !m.pc[t].CopyStore? && !m.pc[t].InsertStore?
    requires ChainOk(c, Move(m, t, pc), b) ==> ThreadOk(c, Move(m, t, pc), b, t)
    requires Locked(pc) ==> Locked(m.pc[t])
    ensures Inv(c, Move(m, t, pc), b)
  {
    assert m.(resizing := m.resizing) == m;
    MoveOnly(c, m, b, t, pc, m.resizing);
  }

  lemma ProbeMiss(c: Config, m: Memory, b: Book, t: nat)
    requires Inv(c, m, b) && t < |m.pc| && m.pc[t].Probe? && m.pc[t].h < |m.tables| && SlotAt(m, m.pc[t].h, m.pc[t].i).Free?
    ensures var p := m.pc[t];
      Inv(c, Move(m, t, if p.h > 0 then Probe(p.main, p.h - 1, c.hashed[t]) else CountUp(p.main)), b)
  {
    assert ThreadOk(c, m, b, t);
    var p := m.pc[t];
    assert TableOk(m.tables[p.h].slots, c, b);
    NotHere(m.tables[p.h].slots, c, b, t, p.i);
    if p.h == 0 { InNoTable(c, m, b, t); }
    JustMove(c, m, b, t, if p.h > 0 then Probe(p.main, p.h - 1, c.hashed[t]) else CountUp(p.main));
  }

  lemma ProbePass(c: Config, m: Memory, b: Book, t: nat)
    requires Inv(c, m, b) && t < |m.pc| && m.pc[t].Probe? && m.pc[t].h < |m.tables|
    requires SlotAt(m, m.pc[t].h, m.pc[t].i).Taken? && SlotAt(m, m.pc[t].h, m.pc[t].i).key != t
    ensures Inv(c, Move(m, t, Probe(m.pc[t].main, m.pc[t].h, m.pc[t].i + 1)), b)
  {
    assert ThreadOk(c, m, b, t);
    assert Filled(m.tables[m.pc[t].h].slots, m.pc[t].i);
    JustMove(c, m, b, t, Probe(m.pc[t].main, m.pc[t].h, m.pc[t].i + 1));
  }

  lemma ProbeFound(c: Config, m: Memory, b: Book, t: nat)
    requires Inv(c, m, b) && t < |m.pc| && m.pc[t].Probe? && m.pc[t].h < |m.tables|
    requires SlotAt(m, m.pc[t].h, m.pc[t].i).Taken? && SlotAt(m, m.pc[t].h, m.pc[t].i).key == t
    ensures SlotAt(m, m.pc[t].h, m.pc[t].i).value.Some?
    ensures var p, v := m.pc[t], SlotAt(m, m.pc[t].h, m.pc[t].i).value;
      Inv(c, Move(m, t, if p.h != p.main then CopyProbe(p.main, v.value, c.hashed[t]) else Done(v)), b)
  {
    assert ThreadOk(c, m, b, t);
    var p, slots := m.pc[t], m.tables[m.pc[t].h].slots;
    assert HasKey(slots, p.i % |slots|, t);
    FoundKey(c, m, b, t, p.h, p.i % |slots|);
    LimitGrows(|slots|, |m.tables[p.main].slots|);
    var v := SlotAt(m, p.h, p.i).value;
    JustMove(c, m, b, t, if p.h != p.main then CopyProbe(p.main, v.value, c.hashed[t]) else Done(v));
  }

  lemma ThreadIsSafe(c: Config, m: Memory, b: Book, t: nat, ok: bool)
    requires Inv(c, m, b) && t < |m.pc| && !m.pc[t].Idle? && !m.pc[t].Done?
    ensures Enabled(c, m, t, Advance(ok))
  {
    assert ThreadOk(c, m, b, t);
  }

  lemma ProbeStep(c: Config, m: Memory, b: Book, t: nat, ok: bool)
    requires Inv(c, m, b) && t < |m.pc| && m.pc[t].Probe?
    ensures Enabled(c, m, t, Advance(ok)) && Inv(c, StepThread(c, m, t, ok), b)
  {
    ThreadIsSafe(c, m, b, t, ok);
    match SlotAt(m, m.pc[t].h, m.pc[t].i)
    case Free => ProbeMiss(c, m, b, t);
    case Taken(key, _) => if key == t { ProbeFound(c, m, b, t); } else { ProbePass(c, m, b, t); }
  }

  /** Looking for a free slot, to copy or to insert. */
  lemma SeekStep(c: Config, m: Memory, b: Book, t: nat, ok: bool)
    requires Inv(c, m, b) && t < |m.pc| && (m.pc[t].CopyProbe? || m.pc[t].InsertProbe?)
    ensures Enabled(c, m, t, Advance(ok)) && Inv(c, StepThread(c, m, t, ok), b)
  {
    ThreadIsSafe(c, m, b, t, ok);
    SeekMoves(c, m, b, t, StepThread(c, m, t, ok).pc[t]);
  }

  lemma SeekMoves(c: Config, m: Memory, b: Book, t: nat, pc: Pc)
    requires Inv(c, m, b) && t < |m.pc| && (m.pc[t].CopyProbe? || m.pc[t].InsertProbe?) && m.pc[t].main < |m.tables|
    requires var x := m.pc[t];
      pc == if SlotAt(m, x.main, x.i).Free? then (if x.CopyProbe? then CopyCas(x.main, x.p, x.i) else InsertCas(x.main, x.p, x.i))
            else if x.CopyProbe? then CopyProbe(x.main, x.p, x.i + 1) else InsertProbe(x.main, x.p, x.i + 1)
    ensures Inv(c, Move(m, t, pc), b)
  {
    assert ThreadOk(c, m, b, t);
    var slots, i := m.tables[m.pc[t].main].slots, m.pc[t].i;
    if slots[i % |slots|].Taken? { assert Filled(slots, i); }
    JustMove(c, m, b, t, pc);
  }

  lemma AfterCountOk(c: Config, m: Memory, b: Book, t: nat, main: nat, n: nat)
    requires Inv(c, m, b) && t < |m.pc| && t in b.live && t !in b.home && n == b.num[t] && main < |m.tables|
    ensures ThreadOk(c, Move(m, t, AfterLock(m, main, n)), b, t)
    ensures ThreadOk(c, Move(m, t, AfterCount(m, main, n)), b, t)
  {
    ChainMoves(c, m, b, t, AfterLock(m, main, n), m.resizing);
    ChainMoves(c, m, b, t, AfterCount(m, main, n), m.resizing);
    assert m.(resizing := m.resizing) == m;
  }

  /** Accesses of the lock. */
  lemma LockStep(c: Config, m: Memory, b: Book, t: nat, ok: bool)
    requires Inv(c, m, b) && t < |m.pc| && (m.pc[t].TestLock? || m.pc[t].Unlock? || m.pc[t].UnlockFailed?)
    ensures Enabled(c, m, t, Advance(ok)) && Inv(c, StepThread(c, m, t, ok), b)
  {
    ThreadIsSafe(c, m, b, t, ok);
    assert ThreadOk(c, m, b, t);
    if !m.pc[t].UnlockFailed? { AfterCountOk(c, m, b, t, m.pc[t].main, m.pc[t].n); }
    var m' := StepThread(c, m, t, ok);
    MoveOnly(c, m, b, t, m'.pc[t], m'.resizing);
  }

  /** Loads of the newest table. */
  lemma ReloadStep(c: Config, m: Memory, b: Book, t: nat, ok: bool)
    requires Inv(c, m, b) && t < |m.pc| && (m.pc[t].LoadMain? || m.pc[t].LockedLoad? || m.pc[t].Reload?)
    ensures Enabled(c, m, t, Advance(ok)) && Inv(c, StepThread(c, m, t, ok), b)
  {
    ThreadIsSafe(c, m, b, t, ok);
    assert ThreadOk(c, m, b, t);
    if m.pc[t].Reload? { AfterCountOk(c, m, b, t, m.main, m.pc[t].n); }
    JustMove(c, m, b, t, StepThread(c, m, t, ok).pc[t]);
  }

  /** Allocations that fail. */
  lemma FailStep(c: Config, m: Memory, b: Book, t: nat)
    requires Inv(c, m, b) && t < |m.pc| && (m.pc[t].Allocate? || m.pc[t].Create?)
    ensures Enabled(c, m, t, Advance(false)) && Inv(c, StepThread(c, m, t, false), b)
  {
    ThreadIsSafe(c, m, b, t, false);
    assert ThreadOk(c, m, b, t);
    JustMove(c, m, b, t, CountDown(m.pc[t].Allocate?));
  }

  lemma CallOrReturn(c: Config, m: Memory, b: Book, t: nat, pc: Pc)
    requires Inv(c, m, b) && t < |m.pc| && ((pc.LoadMain? && m.pc[t].Idle?) || (pc.Idle? && m.pc[t].Done?))
    ensures Inv(c, Move(m, t, pc), b)
  {
    assert ThreadOk(c, m, b, t);
    JustMove(c, m, b, t, pc);
  }

  // ----- Counting up and down

  lemma CountUpParts(c: Config, m: Memory, b: Book, t: nat, m': Memory, b': Book)
    requires |m.pc| == |c.hashed| && LiveOk(m, b) && ChainOk(c, m, b) && ValuesOk(m, b) && HomesOk(m, b)
    requires t < |m.pc| && m.pc[t].CountUp? && t !in b.live && t !in b.home
    requires |m'.pc| == |m.pc| && m' == m.(count := m.count + 1, pc := m.pc[t := m'.pc[t]])
    requires b' == b.(live := b.live + [t], num := b.num[t := m.count + 1])
    ensures LiveOk(m', b') && ChainOk(c, m', b') && ValuesOk(m', b') && HomesOk(m', b') && TablesGrow(m, m')
  {
    ChainSameKeys(c, m, b, m', b');
    ValuesMove(m, b, m', b', t);
    HomesSame(m, b, m', b');
    SelfGrows(m, m');
  }

  lemma CountUpStep(c: Config, m: Memory, b: Book, t: nat, ok: bool)
    requires Inv(c, m, b) && t < |m.pc| && m.pc[t].CountUp?
    ensures Enabled(c, m, t, Advance(ok)) && Inv(c, StepThread(c, m, t, ok), Track(c, m, b, t, Advance(ok)))
  {
    assert ThreadOk(c, m, b, t);
    var m', b' := StepThread(c, m, t, ok), Track(c, m, b, t, Advance(ok));
    CountUpParts(c, m, b, t, m', b');
    assert b'.live[|b.live|] == t;
    OtherThreads(c, m, b, m', b', t);
  }

  lemma {:induction false} WithoutAt(s: seq<nat>, k: nat)
    requires k < |s| && forall i, j :: 0 <= i < j < |s| ==> s[i] != s[j]
    ensures Without(s, s[k]) == s[..k] + s[k+1..]
  {
    if k == 0 {
      WithoutAbsent(s[1..], s[0]);
      assert s[..0] + s[1..] == s[1..];
    } else {
      WithoutAt(s[1..], k - 1);
      assert s[1..][..k-1] == s[..k][1..] && s[1..][k..] == s[k+1..];
      assert s[..k] + s[k+1..] == [s[0]] + (s[..k][1..] + s[k+1..]);
    }
  }

  lemma {:induction false} WithoutAbsent(s: seq<nat>, t: nat)
    requires t !in s
    ensures Without(s, t) == s
  {
    if s != [] { WithoutAbsent(s[1..], t); }
  }

  function Cut(s: seq<nat>, k: nat): (r: seq<nat>)
    requires k < |s|
    ensures |r| == |s| - 1 && forall j :: 0 <= j < |r| ==> r[j] == s[if j < k then j else j + 1]
  {
    s[..k] + s[k+1..]
  }

  /** Leaving: whoever counted itself later moves one position forward. */
  lemma LeaveLive(m: Memory, b: Book, t: nat, k: nat, m': Memory)
    requires LiveOk(m, b) && k < |b.live| && b.live[k] == t && m'.count == m.count - 1 && |m'.pc| == |m.pc|
    ensures LiveOk(m', b.(live := Cut(b.live, k)))
    ensures forall u :: u in Cut(b.live, k) <==> u in b.live && u != t
  {
    var live' := Cut(b.live, k);
    forall j | 0 <= j < |live'| ensures live'[j] < |m.pc| && j + 1 <= b.num[live'[j]] && live'[j] != t {
      var x := if j < k then j else j + 1;
      assert live'[j] == b.live[x] && x + 1 <= b.num[b.live[x]];
    }
    forall i, j | 0 <= i < j < |live'| ensures live'[i] != live'[j] { }
    forall u | u in b.live && u != t ensures u in live' {
      var j :| 0 <= j < |b.live| && b.live[j] == u;
      assert live'[if j < k then j else j - 1] == u;
    }
  }

  lemma CountDownParts(c: Config, m: Memory, b: Book, t: nat, k: nat, m': Memory, b': Book)
    requires |m.pc| == |c.hashed| && LiveOk(m, b) && ChainOk(c, m, b) && ValuesOk(m, b) && HomesOk(m, b)
    requires t < |m.pc| && m.pc[t].CountDown? && t !in b.home && k < |b.live| && b.live[k] == t
    requires |m'.pc| == |m.pc| && m' == m.(count := m.count - 1, pc := m.pc[t := m'.pc[t]]) && b' == b.(live := Cut(b.live, k))
    ensures LiveOk(m', b') && ChainOk(c, m', b') && ValuesOk(m', b') && HomesOk(m', b') && TablesGrow(m, m')
    ensures forall u :: u in b'.live <==> u in b.live && u != t
  {
    LeaveLive(m, b, t, k, m');
    ChainSameKeys(c, m, b, m', b');
    ValuesMove(m, b, m', b', t);
    HomesSame(m, b, m', b');
    SelfGrows(m, m');
  }

  lemma CountDownAt(c: Config, m: Memory, b: Book, t: nat, k: nat, m': Memory, b': Book)
    requires Inv(c, m, b) && t < |m.pc| && m.pc[t].CountDown? && t !in b.home && k < |b.live| && b.live[k] == t
    requires m' == Move(m.(count := m.count - 1), t, if m.pc[t].unlock then UnlockFailed else Done(None))
    requires b' == b.(live := Cut(b.live, k))
    ensures Inv(c, m', b')
  {
    CountDownParts(c, m, b, t, k, m', b');
    OtherThreads(c, m, b, m', b', t);
  }

  lemma CountDownStep(c: Config, m: Memory, b: Book, t: nat, ok: bool)
    requires Inv(c, m, b) && t < |m.pc| && m.pc[t].CountDown?
    ensures Enabled(c, m, t, Advance(ok)) && Inv(c, StepThread(c, m, t, ok), Track(c, m, b, t, Advance(ok)))
  {
    assert ThreadOk(c, m, b, t);
    var k :| 0 <= k < |b.live| && b.live[k] == t;
    ThreadIsSafe(c, m, b, t, ok);
    WithoutAt(b.live, k);
    CountDownAt(c, m, b, t, k, StepThread(c, m, t, ok), b.(live := Cut(b.live, k)));
  }

  lemma CreateStep(c: Config, m: Memory, b: Book, t: nat)
    requires Inv(c, m, b) && t < |m.pc| && m.pc[t].Create?
    ensures Enabled(c, m, t, Advance(true)) && Inv(c, StepThread(c, m, t, true), Track(c, m, b, t, Advance(true)))
  {
    assert ThreadOk(c, m, b, t);
    var m', b' := StepThread(c, m, t, true), Track(c, m, b, t, Advance(true));
    NotRegistered(c, m, b, m.pc[t].main, t);
    ChainSameKeys(c, m, b, m', b');
    ValuesMove(m, b, m', b', t);
    HomesSame(m, b, m', b');
    SelfGrows(m, m');
    OtherThreads(c, m, b, m', b', t);
  }

  // ----- A bigger table

  lemma EmptyTable(cap: nat, c: Config, b: Book, t: nat)
    requires cap > 0
    ensures TableOk(seq(cap, _ => Free), c, b) && !InTable(seq(cap, _ => Free), t)
  {
  }

  lemma AllocateParts(c: Config, m: Memory, b: Book, t: nat, m': Memory, cap: nat)
    requires ChainOk(c, m, b) && ValuesOk(m, b) && HomesOk(m, b) && t < |m.pc| && m.pc[t].Allocate?
    requires |m'.pc| == |m.pc| && cap >= |m.tables[m.main].slots|
    requires m' == m.(tables := m.tables + [Table(seq(cap, _ => Free), Some(m.main))], main := |m.tables|, pc := m.pc[t := m'.pc[t]])
    ensures ChainOk(c, m', b) && ValuesOk(m', b) && HomesOk(m', b) && TablesGrow(m, m')
    ensures forall u :: !InTable(m'.tables[|m.tables|].slots, u)
  {
    EmptyTable(cap, c, b, t);
    forall h | 0 <= h < |m'.tables| ensures TableOk(m'.tables[h].slots, c, b) {
      if h < |m.tables| { assert TableOk(m.tables[h].slots, c, b); }
    }
    forall h, s | 0 <= h < |m'.tables| && 0 <= s < |m'.tables[h].slots| ensures ValueOk(m', b, h, s) {
      if h < |m.tables| { assert ValueOk(m, b, h, s); }
    }
    forall u | u in b.home ensures HomeOk(m', b, u) {
      assert HomeOk(m, b, u);
      var h :| 0 <= h < |m.tables| && InTable(m.tables[h].slots, u);
      assert InTable(m'.tables[h].slots, u);
    }
    forall h | 0 <= h < |m.tables| ensures SlotsGrow(m.tables[h].slots, m'.tables[h].slots) { }
    forall u ensures !InTable(m'.tables[|m.tables|].slots, u) { EmptyTable(cap, c, b, u); }
  }

  lemma AllocateStep(c: Config, m: Memory, b: Book, t: nat)
    requires Inv(c, m, b) && t < |m.pc| && m.pc[t].Allocate?
    ensures Enabled(c, m, t, Advance(true)) && Inv(c, StepThread(c, m, t, true), b)
  {
    assert ThreadOk(c, m, b, t);
    var m' := StepThread(c, m, t, true);
    AllocateParts(c, m, b, t, m', NewCapacity(2 * Cap(m, m.main), m.pc[t].n));
    forall u | 0 <= u < |m.pc| && u != t ensures LeavesThread(m, b, m', b, u) { }
    OtherThreads(c, m, b, m', b, t);
  }

  // ----- Filling a slot

  function Written(slots: seq<Slot>, s: nat, slot: Slot): seq<Slot>
    requires s < |slots|
  {
    slots[s := slot]
  }

  /** The index at which a probe first meets a slot is unique within one round. */
  lemma MeetsUnique(hash: nat, i: int, cap: nat)
    requires cap > 0 && hash <= i < hash + cap
    ensures Meets(hash, i % cap, cap) == i
  {
    var s, d := i % cap, i - hash;
    assert i == cap * (i / cap) + s;
    var x := s - hash;
    assert x == cap * (-(i / cap)) + d by { assert cap * (-(i / cap)) == -(cap * (i / cap)); }
    ModUnique(x, cap, -(i / cap), d);
  }

  /** The probe of thread t has ended at a free slot: its key goes there. */
  lemma FillTable(slots: seq<Slot>, c: Config, b: Book, b': Book, t: nat, i: int)
    requires TableOk(slots, c, b) && t < |c.hashed| == |b.num| && b'.num == b.num && b'.live == b.live
    requires forall u :: u in b.home ==> u in b'.home
    requires c.hashed[t] <= i < c.hashed[t] + |slots| && FilledTo(slots, c.hashed[t], i)
    requires slots[i % |slots|].Free? && !InTable(slots, t)
    requires t in b'.home && t in b.live && b.num[t] < Limit(|slots|)
    ensures TableOk(slots[i % |slots| := Taken(t, None)], c, b')
    ensures SlotsGrow(slots, slots[i % |slots| := Taken(t, None)])
    ensures forall u :: u != t && InTable(slots[i % |slots| := Taken(t, None)], u) ==> InTable(slots, u)
    ensures InTable(slots[i % |slots| := Taken(t, None)], t)
  {
    var s0 := i % |slots|;
    var slots' := slots[s0 := Taken(t, None)];
    forall s | 0 <= s < |slots'| ensures KeyOk(slots', s, c, b') {
      if s == s0 {
        MeetsUnique(c.hashed[t], i, |slots|);
        FilledGrows(slots, slots', c.hashed[t], i);
      } else {
        assert KeyOk(slots, s, c, b);
        if slots[s].Taken? {
          FilledGrows(slots, slots', c.hashed[slots[s].key], Meets(c.hashed[slots[s].key], s, |slots|));
        }
      }
    }
    forall s, u, x {:trigger HasKey(slots', s, x), HasKey(slots', u, x)} | HasKey(slots', s, x) && HasKey(slots', u, x) ensures s == u {
      OldKey(slots, s0, t, s, x);
      OldKey(slots, s0, t, u, x);
    }
    forall u | u != t && InTable(slots', u) ensures InTable(slots, u) {
      var s: nat :| HasKey(slots', s, u);
      assert HasKey(slots, s, u);
    }
    assert HasKey(slots', s0, t);
  }

  lemma OldKey(slots: seq<Slot>, s0: nat, t: nat, s: nat, x: nat)
    requires s0 < |slots| && !InTable(slots, t) && HasKey(slots[s0 := Taken(t, None)], s, x)
    ensures if s == s0 then x == t else x != t && HasKey(slots, s, x)
  {
    if s != s0 { assert HasKey(slots, s, x); }
  }

  ghost predicate FillsFor(c: Config, m: Memory, b: Book, m': Memory, b': Book, t: nat, h: nat, i: nat)
    requires t < |m.pc| == |c.hashed| == |b.num|
  {
    && h < |m.tables| && |m.tables[h].slots| > 0
    && m.tables[h].slots[i % |m.tables[h].slots|].Free? && !InTable(m.tables[h].slots, t)
    && c.hashed[t] <= i && FilledTo(m.tables[h].slots, c.hashed[t], i)
    && t in b.live && b.num[t] < Limit(|m.tables[h].slots|) && !m.pc[t].CopyStore? && !m.pc[t].InsertStore?
    && m'.tables == SetSlot(m, h, i, Taken(t, None)).tables && m'.main == m.main && |m'.pc| == |m.pc| && m'.producers == m.producers
    && (forall u :: 0 <= u < |m.pc| && u != t ==> m'.pc[u] == m.pc[u])
    && Stores(m'.pc[t], h, i % |m.tables[h].slots|, |m.tables[h].slots|)
    && b' == b.(home := b'.home) && t in b'.home && b'.home[t] < |b.owner| && b.owner[b'.home[t]] == t
    && (forall u :: u in b.home ==> u in b'.home && b'.home[u] == b.home[u]) && (forall u :: u in b'.home ==> u in b.home || u == t)
  }

  lemma FillChain(c: Config, m: Memory, b: Book, m': Memory, b': Book, t: nat, h: nat, i: nat)
    requires LiveOk(m, b) && ChainOk(c, m, b) && t < |m.pc| == |c.hashed|
    requires FillsFor(c, m, b, m', b', t, h, i)
    ensures ChainOk(c, m', b') && TablesGrow(m, m') && InTable(m'.tables[h].slots, t)
    ensures forall u, k :: u != t && 0 <= k < |m'.tables| && InTable(m'.tables[k].slots, u) ==> InTable(m.tables[k].slots, u)
  {
    assert TableOk(m.tables[h].slots, c, b);
    ProbeEnds(c, m, b, h, c.hashed[t], i);
    FillTable(m.tables[h].slots, c, b, b', t, i);
    forall k | 0 <= k < |m'.tables| ensures TableOk(m'.tables[k].slots, c, b') {
      if k != h {
        assert TableOk(m.tables[k].slots, c, b);
        TableSameKeys(m.tables[k].slots, c, b, b');
      }
    }
    forall k | 0 <= k < |m.tables| ensures SlotsGrow(m.tables[k].slots, m'.tables[k].slots) { }
  }

  lemma FillValues(c: Config, m: Memory, b: Book, m': Memory, b': Book, t: nat, h: nat, i: nat)
    requires ValuesOk(m, b) && t < |m.pc| == |c.hashed| == |b.num| && FillsFor(c, m, b, m', b', t, h, i)
    ensures ValuesOk(m', b')
  {
    forall k, s | 0 <= k < |m'.tables| && 0 <= s < |m'.tables[k].slots| ensures ValueOk(m', b', k, s) {
      assert ValueOk(m, b, k, s);
    }
  }

  lemma FillHomes(c: Config, m: Memory, b: Book, m': Memory, b': Book, t: nat, h: nat, i: nat)
    requires HomesOk(m, b) && t < |m.pc| == |c.hashed| == |b.num| && FillsFor(c, m, b, m', b', t, h, i)
    requires TablesGrow(m, m') && InTable(m'.tables[h].slots, t)
    ensures HomesOk(m', b')
  {
    forall u | u in b'.home ensures HomeOk(m', b', u) {
      if u != t {
        assert HomeOk(m, b, u);
        var k :| 0 <= k < |m.tables| && InTable(m.tables[k].slots, u);
        StillInTable(m, m', k, u);
      }
    }
  }

  lemma StillInTable(m: Memory, m': Memory, h: nat, u: nat)
    requires TablesGrow(m, m') && h < |m.tables| && InTable(m.tables[h].slots, u)
    ensures InTable(m'.tables[h].slots, u)
  {
    assert SlotsGrow(m.tables[h].slots, m'.tables[h].slots);
    var s: nat :| HasKey(m.tables[h].slots, s, u);
    assert HasKey(m'.tables[h].slots, s, u);
  }

  lemma FillStep(c: Config, m: Memory, b: Book, m': Memory, b': Book, t: nat, h: nat, i: nat)
    requires Inv(c, m, b) && t < |m.pc| && FillsFor(c, m, b, m', b', t, h, i)
    requires m' == Move(SetSlot(m, h, i, Taken(t, None)), t, m'.pc[t])
    requires m'.pc[t].main == h && m'.pc[t].i == i && b'.home[t] == m'.pc[t].p
    ensures Inv(c, m', b')
  {
    FillChain(c, m, b, m', b', t, h, i);
    FillValues(c, m, b, m', b', t, h, i);
    FillHomes(c, m, b, m', b', t, h, i);
    forall u | 0 <= u < |m.pc| && u != t ensures LeavesThread(m, b, m', b', u) { }
    OtherThreads(c, m, b, m', b', t);
  }

  lemma CasSucceeds(c: Config, m: Memory, b: Book, t: nat, m': Memory, b': Book)
    requires Inv(c, m, b) && t < |m.pc| && (m.pc[t].CopyCas? || m.pc[t].InsertCas?)
    requires m.pc[t].main < |m.tables| && SlotAt(m, m.pc[t].main, m.pc[t].i).Free?
    requires var x := m.pc[t];
      && m' == Move(SetSlot(m, x.main, x.i, Taken(t, None)), t,
                    if x.CopyCas? then CopyStore(x.main, x.p, x.i) else InsertStore(x.main, x.p, x.i))
      && b' == if x.CopyCas? then b else b.(home := b.home[t := x.p])
    ensures Inv(c, m', b')
  {
    assert ThreadOk(c, m, b, t);
    var x := m.pc[t];
    if x.CopyCas? { assert HomeOk(m, b, t); }
    FillStep(c, m, b, m', b', t, x.main, x.i);
  }

  lemma CasStep(c: Config, m: Memory, b: Book, t: nat, ok: bool)
    requires Inv(c, m, b) && t < |m.pc| && (m.pc[t].CopyCas? || m.pc[t].InsertCas?)
    ensures Enabled(c, m, t, Advance(ok)) && Inv(c, StepThread(c, m, t, ok), Track(c, m, b, t, Advance(ok)))
  {
    ThreadIsSafe(c, m, b, t, ok);
    var x := m.pc[t];
    if SlotAt(m, x.main, x.i).Free? {
      CasSucceeds(c, m, b, t, StepThread(c, m, t, ok), Track(c, m, b, t, Advance(ok)));
    } else {
      CasFails(c, m, b, t);
    }
  }

  lemma CasFails(c: Config, m: Memory, b: Book, t: nat)
    requires Inv(c, m, b) && t < |m.pc| && (m.pc[t].CopyCas? || m.pc[t].InsertCas?)
    requires m.pc[t].main < |m.tables| && SlotAt(m, m.pc[t].main, m.pc[t].i).Taken?
    ensures var x := m.pc[t];
      Inv(c, Move(m, t, if x.CopyCas? then CopyProbe(x.main, x.p, x.i + 1) else InsertProbe(x.main, x.p, x.i + 1)), b)
  {
    var x := m.pc[t];
    assert ThreadOk(c, m, b, t);
    assert Filled(m.tables[x.main].slots, x.i);
    JustMove(c, m, b, t, if x.CopyCas? then CopyProbe(x.main, x.p, x.i + 1) else InsertProbe(x.main, x.p, x.i + 1));
  }

  // ----- Storing the value

  lemma StoreTable(slots: seq<Slot>, c: Config, b: Book, s0: nat, t: nat, v: Option<nat>)
    requires TableOk(slots, c, b) && s0 < |slots| && slots[s0].Taken? && slots[s0].key == t
    ensures TableOk(slots[s0 := Taken(t, v)], c, b) && SlotsGrow(slots, slots[s0 := Taken(t, v)])
    ensures forall u :: InTable(slots[s0 := Taken(t, v)], u) <==> InTable(slots, u)
  {
    var slots' := slots[s0 := Taken(t, v)];
    forall s, u ensures HasKey(slots', s, u) <==> HasKey(slots, s, u) { }
    forall s | 0 <= s < |slots'| ensures KeyOk(slots', s, c, b) {
      assert KeyOk(slots, s, c, b);
      if slots[s].Taken? { FilledGrows(slots, slots', c.hashed[slots[s].key], Meets(c.hashed[slots[s].key], s, |slots|)); }
    }
    forall u ensures InTable(slots', u) <==> InTable(slots, u) {
      if InTable(slots', u) { var s: nat :| HasKey(slots', s, u); assert HasKey(slots, s, u); }
      if InTable(slots, u) { var s: nat :| HasKey(slots, s, u); assert HasKey(slots', s, u); }
    }
  }

  lemma StoreStep(c: Config, m: Memory, b: Book, t: nat, ok: bool)
    requires Inv(c, m, b) && t < |m.pc| && (m.pc[t].CopyStore? || m.pc[t].InsertStore?)
    ensures Enabled(c, m, t, Advance(ok)) && Inv(c, StepThread(c, m, t, ok), b)
  {
    ThreadIsSafe(c, m, b, t, ok);
    StoreKeepsInv(c, m, b, t, m.pc[t].main, m.pc[t].i, m.pc[t].p);
  }

  function Stored(m: Memory, t: nat, h: nat, i: nat, p: nat): Memory
    requires t < |m.pc| && h < |m.tables| && |m.tables[h].slots| > 0
  {
    Move(SetSlot(m, h, i, Taken(t, Some(p))), t, Done(Some(p)))
  }

  lemma StoreChain(c: Config, m: Memory, b: Book, t: nat, h: nat, i: nat, p: nat)
    requires ChainOk(c, m, b) && HomesOk(m, b) && t < |m.pc| && h < |m.tables| && |m.tables[h].slots| > 0
    requires m.tables[h].slots[i % |m.tables[h].slots|] == Taken(t, None)
    ensures ChainOk(c, Stored(m, t, h, i, p), b) && TablesGrow(m, Stored(m, t, h, i, p)) && HomesOk(Stored(m, t, h, i, p), b)
    ensures forall u, k :: 0 <= k < |m.tables| && InTable(Stored(m, t, h, i, p).tables[k].slots, u) ==> InTable(m.tables[k].slots, u)
  {
    var m' := Stored(m, t, h, i, p);
    assert TableOk(m.tables[h].slots, c, b);
    StoreTable(m.tables[h].slots, c, b, i % |m.tables[h].slots|, t, Some(p));
    forall k | 0 <= k < |m'.tables| ensures TableOk(m'.tables[k].slots, c, b) { assert TableOk(m.tables[k].slots, c, b); }
    forall k | 0 <= k < |m.tables| ensures SlotsGrow(m.tables[k].slots, m'.tables[k].slots) { }
    forall u | u in b.home ensures HomeOk(m', b, u) {
      assert HomeOk(m, b, u);
      var k :| 0 <= k < |m.tables| && InTable(m.tables[k].slots, u);
      StillInTable(m, m', k, u);
    }
  }

  lemma StoreValues(m: Memory, b: Book, t: nat, h: nat, i: nat, p: nat)
    requires ValuesOk(m, b) && t < |m.pc| && h < |m.tables| && |m.tables[h].slots| > 0
    requires m.tables[h].slots[i % |m.tables[h].slots|] == Taken(t, None) && t in b.home && b.home[t] == p
    requires m.pc[t] == CopyStore(h, p, i) || m.pc[t] == InsertStore(h, p, i)
    ensures ValuesOk(Stored(m, t, h, i, p), b)
  {
    var m' := Stored(m, t, h, i, p);
    forall k, s | 0 <= k < |m'.tables| && 0 <= s < |m'.tables[k].slots| ensures ValueOk(m', b, k, s) { assert ValueOk(m, b, k, s); }
  }

  lemma StoreKeepsInv(c: Config, m: Memory, b: Book, t: nat, h: nat, i: nat, p: nat)
    requires Inv(c, m, b) && t < |m.pc| && h < |m.tables| && (m.pc[t] == CopyStore(h, p, i) || m.pc[t] == InsertStore(h, p, i))
    requires |m.tables[h].slots| > 0
    ensures Inv(c, Stored(m, t, h, i, p), b)
  {
    assert ThreadOk(c, m, b, t);
    var m' := Stored(m, t, h, i, p);
    StoreChain(c, m, b, t, h, i, p);
    StoreValues(m, b, t, h, i, p);
    forall u | 0 <= u < |m.pc| && u != t ensures LeavesThread(m, b, m', b, u) { }
    OtherThreads(c, m, b, m', b, t);
  }

  lemma AdvanceKeepsInv(c: Config, m: Memory, b: Book, t: nat, ok: bool)
    requires Inv(c, m, b) && t < |m.pc| && !m.pc[t].Idle? && !m.pc[t].Done?
    ensures Enabled(c, m, t, Advance(ok)) && Inv(c, StepThread(c, m, t, ok), Track(c, m, b, t, Advance(ok)))
  {
    match m.pc[t]
    case Probe(_, _, _) => ProbeStep(c, m, b, t, ok);
    case CopyProbe(_, _, _) => SeekStep(c, m, b, t, ok);
    case InsertProbe(_, _, _) => SeekStep(c, m, b, t, ok);
    case CopyCas(_, _, _) => CasStep(c, m, b, t, ok);
    case InsertCas(_, _, _) => CasStep(c, m, b, t, ok);
    case CopyStore(_, _, _) => StoreStep(c, m, b, t, ok);
    case InsertStore(_, _, _) => StoreStep(c, m, b, t, ok);
    case CountUp(_) => CountUpStep(c, m, b, t, ok);
    case CountDown(_) => CountDownStep(c, m, b, t, ok);
    case Allocate(_, _) => if ok { AllocateStep(c, m, b, t); } else { FailStep(c, m, b, t); }
    case Create(_, _) => if ok { CreateStep(c, m, b, t); } else { FailStep(c, m, b, t); }
    case TestLock(_, _) => LockStep(c, m, b, t, ok);
    case Unlock(_, _) => LockStep(c, m, b, t, ok);
    case UnlockFailed => LockStep(c, m, b, t, ok);
    case LoadMain => ReloadStep(c, m, b, t, ok);
    case LockedLoad(_) => ReloadStep(c, m, b, t, ok);
    case Reload(_) => ReloadStep(c, m, b, t, ok);
  }

  lemma StepKeepsInv(c: Config, m: Memory, b: Book, t: nat, a: Action)
    requires Inv(c, m, b) && Enabled(c, m, t, a)
    ensures Inv(c, Step(c, m, t, a), Track(c, m, b, t, a))
  {
    match a
    case Call => CallOrReturn(c, m, b, t, LoadMain);
    case Return => CallOrReturn(c, m, b, t, Idle);
    case Advance(ok) => AdvanceKeepsInv(c, m, b, t, ok);
  }

  // ----- Runs

  datatype State = State(m: Memory, b: Book)

  datatype Event = Event(thread: nat, action: Action)

  ghost predicate Initial(c: Config, s: State, cap: nat) {
    && cap > 0 && |s.m.tables| == 1 && |s.m.pc| == |c.hashed| == |s.b.num| && (forall t :: 0 <= t < |s.m.pc| ==> s.m.pc[t] == Idle)
    && s.m == Memory([s.m.tables[0]], 0, 0, false, 0, s.m.pc) && s.m.tables[0].prev == None
    && |s.m.tables[0].slots| == cap && (forall i :: 0 <= i < cap ==> s.m.tables[0].slots[i] == Free)
    && s.b == Book([], s.b.num, map[], [])
  }

  function Perform(c: Config, s: State, e: Event): (s': State)
    requires |s.b.num| == |s.m.pc|
    ensures |s'.b.num| == |s'.m.pc|
  {
    if Enabled(c, s.m, e.thread, e.action)
    then State(Step(c, s.m, e.thread, e.action), Track(c, s.m, s.b, e.thread, e.action)) else s
  }

  function Execute(c: Config, s: State, run: seq<Event>): (s': State)
    requires |s.b.num| == |s.m.pc|
    ensures |s'.b.num| == |s'.m.pc|
  {
    if run == [] then s else Perform(c, Execute(c, s, run[..|run|-1]), run[|run|-1])
  }

  lemma InitialInv(c: Config, s: State, cap: nat)
    requires Initial(c, s, cap)
    ensures Inv(c, s.m, s.b)
  {
    assert s.m.tables[0].slots == seq(cap, _ => Free);
    forall t | 0 <= t < |s.m.pc| ensures ThreadOk(c, s.m, s.b, t) { EmptyTable(cap, c, s.b, t); }
    EmptyTable(cap, c, s.b, 0);
  }

  lemma {:induction false} RunKeepsInv(c: Config, s: State, cap: nat, run: seq<Event>)
    requires Initial(c, s, cap)
    ensures Inv(c, Execute(c, s, run).m, Execute(c, s, run).b)
  {
    if run == [] {
      InitialInv(c, s, cap);
    } else {
      RunKeepsInv(c, s, cap, run[..|run|-1]);
      var p, e := Execute(c, s, run[..|run|-1]), run[|run|-1];
      if Enabled(c, p.m, e.thread, e.action) { StepKeepsInv(c, p.m, p.b, e.thread, e.action); }
    }
  }

  // ----- What the runs mean

  /** In every interleaving, with any failed allocations, every table stays below three quarters of its capacity in keys,
      and keeps a free slot. */
  lemma TablesNeverFill(c: Config, s: State, cap: nat, run: seq<Event>, h: nat)
    requires Initial(c, s, cap) && h < |Execute(c, s, run).m.tables|
    ensures var slots := Execute(c, s, run).m.tables[h].slots;
      && (Occupied(slots) == 0 || Occupied(slots) < Limit(|slots|))
      && exists i :: 0 <= i < |slots| && slots[i].Free?
  {
    RunKeepsInv(c, s, cap, run);
    var m, b := Execute(c, s, run).m, Execute(c, s, run).b;
    assert TableOk(m.tables[h].slots, c, b);
    FewKeys(c, m, b, h);
    if forall i :: 0 <= i < |m.tables[h].slots| ==> m.tables[h].slots[i].Taken? { AllTakenIsFull(m.tables[h].slots); }
  }

  /** So no probe loop goes round: whatever the others insert meanwhile, a probe has made fewer steps than the table has
      slots. */
  lemma ProbesAreShort(c: Config, s: State, cap: nat, run: seq<Event>, t: nat)
    requires Initial(c, s, cap) && t < |Execute(c, s, run).m.pc|
    ensures t < |c.hashed|
    ensures var m := Execute(c, s, run).m;
      && var pc := m.pc[t];
      && (pc.Probe? ==> pc.h < |m.tables| && c.hashed[t] <= pc.i < c.hashed[t] + |m.tables[pc.h].slots|)
      && (pc.CopyProbe? || pc.InsertProbe? ==>
            pc.main < |m.tables| && c.hashed[t] <= pc.i < c.hashed[t] + |m.tables[pc.main].slots|)
  {
    RunKeepsInv(c, s, cap, run);
    var m, b := Execute(c, s, run).m, Execute(c, s, run).b;
    var pc := m.pc[t];
    assert ThreadOk(c, m, b, t);
    if pc.Probe? {
      assert TableOk(m.tables[pc.h].slots, c, b);
      forall i {:trigger Filled(m.tables[pc.h].slots, i)} | c.hashed[t] <= i < pc.i ensures Filled(m.tables[pc.h].slots, i) { }
      ProbeEnds(c, m, b, pc.h, c.hashed[t], pc.i);
    } else if pc.CopyProbe? || pc.InsertProbe? {
      assert TableOk(m.tables[pc.main].slots, c, b);
      ProbeEnds(c, m, b, pc.main, c.hashed[t], pc.i);
    }
  }

  lemma ResultIsOwned(c: Config, m: Memory, b: Book, t: nat)
    requires Inv(c, m, b) && t < |m.pc| && m.pc[t].Done? && m.pc[t].result.Some?
    ensures t in b.home && b.home[t] == m.pc[t].result.value < |b.owner| && b.owner[b.home[t]] == t
  {
    assert ThreadOk(c, m, b, t);
    assert HomeOk(m, b, t);
  }

  lemma StepKeepsHomes(c: Config, m: Memory, b: Book, t: nat, a: Action)
    requires Inv(c, m, b) && Enabled(c, m, t, a)
    ensures var b' := Track(c, m, b, t, a);
      b.owner <= b'.owner && forall u :: u in b.home ==> u in b'.home && b'.home[u] == b.home[u]
  {
    assert ThreadOk(c, m, b, t);
  }

  lemma {:induction false} LaterKeepsHomes(c: Config, s: State, cap: nat, run: seq<Event>, more: seq<Event>)
    requires Initial(c, s, cap)
    ensures var b, b' := Execute(c, s, run).b, Execute(c, s, run + more).b;
      b.owner <= b'.owner && forall u :: u in b.home ==> u in b'.home && b'.home[u] == b.home[u]
  {
    if more == [] {
      assert run + more == run;
    } else {
      var front := more[..|more|-1];
      LaterKeepsHomes(c, s, cap, run, front);
      RunKeepsInv(c, s, cap, run + front);
      assert (run + more)[..|run + more| - 1] == run + front;
      var p, e := Execute(c, s, run + front), more[|more|-1];
      if Enabled(c, p.m, e.thread, e.action) { StepKeepsHomes(c, p.m, p.b, e.thread, e.action); }
    }
  }

  /** A thread that has got a producer gets the same one whenever it asks again, and no other thread ever gets it. */
  lemma ProducersArePerThread(c: Config, s: State, cap: nat, run: seq<Event>, more: seq<Event>, t: nat, u: nat)
    requires Initial(c, s, cap)
    requires var m, m' := Execute(c, s, run).m, Execute(c, s, run + more).m;
      && t < |m.pc| && m.pc[t].Done? && m.pc[t].result.Some?
      && u < |m'.pc| && m'.pc[u].Done? && m'.pc[u].result.Some?
    ensures Execute(c, s, run).m.pc[t].result == Execute(c, s, run + more).m.pc[u].result <==> t == u
  {
    RunKeepsInv(c, s, cap, run);
    RunKeepsInv(c, s, cap, run + more);
    LaterKeepsHomes(c, s, cap, run, more);
    ResultIsOwned(c, Execute(c, s, run).m, Execute(c, s, run).b, t);
    ResultIsOwned(c, Execute(c, s, run + more).m, Execute(c, s, run + more).b, u);
  }

  /** And once it has one, no later call of it comes back empty-handed. */
  lemma RegisteredStaysRegistered(c: Config, s: State, cap: nat, run: seq<Event>, more: seq<Event>, t: nat)
    requires Initial(c, s, cap)
    requires var m, m' := Execute(c, s, run).m, Execute(c, s, run + more).m;
      t < |m.pc| && m.pc[t].Done? && m.pc[t].result.Some? && t < |m'.pc| && m'.pc[t].Done?
    ensures Execute(c, s, run + more).m.pc[t].result.Some?
  {
    RunKeepsInv(c, s, cap, run);
    RunKeepsInv(c, s, cap, run + more);
    LaterKeepsHomes(c, s, cap, run, more);
    ResultIsOwned(c, Execute(c, s, run).m, Execute(c, s, run).b, t);
    assert ThreadOk(c, Execute(c, s, run + more).m, Execute(c, s, run + more).b, t);
  }

  /** While no call runs, the count is the number of registered threads: failed calls leave nothing counted. */
  lemma CountIsRegistered(c: Config, s: State, cap: nat, run: seq<Event>)
    requires Initial(c, s, cap) && forall t :: 0 <= t < |Execute(c, s, run).m.pc| ==> Execute(c, s, run).m.pc[t].Idle?
    ensures Execute(c, s, run).m.count == |Execute(c, s, run).b.home|
  {
    RunKeepsInv(c, s, cap, run);
    var m, b := Execute(c, s, run).m, Execute(c, s, run).b;
    forall t | t in b.live ensures t in b.home { assert ThreadOk(c, m, b, t); }
    forall t | t in b.home ensures t in b.live { assert HomeOk(m, b, t); }
    SetOfDistinct(b.live);
    assert b.home.Keys == SetOf(b.live);
  }

  function SetOf(s: seq<nat>): (r: set<nat>)
    ensures forall t :: t in r <==> t in s
  {
    if s == [] then {} else {s[0]} + SetOf(s[1..])
  }

  lemma {:induction false} SetOfDistinct(s: seq<nat>)
    requires forall i, j :: 0 <= i < j < |s| ==> s[i] != s[j]
    ensures |SetOf(s)| == |s|
  {
    if s != [] {
      SetOfDistinct(s[1..]);
      assert s[0] !in s[1..];
    }
  }

  // ----- The loops, on an array

  /** populate_initial_implicit_producer_hash. */
  method Populate(c: Config, cap: nat) returns (m: Memory, ghost b: Book)
    requires cap > 0
    ensures Initial(c, State(m, b), cap)
  {
    var slots := new Slot[cap](_ => Taken(0, None));
    var i := 0;
    while i != cap
      invariant 0 <= i <= cap && forall s :: 0 <= s < i ==> slots[s] == Free
    {
      slots[i] := Free;
      i := i + 1;
    }
    assert slots[..] == seq(cap, _ => Free);
    m := Memory([Table(slots[..], None)], 0, 0, false, 0, seq(|c.hashed|, _ => Idle));
    b := Book([], seq(|c.hashed|, _ => 0), map[], []);
  }

  /** The search in one table: ends, and finds the key exactly if it is there. */
  method Find(slots: array<Slot>, id: nat, hashed: nat, ghost c: Config, ghost b: Book) returns (found: Option<nat>)
    requires TableOk(slots[..], c, b) && id < |c.hashed| && c.hashed[id] == hashed
    requires exists s :: 0 <= s < slots.Length && slots[s].Free?
    ensures found.Some? <==> InTable(slots[..], id)
    ensures found.Some? ==> HasKey(slots[..], found.value, id)
  {
    ghost var free: nat :| free < slots.Length && slots[free].Free?;
    MeetsSlot(hashed, free, slots.Length);
    var index := hashed;
    while true
      invariant hashed <= index <= Meets(hashed, free, slots.Length)
      invariant Passed(slots[..], hashed, index, id)
      decreases Meets(hashed, free, slots.Length) - index
    {
      var i := index % slots.Length;
      match slots[i]
      case Free =>
        assert !Filled(slots[..], index);
        NotHere(slots[..], c, b, id, index);
        return None;
      case Taken(key, _) =>
        if key == id {
          assert HasKey(slots[..], i, id);
          assert InTable(slots[..], id);
          return Some(i);
        }
        assert Filled(slots[..], index);
        index := index + 1;
    }
  }

  /** The insertion of a key that is not in the table yet. */
  method InsertKey(slots: array<Slot>, id: nat, p: nat, hashed: nat, ghost c: Config, ghost b: Book, ghost b': Book)
    requires TableOk(slots[..], c, b) && id < |c.hashed| == |b.num| && c.hashed[id] == hashed && !InTable(slots[..], id)
    requires exists s :: 0 <= s < slots.Length && slots[s].Free?
    requires id in b.live && b.num[id] < Limit(slots.Length) && b' == b.(home := b.home[id := p])
    modifies slots
    ensures TableOk(slots[..], c, b') && InTable(slots[..], id)
    ensures exists s :: 0 <= s < slots.Length && old(slots[s]).Free? && slots[..] == old(slots[..])[s := Taken(id, Some(p))]
  {
    ghost var free: nat :| free < slots.Length && slots[free].Free?;
    MeetsSlot(hashed, free, slots.Length);
    var index := hashed;
    while slots[index % slots.Length].Taken?
      invariant hashed <= index <= Meets(hashed, free, slots.Length)
      invariant FilledTo(slots[..], hashed, index)
      decreases Meets(hashed, free, slots.Length) - index
    {
      assert Filled(slots[..], index);
      index := index + 1;
    }
    var i := index % slots.Length;
    assert old(slots[i]).Free?;
    FillTable(slots[..], c, b, b', id, index);
    slots[i] := Taken(id, None);
    StoreTable(slots[..], c, b', i, id, Some(p));
    slots[i] := Taken(id, Some(p));
    assert slots[..] == old(slots[..])[i := Taken(id, Some(p))];
  }
}
