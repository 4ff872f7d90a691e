/** The lock-free free list of concurrentqueue.h (FreeList::add, try_get, add_knowing_refcount_is_zero)
    as a machine that performs one atomic access per step, for any number of threads.

    `Memory` is what the program has: the head, the two words of every node and each thread's
    program counter with its live locals. `Book` is the bookkeeping of the proof: no step of `Memory` reads it. */
module FreeLists {
  import opened Wrappers

  const SHOULD_BE_ON_FREELIST: int := 0x8000_0000
  const WORD_MODULUS: int := 0x1_0000_0000    // std::uint32_t

  /** fetch_add on a 32-bit word, for deltas smaller than the modulus. */
  function FetchAdd(w: int, delta: int): int {
    var sum := w + delta;
    if sum < 0 then sum + WORD_MODULUS else if sum >= WORD_MODULUS then sum - WORD_MODULUS else sum
  }

  /** w & REFS_MASK: the low 31 bits of a 32-bit word. */
  function RefCount(w: int): int { if w >= SHOULD_BE_ON_FREELIST then w - SHOULD_BE_ON_FREELIST else w }

  /** Where add_knowing_refcount_is_zero returns to: its caller is add, or the loop of try_get,
      which goes on with the head that its failed compare-exchange delivered. */
  datatype Return = ToCaller | ToGet(head: Option<nat>)

  /** The next atomic access of a thread. */
  datatype Pc =
    | Idle
    | InsLoad(node: nat, ret: Return)                       // head := freeListHead
    | InsNext(node: nat, head: Option<nat>, ret: Return)    // node->freeListNext := head
    | InsRefs(node: nat, head: Option<nat>, ret: Return)    // node->freeListRefs := 1
    | InsCas(node: nat, head: Option<nat>, ret: Return)     // CAS freeListHead head -> node
    | InsBack(node: nat, head: Option<nat>, ret: Return)    // fetch_add SHOULD_BE_ON_FREELIST - 1
    | GetLoad                                               // head := freeListHead
    | GetRefs(node: nat)                                    // refs := head->freeListRefs
    | GetInc(node: nat, seen: int)                          // CAS head->freeListRefs seen -> seen + 1
    | GetNext(node: nat)                                    // next := head->freeListNext
    | GetCas(node: nat, next: Option<nat>)                  // CAS freeListHead head -> next
    | GetTake(node: nat)                                    // fetch_add -2, return node
    | GetDrop(node: nat, head: Option<nat>)                 // fetch_add -1

  datatype Memory = Memory(head: Option<nat>, refs: seq<int>, next: seq<Option<nat>>, pc: seq<Pc>)

  /** A client calls add or try_get on an idle thread; otherwise a thread performs its next access. */
  datatype Action = CallAdd(node: nat) | CallGet | Advance

  predicate Fits(bound: nat, p: Option<nat>) { p.Some? ==> p.value < bound }

  predicate RetFits(bound: nat, ret: Return) { ret.ToGet? ==> Fits(bound, ret.head) }

  predicate PcFits(bound: nat, pc: Pc) {
    match pc
    case Idle => true
    case InsLoad(n, ret) => n < bound && RetFits(bound, ret)
    case InsNext(n, h, ret) => n < bound && Fits(bound, h) && RetFits(bound, ret)
    case InsRefs(n, h, ret) => n < bound && Fits(bound, h) && RetFits(bound, ret)
    case InsCas(n, h, ret) => n < bound && Fits(bound, h) && RetFits(bound, ret)
    case InsBack(n, h, ret) => n < bound && Fits(bound, h) && RetFits(bound, ret)
    case GetLoad => true
    case GetRefs(n) => n < bound
    case GetInc(n, _) => n < bound
    case GetNext(n) => n < bound
    case GetCas(n, x) => n < bound && Fits(bound, x)
    case GetTake(n) => n < bound
    case GetDrop(n, h) => n < bound && Fits(bound, h)
  }

  predicate Typed(m: Memory) {
    && |m.next| == |m.refs|
    && Fits(|m.refs|, m.head)
    && (forall n :: 0 <= n < |m.next| ==> Fits(|m.refs|, m.next[n]))
    && (forall t :: 0 <= t < |m.pc| ==> PcFits(|m.refs|, m.pc[t]))
  }

  /** The test of try_get's loop on the value of its local `head`: nullptr ends the call. */
  function Loop(head: Option<nat>): Pc { if head.None? then Idle else GetRefs(head.value) }

  function Resume(ret: Return): Pc { match ret case ToCaller => Idle case ToGet(h) => Loop(h) }

  predicate Enabled(m: Memory, t: nat, a: Action) {
    && t < |m.pc|
    && (a.Advance? <==> !m.pc[t].Idle?)
    && (a.CallAdd? ==> a.node < |m.refs|)
  }

  function Step(m: Memory, t: nat, a: Action): Memory
    requires Typed(m) && Enabled(m, t, a)
  {
    match a
    case CallAdd(n) =>
      m.(refs := m.refs[n := FetchAdd(m.refs[n], SHOULD_BE_ON_FREELIST)],
         pc := m.pc[t := if m.refs[n] == 0 then InsLoad(n, ToCaller) else Idle])
    case CallGet => m.(pc := m.pc[t := GetLoad])
    case Advance =>
      match m.pc[t]
      case InsLoad(n, ret) => m.(pc := m.pc[t := InsNext(n, m.head, ret)])
      case InsNext(n, h, ret) => m.(next := m.next[n := h], pc := m.pc[t := InsRefs(n, h, ret)])
      case InsRefs(n, h, ret) => m.(refs := m.refs[n := 1], pc := m.pc[t := InsCas(n, h, ret)])
      case InsCas(n, h, ret) =>
        if m.head == h then m.(head := Some(n), pc := m.pc[t := Resume(ret)])
        else m.(pc := m.pc[t := InsBack(n, m.head, ret)])
      case InsBack(n, h, ret) =>
        m.(refs := m.refs[n := FetchAdd(m.refs[n], SHOULD_BE_ON_FREELIST - 1)],
           pc := m.pc[t := if m.refs[n] == 1 then InsNext(n, h, ret) else Resume(ret)])
      case GetLoad => m.(pc := m.pc[t := Loop(m.head)])
      case GetRefs(n) =>
        m.(pc := m.pc[t := if RefCount(m.refs[n]) == 0 then GetLoad else GetInc(n, m.refs[n])])
      case GetInc(n, seen) =>
        if m.refs[n] == seen then m.(refs := m.refs[n := FetchAdd(seen, 1)], pc := m.pc[t := GetNext(n)])
        else m.(pc := m.pc[t := GetLoad])
      case GetNext(n) => m.(pc := m.pc[t := GetCas(n, m.next[n])])
      case GetCas(n, x) =>
        if m.head == Some(n) then m.(head := x, pc := m.pc[t := GetTake(n)])
        else m.(pc := m.pc[t := GetDrop(n, m.head)])
      case GetTake(n) => m.(refs := m.refs[n := FetchAdd(m.refs[n], -2)], pc := m.pc[t := Idle])
      case GetDrop(n, h) =>
        m.(refs := m.refs[n := FetchAdd(m.refs[n], -1)],
           pc := m.pc[t := if m.refs[n] == SHOULD_BE_ON_FREELIST + 1 then InsLoad(n, ToGet(h)) else Loop(h)])
      case Idle => m
  }

  // ----- Bookkeeping of the proof

  datatype Place =
    | Owned(thread: nat)              // with the clients, taken by `thread`; any of them may add it
    | Pending(inserter: Option<nat>)  // added, waiting for insertion; the inserter, once there is one
    | Publishing(thread: nat)         // refs is 1 again and the inserter is at its compare-exchange
    | Listed                          // reachable from freeListHead
    | Unlinked(thread: nat)           // taken off the list, the list's reference not yet dropped

  datatype Book = Book(place: seq<Place>, chain: seq<nat>)

  /** The thread that took a node for the clients: set when try_get returns it, cleared when add is called. */
  function Owner(p: Place): Option<nat> { if p.Owned? then Some(p.thread) else None }

  /** A pc from which a reference counted by GetInc is still to be dropped. */
  predicate Holds(pc: Pc, n: nat) {
    match pc
    case GetNext(k) => k == n
    case GetCas(k, _) => k == n
    case GetTake(k) => k == n
    case GetDrop(k, _) => k == n
    case _ => false
  }

  function Holders(pcs: seq<Pc>, n: nat): (count: nat)
    ensures count <= |pcs|
  {
    if pcs == [] then 0 else Holders(pcs[..|pcs|-1], n) + (if Holds(pcs[|pcs|-1], n) then 1 else 0)
  }

  function Track(m: Memory, b: Book, t: nat, a: Action): Book
    requires Typed(m) && Enabled(m, t, a) && |b.place| == |m.refs|
  {
    match a
    case CallAdd(n) => b.(place := b.place[n := Pending(if m.refs[n] == 0 then Some(t) else None)])
    case CallGet => b
    case Advance =>
      match m.pc[t]
      case InsRefs(n, _, _) => b.(place := b.place[n := Publishing(t)])
      case InsCas(n, h, _) => if m.head == h then Book(b.place[n := Listed], [n] + b.chain) else b
      case InsBack(n, _, _) => b.(place := b.place[n := Pending(if m.refs[n] == 1 then Some(t) else None)])
      case GetCas(n, _) =>
        if m.head == Some(n) && b.chain != [] then Book(b.place[n := Unlinked(t)], b.chain[1..]) else b
      case GetTake(n) => b.(place := b.place[n := Owned(t)])
      case GetDrop(n, _) =>
        if m.refs[n] == SHOULD_BE_ON_FREELIST + 1 then b.(place := b.place[n := Pending(Some(t))]) else b
      case _ => b
  }

  // ----- The invariant

  predicate InserterAt(pc: Pc, n: nat) {
    match pc
    case InsLoad(k, _) => k == n
    case InsNext(k, _, _) => k == n
    case InsRefs(k, _, _) => k == n
    case _ => false
  }

  predicate PublisherAt(pc: Pc, n: nat) {
    match pc
    case InsCas(k, _, _) => k == n
    case InsBack(k, _, _) => k == n
    case _ => false
  }

  /** What the 32-bit word of a node says, by where the node is. */
  ghost predicate NodeOk(m: Memory, b: Book, n: nat)
    requires n < |m.refs| && |b.place| == |m.refs|
  {
    var k := Holders(m.pc, n);
    match b.place[n]
    case Owned(t) => m.refs[n] == k && t < |m.pc|
    case Pending(ins) =>
      && m.refs[n] == SHOULD_BE_ON_FREELIST + k
      && (k == 0 <==> ins.Some?)
      && (ins.Some? ==> ins.value < |m.pc| && InserterAt(m.pc[ins.value], n))
    case Publishing(t) => m.refs[n] == 1 + k && t < |m.pc| && PublisherAt(m.pc[t], n)
    case Listed => m.refs[n] == 1 + k
    case Unlinked(t) => m.refs[n] == 1 + k && t < |m.pc| && m.pc[t] == GetTake(n)
  }

  ghost predicate ThreadOk(m: Memory, b: Book, t: nat)
    requires Typed(m) && t < |m.pc| && |b.place| == |m.refs|
  {
    match m.pc[t]
    case InsLoad(n, _) => b.place[n] == Pending(Some(t))
    case InsNext(n, _, _) => b.place[n] == Pending(Some(t))
    case InsRefs(n, h, _) => b.place[n] == Pending(Some(t)) && m.next[n] == h
    case InsCas(n, h, _) => b.place[n] == Publishing(t) && m.next[n] == h
    case InsBack(n, _, _) => b.place[n] == Publishing(t)
    case GetInc(_, seen) => 0 <= seen < WORD_MODULUS && RefCount(seen) != 0
    case GetCas(n, x) => m.next[n] == x
    case GetTake(n) => b.place[n] == Unlinked(t)
    case _ => true
  }

  /** Node i of the chain points to node i + 1. */
  predicate NextOk(next: seq<Option<nat>>, chain: seq<nat>, i: nat)
    requires i < |chain|
  {
    chain[i] < |next| && next[chain[i]] == if i + 1 < |chain| then Some(chain[i+1]) else None
  }

  ghost predicate ChainOk(m: Memory, b: Book)
    requires Typed(m) && |b.place| == |m.refs|
  {
    && m.head == (if b.chain == [] then None else Some(b.chain[0]))
    && (forall i :: 0 <= i < |b.chain| ==> b.chain[i] < |m.refs| && b.place[b.chain[i]] == Listed)
    && (forall i {:trigger NextOk(m.next, b.chain, i)} :: 0 <= i < |b.chain| ==> NextOk(m.next, b.chain, i))
    && (forall i, j :: 0 <= i < j < |b.chain| ==> b.chain[i] != b.chain[j])
    && (forall n :: 0 <= n < |m.refs| && b.place[n] == Listed ==> n in b.chain)
  }

  ghost predicate Inv(m: Memory, b: Book) {
    && Typed(m)
    && |b.place| == |m.refs|
    && |m.pc| + 1 < SHOULD_BE_ON_FREELIST
    && (forall n :: 0 <= n < |m.refs| ==> NodeOk(m, b, n))
    && (forall t :: 0 <= t < |m.pc| ==> ThreadOk(m, b, t))
    && ChainOk(m, b)
  }

  lemma {:induction false} HoldersUpdate(pcs: seq<Pc>, t: nat, pc: Pc, n: nat)
    requires t < |pcs|
    ensures Holders(pcs[t := pc], n)
         == Holders(pcs, n) - (if Holds(pcs[t], n) then 1 else 0) + (if Holds(pc, n) then 1 else 0)
    ensures Holds(pcs[t], n) ==> Holders(pcs, n) >= 1
  {
    var last := |pcs| - 1;
    if t < last {
      assert pcs[t := pc][..last] == pcs[..last][t := pc];
      HoldersUpdate(pcs[..last], t, pc, n);
    } else {
      assert pcs[t := pc][..last] == pcs[..last];
    }
  }

  /** Only a node in the hands of the clients is added, and that by any thread: the producer takes a block, a
      consumer that has emptied it gives it back. Handing a node over is the clients' own affair. */
  predicate Allowed(b: Book, a: Action) {
    a.CallAdd? ==> a.node < |b.place| && b.place[a.node].Owned?
  }

  lemma HolderCounts(pcs: seq<Pc>, u: nat, n: nat)
    requires u < |pcs| && Holds(pcs[u], n)
    ensures Holders(pcs, n) >= 1
  {
    HoldersUpdate(pcs, u, pcs[u], n);
  }

  /** The word of a node stays within 32 bits: no carry ever leaves the count. */
  lemma WordInRange(m: Memory, b: Book, n: nat)
    requires Inv(m, b) && n < |m.refs|
    ensures 0 <= m.refs[n] < WORD_MODULUS
    ensures b.place[n].Pending? <==> m.refs[n] >= SHOULD_BE_ON_FREELIST
  {
    assert NodeOk(m, b, n);
  }

  /** A step of thread `t` about node `n` touches nothing of other nodes, and nothing another thread relies on. */
  ghost predicate Local(m: Memory, b: Book, m': Memory, b': Book, t: nat, n: nat)
    requires Inv(m, b) && t < |m.pc| && n < |m.refs|
  {
    && Typed(m')
    && |m'.refs| == |m.refs| && |b'.place| == |b.place| && |m'.pc| == |m.pc|
    && m'.pc == m.pc[t := m'.pc[t]]
    && (forall k :: 0 <= k < |m.refs| && k != n ==>
          m'.refs[k] == m.refs[k] && m'.next[k] == m.next[k] && b'.place[k] == b.place[k])
    && (forall k :: k != n ==> !Holds(m.pc[t], k) && !Holds(m'.pc[t], k))
    && (b'.place[n] == b.place[n] || b.place[n].Owned? || b.place[n] in {Pending(None), Pending(Some(t)), Publishing(t), Unlinked(t), Listed})
    && (m'.next[n] == m.next[n] || b.place[n] == Pending(Some(t)))
  }

  /** A step that leaves the list alone: its head, its members and their links. */
  lemma ChainFrame(m: Memory, b: Book, m': Memory, b': Book, t: nat, n: nat)
    requires Inv(m, b) && t < |m.pc| && n < |m.refs| && Local(m, b, m', b', t, n)
    requires m'.head == m.head && b'.chain == b.chain
    requires b'.place[n] != b.place[n] ==> !b.place[n].Listed? && !b'.place[n].Listed?
    ensures ChainOk(m', b')
  {
    forall i | 0 <= i < |b.chain| ensures NextOk(m'.next, b.chain, i) { assert NextOk(m.next, b.chain, i); }
  }

  lemma ChainPush(m: Memory, b: Book, m': Memory, b': Book, t: nat, n: nat)
    requires Inv(m, b) && t < |m.pc| && n < |m.refs| && Local(m, b, m', b', t, n)
    requires !b.place[n].Listed? && b'.place[n] == Listed
    requires m'.next == m.next && m.next[n] == m.head
    requires m'.head == Some(n) && b'.chain == [n] + b.chain
    ensures ChainOk(m', b')
  {
    forall i | 1 <= i < |b'.chain| ensures b'.chain[i] == b.chain[i-1] { }
    forall i | 0 <= i < |b'.chain| ensures NextOk(m'.next, b'.chain, i) {
      if i > 0 { assert NextOk(m.next, b.chain, i - 1); }
    }
  }

  lemma ChainPop(m: Memory, b: Book, m': Memory, b': Book, n: nat)
    requires Typed(m) && Typed(m') && |b.place| == |m.refs| == |m'.refs| == |b'.place| && n < |m.refs|
    requires ChainOk(m, b)
    requires forall k :: 0 <= k < |m.refs| && k != n ==> b'.place[k] == b.place[k]
    requires m.head == Some(n) && !b'.place[n].Listed?
    requires m'.next == m.next && m'.head == m.next[n]
    requires b.chain != [] && b'.chain == b.chain[1..]
    ensures ChainOk(m', b')
  {
    var c, c' := b.chain, b'.chain;
    assert NextOk(m.next, c, 0);
    forall i | 0 <= i < |c'| ensures c'[i] == c[i+1] && c'[i] != n { assert c[0] != c[i+1]; }
    forall i | 0 <= i < |c'| ensures NextOk(m'.next, c', i) { assert NextOk(m.next, c, i + 1); }
    forall k | 0 <= k < |m'.refs| && b'.place[k] == Listed ensures k in c' {
      var i :| 0 <= i < |c| && c[i] == k;
      assert c'[i-1] == k;
    }
  }

  lemma OtherThread(m: Memory, b: Book, m': Memory, b': Book, t: nat, n: nat, u: nat)
    requires Inv(m, b) && t < |m.pc| && n < |m.refs| && Local(m, b, m', b', t, n)
    requires u < |m.pc| && u != t
    ensures ThreadOk(m', b', u)
  {
    assert ThreadOk(m, b, u);
    if m.pc[u].GetCas? {
      HolderCounts(m.pc, u, m.pc[u].node);
      assert NodeOk(m, b, m.pc[u].node);
    }
  }

  lemma OtherNode(m: Memory, b: Book, m': Memory, b': Book, t: nat, n: nat, k: nat)
    requires Inv(m, b) && t < |m.pc| && n < |m.refs| && Local(m, b, m', b', t, n)
    requires ThreadOk(m, b, t) && k < |m.refs| && k != n
    requires !m.pc[t].Idle? && !m.pc[t].GetLoad? ==> m.pc[t].node == n
    ensures NodeOk(m', b', k)
  {
    HoldersUpdate(m.pc, t, m'.pc[t], k);
    assert NodeOk(m, b, k);
  }

  lemma LocalStep(m: Memory, b: Book, m': Memory, b': Book, t: nat, n: nat)
    requires Inv(m, b) && t < |m.pc| && n < |m.refs| && Local(m, b, m', b', t, n)
    requires !m.pc[t].Idle? && !m.pc[t].GetLoad? ==> m.pc[t].node == n
    requires NodeOk(m', b', n) && ThreadOk(m', b', t) && ChainOk(m', b')
    ensures Inv(m', b')
  {
    assert ThreadOk(m, b, t);
    forall k | 0 <= k < |m.refs| ensures NodeOk(m', b', k) {
      if k != n { OtherNode(m, b, m', b', t, n, k); }
    }
    forall u | 0 <= u < |m.pc| ensures ThreadOk(m', b', u) {
      if u != t { OtherThread(m, b, m', b', t, n, u); }
    }
  }

  /** A step that only moves the program counter of a thread that is between nodes. */
  lemma IdleStep(m: Memory, b: Book, t: nat, pc: Pc)
    requires Inv(m, b) && t < |m.pc| && (m.pc[t].Idle? || m.pc[t].GetLoad?)
    requires pc == GetLoad || pc == Loop(m.head)
    ensures Inv(m.(pc := m.pc[t := pc]), b)
  {
    var m' := m.(pc := m.pc[t := pc]);
    assert Typed(m');
    forall k | 0 <= k < |m.refs| ensures NodeOk(m', b, k) {
      HoldersUpdate(m.pc, t, pc, k);
      assert NodeOk(m, b, k);
    }
    forall u | 0 <= u < |m.pc| ensures ThreadOk(m', b, u) {
      assert ThreadOk(m, b, u);
    }
  }

  lemma AddKeeps(m: Memory, b: Book, t: nat, n: nat)
    requires Inv(m, b) && Enabled(m, t, CallAdd(n)) && Allowed(b, CallAdd(n))
    ensures Inv(Step(m, t, CallAdd(n)), Track(m, b, t, CallAdd(n)))
  {
    var m', b' := Step(m, t, CallAdd(n)), Track(m, b, t, CallAdd(n));
    HoldersUpdate(m.pc, t, m'.pc[t], n);
    assert NodeOk(m, b, n);
    assert Local(m, b, m', b', t, n);
    ChainFrame(m, b, m', b', t, n);
    LocalStep(m, b, m', b', t, n);
  }

  /** The only accesses that move the head: the compare-exchanges that succeed. */
  predicate MovesHead(m: Memory, t: nat)
    requires t < |m.pc|
  {
    (m.pc[t].InsCas? && m.head == m.pc[t].head) || (m.pc[t].GetCas? && m.head == Some(m.pc[t].node))
  }

  predicate Inserting(pc: Pc) { pc.InsLoad? || pc.InsNext? || pc.InsRefs? || pc.InsCas? || pc.InsBack? }

  predicate Getting(pc: Pc) {
    pc.GetRefs? || pc.GetInc? || pc.GetNext? || pc.GetCas? || pc.GetTake? || pc.GetDrop?
  }

  lemma StepTyped(m: Memory, t: nat)
    requires Typed(m) && Enabled(m, t, Advance)
    ensures Typed(Step(m, t, Advance)) && |Step(m, t, Advance).pc| == |m.pc|
  {
  }

  /** Every access leaves the node it is about, and its own thread, as the invariant wants them. */
  lemma InsertedNode(m: Memory, b: Book, t: nat)
    requires Typed(m) && |b.place| == |m.refs| && |m.pc| + 1 < SHOULD_BE_ON_FREELIST
    requires t < |m.pc| && Inserting(m.pc[t])
    requires NodeOk(m, b, m.pc[t].node) && ThreadOk(m, b, t)
    ensures NodeOk(Step(m, t, Advance), Track(m, b, t, Advance), m.pc[t].node)
  {
    HoldersUpdate(m.pc, t, Step(m, t, Advance).pc[t], m.pc[t].node);
  }

  lemma GottenNode(m: Memory, b: Book, t: nat)
    requires Typed(m) && |b.place| == |m.refs| && |m.pc| + 1 < SHOULD_BE_ON_FREELIST
    requires t < |m.pc| && Getting(m.pc[t])
    requires NodeOk(m, b, m.pc[t].node) && ThreadOk(m, b, t)
    requires m.head.Some? ==> b.chain != [] && b.place[m.head.value].Listed?
    ensures NodeOk(Step(m, t, Advance), Track(m, b, t, Advance), m.pc[t].node)
  {
    if m.pc[t].GetTake? || m.pc[t].GetDrop? {
      LeftNode(m, b, t);
    } else if m.pc[t].GetCas? {
      TakenNode(m, b, t);
    } else {
      SoughtNode(m, b, t);
    }
  }

  lemma SoughtNode(m: Memory, b: Book, t: nat)
    requires Typed(m) && |b.place| == |m.refs| && |m.pc| + 1 < SHOULD_BE_ON_FREELIST
    requires t < |m.pc| && (m.pc[t].GetRefs? || m.pc[t].GetInc? || m.pc[t].GetNext?)
    requires NodeOk(m, b, m.pc[t].node) && ThreadOk(m, b, t)
    ensures NodeOk(Step(m, t, Advance), Track(m, b, t, Advance), m.pc[t].node)
  {
    HoldersUpdate(m.pc, t, Step(m, t, Advance).pc[t], m.pc[t].node);
  }

  lemma TakenNode(m: Memory, b: Book, t: nat)
    requires Typed(m) && |b.place| == |m.refs| && |m.pc| + 1 < SHOULD_BE_ON_FREELIST
    requires t < |m.pc| && m.pc[t].GetCas?
    requires NodeOk(m, b, m.pc[t].node) && ThreadOk(m, b, t)
    requires m.head.Some? ==> b.chain != [] && b.place[m.head.value].Listed?
    ensures NodeOk(Step(m, t, Advance), Track(m, b, t, Advance), m.pc[t].node)
  {
    HoldersUpdate(m.pc, t, Step(m, t, Advance).pc[t], m.pc[t].node);
  }

  lemma LeftNode(m: Memory, b: Book, t: nat)
    requires Typed(m) && |b.place| == |m.refs| && |m.pc| + 1 < SHOULD_BE_ON_FREELIST
    requires t < |m.pc| && (m.pc[t].GetTake? || m.pc[t].GetDrop?)
    requires NodeOk(m, b, m.pc[t].node) && ThreadOk(m, b, t)
    ensures NodeOk(Step(m, t, Advance), Track(m, b, t, Advance), m.pc[t].node)
  {
    HoldersUpdate(m.pc, t, Step(m, t, Advance).pc[t], m.pc[t].node);
  }

  lemma OwnThread(m: Memory, b: Book, t: nat)
    requires Typed(m) && |b.place| == |m.refs| && |m.pc| + 1 < SHOULD_BE_ON_FREELIST
    requires t < |m.pc| && (Inserting(m.pc[t]) || Getting(m.pc[t])) && Typed(Step(m, t, Advance))
    requires NodeOk(m, b, m.pc[t].node) && ThreadOk(m, b, t)
    requires m.head.Some? ==> b.chain != []
    ensures ThreadOk(Step(m, t, Advance), Track(m, b, t, Advance), t)
  {
    HoldersUpdate(m.pc, t, m.pc[t], m.pc[t].node);
  }

  lemma AccessIsLocal(m: Memory, b: Book, t: nat)
    requires Inv(m, b) && t < |m.pc| && (Inserting(m.pc[t]) || Getting(m.pc[t]))
    requires Typed(Step(m, t, Advance))
    ensures Local(m, b, Step(m, t, Advance), Track(m, b, t, Advance), t, m.pc[t].node)
  {
    assert NodeOk(m, b, m.pc[t].node) && ThreadOk(m, b, t);
  }

  lemma AccessKeepsChain(m: Memory, b: Book, t: nat)
    requires Inv(m, b) && t < |m.pc| && (Inserting(m.pc[t]) || Getting(m.pc[t]))
    requires Local(m, b, Step(m, t, Advance), Track(m, b, t, Advance), t, m.pc[t].node)
    ensures ChainOk(Step(m, t, Advance), Track(m, b, t, Advance))
  {
    var m', b', n := Step(m, t, Advance), Track(m, b, t, Advance), m.pc[t].node;
    assert NodeOk(m, b, n) && ThreadOk(m, b, t);
    if !MovesHead(m, t) {
      ChainFrame(m, b, m', b', t, n);
    } else if m.pc[t].InsCas? {
      ChainPush(m, b, m', b', t, n);
    } else {
      ChainPop(m, b, m', b', n);
    }
  }

  lemma AccessKeeps(m: Memory, b: Book, t: nat)
    requires Inv(m, b) && t < |m.pc| && (Inserting(m.pc[t]) || Getting(m.pc[t]))
    ensures Inv(Step(m, t, Advance), Track(m, b, t, Advance))
  {
    assert NodeOk(m, b, m.pc[t].node) && ThreadOk(m, b, t);
    StepTyped(m, t);
    if Inserting(m.pc[t]) { InsertedNode(m, b, t); } else { GottenNode(m, b, t); }
    OwnThread(m, b, t);
    AccessIsLocal(m, b, t);
    AccessKeepsChain(m, b, t);
    LocalStep(m, b, Step(m, t, Advance), Track(m, b, t, Advance), t, m.pc[t].node);
  }

  lemma StepKeepsInv(m: Memory, b: Book, t: nat, a: Action)
    requires Inv(m, b) && Enabled(m, t, a) && Allowed(b, a)
    ensures Inv(Step(m, t, a), Track(m, b, t, a))
  {
    match a
    case CallAdd(n) => AddKeeps(m, b, t, n);
    case CallGet => IdleStep(m, b, t, GetLoad);
    case Advance =>
      if m.pc[t].GetLoad? { IdleStep(m, b, t, Loop(m.head)); } else { AccessKeeps(m, b, t); }
  }

  // ----- Whole runs

  datatype Event = Event(thread: nat, action: Action)
  datatype State = State(m: Memory, b: Book)

  /** A fresh list: nothing on it, every reference word zero, every node in the hands of some client. */
  ghost predicate Initial(s: State) {
    && |s.m.pc| + 1 < SHOULD_BE_ON_FREELIST
    && |s.m.next| == |s.m.refs| == |s.b.place|
    && s.m.head == None && s.b.chain == []
    && (forall t :: 0 <= t < |s.m.pc| ==> s.m.pc[t] == Idle)
    && (forall n :: 0 <= n < |s.m.refs| ==> s.m.refs[n] == 0 && s.m.next[n] == None)
    && (forall n :: 0 <= n < |s.m.refs| ==> s.b.place[n].Owned? && s.b.place[n].thread < |s.m.pc|)
  }

  predicate Sensible(s: State) { Typed(s.m) && |s.b.place| == |s.m.refs| }

  lemma StepSensible(m: Memory, b: Book, t: nat, a: Action)
    requires Typed(m) && |b.place| == |m.refs| && Enabled(m, t, a)
    ensures Typed(Step(m, t, a)) && |Track(m, b, t, a).place| == |Step(m, t, a).refs|
  {
    if a.Advance? { StepTyped(m, t); }
  }

  /** One scheduled event; an event that its thread cannot perform now leaves the state as it is. */
  function Perform(s: State, e: Event): (s': State)
    requires Sensible(s)
    ensures Sensible(s')
  {
    if Enabled(s.m, e.thread, e.action) && Allowed(s.b, e.action)
    then
      StepSensible(s.m, s.b, e.thread, e.action);
      State(Step(s.m, e.thread, e.action), Track(s.m, s.b, e.thread, e.action))
    else s
  }

  /** Any interleaving of any number of threads is a list of events. */
  function Execute(s: State, events: seq<Event>): (s': State)
    requires Sensible(s)
    ensures Sensible(s')
  {
    if events == [] then s else Perform(Execute(s, events[..|events|-1]), events[|events|-1])
  }

  lemma {:induction false} NoHolders(pcs: seq<Pc>, n: nat)
    requires forall t :: 0 <= t < |pcs| ==> !Holds(pcs[t], n)
    ensures Holders(pcs, n) == 0
  {
    if pcs != [] { NoHolders(pcs[..|pcs|-1], n); }
  }

  lemma InitialInv(s: State)
    requires Initial(s)
    ensures Inv(s.m, s.b)
  {
    forall n | 0 <= n < |s.m.refs| ensures NodeOk(s.m, s.b, n) { NoHolders(s.m.pc, n); }
  }

  lemma {:induction false} RunKeepsInv(s: State, events: seq<Event>)
    requires Initial(s)
    ensures Inv(Execute(s, events).m, Execute(s, events).b)
  {
    InitialInv(s);
    if events != [] {
      RunKeepsInv(s, events[..|events|-1]);
      var p, e := Execute(s, events[..|events|-1]), events[|events|-1];
      if Enabled(p.m, e.thread, e.action) && Allowed(p.b, e.action) {
        StepKeepsInv(p.m, p.b, e.thread, e.action);
      }
    }
  }

  // ----- What the runs mean for a client: statements about memory and about owners only

  /** The node `k` links behind freeListHead, if the list is that long. */
  function Walk(m: Memory, k: nat): Option<nat>
    requires Typed(m)
    ensures Fits(|m.refs|, Walk(m, k))
  {
    if k == 0 then m.head
    else
      var p := Walk(m, k - 1);
      if p.None? then None else m.next[p.value]
  }

  lemma {:induction false} WalkIsChain(m: Memory, b: Book, k: nat)
    requires Inv(m, b)
    ensures Walk(m, k) == if k < |b.chain| then Some(b.chain[k]) else None
  {
    if k > 0 {
      WalkIsChain(m, b, k - 1);
      if k - 1 < |b.chain| { assert NextOk(m.next, b.chain, k - 1); }
    }
  }

  lemma {:induction false} ChainIsShort(chain: seq<nat>, bound: nat)
    requires forall i :: 0 <= i < |chain| ==> chain[i] < bound
    requires forall i, j :: 0 <= i < j < |chain| ==> chain[i] != chain[j]
    ensures |chain| <= bound
  {
    if chain != [] {
      assert chain[0] < bound;
      if bound - 1 in chain {
        var i :| 0 <= i < |chain| && chain[i] == bound - 1;
        ChainIsShort(chain[..i] + chain[i+1..], bound - 1);
      } else {
        ChainIsShort(chain, bound - 1);
      }
    }
  }

  /** In every interleaving the list is finite and visits no node twice: after as many links as there
      are nodes it has ended. */
  lemma ListIsAcyclic(s: State, events: seq<Event>)
    requires Initial(s)
    ensures var m := Execute(s, events).m;
      && Walk(m, |m.refs|) == None
      && forall i: nat, j: nat :: i < j && Walk(m, i).Some? ==> Walk(m, i) != Walk(m, j)
  {
    RunKeepsInv(s, events);
    var m, b := Execute(s, events).m, Execute(s, events).b;
    ChainIsShort(b.chain, |m.refs|);
    forall k: nat ensures Walk(m, k) == if k < |b.chain| then Some(b.chain[k]) else None { WalkIsChain(m, b, k); }
  }

  /** When a thread is about to return `n` from try_get: nobody owns `n` and the list does not reach it,
      so no other thread can be given it; the assertion of the code about the flag holds;
      and the step makes the thread its owner with the list's reference gone. */
  lemma TakenNodeIsExclusive(s: State, events: seq<Event>, t: nat)
    requires Initial(s)
    requires t < |Execute(s, events).m.pc| && Execute(s, events).m.pc[t].GetTake?
    ensures var p := Execute(s, events);
      var n := p.m.pc[t].node;
      && Owner(p.b.place[n]) == None
      && p.m.refs[n] < SHOULD_BE_ON_FREELIST
      && (forall k: nat :: Walk(p.m, k) != Some(n))
      && (forall u :: 0 <= u < |p.m.pc| && u != t ==> p.m.pc[u] != GetTake(n))
    ensures var p, p' := Execute(s, events), Execute(s, events + [Event(t, Advance)]);
      var n := p.m.pc[t].node;
      && Owner(p'.b.place[n]) == Some(t) && p'.m.pc[t] == Idle
      && p'.m.refs[n] == Holders(p'.m.pc, n)
      && (forall k: nat :: Walk(p'.m, k) != Some(n))
  {
    RunKeepsInv(s, events);
    var p := Execute(s, events);
    var n := p.m.pc[t].node;
    assert ThreadOk(p.m, p.b, t);
    WordInRange(p.m, p.b, n);
    forall u | 0 <= u < |p.m.pc| && u != t ensures p.m.pc[u] != GetTake(n) { assert ThreadOk(p.m, p.b, u); }
    WalkAvoids(p.m, p.b, n);
    var events' := events + [Event(t, Advance)];
    assert events'[..|events'|-1] == events;
    var p' := Execute(s, events');
    assert p' == State(Step(p.m, t, Advance), Track(p.m, p.b, t, Advance));
    RunKeepsInv(s, events');
    assert NodeOk(p'.m, p'.b, n);
    WalkAvoids(p'.m, p'.b, n);
  }

  lemma WalkAvoids(m: Memory, b: Book, n: nat)
    requires Inv(m, b) && n < |m.refs| && !b.place[n].Listed?
    ensures forall k: nat :: Walk(m, k) != Some(n)
  {
    forall k: nat ensures Walk(m, k) != Some(n) { WalkIsChain(m, b, k); }
  }

  lemma StepKeepsOwned(m: Memory, b: Book, t: nat, a: Action, n: nat)
    requires Inv(m, b) && Enabled(m, t, a) && Allowed(b, a)
    requires n < |b.place| && b.place[n].Owned? && a != CallAdd(n)
    ensures Track(m, b, t, a).place[n] == b.place[n]
  {
    assert ThreadOk(m, b, t) && NodeOk(m, b, n);
  }

  /** A node in the hands of the clients stays there, off the list, until one of them adds it: no step of any thread
      inside the free list, however stale its head, takes it away or gives it out again. */
  lemma OwnedNodeStaysOwned(s: State, events: seq<Event>, e: Event, n: nat)
    requires Initial(s) && n < |s.m.refs|
    requires n < |Execute(s, events).b.place| && Execute(s, events).b.place[n].Owned?
    requires e.action != CallAdd(n)
    ensures Execute(s, events + [e]).b.place[n] == Execute(s, events).b.place[n]
    ensures forall k: nat :: Walk(Execute(s, events + [e]).m, k) != Some(n)
  {
    RunKeepsInv(s, events);
    var p := Execute(s, events);
    assert (events + [e])[..|events + [e]|-1] == events;
    if Enabled(p.m, e.thread, e.action) && Allowed(p.b, e.action) {
      StepKeepsOwned(p.m, p.b, e.thread, e.action, n);
    }
    RunKeepsInv(s, events + [e]);
    WalkAvoids(Execute(s, events + [e]).m, Execute(s, events + [e]).b, n);
  }

  /** The reference word of every node, in every interleaving: the low bits count the threads that still
      owe a decrement, plus one while the node is listed, being published or just unlinked; the flag is
      set exactly while an added node waits for insertion; and a waiting node with no references has
      exactly one thread inserting it. */
  lemma ReferenceAccounting(s: State, events: seq<Event>, n: nat)
    requires Initial(s) && n < |Execute(s, events).m.refs|
    ensures var p := Execute(s, events);
      var here := p.b.place[n];
      && RefCount(p.m.refs[n])
         == Holders(p.m.pc, n) + (if here.Listed? || here.Publishing? || here.Unlinked? then 1 else 0)
      && (p.m.refs[n] >= SHOULD_BE_ON_FREELIST <==> here.Pending?)
      && (here.Pending? && RefCount(p.m.refs[n]) == 0 ==>
            exists t :: 0 <= t < |p.m.pc| && InserterAt(p.m.pc[t], n)
              && forall u :: 0 <= u < |p.m.pc| && u != t ==> !InserterAt(p.m.pc[u], n) && !PublisherAt(p.m.pc[u], n))
  {
    RunKeepsInv(s, events);
    var p := Execute(s, events);
    assert NodeOk(p.m, p.b, n);
    forall u | 0 <= u < |p.m.pc| ensures
      && (InserterAt(p.m.pc[u], n) ==> p.b.place[n] == Pending(Some(u)))
      && (PublisherAt(p.m.pc[u], n) ==> p.b.place[n] == Publishing(u))
    { assert ThreadOk(p.m, p.b, u); }
  }

  predicate Quiet(m: Memory) { forall t :: 0 <= t < |m.pc| ==> m.pc[t].Idle? }

  /** No node is ever lost: with no operation in flight, a node that no client owns is on the list,
      with exactly the list's reference; one that a client owns has none. */
  lemma NothingIsLost(s: State, events: seq<Event>, n: nat)
    requires Initial(s) && n < |Execute(s, events).m.refs| && Quiet(Execute(s, events).m)
    ensures var p := Execute(s, events);
      && (Owner(p.b.place[n]).None? <==> exists k: nat :: Walk(p.m, k) == Some(n))
      && p.m.refs[n] == if Owner(p.b.place[n]).None? then 1 else 0
  {
    RunKeepsInv(s, events);
    var p := Execute(s, events);
    assert NodeOk(p.m, p.b, n);
    NoHolders(p.m.pc, n);
    if p.b.place[n].Listed? {
      var k :| 0 <= k < |p.b.chain| && p.b.chain[k] == n;
      WalkIsChain(p.m, p.b, k);
    } else {
      WalkAvoids(p.m, p.b, n);
    }
  }

  // ----- A thread that runs alone finds a stack

  /** Thread `t` alone runs to the end of its call, within `fuel` accesses. */
  function Finish(m: Memory, t: nat, fuel: nat): Memory
    requires Typed(m) && t < |m.pc|
    decreases fuel
  {
    if fuel == 0 || m.pc[t].Idle? then m else StepTyped(m, t); Finish(Step(m, t, Advance), t, fuel - 1)
  }

  /** The word of a listed node has room for one more reference of a thread that has none. */
  lemma ListedWord(m: Memory, b: Book, t: nat, n: nat)
    requires Inv(m, b) && t < |m.pc| && n < |m.refs| && b.place[n].Listed? && !Holds(m.pc[t], n)
    ensures 1 <= m.refs[n] < SHOULD_BE_ON_FREELIST - 1
  {
    assert NodeOk(m, b, n);
    HoldersUpdate(m.pc, t, GetNext(n), n);
  }

  /** Alone, whatever the other threads are in the middle of, try_get takes the first node off the list. */
  lemma SoloGetPops(m: Memory, b: Book, t: nat)
    requires Inv(m, b) && t < |m.pc| && m.pc[t].Idle?
    ensures Typed(Step(m, t, CallGet))
    ensures Finish(Step(m, t, CallGet), t, 6)
         == match m.head
            case None => m
            case Some(n) => m.(head := m.next[n], refs := m.refs[n := m.refs[n] - 1])
  {
    var m1 := Step(m, t, CallGet);
    assert Typed(m1);
    StepTyped(m1, t);
    var m2 := Step(m1, t, Advance);
    assert m.pc[t := Idle] == m.pc;
    if m.head.None? {
      assert m2 == m;
      assert Finish(m2, t, 5) == m2;
    } else {
      var n := m.head.value;
      ListedWord(m, b, t, n);
      LonePops(m2, t, n);
    }
  }

  lemma LonePops(m: Memory, t: nat, n: nat)
    requires Typed(m) && t < |m.pc| && n < |m.refs| && m.pc[t] == GetRefs(n)
    requires m.head == Some(n) && 1 <= m.refs[n] < SHOULD_BE_ON_FREELIST - 1
    ensures Finish(m, t, 5) == m.(head := m.next[n], refs := m.refs[n := m.refs[n] - 1], pc := m.pc[t := Idle])
  {
    var r := m.refs[n];
    StepTyped(m, t); var m1 := Step(m, t, Advance);
    StepTyped(m1, t); var m2 := Step(m1, t, Advance);
    StepTyped(m2, t); var m3 := Step(m2, t, Advance);
    StepTyped(m3, t); var m4 := Step(m3, t, Advance);
    StepTyped(m4, t); var m5 := Step(m4, t, Advance);
    assert m2 == m.(refs := m.refs[n := r + 1], pc := m.pc[t := GetNext(n)]);
    assert m5 == m.(head := m.next[n], refs := m.refs[n := r - 1], pc := m.pc[t := Idle]);
    assert Finish(m5, t, 0) == m5;
    assert Finish(m4, t, 1) == m5;
    assert Finish(m3, t, 2) == m5;
    assert Finish(m2, t, 3) == m5;
    assert Finish(m1, t, 4) == m5;
  }

  /** And add puts its node in front, unless another thread still holds a reference to it: then the flag is left for the
      last of them. */
  lemma SoloAddPushes(m: Memory, b: Book, t: nat, n: nat)
    requires Inv(m, b) && t < |m.pc| && m.pc[t].Idle? && n < |m.refs| && b.place[n].Owned?
    ensures Typed(Step(m, t, CallAdd(n)))
    ensures Finish(Step(m, t, CallAdd(n)), t, 4)
         == if Holders(m.pc, n) == 0
            then m.(head := Some(n), next := m.next[n := m.head], refs := m.refs[n := 1])
            else m.(refs := m.refs[n := SHOULD_BE_ON_FREELIST + Holders(m.pc, n)])
  {
    assert NodeOk(m, b, n);
    assert m.pc[t := Idle] == m.pc;
    var m1 := Step(m, t, CallAdd(n));
    if Holders(m.pc, n) == 0 {
      StepTyped(m1, t); var m2 := Step(m1, t, Advance);
      StepTyped(m2, t); var m3 := Step(m2, t, Advance);
      StepTyped(m3, t); var m4 := Step(m3, t, Advance);
      StepTyped(m4, t); var m5 := Step(m4, t, Advance);
      assert m5 == m.(head := Some(n), next := m.next[n := m.head], refs := m.refs[n := 1]);
      assert Finish(m5, t, 0) == m5;
      assert Finish(m4, t, 1) == m5;
      assert Finish(m3, t, 2) == m5;
      assert Finish(m2, t, 3) == m5;
    } else {
      assert Finish(m1, t, 4) == m1;
    }
  }

  // ----- The free list as the object it is: every access is done in place

  class FreeList {
    var head: Option<nat>
    var refs: seq<int>
    var next: seq<Option<nat>>
    var pc: seq<Pc>
    ghost var book: Book

    ghost function View(): Memory reads this { Memory(head, refs, next, pc) }

    ghost predicate Valid() reads this { Inv(View(), book) }

    /** `nodes` nodes, all in the hands of thread 0. */
    constructor (nodes: nat, threads: nat)
      requires 0 < threads && threads + 1 < SHOULD_BE_ON_FREELIST
      ensures Initial(State(View(), book)) && Valid()
    {
      head := None;
      refs := seq(nodes, _ => 0);
      next := seq(nodes, _ => None);
      pc := seq(threads, _ => Idle);
      book := Book(seq(nodes, _ => Owned(0)), []);
      new;
      InitialInv(State(View(), book));
    }

    /** The entry of add(node): its fetch_add. */
    method Add(t: nat, node: nat)
      requires Valid() && Enabled(View(), t, CallAdd(node)) && Allowed(book, CallAdd(node))
      modifies this
      ensures Valid()
      ensures View() == Step(old(View()), t, CallAdd(node)) && book == Track(old(View()), old(book), t, CallAdd(node))
    {
      StepKeepsInv(View(), book, t, CallAdd(node));
      book := Track(View(), book, t, CallAdd(node));
      var old_ := refs[node];
      refs := refs[node := FetchAdd(old_, SHOULD_BE_ON_FREELIST)];
      if old_ == 0 { pc := pc[t := InsLoad(node, ToCaller)]; } else { pc := pc[t := Idle]; }
    }

    /** The entry of try_get. */
    method TryGet(t: nat)
      requires Valid() && Enabled(View(), t, CallGet)
      modifies this
      ensures Valid() && View() == Step(old(View()), t, CallGet) && book == old(book)
    {
      StepKeepsInv(View(), book, t, CallGet);
      pc := pc[t := GetLoad];
    }

    /** The next atomic access of a thread inside add_knowing_refcount_is_zero. */
    method AdvanceInsertion(t: nat)
      requires Valid() && Enabled(View(), t, Advance)
      requires Inserting(pc[t])
      modifies this
      ensures Valid()
      ensures View() == Step(old(View()), t, Advance) && book == Track(old(View()), old(book), t, Advance)
    {
      StepKeepsInv(View(), book, t, Advance);
      book := Track(View(), book, t, Advance);
      match pc[t]
      case InsLoad(n, ret) => pc := pc[t := InsNext(n, head, ret)];
      case InsNext(n, h, ret) =>
        next := next[n := h];
        pc := pc[t := InsRefs(n, h, ret)];
      case InsRefs(n, h, ret) =>
        refs := refs[n := 1];
        pc := pc[t := InsCas(n, h, ret)];
      case InsCas(n, h, ret) =>
        if head == h {
          head := Some(n);
          pc := pc[t := Resume(ret)];
        } else {
          pc := pc[t := InsBack(n, head, ret)];
        }
      case InsBack(n, h, ret) =>
        var was := refs[n];
        refs := refs[n := FetchAdd(was, SHOULD_BE_ON_FREELIST - 1)];
        if was == 1 { pc := pc[t := InsNext(n, h, ret)]; } else { pc := pc[t := Resume(ret)]; }
    }

    /** The next atomic access of a thread in the loop of try_get, and the node once that is the last one. */
    method AdvanceTryGet(t: nat) returns (taken: Option<nat>)
      requires Valid() && Enabled(View(), t, Advance)
      requires pc[t].GetLoad? || Getting(pc[t])
      modifies this
      ensures Valid()
      ensures View() == Step(old(View()), t, Advance) && book == Track(old(View()), old(book), t, Advance)
      ensures taken == if old(pc[t]).GetTake? then Some(old(pc[t]).node) else None
    {
      StepKeepsInv(View(), book, t, Advance);
      book := Track(View(), book, t, Advance);
      taken := None;
      if pc[t].GetCas? || pc[t].GetTake? || pc[t].GetDrop? { taken := Remove(t); } else { Search(t); }
    }

    /** Up to the compare-exchange of the head: a reference is taken on the node seen there. */
    method Search(t: nat)
      requires Typed(View()) && Enabled(View(), t, Advance)
      requires pc[t].GetLoad? || pc[t].GetRefs? || pc[t].GetInc? || pc[t].GetNext?
      modifies this`refs, this`pc
      ensures View() == Step(old(View()), t, Advance)
    {
      match pc[t]
      case GetLoad => pc := pc[t := Loop(head)];
      case GetRefs(n) =>
        if RefCount(refs[n]) == 0 { pc := pc[t := GetLoad]; } else { pc := pc[t := GetInc(n, refs[n])]; }
      case GetInc(n, seen) =>
        if refs[n] == seen {
          refs := refs[n := FetchAdd(seen, 1)];
          pc := pc[t := GetNext(n)];
        } else {
          pc := pc[t := GetLoad];
        }
      case GetNext(n) => pc := pc[t := GetCas(n, next[n])];
    }

    /** From the compare-exchange on: the node is returned, or the reference dropped. */
    method Remove(t: nat) returns (taken: Option<nat>)
      requires Typed(View()) && Enabled(View(), t, Advance)
      requires pc[t].GetCas? || pc[t].GetTake? || pc[t].GetDrop?
      modifies this`head, this`refs, this`pc
      ensures View() == Step(old(View()), t, Advance)
      ensures taken == if old(pc[t]).GetTake? then Some(old(pc[t]).node) else None
    {
      taken := None;
      match pc[t]
      case GetCas(n, x) =>
        if head == Some(n) {
          head := x;
          pc := pc[t := GetTake(n)];
        } else {
          pc := pc[t := GetDrop(n, head)];
        }
      case GetTake(n) =>
        refs := refs[n := FetchAdd(refs[n], -2)];
        pc := pc[t := Idle];
        taken := Some(n);
      case GetDrop(n, h) =>
        var was := refs[n];
        refs := refs[n := FetchAdd(was, -1)];
        if was == SHOULD_BE_ON_FREELIST + 1 { pc := pc[t := InsLoad(n, ToGet(h))]; } else { pc := pc[t := Loop(h)]; }
    }
  }
}
