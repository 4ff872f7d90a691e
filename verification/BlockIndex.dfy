/** The circular block index of an implicit producer (BlockIndexHeader, BlockIndexEntry of concurrentqueue.h).

    Blocks are numbered 0, 1, 2, ... in the order of their base indices: block n holds the queue indices
    n * BLOCK_SIZE .. (n + 1) * BLOCK_SIZE. A key is kept as that number (CircularIndex.SlotIsWrappedBlocks is
    why dividing the difference of two bases is the difference of two numbers); INVALID_BLOCK_BASE is None. */
module BlockIndex {
  import opened Wrappers
  import opened Bits

  datatype Entry = Entry(key: Option<int>, value: Option<nat>)

  /** `index` holds pointers to entries, shared with the older headers; `tail` is the slot last inserted. */
  datatype Header = Header(tail: nat, index: seq<nat>)

  datatype Index = Index(headers: seq<Header>, entries: seq<Entry>)

  /** Bookkeeping: a header keeps block n in slot (phase + n) % capacity; `count` blocks are inserted and not
      rewound; `high` is the highest number whose key was ever written. */
  datatype Book = Book(phase: seq<int>, count: nat, high: int)

  function Slot(phase: int, n: int, cap: nat): (s: nat)
    requires cap > 0
    ensures s < cap
  {
    (phase + n) % cap
  }

  predicate Shaped(ix: Index) {
    && |ix.headers| > 0
    && (forall h :: 0 <= h < |ix.headers| ==> HeaderFits(ix.headers[h], |ix.entries|))
  }

  predicate HeaderFits(h: Header, entries: nat) {
    h.tail < |h.index| && Pointers(h.index, entries)
  }

  function Current(ix: Index): Header
    requires Shaped(ix)
  {
    ix.headers[|ix.headers|-1]
  }

  // ----- The operations of the code

  /** get_block_index_index_for_index, after its loads: the slot for block n, from the tail slot and its key. */
  function SlotFor(tail: nat, tailKey: int, n: int, cap: nat): nat
    requires cap > 0
  {
    (tail + (n - tailKey)) % cap
  }

  function Next(h: Header): nat
    requires |h.index| > 0
  {
    (h.tail + 1) % |h.index|
  }

  function Previous(h: Header): nat
    requires |h.index| > 0
  {
    (h.tail - 1) % |h.index|
  }

  /** The test of insert_block_index_entry. */
  predicate RoomFor(ix: Index)
    requires Shaped(ix)
  {
    var e := ix.entries[Current(ix).index[Next(Current(ix))]];
    e.key.None? || e.value.None?
  }

  function SetEntry(ix: Index, e: nat, entry: Entry): Index
    requires e < |ix.entries|
  {
    ix.(entries := ix.entries[e := entry])
  }

  function SetTail(ix: Index, tail: nat): Index
    requires Shaped(ix)
  {
    ix.(headers := ix.headers[|ix.headers|-1 := Current(ix).(tail := tail)])
  }

  /** new_block_index: the old slots from the oldest to the newest, then as many fresh ones. */
  function Grown(h: Header, entries: nat): Header
    requires |h.index| > 0
  {
    var cap := |h.index|;
    Header(cap - 1, seq(2 * cap, i requires 0 <= i < 2 * cap =>
      if i < cap then h.index[(h.tail + 1 + i) % cap] else entries + (i - cap)))
  }

  function Grow(ix: Index): Index
    requires Shaped(ix)
  {
    var cap := |Current(ix).index|;
    Index(ix.headers + [Grown(Current(ix), |ix.entries|)], ix.entries + seq(cap, _ => Entry(None, None)))
  }

  // ----- Slots

  lemma ModAdd(x: int, d: int, cap: nat)
    requires cap > 0
    ensures (x % cap + d) % cap == (x + d) % cap
  {
    var y := x % cap + d;
    assert x == cap * (x / cap) + x % cap && y == cap * (y / cap) + y % cap;
    assert cap * (x / cap + y / cap) == cap * (x / cap) + cap * (y / cap);
    ModUnique(x + d, cap, x / cap + y / cap, y % cap);
  }

  /** A slot of a long ring, read in a shorter ring whose capacity divides it. */
  lemma SlotOfSlot(p: int, q: int, n: int, cap: nat, shorter: nat)
    requires cap > 0 && shorter > 0 && cap % shorter == 0
    ensures Slot(p, Slot(q, n, cap), shorter) == Slot(p + q, n, shorter)
  {
    var x := q + n;
    var k := cap / shorter;
    assert cap == shorter * k;
    assert x == cap * (x / cap) + x % cap;
    assert cap * (x / cap) == shorter * (k * (x / cap));
    var y := p + x % cap;
    assert y == shorter * (y / shorter) + y % shorter;
    assert shorter * (k * (x / cap) + y / shorter) == shorter * (k * (x / cap)) + shorter * (y / shorter);
    ModUnique(p + x, shorter, k * (x / cap) + y / shorter, y % shorter);
  }

  lemma SlotUnique(phase: int, a: int, b: int, cap: nat)
    requires cap > 0 && Slot(phase, a, cap) == Slot(phase, b, cap) && -(cap as int) < a - b < cap
    ensures a == b
  {
    var x, y := phase + a, phase + b;
    assert x == cap * (x / cap) + x % cap && y == cap * (y / cap) + y % cap;
    var k := x / cap - y / cap;
    assert a - b == cap * k;
    if k >= 1 { MulLe(cap, 1, k); }
    if k <= -1 { MulLe(cap, k, -1); }
  }

  lemma SlotPeriod(phase: int, n: int, cap: nat)
    requires cap > 0
    ensures Slot(phase, n - cap, cap) == Slot(phase, n, cap)
  {
    var x := phase + n;
    assert x == cap * (x / cap) + x % cap;
    assert cap * (x / cap - 1) == cap * (x / cap) - cap;
    ModUnique(x - cap, cap, x / cap - 1, x % cap);
  }

  /** The slot computation of a consumer does not depend on which key the tail slot shows, as long as that key
      belongs to the slot: not on later laps of the ring, and not on rewinds. */
  lemma LookupFindsSlot(phase: int, tail: nat, tailKey: int, n: int, cap: nat)
    requires cap > 0 && tail == Slot(phase, tailKey, cap)
    ensures SlotFor(tail, tailKey, n, cap) == Slot(phase, n, cap)
  {
    ModAdd(phase + tailKey, n - tailKey, cap);
  }

  lemma NextSlot(phase: int, n: int, cap: nat)
    requires cap > 0
    ensures (Slot(phase, n, cap) + 1) % cap == Slot(phase, n + 1, cap)
    ensures (Slot(phase, n, cap) - 1) % cap == Slot(phase, n - 1, cap)
  {
    ModAdd(phase + n, 1, cap);
    ModAdd(phase + n, -1, cap);
  }

  lemma SlotInRange(phase: int, n: int, cap: nat)
    requires 0 <= phase + n < cap
    ensures Slot(phase, n, cap) == phase + n
  {
    ModUnique(phase + n, cap, 0, phase + n);
  }

  // ----- The invariant of the index

  predicate Pointers(index: seq<nat>, entries: nat) {
    |index| > 0 && forall s :: 0 <= s < |index| ==> index[s] < entries
  }

  /** Every key that a header shows, however old the header, belongs in the slot that shows it. */
  ghost predicate KeysInPlace(index: seq<nat>, phase: int, entries: seq<Entry>)
    requires Pointers(index, |entries|)
  {
    forall s :: 0 <= s < |index| ==>
      entries[index[s]].key.Some? ==> s == Slot(phase, entries[index[s]].key.value, |index|)
  }

  /** Where a header and the current header point at the same entry, their slots agree up to the phases. */
  ghost predicate Aligned(index: seq<nat>, phase: int, cur: seq<nat>, curPhase: int)
    requires |index| > 0
  {
    && |cur| % |index| == 0
    && forall i, s :: 0 <= i < |cur| && 0 <= s < |index| && cur[i] == index[s] ==>
         s == Slot(phase - curPhase, i, |index|)
  }

  /** The keys of the current header are the last `capacity` numbers written. */
  ghost predicate WindowOk(index: seq<nat>, entries: seq<Entry>, count: nat, high: int)
    requires Pointers(index, |entries|)
  {
    && (forall i {:trigger EntryOk(entries[index[i]], |index|, high)} :: 0 <= i < |index| ==>
          EntryOk(entries[index[i]], |index|, high))
    && count - 1 <= high && high - |index| < count
  }

  predicate EntryOk(e: Entry, cap: nat, high: int) {
    match e.key
    case None => e.value.None?
    case Some(k) => 0 <= k <= high && high - cap < k
  }

  ghost predicate Coherent(ix: Index, b: Book) {
    && Shaped(ix) && |b.phase| == |ix.headers|
    && var cur, last := Current(ix), |ix.headers| - 1;
    && (forall h {:trigger KeysInPlace(ix.headers[h].index, b.phase[h], ix.entries)} :: 0 <= h < |ix.headers| ==>
          KeysInPlace(ix.headers[h].index, b.phase[h], ix.entries))
    && (forall h {:trigger Aligned(ix.headers[h].index, b.phase[h], cur.index, b.phase[last])} :: 0 <= h < |ix.headers| ==>
          Aligned(ix.headers[h].index, b.phase[h], cur.index, b.phase[last]))
    && (forall h :: 0 <= h < last ==> ix.entries[ix.headers[h].index[ix.headers[h].tail]].key.Some?)
    && WindowOk(cur.index, ix.entries, b.count, b.high)
    && cur.tail == Slot(b.phase[last], b.count - 1, |cur.index|)
  }

  function CurrentPhase(b: Book): int
    requires |b.phase| > 0
  {
    b.phase[|b.phase|-1]
  }

  /** The entry of block n in the current header. */
  function EntryAt(ix: Index, b: Book, n: int): (e: nat)
    requires Shaped(ix) && |b.phase| == |ix.headers|
    ensures e < |ix.entries|
  {
    Current(ix).index[Slot(CurrentPhase(b), n, |Current(ix).index|)]
  }

  // ----- insert_block_index_entry: the key, then the tail

  lemma NewKeyInPlace(index: seq<nat>, phase: int, cur: seq<nat>, curPhase: int, entries: seq<Entry>, n: int)
    requires Pointers(index, |entries|) && Pointers(cur, |entries|)
    requires KeysInPlace(index, phase, entries) && Aligned(index, phase, cur, curPhase)
    ensures KeysInPlace(index, phase, entries[cur[Slot(curPhase, n, |cur|)] := Entry(Some(n), None)])
  {
    SlotOfSlot(phase - curPhase, curPhase, n, |cur|, |index|);
  }

  lemma NewKeyWindow(index: seq<nat>, phase: int, entries: seq<Entry>, count: nat, high: int)
    requires Pointers(index, |entries|) && KeysInPlace(index, phase, entries) && WindowOk(index, entries, count, high)
    ensures WindowOk(index, entries[index[Slot(phase, count, |index|)] := Entry(Some(count), None)],
                     count, if count > high then count else high)
  {
    var cap, e := |index|, index[Slot(phase, count, |index|)];
    var entries' := entries[e := Entry(Some(count), None)];
    SlotPeriod(phase, count, cap);
    forall i | 0 <= i < cap ensures EntryOk(entries'[index[i]], cap, if count > high then count else high) {
      assert EntryOk(entries[index[i]], cap, high);
    }
  }

  lemma SetKeyKeepsCoherent(ix: Index, b: Book)
    requires Coherent(ix, b)
    ensures var e := EntryAt(ix, b, b.count);
      Coherent(SetEntry(ix, e, Entry(Some(b.count), None)), b.(high := if b.count > b.high then b.count else b.high))
  {
    var cur, last := Current(ix).index, |ix.headers| - 1;
    var ix' := SetEntry(ix, EntryAt(ix, b, b.count), Entry(Some(b.count), None));
    assert KeysInPlace(cur, b.phase[last], ix.entries);
    NewKeyWindow(cur, b.phase[last], ix.entries, b.count, b.high);
    forall h | 0 <= h < |ix.headers|
      ensures KeysInPlace(ix.headers[h].index, b.phase[h], ix'.entries)
    {
      assert KeysInPlace(ix.headers[h].index, b.phase[h], ix.entries);
      assert Aligned(ix.headers[h].index, b.phase[h], cur, b.phase[last]);
      NewKeyInPlace(ix.headers[h].index, b.phase[h], cur, b.phase[last], ix.entries, b.count);
    }
  }

  lemma AdvanceKeepsCoherent(ix: Index, b: Book)
    requires Coherent(ix, b) && b.count <= b.high
    ensures Coherent(SetTail(ix, Next(Current(ix))), b.(count := b.count + 1))
  {
    var cur := Current(ix).index;
    NextSlot(CurrentPhase(b), b.count - 1, |cur|);
    TailKeepsCoherent(ix, b, Next(Current(ix)), b.count + 1);
  }

  /** rewind_block_index_tail. */
  lemma RewindKeepsCoherent(ix: Index, b: Book)
    requires Coherent(ix, b) && b.count > 0
    requires b.high - |Current(ix).index| < b.count - 1
    ensures Coherent(SetTail(ix, Previous(Current(ix))), b.(count := b.count - 1))
  {
    var cur, phase := Current(ix).index, CurrentPhase(b);
    NextSlot(phase, b.count - 1, |cur|);
    TailKeepsCoherent(ix, b, Previous(Current(ix)), b.count - 1);
  }

  lemma TailKeepsCoherent(ix: Index, b: Book, tail: nat, count: nat)
    requires Coherent(ix, b)
    requires tail == Slot(CurrentPhase(b), count - 1, |Current(ix).index|)
    requires WindowOk(Current(ix).index, ix.entries, count, b.high)
    ensures Coherent(SetTail(ix, tail), b.(count := count))
  {
    var ix' := SetTail(ix, tail);
    var last := |ix.headers| - 1;
    forall h | 0 <= h < |ix.headers|
      ensures ix'.headers[h].index == ix.headers[h].index && HeaderFits(ix'.headers[h], |ix'.entries|)
      ensures h < last ==> ix'.headers[h] == ix.headers[h]
    {
      assert HeaderFits(ix.headers[h], |ix.entries|);
    }
    forall h | 0 <= h < |ix.headers|
      ensures KeysInPlace(ix'.headers[h].index, b.phase[h], ix'.entries)
    { assert KeysInPlace(ix.headers[h].index, b.phase[h], ix.entries); }
    forall h | 0 <= h < |ix.headers|
      ensures Aligned(ix'.headers[h].index, b.phase[h], Current(ix').index, b.phase[last])
    { assert Aligned(ix.headers[h].index, b.phase[h], Current(ix).index, b.phase[last]); }
  }

  /** Publishing a block in its entry, or nulling it out, by a consumer or in a rollback. */
  lemma ValueKeepsCoherent(ix: Index, b: Book, e: nat, value: Option<nat>)
    requires Coherent(ix, b) && e < |ix.entries|
    requires value.Some? ==> ix.entries[e].key.Some?
    ensures Coherent(SetEntry(ix, e, ix.entries[e].(value := value)), b)
  {
    var ix' := SetEntry(ix, e, ix.entries[e].(value := value));
    forall h | 0 <= h < |ix.headers|
      ensures KeysInPlace(ix.headers[h].index, b.phase[h], ix'.entries)
    { assert KeysInPlace(ix.headers[h].index, b.phase[h], ix.entries); }
    var cur := Current(ix).index;
    forall i | 0 <= i < |cur| ensures EntryOk(ix'.entries[cur[i]], |cur|, b.high) {
      assert EntryOk(ix.entries[cur[i]], |cur|, b.high);
    }
  }

  // ----- new_block_index

  /** When the next slot is taken by an inserted block, nothing rewound is left ahead of the tail, and that block is
      one lap back. */
  lemma FullIsOneLapBack(ix: Index, b: Book)
    requires Coherent(ix, b) && ix.entries[EntryAt(ix, b, b.count)].value.Some?
    requires ix.entries[EntryAt(ix, b, b.count)].key.Some? ==> ix.entries[EntryAt(ix, b, b.count)].key.value < b.count
    ensures b.high == b.count - 1
    ensures ix.entries[EntryAt(ix, b, b.count)].key == Some(b.count - |Current(ix).index|)
  {
    var cur, phase := Current(ix).index, CurrentPhase(b);
    var slot := Slot(phase, b.count, |cur|);
    assert EntryOk(ix.entries[cur[slot]], |cur|, b.high);
    assert KeysInPlace(cur, phase, ix.entries);
    var k := ix.entries[cur[slot]].key.value;
    if b.count <= b.high { SlotUnique(phase, k, b.count, |cur|); }
    SlotPeriod(phase, b.count, |cur|);
    SlotUnique(phase, k, b.count - |cur|, |cur|);
  }

  lemma CopiedSlot(phase: int, tail: nat, count: nat, k: int, cap: nat)
    requires cap > 0 && tail == Slot(phase, count - 1, cap)
    ensures (tail + 1 + (cap - count + k)) % cap == Slot(phase, k, cap)
  {
    ModAdd(phase + (count - 1), 1 + (cap - count + k), cap);
    SlotPeriod(phase, k + cap, cap);
  }

  /** The copy loop puts block k of the last lap, oldest first, in slot capacity - count + k. */
  lemma GrownSlot(ix: Index, b: Book, k: int)
    requires Coherent(ix, b) && b.count - |Current(ix).index| <= k < b.count
    ensures var cap := |Current(ix).index|;
      Grown(Current(ix), |ix.entries|).index[cap - b.count + k] == EntryAt(ix, b, k)
  {
    CopiedSlot(CurrentPhase(b), Current(ix).tail, b.count, k, |Current(ix).index|);
  }

  /** A key keeps its place under the copy: only arithmetic. */
  lemma CopiedKeyInPlace(phase: int, tail: nat, i: nat, k: int, count: nat, cap: nat)
    requires i < cap && tail == Slot(phase, count - 1, cap)
    requires (tail + 1 + i) % cap == Slot(phase, k, cap) && count - 1 - cap < k <= count - 1
    ensures i == Slot(cap - count, k, 2 * cap)
  {
    ModAdd(phase + (count - 1), 1 + i, cap);
    assert Slot(phase, count + i, cap) == Slot(phase, k, cap);
    SlotPeriod(phase, count + i, cap);
    SlotUnique(phase, count + i - cap, k, cap);
    SlotInRange(cap - count, k, 2 * cap);
  }

  lemma GrownInPlace(cur: Header, phase: int, entries: seq<Entry>, count: nat)
    requires HeaderFits(cur, |entries|) && KeysInPlace(cur.index, phase, entries)
    requires WindowOk(cur.index, entries, count, count - 1) && cur.tail == Slot(phase, count - 1, |cur.index|)
    ensures var more := entries + seq(|cur.index|, _ => Entry(None, None));
      && Pointers(Grown(cur, |entries|).index, |more|)
      && KeysInPlace(Grown(cur, |entries|).index, |cur.index| - count, more)
  {
    var cap := |cur.index|;
    var g := Grown(cur, |entries|).index;
    var more := entries + seq(cap, _ => Entry(None, None));
    forall i | 0 <= i < |g| && more[g[i]].key.Some?
      ensures i == Slot(cap - count, more[g[i]].key.value, |g|)
    {
      var j := (cur.tail + 1 + i) % cap;
      assert g[i] == cur.index[j] && i < cap;
      assert EntryOk(entries[cur.index[j]], cap, count - 1);
      CopiedKeyInPlace(phase, cur.tail, i, entries[cur.index[j]].key.value, count, cap);
    }
  }

  lemma GrownAligned(index: seq<nat>, p: int, cur: Header, phase: int, entries: nat, count: nat)
    requires HeaderFits(cur, entries) && Pointers(index, entries) && Aligned(index, p, cur.index, phase)
    requires cur.tail == Slot(phase, count - 1, |cur.index|)
    ensures Aligned(index, p, Grown(cur, entries).index, |cur.index| - count)
  {
    var cap, g, small := |cur.index|, Grown(cur, entries).index, |index|;
    DivisorOfDouble(cap, small);
    forall i, s | 0 <= i < |g| && 0 <= s < small && g[i] == index[s]
      ensures s == Slot(p - (cap - count), i, small)
    {
      var j := (cur.tail + 1 + i) % cap;
      assert cur.index[j] == index[s];
      assert s == Slot(p - phase, j, small);
      ModAdd(phase + (count - 1), 1 + i, cap);
      assert j == Slot(phase, count + i, cap);
      SlotOfSlot(p - phase, phase, count + i, cap, small);
      ShiftByMultiple(p + count + i, cap, small);
    }
  }

  lemma DivisorOfDouble(cap: nat, small: nat)
    requires small > 0 && cap % small == 0
    ensures (2 * cap) % small == 0
  {
    var k := cap / small;
    assert cap == small * k && small * (2 * k) == 2 * (small * k);
    ModUnique(2 * cap, small, 2 * k, 0);
  }

  lemma ShiftByMultiple(x: int, cap: nat, small: nat)
    requires small > 0 && cap % small == 0
    ensures (x - cap) % small == x % small
  {
    var k := cap / small;
    assert cap == small * k && x == small * (x / small) + x % small;
    assert small * (x / small - k) == small * (x / small) - small * k;
    ModUnique(x - cap, small, x / small - k, x % small);
  }

  lemma GrownSelfAligned(cur: Header, phase: int, entries: nat, count: nat)
    requires HeaderFits(cur, entries) && Aligned(cur.index, phase, cur.index, phase)
    requires cur.tail == Slot(phase, count - 1, |cur.index|)
    ensures Aligned(Grown(cur, entries).index, |cur.index| - count, Grown(cur, entries).index, |cur.index| - count)
  {
    var cap, g := |cur.index|, Grown(cur, entries).index;
    forall i, s | 0 <= i < |g| && 0 <= s < |g| && g[i] == g[s] ensures s == Slot(0, i, |g|) {
      SlotInRange(0, i, |g|);
      if i < cap && s < cap {
        var a, c := (cur.tail + 1 + i) % cap, (cur.tail + 1 + s) % cap;
        assert cur.index[a] == cur.index[c];
        SlotInRange(0, a, cap);
        assert c == Slot(phase - phase, a, cap);
        SlotUnique(cur.tail + 1, i, s, cap);
      }
    }
    ModUnique(|g|, |g|, 1, 0);
  }

  lemma MoreEntriesKeepKeys(index: seq<nat>, phase: int, entries: seq<Entry>, more: seq<Entry>)
    requires Pointers(index, |entries|) && KeysInPlace(index, phase, entries) && entries <= more
    ensures Pointers(index, |more|) && KeysInPlace(index, phase, more)
  {
  }

  lemma GrownWindow(cur: Header, entries: seq<Entry>, count: nat)
    requires HeaderFits(cur, |entries|) && WindowOk(cur.index, entries, count, count - 1)
    ensures var g, more := Grown(cur, |entries|).index, entries + seq(|cur.index|, _ => Entry(None, None));
      Pointers(g, |more|) && WindowOk(g, more, count, count - 1)
  {
    var cap, g := |cur.index|, Grown(cur, |entries|).index;
    var more := entries + seq(cap, _ => Entry(None, None));
    forall i | 0 <= i < 2 * cap ensures EntryOk(more[g[i]], 2 * cap, count - 1) {
      if i < cap { assert EntryOk(entries[cur.index[(cur.tail + 1 + i) % cap]], cap, count - 1); }
    }
  }

  /** Appending a header that is coherent on its own and aligned with the older ones. */
  lemma AppendHeader(ix: Index, b: Book, g: Header, phase: int, more: seq<Entry>)
    requires Coherent(ix, b) && ix.entries <= more
    requires ix.entries[Current(ix).index[Current(ix).tail]].key.Some?
    requires HeaderFits(g, |more|) && KeysInPlace(g.index, phase, more) && Aligned(g.index, phase, g.index, phase)
    requires forall h :: 0 <= h < |ix.headers| ==> Aligned(ix.headers[h].index, b.phase[h], g.index, phase)
    requires WindowOk(g.index, more, b.count, b.high) && g.tail == Slot(phase, b.count - 1, |g.index|)
    ensures Coherent(Index(ix.headers + [g], more), b.(phase := b.phase + [phase]))
  {
    var headers, phases := ix.headers + [g], b.phase + [phase];
    forall h | 0 <= h < |headers|
      ensures HeaderFits(headers[h], |more|) && KeysInPlace(headers[h].index, phases[h], more)
    {
      if h < |ix.headers| {
        assert KeysInPlace(ix.headers[h].index, b.phase[h], ix.entries);
        MoreEntriesKeepKeys(ix.headers[h].index, b.phase[h], ix.entries, more);
      }
    }
    forall h | 0 <= h < |headers| ensures Aligned(headers[h].index, phases[h], g.index, phase) {
      if h < |ix.headers| { assert Aligned(ix.headers[h].index, b.phase[h], g.index, phase); }
    }
  }

  lemma OldHeadersAligned(ix: Index, b: Book, h: nat)
    requires Coherent(ix, b) && h < |ix.headers|
    ensures Aligned(ix.headers[h].index, b.phase[h], Grown(Current(ix), |ix.entries|).index, |Current(ix).index| - b.count)
  {
    assert Aligned(ix.headers[h].index, b.phase[h], Current(ix).index, CurrentPhase(b));
    GrownAligned(ix.headers[h].index, b.phase[h], Current(ix), CurrentPhase(b), |ix.entries|, b.count);
  }

  function MoreEntries(ix: Index): seq<Entry>
    requires Shaped(ix)
  {
    ix.entries + seq(|Current(ix).index|, _ => Entry(None, None))
  }

  lemma GrownHeaderOk(ix: Index, b: Book)
    requires Coherent(ix, b) && b.high == b.count - 1
    ensures var cap, g, more := |Current(ix).index|, Grown(Current(ix), |ix.entries|), MoreEntries(ix);
      && HeaderFits(g, |more|) && KeysInPlace(g.index, cap - b.count, more) && WindowOk(g.index, more, b.count, b.high)
  {
    var cur, last := Current(ix), |ix.headers| - 1;
    assert KeysInPlace(cur.index, b.phase[last], ix.entries);
    GrownInPlace(cur, b.phase[last], ix.entries, b.count);
    GrownWindow(cur, ix.entries, b.count);
  }

  lemma GrownHeaderAligned(ix: Index, b: Book)
    requires Coherent(ix, b)
    ensures var cap, g := |Current(ix).index|, Grown(Current(ix), |ix.entries|);
      Aligned(g.index, cap - b.count, g.index, cap - b.count) && g.tail == Slot(cap - b.count, b.count - 1, |g.index|)
  {
    var cur, last := Current(ix), |ix.headers| - 1;
    assert Aligned(cur.index, b.phase[last], cur.index, b.phase[last]);
    GrownSelfAligned(cur, b.phase[last], |ix.entries|, b.count);
    SlotInRange(|cur.index| - b.count, b.count - 1, 2 * |cur.index|);
  }

  lemma GrowKeepsCoherent(ix: Index, b: Book)
    requires Coherent(ix, b) && b.high == b.count - 1
    requires ix.entries[Current(ix).index[Current(ix).tail]].key.Some?
    ensures Coherent(Grow(ix), b.(phase := b.phase + [|Current(ix).index| - b.count]))
  {
    GrownHeaderOk(ix, b);
    GrownHeaderAligned(ix, b);
    forall h | 0 <= h < |ix.headers|
      ensures Aligned(ix.headers[h].index, b.phase[h], Grown(Current(ix), |ix.entries|).index, |Current(ix).index| - b.count)
    { OldHeadersAligned(ix, b, h); }
    AppendHeader(ix, b, Grown(Current(ix), |ix.entries|), |Current(ix).index| - b.count, MoreEntries(ix));
  }

  /** The copy loop of new_block_index: walks the old ring from behind its tail back to its tail,
      then appends the fresh entries. */
  method NewBlockIndex(prev: array<nat>, prevTail: nat, entries: nat) returns (index: array<nat>, tail: nat)
    requires prevTail < prev.Length
    ensures Header(tail, index[..]) == Grown(Header(prevTail, prev[..]), entries)
  {
    var cap := prev.Length;
    index := new nat[2 * cap];
    var prevPos := (prevTail + 1) % cap;
    index[0] := prev[prevPos];
    var i := 1;
    while prevPos != prevTail
      invariant 1 <= i <= cap
      invariant prevPos == Slot(prevTail, i, cap)
      invariant forall k :: 0 <= k < i ==> index[k] == prev[(prevTail + 1 + k) % cap]
      decreases cap - i
    {
      LapEnds(prevTail, i, cap);
      NextSlot(prevTail, i, cap);
      prevPos := (prevPos + 1) % cap;
      index[i] := prev[prevPos];
      i := i + 1;
    }
    LapEnds(prevTail, i, cap);
    i := 0;
    while i != cap
      invariant 0 <= i <= cap
      invariant forall k :: 0 <= k < cap ==> index[k] == prev[(prevTail + 1 + k) % cap]
      invariant forall k :: cap <= k < cap + i ==> index[k] == entries + (k - cap)
    {
      index[cap + i] := entries + i;
      i := i + 1;
    }
    tail := cap - 1;
    assert index[..] == Grown(Header(prevTail, prev[..]), entries).index;
  }

  /** The walk is back at the tail exactly after `cap` steps. */
  lemma LapEnds(tail: nat, i: nat, cap: nat)
    requires tail < cap && 1 <= i <= cap
    ensures Slot(tail, i, cap) == tail <==> i == cap
  {
    SlotInRange(tail, 0, cap);
    SlotPeriod(tail, i, cap);
    if Slot(tail, i, cap) == tail { SlotUnique(tail, i - cap, 0, cap); }
  }
}
