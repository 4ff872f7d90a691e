/** LRUCache of lrucache.cc: a list of keys, most recently used first, and a hash map from each key to its value and
    its position in the list. Proved against a sequence of pairs in order of use. */
module LruCache {
  import opened Wrappers

  type Key = nat
  type Byte = x: int | 0 <= x < 256
  type Value = seq<Byte>

  datatype Pair = Pair(key: Key, val: Value)

  // ----- The cache as a sequence of pairs, most recently used first

  predicate Has(s: seq<Pair>, k: Key) { exists i :: 0 <= i < |s| && s[i].key == k }

  predicate Distinct(s: seq<Pair>) { forall i, j :: 0 <= i < j < |s| ==> s[i].key != s[j].key }

  function Remove(s: seq<Pair>, k: Key): (r: seq<Pair>)
    ensures |r| <= |s|
  {
    if s == [] then [] else if s[0].key == k then Remove(s[1..], k) else [s[0]] + Remove(s[1..], k)
  }

  function Find(s: seq<Pair>, k: Key): Option<Value> {
    if s == [] then None else if s[0].key == k then Some(s[0].val) else Find(s[1..], k)
  }

  function Evict(s: seq<Pair>, cap: nat): seq<Pair> {
    if |s| == cap && |s| > 0 then s[..|s|-1] else s
  }

  function AfterPut(s: seq<Pair>, cap: nat, k: Key, v: Value): seq<Pair> {
    [Pair(k, v)] + if Find(s, k).Some? then Remove(s, k) else Evict(s, cap)
  }

  function AfterGet(s: seq<Pair>, k: Key): seq<Pair> {
    match Find(s, k)
    case Some(v) => [Pair(k, v)] + Remove(s, k)
    case None => s
  }

  lemma {:induction false} FindHas(s: seq<Pair>, k: Key)
    ensures Find(s, k).Some? <==> Has(s, k)
  {
    if s != [] {
      FindHas(s[1..], k);
      if s[0].key == k { assert Has(s, k); }
      if Has(s[1..], k) { var i :| 0 <= i < |s[1..]| && s[1..][i].key == k; assert s[i+1].key == k; }
      if Has(s, k) && s[0].key != k { var i :| 0 <= i < |s| && s[i].key == k; assert s[1..][i-1].key == k; }
    }
  }

  lemma {:induction false} FindAt(s: seq<Pair>, i: nat)
    requires Distinct(s) && i < |s|
    ensures Find(s, s[i].key) == Some(s[i].val)
  {
    if i > 0 { FindAt(s[1..], i - 1); }
  }

  lemma {:induction false} RemoveAbsent(s: seq<Pair>, k: Key)
    requires !Has(s, k)
    ensures Remove(s, k) == s
  {
    if s != [] {
      assert s[0].key != k;
      forall i | 0 <= i < |s[1..]| ensures s[1..][i].key != k { assert s[i+1].key != k; }
      RemoveAbsent(s[1..], k);
    }
  }

  lemma {:induction false} RemoveAt(s: seq<Pair>, i: nat)
    requires Distinct(s) && i < |s|
    ensures Remove(s, s[i].key) == s[..i] + s[i+1..]
  {
    if i == 0 {
      forall j | 0 <= j < |s[1..]| ensures s[1..][j].key != s[0].key { assert s[j+1].key != s[0].key; }
      RemoveAbsent(s[1..], s[0].key);
      assert s[..0] + s[1..] == s[1..];
    } else {
      RemoveAt(s[1..], i - 1);
      assert s[1..][..i-1] == s[..i][1..] && s[1..][i..] == s[i+1..];
      assert s[..i] + s[i+1..] == [s[0]] + (s[..i][1..] + s[i+1..]);
    }
  }

  lemma {:induction false} RemoveFacts(s: seq<Pair>, k: Key)
    requires Distinct(s)
    ensures Distinct(Remove(s, k)) && !Has(Remove(s, k), k)
    ensures forall x :: Has(Remove(s, k), x) <==> Has(s, x) && x != k
    ensures |Remove(s, k)| == |s| - (if Has(s, k) then 1 else 0)
    ensures forall x :: x != k ==> Find(Remove(s, k), x) == Find(s, x)
  {
    if s != [] {
      var t := s[1..];
      RemoveFacts(t, k);
      forall x ensures Has(s, x) <==> s[0].key == x || Has(t, x) { HasCons(s[0], t, x); assert s == [s[0]] + t; }
      if s[0].key == k {
        forall j | 0 <= j < |t| ensures t[j].key != k { assert s[j+1].key != k; }
      } else {
        forall x ensures Has(Remove(s, k), x) <==> s[0].key == x || Has(Remove(t, k), x) { HasCons(s[0], Remove(t, k), x); }
        forall j | 0 <= j < |t| ensures t[j].key != s[0].key { assert s[j+1].key != s[0].key; }
        assert !Has(Remove(t, k), s[0].key);
      }
    }
  }

  lemma HasCons(p: Pair, t: seq<Pair>, x: Key)
    ensures Has([p] + t, x) <==> p.key == x || Has(t, x)
  {
    if p.key == x { assert ([p] + t)[0].key == x; }
    if Has(t, x) { var i :| 0 <= i < |t| && t[i].key == x; assert ([p] + t)[i+1].key == x; }
    if Has([p] + t, x) && p.key != x { var i :| 0 <= i < |[p] + t| && ([p] + t)[i].key == x; assert t[i-1].key == x; }
  }

  // ----- Runs of the cache

  datatype Op = OpPut(key: Key, val: Value) | OpGet(key: Key) | OpDel(key: Key)

  function Apply(s: seq<Pair>, cap: nat, op: Op): seq<Pair> {
    match op
    case OpPut(k, v) => AfterPut(s, cap, k, v)
    case OpGet(k) => AfterGet(s, k)
    case OpDel(k) => Remove(s, k)
  }

  function Run(cap: nat, trace: seq<Op>): seq<Pair> {
    if trace == [] then [] else Apply(Run(cap, trace[..|trace|-1]), cap, trace[|trace|-1])
  }

  lemma EvictFacts(s: seq<Pair>, cap: nat)
    requires Distinct(s) && |s| <= cap && cap > 0
    ensures Distinct(Evict(s, cap)) && |Evict(s, cap)| < cap && forall x :: Has(Evict(s, cap), x) ==> Has(s, x)
  {
  }

  lemma ApplyWellFormed(s: seq<Pair>, cap: nat, op: Op)
    requires Distinct(s) && |s| <= cap && cap > 0
    ensures Distinct(Apply(s, cap, op)) && |Apply(s, cap, op)| <= cap
  {
    RemoveFacts(s, op.key);
    EvictFacts(s, cap);
    FindHas(s, op.key);
  }

  /** The list never has a key twice and never grows beyond the capacity. */
  lemma {:induction false} RunWellFormed(cap: nat, trace: seq<Op>)
    requires cap > 0
    ensures Distinct(Run(cap, trace)) && |Run(cap, trace)| <= cap
  {
    if trace != [] {
      RunWellFormed(cap, trace[..|trace|-1]);
      ApplyWellFormed(Run(cap, trace[..|trace|-1]), cap, trace[|trace|-1]);
    }
  }

  // ----- The order is that of the last use

  predicate Touches(s: seq<Pair>, op: Op, k: Key) {
    match op
    case OpPut(x, _) => x == k
    case OpGet(x) => x == k && Find(s, k).Some?
    case OpDel(_) => false
  }

  /** Position in the trace of the last put of k, or get that hit k; -1 if there is none. */
  function LastTouch(cap: nat, trace: seq<Op>, k: Key): int {
    if trace == [] then -1 else
    var n := |trace| - 1;
    if Touches(Run(cap, trace[..n]), trace[n], k) then n else LastTouch(cap, trace[..n], k)
  }

  lemma {:induction false} LastTouchBound(cap: nat, trace: seq<Op>, k: Key)
    ensures -1 <= LastTouch(cap, trace, k) < |trace|
  {
    if trace != [] { LastTouchBound(cap, trace[..|trace|-1], k); }
  }

  predicate Sorted(cap: nat, trace: seq<Op>, s: seq<Pair>) {
    && (forall i :: 0 <= i < |s| ==> LastTouch(cap, trace, s[i].key) >= 0)
    && (forall i, j :: 0 <= i < j < |s| ==> LastTouch(cap, trace, s[i].key) > LastTouch(cap, trace, s[j].key))
  }

  /** The list of a cache is in the order of last use, strictly: the last entry, the one that an eviction removes, is
      the least recently used of all. */
  lemma {:induction false} OrderIsRecency(cap: nat, trace: seq<Op>)
    requires cap > 0
    ensures Sorted(cap, trace, Run(cap, trace))
  {
    if trace != [] {
      var front, op := trace[..|trace|-1], trace[|trace|-1];
      var s := Run(cap, front);
      OrderIsRecency(cap, front);
      RunWellFormed(cap, front);
      if Touches(s, op, op.key) {
        var rest := Run(cap, trace)[1..];
        RestIsSorted(cap, front, s, op);
        FrontIsNewest(cap, trace, rest);
      } else {
        SameTouches(cap, trace, Remove(s, op.key));
        RemoveIsSorted(cap, front, s, op.key);
        if op.OpGet? { SameTouches(cap, trace, s); }
      }
    }
  }

  lemma SameTouches(cap: nat, trace: seq<Op>, s: seq<Pair>)
    requires trace != []
    requires var n := |trace| - 1; forall k :: !Touches(Run(cap, trace[..n]), trace[n], k)
    ensures Sorted(cap, trace, s) <==> Sorted(cap, trace[..|trace|-1], s)
  {
  }

  lemma RemoveIsSorted(cap: nat, trace: seq<Op>, s: seq<Pair>, k: Key)
    requires Distinct(s) && Sorted(cap, trace, s)
    ensures Sorted(cap, trace, Remove(s, k))
  {
    if Has(s, k) {
      var i :| 0 <= i < |s| && s[i].key == k;
      RemoveAt(s, i);
    } else {
      RemoveAbsent(s, k);
    }
  }

  lemma RestIsSorted(cap: nat, front: seq<Op>, s: seq<Pair>, op: Op)
    requires cap > 0 && Distinct(s) && |s| <= cap && Sorted(cap, front, s) && Touches(s, op, op.key)
    ensures var r := Apply(s, cap, op); r != [] && r[0].key == op.key && Sorted(cap, front, r[1..]) && !Has(r[1..], op.key)
  {
    RemoveIsSorted(cap, front, s, op.key);
    RemoveFacts(s, op.key);
    FindHas(s, op.key);
    EvictFacts(s, cap);
  }

  lemma FrontIsNewest(cap: nat, trace: seq<Op>, rest: seq<Pair>)
    requires trace != [] && Touches(Run(cap, trace[..|trace|-1]), trace[|trace|-1], trace[|trace|-1].key)
    requires Sorted(cap, trace[..|trace|-1], rest) && !Has(rest, trace[|trace|-1].key)
    ensures forall p: Pair :: p.key == trace[|trace|-1].key ==> Sorted(cap, trace, [p] + rest)
  {
    var k := trace[|trace|-1].key;
    forall i | 0 <= i < |rest|
      ensures LastTouch(cap, trace, rest[i].key) == LastTouch(cap, trace[..|trace|-1], rest[i].key) < |trace| - 1
    {
      assert rest[i].key != k;
      LastTouchBound(cap, trace[..|trace|-1], rest[i].key);
    }
  }

  /** What an eviction removes is the least recently used key. */
  lemma EvictsLeastRecent(cap: nat, trace: seq<Op>, k: Key, v: Value, i: nat)
    requires cap > 0 && |Run(cap, trace)| == cap && !Has(Run(cap, trace), k) && i < cap
    ensures var s, s' := Run(cap, trace), Run(cap, trace + [OpPut(k, v)]);
      && s' == [Pair(k, v)] + s[..cap-1] && !Has(s', s[cap-1].key)
      && LastTouch(cap, trace, s[cap-1].key) <= LastTouch(cap, trace, s[i].key)
  {
    var s := Run(cap, trace);
    assert (trace + [OpPut(k, v)])[..|trace|] == trace;
    FindHas(s, k);
    OrderIsRecency(cap, trace);
    RunWellFormed(cap, trace);
    HasCons(Pair(k, v), s[..cap-1], s[cap-1].key);
    assert s[cap-1].key != k;
  }

  // ----- A hit returns the last value put

  function LastPut(trace: seq<Op>, k: Key): Option<Value> {
    if trace == [] then None else
    var op := trace[|trace|-1];
    if op.key != k || op.OpGet? then LastPut(trace[..|trace|-1], k)
    else if op.OpPut? then Some(op.val) else None
  }

  /** For any capacity: what is in the cache is what a plain map would hold. */
  lemma {:induction false} HitIsLastPut(cap: nat, trace: seq<Op>, k: Key)
    requires cap > 0 && Find(Run(cap, trace), k).Some?
    ensures Find(Run(cap, trace), k) == LastPut(trace, k)
  {
    if trace != [] {
      var front, op := trace[..|trace|-1], trace[|trace|-1];
      var s := Run(cap, front);
      RunWellFormed(cap, front);
      FindHas(Run(cap, trace), k);
      FindHas(s, k);
      FindHas(s, op.key);
      RemoveFacts(s, op.key);
      FindCons(s, cap, op, k);
      if Find(s, k).Some? { HitIsLastPut(cap, front, k); }
    }
  }

  lemma FindCons(s: seq<Pair>, cap: nat, op: Op, k: Key)
    requires cap > 0 && Distinct(s) && |s| <= cap
    ensures k != op.key && Find(Apply(s, cap, op), k).Some? ==> Find(Apply(s, cap, op), k) == Find(s, k)
    ensures op.OpPut? ==> Find(Apply(s, cap, op), op.key) == Some(op.val)
    ensures op.OpGet? ==> Find(Apply(s, cap, op), op.key) == Find(s, op.key)
    ensures op.OpDel? ==> Find(Apply(s, cap, op), op.key).None?
  {
    RemoveFacts(s, op.key);
    FindHas(Remove(s, op.key), op.key);
    FindEvicted(s, cap, k);
    var r := Apply(s, cap, op);
    if r != [] && (op.OpPut? || (op.OpGet? && Find(s, op.key).Some?)) { assert r[1..] == if Find(s, op.key).Some? then Remove(s, op.key) else Evict(s, cap); }
  }

  lemma {:induction false} FindPrefix(s: seq<Pair>, n: nat, k: Key)
    requires n <= |s|
    ensures Find(s[..n], k).Some? ==> Find(s[..n], k) == Find(s, k)
  {
    if n > 0 {
      assert s[..n][1..] == s[1..][..n-1];
      FindPrefix(s[1..], n - 1, k);
    }
  }

  lemma FindEvicted(s: seq<Pair>, cap: nat, k: Key)
    ensures Find(Evict(s, cap), k).Some? ==> Find(Evict(s, cap), k) == Find(s, k)
  {
    if |s| > 0 { FindPrefix(s, |s| - 1, k); }
  }

  // ----- Inclusion: a larger cache holds all that a smaller one holds

  /** s is what remains of l when some entries are left out. */
  predicate Sub(s: seq<Pair>, l: seq<Pair>) {
    s == [] || (l != [] && if s[0] == l[0] then Sub(s[1..], l[1..]) else Sub(s, l[1..]))
  }

  lemma {:induction false} SubTail(s: seq<Pair>, l: seq<Pair>)
    requires s != [] && Sub(s, l)
    ensures l != [] && Sub(s[1..], l[1..])
  {
    if s[0] != l[0] {
      SubTail(s, l[1..]);
      SubLonger(s[1..], l[1..]);
    }
  }

  lemma {:induction false} SubLonger(s: seq<Pair>, l: seq<Pair>)
    requires l != [] && Sub(s, l[1..])
    ensures Sub(s, l)
  {
    if s != [] && s[0] == l[0] { SubTail(s, l[1..]); SubLonger(s[1..], l[1..]); }
  }

  lemma SubCons(p: Pair, s: seq<Pair>, l: seq<Pair>)
    requires Sub(s, l)
    ensures Sub([p] + s, [p] + l) && Sub(s, [p] + l)
  {
    assert ([p] + s)[1..] == s && ([p] + l)[1..] == l;
    SubLonger(s, [p] + l);
  }

  lemma {:induction false} SubShorter(s: seq<Pair>, l: seq<Pair>)
    requires Sub(s, l)
    ensures |s| <= |l|
  {
    if s != [] { if s[0] == l[0] { SubShorter(s[1..], l[1..]); } else { SubShorter(s, l[1..]); } }
  }

  lemma {:induction false} SubInit(s: seq<Pair>, l: seq<Pair>)
    requires s != [] && Sub(s, l)
    ensures l != [] && Sub(s[..|s|-1], l[..|l|-1])
  {
    SubShorter(s, l);
    if s[0] == l[0] {
      if |s| > 1 {
        SubInit(s[1..], l[1..]);
        assert s[..|s|-1][1..] == s[1..][..|s|-2] && l[..|l|-1][1..] == l[1..][..|l|-2];
      }
    } else {
      SubInit(s, l[1..]);
      assert l[..|l|-1][1..] == l[1..][..|l|-2];
      SubLonger(s[..|s|-1], l[..|l|-1]);
    }
  }

  lemma {:induction false} SubRemove(s: seq<Pair>, l: seq<Pair>, k: Key)
    requires Sub(s, l)
    ensures Sub(Remove(s, k), Remove(l, k))
  {
    if s != [] {
      if s[0] == l[0] {
        SubRemove(s[1..], l[1..], k);
        if s[0].key != k { SubCons(s[0], Remove(s[1..], k), Remove(l[1..], k)); }
      } else {
        SubRemove(s, l[1..], k);
        if l[0].key != k { SubCons(l[0], Remove(s, k), Remove(l[1..], k)); }
      }
    }
  }

  lemma HeadIsNotRepeated(l: seq<Pair>, k: Key)
    requires l != [] && Distinct(l) && Has(l[1..], k)
    ensures l[0].key != k
  {
    var i :| 0 <= i < |l[1..]| && l[1..][i].key == k;
    assert l[i+1].key == k;
  }

  /** Whatever the smaller finds, the larger finds. */
  lemma {:induction false} SubFind(s: seq<Pair>, l: seq<Pair>, k: Key)
    requires Sub(s, l) && Distinct(l) && Find(s, k).Some?
    ensures Find(l, k) == Find(s, k)
  {
    if s[0] == l[0] {
      if s[0].key != k { SubFind(s[1..], l[1..], k); }
    } else {
      SubFind(s, l[1..], k);
      FindHas(l[1..], k);
      HeadIsNotRepeated(l, k);
    }
  }

  ghost predicate Included(s: seq<Pair>, l: seq<Pair>, c1: nat, c2: nat) {
    Sub(s, l) && |l| - |s| <= c2 - c1
  }

  lemma PutKeepsIncluded(s: seq<Pair>, l: seq<Pair>, c1: nat, c2: nat, k: Key, v: Value)
    requires 0 < c1 <= c2 && Included(s, l, c1, c2) && Distinct(s) && Distinct(l) && |s| <= c1 && |l| <= c2
    ensures Included(AfterPut(s, c1, k, v), AfterPut(l, c2, k, v), c1, c2)
  {
    FindHas(s, k);
    FindHas(l, k);
    RemoveFacts(s, k);
    RemoveFacts(l, k);
    SubRemove(s, l, k);
    var s0 := if Find(s, k).Some? then Remove(s, k) else Evict(s, c1);
    var l0 := if Find(l, k).Some? then Remove(l, k) else Evict(l, c2);
    if Find(s, k).Some? {
      SubFind(s, l, k);
    } else if Find(l, k).Some? {
      RemoveAbsent(s, k);
      EvictKeepsSub(s, Remove(l, k), c1);
    } else if |l| == c2 {
      SubInit(s, l);
    } else {
      EvictKeepsSub(s, l, c1);
    }
    SubCons(Pair(k, v), s0, l0);
    SubShorter(s0, l0);
  }

  lemma EvictKeepsSub(s: seq<Pair>, l: seq<Pair>, cap: nat)
    requires Sub(s, l)
    ensures Sub(Evict(s, cap), l)
  {
    if |s| == cap && |s| > 0 {
      SubInit(s, l);
      SubPrefix(s[..|s|-1], l, |l| - 1);
    }
  }

  lemma {:induction false} SubPrefix(s: seq<Pair>, l: seq<Pair>, n: nat)
    requires n <= |l| && Sub(s, l[..n])
    ensures Sub(s, l)
  {
    if s != [] {
      assert l[..n][1..] == l[1..][..n-1];
      if s[0] == l[0] { SubPrefix(s[1..], l[1..], n - 1); } else { SubPrefix(s, l[1..], n - 1); }
    }
  }

  lemma GetKeepsIncluded(s: seq<Pair>, l: seq<Pair>, c1: nat, c2: nat, k: Key)
    requires Included(s, l, c1, c2) && Distinct(s) && Distinct(l)
    ensures Included(AfterGet(s, k), AfterGet(l, k), c1, c2)
  {
    FindHas(s, k);
    FindHas(l, k);
    RemoveFacts(s, k);
    RemoveFacts(l, k);
    SubRemove(s, l, k);
    if Find(s, k).Some? {
      SubFind(s, l, k);
      SubCons(Pair(k, Find(l, k).value), Remove(s, k), Remove(l, k));
    } else if Find(l, k).Some? {
      RemoveAbsent(s, k);
      SubCons(Pair(k, Find(l, k).value), s, Remove(l, k));
    }
  }

  lemma {:induction false} RunsIncluded(c1: nat, c2: nat, trace: seq<Op>)
    requires 0 < c1 <= c2
    ensures Included(Run(c1, trace), Run(c2, trace), c1, c2)
  {
    if trace != [] {
      var front, op := trace[..|trace|-1], trace[|trace|-1];
      RunsIncluded(c1, c2, front);
      RunWellFormed(c1, front);
      RunWellFormed(c2, front);
      var s, l := Run(c1, front), Run(c2, front);
      match op
      case OpPut(k, v) => PutKeepsIncluded(s, l, c1, c2, k, v);
      case OpGet(k) => GetKeepsIncluded(s, l, c1, c2, k);
      case OpDel(k) =>
        SubRemove(s, l, k);
        RemoveFacts(s, k);
        RemoveFacts(l, k);
        FindHas(s, k);
        FindHas(l, k);
        if Has(s, k) { SubFind(s, l, k); }
    }
  }

  /** For every trace, the contents of a cache are contained in those of any larger one: a hit stays a hit, with the
      same value. */
  lemma LargerCacheHitsMore(c1: nat, c2: nat, trace: seq<Op>, k: Key)
    requires 0 < c1 <= c2 && Find(Run(c1, trace), k).Some?
    ensures Find(Run(c2, trace), k) == Find(Run(c1, trace), k)
  {
    RunsIncluded(c1, c2, trace);
    RunWellFormed(c2, trace);
    SubFind(Run(c1, trace), Run(c2, trace), k);
  }

  // ----- The cache as the object it is

  /** A node of lru_keys; `id` is what an iterator to it is. */
  datatype Node = Node(id: nat, key: Key)

  /** What the hash map stores: the value, and the iterator into lru_keys. */
  datatype Entry = Entry(val: Value, it: nat)

  /** Every listed key is in the map, and its iterator points back at it. */
  predicate Linked(lru: seq<Node>, cache: map<Key, Entry>) {
    forall i :: 0 <= i < |lru| ==> lru[i].key in cache && cache[lru[i].key].it == lru[i].id
  }

  function Contents(lru: seq<Node>, cache: map<Key, Entry>): (s: seq<Pair>)
    requires Linked(lru, cache)
    ensures |s| == |lru| && forall i :: 0 <= i < |lru| ==> s[i] == Pair(lru[i].key, cache[lru[i].key].val)
  {
    seq(|lru|, i requires 0 <= i < |lru| => Pair(lru[i].key, cache[lru[i].key].val))
  }

  predicate Apart(a: Node, b: Node) { a.id != b.id && a.key != b.key }

  predicate Listed(lru: seq<Node>, k: Key) { exists i :: 0 <= i < |lru| && lru[i].key == k }

  ghost predicate WellLinked(lru: seq<Node>, cache: map<Key, Entry>, nextId: nat) {
    && Linked(lru, cache)
    && (forall i, j {:trigger Apart(lru[i], lru[j])} :: 0 <= i < j < |lru| ==> Apart(lru[i], lru[j]))
    && (forall i :: 0 <= i < |lru| ==> lru[i].id < nextId)
    && (forall k {:trigger Listed(lru, k)} :: k in cache ==> Listed(lru, k))
  }

  lemma ContentsDistinct(lru: seq<Node>, cache: map<Key, Entry>, nextId: nat)
    requires WellLinked(lru, cache, nextId)
    ensures Distinct(Contents(lru, cache))
  {
    var s := Contents(lru, cache);
    forall i, j | 0 <= i < j < |s| ensures s[i].key != s[j].key { assert Apart(lru[i], lru[j]); }
  }

  /** Where the node of a key is. */
  ghost predicate NodeAt(lru: seq<Node>, cache: map<Key, Entry>, k: Key, i: nat) {
    i < |lru| && k in cache && lru[i] == Node(cache[k].it, k)
  }

  lemma FindIsLookup(lru: seq<Node>, cache: map<Key, Entry>, nextId: nat, k: Key)
    requires WellLinked(lru, cache, nextId)
    ensures Find(Contents(lru, cache), k) == if k in cache then Some(cache[k].val) else None
    ensures k in cache ==> exists i :: NodeAt(lru, cache, k, i)
  {
    var s := Contents(lru, cache);
    FindHas(s, k);
    ContentsDistinct(lru, cache, nextId);
    if k in cache {
      assert Listed(lru, k);
      var i :| 0 <= i < |lru| && lru[i].key == k;
      assert NodeAt(lru, cache, k, i) && s[i].key == k;
      FindAt(s, i);
    } else {
      forall i | 0 <= i < |s| ensures s[i].key != k { assert lru[i].key in cache; }
    }
  }

  function Without(lru: seq<Node>, i: nat): (r: seq<Node>)
    requires i < |lru|
    ensures |r| == |lru| - 1
    ensures forall j :: 0 <= j < |r| ==> r[j] == lru[if j < i then j else j + 1]
  {
    lru[..i] + lru[i+1..]
  }

  lemma TakeOutLinked(lru: seq<Node>, cache: map<Key, Entry>, nextId: nat, i: nat)
    requires WellLinked(lru, cache, nextId) && i < |lru|
    ensures WellLinked(Without(lru, i), cache - {lru[i].key}, nextId)
  {
    var lru', cache' := Without(lru, i), cache - {lru[i].key};
    forall j | 0 <= j < |lru'| ensures lru'[j].key in cache' && cache'[lru'[j].key].it == lru'[j].id && lru'[j].id < nextId {
      var x := if j < i then j else j + 1;
      assert if x < i then Apart(lru[x], lru[i]) else Apart(lru[i], lru[x]);
    }
    forall j, x | 0 <= j < x < |lru'| ensures Apart(lru'[j], lru'[x]) {
      assert Apart(lru[if j < i then j else j + 1], lru[if x < i then x else x + 1]);
    }
    forall k | k in cache' ensures Listed(lru', k) {
      assert Listed(lru, k);
      var j :| 0 <= j < |lru| && lru[j].key == k;
      assert lru'[if j < i then j else j - 1].key == k;
    }
  }

  /** Taking the node at i out. */
  lemma TakeOut(lru: seq<Node>, cache: map<Key, Entry>, nextId: nat, i: nat)
    requires WellLinked(lru, cache, nextId) && i < |lru|
    ensures WellLinked(Without(lru, i), cache - {lru[i].key}, nextId)
    ensures Contents(Without(lru, i), cache - {lru[i].key}) == Remove(Contents(lru, cache), lru[i].key)
  {
    TakeOutLinked(lru, cache, nextId, i);
    ContentsDistinct(lru, cache, nextId);
    RemoveAt(Contents(lru, cache), i);
  }

  /** Moving the node at i to the front, as a new node, with a value. */
  lemma MoveToFront(lru: seq<Node>, cache: map<Key, Entry>, nextId: nat, i: nat, v: Value)
    requires WellLinked(lru, cache, nextId) && i < |lru|
    ensures var k := lru[i].key;
      && WellLinked([Node(nextId, k)] + Without(lru, i), cache[k := Entry(v, nextId)], nextId + 1)
      && Contents([Node(nextId, k)] + Without(lru, i), cache[k := Entry(v, nextId)])
         == [Pair(k, v)] + Remove(Contents(lru, cache), k)
  {
    var k := lru[i].key;
    assert (cache - {k})[k := Entry(v, nextId)] == cache[k := Entry(v, nextId)];
    TakeOut(lru, cache, nextId, i);
    AddToFront(Without(lru, i), cache - {k}, nextId, k, v);
  }

  lemma AddToFrontLinked(lru: seq<Node>, cache: map<Key, Entry>, nextId: nat, k: Key, v: Value)
    requires WellLinked(lru, cache, nextId) && k !in cache
    ensures WellLinked([Node(nextId, k)] + lru, cache[k := Entry(v, nextId)], nextId + 1)
  {
    var lru', cache' := [Node(nextId, k)] + lru, cache[k := Entry(v, nextId)];
    forall j | 0 < j < |lru'| ensures lru'[j] == lru[j-1] && lru'[j].key in cache && lru'[j].id < nextId { }
    forall i, j | 0 <= i < j < |lru'| ensures Apart(lru'[i], lru'[j]) {
      if i > 0 { assert Apart(lru[i-1], lru[j-1]); }
    }
    forall x | x in cache' ensures Listed(lru', x) {
      if x == k { assert lru'[0].key == x; } else {
        assert Listed(lru, x);
        var j :| 0 <= j < |lru| && lru[j].key == x;
        assert lru'[j+1].key == x;
      }
    }
  }

  lemma AddToFront(lru: seq<Node>, cache: map<Key, Entry>, nextId: nat, k: Key, v: Value)
    requires WellLinked(lru, cache, nextId) && k !in cache
    ensures WellLinked([Node(nextId, k)] + lru, cache[k := Entry(v, nextId)], nextId + 1)
    ensures Contents([Node(nextId, k)] + lru, cache[k := Entry(v, nextId)]) == [Pair(k, v)] + Contents(lru, cache)
  {
    AddToFrontLinked(lru, cache, nextId, k, v);
    var lru', cache' := [Node(nextId, k)] + lru, cache[k := Entry(v, nextId)];
    var s, s' := Contents(lru, cache), Contents(lru', cache');
    forall j | 0 <= j < |s'| ensures s'[j] == ([Pair(k, v)] + s)[j] {
      if j > 0 { assert lru'[j] == lru[j-1] && lru[j-1].key in cache; }
    }
  }

  class Cache {
    const capacity: nat
    var cache: map<Key, Entry>
    var lruKeys: seq<Node>
    var size: nat
    var nextId: nat              // the next node to allocate

    ghost predicate Valid() reads this {
      && WellLinked(lruKeys, cache, nextId)
      && size == |lruKeys| <= capacity && 0 < capacity < 0x1_0000_0000
    }

    /** The abstract cache. */
    ghost function View(): seq<Pair>
      requires Valid()
      reads this
    {
      Contents(lruKeys, cache)
    }

    lemma ViewIsDistinct()
      requires Valid()
      ensures Distinct(View()) && |View()| <= capacity
    {
      ContentsDistinct(lruKeys, cache, nextId);
    }

    constructor (capacityIn: nat)
      requires 0 < capacityIn < 0x1_0000_0000
      ensures Valid() && View() == [] && capacity == capacityIn
    {
      capacity, cache, lruKeys, size, nextId := capacityIn, map[], [], 0, 0;
    }

    /** Where an iterator points. */
    method Locate(key: Key) returns (i: nat)
      requires Valid() && key in cache
      ensures i < |lruKeys| && lruKeys[i] == Node(cache[key].it, key)
    {
      FindIsLookup(lruKeys, cache, nextId, key);
      ghost var j: nat :| NodeAt(lruKeys, cache, key, j);
      i :| 0 <= i < |lruKeys| && lruKeys[i] == Node(cache[key].it, key);
    }

    /** lru_keys.erase(it); push_front(key); the entry's iterator := begin(). */
    method Touch(key: Key, val: Value)
      requires Valid() && key in cache
      modifies this
      ensures Valid() && View() == [Pair(key, val)] + Remove(old(View()), key)
    {
      var i := Locate(key);
      MoveToFront(lruKeys, cache, nextId, i, val);
      lruKeys := Without(lruKeys, i);
      lruKeys := [Node(nextId, key)] + lruKeys;
      cache := cache[key := Entry(val, nextId)];
      nextId := nextId + 1;
    }

    method Put(key: Key, val: Value) returns (hit: bool)
      requires Valid()
      modifies this
      ensures Valid() && View() == AfterPut(old(View()), capacity, key, val)
      ensures hit <==> Has(old(View()), key)
    {
      FindIsLookup(lruKeys, cache, nextId, key);
      FindHas(View(), key);
      if key in cache {
        Touch(key, val);
        return true;
      }
      if size == capacity {
        EvictLast();
      }
      FindIsLookup(lruKeys, cache, nextId, key);
      FindHas(View(), key);
      AddToFront(lruKeys, cache, nextId, key, val);
      size := size + 1;
      lruKeys := [Node(nextId, key)] + lruKeys;
      cache := cache[key := Entry(val, nextId)];
      nextId := nextId + 1;
      return false;
    }

    /** lru_keys.back(), pop_back(), and the map entry with it. */
    method EvictLast()
      requires Valid() && size > 0
      modifies this
      ensures Valid() && View() == old(View())[..|old(View())|-1] && size == old(size) - 1
      ensures forall k :: k in cache ==> k in old(cache)
    {
      var last := |lruKeys| - 1;
      TakeOut(lruKeys, cache, nextId, last);
      ViewIsDistinct();
      RemoveAt(View(), last);
      assert Without(lruKeys, last) == lruKeys[..last];
      ghost var before := View();
      var lastKey := lruKeys[last].key;
      lruKeys := lruKeys[..last];
      cache := cache - {lastKey};
      size := size - 1;
      assert before[..last] + before[last+1..] == before[..last];
    }

    method Get(key: Key) returns (val: Option<Value>)
      requires Valid()
      modifies this
      ensures Valid() && View() == AfterGet(old(View()), key)
      ensures val == Find(old(View()), key)
    {
      FindIsLookup(lruKeys, cache, nextId, key);
      if key in cache {
        val := Some(cache[key].val);
        Touch(key, cache[key].val);
      } else {
        val := None;
      }
    }

    method Del(key: Key)
      requires Valid()
      modifies this
      ensures Valid() && View() == Remove(old(View()), key)
    {
      FindIsLookup(lruKeys, cache, nextId, key);
      FindHas(View(), key);
      if key in cache {
        var i := Locate(key);
        TakeOut(lruKeys, cache, nextId, i);
        lruKeys := Without(lruKeys, i);
        cache := cache - {key};
        size := size - 1;
      } else {
        RemoveAbsent(View(), key);
      }
    }

    /** Any sequence of operations leaves what the abstract run leaves, from any cache that is still empty. */
    method Replay(trace: seq<Op>)
      requires Valid() && View() == []
      modifies this
      ensures Valid() && View() == Run(capacity, trace)
    {
      for n := 0 to |trace|
        invariant Valid() && View() == Run(capacity, trace[..n])
      {
        assert trace[..n+1][..n] == trace[..n];
        match trace[n]
        case OpPut(k, v) => var hit := Put(k, v);
        case OpGet(k) => var val := Get(k);
        case OpDel(k) => Del(k);
      }
      assert trace[..|trace|] == trace;
    }
  }
}
