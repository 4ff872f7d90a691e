/** What the cache of lrucache.cc keeps: exactly when a key that was put is still there. */
module LruRetention {
  import opened Wrappers
  import opened LruCache

  /** The keys a trace speaks of. */
  function Keys(trace: seq<Op>): set<Key> {
    if trace == [] then {} else Keys(trace[..|trace|-1]) + {trace[|trace|-1].key}
  }

  /** The other keys put, or got with a hit, after position p of the trace. */
  function Newer(cap: nat, trace: seq<Op>, k: Key, p: int): set<Key> {
    set x | x in Keys(trace) && x != k && LastTouch(cap, trace, x) > p
  }

  /** Those of them that have not been deleted since they were put. */
  function NewerLive(cap: nat, trace: seq<Op>, k: Key, p: int): set<Key> {
    set x | x in Newer(cap, trace, k, p) && LastPut(trace, x).Some?
  }

  lemma {:induction false} TouchedIsKey(cap: nat, trace: seq<Op>, x: Key)
    requires LastTouch(cap, trace, x) >= 0
    ensures x in Keys(trace)
  {
    if !Touches(Run(cap, trace[..|trace|-1]), trace[|trace|-1], x) { TouchedIsKey(cap, trace[..|trace|-1], x); }
  }

  lemma HasAfter(cap: nat, trace: seq<Op>, x: Key)
    requires cap > 0 && trace != []
    ensures var s, op := Run(cap, trace[..|trace|-1]), trace[|trace|-1];
      && (op.key == x && op.OpPut? ==> Has(Run(cap, trace), x))
      && (op.key == x && op.OpDel? ==> !Has(Run(cap, trace), x))
      && (op.key == x && op.OpGet? ==> (Has(Run(cap, trace), x) <==> Has(s, x)))
      && (op.key != x && (!op.OpPut? || Has(s, op.key)) ==> (Has(Run(cap, trace), x) <==> Has(s, x)))
      && (op.key != x && op.OpPut? && !Has(s, op.key) ==>
            (Has(Run(cap, trace), x) <==> Has(if |s| == cap then s[..|s|-1] else s, x)))
  {
    var s, op := Run(cap, trace[..|trace|-1]), trace[|trace|-1];
    RunWellFormed(cap, trace[..|trace|-1]);
    FindHas(s, op.key);
    RemoveFacts(s, op.key);
    HasAtFront(s, cap, op, x);
  }

  lemma HasAtFront(s: seq<Pair>, cap: nat, op: Op, x: Key)
    ensures op.OpPut? ==> (Has(AfterPut(s, cap, op.key, op.val), x) <==>
      op.key == x || Has(if Find(s, op.key).Some? then Remove(s, op.key) else Evict(s, cap), x))
    ensures op.OpGet? && Find(s, op.key).Some? ==>
      (Has(AfterGet(s, op.key), x) <==> op.key == x || Has(Remove(s, op.key), x))
  {
    if op.OpPut? {
      HasCons(Pair(op.key, op.val), if Find(s, op.key).Some? then Remove(s, op.key) else Evict(s, cap), x);
    }
    if op.OpGet? && Find(s, op.key).Some? { HasCons(Pair(op.key, Find(s, op.key).value), Remove(s, op.key), x); }
  }

  /** A key used after another one outlives it. */
  lemma {:induction false} LaterStays(cap: nat, trace: seq<Op>, k: Key, x: Key)
    requires cap > 0 && Has(Run(cap, trace), k) && LastPut(trace, x).Some?
    requires LastTouch(cap, trace, x) > LastTouch(cap, trace, k)
    ensures Has(Run(cap, trace), x)
  {
    if trace != [] {
      var front, op := trace[..|trace|-1], trace[|trace|-1];
      var s := Run(cap, front);
      HasAfter(cap, trace, x);
      HasAfter(cap, trace, k);
      FindHas(s, x);
      FindHas(s, k);
      LastTouchBound(cap, front, x);
      if !Touches(s, op, x) {
        assert op.key != k;
        LaterStays(cap, front, k, x);
        OrderIsRecency(cap, front);
        RunWellFormed(cap, front);
        if op.OpPut? && !Has(s, op.key) && |s| == cap { BothKept(cap, front, s, k, x); }
      }
    }
  }

  /** If k survives an eviction, so does any x that was used after it. */
  lemma BothKept(cap: nat, trace: seq<Op>, s: seq<Pair>, k: Key, x: Key)
    requires Sorted(cap, trace, s) && Has(s, x) && s != [] && Has(s[..|s|-1], k)
    requires LastTouch(cap, trace, x) > LastTouch(cap, trace, k)
    ensures Has(s[..|s|-1], x)
  {
    var i :| 0 <= i < |s| && s[i].key == x;
    var j :| 0 <= j < |s[..|s|-1]| && s[..|s|-1][j].key == k;
    assert s[j].key == k;
    assert i < |s| - 1;
    assert s[..|s|-1][i].key == x;
  }

  function KeysOf(s: seq<Pair>): set<Key> { set i | 0 <= i < |s| :: s[i].key }

  lemma InPrefix(s: seq<Pair>, n: nat, x: Key)
    requires n <= |s|
    ensures x in KeysOf(s[..n]) ==> Has(s, x)
  {
    if x in KeysOf(s[..n]) {
      var i :| 0 <= i < |s[..n]| && s[..n][i].key == x;
      assert s[i].key == x;
    }
  }

  lemma {:induction false} KeysOfSize(s: seq<Pair>)
    requires Distinct(s)
    ensures |KeysOf(s)| == |s|
  {
    if s != [] {
      var t, last := s[..|s|-1], s[|s|-1].key;
      KeysOfSize(t);
      assert KeysOf(s) == KeysOf(t) + {last} by {
        forall x | x in KeysOf(s) ensures x in KeysOf(t) + {last} {
          var i :| 0 <= i < |s| && s[i].key == x;
          if i < |t| { assert t[i].key == x; }
        }
        forall x | x in KeysOf(t) ensures x in KeysOf(s) {
          var i :| 0 <= i < |t| && t[i].key == x;
          assert s[i].key == x;
        }
        assert s[|s|-1].key in KeysOf(s);
      }
      assert last !in KeysOf(t);
    }
  }

  lemma FrontIsUsedLater(cap: nat, trace: seq<Op>, i: nat, j: nat)
    requires cap > 0 && j < i < |Run(cap, trace)|
    ensures var s := Run(cap, trace); s[j].key in NewerLive(cap, trace, s[i].key, LastTouch(cap, trace, s[i].key))
  {
    var s := Run(cap, trace);
    RunWellFormed(cap, trace);
    OrderIsRecency(cap, trace);
    TouchedIsKey(cap, trace, s[j].key);
    FindAt(s, j);
    HitIsLastPut(cap, trace, s[j].key);
  }

  lemma UsedLaterIsInFront(cap: nat, trace: seq<Op>, i: nat, x: Key) returns (j: nat)
    requires cap > 0 && i < |Run(cap, trace)|
    requires var k := Run(cap, trace)[i].key; x in NewerLive(cap, trace, k, LastTouch(cap, trace, k))
    ensures j < i && Run(cap, trace)[j].key == x
  {
    var s := Run(cap, trace);
    OrderIsRecency(cap, trace);
    assert Has(s, s[i].key);
    LaterStays(cap, trace, s[i].key, x);
    j :| 0 <= j < |s| && s[j].key == x;
  }

  /** In front of a key in the list are exactly the others that were used after it and not deleted. */
  lemma FrontIsNewer(cap: nat, trace: seq<Op>, i: nat)
    requires cap > 0 && i < |Run(cap, trace)|
    ensures var k := Run(cap, trace)[i].key;
      && KeysOf(Run(cap, trace)[..i]) == NewerLive(cap, trace, k, LastTouch(cap, trace, k))
      && |NewerLive(cap, trace, k, LastTouch(cap, trace, k))| == i
  {
    var s := Run(cap, trace);
    var k := s[i].key;
    var front, newer := s[..i], NewerLive(cap, trace, k, LastTouch(cap, trace, k));
    assert Distinct(front) by { RunWellFormed(cap, trace); }
    KeysOfSize(front);
    forall x | x in KeysOf(front) ensures x in newer {
      var j :| 0 <= j < |front| && front[j].key == x;
      FrontIsUsedLater(cap, trace, i, j);
    }
    forall x | x in newer ensures x in KeysOf(front) {
      var j := UsedLaterIsInFront(cap, trace, i, x);
      assert front[j].key == x;
    }
    assert KeysOf(front) == newer;
  }

  /** While the cache has room, a put of a new key only adds to it. */
  lemma RoomKeepsAll(cap: nat, trace: seq<Op>, k: Key, v: Value)
    requires |Run(cap, trace)| < cap && !Has(Run(cap, trace), k)
    ensures Run(cap, trace + [OpPut(k, v)]) == [Pair(k, v)] + Run(cap, trace)
  {
    assert (trace + [OpPut(k, v)])[..|trace|] == trace;
    FindHas(Run(cap, trace), k);
  }

  /** At no time since its last use have as many as cap others been used and left undeleted. */
  ghost predicate NeverCrowded(cap: nat, trace: seq<Op>, k: Key) {
    forall n: nat :: LastTouch(cap, trace, k) < n <= |trace| ==>
      |NewerLive(cap, trace[..n], k, LastTouch(cap, trace, k))| < cap
  }

  lemma CrowdedBefore(cap: nat, trace: seq<Op>, k: Key)
    requires trace != [] && !Touches(Run(cap, trace[..|trace|-1]), trace[|trace|-1], k)
    ensures NeverCrowded(cap, trace, k) <==>
      && NeverCrowded(cap, trace[..|trace|-1], k)
      && |NewerLive(cap, trace, k, LastTouch(cap, trace, k))| < cap
  {
    var front, p := trace[..|trace|-1], LastTouch(cap, trace, k);
    LastTouchBound(cap, front, k);
    assert trace[..|trace|] == trace;
    forall n: nat | p < n <= |front| ensures front[..n] == trace[..n] { }
    if NeverCrowded(cap, front, k) && |NewerLive(cap, trace, k, p)| < cap {
      forall n: nat | p < n <= |trace| ensures |NewerLive(cap, trace[..n], k, p)| < cap {
        if n < |trace| { assert front[..n] == trace[..n]; }
      }
    }
    if NeverCrowded(cap, trace, k) {
      forall n: nat | p < n <= |front| ensures |NewerLive(cap, front[..n], k, p)| < cap { assert front[..n] == trace[..n]; }
    }
  }

  lemma PushedFromEnd(cap: nat, trace: seq<Op>, k: Key)
    requires cap > 0 && trace != [] && trace[|trace|-1].key != k
    requires Has(Run(cap, trace[..|trace|-1]), k) && !Has(Run(cap, trace), k)
    ensures var s, op := Run(cap, trace[..|trace|-1]), trace[|trace|-1];
      |s| == cap && s[cap-1].key == k && op.OpPut? && !Has(s, op.key)
  {
    var s := Run(cap, trace[..|trace|-1]);
    HasAfter(cap, trace, k);
    var i :| 0 <= i < |s| && s[i].key == k;
    forall j | 0 <= j < |s| - 1 ensures s[j].key != k { assert s[..|s|-1][j].key != k; }
  }

  lemma NewerGrows(cap: nat, trace: seq<Op>, k: Key, p: int)
    requires trace != [] && trace[|trace|-1].OpPut? && trace[|trace|-1].key != k && p < |trace| - 1
    ensures NewerLive(cap, trace[..|trace|-1], k, p) + {trace[|trace|-1].key} <= NewerLive(cap, trace, k, p)
  {
    var front, op := trace[..|trace|-1], trace[|trace|-1];
    forall x | x in NewerLive(cap, front, k, p) + {op.key} ensures x in NewerLive(cap, trace, k, p) {
      if x != op.key { assert LastTouch(cap, trace, x) == LastTouch(cap, front, x); }
    }
  }

  /** The one way out of the cache other than del: a put of a further key, with cap - 1 newer ones in front. */
  lemma PushedOut(cap: nat, trace: seq<Op>, k: Key)
    requires cap > 0 && trace != [] && trace[|trace|-1].key != k
    requires Has(Run(cap, trace[..|trace|-1]), k) && !Has(Run(cap, trace), k)
    ensures |NewerLive(cap, trace, k, LastTouch(cap, trace, k))| >= cap
  {
    var front, op := trace[..|trace|-1], trace[|trace|-1];
    var s, p := Run(cap, front), LastTouch(cap, trace, k);
    PushedFromEnd(cap, trace, k);
    FrontIsNewer(cap, front, cap - 1);
    LastTouchBound(cap, front, k);
    NewerGrows(cap, trace, k, p);
    var before := NewerLive(cap, front, k, p);
    InPrefix(s, cap - 1, op.key);
    assert op.key !in before;
    SubsetSize(before + {op.key}, NewerLive(cap, trace, k, p));
  }

  lemma SubsetSize(a: set<Key>, b: set<Key>)
    requires a <= b
    ensures |a| <= |b|
  {
    assert b == a + (b - a);
  }

  lemma UncrowdedAtTouch(cap: nat, trace: seq<Op>, k: Key)
    requires cap > 0 && LastTouch(cap, trace, k) == |trace| - 1 && Has(Run(cap, trace), k)
    ensures NeverCrowded(cap, trace, k)
  {
    NowUncrowded(cap, trace, k);
    assert trace[..|trace|] == trace;
  }

  /** The law of contents. A key is in the cache exactly if it has been put and not deleted since, and at no time since
      its last use were there as many as cap other keys used after it and not deleted. */
  lemma {:induction false} KeptExactly(cap: nat, trace: seq<Op>, k: Key)
    requires cap > 0
    ensures Has(Run(cap, trace), k) <==> LastPut(trace, k).Some? && NeverCrowded(cap, trace, k)
  {
    if trace != [] {
      var front, op := trace[..|trace|-1], trace[|trace|-1];
      KeptExactly(cap, front, k);
      HasAfter(cap, trace, k);
      FindHas(Run(cap, front), k);
      if Has(Run(cap, trace), k) { NowUncrowded(cap, trace, k); }
      if Touches(Run(cap, front), op, k) {
        UncrowdedAtTouch(cap, trace, k);
      } else {
        CrowdedBefore(cap, trace, k);
        if op.key != k && Has(Run(cap, front), k) && !Has(Run(cap, trace), k) { PushedOut(cap, trace, k); }
      }
    }
  }

  lemma NowUncrowded(cap: nat, trace: seq<Op>, k: Key)
    requires cap > 0 && Has(Run(cap, trace), k)
    ensures |NewerLive(cap, trace, k, LastTouch(cap, trace, k))| < cap
    ensures LastPut(trace, k).Some?
  {
    RunWellFormed(cap, trace);
    FindHas(Run(cap, trace), k);
    HitIsLastPut(cap, trace, k);
    var i :| 0 <= i < |Run(cap, trace)| && Run(cap, trace)[i].key == k;
    FrontIsNewer(cap, trace, i);
  }

  lemma {:induction false} NewerOnlyGrows(cap: nat, trace: seq<Op>, n: nat, k: Key, p: int)
    requires n <= |trace| && p < n
    ensures NewerLive(cap, trace[..n], k, p) <= Newer(cap, trace, k, p)
  {
    if n == |trace| {
      assert trace[..n] == trace;
    } else {
      var front := trace[..|trace|-1];
      assert front[..n] == trace[..n];
      NewerOnlyGrows(cap, front, n, k, p);
      forall x | x in Newer(cap, front, k, p) ensures x in Newer(cap, trace, k, p) { LastTouchBound(cap, front, x); }
    }
  }

  /** What a caller may rely on: a key put and not deleted since is found, with the value put, as long as fewer than cap
      other keys have been put, or got with a hit, since its last use. */
  lemma FoundWhileFewOthers(cap: nat, trace: seq<Op>, k: Key)
    requires cap > 0 && LastPut(trace, k).Some?
    requires |Newer(cap, trace, k, LastTouch(cap, trace, k))| < cap
    ensures Find(Run(cap, trace), k) == LastPut(trace, k)
  {
    var p := LastTouch(cap, trace, k);
    forall n: nat | p < n <= |trace| ensures |NewerLive(cap, trace[..n], k, p)| < cap {
      NewerOnlyGrows(cap, trace, n, k, p);
      SubsetSize(NewerLive(cap, trace[..n], k, p), Newer(cap, trace, k, p));
    }
    KeptExactly(cap, trace, k);
    FindHas(Run(cap, trace), k);
    HitIsLastPut(cap, trace, k);
  }
}
