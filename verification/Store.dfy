/** DBImpl of DBImpl.cc: one fixed-size record per key in a flat file, behind a write-through LRU cache.
    Operations do not overlap here. */
module Store {
  import opened Wrappers
  import opened LruCache

  const VAL_LEN := 128
  const ENTRY_SIZE := 1 + VAL_LEN
  const HEADER_SIZE := 4
  const UINT32_MAX := 0xFFFF_FFFF
  const UINT32_RANGE := 0x1_0000_0000

  type File = seq<Byte>

  function FileSize(): nat { HEADER_SIZE + UINT32_MAX * ENTRY_SIZE }

  function Offset(key: Key): nat { HEADER_SIZE + key * ENTRY_SIZE }

  /** lseek and write. */
  function WriteAt(f: File, offset: nat, buffer: seq<Byte>): (r: File)
    requires offset + |buffer| <= |f|
    ensures |r| == |f|
    ensures forall i :: 0 <= i < |f| ==> r[i] == if offset <= i < offset + |buffer| then buffer[i - offset] else f[i]
  {
    f[..offset] + buffer + f[offset + |buffer|..]
  }

  // ----- The header

  function Le32(n: nat): (b: seq<Byte>)
    requires n < UINT32_RANGE
    ensures |b| == HEADER_SIZE
  {
    [n % 256, n / 256 % 256, n / 65536 % 256, n / 16777216]
  }

  function FromLe32(b: seq<Byte>): (n: nat)
    requires |b| == HEADER_SIZE
    ensures n < UINT32_RANGE
  {
    b[0] as int + 256 * b[1] as int + 65536 * b[2] as int + 16777216 * b[3] as int
  }

  lemma HeaderBytes(b: seq<Byte>)
    requires |b| == HEADER_SIZE
    ensures Le32(FromLe32(b)) == b
  {
    var n := FromLe32(b);
    var n1 := b[1] as int + 256 * b[2] as int + 65536 * b[3] as int;
    var n2 := b[2] as int + 256 * b[3] as int;
    assert n == 256 * n1 + b[0] as int && n1 == 256 * n2 + b[1] as int;
    assert n / 256 == n1 && n1 / 256 == n2 && n / 65536 == n / 256 / 256 && n / 16777216 == n / 65536 / 256;
  }

  lemma HeaderRoundTrip(n: nat)
    requires n < UINT32_RANGE
    ensures FromLe32(Le32(n)) == n
  {
    assert n / 65536 == n / 256 / 256 && n / 16777216 == n / 65536 / 256;
  }

  // ----- Records

  predicate Fits(f: File) { |f| == FileSize() }

  lemma RecordFits(k: Key)
    requires k < UINT32_MAX
    ensures HEADER_SIZE <= Offset(k) && Offset(k) + ENTRY_SIZE <= FileSize()
  {
  }

  lemma RecordsApart(j: Key, k: Key)
    requires j < k
    ensures Offset(j) + ENTRY_SIZE <= Offset(k)
  {
  }

  predicate InUse(f: File, k: Key)
    requires Fits(f) && k < UINT32_MAX
  {
    RecordFits(k);
    f[Offset(k)] == 1
  }

  function Stored(f: File, k: Key): (v: Value)
    requires Fits(f) && k < UINT32_MAX
    ensures |v| == VAL_LEN
  {
    RecordFits(k);
    f[Offset(k) + 1..Offset(k) + ENTRY_SIZE]
  }

  /** What the file means. */
  ghost function Content(f: File): map<Key, Value>
    requires Fits(f)
  {
    map k: Key | 0 <= k < UINT32_MAX && InUse(f, k) :: Stored(f, k)
  }

  /** A flag is 0 or 1; put tests it for 0, get for 1. */
  ghost predicate FlagsOk(f: File)
    requires Fits(f)
  {
    forall k: Key {:trigger FlagOk(f, k)} :: k < UINT32_MAX ==> FlagOk(f, k)
  }

  predicate FlagOk(f: File, k: Key)
    requires Fits(f) && k < UINT32_MAX
  {
    RecordFits(k);
    f[Offset(k)] == 0 || f[Offset(k)] == 1
  }

  lemma OtherRecord(f: File, k: Key, buffer: seq<Byte>, j: Key)
    requires Fits(f) && k < UINT32_MAX && |buffer| <= ENTRY_SIZE && j < UINT32_MAX && j != k
    requires Offset(k) + |buffer| <= |f|
    ensures var f' := WriteAt(f, Offset(k), buffer);
      (InUse(f', j) <==> InUse(f, j)) && Stored(f', j) == Stored(f, j) && (FlagOk(f', j) <==> FlagOk(f, j))
  {
    RecordFits(j);
    RecordFits(k);
    if j < k { RecordsApart(j, k); } else { RecordsApart(k, j); }
  }

  lemma PutRecord(f: File, k: Key, v: Value)
    requires Fits(f) && k < UINT32_MAX && |v| == VAL_LEN && Offset(k) + ENTRY_SIZE <= |f|
    ensures Content(WriteAt(f, Offset(k), [1] + v)) == Content(f)[k := v]
    ensures FlagsOk(f) ==> FlagsOk(WriteAt(f, Offset(k), [1] + v))
    ensures WriteAt(f, Offset(k), [1] + v)[..HEADER_SIZE] == f[..HEADER_SIZE]
  {
    var f' := WriteAt(f, Offset(k), [1] + v);
    RecordFits(k);
    forall j: Key | j < UINT32_MAX && j != k
      ensures (InUse(f', j) <==> InUse(f, j)) && Stored(f', j) == Stored(f, j) && (FlagOk(f', j) <==> FlagOk(f, j))
    { OtherRecord(f, k, [1] + v, j); }
    assert Stored(f', k) == v;
  }

  lemma DelRecord(f: File, k: Key)
    requires Fits(f) && k < UINT32_MAX && Offset(k) + 1 <= |f|
    ensures Content(WriteAt(f, Offset(k), [0])) == Content(f) - {k}
    ensures FlagsOk(f) ==> FlagsOk(WriteAt(f, Offset(k), [0]))
    ensures WriteAt(f, Offset(k), [0])[..HEADER_SIZE] == f[..HEADER_SIZE]
  {
    var f' := WriteAt(f, Offset(k), [0]);
    RecordFits(k);
    forall j: Key | j < UINT32_MAX && j != k
      ensures (InUse(f', j) <==> InUse(f, j)) && Stored(f', j) == Stored(f, j) && (FlagOk(f', j) <==> FlagOk(f, j))
    { OtherRecord(f, k, [0], j); }
  }

  lemma HeaderRecord(f: File, n: nat)
    requires Fits(f) && n < UINT32_RANGE
    ensures HEADER_SIZE <= |f|
    ensures var f' := WriteAt(f, 0, Le32(n));
      Content(f') == Content(f) && (FlagsOk(f) ==> FlagsOk(f')) && f'[..HEADER_SIZE] == Le32(n)
  {
    var f' := WriteAt(f, 0, Le32(n));
    forall j: Key | j < UINT32_MAX
      ensures (InUse(f', j) <==> InUse(f, j)) && Stored(f', j) == Stored(f, j) && (FlagOk(f', j) <==> FlagOk(f, j))
    { RecordFits(j); }
  }

  /** create_if_not_exists: the loop that fills a new file with zeros, a buffer at a time. */
  method CreateFile(totalSize: nat) returns (file: File)
    requires totalSize >= 2000
    ensures |file| == totalSize && forall i :: 0 <= i < |file| ==> file[i] == 0
  {
    var left := totalSize;
    var bufSize := totalSize / 2000;
    var buffer: seq<Byte> := seq(bufSize, _ => 0);
    file := [];
    while left > 0
      invariant 0 <= left && |file| + left == totalSize
      invariant forall i :: 0 <= i < |file| ==> file[i] == 0
    {
      var writeSize := if left < bufSize then left else bufSize;
      file := file + buffer[..writeSize];
      left := left - writeSize;
    }
  }

  lemma EmptyFile(f: File)
    requires Fits(f) && forall i :: 0 <= i < |f| ==> f[i] == 0
    ensures Content(f) == map[] && FlagsOk(f) && f[..HEADER_SIZE] == Le32(0)
  {
    forall k: Key | k < UINT32_MAX ensures !InUse(f, k) && FlagOk(f, k) { RecordFits(k); }
    assert FlagsOk(f);
    assert Content(f) == map[];
    assert f[..HEADER_SIZE] == Le32(0);
  }

  // ----- What get, put and del mean on a plain map

  predicate Proper(op: Op) { op.key < UINT32_MAX && (op.OpPut? ==> |op.val| == VAL_LEN) }

  function MapApply(m: map<Key, Value>, op: Op): map<Key, Value> {
    match op
    case OpPut(k, v) => m[k := v]
    case OpGet(_) => m
    case OpDel(k) => m - {k}
  }

  function MapAnswer(m: map<Key, Value>, op: Op): Option<Value> {
    if op.OpGet? && op.key in m then Some(m[op.key]) else None
  }

  function MapRun(m: map<Key, Value>, ops: seq<Op>): map<Key, Value> {
    if ops == [] then m else MapApply(MapRun(m, ops[..|ops|-1]), ops[|ops|-1])
  }

  function MapAnswers(m: map<Key, Value>, ops: seq<Op>): (a: seq<Option<Value>>)
    ensures |a| == |ops|
  {
    if ops == [] then [] else
    MapAnswers(m, ops[..|ops|-1]) + [MapAnswer(MapRun(m, ops[..|ops|-1]), ops[|ops|-1])]
  }

  lemma {:induction false} AnswerAt(m: map<Key, Value>, ops: seq<Op>, j: nat)
    requires j < |ops|
    ensures MapAnswers(m, ops)[j] == MapAnswer(MapRun(m, ops[..j]), ops[j])
  {
    if j < |ops| - 1 {
      AnswerAt(m, ops[..|ops|-1], j);
      assert ops[..|ops|-1][..j] == ops[..j];
    }
  }

  /** No put or del of the key in ops[i..]. */
  predicate Untouched(ops: seq<Op>, i: nat, key: Key) {
    forall x :: i <= x < |ops| && ops[x].key == key ==> ops[x].OpGet?
  }

  lemma {:induction false} UntouchedStays(m: map<Key, Value>, ops: seq<Op>, i: nat, key: Key)
    requires i <= |ops| && Untouched(ops, i, key)
    ensures key in MapRun(m, ops) <==> key in MapRun(m, ops[..i])
    ensures key in MapRun(m, ops) ==> MapRun(m, ops)[key] == MapRun(m, ops[..i])[key]
  {
    if i == |ops| {
      assert ops[..i] == ops;
    } else {
      var front := ops[..|ops|-1];
      assert front[..i] == ops[..i];
      forall x | i <= x < |front| && front[x].key == key ensures front[x].OpGet? { assert ops[x] == front[x]; }
      UntouchedStays(m, front, i, key);
      assert ops[|ops|-1].key == key ==> ops[|ops|-1].OpGet?;
    }
  }

  /** A get answers with the value of the last put of its key, or not at all if a del came after that. */
  lemma GetSeesLastWrite(m: map<Key, Value>, ops: seq<Op>, i: nat, j: nat)
    requires i < j < |ops| && ops[j].OpGet? && ops[i].key == ops[j].key && !ops[i].OpGet?
    requires Untouched(ops[..j], i + 1, ops[j].key)
    ensures MapAnswers(m, ops)[j] == if ops[i].OpPut? then Some(ops[i].val) else None
  {
    AnswerAt(m, ops, j);
    UntouchedStays(m, ops[..j], i + 1, ops[j].key);
    assert ops[..j][..i+1] == ops[..i+1] && ops[..i+1][..i] == ops[..i];
  }

  /** Without a put or del of its key before it, a get answers with what was stored at the start. */
  lemma GetSeesStart(m: map<Key, Value>, ops: seq<Op>, j: nat)
    requires j < |ops| && ops[j].OpGet? && Untouched(ops[..j], 0, ops[j].key)
    ensures MapAnswers(m, ops)[j] == if ops[j].key in m then Some(m[ops[j].key]) else None
  {
    AnswerAt(m, ops, j);
    UntouchedStays(m, ops[..j], 0, ops[j].key);
    assert ops[..j][..0] == [];
  }

  // ----- The cache in front of it

  predicate PairAgrees(p: Pair, m: map<Key, Value>) { p.key in m && m[p.key] == p.val }

  /** Every cached entry is the live record of its key. */
  ghost predicate Agrees(s: seq<Pair>, m: map<Key, Value>) {
    forall i {:trigger PairAgrees(s[i], m)} :: 0 <= i < |s| ==> PairAgrees(s[i], m)
  }

  lemma AgreesCons(p: Pair, s: seq<Pair>, m: map<Key, Value>)
    requires PairAgrees(p, m) && Agrees(s, m)
    ensures Agrees([p] + s, m)
  {
    forall i | 0 <= i < |[p] + s| ensures PairAgrees(([p] + s)[i], m) { if i > 0 { assert PairAgrees(s[i-1], m); } }
  }

  lemma AgreesTail(s: seq<Pair>, m: map<Key, Value>)
    requires s != [] && Agrees(s, m)
    ensures Agrees(s[1..], m) && PairAgrees(s[0], m)
  {
    forall i | 0 <= i < |s[1..]| ensures PairAgrees(s[1..][i], m) { assert PairAgrees(s[i+1], m); }
  }

  lemma {:induction false} AgreesRemove(s: seq<Pair>, m: map<Key, Value>, k: Key)
    requires Agrees(s, m)
    ensures Agrees(Remove(s, k), m)
  {
    if s != [] {
      AgreesTail(s, m);
      AgreesRemove(s[1..], m, k);
      if s[0].key != k { AgreesCons(s[0], Remove(s[1..], k), m); }
    }
  }

  lemma AgreesEvict(s: seq<Pair>, m: map<Key, Value>, cap: nat)
    requires Agrees(s, m)
    ensures Agrees(Evict(s, cap), m)
  {
    forall i | 0 <= i < |Evict(s, cap)| ensures PairAgrees(Evict(s, cap)[i], m) { assert PairAgrees(s[i], m); }
  }

  /** What happens to other keys does not matter. */
  lemma AgreesElsewhere(s: seq<Pair>, m: map<Key, Value>, m': map<Key, Value>, k: Key)
    requires Agrees(s, m) && !Has(s, k)
    requires forall x :: x != k && x in m ==> x in m' && m'[x] == m[x]
    ensures Agrees(s, m')
  {
    forall i | 0 <= i < |s| ensures PairAgrees(s[i], m') { assert PairAgrees(s[i], m) && s[i].key != k; }
  }

  lemma {:induction false} AgreesFind(s: seq<Pair>, m: map<Key, Value>, k: Key)
    requires Agrees(s, m) && Find(s, k).Some?
    ensures k in m && m[k] == Find(s, k).value
  {
    AgreesTail(s, m);
    if s[0].key != k { AgreesFind(s[1..], m, k); }
  }

  lemma AgreesPut(s: seq<Pair>, cap: nat, m: map<Key, Value>, k: Key, v: Value)
    requires Distinct(s) && Agrees(s, m)
    ensures Agrees(AfterPut(s, cap, k, v), m[k := v])
  {
    FindHas(s, k);
    RemoveFacts(s, k);
    AgreesRemove(s, m, k);
    AgreesEvict(s, m, cap);
    var rest := if Find(s, k).Some? then Remove(s, k) else Evict(s, cap);
    AgreesElsewhere(rest, m, m[k := v], k);
    AgreesCons(Pair(k, v), rest, m[k := v]);
  }

  /** A value read from the file goes into the cache. */
  lemma AgreesMiss(s: seq<Pair>, cap: nat, m: map<Key, Value>, k: Key)
    requires Distinct(s) && Agrees(s, m) && k in m
    ensures Agrees(AfterPut(s, cap, k, m[k]), m)
  {
    AgreesPut(s, cap, m, k, m[k]);
    assert m[k := m[k]] == m;
  }

  lemma AgreesGet(s: seq<Pair>, m: map<Key, Value>, k: Key)
    requires Agrees(s, m)
    ensures Agrees(AfterGet(s, k), m)
    ensures Find(s, k).Some? ==> k in m && m[k] == Find(s, k).value
  {
    if Find(s, k).Some? {
      AgreesFind(s, m, k);
      AgreesRemove(s, m, k);
      AgreesCons(Pair(k, m[k]), Remove(s, k), m);
    }
  }

  lemma AgreesDel(s: seq<Pair>, m: map<Key, Value>, k: Key)
    requires Distinct(s) && Agrees(s, m)
    ensures Agrees(Remove(s, k), m - {k})
  {
    RemoveFacts(s, k);
    AgreesRemove(s, m, k);
    AgreesElsewhere(Remove(s, k), m, m - {k}, k);
  }

  lemma SizeOfPut(m: map<Key, Value>, k: Key, v: Value)
    ensures |m[k := v]| == |m| + if k in m then 0 else 1
  {
    assert m[k := v].Keys == m.Keys + {k};
  }

  lemma SizeOfDel(m: map<Key, Value>, k: Key)
    ensures |m - {k}| == |m| - if k in m then 1 else 0
  {
    assert (m - {k}).Keys == m.Keys - {k};
    if k !in m { assert m - {k} == m; }
  }

  /** A file that a store can be opened on. */
  ghost predicate GoodFile(f: File) { Fits(f) && FlagsOk(f) }

  lemma ContentAt(f: File, k: Key)
    requires Fits(f) && k < UINT32_MAX
    ensures k in Content(f) <==> InUse(f, k)
    ensures k in Content(f) ==> Content(f)[k] == Stored(f, k)
  {
  }

  /** What db_size counts, in 32 bits: the live keys, plus the dels that made a key not live. */
  function Counted(m: map<Key, Value>, liveDels: nat): nat { (|m| + liveDels) % UINT32_RANGE }

  /** The file holds the map m, and the size that goes with it. */
  ghost predicate FileOk(f: File, m: map<Key, Value>, dbSize: nat) {
    && GoodFile(f) && Content(f) == m && dbSize < UINT32_RANGE && f[..HEADER_SIZE] == Le32(dbSize)
  }

  function SizeAfterPut(f: File, dbSize: nat, k: Key): (n: nat)
    requires Fits(f) && k < UINT32_MAX
    ensures n == dbSize || n < UINT32_RANGE
  {
    RecordFits(k);
    if f[Offset(k)] == 0 then (dbSize + 1) % UINT32_RANGE else dbSize
  }

  function FileAfterPut(f: File, dbSize: nat, k: Key, v: Value): File
    requires Fits(f) && k < UINT32_MAX && |v| == VAL_LEN && dbSize < UINT32_RANGE
  {
    RecordFits(k);
    WriteAt(WriteAt(f, 0, Le32(dbSize)), Offset(k), [1] + v)
  }

  lemma WriteIsPut(f: File, m: map<Key, Value>, before: nat, dbSize: nat, k: Key, v: Value)
    requires FileOk(f, m, before) && k < UINT32_MAX && |v| == VAL_LEN && dbSize < UINT32_RANGE
    ensures FileOk(FileAfterPut(f, dbSize, k, v), m[k := v], dbSize)
  {
    RecordFits(k);
    HeaderRecord(f, dbSize);
    PutRecord(WriteAt(f, 0, Le32(dbSize)), k, v);
  }

  lemma OpeningCount(n: nat, live: nat)
    requires n < UINT32_RANGE
    ensures n == (live + (n - live) % UINT32_RANGE) % UINT32_RANGE
  {
    var x := n - live;
    assert x == UINT32_RANGE * (x / UINT32_RANGE) + x % UINT32_RANGE;
  }

  lemma CountUp(x: nat)
    ensures (x % UINT32_RANGE + 1) % UINT32_RANGE == (x + 1) % UINT32_RANGE
  {
  }

  lemma FlagIsMembership(f: File, k: Key)
    requires GoodFile(f) && k < UINT32_MAX
    ensures Offset(k) < |f| && (f[Offset(k)] == 0 <==> k !in Content(f))
  {
    RecordFits(k);
    ContentAt(f, k);
    assert FlagOk(f, k);
  }

  lemma PutCounts(m: map<Key, Value>, dbSize: nat, liveDels: nat, k: Key, v: Value)
    requires dbSize == Counted(m, liveDels)
    ensures (dbSize + 1 - Hits(m, k)) % UINT32_RANGE == Counted(m[k := v], liveDels)
  {
    SizeOfPut(m, k, v);
    CountUp(|m| + liveDels);
  }

  lemma SizeIsCounted(f: File, m: map<Key, Value>, dbSize: nat, k: Key)
    requires FileOk(f, m, dbSize) && k < UINT32_MAX
    ensures SizeAfterPut(f, dbSize, k) == (dbSize + 1 - Hits(m, k)) % UINT32_RANGE
  {
    FlagIsMembership(f, k);
  }

  lemma PutFile(f: File, m: map<Key, Value>, dbSize: nat, liveDels: nat, k: Key, v: Value)
    requires FileOk(f, m, dbSize) && dbSize == Counted(m, liveDels) && k < UINT32_MAX && |v| == VAL_LEN
    ensures var n := SizeAfterPut(f, dbSize, k);
      n < UINT32_RANGE && FileOk(FileAfterPut(f, n, k, v), m[k := v], n) && n == Counted(m[k := v], liveDels)
  {
    SizeIsCounted(f, m, dbSize, k);
    PutCounts(m, dbSize, liveDels, k, v);
    WriteIsPut(f, m, dbSize, SizeAfterPut(f, dbSize, k), k, v);
  }

  function FileAfterDel(f: File, k: Key): File
    requires Fits(f) && k < UINT32_MAX
  {
    RecordFits(k);
    WriteAt(f, Offset(k), [0])
  }

  lemma ClearIsDel(f: File, m: map<Key, Value>, dbSize: nat, k: Key)
    requires FileOk(f, m, dbSize) && k < UINT32_MAX
    ensures FileOk(FileAfterDel(f, k), m - {k}, dbSize)
  {
    RecordFits(k);
    DelRecord(f, k);
  }

  function Hits(m: map<Key, Value>, k: Key): nat { if k in m then 1 else 0 }

  lemma SameCount(m: map<Key, Value>, liveDels: nat, m': map<Key, Value>, liveDels': nat)
    requires |m| + liveDels == |m'| + liveDels'
    ensures Counted(m, liveDels) == Counted(m', liveDels')
  {
  }

  lemma DelCounts(m: map<Key, Value>, liveDels: nat, k: Key)
    ensures Counted(m - {k}, liveDels + Hits(m, k)) == Counted(m, liveDels)
  {
    SizeOfDel(m, k);
    SameCount(m - {k}, liveDels + Hits(m, k), m, liveDels);
  }

  lemma OpenOk(f: File)
    requires GoodFile(f)
    ensures var n, m := FromLe32(f[..HEADER_SIZE]), Content(f);
      FileOk(f, m, n) && n == Counted(m, (n - |m|) % UINT32_RANGE)
  {
    HeaderBytes(f[..HEADER_SIZE]);
    OpeningCount(FromLe32(f[..HEADER_SIZE]), |Content(f)|);
  }

  class DBImpl {
    const cache: Cache
    var file: File
    var dbSize: nat
    ghost var content: map<Key, Value>
    ghost var liveDels: nat          // dels that hit a live key

    ghost predicate Valid()
      reads this, cache
    {
      && cache.Valid() && FileOk(file, content, dbSize)
      && Agrees(cache.View(), content) && dbSize == Counted(content, liveDels)
    }

    /** Opens a file, with an empty cache of any size. */
    constructor (f: File, cacheSize: nat)
      requires GoodFile(f) && 0 < cacheSize < UINT32_RANGE
      ensures Valid() && fresh(cache) && file == f && content == Content(f) && dbSize == FromLe32(f[..HEADER_SIZE])
      ensures liveDels == (dbSize - |Content(f)|) % UINT32_RANGE
    {
      OpenOk(f);
      cache := new Cache(cacheSize);
      file := f;
      content := Content(f);
      dbSize := FromLe32(f[..HEADER_SIZE]);
      liveDels := (FromLe32(f[..HEADER_SIZE]) - |Content(f)|) % UINT32_RANGE;
    }

    /** The entry at the front of the cache. */
    ghost predicate Newest(key: Key, val: Value)
      requires cache.Valid()
      reads cache
    {
      cache.View() != [] && cache.View()[0] == Pair(key, val)
    }

    /** The record of a key, as the file has it. */
    method ReadRecord(key: Key) returns (val: Option<Value>)
      requires Fits(file) && key < UINT32_MAX
      ensures val == if key in Content(file) then Some(Content(file)[key]) else None
    {
      RecordFits(key);
      ContentAt(file, key);
      var buffer := file[Offset(key)..Offset(key) + ENTRY_SIZE];
      val := if buffer[0] == 1 then Some(buffer[1..]) else None;
      assert buffer[1..] == Stored(file, key);
    }

    method Get(key: Key) returns (val: Option<Value>)
      requires Valid() && key < UINT32_MAX
      modifies cache
      ensures Valid() && val == if key in content then Some(content[key]) else None
      ensures val.Some? ==> Newest(key, val.value)
    {
      cache.ViewIsDistinct();
      AgreesGet(cache.View(), content, key);
      val := cache.Get(key);
      if val.None? {
        val := ReadRecord(key);
        if val.Some? {
          cache.ViewIsDistinct();
          AgreesMiss(cache.View(), cache.capacity, content, key);
          var hit := cache.Put(key, val.value);
        }
      }
    }

    /** The file part of put: the size is counted up if the record was not in use. */
    method WriteRecord(key: Key, val: Value)
      requires Fits(file) && dbSize < UINT32_RANGE && key < UINT32_MAX && |val| == VAL_LEN
      modifies this`file, this`dbSize
      ensures dbSize == SizeAfterPut(old(file), old(dbSize), key)
      ensures dbSize < UINT32_RANGE && file == FileAfterPut(old(file), dbSize, key, val)
    {
      RecordFits(key);
      var inUse := file[Offset(key)];
      if inUse == 0 {
        dbSize := (dbSize + 1) % UINT32_RANGE;
      }
      file := WriteAt(file, 0, Le32(dbSize));
      file := WriteAt(file, Offset(key), [1] + val);
    }

    method Put(key: Key, val: Value)
      requires Valid() && key < UINT32_MAX && |val| == VAL_LEN
      modifies this, cache
      ensures Valid() && content == old(content)[key := val] && liveDels == old(liveDels)
      ensures Newest(key, val)
    {
      cache.ViewIsDistinct();
      AgreesPut(cache.View(), cache.capacity, content, key, val);
      PutFile(file, content, dbSize, liveDels, key, val);
      var hit := cache.Put(key, val);
      WriteRecord(key, val);
      content := content[key := val];
    }

    /** The file part of del: only the flag is cleared, the size stays. */
    method ClearRecord(key: Key)
      requires FileOk(file, content, dbSize) && key < UINT32_MAX
      modifies this`file
      ensures FileOk(file, content - {key}, dbSize)
    {
      ClearIsDel(file, content, dbSize, key);
      RecordFits(key);
      file := WriteAt(file, Offset(key), [0]);
    }

    method Del(key: Key)
      requires Valid() && key < UINT32_MAX
      modifies this, cache
      ensures Valid() && content == old(content) - {key} && dbSize == old(dbSize)
      ensures liveDels == old(liveDels) + Hits(old(content), key)
    {
      cache.ViewIsDistinct();
      AgreesDel(cache.View(), content, key);
      cache.Del(key);
      ClearRecord(key);
      DelCounts(content, liveDels, key);
      liveDels := liveDels + Hits(content, key);
      content := content - {key};
    }

    method ServeOne(op: Op) returns (answer: Option<Value>)
      requires Valid() && Proper(op)
      modifies this, cache
      ensures Valid() && content == MapApply(old(content), op) && answer == MapAnswer(old(content), op)
    {
      answer := None;
      match op
      case OpPut(k, v) => Put(k, v);
      case OpGet(k) => answer := Get(k);
      case OpDel(k) => Del(k);
    }

    /** Any sequence of operations is answered as by a plain map, whatever the size of the cache. */
    method Serve(ops: seq<Op>) returns (answers: seq<Option<Value>>)
      requires Valid() && forall i :: 0 <= i < |ops| ==> Proper(ops[i])
      modifies this, cache
      ensures Valid() && content == MapRun(old(content), ops)
      ensures answers == MapAnswers(old(content), ops)
    {
      ghost var m := content;
      answers := [];
      for n := 0 to |ops|
        invariant Valid() && content == MapRun(m, ops[..n]) && answers == MapAnswers(m, ops[..n])
      {
        assert ops[..n+1][..n] == ops[..n] && Proper(ops[n]);
        var answer := ServeOne(ops[n]);
        answers := answers + [answer];
      }
      assert ops[..|ops|] == ops;
    }

    /** Closing the store and opening it again, with a cache of another size: nothing is lost. */
    method Reopen(cacheSize: nat) returns (db: DBImpl)
      requires Valid() && 0 < cacheSize < UINT32_RANGE
      ensures fresh(db) && db.Valid() && db.content == content && db.dbSize == dbSize
    {
      HeaderRoundTrip(dbSize);
      db := new DBImpl(file, cacheSize);
    }
  }

  /** A store on a new file is empty, and its size starts at 0. */
  method Create(cacheSize: nat) returns (db: DBImpl)
    requires 0 < cacheSize < UINT32_RANGE
    ensures fresh(db) && fresh(db.cache) && db.Valid() && db.content == map[] && db.dbSize == 0 && db.liveDels == 0
  {
    var file := CreateFile(FileSize());
    EmptyFile(file);
    HeaderRoundTrip(0);
    db := new DBImpl(file, cacheSize);
  }
}
