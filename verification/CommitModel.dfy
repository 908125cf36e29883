// The optimistic commit protocol as a machine of atomic steps over any number
// of transactions and snapshot readers.  A step is one consistent read of a
// tuple or a leaf, one search of the tree, one lock or unlock, or one install:
// the store of a record and, where its tuple is replaced, the store of the new
// one in the tree, all under the tuple's lock.  Taking an insert marker out of
// the tree and dropping its lock is one step.  The cleaner takes a deleted
// tuple's lock, takes the key out of the tree, and clears the tuple's latest
// flag, in three steps.
//
// A tuple whose chain is empty is an uncommitted insert marker (its version
// field is MAX_TID).  Otherwise chain[0] is its current record and the rest
// are the older versions reachable through `next`.

module CommitModel {
  import opened Basics
  import opened Tids

  // A key belongs to one leaf of the tree; `leaf` carries the version counter.
  datatype Key = Key(leaf: int, name: int)

  type Value = int

  // `src` is the position of the writer in the serialization order (history).
  datatype Version = Version(tid: int, val: Option<Value>, src: int)

  // The cleaner locks a tuple without write intent, so that readers and
  // validation pass it by.
  datatype Cleaner =
    | Away
    | Locked       // the cleaner holds the lock
    | Unlinked     // it has also taken the key out of the tree

  // `owner` holds the lock with write intent.  `latest` is the tuple in the
  // tree; the latest flag of the header stays set while the cleaner is about
  // to clear it.
  datatype Tuple = Tuple(key: Key, chain: seq<Version>, latest: bool, owner: Option<int>, cleaner: Cleaner)

  predicate LatestFlag(x: Tuple) { x.latest || x.cleaner.Unlinked? }

  datatype ReadRec = ReadRec(x: int, key: Key, tid: int, val: Option<Value>)

  datatype Phase =
    | Active            // running reads and puts
    | Locking           // commit: taking write locks in address order
    | Waiting(x: int)   // spinning on the lock of x
    | Validating        // all locks held, TID taken
    | Installing        // validation passed: install, unlock, committed
    | Aborting          // releasing what is locked, aborted

  datatype Txn = Txn(
    core: int, tick: int, phase: Phase,
    seen: set<ReadRec>,              // read set
    nodes: map<int, int>,            // absent set: leaf -> version
    missing: set<Key>,               // keys a search did not find
    writes: map<int, Option<Value>>, // tuple -> last value put, None deletes
    byKey: map<Key, int>,            // key -> tuple last put under that key
    inserts: set<int>,
    locked: set<int>,                // entries whose locked flag is set
    pending: set<int>,               // still to be installed
    pos: int,                        // place in the order, -1 before the lock point
    okSeen: map<ReadRec, int>, okNodes: set<int>, okMissing: map<Key, int>,
    stale: map<ReadRec, int>)        // reads validated on a superseded tuple, with its writer

  // A transaction that reached its lock point.
  datatype Fate = Open | Commit | Abort
  datatype Entry = Entry(t: int, core: int, tid: int, epoch: int, writes: map<Key, Option<Value>>, fate: Fate)

  // A read-only transaction at read-only tick `bound` sees exactly the
  // versions whose read-only tick is below it.
  datatype SnapRec = SnapRec(val: Option<Value>, src: int)

  // Where a snapshot's search of a key stands: at the tuple it found in the
  // tree, which may be replaced or unlinked since, or behind it on a chain.
  // Tuples behind the first one do not change, so the rest of that chain is
  // what it was when the link to it was read.
  datatype Walk =
    | Idle
    | AtTuple(k: Key, x: int)
    | AtRest(k: Key, rest: seq<Version>, base: int)

  datatype Snap = Snap(tick: int, open: bool, bound: int, got: map<Key, SnapRec>, walk: Walk)

  type Tuples = map<int, Tuple>

  // The version of k by the writer at position src.
  datatype Gone = Gone(k: Key, src: int)

  datatype State = State(
    tuples: Tuples, tree: map<Key, int>, vers: map<int, int>,
    txns: map<int, Txn>, snaps: map<int, Snap>,
    coreTid: map<int, int>,
    cur: int, last: int,             // ticker: current tick, last completed tick
    order: seq<Entry>,               // history: transactions in order of their lock point
    lastW: map<Key, int>,            // history: position of the last installed writer
    base: map<int, int>,             // history: last writer of the key when the tuple's chain began
    gone: set<Gone>)                 // history: versions that the cleaner has dropped

  predicate Marker(x: Tuple) { x.chain == [] }

  function VersionOf(vers: map<int, int>, n: int): int { if n in vers then vers[n] else 0 }

  function CoreTid(s: State, c: int): int { if c in s.coreTid then s.coreTid[c] else 0 }

  function LastWriter(lastW: map<Key, int>, k: Key): int { if k in lastW then lastW[k] else -1 }

  function BaseOf(base: map<int, int>, x: int): int { if x in base then base[x] else -1 }

  // Committed or aborted, with every lock given back.
  predicate Finished(t: Txn) { (t.phase.Installing? || t.phase.Aborting?) && t.pending == {} && t.locked == {} }

  // The first version visible at read-only tick r.
  function Find(vs: seq<Version>, r: int): Option<Version> {
    if vs == [] then None
    else if RoTick(vs[0].tid) < r then Some(vs[0])
    else Find(vs[1..], r)
  }

  datatype Step =
    | Tick | Complete
    | Begin(t: int, core: int, tick: int)
    | Read(t: int, x: int)
    | ReadMissing(t: int, k: Key)
    | Put(t: int, x: int, v: Option<Value>)
    | Insert(t: int, k: Key, x: int, v: Option<Value>)
    | StartAbort(t: int)
    | StartCommit(t: int)
    | Check(t: int, x: int)
    | Acquire(t: int)
    | TakeTid(t: int, tid: int)
    | CheckRead(t: int, r: ReadRec)
    | CheckNode(t: int, n: int)
    | Decide(t: int)
    | Install(t: int, x: int, fits: bool, y: int)
    | Unlock(t: int, x: int)
    | Release(t: int, x: int, bump: nat)
    | CleanLock(x: int) | Unlink(x: int, bump: nat) | ClearLatest(x: int) | CleanUnlock(x: int)
    | Cut(x: int, i: nat)
    | SnapOpen(n: int, tick: int) | SnapFetch(n: int, k: Key) | SnapHop(n: int) | SnapClose(n: int)

  predicate In(s: State, t: int, p: Phase) { t in s.txns && s.txns[t].phase == p }

  // The lowest address among the tuples still to be locked.
  predicate NextToLock(t: Txn, x: int) {
    x in t.writes && x !in t.locked && forall y :: y in t.writes && y !in t.locked ==> x <= y
  }

  predicate TidAbove(s: State, t: Txn, tid: int) {
    && CoreTid(s, t.core) < tid
    && (forall r :: r in t.seen ==> r.tid < tid)
    && (forall x :: x in t.writes && x in s.tuples && !Marker(s.tuples[x]) ==> s.tuples[x].chain[0].tid < tid)
  }

  // What validation demands of one read.
  predicate ReadValid(s: State, t: Txn, r: ReadRec) {
    && r.x in s.tuples
    && var x := s.tuples[r.x];
    && LatestFlag(x) && !Marker(x) && x.chain[0].tid <= r.tid
    && (r.x in t.writes || x.owner == None)
  }

  // A deleted record that every snapshot sees.
  predicate Expired(x: Tuple, last: int) {
    !Marker(x) && x.chain[0].val == None && RoTick(x.chain[0].tid) + 1 <= Ro(last)
  }

  predicate Enabled(s: State, step: Step) {
    match step
    case Tick => s.last == s.cur - 1
    case Complete =>
      && s.last == s.cur - 2
      && (forall t :: t in s.txns && !Finished(s.txns[t]) ==> s.txns[t].tick == s.cur)
      && (forall n :: n in s.snaps && s.snaps[n].open ==> s.snaps[n].tick == s.cur)
    case Begin(t, core, tick) => t !in s.txns && 0 <= core < 512 && s.last < tick <= s.cur
    case Read(t, x) =>
      && In(s, t, Active) && x in s.tuples && x !in s.txns[t].writes
      && (Marker(s.tuples[x]) || s.tuples[x].owner == None)
    case ReadMissing(t, k) => In(s, t, Active) && k !in s.tree
    case Put(t, x, v) => In(s, t, Active) && x in s.tuples
    case Insert(t, k, x, v) => In(s, t, Active) && k !in s.tree && x !in s.tuples
    case StartAbort(t) => In(s, t, Active)
    case StartCommit(t) => In(s, t, Active)
    case Check(t, x) => In(s, t, Locking) && NextToLock(s.txns[t], x) && x in s.tuples
    case Acquire(t) =>
      && t in s.txns && s.txns[t].phase.Waiting?
      && s.txns[t].phase.x in s.tuples
      && s.tuples[s.txns[t].phase.x].owner == None && s.tuples[s.txns[t].phase.x].cleaner.Away?
    case TakeTid(t, tid) =>
      && In(s, t, Locking)
      && s.txns[t].writes.Keys <= s.txns[t].locked
      && if s.txns[t].writes == map[] then tid == 0
         else 0 < tid && CoreOf(tid) == s.txns[t].core && Epoch(tid) == s.cur && TidAbove(s, s.txns[t], tid)
    case CheckRead(t, r) => In(s, t, Validating) && r in s.txns[t].seen
    case CheckNode(t, n) => In(s, t, Validating) && n in s.txns[t].nodes
    case Decide(t) =>
      && In(s, t, Validating)
      && s.txns[t].seen <= s.txns[t].okSeen.Keys + s.txns[t].stale.Keys
      && s.txns[t].nodes.Keys <= s.txns[t].okNodes
    case Install(t, x, fits, y) =>
      && In(s, t, Installing) && x in s.txns[t].pending && x in s.tuples && x in s.txns[t].writes && y !in s.tuples
      && 0 <= s.txns[t].pos < |s.order|
    case Unlock(t, x) =>
      In(s, t, Installing) && s.txns[t].pending == {} && x in s.txns[t].locked && x in s.tuples
    case Release(t, x, bump) => In(s, t, Aborting) && x in s.txns[t].locked && x in s.tuples
    case CleanLock(x) =>
      x in s.tuples && s.tuples[x].owner == None && s.tuples[x].cleaner.Away? && Expired(s.tuples[x], s.last)
    case Unlink(x, bump) => x in s.tuples && s.tuples[x].cleaner.Locked? && s.tuples[x].latest
    case ClearLatest(x) => x in s.tuples && s.tuples[x].cleaner.Unlinked?
    case CleanUnlock(x) => x in s.tuples && s.tuples[x].cleaner.Locked? && !s.tuples[x].latest
    case Cut(x, i) =>
      && x in s.tuples && 0 < i <= |s.tuples[x].chain|
      && RoTick(s.tuples[x].chain[i - 1].tid) + 1 <= Ro(s.last)
    case SnapOpen(n, tick) => n !in s.snaps && s.last < tick <= s.cur
    case SnapFetch(n, k) => n in s.snaps && s.snaps[n].open && s.snaps[n].walk.Idle?
    case SnapHop(n) =>
      && n in s.snaps && s.snaps[n].open && !s.snaps[n].walk.Idle?
      && (s.snaps[n].walk.AtTuple? ==> s.snaps[n].walk.x in s.tuples)
    case SnapClose(n) => n in s.snaps && s.snaps[n].open
  }

  function NewTxn(core: int, tick: int): Txn {
    Txn(core, tick, Active, {}, map[], {}, map[], map[], {}, {}, {}, -1, map[], {}, map[], map[])
  }

  function SetTxn(s: State, t: int, x: Txn): State { s.(txns := s.txns[t := x]) }

  function SetTuple(s: State, x: int, u: Tuple): State { s.(tuples := s.tuples[x := u]) }

  function BumpLeaf(s: State, n: int, d: int): State { s.(vers := s.vers[n := VersionOf(s.vers, n) + d]) }

  function DoRead(s: State, t: int, x: int): State
    requires Enabled(s, Read(t, x))
  {
    var u := s.tuples[x];
    var r := if Marker(u) then ReadRec(x, u.key, 0, None) else ReadRec(x, u.key, u.chain[0].tid, u.chain[0].val);
    SetTxn(s, t, s.txns[t].(seen := s.txns[t].seen + {r}))
  }

  function DoReadMissing(s: State, t: int, k: Key): State
    requires Enabled(s, ReadMissing(t, k))
  {
    var T := s.txns[t];
    var v := VersionOf(s.vers, k.leaf);
    if k.leaf in T.nodes && T.nodes[k.leaf] != v then SetTxn(s, t, T.(phase := Aborting))
    else SetTxn(s, t, T.(nodes := T.nodes[k.leaf := v], missing := T.missing + {k}))
  }

  function DoPut(s: State, t: int, x: int, v: Option<Value>): State
    requires Enabled(s, Put(t, x, v))
  {
    var T := s.txns[t];
    SetTxn(s, t, T.(writes := T.writes[x := v], byKey := T.byKey[s.tuples[x].key := x]))
  }

  // The marker goes into the tree locked; the absent set follows the leaf's
  // version unless someone else moved it first.
  function DoInsert(s: State, t: int, k: Key, x: int, v: Option<Value>): State
    requires Enabled(s, Insert(t, k, x, v))
  {
    var T := s.txns[t];
    var was := VersionOf(s.vers, k.leaf);
    var T1 := T.(writes := T.writes[x := v], byKey := T.byKey[k := x],
                 inserts := T.inserts + {x}, locked := T.locked + {x});
    var T2 := if k.leaf !in T.nodes then T1
              else if T.nodes[k.leaf] != was then T1.(phase := Aborting)
              else T1.(nodes := T.nodes[k.leaf := was + 1]);
    s.(tuples := s.tuples[x := Tuple(k, [], true, Some(t), Away)],
       tree := s.tree[k := x],
       vers := s.vers[k.leaf := was + 1],
       base := s.base[x := LastWriter(s.lastW, k)],
       txns := s.txns[t := T2])
  }

  function DoCheck(s: State, t: int, x: int): State
    requires Enabled(s, Check(t, x))
  {
    SetTxn(s, t, s.txns[t].(phase := if Marker(s.tuples[x]) then Aborting else Waiting(x)))
  }

  function DoAcquire(s: State, t: int): State
    requires Enabled(s, Acquire(t))
  {
    var T := s.txns[t];
    var x := T.phase.x;
    var u := s.tuples[x];
    s.(tuples := s.tuples[x := u.(owner := Some(t))],
       txns := s.txns[t := T.(locked := T.locked + {x}, phase := if u.latest then Locking else Aborting)])
  }

  // The serialization point: every write lock is held and the epoch is read.
  function DoTakeTid(s: State, t: int, tid: int): State
    requires Enabled(s, TakeTid(t, tid))
  {
    var T := s.txns[t];
    var w := map k | k in T.byKey && T.byKey[k] in T.writes :: T.writes[T.byKey[k]];
    s.(txns := s.txns[t := T.(phase := Validating, pos := |s.order|)],
       coreTid := if tid == 0 then s.coreTid else s.coreTid[T.core := tid],
       order := s.order + [Entry(t, T.core, tid, s.cur, w, Open)])
  }

  function SetFate(s: State, q: int, f: Fate): State {
    if 0 <= q < |s.order| then s.(order := s.order[q := s.order[q].(fate := f)]) else s
  }

  // A failed validation aborts the transaction.
  function Fail(s: State, t: int): State
    requires t in s.txns
  {
    SetFate(SetTxn(s, t, s.txns[t].(phase := Aborting)), s.txns[t].pos, Abort)
  }

  // The tuple read is out of the tree, and another one has its key.
  predicate Superseded(s: State, r: ReadRec)
    requires r.x in s.tuples
  {
    !s.tuples[r.x].latest && r.key in s.tree
  }

  function DoCheckRead(s: State, t: int, r: ReadRec): State
    requires Enabled(s, CheckRead(t, r))
  {
    var T := s.txns[t];
    if ReadValid(s, T, r) then
      if !Superseded(s, r) then SetTxn(s, t, T.(okSeen := T.okSeen[r := LastWriter(s.lastW, r.key)]))
      else SetTxn(s, t, T.(stale := T.stale[r := s.tuples[r.x].chain[0].src]))
    else Fail(s, t)
  }

  function DoCheckNode(s: State, t: int, n: int): State
    requires Enabled(s, CheckNode(t, n))
  {
    var T := s.txns[t];
    if T.nodes[n] == VersionOf(s.vers, n) then
      SetTxn(s, t, T.(okNodes := T.okNodes + {n},
        okMissing := T.okMissing + map k | k in T.missing && k.leaf == n :: LastWriter(s.lastW, k)))
    else Fail(s, t)
  }

  function DoDecide(s: State, t: int): State
    requires Enabled(s, Decide(t))
  {
    var T := s.txns[t];
    SetFate(SetTxn(s, t, T.(phase := Installing, pending := T.writes.Keys)), T.pos, Commit)
  }

  // write_record_at.  Within one read-only epoch a live record that the new
  // one fits over is overwritten; otherwise the old version stays on the chain.
  function NewChain(c: seq<Version>, v: Version, fits: bool): seq<Version> {
    if c == [] then [v]
    else if c[0].val.Some? && fits && RoTick(c[0].tid) == RoTick(v.tid) then [v] + c[1..]
    else [v] + c
  }

  // Otherwise a replacement tuple takes the key over in the tree.
  predicate InPlace(c: seq<Version>, fits: bool) { c == [] || (c[0].val.Some? && fits) }

  function DoInstall(s: State, t: int, x: int, fits: bool, y: int): State
    requires Enabled(s, Install(t, x, fits, y))
  {
    var T := s.txns[t];
    var u := s.tuples[x];
    var c := NewChain(u.chain, Version(s.order[T.pos].tid, T.writes[x], T.pos), fits);
    var s1 := s.(txns := s.txns[t := T.(pending := T.pending - {x})], lastW := s.lastW[u.key := T.pos]);
    if InPlace(u.chain, fits) then SetTuple(s1, x, u.(chain := c))
    else
      s1.(tuples := s.tuples[x := u.(latest := false)][y := Tuple(u.key, c, true, None, Away)],
          tree := s.tree[u.key := y], base := s.base[y := BaseOf(s.base, x)])
  }

  function DoUnlock(s: State, t: int, x: int): State
    requires Enabled(s, Unlock(t, x))
  {
    var T := s.txns[t];
    s.(tuples := s.tuples[x := s.tuples[x].(owner := None)],
       txns := s.txns[t := T.(locked := T.locked - {x})])
  }

  // Abort: an inserted marker leaves the tree before its lock is dropped.
  function DoRelease(s: State, t: int, x: int, bump: nat): State
    requires Enabled(s, Release(t, x, bump))
  {
    var T := s.txns[t];
    var u := s.tuples[x];
    var s1 := s.(txns := s.txns[t := T.(locked := T.locked - {x})]);
    if x in T.inserts then
      BumpLeaf(s1, u.key.leaf, bump).(tree := s.tree - {u.key},
        tuples := s.tuples[x := u.(owner := None, latest := false)])
    else SetTuple(s1, x, u.(owner := None))
  }

  // The cleaner takes the key of a deleted tuple out of the tree.
  function DoUnlink(s: State, x: int, bump: nat): State
    requires Enabled(s, Unlink(x, bump))
  {
    var u := s.tuples[x];
    BumpLeaf(s, u.key.leaf, bump).(tree := s.tree - {u.key},
      tuples := s.tuples[x := u.(latest := false, cleaner := Unlinked)])
  }

  function SetCleaner(s: State, x: int, c: Cleaner): State
    requires x in s.tuples
  {
    SetTuple(s, x, s.tuples[x].(cleaner := c))
  }

  function NewSnap(tick: int, bound: int): Snap { Snap(tick, true, bound, map[], Idle) }

  // The cleaner drops the versions of x's chain from i on.
  function DoCut(s: State, x: int, i: nat): State
    requires Enabled(s, Cut(x, i))
  {
    var u := s.tuples[x];
    SetTuple(s, x, u.(chain := u.chain[..i])).(gone := s.gone + set v | v in u.chain[i..] :: Gone(u.key, v.src))
  }

  // A search that finds no key ends there.
  function DoSnapFetch(s: State, n: int, k: Key): State
    requires Enabled(s, SnapFetch(n, k))
  {
    var z := s.snaps[n];
    s.(snaps := s.snaps[n := if k in s.tree then z.(walk := AtTuple(k, s.tree[k]))
                             else z.(got := z.got[k := SnapRec(None, LastWriter(s.lastW, k))])])
  }

  // The versions a walk has before it, and what lies behind the last of them.
  function Remaining(s: State, w: Walk): seq<Version>
    requires !w.Idle? && (w.AtTuple? ==> w.x in s.tuples)
  {
    if w.AtTuple? then s.tuples[w.x].chain else w.rest
  }

  function Bottom(s: State, w: Walk): int
    requires !w.Idle?
  {
    if w.AtTuple? then BaseOf(s.base, w.x) else w.base
  }

  // One tuple of the walk.  A marker and the end of the chain read as absent.
  function Hop(z: Snap, c: seq<Version>, b: int): Snap
    requires !z.walk.Idle?
  {
    if c == [] then z.(got := z.got[z.walk.k := SnapRec(None, b)], walk := Idle)
    else if RoTick(c[0].tid) < z.bound then z.(got := z.got[z.walk.k := SnapRec(c[0].val, c[0].src)], walk := Idle)
    else z.(walk := AtRest(z.walk.k, c[1..], b))
  }

  function DoSnapHop(s: State, n: int): State
    requires Enabled(s, SnapHop(n))
  {
    var z := s.snaps[n];
    s.(snaps := s.snaps[n := Hop(z, Remaining(s, z.walk), Bottom(s, z.walk))])
  }

  function Apply(s: State, step: Step): State
    requires Enabled(s, step)
  {
    match step
    case Tick => s.(cur := s.cur + 1)
    case Complete => s.(last := s.cur - 1)
    case Begin(t, core, tick) => SetTxn(s, t, NewTxn(core, tick))
    case Read(t, x) => DoRead(s, t, x)
    case ReadMissing(t, k) => DoReadMissing(s, t, k)
    case Put(t, x, v) => DoPut(s, t, x, v)
    case Insert(t, k, x, v) => DoInsert(s, t, k, x, v)
    case StartAbort(t) => SetTxn(s, t, s.txns[t].(phase := Aborting))
    case StartCommit(t) => SetTxn(s, t, s.txns[t].(phase := Locking))
    case Check(t, x) => DoCheck(s, t, x)
    case Acquire(t) => DoAcquire(s, t)
    case TakeTid(t, tid) => DoTakeTid(s, t, tid)
    case CheckRead(t, r) => DoCheckRead(s, t, r)
    case CheckNode(t, n) => DoCheckNode(s, t, n)
    case Decide(t) => DoDecide(s, t)
    case Install(t, x, fits, y) => DoInstall(s, t, x, fits, y)
    case Unlock(t, x) => DoUnlock(s, t, x)
    case Release(t, x, bump) => DoRelease(s, t, x, bump)
    case CleanLock(x) => SetCleaner(s, x, Locked)
    case Unlink(x, bump) => DoUnlink(s, x, bump)
    case ClearLatest(x) => SetCleaner(s, x, Away)
    case CleanUnlock(x) => SetCleaner(s, x, Away)
    case Cut(x, i) => DoCut(s, x, i)
    case SnapOpen(n, tick) => s.(snaps := s.snaps[n := NewSnap(tick, Ro(s.last + 1))])
    case SnapFetch(n, k) => DoSnapFetch(s, n, k)
    case SnapHop(n) => DoSnapHop(s, n)
    case SnapClose(n) => s.(snaps := s.snaps[n := s.snaps[n].(open := false)])
  }

  const INITIAL := State(map[], map[], map[], map[], map[], map[], 1, 0, [], map[], map[], {})

  ghost predicate Run(ss: seq<State>, steps: seq<Step>) {
    && |ss| == |steps| + 1 && ss[0] == INITIAL
    && forall i {:trigger steps[i]} :: 0 <= i < |steps| ==>
      Enabled(ss[i], steps[i]) && ss[i + 1] == Apply(ss[i], steps[i])
  }
}
