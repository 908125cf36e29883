// Snapshot walks under way: whatever happens to the tuples they pass, they end
// with the last write below their bound and meet no version that was dropped.

module CommitWalks {
  import opened Basics
  import opened Tids
  import opened CommitModel
  import opened CommitStructure
  import opened CommitOrder
  import opened CommitValues
  import opened CommitSnapshots
  import opened CommitSteps

  // A chain lists installed writes of its key, newest first.
  ghost predicate Listed(order: Order, lastW: map<Key, int>, k: Key, c: seq<Version>, b: int) {
    && -1 <= b
    && (forall i :: 0 <= i < |c| ==> VersionOk(order, lastW, k, c[i]) && b < c[i].src)
    && (forall i, j :: 0 <= i < j < |c| ==> c[j].src < c[i].src)
  }

  // So does that of every tuple, latest or not.
  ghost predicate TuplesInv(order: Order, lastW: map<Key, int>, base: map<int, int>, u: Tuples) {
    forall x :: x in u ==> Listed(order, lastW, u[x].key, u[x].chain, BaseOf(base, x))
  }

  // A later write of its key hides g from every snapshot that is open now or later.
  predicate Hides(order: Order, last: int, g: Gone, q: int) {
    g.src < q && LiveW(order, q, g.k) && order[q].fate == Commit && RoTick(order[q].tid) + 1 <= Ro(last)
  }

  ghost predicate GoneInv(order: Order, last: int, gone: set<Gone>) {
    forall g :: g in gone ==> exists q :: Hides(order, last, g, q)
  }

  ghost predicate SnapWalk(s: State, z: Snap) {
    && AnswerOk(s, z)
    && (z.open && z.walk.AtRest? ==> Listed(s.order, s.lastW, z.walk.k, z.walk.rest, z.walk.base))
  }

  ghost predicate WalkInv(s: State) {
    && TuplesInv(s.order, s.lastW, s.base, s.tuples) && GoneInv(s.order, s.last, s.gone)
    && (forall n :: n in s.snaps ==> SnapWalk(s, s.snaps[n]))
  }

  // ---- steps that change no chain ----

  // Writers that reach their lock point now are above every snapshot.
  ghost predicate NewAbove(s: State, order': Order) {
    forall n, q, k :: n in s.snaps && |s.order| <= q && LiveW(order', q, k) ==>
      s.snaps[n].bound <= RoTick(order'[q].tid)
  }

  ghost predicate SameChains(s: State, s': State) {
    && (forall x :: x in s.tuples ==>
          x in s'.tuples && s'.tuples[x].key == s.tuples[x].key && s'.tuples[x].chain == s.tuples[x].chain
          && BaseOf(s'.base, x) == BaseOf(s.base, x))
    && (forall x :: x in s'.tuples && x !in s.tuples ==> s'.tuples[x].chain == [] && -1 <= BaseOf(s'.base, x))
  }

  ghost predicate Keeps(s: State, s': State) {
    && s'.lastW == s.lastW && s'.snaps == s.snaps && s'.gone == s.gone && s.last <= s'.last
    && Grows(s.order, s'.order, |s.order|) && NewAbove(s, s'.order) && SameChains(s, s')
  }

  lemma GrowListed(order: Order, order': Order, lastW: map<Key, int>, k: Key, c: seq<Version>, b: int)
    requires Listed(order, lastW, k, c, b) && Grows(order, order', |order|)
    ensures Listed(order', lastW, k, c, b)
  {
  }

  lemma GrowGone(order: Order, order': Order, last: int, last': int, gone: set<Gone>)
    requires GoneInv(order, last, gone) && Grows(order, order', |order|) && last <= last'
    ensures GoneInv(order', last', gone)
  {
    forall g | g in gone ensures exists q :: Hides(order', last', g, q) {
      var q :| Hides(order, last, g, q);
      assert Hides(order', last', g, q);
    }
  }

  lemma GrowRead(order: Order, order': Order, r: int, k: Key, z: SnapRec)
    requires ReadBelow(order, r, k, z) && Grows(order, order', |order|)
    requires forall q :: |order| <= q && LiveW(order', q, k) ==> r <= RoTick(order'[q].tid)
    ensures ReadBelow(order', r, k, z)
  {
  }

  lemma KeepsSnap(s: State, s': State, n: int)
    requires n in s.snaps && SnapWalk(s, s.snaps[n]) && Keeps(s, s')
    ensures SnapWalk(s', s.snaps[n])
  {
    var z := s.snaps[n];
    if z.open && !z.walk.Idle? {
      GrowRead(s.order, s'.order, z.bound, z.walk.k, Seen(Remaining(s, z.walk), Bottom(s, z.walk), z.bound));
      if z.walk.AtRest? { GrowListed(s.order, s'.order, s.lastW, z.walk.k, z.walk.rest, z.walk.base); }
    }
  }

  lemma KeepsWalks(s: State, s': State)
    requires WalkInv(s) && Keeps(s, s')
    ensures WalkInv(s')
  {
    forall x | x in s'.tuples
      ensures Listed(s'.order, s'.lastW, s'.tuples[x].key, s'.tuples[x].chain, BaseOf(s'.base, x))
    {
      if x in s.tuples {
        GrowListed(s.order, s'.order, s.lastW, s.tuples[x].key, s.tuples[x].chain, BaseOf(s.base, x));
      }
    }
    GrowGone(s.order, s'.order, s.last, s'.last, s.gone);
    forall n | n in s'.snaps ensures SnapWalk(s', s'.snaps[n]) { KeepsSnap(s, s', n); }
  }

  lemma SameOrderKeeps(s: State, s': State)
    requires s'.lastW == s.lastW && s'.snaps == s.snaps && s'.gone == s.gone && s.last <= s'.last && s'.order == s.order
    requires SameChains(s, s')
    ensures Keeps(s, s')
  {
  }

  // Steps of a transaction on its own record.
  predicate Private(step: Step) {
    step.Begin? || step.Read? || step.ReadMissing? || step.Put? || step.StartAbort? || step.StartCommit? || step.Check?
  }

  lemma ReadForm(s: State, t: int, x: int)
    requires Enabled(s, Read(t, x))
    ensures DoRead(s, t, x) == s.(txns := DoRead(s, t, x).txns)
  {
  }

  lemma MissingForm(s: State, t: int, k: Key)
    requires Enabled(s, ReadMissing(t, k))
    ensures DoReadMissing(s, t, k) == s.(txns := DoReadMissing(s, t, k).txns)
  {
    var T, v := s.txns[t], VersionOf(s.vers, k.leaf);
    if k.leaf in T.nodes && T.nodes[k.leaf] != v {
      assert DoReadMissing(s, t, k) == SetTxn(s, t, T.(phase := Aborting));
    } else {
      assert DoReadMissing(s, t, k) == SetTxn(s, t, T.(nodes := T.nodes[k.leaf := v], missing := T.missing + {k}));
    }
  }

  lemma WriteForm(s: State, step: Step)
    requires Enabled(s, step) && (step.Put? || step.Check?)
    ensures Apply(s, step) == s.(txns := Apply(s, step).txns)
  {
  }

  lemma PhaseForm(s: State, step: Step)
    requires Enabled(s, step) && (step.Begin? || step.StartAbort? || step.StartCommit?)
    ensures Apply(s, step) == s.(txns := Apply(s, step).txns)
  {
  }

  lemma TxnKeeps(s: State, s': State)
    requires s' == s.(txns := s'.txns)
    ensures Keeps(s, s')
  {
    SameOrderKeeps(s, s');
  }

  lemma PrivateForm(s: State, step: Step)
    requires Enabled(s, step) && Private(step)
    ensures Apply(s, step) == s.(txns := Apply(s, step).txns)
  {
    if step.Read? { ReadForm(s, step.t, step.x); }
    else if step.ReadMissing? { MissingForm(s, step.t, step.k); }
    else if step.Put? || step.Check? { WriteForm(s, step); }
    else { PhaseForm(s, step); }
  }

  lemma PrivateKeeps(s: State, step: Step)
    requires Enabled(s, step) && Private(step)
    ensures Keeps(s, Apply(s, step))
  {
    PrivateForm(s, step);
    TxnKeeps(s, Apply(s, step));
  }

  lemma InsertKeeps(s: State, t: int, k: Key, x: int, v: Option<Value>)
    requires Enabled(s, Insert(t, k, x, v)) && SyncInv(s.order, s.lastW, s.tuples, s.tree, s.last)
    ensures Keeps(s, DoInsert(s, t, k, x, v))
  {
    SameOrderKeeps(s, DoInsert(s, t, k, x, v));
  }

  lemma AcquireKeeps(s: State, t: int)
    requires Enabled(s, Acquire(t))
    ensures Keeps(s, DoAcquire(s, t))
  {
    SameOrderKeeps(s, DoAcquire(s, t));
  }

  lemma UnlockKeeps(s: State, t: int, x: int)
    requires Enabled(s, Unlock(t, x))
    ensures Keeps(s, DoUnlock(s, t, x))
  {
    SameOrderKeeps(s, DoUnlock(s, t, x));
  }

  lemma ReleaseKeeps(s: State, t: int, x: int, bump: nat)
    requires Enabled(s, Release(t, x, bump))
    ensures Keeps(s, DoRelease(s, t, x, bump))
  {
    ReleaseForm(s, t, x, bump);
    ReleasedKeeps(s, DoRelease(s, t, x, bump), t, x);
  }

  lemma ReleasedKeeps(s: State, s': State, t: int, x: int)
    requires Released(s, s', t, x)
    ensures Keeps(s, s')
  {
    SameOrderKeeps(s, s');
  }

  lemma UnlinkKeeps(s: State, x: int, bump: nat)
    requires Enabled(s, Unlink(x, bump))
    ensures Keeps(s, DoUnlink(s, x, bump))
  {
    SameOrderKeeps(s, DoUnlink(s, x, bump));
  }

  lemma SetCleanerKeeps(s: State, x: int, c: Cleaner)
    requires x in s.tuples
    ensures Keeps(s, SetCleaner(s, x, c))
  {
    SameOrderKeeps(s, SetCleaner(s, x, c));
  }

  lemma TakeTidKeeps(s: State, t: int, tid: int)
    requires ClockInv(s) && Enabled(s, TakeTid(t, tid))
    ensures Keeps(s, DoTakeTid(s, t, tid))
  {
  }

  lemma SettleKeeps(s: State, s': State, t: int, f: Fate)
    requires Settles(s, s', t, f) && s'.gone == s.gone && s'.base == s.base
    ensures Keeps(s, s')
  {
  }

  lemma FailKeeps(s: State, t: int)
    requires In(s, t, Validating) && Placed(s.order, t, s.txns[t])
    ensures Keeps(s, Fail(s, t))
  {
    FailForm(s, t);
    SettleKeeps(s, Fail(s, t), t, Abort);
  }

  // A read that passes is noted in the transaction's own record.
  lemma PassForm(s: State, t: int, r: ReadRec)
    requires Enabled(s, CheckRead(t, r)) && ReadValid(s, s.txns[t], r)
    ensures DoCheckRead(s, t, r) == s.(txns := DoCheckRead(s, t, r).txns)
  {
    var T := s.txns[t];
    if !Superseded(s, r) {
      assert DoCheckRead(s, t, r) == SetTxn(s, t, T.(okSeen := T.okSeen[r := LastWriter(s.lastW, r.key)]));
    } else {
      assert DoCheckRead(s, t, r) == SetTxn(s, t, T.(stale := T.stale[r := s.tuples[r.x].chain[0].src]));
    }
  }

  lemma CheckReadKeeps(s: State, t: int, r: ReadRec)
    requires Enabled(s, CheckRead(t, r)) && Placed(s.order, t, s.txns[t])
    ensures Keeps(s, DoCheckRead(s, t, r))
  {
    if ReadValid(s, s.txns[t], r) {
      PassForm(s, t, r);
      TxnKeeps(s, DoCheckRead(s, t, r));
    } else {
      FailKeeps(s, t);
    }
  }

  lemma CheckNodeKeeps(s: State, t: int, n: int)
    requires Enabled(s, CheckNode(t, n)) && Placed(s.order, t, s.txns[t])
    ensures Keeps(s, DoCheckNode(s, t, n))
  {
    if s.txns[t].nodes[n] == VersionOf(s.vers, n) { SameOrderKeeps(s, DoCheckNode(s, t, n)); } else { FailKeeps(s, t); }
  }

  lemma DecideKeeps(s: State, t: int)
    requires Enabled(s, Decide(t)) && Placed(s.order, t, s.txns[t])
    ensures Keeps(s, DoDecide(s, t))
  {
    DecideForm(s, t);
    SettleKeeps(s, DoDecide(s, t), t, Commit);
  }

  lemma ClockKeeps(s: State, step: Step)
    requires ClockInv(s) && Enabled(s, step) && (step.Tick? || step.Complete?)
    ensures Keeps(s, Apply(s, step))
  {
    SameOrderKeeps(s, Apply(s, step));
  }

  // ---- an install ----

  // The tuples after the install of v: x or its replacement y has the new chain.
  lemma InstallListed(order: Order, lastW: map<Key, int>, k: Key, c: seq<Version>, b: int, v: Version, fits: bool)
    requires Listed(order, lastW, k, c, b) && LastWriter(lastW, k) < v.src && VersionOk(order, lastW[k := v.src], k, v)
    requires b <= LastWriter(lastW, k)
    ensures Listed(order, lastW[k := v.src], k, NewChain(c, v, fits), b)
  {
  }

  // Other chains list what they listed.
  lemma LaterListed(order: Order, lastW: map<Key, int>, j: Key, c: seq<Version>, b: int, k: Key, p: int)
    requires Listed(order, lastW, j, c, b) && LastWriter(lastW, k) < p
    ensures Listed(order, lastW[k := p], j, c, b)
  {
  }

  // v has gone in front of x's chain, at x or at a new tuple that takes over.
  ghost predicate Puts(s: State, s': State, x: int, v: Version, fits: bool) {
    && x in s.tuples && s'.lastW == s.lastW[s.tuples[x].key := v.src]
    && s'.order == s.order && s'.snaps == s.snaps && s'.gone == s.gone && s'.last == s.last
    && (forall w :: w in s.tuples ==>
      w in s'.tuples && s'.tuples[w].key == s.tuples[w].key && BaseOf(s'.base, w) == BaseOf(s.base, w))
    && (forall w :: w in s.tuples && w in s'.tuples ==>
          s'.tuples[w].chain == s.tuples[w].chain ||
            (w == x && s'.tuples[x].chain == NewChain(s.tuples[x].chain, v, fits)))
    && (forall w :: w in s'.tuples && w !in s.tuples ==>
          && s'.tuples[w].key == s.tuples[x].key && BaseOf(s'.base, w) == BaseOf(s.base, x)
          && s'.tuples[w].chain == NewChain(s.tuples[x].chain, v, fits))
  }

  function NewVersion(s: State, t: int, x: int): Version
    requires t in s.txns && 0 <= s.txns[t].pos < |s.order| && x in s.txns[t].writes
  {
    Version(s.order[s.txns[t].pos].tid, s.txns[t].writes[x], s.txns[t].pos)
  }

  lemma InPlacePuts(s: State, s': State, x: int, v: Version, fits: bool)
    requires x in s.tuples && s' == s.(txns := s'.txns, lastW := s.lastW[s.tuples[x].key := v.src],
      tuples := s.tuples[x := s.tuples[x].(chain := NewChain(s.tuples[x].chain, v, fits))])
    ensures Puts(s, s', x, v, fits)
  {
  }

  lemma ReplacePuts(s: State, s': State, x: int, v: Version, fits: bool, y: int)
    requires x in s.tuples && y !in s.tuples && s' == s.(txns := s'.txns, lastW := s.lastW[s.tuples[x].key := v.src],
      tuples := s.tuples[x := s.tuples[x].(latest := false)]
        [y := Tuple(s.tuples[x].key, NewChain(s.tuples[x].chain, v, fits), true, None, Away)],
      tree := s'.tree, base := s.base[y := BaseOf(s.base, x)])
    ensures Puts(s, s', x, v, fits)
  {
  }

  lemma InstallPuts(s: State, t: int, x: int, fits: bool, y: int)
    requires Enabled(s, Install(t, x, fits, y))
    ensures Puts(s, DoInstall(s, t, x, fits, y), x, NewVersion(s, t, x), fits)
  {
    if InPlace(s.tuples[x].chain, fits) {
      InPlacePuts(s, DoInstall(s, t, x, fits, y), x, NewVersion(s, t, x), fits);
    } else {
      ReplacePuts(s, DoInstall(s, t, x, fits, y), x, NewVersion(s, t, x), fits, y);
    }
  }

  lemma PutTuples(s: State, s': State, x: int, v: Version, fits: bool)
    requires TuplesInv(s.order, s.lastW, s.base, s.tuples) && Puts(s, s', x, v, fits)
    requires BaseOf(s.base, x) <= LastWriter(s.lastW, s.tuples[x].key) < v.src
    requires VersionOk(s.order, s'.lastW, s.tuples[x].key, v)
    ensures TuplesInv(s'.order, s'.lastW, s'.base, s'.tuples)
  {
    var k := s.tuples[x].key;
    InstallListed(s.order, s.lastW, k, s.tuples[x].chain, BaseOf(s.base, x), v, fits);
    forall w | w in s.tuples ensures Listed(s.order, s'.lastW, s.tuples[w].key, s.tuples[w].chain, BaseOf(s.base, w)) {
      LaterListed(s.order, s.lastW, s.tuples[w].key, s.tuples[w].chain, BaseOf(s.base, w), k, v.src);
    }
  }

  // No walk can tell: what is installed is above every bound.
  lemma PutSnap(s: State, s': State, x: int, v: Version, fits: bool, z: Snap)
    requires SnapWalk(s, z) && Puts(s, s', x, v, fits) && LastWriter(s.lastW, s.tuples[x].key) < v.src
    requires z.bound <= RoTick(v.tid)
    ensures SnapWalk(s', z)
  {
    ChainRefines(s.tuples[x].chain, v, fits, z.bound);
    if z.walk.AtRest? && z.open {
      LaterListed(s.order, s.lastW, z.walk.k, z.walk.rest, z.walk.base, s.tuples[x].key, v.src);
    }
  }

  lemma PutWalks(s: State, s': State, x: int, v: Version, fits: bool)
    requires WalkInv(s) && Puts(s, s', x, v, fits)
    requires BaseOf(s.base, x) <= LastWriter(s.lastW, s.tuples[x].key) < v.src
    requires VersionOk(s.order, s'.lastW, s.tuples[x].key, v)
    requires forall n :: n in s.snaps ==> s.snaps[n].bound <= RoTick(v.tid)
    ensures WalkInv(s')
  {
    PutTuples(s, s', x, v, fits);
    forall n | n in s.snaps ensures SnapWalk(s', s.snaps[n]) { PutSnap(s, s', x, v, fits, s.snaps[n]); }
  }

  lemma InstallWalks(s: State, t: int, x: int, fits: bool, y: int)
    requires FullInv(s) && WalkInv(s) && Enabled(s, Install(t, x, fits, y))
    ensures WalkInv(DoInstall(s, t, x, fits, y))
  {
    InstallerReady(s, t, x, fits, y);
    InstallerFacts(s, t, x);
    InstallPuts(s, t, x, fits, y);
    PendingIsRecent(s, s.txns[t].pos, s.tuples[x].key);
    assert ChainInv(s.order, s.lastW, s.last, s.tuples[x].key, s.tuples[x].chain, BaseOf(s.base, x));
    PutWalks(s, DoInstall(s, t, x, fits, y), x, NewVersion(s, t, x), fits);
  }

  // ---- a cut ----

  lemma CutGone(order: Order, lastW: map<Key, int>, last: int, k: Key, c: seq<Version>, b: int, i: nat, g: Gone)
    requires Listed(order, lastW, k, c, b) && 0 < i <= |c| && RoTick(c[i - 1].tid) + 1 <= Ro(last)
    requires g.k == k && exists v :: v in c[i..] && v.src == g.src
    ensures Hides(order, last, g, c[i - 1].src)
  {
    var v :| v in c[i..] && v.src == g.src;
    var j :| i <= j < |c| && c[j] == v;
  }

  lemma CutSnap(s: State, x: int, i: nat, z: Snap)
    requires SnapWalk(s, z) && Enabled(s, Cut(x, i)) && (z.open ==> Ro(s.last) <= z.bound)
    ensures SnapWalk(DoCut(s, x, i), z)
  {
    if z.open { FindCut(s.tuples[x].chain, i, z.bound); }
  }

  lemma CutWalks(s: State, x: int, i: nat)
    requires ClockInv(s) && WalkInv(s) && Enabled(s, Cut(x, i))
    ensures WalkInv(DoCut(s, x, i))
  {
    var s' := DoCut(s, x, i);
    var u := s.tuples[x];
    assert Listed(s.order, s.lastW, u.key, u.chain, BaseOf(s.base, x));
    forall g | g in s'.gone ensures exists q :: Hides(s.order, s.last, g, q) {
      if g !in s.gone { CutGone(s.order, s.lastW, s.last, u.key, u.chain, BaseOf(s.base, x), i, g); }
    }
    forall n | n in s.snaps ensures SnapWalk(s', s.snaps[n]) { CutSnap(s, x, i, s.snaps[n]); }
  }

  // ---- steps of snapshots ----

  lemma SnapWalks(s: State, n: int, z: Snap)
    requires WalkInv(s) && SnapWalk(s, z)
    ensures WalkInv(s.(snaps := s.snaps[n := z]))
  {
    var s' := s.(snaps := s.snaps[n := z]);
    forall m | m in s'.snaps ensures SnapWalk(s', s'.snaps[m]) {
      assert SnapWalk(s, s'.snaps[m]);
    }
  }

  lemma FetchWalks(s: State, n: int, k: Key)
    requires FullInv(s) && WalkInv(s) && Enabled(s, SnapFetch(n, k))
    ensures WalkInv(Apply(s, SnapFetch(n, k)))
  {
    FetchOk(s, n, k);
    SnapWalks(s, n, DoSnapFetch(s, n, k).snaps[n]);
  }

  lemma HopListed(order: Order, lastW: map<Key, int>, k: Key, c: seq<Version>, b: int)
    requires Listed(order, lastW, k, c, b) && c != []
    ensures Listed(order, lastW, k, c[1..], b)
  {
  }

  lemma HopSnap(s: State, z: Snap)
    requires TuplesInv(s.order, s.lastW, s.base, s.tuples) && SnapWalk(s, z) && z.open && !z.walk.Idle?
    ensures SnapWalk(s, Hop(z, Remaining(s, z.walk), Bottom(s, z.walk)))
  {
    var c, b := Remaining(s, z.walk), Bottom(s, z.walk);
    HopAnswer(z, c, b);
    if c != [] { HopListed(s.order, s.lastW, z.walk.k, c, b); }
  }

  lemma HopWalks(s: State, n: int)
    requires WalkInv(s) && Enabled(s, SnapHop(n))
    ensures WalkInv(Apply(s, SnapHop(n)))
  {
    assert SnapWalk(s, s.snaps[n]);
    HopSnap(s, s.snaps[n]);
    SnapWalks(s, n, DoSnapHop(s, n).snaps[n]);
  }

  // ---- every step ----

  lemma LockWalks(s: State, step: Step)
    requires FullInv(s) && WalkInv(s) && Enabled(s, step) && (step.Acquire? || step.TakeTid?)
    ensures WalkInv(Apply(s, step))
  {
    if step.Acquire? { AcquireKeeps(s, step.t); } else { TakeTidKeeps(s, step.t, step.tid); }
    KeepsWalks(s, Apply(s, step));
  }

  lemma InsertWalks(s: State, t: int, k: Key, x: int, v: Option<Value>)
    requires FullInv(s) && WalkInv(s) && Enabled(s, Insert(t, k, x, v))
    ensures WalkInv(Apply(s, Insert(t, k, x, v)))
  {
    InsertKeeps(s, t, k, x, v);
    KeepsWalks(s, DoInsert(s, t, k, x, v));
  }

  lemma ValidateWalks(s: State, step: Step)
    requires FullInv(s) && WalkInv(s) && Enabled(s, step) && Validates(step)
    ensures WalkInv(Apply(s, step))
  {
    assert Placed(s.order, step.t, s.txns[step.t]);
    match step
    case CheckRead(t, r) => CheckReadKeeps(s, t, r); KeepsWalks(s, DoCheckRead(s, t, r));
    case CheckNode(t, n) => CheckNodeKeeps(s, t, n); KeepsWalks(s, DoCheckNode(s, t, n));
    case Decide(t) => DecideKeeps(s, t); KeepsWalks(s, DoDecide(s, t));
  }

  lemma FinishWalks(s: State, step: Step)
    requires FullInv(s) && WalkInv(s) && Enabled(s, step) && Finishes(step)
    ensures WalkInv(Apply(s, step))
  {
    match step
    case Install(t, x, fits, y) => InstallWalks(s, t, x, fits, y);
    case Unlock(t, x) => UnlockKeeps(s, t, x); KeepsWalks(s, DoUnlock(s, t, x));
    case Release(t, x, bump) => ReleaseKeeps(s, t, x, bump); KeepsWalks(s, DoRelease(s, t, x, bump));
  }

  lemma UnlinkWalks(s: State, x: int, bump: nat)
    requires WalkInv(s) && Enabled(s, Unlink(x, bump))
    ensures WalkInv(DoUnlink(s, x, bump))
  {
    UnlinkKeeps(s, x, bump);
    KeepsWalks(s, DoUnlink(s, x, bump));
  }

  lemma CleanerWalks(s: State, step: Step)
    requires StructInv(s) && WalkInv(s) && Enabled(s, step) && CleanerMoves(step)
    ensures WalkInv(Apply(s, step))
  {
    var c := if step.CleanLock? then Locked else Away;
    CleanerMovesForm(s, step);
    SetCleanerKeeps(s, step.x, c);
    KeepsWalks(s, SetCleaner(s, step.x, c));
  }

  lemma CleanWalks(s: State, step: Step)
    requires FullInv(s) && WalkInv(s) && Enabled(s, step) && Cleans(step)
    ensures WalkInv(Apply(s, step))
  {
    if step.Cut? { CutWalks(s, step.x, step.i); }
    else if step.Unlink? { UnlinkWalks(s, step.x, step.bump); }
    else { CleanerWalks(s, step); }
  }

  lemma TickWalks(s: State, step: Step)
    requires FullInv(s) && WalkInv(s) && Enabled(s, step) && (step.Tick? || step.Complete?)
    ensures WalkInv(Apply(s, step))
  {
    ClockKeeps(s, step);
    KeepsWalks(s, Apply(s, step));
  }

  lemma OpenWalks(s: State, n: int, tick: int)
    requires WalkInv(s) && Enabled(s, SnapOpen(n, tick))
    ensures WalkInv(Apply(s, SnapOpen(n, tick)))
  {
    SnapWalks(s, n, NewSnap(tick, Ro(s.last + 1)));
  }

  lemma CloseWalks(s: State, n: int)
    requires WalkInv(s) && Enabled(s, SnapClose(n))
    ensures WalkInv(Apply(s, SnapClose(n)))
  {
    SnapWalks(s, n, s.snaps[n].(open := false));
  }

  lemma StepWalks(s: State, step: Step)
    requires FullInv(s) && WalkInv(s) && Enabled(s, step)
    ensures WalkInv(Apply(s, step))
  {
    if Private(step) { PrivateKeeps(s, step); KeepsWalks(s, Apply(s, step)); }
    else if step.Insert? { InsertWalks(s, step.t, step.k, step.x, step.v); }
    else if step.Acquire? || step.TakeTid? { LockWalks(s, step); }
    else if Validates(step) { ValidateWalks(s, step); }
    else if Finishes(step) { FinishWalks(s, step); }
    else if Cleans(step) { CleanWalks(s, step); }
    else if step.Tick? || step.Complete? { TickWalks(s, step); }
    else if step.SnapOpen? { OpenWalks(s, step.n, step.tick); }
    else if step.SnapFetch? { FetchWalks(s, step.n, step.k); }
    else if step.SnapHop? { HopWalks(s, step.n); }
    else { CloseWalks(s, step.n); }
  }

  // ---- no walk meets a dropped version ----

  lemma NotGone(s: State, n: int)
    requires ClockInv(s) && WalkInv(s) && Enabled(s, SnapHop(n)) && Remaining(s, s.snaps[n].walk) != []
    ensures Gone(s.snaps[n].walk.k, Remaining(s, s.snaps[n].walk)[0].src) !in s.gone
  {
    var z := s.snaps[n];
    var c, b := Remaining(s, z.walk), Bottom(s, z.walk);
    assert SnapWalk(s, z) && Listed(s.order, s.lastW, z.walk.k, c, b);
    FindAt(c, z.bound);
    forall q ensures !Hides(s.order, s.last, Gone(z.walk.k, c[0].src), q) {}
  }
}
