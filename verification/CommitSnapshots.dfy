// Version chains against the serialization order, and what snapshots read.

module CommitSnapshots {
  import opened Basics
  import opened Tids
  import opened CommitModel
  import opened CommitStructure
  import opened CommitOrder
  import opened CommitValues

  ghost predicate VersionOk(order: Order, lastW: map<Key, int>, k: Key, v: Version) {
    && 0 <= v.src < |order| && v.src <= LastWriter(lastW, k) && order[v.src].fate == Commit && k in order[v.src].writes
    && v.tid == order[v.src].tid && v.val == order[v.src].writes[k]
  }

  // A delete below every snapshot, or nothing at all.
  ghost predicate BaseOk(order: Order, lastW: map<Key, int>, last: int, k: Key, b: int) {
    && -1 <= b <= LastWriter(lastW, k)
    && (0 <= b ==> b < |order| && order[b].fate == Commit && k in order[b].writes && order[b].writes[k] == None
                   && RoTick(order[b].tid) + 1 <= Ro(last))
  }

  // Every snapshot from now on finds on the chain the last write below its bound.
  ghost predicate Complete(order: Order, lastW: map<Key, int>, last: int, k: Key, c: seq<Version>, b: int) {
    forall q, r :: b < q <= LastWriter(lastW, k) && LiveW(order, q, k) && Ro(last) <= r && RoTick(order[q].tid) < r ==>
      Find(c, r).Some? && q <= Find(c, r).value.src
  }

  ghost predicate ChainInv(order: Order, lastW: map<Key, int>, last: int, k: Key, c: seq<Version>, b: int) {
    && BaseOk(order, lastW, last, k, b)
    && (forall i :: 0 <= i < |c| ==> VersionOk(order, lastW, k, c[i]) && b < c[i].src)
    && (forall i, j :: 0 <= i < j < |c| ==> c[j].src < c[i].src)
    && Complete(order, lastW, last, k, c, b)
  }

  ghost predicate ChainsInv(order: Order, lastW: map<Key, int>, last: int, base: map<int, int>, u: Tuples) {
    forall x :: x in u && u[x].latest ==>
      && ChainInv(order, lastW, last, u[x].key, u[x].chain, BaseOf(base, x))
      && (Marker(u[x]) ==> BaseOf(base, x) == LastWriter(lastW, u[x].key))
  }

  // val is what the transactions with read-only tick below r leave in k.
  ghost predicate ReadBelow(order: Order, r: int, k: Key, z: SnapRec) {
    && -1 <= z.src < |order|
    && (if z.src == -1 then z.val == None
        else && order[z.src].fate == Commit && k in order[z.src].writes
             && order[z.src].writes[k] == z.val && RoTick(order[z.src].tid) < r)
    && (forall q :: z.src < q && LiveW(order, q, k) ==> r <= RoTick(order[q].tid))
  }

  ghost predicate SnapsInv(order: Order, snaps: map<int, Snap>) {
    forall n, k :: n in snaps && k in snaps[n].got ==> ReadBelow(order, snaps[n].bound, k, snaps[n].got[k])
  }

  ghost predicate SnapshotInv(s: State) {
    ChainsInv(s.order, s.lastW, s.last, s.base, s.tuples) && SnapsInv(s.order, s.snaps)
  }

  lemma {:induction false} FindAt(c: seq<Version>, r: int)
    ensures Find(c, r).Some? ==> exists i :: 0 <= i < |c| && c[i] == Find(c, r).value && RoTick(c[i].tid) < r
  {
    if c != [] && RoTick(c[0].tid) >= r {
      FindAt(c[1..], r);
      if Find(c, r).Some? {
        var i :| 0 <= i < |c[1..]| && c[1..][i] == Find(c[1..], r).value && RoTick(c[1..][i].tid) < r;
        assert c[i + 1] == c[1..][i];
      }
    }
  }

  // Cutting behind a version that every snapshot at r sees changes no read at r.
  lemma {:induction false} FindCut(c: seq<Version>, i: nat, r: int)
    requires 0 < i <= |c| && RoTick(c[i - 1].tid) < r
    ensures Find(c[..i], r) == Find(c, r)
  {
    if RoTick(c[0].tid) >= r {
      assert c[..i][1..] == c[1..][..i - 1];
      FindCut(c[1..], i - 1, r);
    }
  }

  // Chain refinement: after a write at v, every read-only bound r sees v if v
  // is below r and otherwise what it saw before.
  lemma ChainRefines(c: seq<Version>, v: Version, fits: bool, r: int)
    ensures Find(NewChain(c, v, fits), r) == if RoTick(v.tid) < r then Some(v) else Find(c, r)
  {
    assert ([v] + c)[1..] == c;
    if c != [] { assert ([v] + c[1..])[1..] == c[1..]; }
  }

  lemma InstallComplete(order: Order, lastW: map<Key, int>, last: int, k: Key, c: seq<Version>, b: int, v: Version,
                        fits: bool)
    requires Complete(order, lastW, last, k, c, b) && LiveW(order, v.src, k) && v.tid == order[v.src].tid
    requires LastWriter(lastW, k) < v.src && forall q :: LastWriter(lastW, k) < q < v.src ==> !LiveW(order, q, k)
    ensures Complete(order, lastW[k := v.src], last, k, NewChain(c, v, fits), b)
  {
    forall q, r | b < q <= v.src && LiveW(order, q, k) && Ro(last) <= r && RoTick(order[q].tid) < r
      ensures Find(NewChain(c, v, fits), r).Some? && q <= Find(NewChain(c, v, fits), r).value.src
    {
      ChainRefines(c, v, fits, r);
    }
  }

  lemma InstallChain(order: Order, lastW: map<Key, int>, last: int, k: Key, c: seq<Version>, b: int, v: Version,
                     fits: bool)
    requires ChainInv(order, lastW, last, k, c, b) && LastWriter(lastW, k) < v.src
    requires VersionOk(order, lastW[k := v.src], k, v)
    requires forall q :: LastWriter(lastW, k) < q < v.src ==> !LiveW(order, q, k)
    ensures ChainInv(order, lastW[k := v.src], last, k, NewChain(c, v, fits), b)
  {
    InstallComplete(order, lastW, last, k, c, b, v, fits);
  }

  lemma OtherKey(order: Order, lastW: map<Key, int>, last: int, j: Key, c: seq<Version>, b: int, k: Key, p: int)
    requires ChainInv(order, lastW, last, j, c, b) && j != k
    ensures ChainInv(order, lastW[k := p], last, j, c, b)
  {
    assert LastWriter(lastW[k := p], j) == LastWriter(lastW, j);
  }

  // x is the only latest tuple of its key; its chain moves to z (itself or its replacement).
  lemma InstallChains(order: Order, lastW: map<Key, int>, last: int, base: map<int, int>, u: Tuples,
                      tree: map<Key, int>,
                      x: int, base': map<int, int>, u': Tuples, z: int, p: int)
    requires ChainsInv(order, lastW, last, base, u) && TreeInv(u, tree) && x in u && u[x].latest
    requires z in u' && u'[z].key == u[x].key && !Marker(u'[z])
    requires ChainInv(order, lastW[u[x].key := p], last, u[x].key, u'[z].chain, BaseOf(base', z))
    requires forall w :: w in u' && w != z && u'[w].latest ==>
      w in u && w != x && u'[w] == u[w] && BaseOf(base', w) == BaseOf(base, w)
    ensures ChainsInv(order, lastW[u[x].key := p], last, base', u')
  {
    forall w | w in u' && u'[w].latest
      ensures ChainInv(order, lastW[u[x].key := p], last, u'[w].key, u'[w].chain, BaseOf(base', w))
    {
      if w != z { OtherKey(order, lastW, last, u[w].key, u[w].chain, BaseOf(base, w), u[x].key, p); }
    }
  }

  lemma InstallerChain(s: State, t: int, x: int, fits: bool)
    requires Installer(s, t, x) && ChainsInv(s.order, s.lastW, s.last, s.base, s.tuples)
    ensures var T := s.txns[t];
      && s.tuples[x].latest
      && ChainInv(s.order, s.lastW[s.tuples[x].key := T.pos], s.last, s.tuples[x].key,
                  NewChain(s.tuples[x].chain, Version(s.order[T.pos].tid, T.writes[x], T.pos), fits), BaseOf(s.base, x))
  {
    InstallerFacts(s, t, x);
    InstallChain(s.order, s.lastW, s.last, s.tuples[x].key, s.tuples[x].chain, BaseOf(s.base, x),
                 Version(s.order[s.txns[t].pos].tid, s.txns[t].writes[x], s.txns[t].pos), fits);
  }

  lemma InstallPlaces(s: State, t: int, x: int, fits: bool, y: int)
    requires Enabled(s, Install(t, x, fits, y)) && TreeInv(s.tuples, s.tree) && s.tuples[x].latest
    requires ChainsInv(s.order, s.lastW, s.last, s.base, s.tuples)
    requires var T := s.txns[t];
      ChainInv(s.order, s.lastW[s.tuples[x].key := T.pos], s.last, s.tuples[x].key,
               NewChain(s.tuples[x].chain, Version(s.order[T.pos].tid, T.writes[x], T.pos), fits), BaseOf(s.base, x))
    ensures var s' := DoInstall(s, t, x, fits, y); ChainsInv(s'.order, s'.lastW, s'.last, s'.base, s'.tuples)
  {
    var T := s.txns[t];
    var u := s.tuples[x];
    var c := NewChain(u.chain, Version(s.order[T.pos].tid, T.writes[x], T.pos), fits);
    if InPlace(u.chain, fits) {
      InstallChains(s.order, s.lastW, s.last, s.base, s.tuples, s.tree, x, s.base, s.tuples[x := u.(chain := c)], x,
        T.pos);
    } else {
      InstallChains(s.order, s.lastW, s.last, s.base, s.tuples, s.tree, x, s.base[y := BaseOf(s.base, x)],
                    s.tuples[x := u.(latest := false)][y := Tuple(u.key, c, true, None, Away)], y, T.pos);
    }
  }

  lemma InstallSnapshots(s: State, t: int, x: int, fits: bool, y: int)
    requires Installer(s, t, x) && Enabled(s, Install(t, x, fits, y))
    requires ChainsInv(s.order, s.lastW, s.last, s.base, s.tuples)
    ensures var s' := DoInstall(s, t, x, fits, y); ChainsInv(s'.order, s'.lastW, s'.last, s'.base, s'.tuples)
  {
    InstallerChain(s, t, x, fits);
    InstallPlaces(s, t, x, fits, y);
  }

  // ---- the other steps ----

  // No latest tuple is new or has a different chain.
  lemma ChainsFrame(order: Order, lastW: map<Key, int>, last: int, base: map<int, int>, u: Tuples, u': Tuples)
    requires ChainsInv(order, lastW, last, base, u)
    requires forall x :: x in u' && u'[x].latest ==>
      x in u && u[x].latest && u'[x].key == u[x].key && u'[x].chain == u[x].chain
    ensures ChainsInv(order, lastW, last, base, u')
  {
  }

  lemma InsertChains(order: Order, lastW: map<Key, int>, u: Tuples, tree: map<Key, int>, last: int,
                     base: map<int, int>, k: Key, x: int, t: int)
    requires ChainsInv(order, lastW, last, base, u) && SyncInv(order, lastW, u, tree, last) && k !in tree && x !in u
    ensures ChainsInv(order, lastW, last, base[x := LastWriter(lastW, k)], u[x := Tuple(k, [], true, Some(t), Away)])
  {
    var b := LastWriter(lastW, k);
    assert ChainInv(order, lastW, last, k, [], b);
    forall w | w in u && u[w].latest ensures BaseOf(base[x := b], w) == BaseOf(base, w) {}
  }

  lemma CutChain(order: Order, lastW: map<Key, int>, last: int, k: Key, c: seq<Version>, b: int, i: nat)
    requires ChainInv(order, lastW, last, k, c, b) && 0 < i <= |c| && RoTick(c[i - 1].tid) + 1 <= Ro(last)
    ensures ChainInv(order, lastW, last, k, c[..i], b)
  {
    forall q, r | b < q <= LastWriter(lastW, k) && LiveW(order, q, k) && Ro(last) <= r && RoTick(order[q].tid) < r
      ensures Find(c[..i], r).Some? && q <= Find(c[..i], r).value.src
    {
      FindCut(c, i, r);
    }
  }

  lemma CutChains(s: State, x: int, i: nat)
    requires ChainsInv(s.order, s.lastW, s.last, s.base, s.tuples) && Enabled(s, Cut(x, i))
    ensures ChainsInv(s.order, s.lastW, s.last, s.base, s.tuples[x := s.tuples[x].(chain := s.tuples[x].chain[..i])])
  {
    if s.tuples[x].latest {
      CutChain(s.order, s.lastW, s.last, s.tuples[x].key, s.tuples[x].chain, BaseOf(s.base, x), i);
    }
  }

  lemma ClockChain(order: Order, lastW: map<Key, int>, last: int, last': int, k: Key, c: seq<Version>, b: int)
    requires ChainInv(order, lastW, last, k, c, b) && last <= last'
    ensures ChainInv(order, lastW, last', k, c, b)
  {
  }

  lemma ClockChains(order: Order, lastW: map<Key, int>, last: int, last': int, base: map<int, int>, u: Tuples)
    requires ChainsInv(order, lastW, last, base, u) && last <= last'
    ensures ChainsInv(order, lastW, last', base, u)
  {
    forall x | x in u && u[x].latest ensures ChainInv(order, lastW, last', u[x].key, u[x].chain, BaseOf(base, x)) {
      ClockChain(order, lastW, last, last', u[x].key, u[x].chain, BaseOf(base, x));
    }
  }

  // The order grows, or settles an open entry: chains only mention installed writers.
  ghost predicate Grows(order: Order, order': Order, n: int) {
    && n <= |order| <= |order'|
    && (forall q :: 0 <= q < n && order[q].fate == Commit ==> order'[q] == order[q])
    && (forall q, k :: q < n && LiveW(order', q, k) ==> LiveW(order, q, k) && order'[q].tid == order[q].tid)
  }

  lemma GrowChain(order: Order, order': Order, lastW: map<Key, int>, last: int, k: Key, c: seq<Version>, b: int)
    requires ChainInv(order, lastW, last, k, c, b) && LastWriter(lastW, k) < |order| && Grows(order, order', |order|)
    ensures ChainInv(order', lastW, last, k, c, b)
  {
  }

  lemma GrowChains(order: Order, order': Order, lastW: map<Key, int>, last: int, base: map<int, int>, u: Tuples)
    requires ChainsInv(order, lastW, last, base, u) && Grows(order, order', |order|)
    requires forall k :: k in lastW ==> lastW[k] < |order|
    ensures ChainsInv(order', lastW, last, base, u)
  {
    forall x | x in u && u[x].latest ensures ChainInv(order', lastW, last, u[x].key, u[x].chain, BaseOf(base, x)) {
      GrowChain(order, order', lastW, last, u[x].key, u[x].chain, BaseOf(base, x));
    }
  }

  lemma GrowSnaps(order: Order, order': Order, snaps: map<int, Snap>)
    requires SnapsInv(order, snaps) && Grows(order, order', |order|)
    requires forall n, q, k :: n in snaps && |order| <= q && LiveW(order', q, k) ==>
      snaps[n].bound <= RoTick(order'[q].tid)
    ensures SnapsInv(order', snaps)
  {
    forall n, k | n in snaps && k in snaps[n].got ensures ReadBelow(order', snaps[n].bound, k, snaps[n].got[k]) {
      assert ReadBelow(order, snaps[n].bound, k, snaps[n].got[k]);
    }
  }

  // ---- snapshot reads ----

  // A writer still holding locks runs in an epoch after the last completed tick.
  lemma PendingIsRecent(s: State, q: int, k: Key)
    requires Inv(s) && LiveW(s.order, q, k) && LastWriter(s.lastW, k) < q
    ensures Ro(s.last + 1) <= RoTick(s.order[q].tid)
  {
    var t := s.order[q].t;
    var x := s.tree[k];
    assert s.tuples[x].owner == Some(t);
    assert x in s.txns[t].locked && !Finished(s.txns[t]);
    assert Placed(s.order, t, s.txns[t]);
  }

  // What a walk that has c before it ends with.
  function Seen(c: seq<Version>, b: int, r: int): SnapRec {
    match Find(c, r)
    case Some(v) => SnapRec(v.val, v.src)
    case None => SnapRec(None, b)
  }

  // What a walk of k's chain at bound r ends with is the last write below r.
  lemma WalkOk(order: Order, lastW: map<Key, int>, last: int, k: Key, c: seq<Version>, b: int, r: int)
    requires ChainInv(order, lastW, last, k, c, b) && Ro(last) <= r
    requires forall q :: LastWriter(lastW, k) < q && LiveW(order, q, k) ==> r <= RoTick(order[q].tid)
    ensures ReadBelow(order, r, k, Seen(c, b, r))
  {
    FindAt(c, r);
  }

  // Where a search begins, the walk it begins ends with the last write below
  // the bound; a key that is not in the tree was last deleted below it.
  lemma FetchOk(s: State, n: int, k: Key)
    requires Inv(s) && ChainsInv(s.order, s.lastW, s.last, s.base, s.tuples) && Enabled(s, SnapFetch(n, k))
    ensures k in s.tree ==> s.tree[k] in s.tuples
    ensures ReadBelow(s.order, s.snaps[n].bound, k,
      if k in s.tree then Seen(s.tuples[s.tree[k]].chain, BaseOf(s.base, s.tree[k]), s.snaps[n].bound)
      else SnapRec(None, LastWriter(s.lastW, k)))
  {
    var r := s.snaps[n].bound;
    assert Ro(s.last) <= Ro(s.snaps[n].tick - 1) <= r <= Ro(s.last + 1);
    forall q | LastWriter(s.lastW, k) < q && LiveW(s.order, q, k) ensures r <= RoTick(s.order[q].tid) {
      PendingIsRecent(s, q, k);
    }
    if k in s.tree {
      WalkOk(s.order, s.lastW, s.last, k, s.tuples[s.tree[k]].chain, BaseOf(s.base, s.tree[k]), r);
    }
  }

  // ---- walks under way ----

  // What the walk of z will end with is the last write below its bound.
  ghost predicate AnswerOk(s: State, z: Snap) {
    z.open && !z.walk.Idle? ==>
      && (z.walk.AtTuple? ==> z.walk.x in s.tuples && s.tuples[z.walk.x].key == z.walk.k)
      && ReadBelow(s.order, z.bound, z.walk.k, Seen(Remaining(s, z.walk), Bottom(s, z.walk), z.bound))
  }

  // One tuple further the walk has the same end; at its end that is what it has read.
  lemma HopAnswer(z: Snap, c: seq<Version>, b: int)
    requires !z.walk.Idle?
    ensures var z' := Hop(z, c, b);
      if z'.walk.Idle? then z'.got == z.got[z.walk.k := Seen(c, b, z.bound)]
      else && z'.got == z.got && z'.walk.AtRest? && z'.walk.k == z.walk.k
           && Seen(z'.walk.rest, z'.walk.base, z.bound) == Seen(c, b, z.bound)
  {
  }
}
