// What tuples hold, against what the serialization order says they should hold.

module CommitValues {
  import opened Basics
  import opened Tids
  import opened CommitModel
  import opened CommitStructure
  import opened CommitOrder

  // Entry q writes k and has not aborted.
  predicate LiveW(order: Order, q: int, k: Key) {
    0 <= q < |order| && order[q].fate != Abort && k in order[q].writes
  }

  // A live writer that has not installed k yet holds the lock of k's tuple.
  ghost predicate PendingInv(order: Order, lastW: map<Key, int>, u: Tuples, tree: map<Key, int>) {
    forall q, k :: LiveW(order, q, k) && LastWriter(lastW, k) < q ==>
      k in tree && tree[k] in u && u[tree[k]].owner == Some(order[q].t)
  }

  // The current record of a key is the last installed write; a key that is
  // missing or a mere marker was last deleted, below every snapshot.
  ghost predicate SyncInv(order: Order, lastW: map<Key, int>, u: Tuples, tree: map<Key, int>, last: int) {
    && (forall k :: k in lastW ==>
      0 <= lastW[k] < |order| && order[lastW[k]].fate == Commit && k in order[lastW[k]].writes)
    && (forall k :: k in tree && tree[k] in u && !Marker(u[tree[k]]) ==>
          && k in lastW && 0 <= lastW[k] < |order| && k in order[lastW[k]].writes
          && u[tree[k]].chain[0] == Version(order[lastW[k]].tid, order[lastW[k]].writes[k], lastW[k]))
    && (forall k :: k in lastW && (k !in tree || (tree[k] in u && Marker(u[tree[k]]))) ==>
          && 0 <= lastW[k] < |order| && k in order[lastW[k]].writes
          && order[lastW[k]].writes[k] == None && RoTick(order[lastW[k]].tid) + 1 <= Ro(last))
  }

  ghost predicate TopTid(order: Order, lastW: map<Key, int>, u: Tuples) {
    forall x :: x in u && !Marker(u[x]) ==>
      && u[x].key in lastW && 0 <= lastW[u[x].key] < |order|
      && 0 < u[x].chain[0].tid <= order[lastW[u[x].key]].tid
  }

  // TIDs strictly increase along the writers of one key.
  ghost predicate KeyOrder(order: Order) {
    forall i, j, k :: LiveW(order, i, k) && LiveW(order, j, k) && i < j ==> order[i].tid < order[j].tid
  }

  ghost predicate Ahead(order: Order, lastW: map<Key, int>, u: Tuples, T: Txn) {
    Live(T) && 0 <= T.pos < |order| ==> forall x :: x in T.writes && x in u ==>
      if T.phase.Installing? && x !in T.pending then T.pos <= LastWriter(lastW, u[x].key)
      else LastWriter(lastW, u[x].key) < T.pos && (!Marker(u[x]) ==> u[x].chain[0].tid < order[T.pos].tid)
  }

  // A read is of a record the tuple held; while the TID is the same so is the value.
  ghost predicate ReadInv(u: Tuples, T: Txn) {
    forall r :: r in T.seen && r.x in u ==>
      if Marker(u[r.x]) then r.tid == 0
      else 0 <= r.tid <= u[r.x].chain[0].tid && (r.tid == u[r.x].chain[0].tid ==> r.val == u[r.x].chain[0].val)
  }

  // Writers ordered after T have TIDs above what T read.
  ghost predicate LaterInv(order: Order, T: Txn) {
    T.phase.Validating? ==> forall r, q :: r in T.seen && T.pos < q && LiveW(order, q, r.key) ==> r.tid < order[q].tid
  }

  ghost predicate UnchangedLeaf(vers: map<int, int>, T: Txn, k: Key) {
    k in T.missing && k.leaf in T.nodes && T.nodes[k.leaf] == VersionOf(vers, k.leaf)
  }

  // While its leaf is unchanged, a key not found stays out of the tree, except for T's own marker.
  ghost predicate AbsentInv(u: Tuples, tree: map<Key, int>, vers: map<int, int>, t: int, T: Txn) {
    !T.phase.Installing? && !T.phase.Aborting? ==>
      forall k :: UnchangedLeaf(vers, T, k) && k in tree && tree[k] in u ==>
        Marker(u[tree[k]]) && u[tree[k]].owner == Some(t)
  }

  ghost predicate NoLaterInv(order: Order, vers: map<int, int>, T: Txn) {
    T.phase.Validating? ==> forall k, q :: UnchangedLeaf(vers, T, k) && T.pos < q ==> !LiveW(order, q, k)
  }

  // val is what the transactions before position p leave in k: src wrote it, nobody after src did.
  ghost predicate ReadOk(order: Order, p: int, k: Key, val: Option<Value>, src: int) {
    && -1 <= src < p <= |order|
    && (if src == -1 then val == None
        else order[src].fate == Commit && k in order[src].writes && order[src].writes[k] == val)
    && (forall q :: src < q < p ==> !LiveW(order, q, k))
  }

  ghost predicate OkInv(order: Order, T: Txn) {
    if !Live(T) then T.phase.Aborting? || (T.okSeen == map[] && T.okMissing == map[] && T.okNodes == {})
    else
      && (forall r :: r in T.okSeen ==> ReadOk(order, T.pos, r.key, r.val, T.okSeen[r]))
      && (forall k :: k in T.okMissing ==> ReadOk(order, T.pos, k, None, T.okMissing[k]))
      && (forall k :: k in T.missing && k.leaf in T.okNodes ==> k in T.okMissing)
      && (T.phase.Installing? ==> T.seen <= T.okSeen.Keys + T.stale.Keys && T.nodes.Keys <= T.okNodes)
  }

  ghost predicate TxnValues(s: State, t: int, T: Txn) {
    && Ahead(s.order, s.lastW, s.tuples, T) && ReadInv(s.tuples, T) && LaterInv(s.order, T)
    && AbsentInv(s.tuples, s.tree, s.vers, t, T) && NoLaterInv(s.order, s.vers, T) && OkInv(s.order, T)
  }

  ghost predicate ValueInv(s: State) {
    && PendingInv(s.order, s.lastW, s.tuples, s.tree)
    && SyncInv(s.order, s.lastW, s.tuples, s.tree, s.last)
    && TopTid(s.order, s.lastW, s.tuples) && KeyOrder(s.order)
    && (forall t :: t in s.txns ==> TxnValues(s, t, s.txns[t]))
  }

  ghost predicate Inv(s: State) { StructInv(s) && OrderInv(s) && ClockInv(s) && ValueInv(s) }

  // ---- the lock point ----

  // What the lock point needs to know.
  ghost predicate Ready(s: State, t: int, tid: int) {
    && Enabled(s, TakeTid(t, tid)) && TreeInv(s.tuples, s.tree) && Local(s.tuples, s.vers, t, s.txns[t])
    && SyncInv(s.order, s.lastW, s.tuples, s.tree, s.last) && s.last < s.cur
    && PendingInv(s.order, s.lastW, s.tuples, s.tree) && KeyOrder(s.order)
    && EntriesInv(s.order, s.txns) && s.txns[t].pos == -1
  }

  lemma LockedHead(s: State, t: int, tid: int, k: Key)
    requires Ready(s, t, tid) && k in s.txns[t].byKey
    ensures s.txns[t].byKey[k] in s.tuples && k in s.tree && s.tree[k] == s.txns[t].byKey[k]
    ensures s.tuples[s.tree[k]].owner == Some(t) && s.tree[k] in s.txns[t].writes
  {
    assert Untouched(s.txns[t], s.txns[t].byKey[k]);
  }

  // The new TID is above the last write of every key the transaction is about to write.
  lemma TidTops(s: State, t: int, tid: int, k: Key)
    requires Ready(s, t, tid) && k in s.txns[t].byKey && k in s.lastW
    ensures 0 <= s.lastW[k] < |s.order| && s.order[s.lastW[k]].tid < tid
  {
    LockedHead(s, t, tid, k);
    var x := s.tuples[s.tree[k]];
    if Marker(x) { assert RoTick(s.order[s.lastW[k]].tid) + 1 <= Ro(s.last); }
  }

  // So no earlier live writer of k is still pending, and all have smaller TIDs.
  lemma WritersBelow(s: State, t: int, tid: int, k: Key, q: int)
    requires Ready(s, t, tid) && k in s.txns[t].byKey && LiveW(s.order, q, k)
    ensures k in s.lastW && q <= s.lastW[k] && s.order[q].tid < tid
  {
    LockedHead(s, t, tid, k);
    TidTops(s, t, tid, k);
    if q < s.lastW[k] { assert LiveW(s.order, s.lastW[k], k); }
  }

  lemma TakeTidKeyOrder(s: State, t: int, tid: int)
    requires Ready(s, t, tid)
    ensures KeyOrder(DoTakeTid(s, t, tid).order)
  {
    var o := DoTakeTid(s, t, tid).order;
    forall i, j, k | LiveW(o, i, k) && LiveW(o, j, k) && i < j ensures o[i].tid < o[j].tid {
      assert LiveW(s.order, i, k);
      if j == |s.order| { WritersBelow(s, t, tid, k, i); } else { assert LiveW(s.order, j, k); }
    }
  }

  lemma TakeTidPending(s: State, t: int, tid: int)
    requires Ready(s, t, tid)
    ensures PendingInv(DoTakeTid(s, t, tid).order, s.lastW, s.tuples, s.tree)
  {
    var o := DoTakeTid(s, t, tid).order;
    forall q, k | LiveW(o, q, k) && LastWriter(s.lastW, k) < q
      ensures k in s.tree && s.tree[k] in s.tuples && s.tuples[s.tree[k]].owner == Some(o[q].t)
    {
      if q == |s.order| { LockedHead(s, t, tid, k); } else { assert LiveW(s.order, q, k); }
    }
  }

  lemma TakeTidSync(s: State, t: int, tid: int)
    requires Ready(s, t, tid) && TopTid(s.order, s.lastW, s.tuples)
    ensures SyncInv(DoTakeTid(s, t, tid).order, s.lastW, s.tuples, s.tree, s.last)
    ensures TopTid(DoTakeTid(s, t, tid).order, s.lastW, s.tuples)
  {
  }

  // Appending an entry keeps what another transaction knows, if its TID tops
  // that transaction's reads and it stays off the leaves found unchanged.
  lemma AppendReads(order: Order, e: Entry, T: Txn)
    requires LaterInv(order, T) && OkInv(order, T)
    requires T.phase.Validating? ==> forall r :: r in T.seen && r.key in e.writes ==> r.tid < e.tid
    ensures LaterInv(order + [e], T) && OkInv(order + [e], T)
  {
    var o := order + [e];
    forall q, k | LiveW(o, q, k) && q < |order| ensures LiveW(order, q, k) {}
    if Live(T) {
      forall r | r in T.okSeen ensures ReadOk(o, T.pos, r.key, r.val, T.okSeen[r]) {
        assert ReadOk(order, T.pos, r.key, r.val, T.okSeen[r]);
      }
      forall k | k in T.okMissing ensures ReadOk(o, T.pos, k, None, T.okMissing[k]) {
        assert ReadOk(order, T.pos, k, None, T.okMissing[k]);
      }
    }
  }

  lemma AppendAbsent(order: Order, e: Entry, vers: map<int, int>, T: Txn)
    requires NoLaterInv(order, vers, T)
    requires T.phase.Validating? ==> forall k :: UnchangedLeaf(vers, T, k) ==> k !in e.writes
    ensures NoLaterInv(order + [e], vers, T)
  {
    if T.phase.Validating? {
      forall k, q | UnchangedLeaf(vers, T, k) && T.pos < q ensures !LiveW(order + [e], q, k) {
        assert !LiveW(order, q, k);
      }
    }
  }

  lemma AppendAhead(order: Order, e: Entry, lastW: map<Key, int>, u: Tuples, t: int, T: Txn)
    requires Ahead(order, lastW, u, T) && Placed(order, t, T)
    ensures Ahead(order + [e], lastW, u, T)
  {
  }

  lemma TakeTidOthers(s: State, t: int, tid: int, o: int)
    requires Ready(s, t, tid) && TopTid(s.order, s.lastW, s.tuples)
    requires o in s.txns && o != t && TxnValues(s, o, s.txns[o]) && Placed(s.order, o, s.txns[o])
    requires Sets(s.tuples, s.txns[o])
    ensures TxnValues(DoTakeTid(s, t, tid), o, s.txns[o])
  {
    var T := s.txns[o];
    var e := DoTakeTid(s, t, tid).order[|s.order|];
    forall r | r in T.seen && r.key in e.writes ensures r.tid < tid {
      if r.key in s.lastW { TidTops(s, t, tid, r.key); }
      assert r.x in s.tuples;
    }
    forall k | T.phase.Validating? && UnchangedLeaf(s.vers, T, k) ensures k !in e.writes {
      if k in e.writes { LockedHead(s, t, tid, k); }
    }
    AppendReads(s.order, e, T);
    AppendAbsent(s.order, e, s.vers, T);
    AppendAhead(s.order, e, s.lastW, s.tuples, o, T);
  }

  lemma TakeTidOwn(s: State, t: int, tid: int)
    requires Ready(s, t, tid) && TxnValues(s, t, s.txns[t])
    ensures TxnValues(DoTakeTid(s, t, tid), t, DoTakeTid(s, t, tid).txns[t])
  {
    var s' := DoTakeTid(s, t, tid);
    forall x | x in s.txns[t].writes && x in s.tuples ensures LastWriter(s.lastW, s.tuples[x].key) < |s.order| {}
  }

  lemma TakeTidValues(s: State, t: int, tid: int)
    requires Inv(s) && Enabled(s, TakeTid(t, tid))
    ensures ValueInv(DoTakeTid(s, t, tid))
  {
    var s' := DoTakeTid(s, t, tid);
    assert Local(s.tuples, s.vers, t, s.txns[t]) && Placed(s.order, t, s.txns[t]);
    TakeTidKeyOrder(s, t, tid);
    TakeTidPending(s, t, tid);
    TakeTidSync(s, t, tid);
    TakeTidOwn(s, t, tid);
    forall o | o in s.txns && o != t ensures TxnValues(s', o, s.txns[o]) {
      assert Local(s.tuples, s.vers, o, s.txns[o]) && Placed(s.order, o, s.txns[o]);
      TakeTidOthers(s, t, tid, o);
    }
  }

  // ---- validation ----

  // Settling an open entry only removes live writers.
  predicate Settled(order: Order, order': Order, p: int, f: Fate) {
    0 <= p < |order| && order[p].fate == Open && f != Open && order' == order[p := order[p].(fate := f)]
  }

  lemma SettleLive(order: Order, order': Order, p: int, f: Fate, q: int, k: Key)
    requires Settled(order, order', p, f)
    ensures LiveW(order', q, k) ==> LiveW(order, q, k) && order'[q].tid == order[q].tid && order'[q].t == order[q].t
  {
  }

  lemma SettleShared(order: Order, order': Order, p: int, f: Fate, lastW: map<Key, int>, u: Tuples,
                     tree: map<Key, int>, last: int)
    requires Settled(order, order', p, f) && PendingInv(order, lastW, u, tree) && SyncInv(order, lastW, u, tree, last)
    requires TopTid(order, lastW, u) && KeyOrder(order)
    ensures PendingInv(order', lastW, u, tree) && SyncInv(order', lastW, u, tree, last)
    ensures TopTid(order', lastW, u) && KeyOrder(order')
  {
    forall q, k | LiveW(order', q, k) ensures LiveW(order, q, k) { SettleLive(order, order', p, f, q, k); }
  }

  lemma SettleOk(order: Order, order': Order, p: int, f: Fate, pos: int, k: Key, val: Option<Value>, src: int)
    requires Settled(order, order', p, f) && ReadOk(order, pos, k, val, src)
    ensures ReadOk(order', pos, k, val, src)
  {
    forall q | src < q < pos ensures !LiveW(order', q, k) { SettleLive(order, order', p, f, q, k); }
  }

  lemma SettleTxn(order: Order, order': Order, p: int, f: Fate, lastW: map<Key, int>, u: Tuples, vers: map<int, int>,
                  T: Txn)
    requires Settled(order, order', p, f)
    requires Ahead(order, lastW, u, T) && LaterInv(order, T) && NoLaterInv(order, vers, T) && OkInv(order, T)
    ensures Ahead(order', lastW, u, T) && LaterInv(order', T) && NoLaterInv(order', vers, T) && OkInv(order', T)
  {
    forall q, k | LiveW(order', q, k) ensures LiveW(order, q, k) { SettleLive(order, order', p, f, q, k); }
    if Live(T) {
      forall r | r in T.okSeen ensures ReadOk(order', T.pos, r.key, r.val, T.okSeen[r]) {
        SettleOk(order, order', p, f, T.pos, r.key, r.val, T.okSeen[r]);
      }
      forall k | k in T.okMissing ensures ReadOk(order', T.pos, k, None, T.okMissing[k]) {
        SettleOk(order, order', p, f, T.pos, k, None, T.okMissing[k]);
      }
    }
  }

  // Both outcomes of validation.
  ghost predicate Settles(s: State, s': State, t: int, f: Fate) {
    && In(s, t, Validating) && t in s'.txns && s'.txns == s.txns[t := s'.txns[t]]
    && Settled(s.order, s'.order, s.txns[t].pos, f)
    && (if f == Commit then
          && s'.txns[t] == s.txns[t].(phase := Installing, pending := s.txns[t].writes.Keys)
          && s.txns[t].seen <= s.txns[t].okSeen.Keys + s.txns[t].stale.Keys
          && s.txns[t].nodes.Keys <= s.txns[t].okNodes
        else s'.txns[t] == s.txns[t].(phase := Aborting))
    && s'.tuples == s.tuples && s'.tree == s.tree && s'.vers == s.vers && s'.snaps == s.snaps && s'.coreTid == s.coreTid
    && s'.cur == s.cur && s'.last == s.last && s'.lastW == s.lastW && s'.base == s.base
  }

  lemma SettleOwn(s: State, s': State, t: int, f: Fate)
    requires Settles(s, s', t, f) && TxnValues(s, t, s.txns[t])
    ensures TxnValues(s', t, s'.txns[t])
  {
    SettleTxn(s.order, s'.order, s.txns[t].pos, f, s.lastW, s.tuples, s.vers, s.txns[t]);
  }

  lemma SettleOther(s: State, s': State, t: int, f: Fate, o: int)
    requires Settles(s, s', t, f) && o in s.txns && o != t && TxnValues(s, o, s.txns[o])
    ensures TxnValues(s', o, s.txns[o])
  {
    SettleTxn(s.order, s'.order, s.txns[t].pos, f, s.lastW, s.tuples, s.vers, s.txns[o]);
  }

  lemma SettleValues(s: State, s': State, t: int, f: Fate)
    requires ValueInv(s) && Settles(s, s', t, f)
    ensures ValueInv(s')
  {
    SettleShared(s.order, s'.order, s.txns[t].pos, f, s.lastW, s.tuples, s.tree, s.last);
    SettleOwn(s, s', t, f);
    forall o | o in s.txns && o != t ensures TxnValues(s', o, s.txns[o]) { SettleOther(s, s', t, f, o); }
  }

  // What is known of a validating transaction.
  ghost predicate Validator(s: State, t: int) {
    && In(s, t, Validating) && Placed(s.order, t, s.txns[t]) && TreeInv(s.tuples, s.tree)
    && SyncInv(s.order, s.lastW, s.tuples, s.tree, s.last) && PendingInv(s.order, s.lastW, s.tuples, s.tree)
    && EntriesInv(s.order, s.txns)
  }

  // Nobody before T is still about to write k, unless T itself holds k's lock.
  lemma NoPendingBefore(s: State, t: int, k: Key)
    requires Validator(s, t)
    requires k in s.tree ==> s.tuples[s.tree[k]].owner == None || s.tuples[s.tree[k]].owner == Some(t)
    ensures forall q :: LastWriter(s.lastW, k) < q < s.txns[t].pos ==> !LiveW(s.order, q, k)
  {
    forall q | LastWriter(s.lastW, k) < q < s.txns[t].pos ensures !LiveW(s.order, q, k) {}
  }

  // A read that passes validation on a tuple in the tree saw what the
  // transactions ordered before T leave.
  lemma ReadValidated(s: State, t: int, r: ReadRec)
    requires Validator(s, t) && r in s.txns[t].seen && ReadValid(s, s.txns[t], r) && s.tuples[r.x].latest
    requires Sets(s.tuples, s.txns[t]) && Phases(s.tuples, s.txns[t]) && Locks(s.tuples, t, s.txns[t])
    requires ReadInv(s.tuples, s.txns[t]) && LaterInv(s.order, s.txns[t])
    ensures ReadOk(s.order, s.txns[t].pos, r.key, r.val, LastWriter(s.lastW, r.key))
  {
    var k := r.key;
    assert k in s.tree && s.tree[k] == r.x;
    assert LiveW(s.order, s.lastW[k], k);
    NoPendingBefore(s, t, k);
  }

  // A lookup that found nothing and whose leaf is unchanged: nothing was there.
  lemma MissingValidated(s: State, t: int, k: Key)
    requires Validator(s, t) && UnchangedLeaf(s.vers, s.txns[t], k)
    requires AbsentInv(s.tuples, s.tree, s.vers, t, s.txns[t]) && NoLaterInv(s.order, s.vers, s.txns[t])
    ensures ReadOk(s.order, s.txns[t].pos, k, None, LastWriter(s.lastW, k))
  {
    if k in s.lastW { assert LiveW(s.order, s.lastW[k], k); }
    NoPendingBefore(s, t, k);
  }

  lemma OkKin(s: State, t: int, T: Txn, T': Txn)
    requires TxnValues(s, t, T) && OkInv(s.order, T')
    requires T' == T.(okSeen := T'.okSeen, okNodes := T'.okNodes, okMissing := T'.okMissing, stale := T'.stale)
    ensures TxnValues(s, t, T')
  {
    forall k | UnchangedLeaf(s.vers, T', k) ensures UnchangedLeaf(s.vers, T, k) {}
  }

  // A read that passes on a tuple taken out of the tree, while no other has its
  // key: nobody has written the key since it was last deleted.
  lemma AbsentValidated(s: State, t: int, r: ReadRec)
    requires Validator(s, t) && r in s.txns[t].seen && ReadValid(s, s.txns[t], r) && r.key !in s.tree
    requires Sets(s.tuples, s.txns[t]) && ReadInv(s.tuples, s.txns[t]) && Expired(s.tuples[r.x], s.last)
    requires EpochInv(s.order, s.cur) && s.last < s.order[s.txns[t].pos].epoch
    ensures ReadOk(s.order, s.txns[t].pos, r.key, r.val, LastWriter(s.lastW, r.key))
  {
    var k := r.key;
    if k in s.lastW { ExpiredEarlier(s.order, s.cur, s.last, s.lastW[k], s.txns[t].pos); }
    NoPendingBefore(s, t, k);
  }

  // What a read that passes needs to be right.
  ghost predicate ReadCurrent(s: State, t: int, r: ReadRec)
    requires r.x in s.tuples && t in s.txns
  {
    && !Superseded(s, r) && EpochInv(s.order, s.cur)
    && (!s.tuples[r.x].latest ==>
          Expired(s.tuples[r.x], s.last) && 0 <= s.txns[t].pos < |s.order| && s.last < s.order[s.txns[t].pos].epoch)
  }

  lemma CheckReadOk(s: State, t: int, r: ReadRec, T': Txn)
    requires Validator(s, t) && r in s.txns[t].seen && ReadValid(s, s.txns[t], r) && ReadCurrent(s, t, r)
    requires Local(s.tuples, s.vers, t, s.txns[t]) && TxnValues(s, t, s.txns[t])
    requires T' == s.txns[t].(okSeen := s.txns[t].okSeen[r := LastWriter(s.lastW, r.key)])
    ensures TxnValues(s, t, T')
  {
    if s.tuples[r.x].latest { ReadValidated(s, t, r); } else { AbsentValidated(s, t, r); }
    OkKin(s, t, s.txns[t], T');
  }

  lemma CurrentRead(s: State, t: int, r: ReadRec)
    requires OrderInv(s) && ClockInv(s) && In(s, t, Validating) && r.x in s.tuples && !Superseded(s, r)
    requires !s.tuples[r.x].latest ==> Expired(s.tuples[r.x], s.last)
    ensures ReadCurrent(s, t, r)
  {
    assert Placed(s.order, t, s.txns[t]);
  }

  lemma CheckReadLatest(s: State, t: int, r: ReadRec)
    requires Inv(s) && Enabled(s, CheckRead(t, r)) && ReadValid(s, s.txns[t], r) && !Superseded(s, r)
    requires !s.tuples[r.x].latest ==> Expired(s.tuples[r.x], s.last)
    ensures ValueInv(DoCheckRead(s, t, r))
  {
    var T := s.txns[t];
    var T' := T.(okSeen := T.okSeen[r := LastWriter(s.lastW, r.key)]);
    CurrentRead(s, t, r);
    assert TxnValues(s, t, T') by {
      assert Local(s.tuples, s.vers, t, T) && Placed(s.order, t, T) && TxnValues(s, t, T);
      CheckReadOk(s, t, r, T');
    }
    OwnValues(s, t, T');
  }

  lemma CheckReadStale(s: State, t: int, r: ReadRec)
    requires ValueInv(s) && Enabled(s, CheckRead(t, r)) && ReadValid(s, s.txns[t], r) && Superseded(s, r)
    ensures ValueInv(DoCheckRead(s, t, r))
  {
    var T := s.txns[t];
    var T' := T.(stale := T.stale[r := s.tuples[r.x].chain[0].src]);
    assert TxnValues(s, t, T);
    OkKin(s, t, T, T');
    OwnValues(s, t, T');
  }

  lemma CheckReadValues(s: State, t: int, r: ReadRec)
    requires Inv(s) && Enabled(s, CheckRead(t, r)) && ReadValid(s, s.txns[t], r)
    requires !s.tuples[r.x].latest ==> Expired(s.tuples[r.x], s.last)
    ensures ValueInv(DoCheckRead(s, t, r))
  {
    if Superseded(s, r) { CheckReadStale(s, t, r); } else { CheckReadLatest(s, t, r); }
  }

  lemma CheckNodeOk(s: State, t: int, n: int)
    requires Validator(s, t) && Enabled(s, CheckNode(t, n)) && s.txns[t].nodes[n] == VersionOf(s.vers, n)
    requires AbsentInv(s.tuples, s.tree, s.vers, t, s.txns[t]) && NoLaterInv(s.order, s.vers, s.txns[t])
    requires OkInv(s.order, s.txns[t])
    ensures OkInv(s.order, DoCheckNode(s, t, n).txns[t])
  {
    var T := s.txns[t];
    forall k | k in T.missing && k.leaf == n ensures ReadOk(s.order, T.pos, k, None, LastWriter(s.lastW, k)) {
      MissingValidated(s, t, k);
    }
  }

  lemma CheckNodeValues(s: State, t: int, n: int)
    requires Inv(s) && Enabled(s, CheckNode(t, n)) && s.txns[t].nodes[n] == VersionOf(s.vers, n)
    ensures ValueInv(DoCheckNode(s, t, n))
  {
    assert Placed(s.order, t, s.txns[t]) && TxnValues(s, t, s.txns[t]);
    CheckNodeOk(s, t, n);
    OwnValues(s, t, DoCheckNode(s, t, n).txns[t]);
  }

  // ---- steps that change only the transaction's own record ----

  lemma OwnValues(s: State, t: int, T: Txn)
    requires ValueInv(s) && TxnValues(s, t, T)
    ensures ValueInv(SetTxn(s, t, T))
  {
    var s' := SetTxn(s, t, T);
    forall o | o in s'.txns ensures TxnValues(s', o, s'.txns[o]) {
      if o != t { assert TxnValues(s, o, s.txns[o]); }
    }
  }

  // Before the lock point only what was read matters.
  predicate EarlyKin(T: Txn, T': Txn) {
    && !Live(T) && !T.phase.Aborting? && !Live(T') && T'.seen == T.seen && T'.nodes == T.nodes
    && T'.missing == T.missing
    && T'.okSeen == T.okSeen && T'.okNodes == T.okNodes && T'.okMissing == T.okMissing
  }

  lemma EarlyValues(s: State, t: int, T: Txn)
    requires ValueInv(s) && t in s.txns && EarlyKin(s.txns[t], T)
    ensures ValueInv(SetTxn(s, t, T))
  {
    assert TxnValues(s, t, s.txns[t]);
    forall k | UnchangedLeaf(s.vers, T, k) ensures UnchangedLeaf(s.vers, s.txns[t], k) {}
    OwnValues(s, t, T);
  }

  lemma BeginValues(s: State, t: int, core: int, tick: int)
    requires ValueInv(s)
    ensures ValueInv(SetTxn(s, t, NewTxn(core, tick)))
  {
    OwnValues(s, t, NewTxn(core, tick));
  }

  lemma ReadValues(s: State, t: int, x: int)
    requires ValueInv(s) && Enabled(s, Read(t, x))
    ensures ValueInv(DoRead(s, t, x))
  {
    var T := DoRead(s, t, x).txns[t];
    assert TxnValues(s, t, s.txns[t]);
    forall k | UnchangedLeaf(s.vers, T, k) ensures UnchangedLeaf(s.vers, s.txns[t], k) {}
    OwnValues(s, t, T);
  }

  lemma MissingKin(s: State, t: int, T: Txn, T': Txn)
    requires TxnValues(s, t, T) && T.phase.Active?
    requires T' == T.(nodes := T'.nodes, missing := T'.missing)
    requires forall k :: UnchangedLeaf(s.vers, T', k) && k in s.tree ==> UnchangedLeaf(s.vers, T, k)
    ensures TxnValues(s, t, T')
  {
  }

  lemma ReadMissingValues(s: State, t: int, k: Key)
    requires ValueInv(s) && Enabled(s, ReadMissing(t, k)) && Nodes(s.vers, s.txns[t].nodes, s.txns[t].missing)
    ensures ValueInv(DoReadMissing(s, t, k))
  {
    var T := s.txns[t];
    if k.leaf in T.nodes && T.nodes[k.leaf] != VersionOf(s.vers, k.leaf) {
      EarlyValues(s, t, T.(phase := Aborting));
    } else {
      var T' := T.(nodes := T.nodes[k.leaf := VersionOf(s.vers, k.leaf)], missing := T.missing + {k});
      MissingKin(s, t, T, T');
      OwnValues(s, t, T');
    }
  }

  // ---- steps that change tuples or the tree but install nothing ----

  // Records stay; only markers are new.
  ghost predicate SameHeads(u: Tuples, u': Tuples) {
    && (forall x :: x in u ==> x in u' && u'[x].key == u[x].key && (Marker(u'[x]) <==> Marker(u[x])))
    && (forall x :: x in u && x in u' && !Marker(u[x]) && !Marker(u'[x]) ==> u'[x].chain[0] == u[x].chain[0])
    && (forall x :: x in u' && x !in u ==> Marker(u'[x]))
  }

  // What transaction o needs of another's step.
  ghost predicate Calm(s: State, s': State, o: int) {
    && s'.order == s.order && s'.lastW == s.lastW && SameHeads(s.tuples, s'.tuples)
    && (forall n :: VersionOf(s.vers, n) <= VersionOf(s'.vers, n))
    && (forall k :: k in s'.tree && VersionOf(s'.vers, k.leaf) == VersionOf(s.vers, k.leaf) ==>
          && k in s.tree && s'.tree[k] == s.tree[k] && s.tree[k] in s.tuples && s.tree[k] in s'.tuples
          && (s.tuples[s.tree[k]].owner == Some(o) && Marker(s.tuples[s.tree[k]]) ==>
            s'.tuples[s.tree[k]].owner == Some(o)))
  }

  ghost predicate OthersCalm(s: State, s': State, t: int) {
    forall o :: o in s.txns && o != t ==> Calm(s, s', o) && o in s'.txns && s'.txns[o] == s.txns[o]
  }

  lemma CalmLeaf(s: State, s': State, T: Txn, k: Key)
    requires forall n :: VersionOf(s.vers, n) <= VersionOf(s'.vers, n)
    requires Nodes(s.vers, T.nodes, T.missing) && UnchangedLeaf(s'.vers, T, k)
    ensures UnchangedLeaf(s.vers, T, k) && VersionOf(s'.vers, k.leaf) == VersionOf(s.vers, k.leaf)
  {
  }

  lemma CalmAbsent(s: State, s': State, o: int, T: Txn)
    requires Calm(s, s', o) && Nodes(s.vers, T.nodes, T.missing)
    requires AbsentInv(s.tuples, s.tree, s.vers, o, T) && NoLaterInv(s.order, s.vers, T)
    ensures AbsentInv(s'.tuples, s'.tree, s'.vers, o, T) && NoLaterInv(s'.order, s'.vers, T)
  {
    forall k | UnchangedLeaf(s'.vers, T, k)
      ensures UnchangedLeaf(s.vers, T, k) && VersionOf(s'.vers, k.leaf) == VersionOf(s.vers, k.leaf)
    {
      CalmLeaf(s, s', T, k);
    }
  }

  lemma CalmTxn(s: State, s': State, o: int, T: Txn)
    requires Calm(s, s', o) && TxnValues(s, o, T) && Sets(s.tuples, T) && Nodes(s.vers, T.nodes, T.missing)
    ensures TxnValues(s', o, T)
  {
    CalmAbsent(s, s', o, T);
    assert Ahead(s'.order, s'.lastW, s'.tuples, T);
    assert ReadInv(s'.tuples, T);
  }

  lemma CalmTop(order: Order, lastW: map<Key, int>, u: Tuples, u': Tuples)
    requires TopTid(order, lastW, u) && SameHeads(u, u')
    ensures TopTid(order, lastW, u')
  {
  }

  // Everything but the shared parts and t's own record follows from calm.
  lemma CalmValues(s: State, s': State, t: int)
    requires StructInv(s) && ValueInv(s)
    requires OthersCalm(s, s', t)
    requires s'.txns.Keys == s.txns.Keys && s'.order == s.order && s'.lastW == s.lastW && SameHeads(s.tuples, s'.tuples)
    requires PendingInv(s.order, s.lastW, s'.tuples, s'.tree) && SyncInv(s.order, s.lastW, s'.tuples, s'.tree, s'.last)
    requires t in s'.txns ==> TxnValues(s', t, s'.txns[t])
    ensures ValueInv(s')
  {
    CalmTop(s.order, s.lastW, s.tuples, s'.tuples);
    forall o | o in s'.txns && o != t ensures TxnValues(s', o, s'.txns[o]) {
      assert Local(s.tuples, s.vers, o, s.txns[o]) && TxnValues(s, o, s.txns[o]);
      CalmTxn(s, s', o, s.txns[o]);
    }
  }

  lemma CalmForAll(s: State, s': State)
    requires StructInv(s) && ValueInv(s) && s'.txns == s.txns && (forall o :: Calm(s, s', o))
    requires s'.order == s.order && s'.lastW == s.lastW && SameHeads(s.tuples, s'.tuples)
    requires PendingInv(s.order, s.lastW, s'.tuples, s'.tree) && SyncInv(s.order, s.lastW, s'.tuples, s'.tree, s'.last)
    ensures ValueInv(s')
  {
    CalmTop(s.order, s.lastW, s.tuples, s'.tuples);
    forall t | t in s.txns ensures TxnValues(s', t, s'.txns[t]) {
      assert Local(s.tuples, s.vers, t, s.txns[t]) && TxnValues(s, t, s.txns[t]);
      CalmTxn(s, s', t, s.txns[t]);
    }
  }

  // TxnValues does not look at the locked flags.
  lemma LockKin(s: State, t: int, T: Txn, T': Txn)
    requires TxnValues(s, t, T) && T' == T.(locked := T'.locked)
    ensures TxnValues(s, t, T')
  {
    forall k | UnchangedLeaf(s.vers, T', k) ensures UnchangedLeaf(s.vers, T, k) {}
  }

  lemma EarlyTxn(s: State, t: int, T: Txn, T': Txn)
    requires TxnValues(s, t, T) && EarlyKin(T, T')
    ensures TxnValues(s, t, T')
  {
    forall k | UnchangedLeaf(s.vers, T', k) ensures UnchangedLeaf(s.vers, T, k) {}
  }

  // Changing the owner of a tuple nobody is pending on.
  lemma OwnerShared(order: Order, lastW: map<Key, int>, u: Tuples, tree: map<Key, int>, last: int, x: int,
                    w: Option<int>)
    requires PendingInv(order, lastW, u, tree) && SyncInv(order, lastW, u, tree, last) && TreeInv(u, tree) && x in u
    requires forall q :: LastWriter(lastW, u[x].key) < q && LiveW(order, q, u[x].key) ==> !u[x].latest
    ensures PendingInv(order, lastW, u[x := u[x].(owner := w)], tree)
    ensures SyncInv(order, lastW, u[x := u[x].(owner := w)], tree, last)
  {
  }

  // An owner change alone disturbs nobody, unless it strips a marker from its inserter.
  lemma OwnerCalm(s: State, s': State, x: int, w: Option<int>, o: int)
    requires TreeInv(s.tuples, s.tree) && x in s.tuples && (Marker(s.tuples[x]) ==> s.tuples[x].owner == None)
    requires s'.tuples == s.tuples[x := s.tuples[x].(owner := w)]
    requires s'.tree == s.tree && s'.vers == s.vers && s'.order == s.order && s'.lastW == s.lastW
    ensures Calm(s, s', o)
  {
  }

  lemma OwnerCalmAll(s: State, s': State, x: int, w: Option<int>)
    requires TreeInv(s.tuples, s.tree) && x in s.tuples && (Marker(s.tuples[x]) ==> s.tuples[x].owner == None)
    requires s'.tuples == s.tuples[x := s.tuples[x].(owner := w)]
    requires s'.tree == s.tree && s'.vers == s.vers && s'.order == s.order && s'.lastW == s.lastW
    ensures forall o :: Calm(s, s', o)
  {
    forall o ensures Calm(s, s', o) { OwnerCalm(s, s', x, w, o); }
  }

  lemma AcquireShared(s: State, t: int)
    requires Enabled(s, Acquire(t)) && TreeInv(s.tuples, s.tree)
    requires PendingInv(s.order, s.lastW, s.tuples, s.tree) && SyncInv(s.order, s.lastW, s.tuples, s.tree, s.last)
    ensures var u := DoAcquire(s, t).tuples;
      PendingInv(s.order, s.lastW, u, s.tree) && SyncInv(s.order, s.lastW, u, s.tree, s.last)
  {
    OwnerShared(s.order, s.lastW, s.tuples, s.tree, s.last, s.txns[t].phase.x, Some(t));
  }

  lemma AcquireOwnValues(s: State, t: int)
    requires Enabled(s, Acquire(t)) && TreeInv(s.tuples, s.tree)
    requires Local(s.tuples, s.vers, t, s.txns[t]) && TxnValues(s, t, s.txns[t])
    ensures TxnValues(DoAcquire(s, t), t, DoAcquire(s, t).txns[t])
  {
    var s' := DoAcquire(s, t);
    OwnerCalm(s, s', s.txns[t].phase.x, Some(t), t);
    CalmTxn(s, s', t, s.txns[t]);
    EarlyTxn(s', t, s.txns[t], s'.txns[t]);
  }

  lemma OwnerValues(s: State, s': State, t: int, x: int, w: Option<int>)
    requires StructInv(s) && ValueInv(s) && x in s.tuples && (Marker(s.tuples[x]) ==> s.tuples[x].owner == None)
    requires t in s.txns && t in s'.txns && s'.txns == s.txns[t := s'.txns[t]]
    requires s'.tuples == s.tuples[x := s.tuples[x].(owner := w)]
    requires s'.tree == s.tree && s'.vers == s.vers && s'.order == s.order && s'.lastW == s.lastW && s'.last == s.last
    requires PendingInv(s.order, s.lastW, s'.tuples, s.tree) && SyncInv(s.order, s.lastW, s'.tuples, s.tree, s.last)
    requires TxnValues(s', t, s'.txns[t])
    ensures ValueInv(s')
  {
    OwnerCalmAll(s, s', x, w);
    CalmValues(s, s', t);
  }

  lemma AcquireValues(s: State, t: int)
    requires StructInv(s) && ValueInv(s) && Enabled(s, Acquire(t))
    ensures ValueInv(DoAcquire(s, t))
  {
    AcquireShared(s, t);
    AcquireOwnValues(s, t);
    OwnerValues(s, DoAcquire(s, t), t, s.txns[t].phase.x, Some(t));
  }

  // Every tuple t has installed is behind it in lastW, so nobody can be pending on it.
  lemma UnlockFree(s: State, t: int, x: int, q: int)
    requires Enabled(s, Unlock(t, x)) && Local(s.tuples, s.vers, t, s.txns[t]) && Placed(s.order, t, s.txns[t])
    requires Ahead(s.order, s.lastW, s.tuples, s.txns[t]) && TreeInv(s.tuples, s.tree) && EntriesInv(s.order, s.txns)
    requires PendingInv(s.order, s.lastW, s.tuples, s.tree)
    requires LastWriter(s.lastW, s.tuples[x].key) < q && LiveW(s.order, q, s.tuples[x].key)
    ensures !s.tuples[x].latest
  {
  }

  // Giving a plain lock back, after an install or on abort.
  lemma DropValues(s: State, s': State, t: int, x: int)
    requires StructInv(s) && ValueInv(s) && t in s.txns && x in s.tuples && !Marker(s.tuples[x])
    requires s' == s.(tuples := s.tuples[x := s.tuples[x].(owner := None)],
                      txns := s.txns[t := s.txns[t].(locked := s.txns[t].locked - {x})])
    requires forall q :: LastWriter(s.lastW, s.tuples[x].key) < q && LiveW(s.order, q, s.tuples[x].key) ==>
      !s.tuples[x].latest
    ensures ValueInv(s')
  {
    OwnerShared(s.order, s.lastW, s.tuples, s.tree, s.last, x, None);
    OwnerCalm(s, s', x, None, t);
    CalmTxn(s, s', t, s.txns[t]) by { assert Local(s.tuples, s.vers, t, s.txns[t]); }
    LockKin(s', t, s.txns[t], s'.txns[t]);
    OwnerValues(s, s', t, x, None);
  }

  lemma UnlockValues(s: State, t: int, x: int)
    requires Inv(s) && Enabled(s, Unlock(t, x))
    ensures ValueInv(DoUnlock(s, t, x))
  {
    assert Local(s.tuples, s.vers, t, s.txns[t]) && TxnValues(s, t, s.txns[t]) && Placed(s.order, t, s.txns[t]);
    forall q | LastWriter(s.lastW, s.tuples[x].key) < q && LiveW(s.order, q, s.tuples[x].key)
      ensures !s.tuples[x].latest
    {
      UnlockFree(s, t, x, q);
    }
    DropValues(s, DoUnlock(s, t, x), t, x);
  }

  // Nobody is pending on a tuple that an aborting transaction still holds.
  lemma AbortFree(s: State, t: int, x: int, q: int)
    requires In(s, t, Aborting) && Local(s.tuples, s.vers, t, s.txns[t]) && Placed(s.order, t, s.txns[t])
    requires TreeInv(s.tuples, s.tree) && EntriesInv(s.order, s.txns) && PendingInv(s.order, s.lastW, s.tuples, s.tree)
    requires x in s.txns[t].locked && x in s.tuples
    requires LastWriter(s.lastW, s.tuples[x].key) < q && LiveW(s.order, q, s.tuples[x].key)
    ensures !s.tuples[x].latest
  {
  }

  // x keeps its record and leaves the tree.
  predicate Leaves(x: Tuple, z: Tuple) { z == x.(owner := z.owner, latest := false, cleaner := z.cleaner) }

  // Taking a key out of the tree: a marker that nobody else saw, or a visible delete.
  lemma RemoveShared(order: Order, lastW: map<Key, int>, u: Tuples, tree: map<Key, int>, last: int, x: int, z: Tuple)
    requires PendingInv(order, lastW, u, tree) && SyncInv(order, lastW, u, tree, last) && TreeInv(u, tree)
    requires x in u && u[x].latest && Leaves(u[x], z)
    requires forall q :: LastWriter(lastW, u[x].key) < q ==> !LiveW(order, q, u[x].key)
    requires !Marker(u[x]) ==> u[x].chain[0].val == None && RoTick(u[x].chain[0].tid) + 1 <= Ro(last)
    ensures PendingInv(order, lastW, u[x := z], tree - {u[x].key})
    ensures SyncInv(order, lastW, u[x := z], tree - {u[x].key}, last)
  {
  }

  lemma RemoveCalm(s: State, s': State, x: int)
    requires TreeInv(s.tuples, s.tree) && x in s.tuples && s.tuples[x].latest && x in s'.tuples
    requires s'.tuples == s.tuples[x := s'.tuples[x]] && Leaves(s.tuples[x], s'.tuples[x])
    requires s'.tree == s.tree - {s.tuples[x].key} && s'.order == s.order && s'.lastW == s.lastW
    requires forall n :: VersionOf(s.vers, n) <= VersionOf(s'.vers, n)
    ensures forall o :: Calm(s, s', o)
  {
  }

  lemma ReleaseMarkerValues(s: State, s': State, t: int, x: int)
    requires StructInv(s) && ValueInv(s) && In(s, t, Aborting) && x in s.tuples && s.tuples[x].latest
    requires Marker(s.tuples[x])
    requires s'.tuples == s.tuples[x := s.tuples[x].(owner := None, latest := false)]
    requires s'.txns == s.txns[t := s.txns[t].(locked := s.txns[t].locked - {x})]
    requires s'.tree == s.tree - {s.tuples[x].key} && s'.order == s.order && s'.lastW == s.lastW && s'.last == s.last
    requires forall n :: VersionOf(s.vers, n) <= VersionOf(s'.vers, n)
    requires forall q :: LastWriter(s.lastW, s.tuples[x].key) < q ==> !LiveW(s.order, q, s.tuples[x].key)
    ensures ValueInv(s')
  {
    RemoveShared(s.order, s.lastW, s.tuples, s.tree, s.last, x, s'.tuples[x]);
    RemoveCalm(s, s', x);
    CalmTxn(s, s', t, s.txns[t]) by { assert Local(s.tuples, s.vers, t, s.txns[t]); }
    LockKin(s', t, s.txns[t], s'.txns[t]);
    CalmValues(s, s', t);
  }

  lemma ReleaseFree(s: State, t: int, x: int, bump: nat)
    requires Inv(s) && Enabled(s, Release(t, x, bump))
    ensures forall q :: LastWriter(s.lastW, s.tuples[x].key) < q && LiveW(s.order, q, s.tuples[x].key) ==>
      !s.tuples[x].latest
  {
    assert Local(s.tuples, s.vers, t, s.txns[t]) && Placed(s.order, t, s.txns[t]);
    forall q | LastWriter(s.lastW, s.tuples[x].key) < q && LiveW(s.order, q, s.tuples[x].key)
      ensures !s.tuples[x].latest
    {
      AbortFree(s, t, x, q);
    }
  }

  lemma ReleaseMarker(s: State, t: int, x: int, bump: nat)
    requires Inv(s) && Enabled(s, Release(t, x, bump)) && x in s.txns[t].inserts
    ensures ValueInv(DoRelease(s, t, x, bump))
  {
    assert Local(s.tuples, s.vers, t, s.txns[t]);
    ReleaseFree(s, t, x, bump);
    ReleaseMarkerValues(s, DoRelease(s, t, x, bump), t, x);
  }

  lemma ReleaseHeld(s: State, t: int, x: int, bump: nat)
    requires Inv(s) && Enabled(s, Release(t, x, bump)) && x !in s.txns[t].inserts
    ensures ValueInv(DoRelease(s, t, x, bump))
  {
    assert Local(s.tuples, s.vers, t, s.txns[t]);
    ReleaseFree(s, t, x, bump);
    DropValues(s, DoRelease(s, t, x, bump), t, x);
  }

  lemma ReleaseValues(s: State, t: int, x: int, bump: nat)
    requires Inv(s) && Enabled(s, Release(t, x, bump))
    ensures ValueInv(DoRelease(s, t, x, bump))
  {
    if x in s.txns[t].inserts { ReleaseMarker(s, t, x, bump); } else { ReleaseHeld(s, t, x, bump); }
  }

  lemma UnlinkValues(s: State, x: int, bump: nat)
    requires StructInv(s) && ValueInv(s) && Enabled(s, Unlink(x, bump)) && Expired(s.tuples[x], s.last)
    ensures ValueInv(DoUnlink(s, x, bump))
  {
    var s' := DoUnlink(s, x, bump);
    UnlinkStruct(s, x, bump);
    RemoveShared(s.order, s.lastW, s.tuples, s.tree, s.last, x, s'.tuples[x]);
    RemoveCalm(s, s', x);
    CalmForAll(s, s');
  }

  // Nothing here looks at the cleaner's lock.
  lemma CleanerValues(s: State, x: int, c: Cleaner)
    requires ValueInv(s) && x in s.tuples
    ensures ValueInv(SetCleaner(s, x, c))
  {
    var s' := SetCleaner(s, x, c);
    forall t | t in s.txns ensures TxnValues(s', t, s'.txns[t]) { assert TxnValues(s, t, s.txns[t]); }
  }

  lemma CutShared(order: Order, lastW: map<Key, int>, u: Tuples, tree: map<Key, int>, last: int, x: int, i: nat)
    requires PendingInv(order, lastW, u, tree) && SyncInv(order, lastW, u, tree, last)
    requires x in u && 0 < i <= |u[x].chain|
    ensures PendingInv(order, lastW, u[x := u[x].(chain := u[x].chain[..i])], tree)
    ensures SyncInv(order, lastW, u[x := u[x].(chain := u[x].chain[..i])], tree, last)
  {
  }

  lemma CutCalm(s: State, x: int, i: nat)
    requires TreeInv(s.tuples, s.tree) && Enabled(s, Cut(x, i))
    ensures forall o :: Calm(s, DoCut(s, x, i), o)
  {
  }

  lemma CutValues(s: State, x: int, i: nat)
    requires StructInv(s) && ValueInv(s) && Enabled(s, Cut(x, i))
    ensures ValueInv(DoCut(s, x, i))
  {
    var s' := DoCut(s, x, i);
    CutCalm(s, x, i);
    CutShared(s.order, s.lastW, s.tuples, s.tree, s.last, x, i);
    CalmForAll(s, s');
  }

  // ---- inserting a marker ----

  lemma InsertShared(order: Order, lastW: map<Key, int>, u: Tuples, tree: map<Key, int>, last: int, k: Key, x: int,
                     t: int)
    requires PendingInv(order, lastW, u, tree) && SyncInv(order, lastW, u, tree, last) && TreeInv(u, tree)
    requires k !in tree && x !in u
    ensures PendingInv(order, lastW, u[x := Tuple(k, [], true, Some(t), Away)], tree[k := x])
    ensures SyncInv(order, lastW, u[x := Tuple(k, [], true, Some(t), Away)], tree[k := x], last)
  {
  }

  lemma InsertCalm(s: State, s': State, t: int, k: Key, x: int, o: int)
    requires TreeInv(s.tuples, s.tree) && k !in s.tree && x !in s.tuples
    requires s'.tuples == s.tuples[x := Tuple(k, [], true, Some(t), Away)] && s'.tree == s.tree[k := x]
    requires s'.vers == s.vers[k.leaf := VersionOf(s.vers, k.leaf) + 1] && s'.order == s.order && s'.lastW == s.lastW
    ensures Calm(s, s', o)
  {
  }

  lemma InsertAbsent(s: State, s': State, t: int, k: Key, x: int, T: Txn, T': Txn)
    requires TreeInv(s.tuples, s.tree) && AbsentInv(s.tuples, s.tree, s.vers, t, T) && T.phase.Active?
    requires Nodes(s.vers, T.nodes, T.missing) && T'.missing == T.missing && x !in s.tuples
    requires s'.tuples == s.tuples[x := Tuple(k, [], true, Some(t), Away)] && s'.tree == s.tree[k := x]
    requires s'.vers == s.vers[k.leaf := VersionOf(s.vers, k.leaf) + 1]
    requires if k.leaf !in T.nodes then T'.nodes == T.nodes
             else T'.phase.Active? ==>
               T.nodes[k.leaf] == VersionOf(s.vers, k.leaf) &&
               T'.nodes == T.nodes[k.leaf := VersionOf(s.vers, k.leaf) + 1]
    ensures AbsentInv(s'.tuples, s'.tree, s'.vers, t, T') || !T'.phase.Active?
  {
    if T'.phase.Active? {
      forall j | UnchangedLeaf(s'.vers, T', j) ensures UnchangedLeaf(s.vers, T, j) {}
    }
  }

  lemma InsertOwnValues(s: State, t: int, k: Key, x: int, v: Option<Value>)
    requires TreeInv(s.tuples, s.tree) && Enabled(s, Insert(t, k, x, v))
    requires Sets(s.tuples, s.txns[t]) && Nodes(s.vers, s.txns[t].nodes, s.txns[t].missing)
    requires TxnValues(s, t, s.txns[t])
    ensures TxnValues(DoInsert(s, t, k, x, v), t, DoInsert(s, t, k, x, v).txns[t])
  {
    var s' := DoInsert(s, t, k, x, v);
    InsertAbsent(s, s', t, k, x, s.txns[t], s'.txns[t]);
    assert ReadInv(s'.tuples, s'.txns[t]);
  }

  lemma InsertOthers(s: State, s': State, t: int, k: Key, x: int)
    requires TreeInv(s.tuples, s.tree) && k !in s.tree && x !in s.tuples && t in s'.txns
    requires s'.txns == s.txns[t := s'.txns[t]]
    requires s'.tuples == s.tuples[x := Tuple(k, [], true, Some(t), Away)] && s'.tree == s.tree[k := x]
    requires s'.vers == s.vers[k.leaf := VersionOf(s.vers, k.leaf) + 1] && s'.order == s.order && s'.lastW == s.lastW
    ensures OthersCalm(s, s', t) && SameHeads(s.tuples, s'.tuples)
  {
    forall o ensures Calm(s, s', o) { InsertCalm(s, s', t, k, x, o); }
  }

  lemma MarkerValues(s: State, s': State, t: int, k: Key, x: int)
    requires StructInv(s) && ValueInv(s) && k !in s.tree && x !in s.tuples
    requires t in s.txns && t in s'.txns && s'.txns == s.txns[t := s'.txns[t]]
    requires s'.tuples == s.tuples[x := Tuple(k, [], true, Some(t), Away)] && s'.tree == s.tree[k := x]
    requires s'.last == s.last
    requires s'.vers == s.vers[k.leaf := VersionOf(s.vers, k.leaf) + 1] && s'.order == s.order && s'.lastW == s.lastW
    requires TxnValues(s', t, s'.txns[t])
    ensures ValueInv(s')
  {
    InsertShared(s.order, s.lastW, s.tuples, s.tree, s.last, k, x, t);
    InsertOthers(s, s', t, k, x);
    CalmValues(s, s', t);
  }

  lemma InsertValues(s: State, t: int, k: Key, x: int, v: Option<Value>)
    requires StructInv(s) && ValueInv(s) && Enabled(s, Insert(t, k, x, v))
    ensures ValueInv(DoInsert(s, t, k, x, v))
  {
    assert Local(s.tuples, s.vers, t, s.txns[t]);
    InsertOwnValues(s, t, k, x, v);
    MarkerValues(s, DoInsert(s, t, k, x, v), t, k, x);
  }

  // ---- installing a record ----

  // The new contents of the tuple store: x keeps its identity or hands over to y.
  ghost predicate Installed(u: Tuples, tree: map<Key, int>, u': Tuples, tree': map<Key, int>, x: int, v: Version) {
    && x in u && x in u' && u'[x].key == u[x].key
    && (forall z :: z in u ==> z in u' && (z != x ==> u'[z] == u[z]))
    && (forall z :: z in u' && z !in u ==> u'[z].key == u[x].key && !Marker(u'[z]) && u'[z].chain[0] == v)
    && (u'[x].chain == u[x].chain || (!Marker(u'[x]) && u'[x].chain[0] == v))
    && tree'.Keys == tree.Keys && u[x].key in tree && tree'[u[x].key] in u'
    && !Marker(u'[tree'[u[x].key]]) && u'[tree'[u[x].key]].chain[0] == v
    && (tree'[u[x].key] == x ==> u'[x].owner == u[x].owner)
    && (forall k :: k in tree && k != u[x].key ==> tree'[k] == tree[k])
  }

  lemma InPlaceForm(u: Tuples, tree: map<Key, int>, x: int, c: seq<Version>)
    requires x in u && u[x].key in tree && tree[u[x].key] == x && c != []
    ensures Installed(u, tree, u[x := u[x].(chain := c)], tree, x, c[0])
  {
  }

  lemma ReplaceForm(u: Tuples, tree: map<Key, int>, x: int, c: seq<Version>, y: int)
    requires x in u && u[x].key in tree && y !in u && c != []
    ensures Installed(u, tree, u[x := u[x].(latest := false)][y := Tuple(u[x].key, c, true, None, Away)],
      tree[u[x].key := y], x, c[0])
  {
  }

  lemma InstallForm(s: State, t: int, x: int, fits: bool, y: int)
    requires Enabled(s, Install(t, x, fits, y)) && s.tuples[x].key in s.tree && s.tree[s.tuples[x].key] == x
    ensures var s' := DoInstall(s, t, x, fits, y); var T := s.txns[t];
      && Installed(s.tuples, s.tree, s'.tuples, s'.tree, x, Version(s.order[T.pos].tid, T.writes[x], T.pos))
      && s'.order == s.order && s'.vers == s.vers && s'.last == s.last && s'.lastW == s.lastW[s.tuples[x].key := T.pos]
      && s'.txns == s.txns[t := T.(pending := T.pending - {x})]
  {
    var T := s.txns[t];
    var c := NewChain(s.tuples[x].chain, Version(s.order[T.pos].tid, T.writes[x], T.pos), fits);
    if InPlace(s.tuples[x].chain, fits) {
      InPlaceForm(s.tuples, s.tree, x, c);
    } else {
      ReplaceForm(s.tuples, s.tree, x, c, y);
    }
  }

  // What holds when t installs x.
  ghost predicate Installer(s: State, t: int, x: int) {
    && In(s, t, Installing) && x in s.txns[t].pending && x in s.tuples && x in s.txns[t].writes
    && TreeInv(s.tuples, s.tree) && Local(s.tuples, s.vers, t, s.txns[t]) && Placed(s.order, t, s.txns[t])
    && 0 <= s.txns[t].pos < |s.order|
    && Ahead(s.order, s.lastW, s.tuples, s.txns[t]) && EntriesInv(s.order, s.txns)
    && PendingInv(s.order, s.lastW, s.tuples, s.tree) && SyncInv(s.order, s.lastW, s.tuples, s.tree, s.last)
    && TopTid(s.order, s.lastW, s.tuples) && KeyOrder(s.order)
  }

  lemma InstallerFacts(s: State, t: int, x: int)
    requires Installer(s, t, x)
    ensures var k := s.tuples[x].key; var p := s.txns[t].pos;
      && k in s.tree && s.tree[k] == x && s.tuples[x].owner == Some(t)
      && LastWriter(s.lastW, k) < p && LiveW(s.order, p, k) && s.order[p].fate == Commit
      && s.order[p].writes[k] == s.txns[t].writes[x]
      && (!Marker(s.tuples[x]) ==> s.tuples[x].chain[0].tid < s.order[p].tid)
      && (forall q :: LastWriter(s.lastW, k) < q && q != p ==> !LiveW(s.order, q, k))
  {
    assert Untouched(s.txns[t], x);
  }

  lemma InstallPending(s: State, t: int, x: int, u': Tuples, tree': map<Key, int>, v: Version)
    requires Installer(s, t, x) && Installed(s.tuples, s.tree, u', tree', x, v)
    ensures PendingInv(s.order, s.lastW[s.tuples[x].key := s.txns[t].pos], u', tree')
  {
    InstallerFacts(s, t, x);
    PendingAfter(s.order, s.lastW, s.tuples, s.tree, u', tree', x, v, s.txns[t].pos);
  }

  lemma PendingAfter(order: Order, lastW: map<Key, int>, u: Tuples, tree: map<Key, int>, u': Tuples,
                     tree': map<Key, int>, x: int, v: Version, p: int)
    requires PendingInv(order, lastW, u, tree) && TreeInv(u, tree) && Installed(u, tree, u', tree', x, v)
    requires tree[u[x].key] == x && LastWriter(lastW, u[x].key) < p
    requires forall q :: LastWriter(lastW, u[x].key) < q && q != p ==> !LiveW(order, q, u[x].key)
    ensures PendingInv(order, lastW[u[x].key := p], u', tree')
  {
  }

  lemma InstallSync(order: Order, lastW: map<Key, int>, u: Tuples, tree: map<Key, int>, last: int, x: int,
                    u': Tuples, tree': map<Key, int>, v: Version)
    requires SyncInv(order, lastW, u, tree, last) && TreeInv(u, tree) && Installed(u, tree, u', tree', x, v)
    requires tree[u[x].key] == x && LiveW(order, v.src, u[x].key) && order[v.src].fate == Commit
    requires v.tid == order[v.src].tid && v.val == order[v.src].writes[u[x].key]
    ensures SyncInv(order, lastW[u[x].key := v.src], u', tree', last)
  {
  }

  lemma InstallTop(s: State, t: int, x: int, u': Tuples, tree': map<Key, int>)
    requires Installer(s, t, x) && 0 < s.order[s.txns[t].pos].tid
    requires Installed(s.tuples, s.tree, u', tree', x,
      Version(s.order[s.txns[t].pos].tid, s.txns[t].writes[x], s.txns[t].pos))
    ensures TopTid(s.order, s.lastW[s.tuples[x].key := s.txns[t].pos], u')
  {
    InstallerFacts(s, t, x);
    var k := s.tuples[x].key;
    if k in s.lastW { assert LiveW(s.order, s.lastW[k], k); }
  }

  lemma InstallReads(u: Tuples, tree: map<Key, int>, u': Tuples, tree': map<Key, int>, x: int, v: Version, T: Txn)
    requires Installed(u, tree, u', tree', x, v) && ReadInv(u, T) && Sets(u, T) && 0 < v.tid
    requires !Marker(u[x]) ==> u[x].chain[0].tid < v.tid
    ensures ReadInv(u', T)
  {
  }

  // Another transaction that still has to install a tuple holds a different tuple, so a different key.
  lemma InstallAhead(order: Order, lastW: map<Key, int>, u: Tuples, tree: map<Key, int>, x: int,
                     u': Tuples, tree': map<Key, int>, v: Version, o: int, T: Txn)
    requires TreeInv(u, tree) && Installed(u, tree, u', tree', x, v) && tree[u[x].key] == x
    requires u[x].owner != Some(o) && Locks(u, o, T) && Phases(u, T) && Sets(u, T)
    requires Ahead(order, lastW, u, T) && LastWriter(lastW, u[x].key) < v.src
    ensures Ahead(order, lastW[u[x].key := v.src], u', T)
  {
    if Live(T) && 0 <= T.pos < |order| {
      forall z | z in T.writes && z in u' && !(T.phase.Installing? && z !in T.pending)
        ensures z in u && u[z].key != u[x].key && z != x
      {
        assert Untouched(T, z);
      }
    }
  }

  lemma InstallAbsent(u: Tuples, tree: map<Key, int>, u': Tuples, tree': map<Key, int>, vers: map<int, int>, x: int,
                      v: Version, t: int, o: int, T: Txn)
    requires Installed(u, tree, u', tree', x, v) && TreeInv(u, tree) && tree[u[x].key] == x && u[x].owner == Some(t)
    requires o != t
    requires AbsentInv(u, tree, vers, o, T)
    ensures AbsentInv(u', tree', vers, o, T)
  {
  }

  lemma InstallOwnAhead(s: State, t: int, x: int, u': Tuples, tree': map<Key, int>, v: Version)
    requires Installer(s, t, x) && Installed(s.tuples, s.tree, u', tree', x, v)
    ensures Ahead(s.order, s.lastW[s.tuples[x].key := s.txns[t].pos], u',
      s.txns[t].(pending := s.txns[t].pending - {x}))
  {
    InstallerFacts(s, t, x);
    var T := s.txns[t];
    forall z | z in T.writes && z in u' && z != x ensures z in s.tuples && s.tuples[z].key != s.tuples[x].key {}
  }

  lemma InstallOther(s: State, s': State, t: int, x: int, v: Version, o: int)
    requires Installer(s, t, x) && Installed(s.tuples, s.tree, s'.tuples, s'.tree, x, v)
    requires 0 < v.tid == s.order[s.txns[t].pos].tid && v.src == s.txns[t].pos
    requires s'.order == s.order && s'.vers == s.vers && s'.lastW == s.lastW[s.tuples[x].key := s.txns[t].pos]
    requires o in s.txns && o != t && Local(s.tuples, s.vers, o, s.txns[o]) && TxnValues(s, o, s.txns[o])
    ensures TxnValues(s', o, s.txns[o])
  {
    InstallerFacts(s, t, x);
    InstallAhead(s.order, s.lastW, s.tuples, s.tree, x, s'.tuples, s'.tree, v, o, s.txns[o]);
    InstallReads(s.tuples, s.tree, s'.tuples, s'.tree, x, v, s.txns[o]);
    InstallAbsent(s.tuples, s.tree, s'.tuples, s'.tree, s.vers, x, v, t, o, s.txns[o]);
  }

  lemma InstallOwnValues(s: State, s': State, t: int, x: int, v: Version)
    requires Installer(s, t, x) && Installed(s.tuples, s.tree, s'.tuples, s'.tree, x, v)
    requires 0 < v.tid == s.order[s.txns[t].pos].tid && v.src == s.txns[t].pos
    requires s'.order == s.order && s'.vers == s.vers && s'.lastW == s.lastW[s.tuples[x].key := s.txns[t].pos]
    requires TxnValues(s, t, s.txns[t])
    ensures TxnValues(s', t, s.txns[t].(pending := s.txns[t].pending - {x}))
  {
    InstallerFacts(s, t, x);
    InstallOwnAhead(s, t, x, s'.tuples, s'.tree, v);
    InstallReads(s.tuples, s.tree, s'.tuples, s'.tree, x, v, s.txns[t]);
  }

  lemma InstallerReady(s: State, t: int, x: int, fits: bool, y: int)
    requires Inv(s) && Enabled(s, Install(t, x, fits, y))
    ensures Installer(s, t, x) && 0 < s.order[s.txns[t].pos].tid && TxnValues(s, t, s.txns[t])
  {
    assert Local(s.tuples, s.vers, t, s.txns[t]) && Placed(s.order, t, s.txns[t]) && TxnValues(s, t, s.txns[t]);
    assert s.tuples[x].key in s.order[s.txns[t].pos].writes;
  }

  lemma InstallOthers(s: State, s': State, t: int, x: int, v: Version)
    requires Installer(s, t, x) && Installed(s.tuples, s.tree, s'.tuples, s'.tree, x, v)
    requires 0 < v.tid == s.order[s.txns[t].pos].tid && v.src == s.txns[t].pos
    requires s'.order == s.order && s'.vers == s.vers && s'.lastW == s.lastW[s.tuples[x].key := s.txns[t].pos]
    requires StructInv(s) && ValueInv(s)
    ensures forall o :: o in s.txns && o != t ==> TxnValues(s', o, s.txns[o])
  {
    forall o | o in s.txns && o != t ensures TxnValues(s', o, s.txns[o]) {
      assert Local(s.tuples, s.vers, o, s.txns[o]) && TxnValues(s, o, s.txns[o]);
      InstallOther(s, s', t, x, v, o);
    }
  }

  lemma InstallAll(s: State, s': State, t: int, x: int, v: Version)
    requires Installer(s, t, x) && Installed(s.tuples, s.tree, s'.tuples, s'.tree, x, v)
    requires 0 < v.tid == s.order[s.txns[t].pos].tid && v.src == s.txns[t].pos
    requires v.val == s.txns[t].writes[x] && s'.order == s.order && s'.last == s.last
    requires s'.lastW == s.lastW[s.tuples[x].key := s.txns[t].pos]
    ensures PendingInv(s'.order, s'.lastW, s'.tuples, s'.tree)
    ensures SyncInv(s'.order, s'.lastW, s'.tuples, s'.tree, s'.last)
    ensures TopTid(s'.order, s'.lastW, s'.tuples) && KeyOrder(s'.order)
  {
    InstallerFacts(s, t, x);
    InstallPending(s, t, x, s'.tuples, s'.tree, v);
    InstallSync(s.order, s.lastW, s.tuples, s.tree, s.last, x, s'.tuples, s'.tree, v);
    InstallTop(s, t, x, s'.tuples, s'.tree);
  }

  lemma InstallAssemble(s: State, s': State, t: int, x: int, v: Version)
    requires Installer(s, t, x) && Installed(s.tuples, s.tree, s'.tuples, s'.tree, x, v)
    requires 0 < v.tid == s.order[s.txns[t].pos].tid && v.src == s.txns[t].pos
    requires v.val == s.txns[t].writes[x] && s'.order == s.order && s'.last == s.last && s'.vers == s.vers
    requires s'.lastW == s.lastW[s.tuples[x].key := s.txns[t].pos]
    requires s'.txns == s.txns[t := s.txns[t].(pending := s.txns[t].pending - {x})]
    requires StructInv(s) && ValueInv(s)
    ensures ValueInv(s')
  {
    InstallAll(s, s', t, x, v);
    InstallOwnValues(s, s', t, x, v);
    InstallOthers(s, s', t, x, v);
  }

  lemma InstallValues(s: State, t: int, x: int, fits: bool, y: int)
    requires Inv(s) && Enabled(s, Install(t, x, fits, y))
    ensures ValueInv(DoInstall(s, t, x, fits, y))
  {
    InstallerReady(s, t, x, fits, y);
    InstallerFacts(s, t, x);
    InstallForm(s, t, x, fits, y);
    InstallAssemble(s, DoInstall(s, t, x, fits, y), t, x,
                    Version(s.order[s.txns[t].pos].tid, s.txns[t].writes[x], s.txns[t].pos));
  }
}
