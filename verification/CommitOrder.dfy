// The serialization order and the clock.

module CommitOrder {
  import opened Tids
  import opened CommitModel
  import opened CommitStructure

  type Order = seq<Entry>

  predicate Matches(f: Fate, p: Phase) {
    match f
    case Open => p.Validating?
    case Commit => p.Installing?
    case Abort => p.Aborting?
  }

  // The entry holds exactly the transaction's writes, each key with its last value.
  ghost predicate SameKeys(e: Entry, T: Txn) {
    && (forall k :: k in e.writes <==> k in T.byKey)
    && (forall k :: k in T.byKey && k in e.writes && T.byKey[k] in T.writes ==> e.writes[k] == T.writes[T.byKey[k]])
  }

  ghost predicate Placed(order: Order, t: int, T: Txn) {
    if T.pos < 0 then T.pos == -1 && !Live(T)
    else
      && T.pos < |order| && order[T.pos].t == t && Matches(order[T.pos].fate, T.phase)
      && order[T.pos].core == T.core && T.tick <= order[T.pos].epoch && SameKeys(order[T.pos], T)
  }

  ghost predicate EntriesInv(order: Order, txns: map<int, Txn>) {
    forall q :: 0 <= q < |order| ==> order[q].t in txns && txns[order[q].t].pos == q
  }

  // Epochs never decrease along the order; a writer's TID carries its epoch.
  ghost predicate EpochInv(order: Order, cur: int) {
    && (forall i, j :: 0 <= i < j < |order| ==> order[i].epoch <= order[j].epoch)
    && (forall q :: 0 <= q < |order| ==> order[q].epoch <= cur && 0 <= order[q].tid)
    && (forall q :: 0 <= q < |order| && order[q].writes != map[] ==> 0 < order[q].tid)
    && (forall q :: 0 <= q < |order| && 0 < order[q].tid ==> Epoch(order[q].tid) == order[q].epoch)
  }

  // Commit TIDs are unique: they carry the core, and each core's only grow.
  ghost predicate TidInv(order: Order, coreTid: map<int, int>) {
    && (forall q :: 0 <= q < |order| && 0 < order[q].tid ==>
          CoreOf(order[q].tid) == order[q].core && order[q].core in coreTid && order[q].tid <= coreTid[order[q].core])
    && (forall i, j :: 0 <= i < j < |order| && 0 < order[i].tid && 0 < order[j].tid ==> order[i].tid != order[j].tid)
  }

  ghost predicate CoreInv(coreTid: map<int, int>, cur: int) {
    forall c :: c in coreTid ==> 0 < coreTid[c] && Epoch(coreTid[c]) <= cur && CoreOf(coreTid[c]) == c
  }

  ghost predicate ClockInv(s: State) {
    && 0 <= s.last && s.cur - 2 <= s.last < s.cur
    && (forall t :: t in s.txns && !Finished(s.txns[t]) ==> s.last < s.txns[t].tick <= s.cur)
    && (forall n :: n in s.snaps ==> Ro(s.snaps[n].tick - 1) <= s.snaps[n].bound <= Ro(s.last + 1))
    && (forall n :: n in s.snaps && s.snaps[n].open ==> s.last < s.snaps[n].tick <= s.cur)
  }

  ghost predicate OrderInv(s: State) {
    && EntriesInv(s.order, s.txns) && EpochInv(s.order, s.cur) && TidInv(s.order, s.coreTid)
    && CoreInv(s.coreTid, s.cur)
    && (forall t :: t in s.txns ==> Placed(s.order, t, s.txns[t]))
  }

  // A step of t that does not move it in the order.
  predicate Kin(T: Txn, T': Txn) {
    && T'.tick == T.tick && T'.pos == T.pos && T'.core == T.core && (Finished(T) ==> Finished(T'))
    && (if T.pos < 0 then !Live(T') else T'.phase == T.phase && T'.byKey == T.byKey && T'.writes == T.writes)
  }

  lemma KinOrder(s: State, s': State, t: int)
    requires OrderInv(s) && t in s.txns && t in s'.txns && Kin(s.txns[t], s'.txns[t])
    requires s'.txns == s.txns[t := s'.txns[t]] && s'.order == s.order && s'.cur == s.cur && s'.coreTid == s.coreTid
    ensures OrderInv(s')
  {
  }

  lemma KinClock(s: State, s': State, t: int)
    requires ClockInv(s) && t in s.txns && t in s'.txns && s'.txns[t].tick == s.txns[t].tick
    requires Finished(s.txns[t]) ==> Finished(s'.txns[t])
    requires s'.txns == s.txns[t := s'.txns[t]] && s'.cur == s.cur && s'.last == s.last && s'.snaps == s.snaps
    ensures ClockInv(s')
  {
  }

  lemma TakeTidPlaced(s: State, t: int, tid: int)
    requires StructInv(s) && OrderInv(s) && ClockInv(s) && Enabled(s, TakeTid(t, tid))
    ensures Placed(DoTakeTid(s, t, tid).order, t, DoTakeTid(s, t, tid).txns[t])
  {
    assert Local(s.tuples, s.vers, t, s.txns[t]);
    var s' := DoTakeTid(s, t, tid);
    assert SameKeys(s'.order[|s.order|], s'.txns[t]);
  }

  lemma Append(order: Order, coreTid: map<int, int>, cur: int, e: Entry)
    requires EpochInv(order, cur) && TidInv(order, coreTid)
    requires e.epoch == cur && (e.writes != map[] ==> 0 < e.tid) && 0 <= e.tid
    requires 0 < e.tid ==> Epoch(e.tid) == cur && CoreOf(e.tid) == e.core
    requires 0 < e.tid && e.core in coreTid ==> coreTid[e.core] < e.tid
    ensures EpochInv(order + [e], cur)
    ensures TidInv(order + [e], if e.tid == 0 then coreTid else coreTid[e.core := e.tid])
  {
  }

  lemma TakeTidOthers(s: State, t: int, tid: int)
    requires OrderInv(s) && Enabled(s, TakeTid(t, tid))
    ensures forall o :: o in s.txns && o != t ==> Placed(DoTakeTid(s, t, tid).order, o, s.txns[o])
  {
    var s' := DoTakeTid(s, t, tid);
    forall o | o in s.txns && o != t ensures Placed(s'.order, o, s.txns[o]) { assert Placed(s.order, o, s.txns[o]); }
  }

  lemma TakeTidClock(s: State, t: int, tid: int)
    requires ClockInv(s) && Enabled(s, TakeTid(t, tid))
    ensures ClockInv(DoTakeTid(s, t, tid))
  {
    KinClock(s, DoTakeTid(s, t, tid), t);
  }

  lemma TakeTidOrder(s: State, t: int, tid: int)
    requires StructInv(s) && OrderInv(s) && ClockInv(s) && Enabled(s, TakeTid(t, tid))
    ensures OrderInv(DoTakeTid(s, t, tid)) && ClockInv(DoTakeTid(s, t, tid))
  {
    var s' := DoTakeTid(s, t, tid);
    TakeTidPlaced(s, t, tid);
    TakeTidOthers(s, t, tid);
    TakeTidClock(s, t, tid);
    assert Local(s.tuples, s.vers, t, s.txns[t]);
    Append(s.order, s.coreTid, s.cur, s'.order[|s.order|]);
  }

  lemma FateKeeps(order: Order, coreTid: map<int, int>, cur: int, q: int, f: Fate)
    requires EpochInv(order, cur) && TidInv(order, coreTid) && 0 <= q < |order|
    ensures EpochInv(order[q := order[q].(fate := f)], cur) && TidInv(order[q := order[q].(fate := f)], coreTid)
  {
  }

  // Validation settles the entry's fate and leaves everybody's place alone.
  lemma FateOrder(s: State, s': State, t: int, f: Fate)
    requires OrderInv(s) && In(s, t, Validating) && t in s'.txns && s'.txns == s.txns[t := s'.txns[t]]
    requires 0 <= s.txns[t].pos < |s.order| && s'.order == s.order[s.txns[t].pos := s.order[s.txns[t].pos].(fate := f)]
    requires s'.cur == s.cur && s'.coreTid == s.coreTid
    requires s'.txns[t].pos == s.txns[t].pos && s'.txns[t].tick == s.txns[t].tick && s'.txns[t].core == s.txns[t].core
    requires Matches(f, s'.txns[t].phase) && s'.txns[t].byKey == s.txns[t].byKey
    requires s'.txns[t].writes == s.txns[t].writes
    ensures OrderInv(s')
  {
    var p := s.txns[t].pos;
    assert Placed(s.order, t, s.txns[t]);
    FateKeeps(s.order, s.coreTid, s.cur, p, f);
    forall o | o in s.txns && o != t ensures Placed(s'.order, o, s.txns[o]) {
      assert Placed(s.order, o, s.txns[o]);
    }
    assert SameKeys(s'.order[p], s'.txns[t]);
  }

  lemma TickClock(s: State)
    requires OrderInv(s) && ClockInv(s) && Enabled(s, Tick)
    ensures OrderInv(s.(cur := s.cur + 1)) && ClockInv(s.(cur := s.cur + 1))
  {
  }

  lemma CompleteClock(s: State)
    requires OrderInv(s) && ClockInv(s) && Enabled(s, Complete)
    ensures OrderInv(s.(last := s.cur - 1)) && ClockInv(s.(last := s.cur - 1))
  {
  }

  lemma SnapClock(s: State, n: int, z: Snap)
    requires ClockInv(s) && Ro(z.tick - 1) <= z.bound <= Ro(s.last + 1) && (z.open ==> s.last < z.tick <= s.cur)
    ensures ClockInv(s.(snaps := s.snaps[n := z]))
  {
  }

  // An epoch that every snapshot is past is before that of a running transaction.
  lemma ExpiredEarlier(order: Order, cur: int, last: int, src: int, p: int)
    requires EpochInv(order, cur) && 0 <= src < |order| && 0 <= p < |order| && 0 < order[src].tid
    requires RoTick(order[src].tid) + 1 <= Ro(last) && last < order[p].epoch
    ensures src < p
  {
  }
}
