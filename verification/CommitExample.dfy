// A run that is not serializable: a read is validated between the cleaner's
// removal of its key and the clearing of the latest flag.

module CommitExample {
  import opened Basics
  import opened Tids
  import opened CommitModel
  import CommitTheorems

  ghost predicate EndsIn(ss: seq<State>, steps: seq<Step>, s: State) { Run(ss, steps) && ss[|ss| - 1] == s }

  ghost predicate Reached(s: State) { exists ss, steps :: EndsIn(ss, steps, s) }

  lemma Go(s: State, step: Step)
    requires Reached(s) && Enabled(s, step)
    ensures Reached(Apply(s, step))
  {
    var ss, steps :| EndsIn(ss, steps, s);
    var ss', steps' := ss + [Apply(s, step)], steps + [step];
    assert ss'[0] == ss[0];
    forall i | 0 <= i < |steps'| ensures Enabled(ss'[i], steps'[i]) && ss'[i + 1] == Apply(ss'[i], steps'[i]) {
      if i < |steps| { assert steps'[i] == steps[i] && ss'[i] == ss[i] && ss'[i + 1] == ss[i + 1]; }
    }
    assert EndsIn(ss', steps', Apply(s, step));
  }

  lemma Starts()
    ensures Reached(INITIAL)
  {
    assert EndsIn([INITIAL], [], INITIAL);
  }

  // ---- single steps, by what they ask and what they change ----

  lemma Begins(s: State, t: int, core: int, tick: int)
    requires Reached(s) && t !in s.txns && 0 <= core < 512 && s.last < tick <= s.cur
    ensures Reached(s.(txns := s.txns[t := NewTxn(core, tick)]))
  {
    Go(s, Begin(t, core, tick));
  }

  function AfterInsert(T: Txn, k: Key, x: int, v: Option<Value>): Txn {
    T.(writes := T.writes[x := v], byKey := T.byKey[k := x], inserts := T.inserts + {x}, locked := T.locked + {x})
  }

  lemma Inserts(s: State, t: int, k: Key, x: int, v: Option<Value>)
    requires Reached(s) && In(s, t, Active) && k !in s.tree && x !in s.tuples && k.leaf !in s.txns[t].nodes
    ensures Reached(s.(tuples := s.tuples[x := Tuple(k, [], true, Some(t), Away)], tree := s.tree[k := x],
      vers := s.vers[k.leaf := VersionOf(s.vers, k.leaf) + 1], base := s.base[x := LastWriter(s.lastW, k)],
      txns := s.txns[t := AfterInsert(s.txns[t], k, x, v)]))
  {
    Go(s, Insert(t, k, x, v));
  }

  lemma Puts(s: State, t: int, x: int, v: Option<Value>)
    requires Reached(s) && In(s, t, Active) && x in s.tuples
    ensures var T := s.txns[t];
      Reached(s.(txns := s.txns[t := T.(writes := T.writes[x := v], byKey := T.byKey[s.tuples[x].key := x])]))
  {
    Go(s, Put(t, x, v));
  }

  lemma Reads(s: State, t: int, x: int)
    requires Reached(s) && In(s, t, Active) && x in s.tuples && x !in s.txns[t].writes
    requires !Marker(s.tuples[x]) && s.tuples[x].owner == None
    ensures var T, u := s.txns[t], s.tuples[x];
      Reached(s.(txns := s.txns[t := T.(seen := T.seen + {ReadRec(x, u.key, u.chain[0].tid, u.chain[0].val)})]))
  {
    Go(s, Read(t, x));
  }

  lemma StartsCommit(s: State, t: int)
    requires Reached(s) && In(s, t, Active)
    ensures Reached(s.(txns := s.txns[t := s.txns[t].(phase := Locking)]))
  {
    Go(s, StartCommit(t));
  }

  // A transaction that only wrote tuples it inserted reaches its lock point.
  lemma TakesTid(s: State, t: int, tid: int, w: map<Key, Option<Value>>)
    requires Reached(s) && In(s, t, Locking) && s.txns[t].writes.Keys <= s.txns[t].locked && s.txns[t].seen == {}
    requires s.txns[t].writes != map[] && forall x :: x in s.txns[t].writes && x in s.tuples ==> Marker(s.tuples[x])
    requires 0 < tid && CoreOf(tid) == s.txns[t].core && Epoch(tid) == s.cur && s.txns[t].core !in s.coreTid
    requires forall k :: k in w <==> k in s.txns[t].byKey
    requires forall k :: k in w && k in s.txns[t].byKey ==>
      s.txns[t].byKey[k] in s.txns[t].writes && w[k] == s.txns[t].writes[s.txns[t].byKey[k]]
    ensures var T := s.txns[t];
      Reached(s.(txns := s.txns[t := T.(phase := Validating, pos := |s.order|)], coreTid := s.coreTid[T.core := tid],
                 order := s.order + [Entry(t, T.core, tid, s.cur, w, Open)]))
  {
    var T := s.txns[t];
    Go(s, TakeTid(t, tid));
    assert (map k | k in T.byKey && T.byKey[k] in T.writes :: T.writes[T.byKey[k]]) == w;
  }

  lemma TakesNone(s: State, t: int)
    requires Reached(s) && In(s, t, Locking) && s.txns[t].writes == map[] && s.txns[t].byKey == map[]
    ensures var T := s.txns[t];
      Reached(s.(txns := s.txns[t := T.(phase := Validating, pos := |s.order|)],
                 order := s.order + [Entry(t, T.core, 0, s.cur, map[], Open)]))
  {
    Go(s, TakeTid(t, 0));
    assert Apply(s, TakeTid(t, 0)).order[|s.order|].writes == map[];
  }

  lemma Passes(s: State, t: int, r: ReadRec)
    requires Reached(s) && In(s, t, Validating) && r in s.txns[t].seen && ReadValid(s, s.txns[t], r)
    ensures var T := s.txns[t];
      Reached(s.(txns := s.txns[t :=
        if !Superseded(s, r) then T.(okSeen := T.okSeen[r := LastWriter(s.lastW, r.key)])
        else T.(stale := T.stale[r := s.tuples[r.x].chain[0].src])]))
  {
    Go(s, CheckRead(t, r));
  }

  lemma Decides(s: State, t: int)
    requires Reached(s) && In(s, t, Validating) && s.txns[t].seen <= s.txns[t].okSeen.Keys + s.txns[t].stale.Keys
    requires s.txns[t].nodes == map[] && 0 <= s.txns[t].pos < |s.order|
    ensures var T := s.txns[t];
      Reached(s.(txns := s.txns[t := T.(phase := Installing, pending := T.writes.Keys)],
                 order := s.order[T.pos := s.order[T.pos].(fate := Commit)]))
  {
    Go(s, Decide(t));
  }

  // An insert marker gets its record.
  lemma Installs(s: State, t: int, x: int)
    requires Reached(s) && In(s, t, Installing) && x in s.txns[t].pending && x in s.tuples && x in s.txns[t].writes
    requires Marker(s.tuples[x]) && 99 !in s.tuples && 0 <= s.txns[t].pos < |s.order|
    ensures var T := s.txns[t];
      Reached(s.(txns := s.txns[t := T.(pending := T.pending - {x})], lastW := s.lastW[s.tuples[x].key := T.pos],
                 tuples := s.tuples[x := s.tuples[x].(chain := [Version(s.order[T.pos].tid, T.writes[x], T.pos)])]))
  {
    Go(s, Install(t, x, false, 99));
  }

  lemma Unlocks(s: State, t: int, x: int)
    requires Reached(s) && In(s, t, Installing) && s.txns[t].pending == {} && x in s.txns[t].locked && x in s.tuples
    ensures Reached(s.(tuples := s.tuples[x := s.tuples[x].(owner := None)],
                       txns := s.txns[t := s.txns[t].(locked := s.txns[t].locked - {x})]))
  {
    Go(s, Unlock(t, x));
  }

  // The cleaner locks a deleted tuple and takes its key out of the tree.
  lemma Cleans(s: State, x: int)
    requires Reached(s) && x in s.tuples && s.tuples[x].owner == None && s.tuples[x].cleaner.Away?
    requires Expired(s.tuples[x], s.last) && s.tuples[x].latest
    ensures var u := s.tuples[x];
      Reached(s.(vers := s.vers[u.key.leaf := VersionOf(s.vers, u.key.leaf)], tree := s.tree - {u.key},
                 tuples := s.tuples[x := u.(latest := false, cleaner := Unlinked)]))
  {
    Go(s, CleanLock(x));
    var s1 := s.(tuples := s.tuples[x := s.tuples[x].(cleaner := Locked)]);
    Go(s1, Unlink(x, 0));
    assert s1.tuples[x := s1.tuples[x].(latest := false, cleaner := Unlinked)] ==
           s.tuples[x := s.tuples[x].(latest := false, cleaner := Unlinked)];
  }

  lemma Clears(s: State, x: int)
    requires Reached(s) && x in s.tuples && s.tuples[x].cleaner.Unlinked?
    ensures Reached(s.(tuples := s.tuples[x := s.tuples[x].(cleaner := Away)]))
  {
    Go(s, ClearLatest(x));
  }

  // Ticks pass while nobody runs.
  lemma {:induction false} Rounds(s: State, n: nat)
    requires Reached(s) && s.last == s.cur - 1 && s.snaps == map[] && forall t :: t in s.txns ==> Finished(s.txns[t])
    ensures Reached(s.(cur := s.cur + n, last := s.last + n))
  {
    if n == 0 {
      assert s.(cur := s.cur + n, last := s.last + n) == s;
    } else {
      Rounds(s, n - 1);
      var s1 := s.(cur := s.cur + n - 1, last := s.last + n - 1);
      Go(s1, Tick);
      var s2 := s1.(cur := s1.cur + 1);
      Go(s2, Complete);
      assert Apply(s2, Complete) == s.(cur := s.cur + n, last := s.last + n);
    }
  }

  // ---- the run ----

  // Key k lives in tuple 10 and then in 20, key j in 30.
  const K := Key(0, 0)
  const J := Key(1, 1)

  // The commit ids of the deleting transaction 0 and of transaction 2.
  const TID0 := MakeTid(0, 1, 1)
  const TID2 := MakeTid(2, 1, 26)

  lemma Ids()
    ensures 0 < TID0 && CoreOf(TID0) == 0 && Epoch(TID0) == 1 && RoTick(TID0) == 0
    ensures 0 < TID2 && CoreOf(TID2) == 2 && Epoch(TID2) == 26
  {
    Unpack(0, 1, 1);
    Unpack(2, 1, 26);
  }

  const MARKER0 := Tuple(K, [], true, Some(0), Away)
  const DELETED := Tuple(K, [Version(TID0, None, 0)], true, None, Away)
  const ENTRY0 := Entry(0, 0, TID0, 1, map[K := None], Commit)

  // Transaction 0 inserts k and deletes it again.
  lemma Insert0() returns (s: State)
    ensures Reached(s) && s.cur == 1 && s.last == 0 && s.order == [] && s.coreTid == map[] && s.lastW == map[]
    ensures s.snaps == map[] && s.tuples == map[10 := MARKER0] && s.tree == map[K := 10] && s.txns.Keys == {0}
    ensures s.txns[0] ==
      NewTxn(0, 1).(writes := map[10 := None], byKey := map[K := 10], inserts := {10}, locked := {10})
  {
    Starts();
    Begins(INITIAL, 0, 0, 1);
    s := INITIAL.(txns := map[0 := NewTxn(0, 1)]);
    Inserts(s, 0, K, 10, Some(5));
    var T := AfterInsert(NewTxn(0, 1), K, 10, Some(5));
    s := s.(tuples := s.tuples[10 := MARKER0], tree := s.tree[K := 10], vers := s.vers[0 := 1],
            base := s.base[10 := -1], txns := s.txns[0 := T]);
    Puts(s, 0, 10, None);
    s := s.(txns := s.txns[0 := T.(writes := T.writes[10 := None], byKey := T.byKey[K := 10])]);
  }

  lemma Decide0() returns (s: State)
    ensures Reached(s) && s.cur == 1 && s.last == 0 && s.order == [ENTRY0] && s.lastW == map[] && s.snaps == map[]
    ensures s.tuples == map[10 := MARKER0] && s.tree == map[K := 10] && s.txns.Keys == {0}
    ensures s.coreTid == map[0 := TID0]
    ensures var T := s.txns[0];
      T.phase == Installing && T.pos == 0 && T.writes == map[10 := None] && T.locked == {10} && T.pending == {10}
  {
    Ids();
    s := Insert0();
    StartsCommit(s, 0);
    s := s.(txns := s.txns[0 := s.txns[0].(phase := Locking)]);
    assert 10 in s.txns[0].writes;
    TakesTid(s, 0, TID0, map[K := None]);
    s := s.(txns := s.txns[0 := s.txns[0].(phase := Validating, pos := 0)], coreTid := s.coreTid[0 := TID0],
            order := s.order + [Entry(0, 0, TID0, 1, map[K := None], Open)]);
    Decides(s, 0);
    s := s.(txns := s.txns[0 := s.txns[0].(phase := Installing, pending := s.txns[0].writes.Keys)],
            order := s.order[0 := s.order[0].(fate := Commit)]);
  }

  lemma Delete0() returns (s: State)
    ensures Reached(s) && s.cur == 1 && s.last == 0 && s.order == [ENTRY0] && s.lastW == map[K := 0] && s.snaps == map[]
    ensures s.tuples == map[10 := DELETED] && s.tree == map[K := 10] && s.txns.Keys == {0} && Finished(s.txns[0])
    ensures s.coreTid == map[0 := TID0]
  {
    s := Decide0();
    Installs(s, 0, 10);
    s := s.(txns := s.txns[0 := s.txns[0].(pending := s.txns[0].pending - {10})], lastW := s.lastW[K := 0],
            tuples := s.tuples[10 := s.tuples[10].(chain := [Version(TID0, None, 0)])]);
    Unlocks(s, 0, 10);
    s := s.(tuples := s.tuples[10 := s.tuples[10].(owner := None)],
            txns := s.txns[0 := s.txns[0].(locked := s.txns[0].locked - {10})]);
  }

  const SEEN_K := ReadRec(10, K, TID0, None)
  const UNLINKED := Tuple(K, [Version(TID0, None, 0)], false, None, Unlinked)

  // Long after, transaction 1 reads k, and the cleaner takes it out of the tree.
  lemma Read1() returns (s: State)
    ensures Reached(s) && s.cur == 26 && s.last == 25 && s.order == [ENTRY0] && s.lastW == map[K := 0]
    ensures s.tuples == map[10 := DELETED] && s.tree == map[K := 10] && s.coreTid == map[0 := TID0]
    ensures s.txns.Keys == {0, 1}
    ensures s.txns[1] == NewTxn(1, 26).(seen := {SEEN_K})
  {
    s := Delete0();
    Rounds(s, 25);
    s := s.(cur := 26, last := 25);
    Begins(s, 1, 1, 26);
    s := s.(txns := s.txns[1 := NewTxn(1, 26)]);
    Reads(s, 1, 10);
    s := s.(txns := s.txns[1 := NewTxn(1, 26).(seen := {} + {SEEN_K})]);
  }

  lemma Unlinks() returns (s: State)
    ensures Reached(s) && s.cur == 26 && s.last == 25 && s.order == [ENTRY0] && s.lastW == map[K := 0]
    ensures s.tuples == map[10 := UNLINKED] && s.tree == map[] && s.txns.Keys == {0, 1} && s.coreTid == map[0 := TID0]
    ensures s.txns[1] == NewTxn(1, 26).(seen := {SEEN_K})
  {
    Ids();
    s := Read1();
    Cleans(s, 10);
    s := s.(vers := s.vers[0 := VersionOf(s.vers, 0)], tree := s.tree - {K}, tuples := s.tuples[10 := UNLINKED]);
  }

  const WRITES2: map<int, Option<Value>> := map[20 := Some(7), 30 := Some(2)]
  const WRITTEN2: map<Key, Option<Value>> := map[K := Some(7), J := Some(2)]
  const ENTRY2 := Entry(2, 2, TID2, 26, WRITTEN2, Commit)

  ghost predicate Markers2(u: Tuples) {
    u == map[10 := UNLINKED, 20 := Tuple(K, [], true, Some(2), Away), 30 := Tuple(J, [], true, Some(2), Away)]
  }

  // Transaction 2 inserts k and j, and commits.
  lemma InsertK() returns (s: State)
    ensures Reached(s) && s.cur == 26 && s.order == [ENTRY0] && s.lastW == map[K := 0] && s.coreTid == map[0 := TID0]
    ensures s.tuples == map[10 := UNLINKED, 20 := Tuple(K, [], true, Some(2), Away)] && s.tree == map[K := 20]
    ensures s.txns.Keys == {0, 1, 2} && s.txns[1] == NewTxn(1, 26).(seen := {SEEN_K})
    ensures s.txns[2] == AfterInsert(NewTxn(2, 26), K, 20, Some(7))
  {
    s := Unlinks();
    Begins(s, 2, 2, 26);
    s := s.(txns := s.txns[2 := NewTxn(2, 26)]);
    Inserts(s, 2, K, 20, Some(7));
    s := s.(tuples := s.tuples[20 := Tuple(K, [], true, Some(2), Away)], tree := s.tree[K := 20],
            vers := s.vers[0 := VersionOf(s.vers, 0) + 1], base := s.base[20 := LastWriter(s.lastW, K)],
            txns := s.txns[2 := AfterInsert(s.txns[2], K, 20, Some(7))]);
  }

  lemma Insert2() returns (s: State)
    ensures Reached(s) && s.cur == 26 && s.order == [ENTRY0] && s.lastW == map[K := 0]
    ensures Markers2(s.tuples) && K in s.tree && s.txns.Keys == {0, 1, 2} && s.coreTid == map[0 := TID0]
    ensures s.txns[1] == NewTxn(1, 26).(seen := {SEEN_K})
    ensures s.txns[2] == NewTxn(2, 26).(writes := WRITES2, byKey := map[K := 20, J := 30], inserts := {20, 30},
                                        locked := {20, 30})
  {
    s := InsertK();
    Inserts(s, 2, J, 30, Some(2));
    s := s.(tuples := s.tuples[30 := Tuple(J, [], true, Some(2), Away)], tree := s.tree[J := 30],
            vers := s.vers[1 := VersionOf(s.vers, 1) + 1], base := s.base[30 := LastWriter(s.lastW, J)],
            txns := s.txns[2 := AfterInsert(s.txns[2], J, 30, Some(2))]);
  }

  lemma Decide2() returns (s: State)
    ensures Reached(s) && s.cur == 26 && s.order == [ENTRY0, ENTRY2] && s.lastW == map[K := 0]
    ensures Markers2(s.tuples) && K in s.tree && s.txns.Keys == {0, 1, 2}
    ensures s.txns[1] == NewTxn(1, 26).(seen := {SEEN_K})
    ensures var T := s.txns[2];
      T.phase == Installing && T.pos == 1 && T.writes == WRITES2 && T.locked == {20, 30} && T.pending == {20, 30}
  {
    Ids();
    s := Insert2();
    StartsCommit(s, 2);
    s := s.(txns := s.txns[2 := s.txns[2].(phase := Locking)]);
    assert 20 in s.txns[2].writes;
    TakesTid(s, 2, TID2, WRITTEN2);
    s := s.(txns := s.txns[2 := s.txns[2].(phase := Validating, pos := 1)], coreTid := s.coreTid[2 := TID2],
            order := s.order + [Entry(2, 2, TID2, 26, WRITTEN2, Open)]);
    Decides(s, 2);
    s := s.(txns := s.txns[2 := s.txns[2].(phase := Installing, pending := s.txns[2].writes.Keys)],
            order := s.order[1 := s.order[1].(fate := Commit)]);
  }

  lemma Install2() returns (s: State)
    ensures Reached(s) && s.cur == 26 && s.order == [ENTRY0, ENTRY2] && s.txns.Keys == {0, 1, 2}
    ensures s.tuples.Keys == {10, 20, 30} && s.tuples[10] == UNLINKED && K in s.tree
    ensures s.tuples[30] == Tuple(J, [Version(TID2, Some(2), 1)], true, Some(2), Away)
    ensures s.txns[1] == NewTxn(1, 26).(seen := {SEEN_K})
    ensures var T := s.txns[2]; T.phase == Installing && T.locked == {20, 30} && T.pending == {}
  {
    s := Decide2();
    Installs(s, 2, 20);
    s := s.(txns := s.txns[2 := s.txns[2].(pending := s.txns[2].pending - {20})], lastW := s.lastW[K := 1],
            tuples := s.tuples[20 := s.tuples[20].(chain := [Version(TID2, Some(7), 1)])]);
    Installs(s, 2, 30);
    s := s.(txns := s.txns[2 := s.txns[2].(pending := s.txns[2].pending - {30})], lastW := s.lastW[J := 1],
            tuples := s.tuples[30 := s.tuples[30].(chain := [Version(TID2, Some(2), 1)])]);
  }

  lemma Commit2() returns (s: State)
    ensures Reached(s) && s.order == [ENTRY0, ENTRY2] && s.txns.Keys == {0, 1, 2} && s.cur == 26
    ensures s.tuples.Keys == {10, 20, 30} && s.tuples[10] == UNLINKED && K in s.tree
    ensures s.tuples[30] == Tuple(J, [Version(TID2, Some(2), 1)], true, None, Away)
    ensures s.txns[1] == NewTxn(1, 26).(seen := {SEEN_K})
  {
    s := Install2();
    Unlocks(s, 2, 30);
    s := s.(tuples := s.tuples[30 := s.tuples[30].(owner := None)],
            txns := s.txns[2 := s.txns[2].(locked := s.txns[2].locked - {30})]);
    Unlocks(s, 2, 20);
    s := s.(tuples := s.tuples[20 := s.tuples[20].(owner := None)],
            txns := s.txns[2 := s.txns[2].(locked := s.txns[2].locked - {20})]);
  }

  const SEEN_J := ReadRec(30, J, TID2, Some(2))
  const ENTRY1 := Entry(1, 1, 0, 26, map[], Commit)

  // Transaction 1 reads j and reaches its lock point.
  lemma Lock1() returns (s: State)
    ensures Reached(s) && s.order == [ENTRY0, ENTRY2, ENTRY1.(fate := Open)]
    ensures s.tuples.Keys == {10, 20, 30} && s.tuples[10] == UNLINKED && K in s.tree
    ensures s.tuples[30] == Tuple(J, [Version(TID2, Some(2), 1)], true, None, Away)
    ensures 1 in s.txns && s.txns[1] == NewTxn(1, 26).(seen := {SEEN_K, SEEN_J}, phase := Validating, pos := 2)
  {
    s := Commit2();
    Reads(s, 1, 30);
    s := s.(txns := s.txns[1 := s.txns[1].(seen := s.txns[1].seen + {SEEN_J})]);
    StartsCommit(s, 1);
    s := s.(txns := s.txns[1 := s.txns[1].(phase := Locking)]);
    TakesNone(s, 1);
    s := s.(txns := s.txns[1 := s.txns[1].(phase := Validating, pos := 2)],
            order := s.order + [Entry(1, 1, 0, 26, map[], Open)]);
  }

  // Both reads pass, that of k on a tuple that is no longer in the tree.
  lemma Validate1() returns (s: State)
    ensures Reached(s) && s.order == [ENTRY0, ENTRY2, ENTRY1.(fate := Open)]
    ensures 10 in s.tuples && s.tuples[10] == UNLINKED && In(s, 1, Validating) && s.txns[1].pos == 2
    ensures s.txns[1].seen == {SEEN_K, SEEN_J} && s.txns[1].nodes == map[]
    ensures s.txns[1].okSeen.Keys == {SEEN_J} && s.txns[1].stale == map[SEEN_K := 0]
  {
    s := Lock1();
    Passes(s, 1, SEEN_K);
    s := s.(txns := s.txns[1 := s.txns[1].(stale := s.txns[1].stale[SEEN_K := 0])]);
    Passes(s, 1, SEEN_J);
    s := s.(txns := s.txns[1 := s.txns[1].(okSeen := s.txns[1].okSeen[SEEN_J := LastWriter(s.lastW, J)])]);
  }

  lemma Replayed(order: seq<Entry>)
    requires order == [ENTRY0, ENTRY2, ENTRY1]
    ensures CommitTheorems.Get(CommitTheorems.Replay(order, 2), K) == Some(7)
  {
    assert K in WRITTEN2 && CommitTheorems.Replay(order, 2) == CommitTheorems.Replay(order, 1) + WRITTEN2;
  }

  // Transaction 1 has read j as transaction 2 wrote it, and k as if transaction
  // 2 had not been: no order of the three explains both.
  lemma NotSerializable() returns (s: State)
    ensures Reached(s) && s.order == [ENTRY0, ENTRY2, ENTRY1]
    ensures 1 in s.txns && s.txns[1].phase.Installing? && s.txns[1].pos == 2 && s.txns[1].seen == {SEEN_K, SEEN_J}
    ensures 10 in s.tuples && s.tuples[10].cleaner.Away? && !s.tuples[10].latest
    ensures !CommitTheorems.ReadsRight(s, 1)
  {
    s := Validate1();
    Decides(s, 1);
    s := s.(txns := s.txns[1 := s.txns[1].(phase := Installing, pending := s.txns[1].writes.Keys)],
            order := s.order[2 := s.order[2].(fate := Commit)]);
    Clears(s, 10);
    s := s.(tuples := s.tuples[10 := s.tuples[10].(cleaner := Away)]);
    Replayed(s.order);
    assert SEEN_K in s.txns[1].seen && SEEN_K.val == None;
  }
}
