// Locks, write sets and the tree: what every step of the commit machine keeps.

module CommitStructure {
  import opened Basics
  import opened CommitModel

  // Past the lock point and not aborted.
  predicate Live(T: Txn) { T.phase.Validating? || T.phase.Installing? }

  // The tree maps each key to the one latest tuple of that key.
  ghost predicate TreeInv(u: Tuples, tree: map<Key, int>) {
    && (forall k :: k in tree ==> tree[k] in u && u[tree[k]].key == k && u[tree[k]].latest)
    && (forall x :: x in u && u[x].latest ==> u[x].key in tree && tree[u[x].key] == x)
  }

  // Every lock bit that is set belongs to a transaction that knows it.
  ghost predicate HeldInv(u: Tuples, txns: map<int, Txn>) {
    forall x :: x in u && u[x].owner.Some? ==>
      u[x].cleaner.Away? && u[x].owner.value in txns && x in txns[u[x].owner.value].locked
  }

  // A marker in the tree belongs to the transaction that is inserting it.
  ghost predicate MarkerInv(u: Tuples, txns: map<int, Txn>) {
    forall x :: x in u && u[x].latest && Marker(u[x]) ==>
      u[x].owner.Some? && u[x].owner.value in txns && x in txns[u[x].owner.value].inserts
  }

  ghost predicate Sets(u: Tuples, T: Txn) {
    && T.inserts <= T.writes.Keys && T.locked <= T.writes.Keys && T.pending <= T.locked
    && (forall x :: x in T.writes ==> x in u && u[x].key in T.byKey)
    && (forall k :: k in T.byKey ==> T.byKey[k] in T.writes && T.byKey[k] in u && u[T.byKey[k]].key == k)
    && (forall r :: r in T.seen ==> r.x in u && u[r.x].key == r.key)
  }

  ghost predicate Nodes(vers: map<int, int>, nodes: map<int, int>, missing: set<Key>) {
    && (forall k :: k in missing ==> k.leaf in nodes)
    && (forall n :: n in nodes ==> nodes[n] <= VersionOf(vers, n))
  }

  ghost predicate Phases(u: Tuples, T: Txn) {
    && (T.phase.Active? ==> T.locked == T.inserts)
    && ((T.phase.Locking? || T.phase.Waiting?) ==>
          && T.inserts <= T.locked
          && (forall a, b :: a in T.locked && a !in T.inserts && b in T.writes && b !in T.locked ==> a < b))
    && (T.phase.Waiting? ==> NextToLock(T, T.phase.x) && T.phase.x in u && !Marker(u[T.phase.x]))
    && (T.phase.Validating? ==> T.locked == T.writes.Keys)
    && (!T.phase.Installing? ==> T.pending == {})
    && (T.phase.Installing? && T.pending != {} ==> T.locked == T.writes.Keys)
  }

  // Locked tuples that have not been given their new record yet.
  predicate Untouched(T: Txn, x: int) {
    x in T.locked && (if T.phase.Installing? then x in T.pending else T.phase.Aborting? ==> x in T.inserts)
  }

  ghost predicate Locks(u: Tuples, t: int, T: Txn) {
    && (forall x :: x in T.locked ==> x in u && u[x].owner == Some(t) && (x !in T.inserts ==> !Marker(u[x])))
    && (forall x :: x in u && Untouched(T, x) ==> u[x].latest && (Marker(u[x]) <==> x in T.inserts))
    && (T.phase.Installing? ==> forall x :: x in T.locked && x in u && x !in T.pending ==> !Marker(u[x]))
    && (Live(T) ==> forall x :: x in T.writes && x in u && u[x].key in T.byKey ==> T.byKey[u[x].key] == x)
  }

  ghost predicate Local(u: Tuples, vers: map<int, int>, t: int, T: Txn) {
    Sets(u, T) && Nodes(vers, T.nodes, T.missing) && Phases(u, T) && Locks(u, t, T)
  }

  ghost predicate StructInv(s: State) {
    && TreeInv(s.tuples, s.tree) && HeldInv(s.tuples, s.txns) && MarkerInv(s.tuples, s.txns)
    && (forall t :: t in s.txns ==> Local(s.tuples, s.vers, t, s.txns[t]))
  }

  // Another transaction's step: it changes no tuple that T holds.
  ghost predicate Others(u: Tuples, u': Tuples, T: Txn) {
    && (forall x :: x in u ==> x in u' && u'[x].key == u[x].key && (!Marker(u[x]) ==> !Marker(u'[x])))
    && (forall x :: x in T.locked && x in u ==> u'[x] == u[x])
  }

  // Tuples keep their keys, so a write set keeps pointing at them.
  lemma LookupFrame(u: Tuples, u': Tuples, T: Txn)
    requires Sets(u, T) && forall x :: x in u ==> x in u' && u'[x].key == u[x].key
    ensures Sets(u', T)
  {
    forall x | x in T.writes ensures x in u' && u'[x].key in T.byKey { assert x in u; }
    forall k | k in T.byKey ensures T.byKey[k] in u' && u'[T.byKey[k]].key == k {
      var x := T.byKey[k];
      assert x in u;
    }
    forall r | r in T.seen ensures r.x in u' && u'[r.x].key == r.key { assert r.x in u; }
  }

  lemma LocalFrame(u: Tuples, u': Tuples, vers: map<int, int>, vers': map<int, int>, t: int, T: Txn)
    requires Local(u, vers, t, T) && Others(u, u', T)
    requires forall n :: n in T.nodes ==> VersionOf(vers, n) <= VersionOf(vers', n)
    ensures Local(u', vers', t, T)
  {
    LookupFrame(u, u', T);
    assert Locks(u', t, T);
  }

  // Steps that change nothing but the transaction's own record.
  lemma OwnStep(s: State, t: int, T: Txn)
    requires StructInv(s) && Local(s.tuples, s.vers, t, T)
    requires t in s.txns ==> s.txns[t].locked <= T.locked && s.txns[t].inserts <= T.inserts
    ensures StructInv(SetTxn(s, t, T))
  {
  }


  // T' differs from T only in what it has read or validated.
  predicate SameWrites(T: Txn, T': Txn) {
    && T'.phase == T.phase && T'.writes == T.writes && T'.byKey == T.byKey
    && T'.inserts == T.inserts && T'.locked == T.locked && T'.pending == T.pending
  }

  lemma LocalReads(u: Tuples, vers: map<int, int>, t: int, T: Txn, T': Txn)
    requires Local(u, vers, t, T) && SameWrites(T, T') && Nodes(vers, T'.nodes, T'.missing)
    requires forall r :: r in T'.seen ==> r.x in u && u[r.x].key == r.key
    ensures Local(u, vers, t, T')
  {
    assert Sets(u, T');
    assert Phases(u, T');
    assert Locks(u, t, T');
  }

  lemma LocalAborts(u: Tuples, vers: map<int, int>, t: int, T: Txn)
    requires Local(u, vers, t, T) && !T.phase.Installing?
    ensures Local(u, vers, t, T.(phase := Aborting))
  {
    assert Sets(u, T.(phase := Aborting));
  }

  lemma ReadLocal(s: State, t: int, x: int)
    requires StructInv(s) && Enabled(s, Read(t, x))
    ensures StructInv(DoRead(s, t, x))
  {
    var T := DoRead(s, t, x).txns[t];
    LocalReads(s.tuples, s.vers, t, s.txns[t], T);
    OwnStep(s, t, T);
  }

  lemma NodesMissing(vers: map<int, int>, nodes: map<int, int>, missing: set<Key>, k: Key)
    requires Nodes(vers, nodes, missing)
    ensures Nodes(vers, nodes[k.leaf := VersionOf(vers, k.leaf)], missing + {k})
  {
  }

  lemma MissingLocal(s: State, t: int, k: Key)
    requires StructInv(s) && Enabled(s, ReadMissing(t, k))
    ensures StructInv(DoReadMissing(s, t, k))
  {
    var T := s.txns[t];
    if k.leaf in T.nodes && T.nodes[k.leaf] != VersionOf(s.vers, k.leaf) {
      LocalAborts(s.tuples, s.vers, t, T);
      OwnStep(s, t, T.(phase := Aborting));
    } else {
      var T' := T.(nodes := T.nodes[k.leaf := VersionOf(s.vers, k.leaf)], missing := T.missing + {k});
      NodesMissing(s.vers, T.nodes, T.missing, k);
      LocalReads(s.tuples, s.vers, t, T, T');
      OwnStep(s, t, T');
    }
  }

  lemma PutLocal(s: State, t: int, x: int, v: Option<Value>)
    requires StructInv(s) && Enabled(s, Put(t, x, v))
    ensures StructInv(DoPut(s, t, x, v))
  {
    OwnStep(s, t, DoPut(s, t, x, v).txns[t]);
  }

  lemma CheckLocal(s: State, t: int, x: int)
    requires StructInv(s) && Enabled(s, Check(t, x))
    ensures StructInv(DoCheck(s, t, x))
  {
    OwnStep(s, t, DoCheck(s, t, x).txns[t]);
  }

  // A step of t that changes tuples: t's own record, everybody else's, and the three global parts.
  ghost predicate Global(u: Tuples, tree: map<Key, int>, txns: map<int, Txn>) {
    TreeInv(u, tree) && HeldInv(u, txns) && MarkerInv(u, txns)
  }

  // u' changes only x, which is free or held by t, and may add tuples.
  ghost predicate Only(u: Tuples, u': Tuples, x: int, t: int) {
    && (forall z :: z in u && z != x ==> z in u' && u'[z] == u[z])
    && (x in u ==>
          && x in u' && u'[x].key == u[x].key && (!Marker(u[x]) ==> !Marker(u'[x]))
          && (u[x].owner == None || u[x].owner == Some(t)))
  }

  lemma OthersKeep(s: State, u': Tuples, vers': map<int, int>, x: int, t: int)
    requires StructInv(s) && Only(s.tuples, u', x, t)
    requires forall n :: VersionOf(s.vers, n) <= VersionOf(vers', n)
    ensures forall o :: o in s.txns && (o != t || (x in s.tuples && s.tuples[x].owner == None)) ==>
      Local(u', vers', o, s.txns[o])
  {
    forall o | o in s.txns && (o != t || (x in s.tuples && s.tuples[x].owner == None))
      ensures Local(u', vers', o, s.txns[o])
    {
      LocalFrame(s.tuples, u', s.vers, vers', o, s.txns[o]);
    }
  }

  lemma AcquireOwn(u: Tuples, vers: map<int, int>, t: int, T: Txn)
    requires Local(u, vers, t, T) && T.phase.Waiting?
    ensures var x := T.phase.x;
      Local(u[x := u[x].(owner := Some(t))], vers, t,
            T.(locked := T.locked + {x}, phase := if u[x].latest then Locking else Aborting))
  {
  }

  lemma AcquireGlobal(u: Tuples, tree: map<Key, int>, txns: map<int, Txn>, t: int, x: int, p: Phase)
    requires Global(u, tree, txns) && t in txns && x in u && u[x].owner == None && u[x].cleaner.Away?
    ensures Global(u[x := u[x].(owner := Some(t))], tree,
      txns[t := txns[t].(locked := txns[t].locked + {x}, phase := p)])
  {
  }

  lemma AcquireStruct(s: State, t: int)
    requires StructInv(s) && Enabled(s, Acquire(t))
    ensures StructInv(DoAcquire(s, t))
  {
    var s' := DoAcquire(s, t);
    var x := s.txns[t].phase.x;
    AcquireOwn(s.tuples, s.vers, t, s.txns[t]);
    AcquireGlobal(s.tuples, s.tree, s.txns, t, x, s'.txns[t].phase);
    OthersKeep(s, s'.tuples, s.vers, x, t);
  }

  lemma NodesInsert(vers: map<int, int>, nodes: map<int, int>, missing: set<Key>, n: int)
    requires Nodes(vers, nodes, missing)
    ensures var v := VersionOf(vers, n) + 1;
      Nodes(vers[n := v], nodes, missing) && (n in nodes ==> Nodes(vers[n := v], nodes[n := v], missing))
  {
  }

  function Inserted(T: Txn, k: Key, x: int, v: Option<Value>, p: Phase, nodes: map<int, int>): Txn {
    T.(writes := T.writes[x := v], byKey := T.byKey[k := x], inserts := T.inserts + {x},
       locked := T.locked + {x}, phase := p, nodes := nodes)
  }

  lemma InsertLocal(u: Tuples, vers: map<int, int>, vers': map<int, int>, t: int, T: Txn,
                    k: Key, x: int, v: Option<Value>, p: Phase, nodes: map<int, int>)
    requires Local(u, vers, t, T) && T.phase.Active? && x !in u && (p.Active? || p.Aborting?)
    requires Nodes(vers', nodes, T.missing)
    ensures Local(u[x := Tuple(k, [], true, Some(t), Away)], vers', t, Inserted(T, k, x, v, p, nodes))
  {
  }

  lemma InsertOwn(s: State, t: int, k: Key, x: int, v: Option<Value>)
    requires Enabled(s, Insert(t, k, x, v)) && Local(s.tuples, s.vers, t, s.txns[t])
    ensures var s' := DoInsert(s, t, k, x, v); Local(s'.tuples, s'.vers, t, s'.txns[t])
  {
    var s' := DoInsert(s, t, k, x, v);
    var T := s.txns[t];
    NodesInsert(s.vers, T.nodes, T.missing, k.leaf);
    InsertShape(s, t, k, x, v);
    InsertLocal(s.tuples, s.vers, s'.vers, t, T, k, x, v, s'.txns[t].phase, s'.txns[t].nodes);
  }

  lemma InsertShape(s: State, t: int, k: Key, x: int, v: Option<Value>)
    requires Enabled(s, Insert(t, k, x, v))
    ensures var s', T, n := DoInsert(s, t, k, x, v), s.txns[t], VersionOf(s.vers, k.leaf) + 1;
      && s'.tuples == s.tuples[x := Tuple(k, [], true, Some(t), Away)] && s'.vers == s.vers[k.leaf := n]
      && t in s'.txns && s'.txns[t] == Inserted(T, k, x, v, s'.txns[t].phase, s'.txns[t].nodes)
      && (s'.txns[t].phase.Active? || s'.txns[t].phase.Aborting?)
      && (s'.txns[t].nodes == T.nodes || (k.leaf in T.nodes && s'.txns[t].nodes == T.nodes[k.leaf := n]))
  {
  }

  lemma InsertGlobal(u: Tuples, tree: map<Key, int>, txns: map<int, Txn>, t: int, k: Key, x: int, T: Txn)
    requires Global(u, tree, txns) && t in txns && x !in u && k !in tree
    requires T.locked == txns[t].locked + {x} && T.inserts == txns[t].inserts + {x}
    ensures Global(u[x := Tuple(k, [], true, Some(t), Away)], tree[k := x], txns[t := T])
  {
  }

  lemma InsertStruct(s: State, t: int, k: Key, x: int, v: Option<Value>)
    requires StructInv(s) && Enabled(s, Insert(t, k, x, v))
    ensures StructInv(DoInsert(s, t, k, x, v))
  {
    var s' := DoInsert(s, t, k, x, v);
    InsertOwn(s, t, k, x, v);
    InsertGlobal(s.tuples, s.tree, s.txns, t, k, x, s'.txns[t]);
    OthersKeep(s, s'.tuples, s'.vers, x, t);
  }

  lemma TakeTidStruct(s: State, t: int, tid: int)
    requires StructInv(s) && Enabled(s, TakeTid(t, tid))
    ensures StructInv(DoTakeTid(s, t, tid))
  {
    var s' := DoTakeTid(s, t, tid);
    assert Sets(s.tuples, s'.txns[t]);
    assert Locks(s.tuples, t, s'.txns[t]);
    OwnStep(s, t, s'.txns[t]);
  }

  lemma FailStruct(s: State, t: int)
    requires StructInv(s) && In(s, t, Validating)
    ensures StructInv(Fail(s, t))
  {
    LocalAborts(s.tuples, s.vers, t, s.txns[t]);
    OwnStep(s, t, Fail(s, t).txns[t]);
  }

  // More of its reads are validated.
  lemma ValidatedStruct(s: State, t: int, T: Txn)
    requires StructInv(s) && In(s, t, Validating)
    requires T == s.txns[t].(okSeen := T.okSeen, okNodes := T.okNodes, okMissing := T.okMissing, stale := T.stale)
    ensures StructInv(SetTxn(s, t, T))
  {
    assert Local(s.tuples, s.vers, t, s.txns[t]);
    LocalReads(s.tuples, s.vers, t, s.txns[t], T);
    OwnStep(s, t, T);
  }

  lemma CheckReadStruct(s: State, t: int, r: ReadRec)
    requires StructInv(s) && Enabled(s, CheckRead(t, r))
    ensures StructInv(DoCheckRead(s, t, r))
  {
    if ReadValid(s, s.txns[t], r) { ValidatedStruct(s, t, DoCheckRead(s, t, r).txns[t]); } else { FailStruct(s, t); }
  }

  lemma CheckNodeStruct(s: State, t: int, n: int)
    requires StructInv(s) && Enabled(s, CheckNode(t, n))
    ensures StructInv(DoCheckNode(s, t, n))
  {
    if s.txns[t].nodes[n] == VersionOf(s.vers, n) {
      ValidatedStruct(s, t, DoCheckNode(s, t, n).txns[t]);
    } else {
      FailStruct(s, t);
    }
  }

  lemma DecideOwn(u: Tuples, vers: map<int, int>, t: int, T: Txn)
    requires Local(u, vers, t, T) && T.phase.Validating?
    ensures Local(u, vers, t, T.(phase := Installing, pending := T.writes.Keys))
  {
    assert Sets(u, T.(phase := Installing, pending := T.writes.Keys));
  }

  lemma DecideStruct(s: State, t: int)
    requires StructInv(s) && Enabled(s, Decide(t))
    ensures StructInv(DoDecide(s, t))
  {
    DecideOwn(s.tuples, s.vers, t, s.txns[t]);
    OwnStep(s, t, DoDecide(s, t).txns[t]);
  }

  lemma InstallOwn(u: Tuples, u': Tuples, vers: map<int, int>, t: int, T: Txn, x: int)
    requires Local(u, vers, t, T) && T.phase.Installing? && x in T.pending && x in u && Only(u, u', x, t)
    requires u'[x].owner == u[x].owner && !Marker(u'[x])
    ensures Local(u', vers, t, T.(pending := T.pending - {x}))
  {
    var T' := T.(pending := T.pending - {x});
    LookupFrame(u, u', T);
    assert Sets(u', T');
    assert Locks(u', t, T');
  }

  lemma InstallGlobal(u: Tuples, tree: map<Key, int>, txns: map<int, Txn>, t: int, x: int, c: seq<Version>, y: int)
    requires Global(u, tree, txns) && t in txns && x in u && c != [] && u[x].latest && y !in u
    ensures var txns' := txns[t := txns[t].(pending := txns[t].pending - {x})];
      && Global(u[x := u[x].(chain := c)], tree, txns')
      && Global(u[x := u[x].(latest := false)][y := Tuple(u[x].key, c, true, None, Away)], tree[u[x].key := y], txns')
  {
  }

  lemma InstallOnly(u: Tuples, t: int, x: int, c: seq<Version>, y: int)
    requires x in u && y !in u && c != [] && u[x].owner == Some(t)
    ensures Only(u, u[x := u[x].(chain := c)], x, t)
    ensures Only(u, u[x := u[x].(latest := false)][y := Tuple(u[x].key, c, true, None, Away)], x, t)
  {
  }

  // Either form of the install, with s' given by its parts.
  lemma InstallParts(s: State, s': State, t: int, x: int)
    requires StructInv(s) && t in s.txns && s.txns[t].phase.Installing? && x in s.txns[t].pending && x in s.tuples
    requires Only(s.tuples, s'.tuples, x, t) && s'.tuples[x].owner == s.tuples[x].owner && !Marker(s'.tuples[x])
    requires s'.txns == s.txns[t := s.txns[t].(pending := s.txns[t].pending - {x})] && s'.vers == s.vers
    requires Global(s'.tuples, s'.tree, s'.txns)
    ensures StructInv(s')
  {
    InstallOwn(s.tuples, s'.tuples, s.vers, t, s.txns[t], x);
    OthersKeep(s, s'.tuples, s'.vers, x, t);
  }

  // The two shapes of an install.
  lemma InstallShape(s: State, t: int, x: int, fits: bool, y: int, c: seq<Version>)
    requires Enabled(s, Install(t, x, fits, y))
    requires c == NewChain(s.tuples[x].chain,
      Version(s.order[s.txns[t].pos].tid, s.txns[t].writes[x], s.txns[t].pos), fits)
    ensures c != []
    ensures var s' := DoInstall(s, t, x, fits, y); var u := s.tuples;
      && s'.txns == s.txns[t := s.txns[t].(pending := s.txns[t].pending - {x})] && s'.vers == s.vers
      && if InPlace(u[x].chain, fits) then s'.tuples == u[x := u[x].(chain := c)] && s'.tree == s.tree
         else && s'.tuples == u[x := u[x].(latest := false)][y := Tuple(u[x].key, c, true, None, Away)]
              && s'.tree == s.tree[u[x].key := y]
  {
  }

  lemma InstallStruct(s: State, t: int, x: int, fits: bool, y: int)
    requires StructInv(s) && Enabled(s, Install(t, x, fits, y))
    ensures StructInv(DoInstall(s, t, x, fits, y))
  {
    var T := s.txns[t];
    var c := NewChain(s.tuples[x].chain, Version(s.order[T.pos].tid, T.writes[x], T.pos), fits);
    assert s.tuples[x].latest && s.tuples[x].owner == Some(t) by {
      assert Local(s.tuples, s.vers, t, T) && Untouched(T, x);
    }
    InstallShape(s, t, x, fits, y, c);
    InstallGlobal(s.tuples, s.tree, s.txns, t, x, c, y);
    InstallOnly(s.tuples, t, x, c, y);
    InstallParts(s, DoInstall(s, t, x, fits, y), t, x);
  }

  // Giving a lock back, after an install or on the abort of a plain write.
  lemma DropOwner(u: Tuples, vers: map<int, int>, t: int, T: Txn, x: int)
    requires Local(u, vers, t, T) && x in T.locked && x in u && T.pending == {} && !Marker(u[x])
    requires T.phase.Installing? || T.phase.Aborting?
    ensures Local(u[x := u[x].(owner := None)], vers, t, T.(locked := T.locked - {x}))
  {
    assert Sets(u[x := u[x].(owner := None)], T.(locked := T.locked - {x}));
  }

  lemma DropGlobal(u: Tuples, tree: map<Key, int>, txns: map<int, Txn>, t: int, x: int)
    requires Global(u, tree, txns) && t in txns && x in u && !Marker(u[x]) && u[x].owner == Some(t)
    ensures Global(u[x := u[x].(owner := None)], tree, txns[t := txns[t].(locked := txns[t].locked - {x})])
  {
  }

  lemma UnlockStruct(s: State, t: int, x: int)
    requires StructInv(s) && Enabled(s, Unlock(t, x))
    ensures StructInv(DoUnlock(s, t, x))
  {
    var s' := DoUnlock(s, t, x);
    assert !Marker(s.tuples[x]) && s.tuples[x].owner == Some(t) by { assert Local(s.tuples, s.vers, t, s.txns[t]); }
    DropOwner(s.tuples, s.vers, t, s.txns[t], x);
    DropGlobal(s.tuples, s.tree, s.txns, t, x);
    OthersKeep(s, s'.tuples, s'.vers, x, t);
  }

  // The marker of an aborted insert leaves the tree for good.
  lemma DropMarker(u: Tuples, vers: map<int, int>, vers': map<int, int>, t: int, T: Txn, x: int)
    requires Local(u, vers, t, T) && x in T.locked && x in u && T.phase.Aborting?
    requires forall n :: VersionOf(vers, n) <= VersionOf(vers', n)
    ensures Local(u[x := u[x].(owner := None, latest := false)], vers', t, T.(locked := T.locked - {x}))
  {
    var T' := T.(locked := T.locked - {x});
    assert Sets(u[x := u[x].(owner := None, latest := false)], T');
  }

  lemma DropMarkerGlobal(u: Tuples, tree: map<Key, int>, txns: map<int, Txn>, t: int, x: int)
    requires Global(u, tree, txns) && t in txns && x in u && u[x].owner == Some(t) && u[x].latest
    ensures Global(u[x := u[x].(owner := None, latest := false)], tree - {u[x].key},
                   txns[t := txns[t].(locked := txns[t].locked - {x})])
  {
  }

  lemma ReleaseMarker(s: State, t: int, x: int, bump: nat)
    requires StructInv(s) && Enabled(s, Release(t, x, bump)) && x in s.txns[t].inserts
    ensures StructInv(DoRelease(s, t, x, bump))
  {
    var s' := DoRelease(s, t, x, bump);
    var T := s.txns[t];
    assert Local(s.tuples, s.vers, t, T);
    DropMarker(s.tuples, s.vers, s'.vers, t, T, x);
    DropMarkerGlobal(s.tuples, s.tree, s.txns, t, x);
    OthersKeep(s, s'.tuples, s'.vers, x, t);
  }

  lemma ReleaseStruct(s: State, t: int, x: int, bump: nat)
    requires StructInv(s) && Enabled(s, Release(t, x, bump))
    ensures StructInv(DoRelease(s, t, x, bump))
  {
    if x in s.txns[t].inserts {
      ReleaseMarker(s, t, x, bump);
    } else {
      assert Local(s.tuples, s.vers, t, s.txns[t]);
      DropOwner(s.tuples, s.vers, t, s.txns[t], x);
      DropGlobal(s.tuples, s.tree, s.txns, t, x);
      OthersKeep(s, s.tuples[x := s.tuples[x].(owner := None)], s.vers, x, t);
    }
  }

  // Nobody owns a tuple that the cleaner has locked.
  lemma UnlinkGlobal(u: Tuples, tree: map<Key, int>, txns: map<int, Txn>, x: int)
    requires Global(u, tree, txns) && x in u && u[x].latest && !u[x].cleaner.Away?
    ensures u[x].owner == None && !Marker(u[x])
    ensures Global(u[x := u[x].(latest := false, cleaner := Unlinked)], tree - {u[x].key}, txns)
  {
  }

  lemma UnlinkStruct(s: State, x: int, bump: nat)
    requires StructInv(s) && Enabled(s, Unlink(x, bump))
    ensures s.tuples[x].owner == None && !Marker(s.tuples[x])
    ensures StructInv(DoUnlink(s, x, bump))
  {
    var s' := DoUnlink(s, x, bump);
    UnlinkGlobal(s.tuples, s.tree, s.txns, x);
    OthersKeep(s, s'.tuples, s'.vers, x, -1);
  }

  lemma CleanerGlobal(u: Tuples, tree: map<Key, int>, txns: map<int, Txn>, x: int, c: Cleaner)
    requires Global(u, tree, txns) && x in u && u[x].owner == None
    ensures Global(u[x := u[x].(cleaner := c)], tree, txns)
  {
  }

  lemma CleanerStruct(s: State, x: int, c: Cleaner)
    requires StructInv(s) && x in s.tuples && s.tuples[x].owner == None
    ensures StructInv(SetCleaner(s, x, c))
  {
    CleanerGlobal(s.tuples, s.tree, s.txns, x, c);
    OthersKeep(s, SetCleaner(s, x, c).tuples, s.vers, x, -1);
  }

  lemma CutFrame(u: Tuples, vers: map<int, int>, t: int, T: Txn, x: int, i: nat)
    requires Local(u, vers, t, T) && x in u && 0 < i <= |u[x].chain|
    ensures Local(u[x := u[x].(chain := u[x].chain[..i])], vers, t, T)
  {
    var u' := u[x := u[x].(chain := u[x].chain[..i])];
    LookupFrame(u, u', T);
    assert Locks(u', t, T);
  }

  lemma CutStruct(s: State, x: int, i: nat)
    requires StructInv(s) && Enabled(s, Cut(x, i))
    ensures StructInv(Apply(s, Cut(x, i)))
  {
    forall o | o in s.txns ensures Local(Apply(s, Cut(x, i)).tuples, s.vers, o, s.txns[o]) {
      CutFrame(s.tuples, s.vers, o, s.txns[o], x, i);
    }
  }
}
