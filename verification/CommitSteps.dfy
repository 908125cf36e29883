// Every step of the commit machine keeps the whole invariant.

module CommitSteps {
  import opened Basics
  import opened Tids
  import opened CommitModel
  import opened CommitStructure
  import opened CommitOrder
  import opened CommitValues
  import opened CommitSnapshots

  ghost predicate FullInv(s: State) { Inv(s) && SnapshotInv(s) }

  // Steps before the lock point that change only the transaction's own record.
  lemma EarlyStep(s: State, t: int, T: Txn)
    requires FullInv(s) && t in s.txns && !Live(s.txns[t]) && !s.txns[t].phase.Aborting? && !Live(T)
    requires T.tick == s.txns[t].tick && T.pos == s.txns[t].pos && T.core == s.txns[t].core
    requires StructInv(SetTxn(s, t, T)) && ValueInv(SetTxn(s, t, T))
    ensures FullInv(SetTxn(s, t, T))
  {
    assert Placed(s.order, t, s.txns[t]);
    KinOrder(s, SetTxn(s, t, T), t);
    KinClock(s, SetTxn(s, t, T), t);
  }

  // A new transaction owns nothing and has done nothing.
  lemma BeginOrder(s: State, t: int, core: int, tick: int)
    requires OrderInv(s) && ClockInv(s) && t !in s.txns && s.last < tick <= s.cur
    ensures OrderInv(SetTxn(s, t, NewTxn(core, tick))) && ClockInv(SetTxn(s, t, NewTxn(core, tick)))
  {
    forall o | o in s.txns ensures Placed(s.order, o, s.txns[o]) {}
  }

  lemma BeginStruct(s: State, t: int, core: int, tick: int)
    requires StructInv(s) && t !in s.txns
    ensures StructInv(SetTxn(s, t, NewTxn(core, tick)))
  {
    OwnStep(s, t, NewTxn(core, tick));
  }

  lemma BeginStep(s: State, t: int, core: int, tick: int)
    requires FullInv(s) && Enabled(s, Begin(t, core, tick))
    ensures FullInv(SetTxn(s, t, NewTxn(core, tick)))
  {
    BeginStruct(s, t, core, tick);
    BeginValues(s, t, core, tick);
    BeginOrder(s, t, core, tick);
  }

  lemma ReadStep(s: State, t: int, x: int)
    requires FullInv(s) && Enabled(s, Read(t, x))
    ensures FullInv(DoRead(s, t, x))
  {
    ReadLocal(s, t, x);
    ReadValues(s, t, x);
    EarlyStep(s, t, DoRead(s, t, x).txns[t]);
  }

  lemma ReadMissingStep(s: State, t: int, k: Key)
    requires FullInv(s) && Enabled(s, ReadMissing(t, k))
    ensures FullInv(DoReadMissing(s, t, k))
  {
    var T := s.txns[t];
    var v := VersionOf(s.vers, k.leaf);
    if k.leaf in T.nodes && T.nodes[k.leaf] != v {
      PhaseStep(s, t, Aborting);
    } else {
      NewMissingStep(s, t, k, T.(nodes := T.nodes[k.leaf := v], missing := T.missing + {k}));
    }
  }

  lemma NewMissingStep(s: State, t: int, k: Key, T: Txn)
    requires FullInv(s) && Enabled(s, ReadMissing(t, k)) && DoReadMissing(s, t, k) == SetTxn(s, t, T)
    requires T == s.txns[t].(nodes := T.nodes, missing := T.missing)
    ensures FullInv(SetTxn(s, t, T))
  {
    assert Local(s.tuples, s.vers, t, s.txns[t]);
    MissingLocal(s, t, k);
    ReadMissingValues(s, t, k);
    EarlyStep(s, t, T);
  }

  lemma PutStep(s: State, t: int, x: int, v: Option<Value>)
    requires FullInv(s) && Enabled(s, Put(t, x, v))
    ensures FullInv(DoPut(s, t, x, v))
  {
    var T := DoPut(s, t, x, v).txns[t];
    PutLocal(s, t, x, v);
    EarlyValues(s, t, T);
    EarlyStep(s, t, T);
  }

  lemma PhaseStep(s: State, t: int, p: Phase)
    requires FullInv(s) && In(s, t, Active) && (p == Locking || p == Aborting)
    ensures FullInv(SetTxn(s, t, s.txns[t].(phase := p)))
  {
    var T := s.txns[t].(phase := p);
    assert Local(s.tuples, s.vers, t, s.txns[t]);
    assert Local(s.tuples, s.vers, t, T);
    OwnStep(s, t, T);
    EarlyValues(s, t, T);
    EarlyStep(s, t, T);
  }

  lemma CheckStep(s: State, t: int, x: int)
    requires FullInv(s) && Enabled(s, Check(t, x))
    ensures FullInv(DoCheck(s, t, x))
  {
    var T := DoCheck(s, t, x).txns[t];
    CheckLocal(s, t, x);
    EarlyValues(s, t, T);
    EarlyStep(s, t, T);
  }

  // Steps that change tuples but not the order: the parts that remain.
  ghost predicate Rest(s: State, s': State, t: int) {
    && t in s.txns && t in s'.txns && Kin(s.txns[t], s'.txns[t])
    && s'.txns == s.txns[t := s'.txns[t]] && s'.order == s.order && s'.coreTid == s.coreTid
    && s'.cur == s.cur && s'.last == s.last && s'.snaps == s.snaps
    && ChainsInv(s'.order, s'.lastW, s'.last, s'.base, s'.tuples)
  }

  lemma TupleStep(s: State, s': State, t: int)
    requires FullInv(s) && Rest(s, s', t) && StructInv(s') && ValueInv(s')
    ensures FullInv(s')
  {
    KinOrder(s, s', t);
    KinClock(s, s', t);
  }

  lemma InsertRest(s: State, t: int, k: Key, x: int, v: Option<Value>)
    requires OrderInv(s) && SnapshotInv(s) && SyncInv(s.order, s.lastW, s.tuples, s.tree, s.last)
    requires Enabled(s, Insert(t, k, x, v))
    ensures Rest(s, DoInsert(s, t, k, x, v), t)
  {
    assert Placed(s.order, t, s.txns[t]);
    InsertChains(s.order, s.lastW, s.tuples, s.tree, s.last, s.base, k, x, t);
  }

  lemma InsertStep(s: State, t: int, k: Key, x: int, v: Option<Value>)
    requires FullInv(s) && Enabled(s, Insert(t, k, x, v))
    ensures FullInv(DoInsert(s, t, k, x, v))
  {
    InsertStruct(s, t, k, x, v);
    InsertValues(s, t, k, x, v);
    InsertRest(s, t, k, x, v);
    TupleStep(s, DoInsert(s, t, k, x, v), t);
  }

  lemma AcquireRest(s: State, t: int)
    requires OrderInv(s) && SnapshotInv(s) && Enabled(s, Acquire(t))
    ensures Rest(s, DoAcquire(s, t), t)
  {
    assert Placed(s.order, t, s.txns[t]);
    ChainsFrame(s.order, s.lastW, s.last, s.base, s.tuples, DoAcquire(s, t).tuples);
  }

  lemma AcquireStep(s: State, t: int)
    requires FullInv(s) && Enabled(s, Acquire(t))
    ensures FullInv(DoAcquire(s, t))
  {
    AcquireStruct(s, t);
    AcquireValues(s, t);
    AcquireRest(s, t);
    TupleStep(s, DoAcquire(s, t), t);
  }

  lemma InstallKin(s: State, t: int, x: int, fits: bool, y: int)
    requires Enabled(s, Install(t, x, fits, y))
    ensures var s' := DoInstall(s, t, x, fits, y);
      && t in s'.txns && Kin(s.txns[t], s'.txns[t]) && s'.txns == s.txns[t := s'.txns[t]] && s'.order == s.order
      && s'.coreTid == s.coreTid && s'.cur == s.cur && s'.last == s.last && s'.snaps == s.snaps
  {
  }

  lemma InstallRest(s: State, t: int, x: int, fits: bool, y: int)
    requires Installer(s, t, x) && Enabled(s, Install(t, x, fits, y))
    requires ChainsInv(s.order, s.lastW, s.last, s.base, s.tuples)
    ensures Rest(s, DoInstall(s, t, x, fits, y), t)
  {
    InstallKin(s, t, x, fits, y);
    InstallSnapshots(s, t, x, fits, y);
  }

  lemma InstallStep(s: State, t: int, x: int, fits: bool, y: int)
    requires FullInv(s) && Enabled(s, Install(t, x, fits, y))
    ensures FullInv(DoInstall(s, t, x, fits, y))
  {
    InstallStruct(s, t, x, fits, y);
    InstallValues(s, t, x, fits, y);
    InstallerReady(s, t, x, fits, y);
    InstallRest(s, t, x, fits, y);
    TupleStep(s, DoInstall(s, t, x, fits, y), t);
  }

  lemma UnlockRest(s: State, t: int, x: int)
    requires OrderInv(s) && SnapshotInv(s) && Enabled(s, Unlock(t, x))
    ensures Rest(s, DoUnlock(s, t, x), t)
  {
    assert Placed(s.order, t, s.txns[t]);
    ChainsFrame(s.order, s.lastW, s.last, s.base, s.tuples, DoUnlock(s, t, x).tuples);
  }

  lemma UnlockStep(s: State, t: int, x: int)
    requires FullInv(s) && Enabled(s, Unlock(t, x))
    ensures FullInv(DoUnlock(s, t, x))
  {
    UnlockStruct(s, t, x);
    UnlockValues(s, t, x);
    UnlockRest(s, t, x);
    TupleStep(s, DoUnlock(s, t, x), t);
  }

  // Only x is touched, and its record is not.
  ghost predicate Released(s: State, s': State, t: int, x: int) {
    && t in s.txns && s'.txns == s.txns[t := s.txns[t].(locked := s.txns[t].locked - {x})]
    && x in s.tuples && x in s'.tuples && s'.tuples == s.tuples[x := s'.tuples[x]]
    && s'.tuples[x].chain == s.tuples[x].chain && s'.tuples[x].key == s.tuples[x].key
    && (s'.tuples[x].latest ==> s.tuples[x].latest)
    && s'.order == s.order && s'.lastW == s.lastW && s'.base == s.base && s'.coreTid == s.coreTid
    && s'.cur == s.cur && s'.last == s.last && s'.snaps == s.snaps && s'.gone == s.gone
  }

  lemma ReleaseForm(s: State, t: int, x: int, bump: nat)
    requires Enabled(s, Release(t, x, bump))
    ensures Released(s, DoRelease(s, t, x, bump), t, x)
  {
    var s' := DoRelease(s, t, x, bump);
    var u := s.tuples[x];
    if x in s.txns[t].inserts {
      assert s'.tuples == s.tuples[x := u.(owner := None, latest := false)];
    } else {
      assert s'.tuples == s.tuples[x := u.(owner := None)];
    }
  }

  lemma ReleaseRest(s: State, s': State, t: int, x: int)
    requires In(s, t, Aborting) && Placed(s.order, t, s.txns[t]) && x in s.txns[t].locked && Released(s, s', t, x)
    requires ChainsInv(s.order, s.lastW, s.last, s.base, s.tuples)
    ensures Rest(s, s', t)
  {
    ChainsFrame(s.order, s.lastW, s.last, s.base, s.tuples, s'.tuples);
  }

  lemma ReleaseStep(s: State, t: int, x: int, bump: nat)
    requires FullInv(s) && Enabled(s, Release(t, x, bump))
    ensures FullInv(DoRelease(s, t, x, bump))
  {
    ReleaseStruct(s, t, x, bump);
    ReleaseValues(s, t, x, bump);
    ReleaseForm(s, t, x, bump);
    ReleaseRest(s, DoRelease(s, t, x, bump), t, x);
    TupleStep(s, DoRelease(s, t, x, bump), t);
  }

  // Cleaner steps leave transactions, order and clock alone.
  lemma CleanerStep(s: State, s': State)
    requires OrderInv(s) && ClockInv(s) && SnapshotInv(s) && StructInv(s') && ValueInv(s')
    requires s'.txns == s.txns && s'.order == s.order && s'.coreTid == s.coreTid
    requires s'.cur == s.cur && s'.last == s.last && s'.snaps == s.snaps
    requires ChainsInv(s'.order, s'.lastW, s'.last, s'.base, s'.tuples)
    ensures FullInv(s')
  {
  }

  lemma UnlinkChains(s: State, x: int, bump: nat)
    requires ChainsInv(s.order, s.lastW, s.last, s.base, s.tuples) && Enabled(s, Unlink(x, bump))
    ensures ChainsInv(s.order, s.lastW, s.last, s.base, DoUnlink(s, x, bump).tuples)
  {
    ChainsFrame(s.order, s.lastW, s.last, s.base, s.tuples, DoUnlink(s, x, bump).tuples);
  }

  lemma UnlinkStep(s: State, x: int, bump: nat)
    requires FullInv(s) && Enabled(s, Unlink(x, bump)) && Expired(s.tuples[x], s.last)
    ensures FullInv(Apply(s, Unlink(x, bump)))
  {
    UnlinkStruct(s, x, bump);
    UnlinkValues(s, x, bump);
    UnlinkChains(s, x, bump);
    CleanerStep(s, DoUnlink(s, x, bump));
  }

  // The cleaner's lock is taken or dropped.
  lemma SetCleanerStep(s: State, x: int, c: Cleaner)
    requires FullInv(s) && x in s.tuples && s.tuples[x].owner == None
    ensures FullInv(SetCleaner(s, x, c))
  {
    CleanerStruct(s, x, c);
    CleanerValues(s, x, c);
    ChainsFrame(s.order, s.lastW, s.last, s.base, s.tuples, SetCleaner(s, x, c).tuples);
    CleanerStep(s, SetCleaner(s, x, c));
  }

  lemma CutStep(s: State, x: int, i: nat)
    requires FullInv(s) && Enabled(s, Cut(x, i))
    ensures FullInv(Apply(s, Cut(x, i)))
  {
    CutStruct(s, x, i);
    CutValues(s, x, i);
    CutChains(s, x, i);
    CleanerStep(s, Apply(s, Cut(x, i)));
  }

  // The lock point.
  lemma TakeTidGrows(s: State, t: int, tid: int)
    requires OrderInv(s) && ClockInv(s) && ValueInv(s) && SnapshotInv(s) && Enabled(s, TakeTid(t, tid))
    ensures SnapshotInv(DoTakeTid(s, t, tid))
  {
    var s' := DoTakeTid(s, t, tid);
    GrowChains(s.order, s'.order, s.lastW, s.last, s.base, s.tuples);
    GrowSnaps(s.order, s'.order, s.snaps);
  }

  lemma TakeTidStep(s: State, t: int, tid: int)
    requires FullInv(s) && Enabled(s, TakeTid(t, tid))
    ensures FullInv(DoTakeTid(s, t, tid))
  {
    TakeTidStruct(s, t, tid);
    TakeTidOrder(s, t, tid);
    TakeTidValues(s, t, tid);
    TakeTidGrows(s, t, tid);
  }

  // Both outcomes of validation.
  lemma SettleSnapshots(s: State, s': State, t: int, f: Fate)
    requires SnapshotInv(s) && Settles(s, s', t, f) && SyncInv(s.order, s.lastW, s.tuples, s.tree, s.last)
    ensures SnapshotInv(s')
  {
    GrowChains(s.order, s'.order, s.lastW, s.last, s.base, s.tuples);
    GrowSnaps(s.order, s'.order, s.snaps);
  }

  lemma SettleOrder(s: State, s': State, t: int, f: Fate)
    requires OrderInv(s) && ClockInv(s) && Settles(s, s', t, f)
    ensures OrderInv(s') && ClockInv(s')
  {
    FateOrder(s, s', t, f);
    KinClock(s, s', t);
  }

  lemma SettleStep(s: State, s': State, t: int, f: Fate)
    requires FullInv(s) && StructInv(s') && Settles(s, s', t, f)
    ensures FullInv(s')
  {
    SettleOrder(s, s', t, f);
    SettleValues(s, s', t, f);
    SettleSnapshots(s, s', t, f);
  }

  lemma FailForm(s: State, t: int)
    requires In(s, t, Validating) && Placed(s.order, t, s.txns[t])
    ensures Settles(s, Fail(s, t), t, Abort)
  {
  }

  lemma FailStep(s: State, t: int)
    requires FullInv(s) && In(s, t, Validating)
    ensures FullInv(Fail(s, t))
  {
    FailStruct(s, t);
    FailForm(s, t);
    SettleStep(s, Fail(s, t), t, Abort);
  }

  lemma DecideForm(s: State, t: int)
    requires Enabled(s, Decide(t)) && Placed(s.order, t, s.txns[t])
    ensures Settles(s, DoDecide(s, t), t, Commit)
  {
  }

  lemma DecideStep(s: State, t: int)
    requires FullInv(s) && Enabled(s, Decide(t))
    ensures FullInv(DoDecide(s, t))
  {
    DecideStruct(s, t);
    DecideForm(s, t);
    SettleStep(s, DoDecide(s, t), t, Commit);
  }

  lemma ValidStep(s: State, t: int, T: Txn)
    requires FullInv(s) && In(s, t, Validating) && StructInv(SetTxn(s, t, T)) && ValueInv(SetTxn(s, t, T))
    requires T == s.txns[t].(okSeen := T.okSeen, okNodes := T.okNodes, okMissing := T.okMissing, stale := T.stale)
    ensures FullInv(SetTxn(s, t, T))
  {
    assert Placed(s.order, t, s.txns[t]);
    KinOrder(s, SetTxn(s, t, T), t);
    KinClock(s, SetTxn(s, t, T), t);
  }

  // What the cleaner has locked is deleted for every snapshot.
  ghost predicate CleanerOk(s: State, x: int) {
    x in s.tuples && !s.tuples[x].cleaner.Away? ==> Expired(s.tuples[x], s.last)
  }

  // What a step needs beyond the invariant: a walk has the right end, and a
  // tuple that is unlinked, or has been, is deleted for every snapshot.
  ghost predicate Prepared(s: State, step: Step)
    requires Enabled(s, step)
  {
    && (step.SnapHop? ==> AnswerOk(s, s.snaps[step.n]))
    && (step.Unlink? ==> CleanerOk(s, step.x))
    && (step.CheckRead? ==> CleanerOk(s, step.r.x))
  }

  lemma PassStep(s: State, t: int, r: ReadRec)
    requires FullInv(s) && Enabled(s, CheckRead(t, r)) && CleanerOk(s, r.x) && ReadValid(s, s.txns[t], r)
    ensures FullInv(DoCheckRead(s, t, r))
  {
    CheckReadStruct(s, t, r);
    CheckReadValues(s, t, r);
    ValidStep(s, t, DoCheckRead(s, t, r).txns[t]);
  }

  lemma CheckReadStep(s: State, t: int, r: ReadRec)
    requires FullInv(s) && Enabled(s, CheckRead(t, r)) && CleanerOk(s, r.x)
    ensures FullInv(DoCheckRead(s, t, r))
  {
    if ReadValid(s, s.txns[t], r) { PassStep(s, t, r); } else { FailStep(s, t); }
  }

  lemma CheckNodeStep(s: State, t: int, n: int)
    requires FullInv(s) && Enabled(s, CheckNode(t, n))
    ensures FullInv(DoCheckNode(s, t, n))
  {
    if s.txns[t].nodes[n] == VersionOf(s.vers, n) {
      CheckNodeStruct(s, t, n);
      CheckNodeValues(s, t, n);
      ValidStep(s, t, DoCheckNode(s, t, n).txns[t]);
    } else { FailStep(s, t); }
  }

  // Clock and snapshot steps.
  lemma CompleteStep(s: State)
    requires FullInv(s) && Enabled(s, Complete)
    ensures FullInv(s.(last := s.cur - 1))
  {
    CompleteClock(s);
    CompleteValues(s);
    ClockChains(s.order, s.lastW, s.last, s.cur - 1, s.base, s.tuples);
  }

  lemma CompleteValues(s: State)
    requires ValueInv(s) && s.last < s.cur - 1
    ensures ValueInv(s.(last := s.cur - 1))
  {
    var s' := s.(last := s.cur - 1);
    forall t | t in s.txns ensures TxnValues(s', t, s.txns[t]) { assert TxnValues(s, t, s.txns[t]); }
  }

  lemma SnapshotStep(s: State, n: int, z: Snap)
    requires FullInv(s) && Ro(z.tick - 1) <= z.bound <= Ro(s.last + 1) && (z.open ==> s.last < z.tick <= s.cur)
    requires forall k :: k in z.got ==> ReadBelow(s.order, z.bound, k, z.got[k])
    ensures FullInv(s.(snaps := s.snaps[n := z]))
  {
    var s' := s.(snaps := s.snaps[n := z]);
    SnapClock(s, n, z);
    forall t | t in s.txns ensures TxnValues(s', t, s.txns[t]) { assert TxnValues(s, t, s.txns[t]); }
  }

  lemma TickStep(s: State)
    requires FullInv(s) && Enabled(s, Tick)
    ensures FullInv(s.(cur := s.cur + 1))
  {
    TickClock(s);
    var s' := s.(cur := s.cur + 1);
    forall t | t in s.txns ensures TxnValues(s', t, s.txns[t]) { assert TxnValues(s, t, s.txns[t]); }
  }

  lemma SnapFetchStep(s: State, n: int, k: Key)
    requires FullInv(s) && Enabled(s, SnapFetch(n, k))
    ensures FullInv(DoSnapFetch(s, n, k))
  {
    FetchOk(s, n, k);
    SnapshotStep(s, n, DoSnapFetch(s, n, k).snaps[n]);
  }

  lemma SnapHopStep(s: State, n: int)
    requires FullInv(s) && Enabled(s, SnapHop(n)) && AnswerOk(s, s.snaps[n])
    ensures FullInv(DoSnapHop(s, n))
  {
    var z := s.snaps[n];
    HopAnswer(z, Remaining(s, z.walk), Bottom(s, z.walk));
    SnapshotStep(s, n, DoSnapHop(s, n).snaps[n]);
  }

  lemma SnapOpenStep(s: State, n: int, tick: int)
    requires FullInv(s) && Enabled(s, SnapOpen(n, tick))
    ensures FullInv(s.(snaps := s.snaps[n := NewSnap(tick, Ro(s.last + 1))]))
  {
    SnapshotStep(s, n, NewSnap(tick, Ro(s.last + 1)));
  }

  lemma SnapCloseStep(s: State, n: int)
    requires FullInv(s) && Enabled(s, SnapClose(n))
    ensures FullInv(s.(snaps := s.snaps[n := s.snaps[n].(open := false)]))
  {
    SnapshotStep(s, n, s.snaps[n].(open := false));
  }

  // ---- assembly ----

  predicate Runs(step: Step) {
    step.Begin? || step.Read? || step.ReadMissing? || step.Put? || step.Insert? || step.StartAbort? || step.StartCommit?
  }

  lemma RunsInv(s: State, step: Step)
    requires FullInv(s) && Enabled(s, step) && Runs(step)
    ensures FullInv(Apply(s, step))
  {
    match step
    case Begin(t, core, tick) => BeginStep(s, t, core, tick);
    case Read(t, x) => ReadStep(s, t, x);
    case ReadMissing(t, k) => ReadMissingStep(s, t, k);
    case Put(t, x, v) => PutStep(s, t, x, v);
    case Insert(t, k, x, v) => InsertStep(s, t, k, x, v);
    case StartAbort(t) => PhaseStep(s, t, Aborting);
    case StartCommit(t) => PhaseStep(s, t, Locking);
  }

  predicate TakesLocks(step: Step) { step.Check? || step.Acquire? || step.TakeTid? }

  lemma LocksInv(s: State, step: Step)
    requires FullInv(s) && Enabled(s, step) && TakesLocks(step)
    ensures FullInv(Apply(s, step))
  {
    match step
    case Check(t, x) => CheckStep(s, t, x);
    case Acquire(t) => AcquireStep(s, t);
    case TakeTid(t, tid) => TakeTidStep(s, t, tid);
  }

  predicate Validates(step: Step) { step.CheckRead? || step.CheckNode? || step.Decide? }

  lemma ValidatesInv(s: State, step: Step)
    requires FullInv(s) && Enabled(s, step) && Validates(step) && Prepared(s, step)
    ensures FullInv(Apply(s, step))
  {
    match step
    case CheckRead(t, r) => CheckReadStep(s, t, r);
    case CheckNode(t, n) => CheckNodeStep(s, t, n);
    case Decide(t) => DecideStep(s, t);
  }

  predicate Finishes(step: Step) { step.Install? || step.Unlock? || step.Release? }

  lemma FinishesInv(s: State, step: Step)
    requires FullInv(s) && Enabled(s, step) && Finishes(step)
    ensures FullInv(Apply(s, step))
  {
    match step
    case Install(t, x, fits, y) => InstallStep(s, t, x, fits, y);
    case Unlock(t, x) => UnlockStep(s, t, x);
    case Release(t, x, bump) => ReleaseStep(s, t, x, bump);
  }

  // Steps that take or drop the cleaner's lock.
  predicate CleanerMoves(step: Step) { step.CleanLock? || step.ClearLatest? || step.CleanUnlock? }

  predicate Cleans(step: Step) { step.Unlink? || step.Cut? || CleanerMoves(step) }

  lemma CleanerMovesForm(s: State, step: Step)
    requires StructInv(s) && Enabled(s, step) && CleanerMoves(step)
    ensures step.x in s.tuples && s.tuples[step.x].owner == None
    ensures Apply(s, step) == SetCleaner(s, step.x, if step.CleanLock? then Locked else Away)
  {
  }

  lemma CleanerMovesInv(s: State, step: Step)
    requires FullInv(s) && Enabled(s, step) && CleanerMoves(step)
    ensures FullInv(Apply(s, step))
  {
    CleanerMovesForm(s, step);
    SetCleanerStep(s, step.x, if step.CleanLock? then Locked else Away);
  }

  lemma CleansInv(s: State, step: Step)
    requires FullInv(s) && Enabled(s, step) && Cleans(step) && Prepared(s, step)
    ensures FullInv(Apply(s, step))
  {
    if step.Unlink? { UnlinkStep(s, step.x, step.bump); }
    else if step.Cut? { CutStep(s, step.x, step.i); }
    else { CleanerMovesInv(s, step); }
  }

  lemma TicksInv(s: State, step: Step)
    requires FullInv(s) && Enabled(s, step) && !Runs(step) && !TakesLocks(step) && !Validates(step) && !Finishes(step)
    requires !Cleans(step)
    requires Prepared(s, step)
    ensures FullInv(Apply(s, step))
  {
    match step
    case Tick => TickStep(s);
    case Complete => CompleteStep(s);
    case SnapOpen(n, tick) => SnapOpenStep(s, n, tick);
    case SnapFetch(n, k) => SnapFetchStep(s, n, k);
    case SnapHop(n) => SnapHopStep(s, n);
    case SnapClose(n) => SnapCloseStep(s, n);
  }

  lemma StepInv(s: State, step: Step)
    requires FullInv(s) && Enabled(s, step) && Prepared(s, step)
    ensures FullInv(Apply(s, step))
  {
    if Runs(step) { RunsInv(s, step); }
    else if TakesLocks(step) { LocksInv(s, step); }
    else if Validates(step) { ValidatesInv(s, step); }
    else if Finishes(step) { FinishesInv(s, step); }
    else if Cleans(step) { CleansInv(s, step); }
    else { TicksInv(s, step); }
  }

  lemma EmptyInv(s: State)
    requires s.tuples == map[] && s.tree == map[] && s.txns == map[] && s.snaps == map[] && s.lastW == map[]
    requires s.order == [] && s.coreTid == map[] && s.cur == 1 && s.last == 0
    ensures FullInv(s)
  {
    assert StructInv(s) && OrderInv(s) && ClockInv(s);
  }

  lemma RunStep(ss: seq<State>, steps: seq<Step>, i: nat)
    requires Run(ss, steps) && i < |steps|
    ensures Enabled(ss[i], steps[i]) && ss[i + 1] == Apply(ss[i], steps[i])
  {
  }
}
