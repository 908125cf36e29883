// The cleaner at work: between its removal of a key and its clearing of the
// latest flag, validation passes on a tuple that is no longer in the tree.

module CommitCleaner {
  import opened Basics
  import opened CommitModel
  import opened CommitStructure
  import opened CommitOrder
  import opened CommitValues
  import opened CommitSnapshots
  import opened CommitSteps
  import opened CommitWalks

  // What the cleaner has locked is deleted for every snapshot; what it has
  // unlinked is not in the tree.
  ghost predicate TuplesClean(u: Tuples, last: int) {
    forall x :: x in u && !u[x].cleaner.Away? ==>
      Expired(u[x], last) && (u[x].cleaner.Unlinked? ==> !u[x].latest)
  }

  // r is of the deletion of its key by the transaction at src, before p.
  ghost predicate StaleOk(order: Order, p: int, r: ReadRec, src: int) {
    && 0 <= src < p <= |order| && r.val == None
    && order[src].fate == Commit && r.key in order[src].writes && order[src].writes[r.key] == None
  }

  ghost predicate TxnStale(order: Order, T: Txn) {
    if Live(T) then T.stale.Keys <= T.seen && forall r :: r in T.stale ==> StaleOk(order, T.pos, r, T.stale[r])
    else T.phase.Aborting? || T.stale == map[]
  }

  ghost predicate StaleInv(order: Order, txns: map<int, Txn>) {
    forall t :: t in txns ==> TxnStale(order, txns[t])
  }

  ghost predicate CleanInv(s: State) { TuplesClean(s.tuples, s.last) && StaleInv(s.order, s.txns) }

  // ---- frames ----

  // Tuples locked by the cleaner are as they were.
  ghost predicate Spares(u: Tuples, u': Tuples) {
    forall x :: x in u' && !u'[x].cleaner.Away? ==>
      && x in u && u'[x].cleaner == u[x].cleaner && (u'[x].latest ==> u[x].latest)
      && !Marker(u'[x]) && !Marker(u[x]) && u'[x].chain[0] == u[x].chain[0]
  }

  lemma SparesClean(u: Tuples, u': Tuples, last: int, last': int)
    requires TuplesClean(u, last) && Spares(u, u') && last <= last'
    ensures TuplesClean(u', last')
  {
  }

  // A transaction keeps what it has validated, or has validated nothing.
  predicate Steady(T: Txn, T': Txn) {
    T'.stale == T.stale && (Live(T') ==> Live(T) && T'.pos == T.pos && T'.seen == T.seen)
  }

  lemma SteadyStale(order: Order, order': Order, T: Txn, T': Txn)
    requires TxnStale(order, T) && Grows(order, order', |order|)
    requires Steady(T, T') && (!Live(T') && !T'.phase.Aborting? ==> !Live(T) && !T.phase.Aborting?)
    ensures TxnStale(order', T')
  {
    if Live(T') {
      forall r | r in T'.stale ensures StaleOk(order', T'.pos, r, T'.stale[r]) {
        assert StaleOk(order, T.pos, r, T.stale[r]);
      }
    }
  }

  // The others stay as they are, and t's new record is fine.
  lemma OneStale(order: Order, order': Order, txns: map<int, Txn>, t: int, T: Txn)
    requires StaleInv(order, txns) && Grows(order, order', |order|) && TxnStale(order', T)
    ensures StaleInv(order', txns[t := T])
  {
    forall o | o in txns ensures TxnStale(order', txns[o]) { SteadyStale(order, order', txns[o], txns[o]); }
  }

  lemma SameGrows(order: Order)
    ensures Grows(order, order, |order|)
  {
  }

  // A step that changes only t's own record.
  lemma OwnClean(s: State, t: int, T: Txn)
    requires CleanInv(s) && TxnStale(s.order, T)
    ensures CleanInv(SetTxn(s, t, T))
  {
    SameGrows(s.order);
    OneStale(s.order, s.order, s.txns, t, T);
  }

  // A step that changes tuples and t's own record.
  lemma TupleClean(s: State, s': State, t: int)
    requires CleanInv(s) && s'.order == s.order && s'.last == s.last && Spares(s.tuples, s'.tuples)
    requires t in s'.txns && s'.txns == s.txns[t := s'.txns[t]] && TxnStale(s.order, s'.txns[t])
    ensures CleanInv(s')
  {
    SparesClean(s.tuples, s'.tuples, s.last, s'.last);
    SameGrows(s.order);
    OneStale(s.order, s.order, s.txns, t, s'.txns[t]);
  }

  // ---- steps of transactions ----

  // A transaction that has not reached its lock point has validated nothing.
  lemma EarlyClean(s: State, t: int, T: Txn)
    requires CleanInv(s) && t in s.txns && !Live(s.txns[t]) && !s.txns[t].phase.Aborting? && !Live(T)
    requires T.stale == s.txns[t].stale
    ensures CleanInv(SetTxn(s, t, T))
  {
    assert TxnStale(s.order, s.txns[t]);
    OwnClean(s, t, T);
  }

  lemma ReadClean(s: State, t: int, x: int)
    requires CleanInv(s) && Enabled(s, Read(t, x))
    ensures CleanInv(DoRead(s, t, x))
  {
    EarlyClean(s, t, DoRead(s, t, x).txns[t]);
  }

  lemma MissingClean(s: State, t: int, k: Key)
    requires CleanInv(s) && Enabled(s, ReadMissing(t, k))
    ensures CleanInv(DoReadMissing(s, t, k))
  {
    var T, v := s.txns[t], VersionOf(s.vers, k.leaf);
    if k.leaf in T.nodes && T.nodes[k.leaf] != v {
      EarlyClean(s, t, T.(phase := Aborting));
    } else {
      EarlyClean(s, t, T.(nodes := T.nodes[k.leaf := v], missing := T.missing + {k}));
    }
  }

  lemma PutClean(s: State, step: Step)
    requires CleanInv(s) && Enabled(s, step) && (step.Put? || step.Check?)
    ensures CleanInv(Apply(s, step))
  {
    EarlyClean(s, step.t, Apply(s, step).txns[step.t]);
  }

  lemma PhaseClean(s: State, step: Step)
    requires CleanInv(s) && Enabled(s, step) && (step.Begin? || step.StartAbort? || step.StartCommit?)
    ensures CleanInv(Apply(s, step))
  {
    if step.Begin? {
      OwnClean(s, step.t, NewTxn(step.core, step.tick));
    } else {
      EarlyClean(s, step.t, Apply(s, step).txns[step.t]);
    }
  }

  lemma InsertSpares(u: Tuples, last: int, k: Key, x: int, t: int)
    requires TuplesClean(u, last) && x !in u
    ensures Spares(u, u[x := Tuple(k, [], true, Some(t), Away)])
  {
  }

  lemma InsertClean(s: State, t: int, k: Key, x: int, v: Option<Value>)
    requires CleanInv(s) && Enabled(s, Insert(t, k, x, v))
    ensures CleanInv(DoInsert(s, t, k, x, v))
  {
    assert TxnStale(s.order, s.txns[t]);
    InsertSpares(s.tuples, s.last, k, x, t);
    TupleClean(s, DoInsert(s, t, k, x, v), t);
  }

  lemma AcquireClean(s: State, t: int)
    requires CleanInv(s) && Enabled(s, Acquire(t))
    ensures CleanInv(DoAcquire(s, t))
  {
    assert TxnStale(s.order, s.txns[t]);
    TupleClean(s, DoAcquire(s, t), t);
  }

  lemma TakeTidClean(s: State, t: int, tid: int)
    requires CleanInv(s) && Enabled(s, TakeTid(t, tid))
    ensures CleanInv(DoTakeTid(s, t, tid))
  {
    var s' := DoTakeTid(s, t, tid);
    assert TxnStale(s.order, s.txns[t]);
    OneStale(s.order, s'.order, s.txns, t, s'.txns[t]);
  }

  lemma SettleClean(s: State, s': State, t: int, f: Fate)
    requires CleanInv(s) && Settles(s, s', t, f)
    ensures CleanInv(s')
  {
    SettleKeeps(s, s'.(gone := s.gone), t, f);
    assert TxnStale(s.order, s.txns[t]);
    SteadyStale(s.order, s'.order, s.txns[t], s'.txns[t]);
    OneStale(s.order, s'.order, s.txns, t, s'.txns[t]);
  }

  lemma FailClean(s: State, t: int)
    requires CleanInv(s) && In(s, t, Validating) && Placed(s.order, t, s.txns[t])
    ensures CleanInv(Fail(s, t))
  {
    FailForm(s, t);
    SettleClean(s, Fail(s, t), t, Abort);
  }

  lemma DecideClean(s: State, t: int)
    requires CleanInv(s) && Enabled(s, Decide(t)) && Placed(s.order, t, s.txns[t])
    ensures CleanInv(DoDecide(s, t))
  {
    DecideForm(s, t);
    SettleClean(s, DoDecide(s, t), t, Commit);
  }

  lemma CheckNodeClean(s: State, t: int, n: int)
    requires CleanInv(s) && Enabled(s, CheckNode(t, n)) && Placed(s.order, t, s.txns[t])
    ensures CleanInv(DoCheckNode(s, t, n))
  {
    if s.txns[t].nodes[n] == VersionOf(s.vers, n) {
      assert TxnStale(s.order, s.txns[t]);
      OwnClean(s, t, DoCheckNode(s, t, n).txns[t]);
    } else {
      FailClean(s, t);
    }
  }

  // What a read that validation passes on an unlinked tuple has seen.
  lemma StaleSeen(s: State, T: Txn, r: ReadRec)
    requires EpochInv(s.order, s.cur) && TuplesClean(s.tuples, s.last) && TuplesInv(s.order, s.lastW, s.base, s.tuples)
    requires r in T.seen && ReadInv(s.tuples, T) && Sets(s.tuples, T)
    requires ReadValid(s, T, r) && !s.tuples[r.x].latest && 0 <= T.pos < |s.order| && s.last < s.order[T.pos].epoch
    ensures StaleOk(s.order, T.pos, r, s.tuples[r.x].chain[0].src)
  {
    var x := s.tuples[r.x];
    assert Listed(s.order, s.lastW, x.key, x.chain, BaseOf(s.base, r.x));
    assert VersionOk(s.order, s.lastW, x.key, x.chain[0]);
    assert x.key in s.order[x.chain[0].src].writes;
    ExpiredEarlier(s.order, s.cur, s.last, x.chain[0].src, T.pos);
  }

  lemma ValidatorFacts(s: State, t: int)
    requires Inv(s) && In(s, t, Validating)
    ensures var T := s.txns[t];
      && Sets(s.tuples, T) && ReadInv(s.tuples, T)
      && 0 <= T.pos < |s.order| && s.order[T.pos].t == t && s.last < s.order[T.pos].epoch
  {
    assert Local(s.tuples, s.vers, t, s.txns[t]) && Placed(s.order, t, s.txns[t]) && TxnValues(s, t, s.txns[t]);
  }

  lemma StaleRead(s: State, t: int, r: ReadRec)
    requires Inv(s) && TuplesInv(s.order, s.lastW, s.base, s.tuples) && TuplesClean(s.tuples, s.last)
    requires In(s, t, Validating) && r in s.txns[t].seen && ReadValid(s, s.txns[t], r) && !s.tuples[r.x].latest
    ensures StaleOk(s.order, s.txns[t].pos, r, s.tuples[r.x].chain[0].src)
  {
    ValidatorFacts(s, t);
    StaleSeen(s, s.txns[t], r);
  }

  lemma PassLatest(s: State, t: int, r: ReadRec)
    requires CleanInv(s) && Enabled(s, CheckRead(t, r)) && ReadValid(s, s.txns[t], r) && !Superseded(s, r)
    ensures CleanInv(DoCheckRead(s, t, r))
  {
    var T := s.txns[t];
    var T' := T.(okSeen := T.okSeen[r := LastWriter(s.lastW, r.key)]);
    assert TxnStale(s.order, T);
    SameGrows(s.order);
    SteadyStale(s.order, s.order, T, T');
    OwnClean(s, t, T');
  }

  lemma PassStale(s: State, t: int, r: ReadRec, src: int)
    requires CleanInv(s) && In(s, t, Validating) && r in s.txns[t].seen && StaleOk(s.order, s.txns[t].pos, r, src)
    ensures CleanInv(SetTxn(s, t, s.txns[t].(stale := s.txns[t].stale[r := src])))
  {
    var T := s.txns[t];
    assert TxnStale(s.order, T);
    assert TxnStale(s.order, T.(stale := T.stale[r := src]));
    OwnClean(s, t, T.(stale := T.stale[r := src]));
  }

  lemma CheckReadClean(s: State, t: int, r: ReadRec)
    requires FullInv(s) && WalkInv(s) && CleanInv(s) && Enabled(s, CheckRead(t, r))
    ensures CleanInv(DoCheckRead(s, t, r))
  {
    assert Placed(s.order, t, s.txns[t]);
    if !ReadValid(s, s.txns[t], r) {
      FailClean(s, t);
    } else if !Superseded(s, r) {
      PassLatest(s, t, r);
    } else {
      StaleRead(s, t, r);
      PassStale(s, t, r, s.tuples[r.x].chain[0].src);
    }
  }

  // A tuple that a transaction holds is not the cleaner's.
  lemma InstallClean(s: State, t: int, x: int, fits: bool, y: int)
    requires FullInv(s) && CleanInv(s) && Enabled(s, Install(t, x, fits, y))
    ensures CleanInv(DoInstall(s, t, x, fits, y))
  {
    InstallerReady(s, t, x, fits, y);
    InstallerFacts(s, t, x);
    InstallSpares(s, t, x, fits, y);
    InstallKin(s, t, x, fits, y);
    InstallSteady(s, t, x, fits, y);
    TupleClean(s, DoInstall(s, t, x, fits, y), t);
  }

  lemma InstallSpares(s: State, t: int, x: int, fits: bool, y: int)
    requires Enabled(s, Install(t, x, fits, y)) && s.tuples[x].cleaner.Away? && TuplesClean(s.tuples, s.last)
    ensures Spares(s.tuples, DoInstall(s, t, x, fits, y).tuples)
  {
    var c := NewChain(s.tuples[x].chain, NewVersion(s, t, x), fits);
    InstallShape(s, t, x, fits, y, c);
    PutSpares(s.tuples, s.last, x, c, y);
  }

  lemma PutSpares(u: Tuples, last: int, x: int, c: seq<Version>, y: int)
    requires x in u && u[x].cleaner.Away? && TuplesClean(u, last)
    ensures Spares(u, u[x := u[x].(chain := c)])
    ensures Spares(u, u[x := u[x].(latest := false)][y := Tuple(u[x].key, c, true, None, Away)])
  {
  }

  lemma InstallSteady(s: State, t: int, x: int, fits: bool, y: int)
    requires CleanInv(s) && Enabled(s, Install(t, x, fits, y))
    ensures t in DoInstall(s, t, x, fits, y).txns && TxnStale(s.order, DoInstall(s, t, x, fits, y).txns[t])
  {
    assert TxnStale(s.order, s.txns[t]);
    SameGrows(s.order);
    SteadyStale(s.order, s.order, s.txns[t], DoInstall(s, t, x, fits, y).txns[t]);
  }

  lemma UnlockClean(s: State, t: int, x: int)
    requires CleanInv(s) && Enabled(s, Unlock(t, x))
    ensures CleanInv(DoUnlock(s, t, x))
  {
    assert TxnStale(s.order, s.txns[t]);
    TupleClean(s, DoUnlock(s, t, x), t);
  }

  lemma ReleaseClean(s: State, t: int, x: int, bump: nat)
    requires FullInv(s) && CleanInv(s) && Enabled(s, Release(t, x, bump))
    ensures CleanInv(DoRelease(s, t, x, bump))
  {
    ReleaseForm(s, t, x, bump);
    assert Local(s.tuples, s.vers, t, s.txns[t]) && s.tuples[x].cleaner.Away?;
    ReleasedClean(s, DoRelease(s, t, x, bump), t, x);
  }

  lemma ReleasedClean(s: State, s': State, t: int, x: int)
    requires CleanInv(s) && Released(s, s', t, x) && In(s, t, Aborting) && s'.tuples[x].cleaner.Away?
    ensures CleanInv(s')
  {
    TupleClean(s, s', t);
  }

  // ---- steps of the cleaner, the clock and snapshots ----

  lemma TuplesOnly(s: State, s': State)
    requires CleanInv(s) && s'.order == s.order && s'.txns == s.txns && TuplesClean(s'.tuples, s'.last)
    ensures CleanInv(s')
  {
  }

  lemma CleanerClean(s: State, step: Step)
    requires CleanInv(s) && Enabled(s, step) && Cleans(step)
    ensures CleanInv(Apply(s, step))
  {
    TuplesOnly(s, Apply(s, step));
  }

  lemma ClockClean(s: State, step: Step)
    requires ClockInv(s) && CleanInv(s) && Enabled(s, step) && (step.Tick? || step.Complete?)
    ensures CleanInv(Apply(s, step))
  {
    SparesClean(s.tuples, s.tuples, s.last, Apply(s, step).last);
    TuplesOnly(s, Apply(s, step));
  }

  predicate Snaps(step: Step) { step.SnapOpen? || step.SnapFetch? || step.SnapHop? || step.SnapClose? }

  lemma SnapsClean(s: State, step: Step)
    requires CleanInv(s) && Enabled(s, step) && Snaps(step)
    ensures CleanInv(Apply(s, step))
  {
  }

  // ---- every step ----

  lemma PrivateClean(s: State, step: Step)
    requires CleanInv(s) && Enabled(s, step) && Private(step)
    ensures CleanInv(Apply(s, step))
  {
    if step.Read? { ReadClean(s, step.t, step.x); }
    else if step.ReadMissing? { MissingClean(s, step.t, step.k); }
    else if step.Put? || step.Check? { PutClean(s, step); }
    else { PhaseClean(s, step); }
  }

  lemma ValidateClean(s: State, step: Step)
    requires FullInv(s) && WalkInv(s) && CleanInv(s) && Enabled(s, step) && Validates(step)
    ensures CleanInv(Apply(s, step))
  {
    assert Placed(s.order, step.t, s.txns[step.t]);
    match step
    case CheckRead(t, r) => CheckReadClean(s, t, r);
    case CheckNode(t, n) => CheckNodeClean(s, t, n);
    case Decide(t) => DecideClean(s, t);
  }

  lemma FinishClean(s: State, step: Step)
    requires FullInv(s) && CleanInv(s) && Enabled(s, step) && Finishes(step)
    ensures CleanInv(Apply(s, step))
  {
    match step
    case Install(t, x, fits, y) => InstallClean(s, t, x, fits, y);
    case Unlock(t, x) => UnlockClean(s, t, x);
    case Release(t, x, bump) => ReleaseClean(s, t, x, bump);
  }

  lemma StepClean(s: State, step: Step)
    requires FullInv(s) && WalkInv(s) && CleanInv(s) && Enabled(s, step)
    ensures CleanInv(Apply(s, step))
  {
    if Private(step) { PrivateClean(s, step); }
    else if step.Insert? { InsertClean(s, step.t, step.k, step.x, step.v); }
    else if step.Acquire? { AcquireClean(s, step.t); }
    else if step.TakeTid? { TakeTidClean(s, step.t, step.tid); }
    else if Validates(step) { ValidateClean(s, step); }
    else if Finishes(step) { FinishClean(s, step); }
    else if Cleans(step) { CleanerClean(s, step); }
    else if Snaps(step) { SnapsClean(s, step); }
    else { ClockClean(s, step); }
  }

  lemma StepPrepared(s: State, step: Step)
    requires WalkInv(s) && CleanInv(s) && Enabled(s, step)
    ensures Prepared(s, step)
  {
    if step.SnapHop? { assert SnapWalk(s, s.snaps[step.n]); }
  }

  // Every state of every run satisfies all the invariants.
  lemma {:induction false} RunInv(ss: seq<State>, steps: seq<Step>, i: nat)
    requires Run(ss, steps) && i < |ss|
    ensures FullInv(ss[i]) && WalkInv(ss[i]) && CleanInv(ss[i])
    decreases i
  {
    if i == 0 {
      EmptyInv(INITIAL);
    } else {
      RunInv(ss, steps, i - 1);
      RunStep(ss, steps, i - 1);
      StepPrepared(ss[i - 1], steps[i - 1]);
      StepInv(ss[i - 1], steps[i - 1]);
      StepWalks(ss[i - 1], steps[i - 1]);
      StepClean(ss[i - 1], steps[i - 1]);
    }
  }

  // The cleaner never waits, so whoever waits for its lock gets it.
  lemma CleanerRuns(s: State, x: int)
    requires x in s.tuples && !s.tuples[x].cleaner.Away?
    ensures Enabled(s, Unlink(x, 0)) || Enabled(s, ClearLatest(x)) || Enabled(s, CleanUnlock(x))
  {
  }

  // The tuple that a snapshot's walk reads next holds no version the cleaner
  // has dropped, although links to those are never cleared.
  lemma WalkIsSafe(ss: seq<State>, steps: seq<Step>, i: nat, n: int)
    requires Run(ss, steps) && i < |ss| && Enabled(ss[i], SnapHop(n)) && Remaining(ss[i], ss[i].snaps[n].walk) != []
    ensures Gone(ss[i].snaps[n].walk.k, Remaining(ss[i], ss[i].snaps[n].walk)[0].src) !in ss[i].gone
  {
    RunInv(ss, steps, i);
    NotGone(ss[i], n);
  }
}
