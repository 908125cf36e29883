// The guarantees of the commit protocol told by the steps of a run: what each
// read, lookup, put and snapshot search of a transaction comes to in the end.

module CommitHistory {
  import opened Basics
  import opened CommitModel
  import opened CommitStructure
  import opened CommitOrder
  import opened CommitSteps
  import opened CommitWalks
  import opened CommitCleaner
  import opened CommitTheorems

  // ---- what a step may change in a transaction ----

  predicate Past(T: Txn) { T.phase.Validating? || T.phase.Installing? || T.phase.Aborting? }

  predicate SetsFollow(step: Step, T: Txn, T': Txn) {
    && T.seen <= T'.seen && (!step.Read? ==> T'.seen == T.seen)
    && T.missing <= T'.missing && (!step.ReadMissing? ==> T'.missing == T.missing)
    && (!step.ReadMissing? && !step.Insert? ==> T'.nodes == T.nodes)
    && (!step.Put? && !step.Insert? ==> T'.writes == T.writes && T'.byKey == T.byKey)
    && (!step.CheckRead? ==> T'.stale == T.stale)
  }

  predicate PhaseFollows(step: Step, T: Txn, T': Txn) {
    && (T.phase.Aborting? ==> T'.phase.Aborting?) && (T.phase.Installing? ==> T'.phase.Installing?)
    && (T'.phase.Installing? && !T.phase.Installing? ==> step.Decide?)
    && (Past(T) ==> Past(T') && T'.pos == T.pos)
  }

  predicate Follows(step: Step, T: Txn, T': Txn) { SetsFollow(step, T, T') && PhaseFollows(step, T, T') }

  // Why a step of t aborts it.
  predicate Reason(s: State, step: Step, T: Txn) {
    match step
    case StartAbort(_) => true
    case ReadMissing(_, k) => k.leaf in T.nodes && T.nodes[k.leaf] != VersionOf(s.vers, k.leaf)
    case Insert(_, k, _, _) => k.leaf in T.nodes && T.nodes[k.leaf] != VersionOf(s.vers, k.leaf)
    case Check(_, x) => x in s.tuples && s.tuples[x].chain == []
    case Acquire(_) => T.phase.Waiting? && T.phase.x in s.tuples && !s.tuples[T.phase.x].latest
    case CheckNode(_, n) => n in T.nodes && T.nodes[n] != VersionOf(s.vers, n)
    case CheckRead(_, r) => r.x !in s.tuples || Unfit(s.tuples[r.x], T, r)
    case _ => false
  }

  // The tuple read is out of date, has become a marker, has a later record or
  // is being written by someone else.
  predicate Unfit(u: Tuple, T: Txn, r: ReadRec) {
    || (!u.latest && !u.cleaner.Unlinked?) || u.chain == [] || u.chain[0].tid > r.tid
    || (u.owner != None && r.x !in T.writes)
  }

  // A step of t: it changes no other transaction, and t as the step says.
  ghost predicate Own(s: State, s': State, step: Step, t: int) {
    && t in s.txns && t in s'.txns && s'.txns == s.txns[t := s'.txns[t]]
    && Follows(step, s.txns[t], s'.txns[t])
    && (s'.txns[t].phase.Aborting? <==> s.txns[t].phase.Aborting? || Reason(s, step, s.txns[t]))
  }

  lemma ReadOwn(s: State, t: int, x: int)
    requires Enabled(s, Read(t, x))
    ensures Own(s, DoRead(s, t, x), Read(t, x), t)
  {
  }

  lemma SetOwn(s: State, step: Step, t: int, T': Txn)
    requires t in s.txns && Follows(step, s.txns[t], T')
    requires T'.phase.Aborting? <==> s.txns[t].phase.Aborting? || Reason(s, step, s.txns[t])
    ensures Own(s, SetTxn(s, t, T'), step, t)
  {
  }

  lemma MissingOwn(s: State, t: int, k: Key)
    requires Enabled(s, ReadMissing(t, k))
    ensures Own(s, DoReadMissing(s, t, k), ReadMissing(t, k), t)
  {
    var T, v := s.txns[t], VersionOf(s.vers, k.leaf);
    if k.leaf in T.nodes && T.nodes[k.leaf] != v { SetOwn(s, ReadMissing(t, k), t, T.(phase := Aborting)); }
    else { SetOwn(s, ReadMissing(t, k), t, T.(nodes := T.nodes[k.leaf := v], missing := T.missing + {k})); }
  }

  lemma PutOwn(s: State, t: int, x: int, v: Option<Value>)
    requires Enabled(s, Put(t, x, v))
    ensures Own(s, DoPut(s, t, x, v), Put(t, x, v), t)
  {
  }

  lemma InsertTxn(s: State, t: int, k: Key, x: int, v: Option<Value>)
    requires Enabled(s, Insert(t, k, x, v))
    ensures var T, s' := s.txns[t], DoInsert(s, t, k, x, v);
      && t in s'.txns && s'.txns == s.txns[t := s'.txns[t]]
      && var T' := s'.txns[t];
         && T'.seen == T.seen && T'.missing == T.missing && T'.stale == T.stale && T'.pos == T.pos
         && T'.writes == T.writes[x := v] && T'.byKey == T.byKey[k := x]
  {
  }

  lemma InsertOwn(s: State, t: int, k: Key, x: int, v: Option<Value>)
    requires Enabled(s, Insert(t, k, x, v))
    ensures Own(s, DoInsert(s, t, k, x, v), Insert(t, k, x, v), t)
  {
    InsertTxn(s, t, k, x, v);
  }

  lemma StartOwn(s: State, step: Step)
    requires Enabled(s, step) && (step.StartAbort? || step.StartCommit?)
    ensures Own(s, Apply(s, step), step, step.t)
  {
  }

  lemma RunsOwn(s: State, step: Step)
    requires Enabled(s, step) && Runs(step) && !step.Begin?
    ensures Own(s, Apply(s, step), step, step.t)
  {
    match step
    case Read(t, x) => ReadOwn(s, t, x);
    case ReadMissing(t, k) => MissingOwn(s, t, k);
    case Put(t, x, v) => PutOwn(s, t, x, v);
    case Insert(t, k, x, v) => InsertOwn(s, t, k, x, v);
    case _ => StartOwn(s, step);
  }

  lemma CheckOwn(s: State, t: int, x: int)
    requires Enabled(s, Check(t, x))
    ensures Own(s, DoCheck(s, t, x), Check(t, x), t)
  {
  }

  lemma AcquireOwn(s: State, t: int)
    requires Enabled(s, Acquire(t))
    ensures Own(s, DoAcquire(s, t), Acquire(t), t)
  {
  }

  lemma TakeTidOwn(s: State, t: int, tid: int)
    requires Enabled(s, TakeTid(t, tid))
    ensures Own(s, DoTakeTid(s, t, tid), TakeTid(t, tid), t)
  {
  }

  lemma LocksOwn(s: State, step: Step)
    requires Enabled(s, step) && TakesLocks(step)
    ensures Own(s, Apply(s, step), step, step.t)
  {
    match step
    case Check(t, x) => CheckOwn(s, t, x);
    case Acquire(t) => AcquireOwn(s, t);
    case TakeTid(t, tid) => TakeTidOwn(s, t, tid);
  }

  lemma FailOwn(s: State, step: Step, t: int)
    requires In(s, t, Validating) && Reason(s, step, s.txns[t])
    ensures Own(s, Fail(s, t), step, t)
  {
    assert Fail(s, t).txns == s.txns[t := s.txns[t].(phase := Aborting)];
  }

  lemma CheckReadOwn(s: State, t: int, r: ReadRec)
    requires Enabled(s, CheckRead(t, r))
    ensures Own(s, DoCheckRead(s, t, r), CheckRead(t, r), t)
  {
    var T := s.txns[t];
    if !ReadValid(s, T, r) { FailOwn(s, CheckRead(t, r), t); }
    else if !Superseded(s, r) {
      SetOwn(s, CheckRead(t, r), t, T.(okSeen := T.okSeen[r := LastWriter(s.lastW, r.key)]));
    } else {
      SetOwn(s, CheckRead(t, r), t, T.(stale := T.stale[r := s.tuples[r.x].chain[0].src]));
    }
  }

  lemma CheckNodeOwn(s: State, t: int, n: int)
    requires Enabled(s, CheckNode(t, n))
    ensures Own(s, DoCheckNode(s, t, n), CheckNode(t, n), t)
  {
    if s.txns[t].nodes[n] != VersionOf(s.vers, n) { FailOwn(s, CheckNode(t, n), t); }
  }

  lemma DecideOwn(s: State, t: int)
    requires Enabled(s, Decide(t))
    ensures Own(s, DoDecide(s, t), Decide(t), t) && DoDecide(s, t).txns[t].phase.Installing?
  {
    assert DoDecide(s, t).txns == s.txns[t := s.txns[t].(phase := Installing, pending := s.txns[t].writes.Keys)];
  }

  lemma ValidatesOwn(s: State, step: Step)
    requires Enabled(s, step) && Validates(step)
    ensures Own(s, Apply(s, step), step, step.t)
  {
    match step
    case CheckRead(t, r) => CheckReadOwn(s, t, r);
    case CheckNode(t, n) => CheckNodeOwn(s, t, n);
    case Decide(t) => DecideOwn(s, t);
  }

  lemma InstallOwn(s: State, t: int, x: int, fits: bool, y: int)
    requires Enabled(s, Install(t, x, fits, y))
    ensures Own(s, DoInstall(s, t, x, fits, y), Install(t, x, fits, y), t)
  {
    assert DoInstall(s, t, x, fits, y).txns == s.txns[t := s.txns[t].(pending := s.txns[t].pending - {x})];
  }

  lemma UnlockOwn(s: State, t: int, x: int)
    requires Enabled(s, Unlock(t, x))
    ensures Own(s, DoUnlock(s, t, x), Unlock(t, x), t)
  {
  }

  lemma ReleaseOwn(s: State, t: int, x: int, bump: nat)
    requires Enabled(s, Release(t, x, bump))
    ensures Own(s, DoRelease(s, t, x, bump), Release(t, x, bump), t)
  {
    assert DoRelease(s, t, x, bump).txns == s.txns[t := s.txns[t].(locked := s.txns[t].locked - {x})];
  }

  lemma FinishesOwn(s: State, step: Step)
    requires Enabled(s, step) && Finishes(step)
    ensures Own(s, Apply(s, step), step, step.t)
  {
    match step
    case Install(t, x, fits, y) => InstallOwn(s, t, x, fits, y);
    case Unlock(t, x) => UnlockOwn(s, t, x);
    case Release(t, x, bump) => ReleaseOwn(s, t, x, bump);
  }

  predicate Acts(step: Step) { Runs(step) || TakesLocks(step) || Validates(step) || Finishes(step) }

  predicate ActsFor(step: Step, t: int) { Acts(step) && step.t == t }

  lemma StepOwn(s: State, step: Step)
    requires Enabled(s, step) && Acts(step) && !step.Begin?
    ensures Own(s, Apply(s, step), step, step.t)
  {
    if Runs(step) { RunsOwn(s, step); }
    else if TakesLocks(step) { LocksOwn(s, step); }
    else if Validates(step) { ValidatesOwn(s, step); }
    else { FinishesOwn(s, step); }
  }

  lemma BeginOwn(s: State, step: Step)
    requires Enabled(s, step) && step.Begin?
    ensures Apply(s, step).txns == s.txns[step.t := NewTxn(step.core, step.tick)] && step.t !in s.txns
  {
  }

  lemma RunOwn(ss: seq<State>, steps: seq<Step>, i: nat)
    requires Run(ss, steps) && i < |steps|
    ensures var s, s', step := ss[i], ss[i + 1], steps[i];
      if !Acts(step) then s'.txns == s.txns
      else if step.Begin? then s'.txns == s.txns[step.t := NewTxn(step.core, step.tick)] && step.t !in s.txns
      else Own(s, s', step, step.t)
  {
    RunStep(ss, steps, i);
    if !Acts(steps[i]) { OtherFresh(ss[i], steps[i]); }
    else if steps[i].Begin? { BeginOwn(ss[i], steps[i]); }
    else { StepOwn(ss[i], steps[i]); }
  }

  lemma RunFollows(ss: seq<State>, steps: seq<Step>, i: nat, t: int)
    requires Run(ss, steps) && i < |steps| && t in ss[i].txns
    ensures t in ss[i + 1].txns && Follows(steps[i], ss[i].txns[t], ss[i + 1].txns[t])
    ensures !ActsFor(steps[i], t) ==> ss[i + 1].txns[t] == ss[i].txns[t]
  {
    RunOwn(ss, steps, i);
  }

  // A new transaction begins with empty sets.
  lemma Newcomer(ss: seq<State>, steps: seq<Step>, i: nat, t: int)
    requires Run(ss, steps) && i < |steps| && t !in ss[i].txns && t in ss[i + 1].txns
    ensures steps[i].Begin? && ss[i + 1].txns[t] == NewTxn(steps[i].core, steps[i].tick)
  {
    RunOwn(ss, steps, i);
  }

  // A transaction aborts at a step of its own for one of these reasons, and
  // whenever there is one.
  lemma AbortExact(ss: seq<State>, steps: seq<Step>, i: nat, t: int)
    requires Run(ss, steps) && i < |steps| && t in ss[i].txns && !ss[i].txns[t].phase.Aborting?
    ensures t in ss[i + 1].txns
    ensures ss[i + 1].txns[t].phase.Aborting? <==> ActsFor(steps[i], t) && Reason(ss[i], steps[i], ss[i].txns[t])
  {
    RunOwn(ss, steps, i);
  }

  ghost predicate Later(T: Txn, T': Txn) {
    && T.seen <= T'.seen && T.missing <= T'.missing
    && (T.phase.Aborting? ==> T'.phase.Aborting?) && (T.phase.Installing? ==> T'.phase.Installing?)
    && (Past(T) ==> Past(T') && T'.pos == T.pos)
  }

  lemma StepLater(ss: seq<State>, steps: seq<Step>, i: nat, t: int)
    requires Run(ss, steps) && i < |steps| && t in ss[i].txns
    ensures t in ss[i + 1].txns && Later(ss[i].txns[t], ss[i + 1].txns[t])
  {
    RunFollows(ss, steps, i, t);
  }

  lemma LaterAgain(T: Txn, T': Txn, T'': Txn)
    requires Later(T, T') && Later(T', T'')
    ensures Later(T, T'')
  {
  }

  lemma {:induction false} RunLater(ss: seq<State>, steps: seq<Step>, i: nat, j: nat, t: int)
    requires Run(ss, steps) && i <= j < |ss| && t in ss[i].txns
    ensures t in ss[j].txns && Later(ss[i].txns[t], ss[j].txns[t])
    decreases j
  {
    if i < j {
      RunLater(ss, steps, i, j - 1, t);
      StepLater(ss, steps, j - 1, t);
      LaterAgain(ss[i].txns[t], ss[j - 1].txns[t], ss[j].txns[t]);
    }
  }

  // ---- facts of the invariant ----

  lemma RunPlaced(ss: seq<State>, steps: seq<Step>, i: nat, t: int)
    requires Run(ss, steps) && i < |ss| && t in ss[i].txns
    ensures Placed(ss[i].order, t, ss[i].txns[t]) && Sets(ss[i].tuples, ss[i].txns[t])
    ensures TxnStale(ss[i].order, ss[i].txns[t])
  {
    RunInv(ss, steps, i);
    assert Local(ss[i].tuples, ss[i].vers, t, ss[i].txns[t]);
  }

  lemma RunUnlinked(ss: seq<State>, steps: seq<Step>, i: nat, x: int)
    requires Run(ss, steps) && i < |ss| && x in ss[i].tuples && ss[i].tuples[x].cleaner.Unlinked?
    ensures !ss[i].tuples[x].latest
  {
    RunInv(ss, steps, i);
  }

  // ---- lookups that find nothing ----

  // A lookup by a transaction that commits in the end is right: at the
  // transaction's place in the order the key is absent.
  lemma MissingIsRight(ss: seq<State>, steps: seq<Step>, i: nat, j: nat, t: int, k: Key)
    requires Run(ss, steps) && i < j < |ss| && steps[i] == ReadMissing(t, k)
    requires t in ss[j].txns && ss[j].txns[t].phase.Installing?
    ensures 0 <= ss[j].txns[t].pos < |ss[j].order|
    ensures Get(Replay(ss[j].order, ss[j].txns[t].pos), k) == None
  {
    RunStep(ss, steps, i);
    RunLater(ss, steps, i + 1, j, t);
    Serializable(ss, steps, j, t);
  }

  // ---- reads ----

  // The record of tuple x; a marker has none.
  function Content(u: Tuple, x: int): ReadRec {
    if u.chain == [] then ReadRec(x, u.key, 0, None) else ReadRec(x, u.key, u.chain[0].tid, u.chain[0].val)
  }

  // The tuple read is out of the tree, another one has its key, and the cleaner
  // has not yet cleared the latest flag.
  predicate Window(s: State, r: ReadRec) {
    && r.x in s.tuples && s.tuples[r.x].cleaner.Unlinked? && s.tuples[r.x].chain != []
    && r.key in s.tree
  }

  // Step e checks t's read r in that window.
  ghost predicate LatePass(ss: seq<State>, steps: seq<Step>, e: int, j: int, t: int, r: ReadRec)
    requires |ss| == |steps| + 1 && j < |ss|
  {
    0 <= e < j && steps[e] == CheckRead(t, r) && Window(ss[e], r)
  }

  lemma {:induction false} StaleFrom(ss: seq<State>, steps: seq<Step>, j: nat, t: int, r: ReadRec) returns (e: nat)
    requires Run(ss, steps) && j < |ss| && t in ss[j].txns && r in ss[j].txns[t].stale
    ensures LatePass(ss, steps, e, j, t, r) && ss[e].tuples[r.x].chain[0].src == ss[j].txns[t].stale[r]
    decreases j
  {
    if j == 0 {
      assert false;
    } else {
      e := j - 1;
      RunStep(ss, steps, e);
      if t !in ss[e].txns {
        Newcomer(ss, steps, e, t);
      } else {
        RunFollows(ss, steps, e, t);
        if r in ss[e].txns[t].stale && ss[j].txns[t].stale[r] == ss[e].txns[t].stale[r] {
          e := StaleFrom(ss, steps, e, t, r);
        } else {
          CheckReadStale(ss[e], t, steps[e].r);
        }
      }
    }
  }

  lemma StaleMark(s: State, t: int, r: ReadRec)
    requires Enabled(s, CheckRead(t, r)) && ReadValid(s, s.txns[t], r) && Superseded(s, r)
    ensures Window(s, r)
    ensures var T := s.txns[t];
      DoCheckRead(s, t, r).txns[t] == T.(stale := T.stale[r := s.tuples[r.x].chain[0].src])
  {
  }

  lemma FreshMark(s: State, t: int, r: ReadRec)
    requires Enabled(s, CheckRead(t, r)) && ReadValid(s, s.txns[t], r) && !Superseded(s, r)
    ensures var T := s.txns[t];
      DoCheckRead(s, t, r).txns[t] == T.(okSeen := T.okSeen[r := LastWriter(s.lastW, r.key)])
  {
  }

  lemma FailMark(s: State, t: int, r: ReadRec)
    requires Enabled(s, CheckRead(t, r)) && !ReadValid(s, s.txns[t], r)
    ensures DoCheckRead(s, t, r).txns[t] == s.txns[t].(phase := Aborting)
  {
    assert Fail(s, t).txns == s.txns[t := s.txns[t].(phase := Aborting)];
  }

  lemma CheckReadStale(s: State, t: int, r: ReadRec)
    requires Enabled(s, CheckRead(t, r))
    ensures var T, T' := s.txns[t], DoCheckRead(s, t, r).txns[t];
      T'.stale == T.stale || (Window(s, r) && T'.stale == T.stale[r := s.tuples[r.x].chain[0].src])
  {
    if !ReadValid(s, s.txns[t], r) { FailMark(s, t, r); }
    else if Superseded(s, r) { StaleMark(s, t, r); }
    else { FreshMark(s, t, r); }
  }

  lemma LateMark(s: State, t: int, r: ReadRec)
    requires Enabled(s, CheckRead(t, r)) && !Reason(s, CheckRead(t, r), s.txns[t])
    requires Window(s, r) && !s.tuples[r.x].latest
    ensures ReadValid(s, s.txns[t], r) && Superseded(s, r)
    ensures var T' := DoCheckRead(s, t, r).txns[t];
      && r in T'.stale && T'.stale[r] == s.tuples[r.x].chain[0].src && Live(T') && T'.pos == s.txns[t].pos
  {
    StaleMark(s, t, r);
  }

  lemma StaleLater(s: State, s': State, p: int, r: ReadRec, src: int)
    requires StaleOk(s.order, p, r, src) && Extends(s, s')
    ensures StaleOk(s'.order, p, r, src)
  {
  }

  // A transaction that commits has not failed this check.
  lemma LateChecked(ss: seq<State>, steps: seq<Step>, e: nat, j: nat, t: int, r: ReadRec)
    requires Run(ss, steps) && e < j < |ss| && LatePass(ss, steps, e, j, t, r)
    requires t in ss[j].txns && ss[j].txns[t].phase.Installing?
    ensures Enabled(ss[e], CheckRead(t, r)) && !Reason(ss[e], CheckRead(t, r), ss[e].txns[t])
    ensures ss[j].txns[t].pos == ss[e].txns[t].pos
  {
    RunStep(ss, steps, e);
    RunOwn(ss, steps, e);
    RunLater(ss, steps, e + 1, j, t);
  }

  lemma LatePassed(ss: seq<State>, steps: seq<Step>, e: nat, j: nat, t: int, r: ReadRec)
    requires Run(ss, steps) && e < j < |ss| && LatePass(ss, steps, e, j, t, r)
    requires t in ss[j].txns && ss[j].txns[t].phase.Installing?
    ensures t in ss[e].txns && ReadValid(ss[e], ss[e].txns[t], r) && Superseded(ss[e], r)
    ensures StaleOk(ss[j].order, ss[j].txns[t].pos, r, ss[e].tuples[r.x].chain[0].src)
  {
    LateChecked(ss, steps, e, j, t, r);
    RunUnlinked(ss, steps, e, r.x);
    LateMark(ss[e], t, r);
    RunStep(ss, steps, e);
    assert ss[e + 1] == DoCheckRead(ss[e], t, r);
    RunPlaced(ss, steps, e + 1, t);
    RunExtends(ss, steps, e + 1, j);
    StaleLater(ss[e + 1], ss[j], ss[j].txns[t].pos, r, ss[e].tuples[r.x].chain[0].src);
  }

  // A read by a transaction that commits in the end returns what the
  // transactions before it leave, unless it passed validation in that window
  // and the key has been revived before the transaction's lock point.
  lemma ReadIsRight(ss: seq<State>, steps: seq<Step>, i: nat, j: nat, t: int, x: int)
    requires Run(ss, steps) && i < j < |ss| && steps[i] == Read(t, x)
    requires t in ss[j].txns && ss[j].txns[t].phase.Installing?
    ensures x in ss[i].tuples && 0 <= ss[j].txns[t].pos < |ss[j].order|
    ensures var u, o, p := ss[i].tuples[x], ss[j].order, ss[j].txns[t].pos;
      (if u.chain == [] then None else u.chain[0].val) == Get(Replay(o, p), u.key) <==>
        !exists e :: LatePass(ss, steps, e, j, t, Content(u, x)) && Revived(o, ss[e].tuples[x].chain[0].src, p, u.key)
  {
    RunStep(ss, steps, i);
    var r := Content(ss[i].tuples[x], x);
    assert r in ss[i + 1].txns[t].seen;
    RunLater(ss, steps, i + 1, j, t);
    Serializable(ss, steps, j, t);
    var o, p := ss[j].order, ss[j].txns[t].pos;
    forall e | LatePass(ss, steps, e, j, t, r)
      ensures r.val == Get(Replay(o, p), r.key) <==> !Revived(o, ss[e].tuples[x].chain[0].src, p, r.key)
    {
      LatePassed(ss, steps, e, j, t, r);
      StaleExact(o, p, r, ss[e].tuples[x].chain[0].src);
    }
    if r.val != Get(Replay(o, p), r.key) {
      var e := StaleFrom(ss, steps, j, t, r);
    }
  }

  // In runs without such a pass every read is right.
  lemma StrictRead(ss: seq<State>, steps: seq<Step>, i: nat, j: nat, t: int, x: int)
    requires StrictRun(ss, steps) && i < j < |ss| && steps[i] == Read(t, x)
    requires t in ss[j].txns && ss[j].txns[t].phase.Installing?
    ensures x in ss[i].tuples && 0 <= ss[j].txns[t].pos < |ss[j].order|
    ensures var u := ss[i].tuples[x];
      (if u.chain == [] then None else u.chain[0].val) == Get(Replay(ss[j].order, ss[j].txns[t].pos), u.key)
  {
    ReadIsRight(ss, steps, i, j, t, x);
    var r := Content(ss[i].tuples[x], x);
    forall e: int ensures !LatePass(ss, steps, e, j, t, r) {
      if LatePass(ss, steps, e, j, t, r) { LatePassed(ss, steps, e, j, t, r); }
    }
  }

  // Nothing is validated that was not read: an entry of the read set is the
  // content of the tuple at a Read step.
  lemma {:induction false} SeenFrom(ss: seq<State>, steps: seq<Step>, j: nat, t: int, r: ReadRec) returns (i: nat)
    requires Run(ss, steps) && j < |ss| && t in ss[j].txns && r in ss[j].txns[t].seen
    ensures i < j && steps[i] == Read(t, r.x) && r.x in ss[i].tuples && r == Content(ss[i].tuples[r.x], r.x)
    decreases j
  {
    if j == 0 {
      assert false;
    } else {
      i := j - 1;
      RunStep(ss, steps, i);
      if t !in ss[i].txns {
        Newcomer(ss, steps, i, t);
      } else {
        RunFollows(ss, steps, i, t);
        if r in ss[i].txns[t].seen { i := SeenFrom(ss, steps, i, t, r); }
      }
    }
  }

  lemma MissingNode(s: State, t: int, k: Key)
    requires Enabled(s, ReadMissing(t, k))
    ensures var T, s' := s.txns[t], DoReadMissing(s, t, k);
      s'.txns[t].nodes == T.nodes || s'.txns[t].nodes == T.nodes[k.leaf := VersionOf(s'.vers, k.leaf)]
  {
    var T, v := s.txns[t], VersionOf(s.vers, k.leaf);
    MissingForm(s, t, k);
    if !(k.leaf in T.nodes && T.nodes[k.leaf] != v) {
      assert DoReadMissing(s, t, k).txns[t] == T.(nodes := T.nodes[k.leaf := v], missing := T.missing + {k});
    }
  }

  lemma InsertNode(s: State, t: int, k: Key, x: int, v: Option<Value>)
    requires Enabled(s, Insert(t, k, x, v))
    ensures var T, s' := s.txns[t], DoInsert(s, t, k, x, v);
      s'.txns[t].nodes == T.nodes || s'.txns[t].nodes == T.nodes[k.leaf := VersionOf(s'.vers, k.leaf)]
  {
  }

  lemma StepNode(ss: seq<State>, steps: seq<Step>, i: nat, t: int, n: int)
    requires Run(ss, steps) && i < |steps| && t in ss[i].txns && t in ss[i + 1].txns && n in ss[i + 1].txns[t].nodes
    ensures var T, T', step := ss[i].txns[t], ss[i + 1].txns[t], steps[i];
      || (n in T.nodes && T'.nodes[n] == T.nodes[n])
      || ((step.ReadMissing? || step.Insert?) && step.t == t && step.k.leaf == n
          && T'.nodes[n] == VersionOf(ss[i + 1].vers, n))
  {
    RunStep(ss, steps, i);
    RunFollows(ss, steps, i, t);
    if steps[i].ReadMissing? && steps[i].t == t { MissingNode(ss[i], t, steps[i].k); }
    else if steps[i].Insert? && steps[i].t == t { InsertNode(ss[i], t, steps[i].k, steps[i].x, steps[i].v); }
  }

  // A leaf in the absent set has the version it had after a lookup or an insert of t there.
  lemma {:induction false} NodeFrom(ss: seq<State>, steps: seq<Step>, j: nat, t: int, n: int) returns (i: nat)
    requires Run(ss, steps) && j < |ss| && t in ss[j].txns && n in ss[j].txns[t].nodes
    ensures i < j && (steps[i].ReadMissing? || steps[i].Insert?) && steps[i].t == t && steps[i].k.leaf == n
    ensures ss[j].txns[t].nodes[n] == VersionOf(ss[i + 1].vers, n)
    decreases j
  {
    if j == 0 {
      assert false;
    } else {
      i := j - 1;
      if t !in ss[i].txns {
        Newcomer(ss, steps, i, t);
      } else {
        StepNode(ss, steps, i, t, n);
        if n in ss[i].txns[t].nodes && ss[j].txns[t].nodes[n] == ss[i].txns[t].nodes[n] {
          i := NodeFrom(ss, steps, i, t, n);
        }
      }
    }
  }

  // ---- writes ----

  // The step puts step.v under k for t.
  predicate PutsUnder(s: State, step: Step, t: int, k: Key) {
    || (step.Put? && step.t == t && step.x in s.tuples && s.tuples[step.x].key == k)
    || (step.Insert? && step.t == t && step.k == k)
  }

  predicate WillWrite(T: Txn, k: Key, v: Option<Value>) {
    k in T.byKey && T.byKey[k] in T.writes && T.writes[T.byKey[k]] == v
  }

  lemma PutNotes(s: State, t: int, x: int, v: Option<Value>)
    requires Enabled(s, Put(t, x, v)) && Sets(s.tuples, s.txns[t])
    ensures var T, T', k := s.txns[t], DoPut(s, t, x, v).txns[t], s.tuples[x].key;
      && WillWrite(T', k, v) && T'.byKey.Keys == T.byKey.Keys + {k}
      && forall k', v' :: k' != k && WillWrite(T, k', v') ==> WillWrite(T', k', v')
  {
  }

  lemma InsertNotes(s: State, t: int, k: Key, x: int, v: Option<Value>)
    requires Enabled(s, Insert(t, k, x, v)) && Sets(s.tuples, s.txns[t])
    ensures var T, T' := s.txns[t], DoInsert(s, t, k, x, v).txns[t];
      && WillWrite(T', k, v) && T'.byKey.Keys == T.byKey.Keys + {k}
      && forall k', v' :: k' != k && WillWrite(T, k', v') ==> WillWrite(T', k', v')
  {
    InsertTxn(s, t, k, x, v);
  }

  // The keys t will write, after one more step.
  ghost predicate PutStep(ss: seq<State>, steps: seq<Step>, i: int, t: int, k: Key)
    requires |ss| == |steps| + 1
  {
    0 <= i < |steps| && t in ss[i].txns ==>
      && t in ss[i + 1].txns
      && var T, T' := ss[i].txns[t], ss[i + 1].txns[t];
         if PutsUnder(ss[i], steps[i], t, k) then WillWrite(T', k, steps[i].v)
         else (k in T'.byKey <==> k in T.byKey) && forall v :: WillWrite(T, k, v) ==> WillWrite(T', k, v)
  }

  lemma StepPuts(ss: seq<State>, steps: seq<Step>, i: nat, t: int, k: Key)
    requires Run(ss, steps) && i < |steps|
    ensures PutStep(ss, steps, i, t, k)
  {
    if t in ss[i].txns {
      RunStep(ss, steps, i);
      RunFollows(ss, steps, i, t);
      RunPlaced(ss, steps, i, t);
      match steps[i]
      case Put(u, x, v) => if u == t { PutNotes(ss[i], t, x, v); }
      case Insert(u, j, x, v) => if u == t { InsertNotes(ss[i], t, j, x, v); }
      case _ =>
    }
  }

  lemma {:induction false} LastPut(ss: seq<State>, steps: seq<Step>, i: nat, j: nat, t: int, k: Key)
    requires |ss| == |steps| + 1 && i < j < |ss| && t in ss[i].txns && PutsUnder(ss[i], steps[i], t, k)
    requires forall e :: PutStep(ss, steps, e, t, k)
    requires forall e :: i < e < j ==> !PutsUnder(ss[e], steps[e], t, k)
    ensures t in ss[j].txns && WillWrite(ss[j].txns[t], k, steps[i].v)
    decreases j
  {
    if i < j - 1 { LastPut(ss, steps, i, j - 1, t, k); }
    assert PutStep(ss, steps, j - 1, t, k);
  }

  lemma EntryTxn(ss: seq<State>, steps: seq<Step>, i: nat, q: nat) returns (t: int)
    requires Run(ss, steps) && i < |ss| && q < |ss[i].order|
    ensures t == ss[i].order[q].t && t in ss[i].txns && ss[i].txns[t].pos == q
    ensures Placed(ss[i].order, t, ss[i].txns[t])
  {
    RunInv(ss, steps, i);
    t := ss[i].order[q].t;
  }

  // A transaction's entry in the order holds its last put under each key.
  lemma CommitsLastPut(ss: seq<State>, steps: seq<Step>, i: nat, j: nat, t: int, k: Key)
    requires Run(ss, steps) && i < j < |ss| && PutsUnder(ss[i], steps[i], t, k)
    requires forall e :: i < e < j ==> !PutsUnder(ss[e], steps[e], t, k)
    requires t in ss[j].txns && 0 <= ss[j].txns[t].pos
    ensures ss[j].txns[t].pos < |ss[j].order|
    ensures var e := ss[j].order[ss[j].txns[t].pos]; e.t == t && k in e.writes && e.writes[k] == steps[i].v
  {
    RunStep(ss, steps, i);
    forall e ensures PutStep(ss, steps, e, t, k) {
      if 0 <= e < |steps| { StepPuts(ss, steps, e, t, k); }
    }
    LastPut(ss, steps, i, j, t, k);
    RunPlaced(ss, steps, j, t);
  }

  lemma {:induction false} PutFrom(ss: seq<State>, steps: seq<Step>, j: nat, t: int, k: Key) returns (i: nat)
    requires Run(ss, steps) && j < |ss| && t in ss[j].txns && k in ss[j].txns[t].byKey
    ensures i < j && PutsUnder(ss[i], steps[i], t, k)
    decreases j
  {
    if j == 0 {
      assert false;
    } else {
      i := j - 1;
      RunStep(ss, steps, i);
      if t !in ss[i].txns {
        Newcomer(ss, steps, i, t);
      } else {
        StepPuts(ss, steps, i, t, k);
        if k in ss[i].txns[t].byKey { i := PutFrom(ss, steps, i, t, k); }
      }
    }
  }

  // And nothing else.
  lemma CommitsOnlyPuts(ss: seq<State>, steps: seq<Step>, j: nat, q: nat, k: Key) returns (i: nat)
    requires Run(ss, steps) && j < |ss| && q < |ss[j].order| && k in ss[j].order[q].writes
    ensures i < j && PutsUnder(ss[i], steps[i], ss[j].order[q].t, k)
  {
    var t := EntryTxn(ss, steps, j, q);
    i := PutFrom(ss, steps, j, t, k);
  }

  // ---- the order ----

  // A transaction's place in the order is that of its lock point, with the
  // epoch read there.
  lemma LockPoint(ss: seq<State>, steps: seq<Step>, i: nat, j: nat, t: int, tid: int)
    requires Run(ss, steps) && i < j < |ss| && steps[i] == TakeTid(t, tid)
    ensures t in ss[j].txns && ss[j].txns[t].pos == |ss[i].order| < |ss[j].order|
    ensures var e := ss[j].order[|ss[i].order|]; e.t == t && e.tid == tid && e.epoch == ss[i].cur
  {
    RunStep(ss, steps, i);
    RunLater(ss, steps, i + 1, j, t);
    RunExtends(ss, steps, i + 1, j);
  }

  lemma DecideLength(s: State, t: int)
    requires Enabled(s, Decide(t))
    ensures |DoDecide(s, t).order| == |s.order|
  {
  }

  lemma FailLength(s: State, t: int)
    requires t in s.txns
    ensures |Fail(s, t).order| == |s.order|
  {
  }

  lemma CheckLength(s: State, step: Step)
    requires Enabled(s, step) && (step.CheckRead? || step.CheckNode?)
    ensures |Apply(s, step).order| == |s.order|
  {
    FailLength(s, step.t);
  }

  lemma SameLength(s: State, step: Step)
    requires Enabled(s, step) && !step.TakeTid?
    ensures |Apply(s, step).order| == |s.order|
  {
    if !Validates(step) { StepSame(s, step); }
    else if step.Decide? { DecideLength(s, step.t); }
    else { CheckLength(s, step); }
  }

  // Every entry of the order is there by a lock point.
  lemma {:induction false} LockPointOf(ss: seq<State>, steps: seq<Step>, j: nat, q: nat) returns (i: nat)
    requires Run(ss, steps) && j < |ss| && q < |ss[j].order|
    ensures i < j && |ss[i].order| == q && steps[i] == TakeTid(ss[j].order[q].t, ss[j].order[q].tid)
    decreases j
  {
    if j == 0 {
      assert false;
    } else {
      i := j - 1;
      RunStep(ss, steps, i);
      StepOfRunExtends(ss, steps, i);
      if q < |ss[i].order| { i := LockPointOf(ss, steps, i, q); }
      else if !steps[i].TakeTid? { SameLength(ss[i], steps[i]); }
    }
  }

  lemma {:induction false} DecideFrom(ss: seq<State>, steps: seq<Step>, j: nat, t: int) returns (i: nat)
    requires Run(ss, steps) && j < |ss| && t in ss[j].txns && ss[j].txns[t].phase.Installing?
    ensures i < j && steps[i] == Decide(t)
    decreases j
  {
    if j == 0 {
      assert false;
    } else {
      i := j - 1;
      RunStep(ss, steps, i);
      if t !in ss[i].txns {
        Newcomer(ss, steps, i, t);
      } else {
        RunFollows(ss, steps, i, t);
        if ss[i].txns[t].phase.Installing? { i := DecideFrom(ss, steps, i, t); }
      }
    }
  }

  lemma DecideStays(ss: seq<State>, steps: seq<Step>, i: nat, j: nat, t: int)
    requires Run(ss, steps) && i < j < |ss| && steps[i] == Decide(t)
    ensures t in ss[j].txns && ss[j].txns[t].phase.Installing?
  {
    RunStep(ss, steps, i);
    DecideOwn(ss[i], t);
    RunLater(ss, steps, i + 1, j, t);
  }

  // An entry of the order counts as committed exactly if its transaction has
  // passed validation.
  lemma CommitIsDecide(ss: seq<State>, steps: seq<Step>, j: nat, q: nat)
    requires Run(ss, steps) && j < |ss| && q < |ss[j].order|
    ensures ss[j].order[q].fate == Commit <==> exists i :: 0 <= i < j && steps[i] == Decide(ss[j].order[q].t)
  {
    var t := EntryTxn(ss, steps, j, q);
    if ss[j].order[q].fate == Commit { var i := DecideFrom(ss, steps, j, t); }
    forall i | 0 <= i < j && steps[i] == Decide(t) ensures ss[j].order[q].fate == Commit {
      DecideStays(ss, steps, i, j, t);
    }
  }

  // ---- locks ----

  // Acquiring takes the free lock of the tuple the transaction waits for.
  lemma AcquireLocks(ss: seq<State>, steps: seq<Step>, i: nat, t: int)
    requires Run(ss, steps) && i < |steps| && steps[i] == Acquire(t)
    ensures t in ss[i].txns && ss[i].txns[t].phase.Waiting?
    ensures var x := ss[i].txns[t].phase.x;
      && x in ss[i].tuples && ss[i].tuples[x].owner == None && ss[i].tuples[x].cleaner.Away?
      && x in ss[i + 1].tuples && ss[i + 1].tuples[x].owner == Some(t)
  {
    RunStep(ss, steps, i);
  }

  // Unlocking gives the transaction's own lock back.
  lemma UnlockFrees(ss: seq<State>, steps: seq<Step>, i: nat, t: int, x: int)
    requires Run(ss, steps) && i < |steps| && steps[i] == Unlock(t, x)
    ensures x in ss[i].tuples && ss[i].tuples[x].owner == Some(t)
    ensures x in ss[i + 1].tuples && ss[i + 1].tuples[x].owner == None
  {
    RunStep(ss, steps, i);
    LocksAreOwned(ss, steps, i, t, x);
  }

  // The cleaner takes the key of a deleted tuple out of the tree, and the
  // latest flag it then clears makes every later check of a read of it fail.
  lemma UnlinkRemoves(ss: seq<State>, steps: seq<Step>, i: nat, x: int, bump: nat)
    requires Run(ss, steps) && i < |steps| && steps[i] == Unlink(x, bump)
    ensures x in ss[i].tuples && ss[i].tuples[x].chain != [] && ss[i].tuples[x].chain[0].val == None
    ensures ss[i + 1].tree == ss[i].tree - {ss[i].tuples[x].key} && ss[i].tuples[x].key in ss[i].tree
    ensures x in ss[i + 1].tuples && !ss[i + 1].tuples[x].latest
  {
    RunStep(ss, steps, i);
    RunInv(ss, steps, i);
  }

  lemma ClearedFails(ss: seq<State>, steps: seq<Step>, i: nat, x: int, T: Txn, r: ReadRec)
    requires Run(ss, steps) && i < |steps| && steps[i] == ClearLatest(x) && r.x == x
    ensures !ReadValid(ss[i + 1], T, r)
  {
    RunStep(ss, steps, i);
    RunUnlinked(ss, steps, i, x);
  }

  // It drops the versions of a chain from the given place on.
  lemma CutDrops(ss: seq<State>, steps: seq<Step>, i: nat, x: int, n: nat)
    requires Run(ss, steps) && i < |steps| && steps[i] == Cut(x, n)
    ensures x in ss[i].tuples && 0 < n <= |ss[i].tuples[x].chain|
    ensures x in ss[i + 1].tuples && ss[i + 1].tuples[x].chain == ss[i].tuples[x].chain[..n]
  {
    RunStep(ss, steps, i);
  }

  // ---- snapshots ----

  // A snapshot's bound is the read-only tick of the exclusive last tick when it began.
  lemma SnapshotBound(ss: seq<State>, steps: seq<Step>, i: nat, j: nat, n: int, tick: int)
    requires Run(ss, steps) && i < j < |ss| && steps[i] == SnapOpen(n, tick)
    ensures n in ss[j].snaps && ss[j].snaps[n].bound == (ss[i].last + 1) / 25
  {
    RunStep(ss, steps, i);
    RunExtends(ss, steps, i + 1, j);
  }

  // A search by a snapshot that is not under way any more has returned what the
  // transactions of the read-only epochs below the bound leave, and a snapshot
  // that began when `last` was complete sees every epoch below that of last + 1.
  lemma SnapshotAnswer(ss: seq<State>, steps: seq<Step>, b: nat, i: nat, j: nat, n: int, tick: int, k: Key)
    requires Run(ss, steps) && b < i < j < |ss| && steps[b] == SnapOpen(n, tick) && steps[i] == SnapFetch(n, k)
    requires n in ss[j].snaps && ss[j].snaps[n].walk.Idle?
    ensures k in ss[j].snaps[n].got
    ensures var o, p := ss[j].order, Prefix(ss[j].order, (ss[b].last + 1) / 25);
      && ss[j].snaps[n].got[k].val == Get(Replay(o, p), k)
      && forall q :: 0 <= q < |o| ==> (q < p <==> o[q].epoch / 25 < (ss[b].last + 1) / 25)
  {
    RunStep(ss, steps, i);
    assert Asked(ss[i + 1].snaps[n], k);
    RunExtends(ss, steps, i + 1, j);
    SnapshotBound(ss, steps, b, j, n, tick);
    SnapshotIsPrefix(ss, steps, j, n, k);
  }
}
