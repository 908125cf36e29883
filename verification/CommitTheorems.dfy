// What the commit protocol guarantees in every reachable state of every run.

module CommitTheorems {
  import opened Basics
  import opened Tids
  import opened CommitModel
  import opened CommitStructure
  import opened CommitOrder
  import opened CommitValues
  import opened CommitSnapshots
  import opened CommitSteps
  import opened CommitWalks
  import opened CommitCleaner

  // ---- the reference: committed transactions run one at a time against a map ----

  function Replay(order: Order, n: nat): map<Key, Option<Value>>
    requires n <= |order|
  {
    if n == 0 then map[]
    else if order[n - 1].fate == Commit then Replay(order, n - 1) + order[n - 1].writes
    else Replay(order, n - 1)
  }

  function Get(m: map<Key, Option<Value>>, k: Key): Option<Value> { if k in m then m[k] else None }

  // A value whose writer is the last one before position p is what the replay holds there.
  lemma {:induction false} ReplayGet(order: Order, p: nat, k: Key, val: Option<Value>, src: int)
    requires ReadOk(order, p, k, val, src)
    ensures Get(Replay(order, p), k) == val
    decreases p
  {
    if src == p - 1 {
      if p == 0 {
      } else {
        assert k in order[p - 1].writes;
      }
    } else {
      assert !LiveW(order, p - 1, k);
      ReplayGet(order, p - 1, k, val, src);
    }
  }

  // The last committed transaction before p to write k.
  ghost predicate LastBefore(order: Order, p: int, k: Key, q: int) {
    && 0 <= q < p <= |order| && order[q].fate == Commit && k in order[q].writes
    && forall j :: q < j < p && order[j].fate == Commit ==> k !in order[j].writes
  }

  lemma {:induction false} ReplayLast(order: Order, p: nat, k: Key, q: int)
    requires LastBefore(order, p, k, q)
    ensures Get(Replay(order, p), k) == order[q].writes[k]
    decreases p
  {
    if q < p - 1 { ReplayLast(order, p - 1, k, q); }
  }

  lemma {:induction false} ReplayNone(order: Order, p: nat, k: Key)
    requires p <= |order| && forall q :: 0 <= q < p && order[q].fate == Commit ==> k !in order[q].writes
    ensures Get(Replay(order, p), k) == None
    decreases p
  {
    if p > 0 { ReplayNone(order, p - 1, k); }
  }

  lemma {:induction false} LastExists(order: Order, p: nat, k: Key, src: int) returns (q: int)
    requires 0 <= src < p <= |order| && order[src].fate == Commit && k in order[src].writes
    ensures src <= q && LastBefore(order, p, k, q)
    decreases p
  {
    if order[p - 1].fate == Commit && k in order[p - 1].writes {
      q := p - 1;
    } else {
      q := LastExists(order, p - 1, k, src);
    }
  }

  // k has been written again after src: the last transaction before p to write it leaves a value.
  ghost predicate Revived(order: Order, src: int, p: int, k: Key) {
    exists q :: src < q && LastBefore(order, p, k, q) && order[q].writes[k].Some?
  }

  // A read of the deletion at src is right at p exactly if the key has not been revived.
  lemma StaleExact(order: Order, p: int, r: ReadRec, src: int)
    requires StaleOk(order, p, r, src)
    ensures r.val == Get(Replay(order, p), r.key) <==> !Revived(order, src, p, r.key)
  {
    var q := LastExists(order, p, r.key, src);
    ReplayLast(order, p, r.key, q);
    if q' :| src < q' && LastBefore(order, p, r.key, q') && order[q'].writes[r.key].Some? { assert q' == q; }
  }

  // Serializability.  A read of a committed transaction, found or not, is what
  // the transactions before it leave when run one after the other, with one
  // exception: a read that was validated between the cleaner's removal of the
  // key and its clearing of the latest flag, when the key was in the tree again,
  // is right exactly if the key has not been revived before the reader's lock
  // point.
  lemma Serializable(ss: seq<State>, steps: seq<Step>, i: nat, t: int)
    requires Run(ss, steps) && i < |ss| && t in ss[i].txns && ss[i].txns[t].phase.Installing?
    ensures var s := ss[i]; var T := s.txns[t];
      && 0 <= T.pos < |s.order| && s.order[T.pos].t == t && s.order[T.pos].fate == Commit && T.stale.Keys <= T.seen
      && (forall r :: r in T.seen && r !in T.stale ==> r.val == Get(Replay(s.order, T.pos), r.key))
      && (forall r :: r in T.stale ==>
            (r.val == Get(Replay(s.order, T.pos), r.key) <==> !Revived(s.order, T.stale[r], T.pos, r.key)))
      && (forall k :: k in T.missing ==> Get(Replay(s.order, T.pos), k) == None)
  {
    var s := ss[i];
    var T := s.txns[t];
    RunInv(ss, steps, i);
    assert Placed(s.order, t, T) && OkInv(s.order, T) && TxnStale(s.order, T) by { assert TxnValues(s, t, T); }
    assert Nodes(s.vers, T.nodes, T.missing) by { assert Local(s.tuples, s.vers, t, T); }
    OkReads(s.order, T);
    forall r | r in T.stale
      ensures r.val == Get(Replay(s.order, T.pos), r.key) <==> !Revived(s.order, T.stale[r], T.pos, r.key)
    {
      StaleExact(s.order, T.pos, r, T.stale[r]);
    }
  }

  lemma OkReads(order: Order, T: Txn)
    requires OkInv(order, T) && T.phase.Installing? && 0 <= T.pos < |order|
    requires forall k :: k in T.missing ==> k.leaf in T.nodes
    ensures forall r :: r in T.seen && r !in T.stale ==> r.val == Get(Replay(order, T.pos), r.key)
    ensures forall k :: k in T.missing ==> Get(Replay(order, T.pos), k) == None
  {
    forall r | r in T.okSeen ensures r.val == Get(Replay(order, T.pos), r.key) {
      ReplayGet(order, T.pos, r.key, r.val, T.okSeen[r]);
    }
    forall k | k in T.okMissing ensures Get(Replay(order, T.pos), k) == None {
      ReplayGet(order, T.pos, k, None, T.okMissing[k]);
    }
  }

  // All reads of t are what the transactions before it leave.
  ghost predicate ReadsRight(s: State, t: int)
    requires t in s.txns && 0 <= s.txns[t].pos <= |s.order|
  {
    var T := s.txns[t];
    && (forall r :: r in T.seen ==> r.val == Get(Replay(s.order, T.pos), r.key))
    && (forall k :: k in T.missing ==> Get(Replay(s.order, T.pos), k) == None)
  }

  lemma SerializableExact(ss: seq<State>, steps: seq<Step>, i: nat, t: int)
    requires Run(ss, steps) && i < |ss| && t in ss[i].txns && ss[i].txns[t].phase.Installing?
    ensures 0 <= ss[i].txns[t].pos < |ss[i].order|
    ensures ReadsRight(ss[i], t) <==>
      forall r :: r in ss[i].txns[t].stale ==> !Revived(ss[i].order, ss[i].txns[t].stale[r], ss[i].txns[t].pos, r.key)
  {
    Serializable(ss, steps, i, t);
  }

  // A read that passes on a tuple out of the tree while no other has its key is
  // right: nothing is there at the reader's lock point.
  lemma AbsentIsRight(ss: seq<State>, steps: seq<Step>, i: nat, t: int, r: ReadRec)
    requires Run(ss, steps) && i < |ss| && In(ss[i], t, Validating) && r in ss[i].txns[t].seen
    requires ReadValid(ss[i], ss[i].txns[t], r) && !ss[i].tuples[r.x].latest && r.key !in ss[i].tree
    ensures 0 <= ss[i].txns[t].pos < |ss[i].order|
    ensures r.val == None == Get(Replay(ss[i].order, ss[i].txns[t].pos), r.key)
  {
    var s := ss[i];
    RunInv(ss, steps, i);
    ValidatorFacts(s, t);
    AbsentRead(s, t, r);
    StaleRead(s, t, r);
    ReplayGet(s.order, s.txns[t].pos, r.key, r.val, LastWriter(s.lastW, r.key));
  }

  lemma AbsentRead(s: State, t: int, r: ReadRec)
    requires Inv(s) && TuplesClean(s.tuples, s.last) && In(s, t, Validating) && r in s.txns[t].seen
    requires ReadValid(s, s.txns[t], r) && !s.tuples[r.x].latest && r.key !in s.tree
    ensures ReadOk(s.order, s.txns[t].pos, r.key, r.val, LastWriter(s.lastW, r.key))
  {
    ValidatorFacts(s, t);
    assert Placed(s.order, t, s.txns[t]);
    AbsentValidated(s, t, r);
  }

  // ---- runs in which no validation passes on a superseded tuple ----

  predicate Strict(s: State, step: Step)
    requires Enabled(s, step)
  {
    step.CheckRead? && ReadValid(s, s.txns[step.t], step.r) ==> !Superseded(s, step.r)
  }

  ghost predicate StrictRun(ss: seq<State>, steps: seq<Step>) {
    Run(ss, steps) && forall i {:trigger steps[i]} :: 0 <= i < |steps| ==> Strict(ss[i], steps[i])
  }

  ghost predicate NoneStale(txns: map<int, Txn>) { forall t :: t in txns ==> txns[t].stale == map[] }

  lemma OneFresh(txns: map<int, Txn>, t: int, T: Txn)
    requires NoneStale(txns) && T.stale == map[]
    ensures NoneStale(txns[t := T])
  {
  }

  lemma PrivateFresh(s: State, step: Step)
    requires NoneStale(s.txns) && Enabled(s, step) && Private(step) && !step.ReadMissing?
    ensures NoneStale(Apply(s, step).txns)
  {
    OneFresh(s.txns, step.t, Apply(s, step).txns[step.t]);
  }

  lemma MissingFresh(s: State, t: int, k: Key)
    requires NoneStale(s.txns) && Enabled(s, ReadMissing(t, k))
    ensures NoneStale(DoReadMissing(s, t, k).txns)
  {
    OneFresh(s.txns, t, DoReadMissing(s, t, k).txns[t]);
  }

  lemma LockFresh(s: State, step: Step)
    requires NoneStale(s.txns) && Enabled(s, step) && (step.Insert? || step.Acquire? || step.TakeTid?)
    ensures NoneStale(Apply(s, step).txns)
  {
    OneFresh(s.txns, step.t, Apply(s, step).txns[step.t]);
  }

  lemma FailFresh(s: State, t: int)
    requires NoneStale(s.txns) && t in s.txns
    ensures NoneStale(Fail(s, t).txns)
  {
    OneFresh(s.txns, t, s.txns[t].(phase := Aborting));
  }

  lemma CheckReadFresh(s: State, t: int, r: ReadRec)
    requires NoneStale(s.txns) && Enabled(s, CheckRead(t, r)) && Strict(s, CheckRead(t, r))
    ensures NoneStale(DoCheckRead(s, t, r).txns)
  {
    var T := s.txns[t];
    if ReadValid(s, T, r) {
      OneFresh(s.txns, t, T.(okSeen := T.okSeen[r := LastWriter(s.lastW, r.key)]));
    } else {
      FailFresh(s, t);
    }
  }

  lemma CheckNodeFresh(s: State, t: int, n: int)
    requires NoneStale(s.txns) && Enabled(s, CheckNode(t, n))
    ensures NoneStale(DoCheckNode(s, t, n).txns)
  {
    if s.txns[t].nodes[n] == VersionOf(s.vers, n) {
      OneFresh(s.txns, t, DoCheckNode(s, t, n).txns[t]);
    } else {
      FailFresh(s, t);
    }
  }

  lemma DecideFresh(s: State, t: int)
    requires NoneStale(s.txns) && Enabled(s, Decide(t))
    ensures NoneStale(DoDecide(s, t).txns)
  {
    OneFresh(s.txns, t, DoDecide(s, t).txns[t]);
  }

  lemma ValidateFresh(s: State, step: Step)
    requires NoneStale(s.txns) && Enabled(s, step) && Validates(step) && Strict(s, step)
    ensures NoneStale(Apply(s, step).txns)
  {
    match step
    case CheckRead(t, r) => CheckReadFresh(s, t, r);
    case CheckNode(t, n) => CheckNodeFresh(s, t, n);
    case Decide(t) => DecideFresh(s, t);
  }

  lemma InstallFresh(s: State, t: int, x: int, fits: bool, y: int)
    requires NoneStale(s.txns) && Enabled(s, Install(t, x, fits, y))
    ensures NoneStale(DoInstall(s, t, x, fits, y).txns)
  {
    OneFresh(s.txns, t, s.txns[t].(pending := s.txns[t].pending - {x}));
  }

  lemma UnlockFresh(s: State, t: int, x: int)
    requires NoneStale(s.txns) && Enabled(s, Unlock(t, x))
    ensures NoneStale(DoUnlock(s, t, x).txns)
  {
    OneFresh(s.txns, t, s.txns[t].(locked := s.txns[t].locked - {x}));
  }

  lemma ReleaseFresh(s: State, t: int, x: int, bump: nat)
    requires NoneStale(s.txns) && Enabled(s, Release(t, x, bump))
    ensures NoneStale(DoRelease(s, t, x, bump).txns)
  {
    ReleaseForm(s, t, x, bump);
    OneFresh(s.txns, t, s.txns[t].(locked := s.txns[t].locked - {x}));
  }

  lemma FinishFresh(s: State, step: Step)
    requires NoneStale(s.txns) && Enabled(s, step) && Finishes(step)
    ensures NoneStale(Apply(s, step).txns)
  {
    match step
    case Install(t, x, fits, y) => InstallFresh(s, t, x, fits, y);
    case Unlock(t, x) => UnlockFresh(s, t, x);
    case Release(t, x, bump) => ReleaseFresh(s, t, x, bump);
  }

  lemma OtherFresh(s: State, step: Step)
    requires Enabled(s, step) && !Runs(step) && !TakesLocks(step) && !Validates(step) && !Finishes(step)
    ensures Apply(s, step).txns == s.txns
  {
  }

  lemma StepFresh(s: State, step: Step)
    requires NoneStale(s.txns) && Enabled(s, step) && Strict(s, step)
    ensures NoneStale(Apply(s, step).txns)
  {
    if step.ReadMissing? { MissingFresh(s, step.t, step.k); }
    else if Private(step) { PrivateFresh(s, step); }
    else if step.Insert? || step.Acquire? || step.TakeTid? { LockFresh(s, step); }
    else if Validates(step) { ValidateFresh(s, step); }
    else if Finishes(step) { FinishFresh(s, step); }
    else { OtherFresh(s, step); }
  }

  lemma {:induction false} StrictFresh(ss: seq<State>, steps: seq<Step>, i: nat)
    requires StrictRun(ss, steps) && i < |ss|
    ensures NoneStale(ss[i].txns)
    decreases i
  {
    if i > 0 {
      StrictFresh(ss, steps, i - 1);
      RunStep(ss, steps, i - 1);
      StepFresh(ss[i - 1], steps[i - 1]);
    }
  }

  // In such runs every read of every committed transaction is right.
  lemma StrictIsSerializable(ss: seq<State>, steps: seq<Step>, i: nat, t: int)
    requires StrictRun(ss, steps) && i < |ss| && t in ss[i].txns && ss[i].txns[t].phase.Installing?
    ensures 0 <= ss[i].txns[t].pos < |ss[i].order| && ReadsRight(ss[i], t)
  {
    StrictFresh(ss, steps, i);
    SerializableExact(ss, steps, i, t);
  }

  // What the tree holds for k: nothing, a marker, a deleted record or a value.
  function Current(s: State, k: Key): Option<Value> {
    if k in s.tree && s.tree[k] in s.tuples && !Marker(s.tuples[s.tree[k]])
    then s.tuples[s.tree[k]].chain[0].val else None
  }

  // An unlocked key holds exactly what the committed transactions leave:
  // every install of a commit and nothing of an abort.
  lemma TreeIsReplay(ss: seq<State>, steps: seq<Step>, i: nat, k: Key)
    requires Run(ss, steps) && i < |ss|
    requires k in ss[i].tree && ss[i].tree[k] in ss[i].tuples ==> ss[i].tuples[ss[i].tree[k]].owner == None
    ensures Current(ss[i], k) == Get(Replay(ss[i].order, |ss[i].order|), k)
  {
    var s := ss[i];
    RunInv(ss, steps, i);
    assert ReadOk(s.order, |s.order|, k, Current(s, k), LastWriter(s.lastW, k)) by { UnlockedIsSettled(s, k); }
    ReplayGet(s.order, |s.order|, k, Current(s, k), LastWriter(s.lastW, k));
  }

  lemma UnlockedIsSettled(s: State, k: Key)
    requires PendingInv(s.order, s.lastW, s.tuples, s.tree) && SyncInv(s.order, s.lastW, s.tuples, s.tree, s.last)
    requires TreeInv(s.tuples, s.tree)
    requires k in s.tree && s.tree[k] in s.tuples ==> s.tuples[s.tree[k]].owner == None
    ensures ReadOk(s.order, |s.order|, k, Current(s, k), LastWriter(s.lastW, k))
  {
    forall q | LastWriter(s.lastW, k) < q < |s.order| ensures !LiveW(s.order, q, k) {}
  }

  // ---- snapshots ----

  // The length of the shortest prefix that holds every entry with a read-only tick below r.
  function Prefix(order: Order, r: int): (n: nat)
    ensures n <= |order|
  {
    if order == [] then 0
    else if Ro(order[|order| - 1].epoch) < r then |order|
    else Prefix(order[..|order| - 1], r)
  }

  // Epochs never decrease, so that prefix holds nothing else.
  lemma {:induction false} PrefixExact(order: Order, r: int, q: nat)
    requires (forall a, b :: 0 <= a < b < |order| ==> order[a].epoch <= order[b].epoch) && q < |order|
    ensures q < Prefix(order, r) <==> Ro(order[q].epoch) < r
  {
    if Ro(order[|order| - 1].epoch) < r {
      assert order[q].epoch <= order[|order| - 1].epoch;
    } else if q < |order| - 1 {
      PrefixExact(order[..|order| - 1], r, q);
    }
  }

  lemma BelowIsOk(order: Order, cur: int, r: int, k: Key, z: SnapRec)
    requires EpochInv(order, cur) && ReadBelow(order, r, k, z)
    ensures ReadOk(order, Prefix(order, r), k, z.val, z.src)
  {
    if z.src >= 0 { PrefixExact(order, r, z.src); }
    forall q | z.src < q < Prefix(order, r) ensures !LiveW(order, q, k) {
      PrefixExact(order, r, q);
    }
  }

  // A snapshot read returns what the transactions with epoch below the bound
  // leave, and these are a prefix of the serialization order.
  lemma SnapshotIsPrefix(ss: seq<State>, steps: seq<Step>, i: nat, n: int, k: Key)
    requires Run(ss, steps) && i < |ss| && n in ss[i].snaps && k in ss[i].snaps[n].got
    ensures var s := ss[i]; var z := s.snaps[n];
      && z.got[k].val == Get(Replay(s.order, Prefix(s.order, z.bound)), k)
      && forall q :: 0 <= q < |s.order| ==> (q < Prefix(s.order, z.bound) <==> Ro(s.order[q].epoch) < z.bound)
  {
    var s := ss[i];
    var z := s.snaps[n];
    RunInv(ss, steps, i);
    assert ReadBelow(s.order, z.bound, k, z.got[k]);
    BelowIsOk(s.order, s.cur, z.bound, k, z.got[k]);
    ReplayGet(s.order, Prefix(s.order, z.bound), k, z.got[k].val, z.got[k].src);
    forall q | 0 <= q < |s.order| ensures q < Prefix(s.order, z.bound) <==> Ro(s.order[q].epoch) < z.bound {
      PrefixExact(s.order, z.bound, q);
    }
  }

  // So does a walk that is still under way, whatever is written, replaced,
  // unlinked or dropped around it: it will end with what that prefix leaves.
  lemma WalkIsPrefix(ss: seq<State>, steps: seq<Step>, i: nat, n: int)
    requires Run(ss, steps) && i < |ss| && Enabled(ss[i], SnapHop(n))
    ensures var s := ss[i]; var z := s.snaps[n];
      Seen(Remaining(s, z.walk), Bottom(s, z.walk), z.bound).val ==
        Get(Replay(s.order, Prefix(s.order, z.bound)), z.walk.k)
  {
    var s := ss[i];
    var z := s.snaps[n];
    RunInv(ss, steps, i);
    assert SnapWalk(s, z);
    var a := Seen(Remaining(s, z.walk), Bottom(s, z.walk), z.bound);
    BelowIsOk(s.order, s.cur, z.bound, z.walk.k, a);
    ReplayGet(s.order, Prefix(s.order, z.bound), z.walk.k, a.val, a.src);
  }

  // Everything a snapshot may see has been installed and unlocked.
  lemma SnapshotIsInstalled(s: State, n: int, q: nat)
    requires OrderInv(s) && ClockInv(s) && n in s.snaps && q < Prefix(s.order, s.snaps[n].bound)
    ensures s.order[q].t in s.txns && Finished(s.txns[s.order[q].t]) && s.order[q].fate != Open
  {
    PrefixExact(s.order, s.snaps[n].bound, q);
    var T := s.txns[s.order[q].t];
    assert Placed(s.order, s.order[q].t, T);
  }

  // ---- the order only grows ----

  // The search of k is under way or has its answer.
  predicate Asked(z: Snap, k: Key) { (!z.walk.Idle? && z.walk.k == k) || k in z.got }

  ghost predicate SnapsStay(snaps: map<int, Snap>, snaps': map<int, Snap>) {
    && (forall n :: n in snaps ==> n in snaps' && snaps'[n].bound == snaps[n].bound)
    && (forall n, k :: n in snaps && n in snaps' && Asked(snaps[n], k) ==> Asked(snaps'[n], k))
  }

  ghost predicate Extends(s: State, s': State) {
    && |s.order| <= |s'.order| && s.cur <= s'.cur
    && (forall q :: 0 <= q < |s.order| ==> s'.order[q] == s.order[q].(fate := s'.order[q].fate))
    && (forall q :: 0 <= q < |s.order| && s.order[q].fate != Open ==> s'.order[q] == s.order[q])
    && (forall q :: |s.order| <= q < |s'.order| ==> s.cur <= s'.order[q].epoch)
    && SnapsStay(s.snaps, s'.snaps)
  }

  lemma AppendExtends(s: State, t: int, tid: int)
    requires Enabled(s, TakeTid(t, tid))
    ensures Extends(s, DoTakeTid(s, t, tid))
  {
  }

  lemma FateExtends(s: State, s': State, t: int, f: Fate)
    requires Settles(s, s', t, f)
    ensures Extends(s, s')
  {
  }

  lemma FailExtends(s: State, t: int)
    requires In(s, t, Validating) && Placed(s.order, t, s.txns[t])
    ensures Extends(s, Fail(s, t))
  {
    FailForm(s, t);
    FateExtends(s, Fail(s, t), t, Abort);
  }

  lemma CheckReadExtends(s: State, t: int, r: ReadRec)
    requires Enabled(s, CheckRead(t, r)) && Placed(s.order, t, s.txns[t])
    ensures Extends(s, DoCheckRead(s, t, r))
  {
    if !ReadValid(s, s.txns[t], r) { FailExtends(s, t); }
  }

  lemma CheckNodeExtends(s: State, t: int, n: int)
    requires Enabled(s, CheckNode(t, n)) && Placed(s.order, t, s.txns[t])
    ensures Extends(s, DoCheckNode(s, t, n))
  {
    if s.txns[t].nodes[n] != VersionOf(s.vers, n) { FailExtends(s, t); }
  }

  lemma ValidateExtends(s: State, step: Step)
    requires OrderInv(s) && Enabled(s, step) && Validates(step)
    ensures Extends(s, Apply(s, step))
  {
    assert Placed(s.order, step.t, s.txns[step.t]);
    match step
    case CheckRead(t, r) => CheckReadExtends(s, t, r);
    case CheckNode(t, n) => CheckNodeExtends(s, t, n);
    case Decide(t) => DecideForm(s, t); FateExtends(s, DoDecide(s, t), t, Commit);
  }

  // The other steps leave the order alone.
  ghost predicate SameOrder(s: State, s': State) {
    s'.order == s.order && s.cur <= s'.cur && SnapsStay(s.snaps, s'.snaps)
  }

  lemma PrivateSame(s: State, step: Step)
    requires Enabled(s, step) && Private(step)
    ensures SameOrder(s, Apply(s, step))
  {
    PrivateForm(s, step);
  }

  lemma InsertSame(s: State, t: int, k: Key, x: int, v: Option<Value>)
    requires Enabled(s, Insert(t, k, x, v))
    ensures SameOrder(s, DoInsert(s, t, k, x, v))
  {
  }

  lemma AcquireSame(s: State, t: int)
    requires Enabled(s, Acquire(t))
    ensures SameOrder(s, DoAcquire(s, t))
  {
  }

  lemma UnlockSame(s: State, t: int, x: int)
    requires Enabled(s, Unlock(t, x))
    ensures SameOrder(s, DoUnlock(s, t, x))
  {
  }

  lemma ReleaseSame(s: State, t: int, x: int, bump: nat)
    requires Enabled(s, Release(t, x, bump))
    ensures SameOrder(s, DoRelease(s, t, x, bump))
  {
    ReleaseForm(s, t, x, bump);
  }

  lemma InstallSame(s: State, t: int, x: int, fits: bool, y: int)
    requires Enabled(s, Install(t, x, fits, y))
    ensures SameOrder(s, DoInstall(s, t, x, fits, y))
  {
  }

  lemma UnlinkSame(s: State, x: int, bump: nat)
    requires Enabled(s, Unlink(x, bump))
    ensures SameOrder(s, DoUnlink(s, x, bump))
  {
  }

  lemma CutSame(s: State, x: int, i: nat)
    requires Enabled(s, Cut(x, i))
    ensures SameOrder(s, DoCut(s, x, i))
  {
  }

  lemma CleanerMovesSame(s: State, step: Step)
    requires Enabled(s, step) && CleanerMoves(step)
    ensures SameOrder(s, Apply(s, step))
  {
  }

  lemma CleansSame(s: State, step: Step)
    requires Enabled(s, step) && Cleans(step)
    ensures SameOrder(s, Apply(s, step))
  {
    if step.Unlink? { UnlinkSame(s, step.x, step.bump); }
    else if step.Cut? { CutSame(s, step.x, step.i); }
    else { CleanerMovesSame(s, step); }
  }

  lemma HopSame(s: State, n: int)
    requires Enabled(s, SnapHop(n))
    ensures SameOrder(s, DoSnapHop(s, n))
  {
  }

  lemma TicksSame(s: State, step: Step)
    requires Enabled(s, step) && !Runs(step) && !TakesLocks(step) && !Validates(step) && !Finishes(step)
    requires !Cleans(step) && !step.SnapHop?
    ensures SameOrder(s, Apply(s, step))
  {
  }

  lemma StepSame(s: State, step: Step)
    requires Enabled(s, step) && !step.TakeTid? && !Validates(step)
    ensures SameOrder(s, Apply(s, step))
  {
    if Private(step) { PrivateSame(s, step); }
    else if step.Insert? { InsertSame(s, step.t, step.k, step.x, step.v); }
    else if step.Acquire? { AcquireSame(s, step.t); }
    else if step.Install? { InstallSame(s, step.t, step.x, step.fits, step.y); }
    else if step.Unlock? { UnlockSame(s, step.t, step.x); }
    else if step.Release? { ReleaseSame(s, step.t, step.x, step.bump); }
    else if Cleans(step) { CleansSame(s, step); }
    else if step.SnapHop? { HopSame(s, step.n); }
    else { TicksSame(s, step); }
  }

  lemma StepExtends(s: State, step: Step)
    requires OrderInv(s) && Enabled(s, step)
    ensures Extends(s, Apply(s, step))
  {
    if step.TakeTid? { AppendExtends(s, step.t, step.tid); }
    else if Validates(step) { ValidateExtends(s, step); }
    else { StepSame(s, step); }
  }

  lemma ExtendsAgain(s: State, s': State, s'': State)
    requires Extends(s, s') && Extends(s', s'')
    ensures Extends(s, s'')
  {
  }

  lemma {:induction false} RunExtends(ss: seq<State>, steps: seq<Step>, i: nat, j: nat)
    requires Run(ss, steps) && i <= j < |ss|
    ensures Extends(ss[i], ss[j])
    decreases j
  {
    if i == j {
    } else {
      RunExtends(ss, steps, i, j - 1);
      StepOfRunExtends(ss, steps, j - 1);
      ExtendsAgain(ss[i], ss[j - 1], ss[j]);
    }
  }

  lemma StepOfRunExtends(ss: seq<State>, steps: seq<Step>, i: nat)
    requires Run(ss, steps) && i < |steps|
    ensures Extends(ss[i], ss[i + 1])
  {
    RunInv(ss, steps, i);
    RunStep(ss, steps, i);
    StepExtends(ss[i], steps[i]);
  }

  // What a snapshot sees never changes while later transactions run.
  lemma SnapshotIsStable(ss: seq<State>, steps: seq<Step>, i: nat, j: nat, n: int)
    requires Run(ss, steps) && i <= j < |ss| && n in ss[i].snaps
    ensures n in ss[j].snaps && SameView(ss[i], ss[j], n)
  {
    RunInv(ss, steps, i);
    RunInv(ss, steps, j);
    RunExtends(ss, steps, i, j);
    StableView(ss[i], ss[j], n);
  }

  ghost predicate SameView(s: State, s': State, n: int)
    requires n in s.snaps && n in s'.snaps
  {
    var p := Prefix(s.order, s.snaps[n].bound);
    && s'.snaps[n].bound == s.snaps[n].bound && Prefix(s'.order, s'.snaps[n].bound) == p
    && s'.order[..p] == s.order[..p]
  }

  lemma StableView(s: State, s': State, n: int)
    requires OrderInv(s) && ClockInv(s) && EpochInv(s'.order, s'.cur) && Extends(s, s') && n in s.snaps
    ensures SameView(s, s', n)
  {
    var r := s.snaps[n].bound;
    forall q | 0 <= q < Prefix(s.order, r) ensures s'.order[q] == s.order[q] { SnapshotIsInstalled(s, n, q); }
    SamePrefix(s, s', r);
  }

  lemma SamePrefix(s: State, s': State, r: int)
    requires Extends(s, s') && EpochInv(s.order, s.cur) && EpochInv(s'.order, s'.cur) && r <= Ro(s.cur)
    ensures Prefix(s'.order, r) == Prefix(s.order, r)
  {
    var p, p' := Prefix(s.order, r), Prefix(s'.order, r);
    if p < p' {
      PrefixExact(s'.order, r, p);
      if p < |s.order| { PrefixExact(s.order, r, p); }
    } else if p' < p {
      PrefixExact(s.order, r, p');
      PrefixExact(s'.order, r, p');
    }
  }

  // A repeated snapshot read returns what the first one did.
  lemma SnapshotReadsAgree(ss: seq<State>, steps: seq<Step>, i: nat, j: nat, n: int, k: Key)
    requires Run(ss, steps) && i <= j < |ss| && n in ss[i].snaps && n in ss[j].snaps
    requires k in ss[i].snaps[n].got && k in ss[j].snaps[n].got
    ensures ss[i].snaps[n].got[k].val == ss[j].snaps[n].got[k].val
  {
    SnapshotIsStable(ss, steps, i, j, n);
    SnapshotIsPrefix(ss, steps, i, n, k);
    SnapshotIsPrefix(ss, steps, j, n, k);
    ReplayAgrees(ss[i].order, ss[j].order, Prefix(ss[i].order, ss[i].snaps[n].bound));
  }

  lemma {:induction false} ReplayAgrees(order: Order, order': Order, p: nat)
    requires p <= |order| && p <= |order'| && order[..p] == order'[..p]
    ensures Replay(order, p) == Replay(order', p)
  {
    if p > 0 {
      assert order[p - 1] == order[..p][p - 1] == order'[p - 1];
      assert order[..p - 1] == order[..p][..p - 1] == order'[..p - 1];
      ReplayAgrees(order, order', p - 1);
    }
  }

  // ---- transaction ids ----

  // Commit TIDs are unique, carry the core and the epoch of the lock point,
  // strictly increase along the writers of a key, and epochs never decrease.
  lemma CommitTids(ss: seq<State>, steps: seq<Step>, i: nat)
    requires Run(ss, steps) && i < |ss|
    ensures var o := ss[i].order;
      && (forall a, b :: 0 <= a < b < |o| ==> o[a].epoch <= o[b].epoch)
      && (forall a, b :: 0 <= a < b < |o| && 0 < o[a].tid && 0 < o[b].tid ==> o[a].tid != o[b].tid)
      && (forall a :: 0 <= a < |o| && o[a].writes != map[] ==>
            0 < o[a].tid && Epoch(o[a].tid) == o[a].epoch && CoreOf(o[a].tid) == o[a].core)
      && (forall a, b, k :: LiveW(o, a, k) && LiveW(o, b, k) && a < b ==> o[a].tid < o[b].tid)
  {
    RunInv(ss, steps, i);
  }

  // What the generator of commit TIDs asserts: no id in its way is from a later epoch.
  lemma LockPointReady(ss: seq<State>, steps: seq<Step>, i: nat, t: int)
    requires Run(ss, steps) && i < |ss| && t in ss[i].txns
    ensures var s := ss[i]; var T := s.txns[t];
      && (T.core in s.coreTid ==> CoreOf(s.coreTid[T.core]) == T.core && Epoch(s.coreTid[T.core]) <= s.cur)
      && (forall r :: r in T.seen ==> 0 <= r.tid && Epoch(r.tid) <= s.cur)
      && (forall x :: x in s.tuples && !Marker(s.tuples[x]) ==>
        0 < s.tuples[x].chain[0].tid && Epoch(s.tuples[x].chain[0].tid) <= s.cur)
  {
    RunInv(ss, steps, i);
    var s := ss[i];
    assert Local(s.tuples, s.vers, t, s.txns[t]) && TxnValues(s, t, s.txns[t]);
    TopIsCurrent(s);
  }

  lemma TopIsCurrent(s: State)
    requires TopTid(s.order, s.lastW, s.tuples) && EpochInv(s.order, s.cur)
    ensures forall x :: x in s.tuples && !Marker(s.tuples[x]) ==>
      0 < s.tuples[x].chain[0].tid && Epoch(s.tuples[x].chain[0].tid) <= s.cur
  {
    forall x | x in s.tuples && !Marker(s.tuples[x]) ensures Epoch(s.tuples[x].chain[0].tid) <= s.cur {
      var top := s.order[s.lastW[s.tuples[x].key]].tid;
      if s.tuples[x].chain[0].tid < top { TidOrder(s.tuples[x].chain[0].tid, top); }
    }
  }

  // ---- locks ----

  // A lock bit is set exactly while one unfinished transaction counts the
  // tuple among its locks; a marker in the tree is locked by its inserter.
  lemma LocksAreOwned(ss: seq<State>, steps: seq<Step>, i: nat, t: int, x: int)
    requires Run(ss, steps) && i < |ss|
    ensures var s := ss[i];
      && (x in s.tuples && s.tuples[x].owner == Some(t) <==> t in s.txns && x in s.txns[t].locked)
      && (t in s.txns && Finished(s.txns[t]) ==> x in s.tuples ==> s.tuples[x].owner != Some(t))
      && (x in s.tuples && s.tuples[x].latest && Marker(s.tuples[x]) ==>
            s.tuples[x].owner.Some? && s.tuples[x].owner.value in s.txns && !Finished(s.txns[s.tuples[x].owner.value]))
  {
    RunInv(ss, steps, i);
    var s := ss[i];
    if t in s.txns { assert Local(s.tuples, s.vers, t, s.txns[t]); }
    if x in s.tuples && s.tuples[x].latest && Marker(s.tuples[x]) {
      var o := s.tuples[x].owner.value;
      assert o in s.txns && x in s.txns[o].locked;
    }
  }

  // The transaction that t is spinning on: a lock it wants, or a locked record it wants to read.
  predicate WaitsAt(s: State, t: int, x: int) {
    && t in s.txns && x in s.tuples && s.tuples[x].owner.Some?
    && (s.txns[t].phase == Waiting(x) || (s.txns[t].phase.Active? && !Marker(s.tuples[x]) && x !in s.txns[t].writes))
  }

  // If the holder itself waits, it waits at a higher address.
  lemma WaitsClimb(s: State, t: int, x: int, y: int)
    requires StructInv(s) && WaitsAt(s, t, x) && WaitsAt(s, s.tuples[x].owner.value, y)
    ensures x < y
  {
    var o := s.tuples[x].owner.value;
    assert Local(s.tuples, s.vers, t, s.txns[t]) && Local(s.tuples, s.vers, o, s.txns[o]);
    assert x in s.txns[o].locked && Untouched(s.txns[o], x);
  }

  // ts waits in a row: each one's lock is held by the next.
  ghost predicate WaitChain(s: State, ts: seq<int>, xs: seq<int>) {
    && |ts| == |xs| + 1 && |xs| > 0
    && forall j :: 0 <= j < |xs| ==> WaitsAt(s, ts[j], xs[j]) && s.tuples[xs[j]].owner == Some(ts[j + 1])
  }

  lemma {:induction false} ChainClimbs(s: State, ts: seq<int>, xs: seq<int>, j: nat)
    requires StructInv(s) && WaitChain(s, ts, xs) && j < |xs|
    ensures xs[0] <= xs[j] && (j > 0 ==> xs[0] < xs[j])
  {
    if j > 0 {
      ChainClimbs(s, ts, xs, j - 1);
      WaitsClimb(s, ts[j - 1], xs[j - 1], xs[j]);
    }
  }

  // Deadlock freedom: no chain of waiting transactions closes.
  lemma NoDeadlock(ss: seq<State>, steps: seq<Step>, i: nat, ts: seq<int>, xs: seq<int>)
    requires Run(ss, steps) && i < |ss| && WaitChain(ss[i], ts, xs)
    ensures ts[0] != ts[|xs|]
  {
    RunInv(ss, steps, i);
    var s := ss[i];
    if ts[0] == ts[|xs|] {
      ChainClimbs(s, ts, xs, |xs| - 1);
      WaitsClimb(s, ts[|xs| - 1], xs[|xs| - 1], xs[0]);
    }
  }

  function Above(s: State, x: int): set<int> { set y | y in s.tuples && x < y }

  // Whoever waits, some lock holder up the chain does not.
  lemma {:induction false} HolderRuns(s: State, t: int, x: int) returns (o: int)
    requires StructInv(s) && WaitsAt(s, t, x)
    ensures o in s.txns && s.txns[o].locked != {} && !s.txns[o].phase.Active?
    ensures forall y :: !WaitsAt(s, o, y)
    decreases Above(s, x)
  {
    o := s.tuples[x].owner.value;
    assert x in s.txns[o].locked;
    assert Local(s.tuples, s.vers, t, s.txns[t]) && Local(s.tuples, s.vers, o, s.txns[o]);
    if y :| WaitsAt(s, o, y) {
      WaitsClimb(s, t, x, y);
      assert y in Above(s, x) && y !in Above(s, y);
      o := HolderRuns(s, o, y);
    }
  }

  // t can not go on at x: it waits for a transaction, or for the cleaner's lock.
  predicate Blocked(s: State, t: int, x: int) {
    || WaitsAt(s, t, x)
    || (t in s.txns && x in s.tuples && s.txns[t].phase == Waiting(x) && !s.tuples[x].cleaner.Away?)
  }

  // Whoever is blocked, the cleaner can go on with a tuple it has locked, or
  // some transaction that holds a lock is not blocked.
  lemma SomeoneRuns(ss: seq<State>, steps: seq<Step>, i: nat, t: int, x: int) returns (o: int, y: int)
    requires Run(ss, steps) && i < |ss| && Blocked(ss[i], t, x)
    ensures var s := ss[i];
      || Enabled(s, Unlink(y, 0)) || Enabled(s, ClearLatest(y)) || Enabled(s, CleanUnlock(y))
      || (o in s.txns && s.txns[o].locked != {} && forall z :: !Blocked(s, o, z))
  {
    RunInv(ss, steps, i);
    o, y := t, x;
    if WaitsAt(ss[i], t, x) { o := HolderRuns(ss[i], t, x); }
    if z :| Blocked(ss[i], o, z) {
      if !WaitsAt(ss[i], o, z) {
        y := z;
        CleanerRuns(ss[i], z);
      }
    }
  }

  // ---- outcomes ----

  // t has given x back: a marker it put into the tree is out again, any other
  // key stays, and no record is touched.
  ghost predicate Undone(s: State, s': State, t: int, x: int) {
    && t in s.txns && x in s.tuples && s.tuples[x].owner == Some(t) && x in s'.tuples && s'.tuples[x].owner == None
    && (forall z :: z in s.tuples ==> z in s'.tuples && s'.tuples[z].chain == s.tuples[z].chain)
    && s'.tree == (if x in s.txns[t].inserts then s.tree - {s.tuples[x].key} else s.tree)
    && (x in s.txns[t].inserts ==> s.tuples[x].key in s.tree && s.tree[s.tuples[x].key] == x && Marker(s.tuples[x]))
  }

  lemma ReleaseUndoes(s: State, t: int, x: int, bump: nat)
    requires TreeInv(s.tuples, s.tree) && Enabled(s, Release(t, x, bump)) && Locks(s.tuples, t, s.txns[t])
    ensures Undone(s, DoRelease(s, t, x, bump), t, x)
  {
    if x in s.txns[t].inserts { assert Untouched(s.txns[t], x); }
  }

  // On the abort path every release undoes what the transaction did to the tree.
  lemma AbortUndoes(ss: seq<State>, steps: seq<Step>, i: nat, t: int, x: int, bump: nat)
    requires Run(ss, steps) && i < |steps| && steps[i] == Release(t, x, bump)
    ensures Undone(ss[i], ss[i + 1], t, x)
  {
    RunInv(ss, steps, i);
    RunStep(ss, steps, i);
    assert Local(ss[i].tuples, ss[i].vers, t, ss[i].txns[t]);
    ReleaseUndoes(ss[i], t, x, bump);
  }

  lemma CommitInstalls(order: Order, lastW: map<Key, int>, u: Tuples, t: int, T: Txn, k: Key)
    requires Sets(u, T) && Placed(order, t, T) && Ahead(order, lastW, u, T)
    requires T.phase.Installing? && Finished(T) && k in order[T.pos].writes
    ensures T.pos <= LastWriter(lastW, k)
  {
    var x := T.byKey[k];
    assert x in T.writes && x in u && u[x].key == k && x !in T.pending;
  }

  // All or nothing: no record in the tree is by a transaction that has not
  // committed, and a finished commit has installed every key it wrote.
  lemma AllOrNothing(ss: seq<State>, steps: seq<Step>, i: nat, t: int, k: Key)
    requires Run(ss, steps) && i < |ss| && t in ss[i].txns
    ensures var s := ss[i]; var T := s.txns[t];
      && (!T.phase.Installing? && k in s.tree && s.tree[k] in s.tuples ==>
        forall v :: v in s.tuples[s.tree[k]].chain ==> v.src != T.pos)
      && (T.phase.Installing? && Finished(T) ==>
            && 0 <= T.pos < |s.order| && s.order[T.pos].t == t
            && (k in s.order[T.pos].writes ==> T.pos <= LastWriter(s.lastW, k)))
  {
    RunInv(ss, steps, i);
    var s, T := ss[i], ss[i].txns[t];
    assert Placed(s.order, t, T) && Local(s.tuples, s.vers, t, T) && TxnValues(s, t, T);
    if T.phase.Installing? {
      if Finished(T) && k in s.order[T.pos].writes { CommitInstalls(s.order, s.lastW, s.tuples, t, T, k); }
    } else if k in s.tree {
      assert ChainInv(s.order, s.lastW, s.last, k, s.tuples[s.tree[k]].chain, BaseOf(s.base, s.tree[k]));
    }
  }
}
