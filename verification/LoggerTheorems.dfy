// What the log guarantees in every run.

module LoggerTheorems {
  import opened Logger

  // Durable epoch: when v is published for a core, every transaction it has
  // logged with epoch up to v has been written out; so for the system epoch
  // and every core.
  lemma DurableEpoch(ss: seq<State>, steps: seq<Step>, i: nat, k: nat, a: nat)
    requires CleanRun(ss, steps) && i < |ss| && k < |ss[i].cores| && a < |ss[i].cores[k].log|
    ensures ss[i].cores[k].log[a] <= ss[i].cores[k].pub ==> a < ss[i].cores[k].durable
    ensures ss[i].cores[k].log[a] <= ss[i].sync ==> a < ss[i].cores[k].durable
  {
    RunInv(ss, steps, i);
    assert CoreInv(ss[i].cores[k], WriterOf(ss[i], k), ss[i].cur);
  }

  // Every transaction up to the epoch published for its core has been written.
  ghost predicate PubsDurable(s: State) {
    forall k, a :: 0 <= k < |s.cores| && 0 <= a < |s.cores[k].log| && s.cores[k].log[a] <= s.cores[k].pub ==>
      a < s.cores[k].durable
  }

  lemma PubsInv(s: State)
    requires Inv(s)
    ensures PubsDurable(s)
  {
    forall k, a | 0 <= k < |s.cores| && 0 <= a < |s.cores[k].log| && s.cores[k].log[a] <= s.cores[k].pub
      ensures a < s.cores[k].durable
    {
      assert CoreInv(s.cores[k], WriterOf(s, k), s.cur);
    }
  }

  // A bypass after which the promise still holds was clean.
  lemma CleanIfDurable(s: State, step: Step)
    requires Inv(s) && Enabled(s, step) && PubsDurable(Apply(s, step))
    ensures CleanStep(s, step)
  {
    if step.PStore? {
      var k := s.pp.k;
      var s' := Apply(s, step);
      assert CoreInv(s.cores[k], WriterOf(s, k), s.cur);
      assert s'.cores[k] == s.cores[k].(pub := s.best);
      BypassExact(s.cores[k], WriterOf(s, k), s.best, s.cur);
    }
  }

  lemma {:induction false} DurableInv(ss: seq<State>, steps: seq<Step>, i: nat)
    requires Run(ss, steps) && i < |ss| && forall j :: 0 <= j < |ss| ==> PubsDurable(ss[j])
    ensures Inv(ss[i]) && forall j {:trigger steps[j]} :: 0 <= j < i ==> CleanStep(ss[j], steps[j])
    decreases i
  {
    if i > 0 {
      DurableInv(ss, steps, i - 1);
      assert ss[i - 1 + 1] == Apply(ss[i - 1], steps[i - 1]);
      CleanIfDurable(ss[i - 1], steps[i - 1]);
      StepKeeps(ss[i - 1], steps[i - 1]);
    }
  }

  // Published epochs are durable throughout a run exactly if the run is clean.
  lemma DurableExact(ss: seq<State>, steps: seq<Step>)
    requires Run(ss, steps)
    ensures (forall i :: 0 <= i < |ss| ==> PubsDurable(ss[i])) <==> CleanRun(ss, steps)
  {
    if CleanRun(ss, steps) {
      forall i | 0 <= i < |ss| ensures PubsDurable(ss[i]) {
        RunInv(ss, steps, i);
        PubsInv(ss[i]);
      }
    } else if forall i :: 0 <= i < |ss| ==> PubsDurable(ss[i]) {
      DurableInv(ss, steps, |steps|);
      assert false;
    }
  }

  // ---- nothing is logged later in an epoch declared durable ----

  lemma WorkerStable(s: State, step: Step)
    requires Inv(s) && Enabled(s, step) && WorkerStep(step)
    ensures Stable(s.cores[step.k], s.cur, Apply(s, step).cores[step.k], s.cur)
    ensures s.cores[step.k].log <= Apply(s, step).cores[step.k].log
  {
    var c, w := s.cores[step.k], WriterOf(s, step.k);
    assert CoreInv(c, w, s.cur);
    match step
    case StartTxn(_) => TxnKeeps(c, w, s.cur, Running);
    case TakeEpoch(_) => TxnKeeps(c, w, s.cur, Epoch(s.cur));
    case Log(_) => LogStable(c, s.cur);
    case Push(_) => assert Stable(c, s.cur, c.(ends := c.ends + [|c.log|]), s.cur);
    case EndTxn(_) => TxnKeeps(c, w, s.cur, NoTxn);
  }

  lemma WorkerGrows(s: State, step: Step, k: nat, v: int)
    requires Inv(s) && Enabled(s, step) && (WorkerStep(step) || step.Tick?) && k < |s.cores|
    requires Durable(s.cores[k], v, s.cur)
    ensures var s' := Apply(s, step);
      k < |s'.cores| && Durable(s'.cores[k], v, s'.cur) && s.cores[k].log <= s'.cores[k].log
  {
    if WorkerStep(step) && step.k == k { WorkerStable(s, step); }
  }

  lemma LoggerGrows(s: State, step: Step, k: nat, v: int)
    requires Inv(s) && Enabled(s, step) && LoggerStep(step) && k < |s.cores| && Durable(s.cores[k], v, s.cur)
    ensures var s' := Apply(s, step);
      k < |s'.cores| && Durable(s'.cores[k], v, s'.cur) && s.cores[k].log <= s'.cores[k].log
  {
    if step.k == k { LoggerStable(s, step); }
  }

  // A logger's step takes nothing back from the core it works on.
  lemma LoggerStable(s: State, step: Step)
    requires Inv(s) && Enabled(s, step) && LoggerStep(step)
    ensures Stable(s.cores[step.k], s.cur, Apply(s, step).cores[step.k], s.cur)
    ensures Apply(s, step).cores[step.k].log == s.cores[step.k].log
  {
    var c, w := s.cores[step.k], WriterOf(s, step.k);
    assert CoreInv(c, w, s.cur);
    match step
    case LSched(_) => ScheduleKeeps(c, w, s.cur);
    case LDeq(_) => DeqKeeps(c, w, s.cur);
    case LLoad(_) => LoadKeeps(c, w, s.cur, Loaded(c.pub));
    case LStore(_) => StoreKeeps(c, w, s.cur);
  }

  lemma StepGrows(s: State, step: Step, k: nat, v: int)
    requires Inv(s) && Enabled(s, step) && k < |s.cores| && Durable(s.cores[k], v, s.cur)
    ensures var s' := Apply(s, step);
      k < |s'.cores| && Durable(s'.cores[k], v, s'.cur) && s.cores[k].log <= s'.cores[k].log
  {
    if WorkerStep(step) || step.Tick? { WorkerGrows(s, step, k, v); }
    else if LoggerStep(step) { LoggerGrows(s, step, k, v); }
    else { assert CoreInv(s.cores[k], WriterOf(s, k), s.cur); }
  }

  lemma {:induction false} NoLateEntries(ss: seq<State>, steps: seq<Step>, i: nat, j: nat, k: nat)
    requires CleanRun(ss, steps) && i <= j < |ss| && k < |ss[i].cores|
    ensures k < |ss[j].cores| && ss[i].cores[k].log <= ss[j].cores[k].log
    ensures Durable(ss[j].cores[k], ss[i].sync, ss[j].cur)
    ensures forall a :: |ss[i].cores[k].log| <= a < |ss[j].cores[k].log| ==> ss[i].sync < ss[j].cores[k].log[a]
    decreases j
  {
    RunInv(ss, steps, j);
    if i < j {
      NoLateEntries(ss, steps, i, j - 1, k);
      RunInv(ss, steps, j - 1);
      assert ss[j - 1 + 1] == Apply(ss[j - 1], steps[j - 1]);
      StepGrows(ss[j - 1], steps[j - 1], k, ss[i].sync);
      Appended(ss[j - 1], steps[j - 1], k, ss[i].sync);
      LateEntry(ss[j - 1].cores[k], ss[j].cores[k], ss[i].sync, ss[j].cur, |ss[i].cores[k].log|);
    }
  }

  // A log that only grew, and is durable up to v beyond what was there, grew above v.
  lemma LateEntry(c: Core, c': Core, v: int, cur: int, n: nat)
    requires c.log <= c'.log && n <= |c.log| && (forall a :: n <= a < |c.log| ==> v < c.log[a])
    requires forall a :: |c.log| <= a < |c'.log| ==> v < c'.log[a]
    ensures forall a :: n <= a < |c'.log| ==> v < c'.log[a]
  {
    forall a | n <= a < |c'.log| ensures v < c'.log[a] { if a < |c.log| { assert c'.log[a] == c.log[a]; } }
  }

  lemma WorkerAppended(s: State, step: Step, v: int)
    requires Shape(s) && Enabled(s, step) && WorkerStep(step) && Durable(s.cores[step.k], v, s.cur)
    ensures forall a :: |s.cores[step.k].log| <= a < |Apply(s, step).cores[step.k].log| ==>
      v < Apply(s, step).cores[step.k].log[a]
  {
  }

  // Only Log adds an entry, the one whose epoch is pending.
  lemma Appended(s: State, step: Step, k: nat, v: int)
    requires Inv(s) && Enabled(s, step) && k < |s.cores| && Durable(s.cores[k], v, s.cur)
    ensures var s' := Apply(s, step);
      k < |s'.cores| && forall a :: |s.cores[k].log| <= a < |s'.cores[k].log| ==> v < s'.cores[k].log[a]
  {
    if WorkerStep(step) {
      if step.k == k { WorkerAppended(s, step, v); }
    } else if LoggerStep(step) {
      if step.k == k { LoggerStable(s, step); }
    }
  }

  // ---- the system epoch ----

  // No core is behind the system epoch, nor a scanned one behind the minimum.
  ghost predicate BelowPubs(s: State, m: int, k: nat) {
    k <= |s.cores| && forall j :: 0 <= j < k ==> m <= s.cores[j].pub
  }

  ghost predicate ScanOrder(s: State, k: nat) {
    s.sync <= s.best && (s.min.Some? ==> s.sync <= s.min.value && BelowPubs(s, s.min.value, k))
  }

  ghost predicate OrderInv(s: State) {
    && BelowPubs(s, s.sync, |s.cores|)
    && match s.pp
       case Rest => true
       case Scan(k) => ScanOrder(s, k)
       case Locked(k) => ScanOrder(s, k)
       case Peeked(k, _) => ScanOrder(s, k)
       case Bypass(k) => ScanOrder(s, k)
       case Agg(k, e) => ScanOrder(s, |s.cores|)
  }

  // Steps that publish nothing and do not move the persister.
  lemma SamePubs(s: State, s': State)
    requires OrderInv(s) && |s'.cores| == |s.cores| && s'.sync == s.sync && s'.best == s.best && s'.min == s.min
    requires s'.pp == s.pp
    requires forall k :: 0 <= k < |s.cores| ==> s.cores[k].pub <= s'.cores[k].pub
    ensures OrderInv(s')
  {
  }

  lemma WorkerOrder(s: State, step: Step)
    requires Inv(s) && OrderInv(s) && Enabled(s, step) && WorkerStep(step)
    ensures OrderInv(Apply(s, step))
  {
    SamePubs(s, Apply(s, step));
  }

  // ---- publishes ----

  // The persister has been past core k in this round.
  predicate Scanned(s: State, k: nat) {
    match s.pp
    case Rest => false
    case Scan(j) => k < j
    case Locked(j) => k < j
    case Peeked(j, _) => k < j
    case Bypass(j) => k < j
    case Agg(_, _) => true
  }

  // What the persister relies on for core k: the minimum it will store, if it
  // has scanned the core, and else the system epoch.
  function Floor(s: State, k: nat): int {
    if Scanned(s, k) && s.min.Some? && s.min.value > s.sync then s.min.value else s.sync
  }

  // A publish that does not store an epoch above the one it loaded and below the floor.
  predicate Harmless(s: State, step: Step)
    requires Shape(s) && Enabled(s, step)
  {
    step.LStore? ==>
      var v := Prefix(s.cores[step.k], WriterOf(s, step.k).sense);
      !(s.cores[step.k].lp.x0 < v < Floor(s, step.k))
  }

  // A publish keeps every core at or above what the persister relies on
  // exactly if it is harmless.
  lemma StoreExact(s: State, k: nat)
    requires Inv(s) && OrderInv(s) && Enabled(s, LStore(k))
    ensures OrderInv(Apply(s, LStore(k))) <==> Harmless(s, LStore(k))
  {
    var s' := Apply(s, LStore(k));
    assert s'.cores[k].pub == StoreEpoch(s.cores[k], WriterOf(s, k).sense).pub;
    assert forall j :: 0 <= j < |s.cores| && j != k ==> s'.cores[j] == s.cores[j];
  }

  lemma LoggerOrder(s: State, step: Step)
    requires Inv(s) && OrderInv(s) && Enabled(s, step) && Harmless(s, step) && LoggerStep(step)
    ensures OrderInv(Apply(s, step))
  {
    if step.LStore? { StoreExact(s, step.k); } else { SamePubs(s, Apply(s, step)); }
  }

  lemma StartOrder(s: State)
    requires Inv(s) && OrderInv(s) && Enabled(s, PStart)
    ensures OrderInv(Apply(s, PStart))
  {
    assert Durable(s.cores[0], s.sync, s.cur);
  }

  lemma StoreOrder(s: State)
    requires Inv(s) && OrderInv(s) && Enabled(s, PStore)
    ensures OrderInv(Apply(s, PStore))
  {
  }

  lemma ScanStepOrder(s: State, step: Step)
    requires Inv(s) && OrderInv(s) && Enabled(s, step)
    requires step.PLock? || step.PTail? || step.PNull? || step.PFull? || step.PLoad? || step.PEnd?
    ensures OrderInv(Apply(s, step))
  {
  }

  lemma AggOrder(s: State, step: Step)
    requires Inv(s) && OrderInv(s) && Enabled(s, step) && (step.PAgg? || step.PFinish?)
    ensures OrderInv(Apply(s, step))
  {
  }

  lemma PersisterOrder(s: State, step: Step)
    requires Inv(s) && OrderInv(s) && Enabled(s, step) && PersisterStep(step)
    ensures OrderInv(Apply(s, step))
  {
    if step.PStart? { StartOrder(s); }
    else if step.PStore? { StoreOrder(s); }
    else if step.PAgg? || step.PFinish? { AggOrder(s, step); }
    else { ScanStepOrder(s, step); }
  }

  lemma StepOrder(s: State, step: Step)
    requires Inv(s) && OrderInv(s) && Enabled(s, step) && Harmless(s, step)
    ensures OrderInv(Apply(s, step)) && s.sync <= Apply(s, step).sync
  {
    if WorkerStep(step) { WorkerOrder(s, step); }
    else if LoggerStep(step) { LoggerOrder(s, step); }
    else if PersisterStep(step) { PersisterOrder(s, step); }
    else { SamePubs(s, Apply(s, step)); }
  }

  ghost predicate HarmlessRun(ss: seq<State>, steps: seq<Step>) {
    CleanRun(ss, steps) && forall i {:trigger steps[i]} :: 0 <= i < |steps| ==> Harmless(ss[i], steps[i])
  }

  lemma {:induction false} RunOrder(ss: seq<State>, steps: seq<Step>, i: nat)
    requires HarmlessRun(ss, steps) && i < |ss|
    ensures OrderInv(ss[i])
    decreases i
  {
    if i > 0 {
      RunOrder(ss, steps, i - 1);
      RunInv(ss, steps, i - 1);
      assert ss[i - 1 + 1] == Apply(ss[i - 1], steps[i - 1]);
      StepOrder(ss[i - 1], steps[i - 1]);
    }
  }

  // With harmless publishes the system epoch never goes back.
  lemma {:induction false} SyncIsMonotone(ss: seq<State>, steps: seq<Step>, i: nat, j: nat)
    requires HarmlessRun(ss, steps) && i <= j < |ss|
    ensures ss[i].sync <= ss[j].sync
    decreases j
  {
    if i < j {
      SyncIsMonotone(ss, steps, i, j - 1);
      RunOrder(ss, steps, j - 1);
      RunInv(ss, steps, j - 1);
      assert ss[j - 1 + 1] == Apply(ss[j - 1], steps[j - 1]);
      StepOrder(ss[j - 1], steps[j - 1]);
    }
  }

  // The system epoch never goes back exactly if each round that finishes met
  // the persister's assertion.
  ghost predicate FinishesUp(ss: seq<State>, steps: seq<Step>)
    requires Run(ss, steps)
  {
    forall i {:trigger steps[i]} :: 0 <= i < |steps| && steps[i].PFinish? ==> ss[i].sync <= ss[i].min.value
  }

  lemma SyncMoves(s: State, step: Step)
    requires Shape(s) && Enabled(s, step)
    ensures Apply(s, step).sync == if step.PFinish? then s.min.value else s.sync
  {
  }

  lemma {:induction false} SyncClimbs(ss: seq<State>, steps: seq<Step>, i: nat, j: nat)
    requires Run(ss, steps) && FinishesUp(ss, steps) && i <= j < |ss|
    ensures ss[i].sync <= ss[j].sync
    decreases j
  {
    if i < j {
      SyncClimbs(ss, steps, i, j - 1);
      assert ss[j - 1 + 1] == Apply(ss[j - 1], steps[j - 1]);
      SyncMoves(ss[j - 1], steps[j - 1]);
    }
  }

  lemma SyncExact(ss: seq<State>, steps: seq<Step>)
    requires Run(ss, steps)
    ensures (forall i, j :: 0 <= i <= j < |ss| ==> ss[i].sync <= ss[j].sync) <==> FinishesUp(ss, steps)
  {
    if FinishesUp(ss, steps) {
      forall i, j | 0 <= i <= j < |ss| ensures ss[i].sync <= ss[j].sync { SyncClimbs(ss, steps, i, j); }
    } else {
      var i :| 0 <= i < |steps| && steps[i].PFinish? && ss[i].min.value < ss[i].sync;
      assert ss[i + 1] == Apply(ss[i], steps[i]);
      SyncMoves(ss[i], steps[i]);
    }
  }

  // ---- two stronger conditions, and a weaker one ----

  // A publish that stores no less than what is there, as an atomic maximum would.
  predicate AtomicStep(s: State, step: Step)
    requires Shape(s) && Enabled(s, step)
  {
    step.LStore? ==>
      var c := s.cores[step.k];
      Prefix(c, WriterOf(s, step.k).sense) > c.lp.x0 ==> c.pub <= Prefix(c, WriterOf(s, step.k).sense)
  }

  ghost predicate AtomicRun(ss: seq<State>, steps: seq<Step>) {
    CleanRun(ss, steps) && forall i {:trigger steps[i]} :: 0 <= i < |steps| ==> AtomicStep(ss[i], steps[i])
  }

  lemma AtomicStepHarmless(s: State, step: Step)
    requires OrderInv(s) && Shape(s) && Enabled(s, step) && AtomicStep(s, step)
    ensures Harmless(s, step)
  {
  }

  lemma {:induction false} AtomicOrder(ss: seq<State>, steps: seq<Step>, i: nat)
    requires AtomicRun(ss, steps) && i < |ss|
    ensures OrderInv(ss[i])
    decreases i
  {
    if i > 0 {
      AtomicOrder(ss, steps, i - 1);
      RunInv(ss, steps, i - 1);
      assert ss[i - 1 + 1] == Apply(ss[i - 1], steps[i - 1]);
      AtomicStepHarmless(ss[i - 1], steps[i - 1]);
      StepOrder(ss[i - 1], steps[i - 1]);
    }
  }

  // Atomic publishes are harmless.
  lemma AtomicIsHarmless(ss: seq<State>, steps: seq<Step>)
    requires AtomicRun(ss, steps)
    ensures HarmlessRun(ss, steps)
  {
    forall i | 0 <= i < |steps| ensures Harmless(ss[i], steps[i]) {
      AtomicOrder(ss, steps, i);
      AtomicStepHarmless(ss[i], steps[i]);
    }
  }

  // What the persister asserts when a scan has ended.
  predicate Asserted(s: State, step: Step)
    requires Shape(s) && Enabled(s, step)
  {
    step.PEnd? ==> s.sync <= s.min.value
  }

  ghost predicate AssertedRun(ss: seq<State>, steps: seq<Step>) {
    CleanRun(ss, steps) && forall i {:trigger steps[i]} :: 0 <= i < |steps| ==> Asserted(ss[i], steps[i])
  }

  // With harmless publishes the persister's assertion holds.
  lemma HarmlessIsAsserted(ss: seq<State>, steps: seq<Step>)
    requires HarmlessRun(ss, steps)
    ensures AssertedRun(ss, steps)
  {
    forall i | 0 <= i < |steps| ensures Asserted(ss[i], steps[i]) { RunOrder(ss, steps, i); }
  }
}
