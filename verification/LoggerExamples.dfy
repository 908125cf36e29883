// Runs in which the log does less than its comments and assertions promise.

module LoggerExamples {
  import opened Basics
  import opened Logger
  import opened LoggerTheorems
  import opened LoggerRing

  // What is asked of the steps of a run: that its bypasses are clean, that the
  // persister's assertion holds, and that no publish stores an epoch above the
  // one it loaded and below the system epoch.
  datatype Rules = Rules(clean: bool, asserted: bool, above: bool)

  const FREE := Rules(false, false, false)
  const CLEAN := Rules(true, false, false)
  const STRICT := Rules(true, true, true)

  predicate StoresAbove(s: State, step: Step)
    requires Shape(s) && Enabled(s, step)
  {
    step.LStore? ==> !(s.cores[step.k].lp.x0 < Prefix(s.cores[step.k], WriterOf(s, step.k).sense) < s.sync)
  }

  predicate Obeys(m: Rules, s: State, step: Step)
    requires Shape(s) && Enabled(s, step)
  {
    (m.clean ==> CleanStep(s, step)) && (m.asserted ==> Asserted(s, step)) && (m.above ==> StoresAbove(s, step))
  }

  // s ends a run that obeys the rules m.
  ghost predicate Reached(s: State, m: Rules) {
    exists ss, steps :: EndsIn(ss, steps, s, m)
  }

  ghost predicate EndsIn(ss: seq<State>, steps: seq<Step>, s: State, m: Rules) {
    && Run(ss, steps) && ss[|ss| - 1] == s
    && forall i {:trigger steps[i]} :: 0 <= i < |steps| ==> Obeys(m, ss[i], steps[i])
  }

  lemma Go(s: State, step: Step, m: Rules)
    requires Reached(s, m) && Shape(s) && Enabled(s, step) && Obeys(m, s, step)
    ensures Reached(Apply(s, step), m)
  {
    var ss, steps :| EndsIn(ss, steps, s, m);
    var ss', steps' := ss + [Apply(s, step)], steps + [step];
    assert ss'[0] == ss[0];
    forall i | 0 <= i < |steps'|
      ensures Shape(ss'[i]) && Enabled(ss'[i], steps'[i]) && ss'[i + 1] == Apply(ss'[i], steps'[i])
      ensures Obeys(m, ss'[i], steps'[i])
    {
      if i < |steps| { assert steps'[i] == steps[i] && ss'[i] == ss[i] && ss'[i + 1] == ss[i + 1]; }
    }
    assert EndsIn(ss', steps', Apply(s, step), m);
  }

  lemma GoInitial(s: State, m: Rules)
    requires Initial(s)
    ensures Reached(s, m)
  {
    assert EndsIn([s], [], s, m);
  }

  // ---- single steps, on states given by their parts ----

  // A state with a single logger.
  datatype View = View(cur: int, sync: int, w: Writer, pp: Ppc, best: int, min: Option<int>, cs: seq<Core>)

  ghost predicate Is(s: State, v: View) {
    && Shape(s) && s.cur == v.cur && s.sync == v.sync && |s.writers| == 1 && s.writers[0] == v.w
    && s.pp == v.pp && s.best == v.best && s.min == v.min && s.cores == v.cs
  }

  ghost predicate At(v: View, m: Rules) { exists s :: Reached(s, m) && Is(s, v) }

  // The persister does not hold core k's lock.
  predicate Unheld(v: View, k: nat) { v.pp.Locked? || v.pp.Peeked? || v.pp.Bypass? ==> v.pp.k != k }

  function Put(v: View, k: nat, c: Core): View
    requires k < |v.cs|
  {
    v.(cs := v.cs[k := c])
  }

  lemma Goes(v: View, step: Step, v': View, m: Rules)
    requires At(v, m)
    requires forall s :: Is(s, v) ==> Enabled(s, step) && Obeys(m, s, step) && Is(Apply(s, step), v')
    ensures At(v', m)
  {
    var s :| Reached(s, m) && Is(s, v);
    Go(s, step, m);
    assert Is(Apply(s, step), v');
  }

  // Fewer rules.
  lemma Relaxed(v: View, m: Rules, m': Rules)
    requires At(v, m) && (m'.clean ==> m.clean) && (m'.asserted ==> m.asserted) && (m'.above ==> m.above)
    ensures At(v, m')
  {
    var s :| Reached(s, m) && Is(s, v);
    var ss, steps :| EndsIn(ss, steps, s, m);
    assert EndsIn(ss, steps, s, m');
  }

  lemma Begins(n: nat, m: Rules)
    ensures At(View(1, 0, Writer(Idle, false), Rest, 0, None, seq(n, _ => NewCore())), m)
  {
    var s := State(1, 0, seq(n, _ => 0), seq(n, _ => NewCore()), [Writer(Idle, false)], Rest, 0, None);
    GoInitial(s, m);
    assert Is(s, View(1, 0, Writer(Idle, false), Rest, 0, None, s.cores));
  }

  lemma Ticks(v: View, m: Rules)
    requires At(v, m)
    ensures At(v.(cur := v.cur + 1), m)
  {
    Goes(v, Tick, v.(cur := v.cur + 1), m);
  }

  lemma {:induction false} TicksTo(v: View, n: nat, m: Rules)
    requires At(v, m)
    ensures At(v.(cur := v.cur + n), m)
  {
    if n == 0 {
      assert v.(cur := v.cur + n) == v;
    } else {
      TicksTo(v, n - 1, m);
      Ticks(v.(cur := v.cur + n - 1), m);
    }
  }

  lemma Starts(v: View, k: nat, m: Rules)
    requires At(v, m) && k < |v.cs| && v.cs[k].txn.NoTxn? && Unheld(v, k)
    ensures At(Put(v, k, v.cs[k].(txn := Running)), m)
  {
    Goes(v, StartTxn(k), Put(v, k, v.cs[k].(txn := Running)), m);
  }

  lemma TakesEpoch(v: View, k: nat, m: Rules)
    requires At(v, m) && k < |v.cs| && v.cs[k].txn.Running?
    ensures At(Put(v, k, v.cs[k].(txn := Epoch(v.cur))), m)
  {
    Goes(v, TakeEpoch(k), Put(v, k, v.cs[k].(txn := Epoch(v.cur))), m);
  }

  lemma Logs(v: View, k: nat, m: Rules)
    requires At(v, m) && k < |v.cs| && v.cs[k].txn.Epoch? && HeadEmpty(v.cs[k])
    ensures At(Put(v, k, Append(v.cs[k])), m)
  {
    Goes(v, Log(k), Put(v, k, Append(v.cs[k])), m);
  }

  lemma Ends(v: View, k: nat, m: Rules)
    requires At(v, m) && k < |v.cs| && !v.cs[k].txn.NoTxn?
    ensures At(Put(v, k, v.cs[k].(txn := NoTxn)), m)
  {
    Goes(v, EndTxn(k), Put(v, k, v.cs[k].(txn := NoTxn)), m);
  }

  lemma Pushes(v: View, k: nat, m: Rules)
    requires At(v, m) && k < |v.cs| && !v.cs[k].txn.Running? && !HeadEmpty(v.cs[k]) && v.cs[k].log != []
    ensures At(Put(v, k, v.cs[k].(ends := v.cs[k].ends + [|v.cs[k].log|])), m)
  {
    Goes(v, Push(k), Put(v, k, v.cs[k].(ends := v.cs[k].ends + [|v.cs[k].log|])), m);
  }

  // Core k after logging and pushing one transaction at epoch e.
  function Logged(c: Core, e: int): Core {
    c.(log := c.log + [e], ends := c.ends + [|c.log| + 1], txn := NoTxn)
  }

  lemma LogsOne(v: View, k: nat, m: Rules)
    requires At(v, m) && k < |v.cs| && v.cs[k].txn.NoTxn? && HeadEmpty(v.cs[k]) && Unheld(v, k)
    ensures At(Put(v, k, Logged(v.cs[k], v.cur)), m)
  {
    var c := v.cs[k];
    Starts(v, k, m);
    TakesEpoch(Put(v, k, c.(txn := Running)), k, m);
    Logs(Put(Put(v, k, c.(txn := Running)), k, c.(txn := Epoch(v.cur))), k, m);
    var v1 := Put(Put(Put(v, k, c.(txn := Running)), k, c.(txn := Epoch(v.cur))), k, Append(c.(txn := Epoch(v.cur))));
    Ends(v1, k, m);
    Pushes(Put(v1, k, v1.cs[k].(txn := NoTxn)), k, m);
    assert Put(Put(v1, k, v1.cs[k].(txn := NoTxn)), k, Logged(c, v.cur)).cs == Put(v, k, Logged(c, v.cur)).cs;
  }

  lemma Gathers(v: View, m: Rules)
    requires At(v, m) && v.w.pc.Idle?
    ensures At(v.(w := v.w.(pc := Gather(v.sync))), m)
  {
    Goes(v, LSync(0), v.(w := v.w.(pc := Gather(v.sync))), m);
  }

  lemma Schedules(v: View, k: nat, m: Rules)
    requires At(v, m) && v.w.pc.Gather? && k < |v.cs|
    requires v.cs[k].sched < |v.cs[k].ends| && 0 < v.cs[k].ends[v.cs[k].sched] <= |v.cs[k].log|
    requires |v.cs[k].slots| == LAG
    requires NextEpoch(v.cs[k]) < v.w.pc.lim + 1 + LAG
    requires forall i :: 0 <= i < |v.cs[k].ends| ==> 0 < v.cs[k].ends[i] <= |v.cs[k].log|
    ensures At(Put(v, k, Schedule(v.cs[k], v.w.sense)), m)
  {
    Goes(v, LSched(k), Put(v, k, Schedule(v.cs[k], v.w.sense)), m);
  }

  // Two cores, written out together.
  lemma Writes(v: View, k: nat, m: Rules)
    requires At(v, m) && v.w.pc.Gather? && |v.cs| == 2 && k < 2 && v.cs[k].sched > 0
    requires v.cs[0].sched <= |v.cs[0].ends| && v.cs[1].sched <= |v.cs[1].ends|
    ensures At(v.(w := v.w.(pc := Publish), cs := [Written(v.cs[0]), Written(v.cs[1])]), m)
  {
    var v' := v.(w := v.w.(pc := Publish), cs := [Written(v.cs[0]), Written(v.cs[1])]);
    forall s | Is(s, v) ensures Enabled(s, LWrite(0)) && Is(Apply(s, LWrite(0)), v') {
      assert s.own[0] == 0 && s.own[1] == 0 && s.own[k] == 0 && s.cores[k].sched > 0;
      assert Apply(s, LWrite(0)).cores == v'.cs;
    }
    Goes(v, LWrite(0), v', m);
  }

  // A single core.
  lemma WritesOne(v: View, m: Rules)
    requires At(v, m) && v.w.pc.Gather? && |v.cs| == 1 && 0 < v.cs[0].sched <= |v.cs[0].ends|
    ensures At(v.(w := v.w.(pc := Publish), cs := [Written(v.cs[0])]), m)
  {
    var v' := v.(w := v.w.(pc := Publish), cs := [Written(v.cs[0])]);
    forall s | Is(s, v) ensures Enabled(s, LWrite(0)) && Is(Apply(s, LWrite(0)), v') {
      assert s.own[0] == 0 && s.cores[0].sched > 0;
      assert Apply(s, LWrite(0)).cores == v'.cs;
    }
    Goes(v, LWrite(0), v', m);
  }

  lemma Loads(v: View, k: nat, m: Rules)
    requires At(v, m) && v.w.pc.Publish? && k < |v.cs| && v.cs[k].lp.Unpublished?
    ensures At(Put(v, k, v.cs[k].(lp := Loaded(v.cs[k].pub))), m)
  {
    Goes(v, LLoad(k), Put(v, k, v.cs[k].(lp := Loaded(v.cs[k].pub))), m);
  }

  lemma Stores(v: View, k: nat, m: Rules)
    requires At(v, m) && v.w.pc.Publish? && k < |v.cs| && v.cs[k].lp.Loaded?
    requires m.above ==> !(v.cs[k].lp.x0 < Prefix(v.cs[k], v.w.sense) < v.sync)
    ensures At(Put(v, k, StoreEpoch(v.cs[k], v.w.sense)), m)
  {
    Goes(v, LStore(k), Put(v, k, StoreEpoch(v.cs[k], v.w.sense)), m);
  }

  lemma Dequeues(v: View, k: nat, m: Rules)
    requires At(v, m) && v.w.pc.Publish? && k < |v.cs| && v.cs[k].lp.Stored? && 0 < v.cs[k].sched <= |v.cs[k].ends|
    ensures At(Put(v, k, Dequeue(v.cs[k])), m)
  {
    Goes(v, LDeq(k), Put(v, k, Dequeue(v.cs[k])), m);
  }

  lemma NextRound(v: View, m: Rules)
    requires At(v, m) && v.w.pc.Publish? && forall k :: 0 <= k < |v.cs| ==> v.cs[k].lp.Stored? && v.cs[k].sched == 0
    ensures At(v.(w := Writer(Idle, !v.w.sense)), m)
  {
    Goes(v, LNext(0), v.(w := Writer(Idle, !v.w.sense)), m);
  }

  lemma PStarts(v: View, m: Rules)
    requires At(v, m) && v.pp.Rest? && v.cs != [] && v.cur > 0
    ensures At(v.(pp := Scan(0), best := v.cur - 1, min := None), m)
  {
    Goes(v, PStart, v.(pp := Scan(0), best := v.cur - 1, min := None), m);
  }

  lemma LoadsTail(v: View, k: nat, m: Rules)
    requires At(v, m) && v.pp == Locked(k) && k < |v.cs|
    ensures At(v.(pp := Peeked(k, v.cs[k].base)), m)
  {
    Goes(v, PTail, v.(pp := Peeked(k, v.cs[k].base)), m);
  }

  lemma SeesNull(v: View, k: nat, m: Rules)
    requires At(v, m) && v.pp.Peeked? && v.pp.k == k < |v.cs| && (v.cs[k].ends == [] || v.cs[k].base != v.pp.at)
    ensures At(v.(pp := Bypass(k)), m)
  {
    Goes(v, PNull, v.(pp := Bypass(k)), m);
  }

  // The core is clean as far as its ends can tell.
  ghost predicate CleanView(v: View, k: nat)
    requires k < |v.cs|
  {
    (forall i :: 0 <= i < |v.cs[k].ends| ==> 0 < v.cs[k].ends[i] <= |v.cs[k].log|) && Clean(v.cs[k], v.w, v.best)
  }

  lemma StoresBest(v: View, k: nat, m: Rules)
    requires At(v, m) && v.pp == Bypass(k) && k < |v.cs| && (m.clean ==> CleanView(v, k))
    ensures At(Put(v, k, v.cs[k].(pub := v.best)).(min := MinWith(v.min, v.best), pp := Scan(k + 1)), m)
  {
    Goes(v, PStore, Put(v, k, v.cs[k].(pub := v.best)).(min := MinWith(v.min, v.best), pp := Scan(k + 1)), m);
  }

  lemma LocksIdle(v: View, k: nat, m: Rules)
    requires At(v, m) && v.pp == Scan(k) && k < |v.cs| && v.cs[k].txn.NoTxn?
    ensures At(v.(pp := Locked(k)), m)
  {
    Goes(v, PLock, v.(pp := Locked(k)), m);
  }

  // The view after core k has been bypassed.
  function Bypassed(v: View, k: nat): View
    requires k < |v.cs|
  {
    v.(cs := v.cs[k := v.cs[k].(pub := v.best)], min := MinWith(v.min, v.best), pp := Scan(k + 1))
  }

  lemma Bypasses(v: View, k: nat, m: Rules)
    requires At(v, m) && v.pp == Scan(k) && k < |v.cs| && v.cs[k].txn.NoTxn? && v.cs[k].ends == []
    requires m.clean ==> CleanView(v, k)
    ensures At(Bypassed(v, k), m)
  {
    LocksIdle(v, k, m);
    LoadsTail(v.(pp := Locked(k)), k, m);
    SeesNull(v.(pp := Peeked(k, v.cs[k].base)), k, m);
    StoresBest(v.(pp := Bypass(k)), k, m);
  }

  lemma Scans(v: View, k: nat, m: Rules)
    requires At(v, m) && v.pp == Scan(k) && k < |v.cs|
    ensures At(v.(min := MinWith(v.min, v.cs[k].pub), pp := Scan(k + 1)), m)
  {
    Goes(v, PLoad, v.(min := MinWith(v.min, v.cs[k].pub), pp := Scan(k + 1)), m);
  }

  ghost predicate SameButStats(c: Core, c': Core) {
    c' == c.(slots := c'.slots, persisted := c'.persisted) && |c'.slots| == LAG
  }

  ghost predicate SameView(v: View, v': View) {
    && v' == v.(pp := v'.pp, cs := v'.cs) && |v'.cs| == |v.cs|
    && forall j :: 0 <= j < |v.cs| ==> SameButStats(v.cs[j], v'.cs[j])
  }

  lemma Harvests(v: View, k: nat, e: int, m: Rules)
    requires At(v, m) && v.pp == Agg(k, e) && v.min.Some? && k < |v.cs| && |v.cs[k].slots| == LAG && e <= v.min.value
    ensures At(Put(v, k, Harvest(v.cs[k], e)).(pp := Agg(k, e + 1)), m)
  {
    Goes(v, PAgg, Put(v, k, Harvest(v.cs[k], e)).(pp := Agg(k, e + 1)), m);
  }

  lemma Skips(v: View, k: nat, e: int, m: Rules)
    requires At(v, m) && v.pp == Agg(k, e) && v.min.Some? && k < |v.cs| && e > v.min.value
    ensures At(v.(pp := Agg(k + 1, v.sync + 1)), m)
  {
    Goes(v, PAgg, v.(pp := Agg(k + 1, v.sync + 1)), m);
  }

  lemma {:induction false} Drains(v: View, k: nat, e: int, m: Rules) returns (v': View)
    requires At(v, m) && v.pp == Agg(k, e) && v.min.Some? && k <= |v.cs|
    requires forall j :: 0 <= j < |v.cs| ==> |v.cs[j].slots| == LAG
    ensures At(v', m) && SameView(v, v') && v'.pp.Agg? && v'.pp.k == |v.cs|
    ensures v.min.value <= v.sync < e ==> v'.cs == v.cs
    decreases |v.cs| - k, v.min.value + 1 - e
  {
    if k == |v.cs| {
      v' := v;
    } else if e <= v.min.value {
      Harvests(v, k, e, m);
      v' := Drains(Put(v, k, Harvest(v.cs[k], e)).(pp := Agg(k, e + 1)), k, e + 1, m);
    } else {
      Skips(v, k, e, m);
      v' := Drains(v.(pp := Agg(k + 1, v.sync + 1)), k + 1, v.sync + 1, m);
    }
  }

  // The rest of a persister round, up to the store of the new system epoch.
  lemma Aggregates(v: View, m: Rules) returns (v': View)
    requires At(v, m) && v.pp == Scan(|v.cs|) && v.min.Some? && forall j :: 0 <= j < |v.cs| ==> |v.cs[j].slots| == LAG
    requires m.asserted ==> v.sync <= v.min.value
    ensures At(v', m) && SameView(v, v') && v'.pp.Agg? && v'.pp.k == |v.cs|
    ensures v.min.value <= v.sync ==> v'.cs == v.cs
  {
    Goes(v, PEnd, v.(pp := Agg(0, v.sync + 1)), m);
    v' := Drains(v.(pp := Agg(0, v.sync + 1)), 0, v.sync + 1, m);
  }

  lemma Finishes(v: View, m: Rules)
    requires At(v, m) && v.pp.Agg? && v.pp.k == |v.cs| && v.min.Some?
    ensures At(v.(sync := v.min.value, pp := Rest), m)
  {
    Goes(v, PFinish, v.(sync := v.min.value, pp := Rest), m);
  }

  // ---- an idle core with unpushed entries ----

  // A bypassed core that is not clean: epoch 1 is published for it although
  // its transaction of epoch 1 has not been written.
  lemma UncleanBypass() returns (s: State)
    ensures Reached(s, FREE) && |s.cores| == 1
    ensures s.cores[0].pub == 1 && s.cores[0].log == [1] && s.cores[0].durable == 0
  {
    Begins(1, FREE);
    var c := NewCore();
    var v := View(1, 0, Writer(Idle, false), Rest, 0, None, seq(1, _ => NewCore()));
    Starts(v, 0, FREE);
    v := Put(v, 0, c.(txn := Running));
    TakesEpoch(v, 0, FREE);
    v := Put(v, 0, c.(txn := Epoch(1)));
    Logs(v, 0, FREE);
    v := Put(v, 0, Append(c.(txn := Epoch(1))));
    Ends(v, 0, FREE);
    v := Put(v, 0, v.cs[0].(txn := NoTxn));
    Ticks(v, FREE);
    v := v.(cur := 2);
    PStarts(v, FREE);
    v := v.(pp := Scan(0), best := 1, min := None);
    Bypasses(v, 0, FREE);
    s :| Reached(s, FREE) && Is(s, Bypassed(v, 0));
  }

  // ---- a queue that looks empty ----

  // Transaction T0 of epoch 1 is in a buffer, and T1 has taken epoch 1 too.
  lemma OneBuffer() returns (v: View)
    ensures At(v, FREE) && v == View(1, 0, Writer(Idle, false), Rest, 0, None, v.cs) && |v.cs| == 1
    ensures v.cs[0] == NewCore().(log := [1], txn := Epoch(1))
  {
    Begins(1, FREE);
    var c := NewCore();
    v := View(1, 0, Writer(Idle, false), Rest, 0, None, seq(1, _ => NewCore()));
    Starts(v, 0, FREE);
    v := Put(v, 0, c.(txn := Running));
    TakesEpoch(v, 0, FREE);
    v := Put(v, 0, c.(txn := Epoch(1)));
    Logs(v, 0, FREE);
    v := Put(v, 0, Append(v.cs[0]));
    TakesEpoch(v, 0, FREE);
    v := Put(v, 0, v.cs[0].(txn := Epoch(1)));
  }

  // The persister takes 1 as its best epoch; T1 then finds the buffer full.
  lemma TwoBuffers() returns (v: View)
    ensures At(v, FREE) && |v.cs| == 1 && v.cur == 2 && v.sync == 0 && v.w == Writer(Idle, false)
    ensures v.pp == Scan(0) && v.best == 1 && v.min == None
    ensures v.cs[0] == NewCore().(log := [1, 1], ends := [1])
  {
    v := OneBuffer();
    Ticks(v, FREE);
    v := v.(cur := 2);
    PStarts(v, FREE);
    v := v.(pp := Scan(0), best := 1, min := None);
    Pushes(v, 0, FREE);
    v := Put(v, 0, v.cs[0].(ends := v.cs[0].ends + [|v.cs[0].log|]));
    Logs(v, 0, FREE);
    v := Put(v, 0, Append(v.cs[0]));
    Ends(v, 0, FREE);
    v := Put(v, 0, v.cs[0].(txn := NoTxn));
  }

  // The logger writes the first buffer and publishes it.
  lemma FirstWritten() returns (v: View)
    ensures At(v, FREE) && |v.cs| == 1 && v.cur == 2 && v.w.pc.Publish? && v.pp == Scan(0) && v.best == 1
    ensures var c := v.cs[0];
      && c.log == [1, 1] && c.ends == [1] && c.base == 0 && c.sched == 1 && c.durable == 1 && c.lp == Stored
      && c.txn == NoTxn && c.pub == 0
  {
    v := TwoBuffers();
    Gathers(v, FREE);
    v := v.(w := v.w.(pc := Gather(v.sync)));
    Schedules(v, 0, FREE);
    v := Put(v, 0, Schedule(v.cs[0], v.w.sense));
    WritesOne(v, FREE);
    v := v.(w := v.w.(pc := Publish), cs := [Written(v.cs[0])]);
    Loads(v, 0, FREE);
    v := Put(v, 0, v.cs[0].(lp := Loaded(v.cs[0].pub)));
    Stores(v, 0, FREE);
    v := Put(v, 0, StoreEpoch(v.cs[0], v.w.sense));
  }

  // T2 of epoch 2 pushes the second buffer.
  lemma SecondPushed() returns (v: View)
    ensures At(v, FREE) && |v.cs| == 1 && v.w.pc.Publish? && v.pp == Scan(0) && v.best == 1
    ensures var c := v.cs[0];
      && c.log == [1, 1] && c.ends == [1, 2] && c.base == 0 && c.sched == 1 && c.durable == 1 && c.lp == Stored
      && c.txn == Epoch(2)
  {
    v := FirstWritten();
    Starts(v, 0, FREE);
    v := Put(v, 0, v.cs[0].(txn := Running));
    TakesEpoch(v, 0, FREE);
    v := Put(v, 0, v.cs[0].(txn := Epoch(2)));
    Pushes(v, 0, FREE);
    v := Put(v, 0, v.cs[0].(ends := v.cs[0].ends + [|v.cs[0].log|]));
  }

  // The persister locks the idle core.
  lemma SecondQueued() returns (v: View)
    ensures At(v, FREE) && |v.cs| == 1 && v.w.pc.Publish? && v.pp == Locked(0) && v.best == 1
    ensures var c := v.cs[0];
      && c.log == [1, 1, 2] && c.ends == [1, 2] && c.base == 0 && c.sched == 1 && c.durable == 1 && c.lp == Stored
      && c.txn == NoTxn
  {
    v := SecondPushed();
    Logs(v, 0, FREE);
    v := Put(v, 0, Append(v.cs[0]));
    Ends(v, 0, FREE);
    v := Put(v, 0, v.cs[0].(txn := NoTxn));
    LocksIdle(v, 0, FREE);
    v := v.(pp := Locked(0));
  }

  // The logger dequeues between the two loads of the persister's test.
  lemma TailMoves() returns (v: View)
    ensures At(v, FREE) && |v.cs| == 1 && v.pp == Peeked(0, 0) && v.best == 1
    ensures var c := v.cs[0]; c.log == [1, 1, 2] && c.ends == [2] && c.base == 1 && c.durable == 1
  {
    v := SecondQueued();
    LoadsTail(v, 0, FREE);
    v := v.(pp := Peeked(0, 0));
    Dequeues(v, 0, FREE);
    v := Put(v, 0, Dequeue(v.cs[0]));
  }

  // The persister so finds an empty slot.  Epoch 1 is published although T1, of
  // epoch 1, is still in the queue; the buffer being filled holds nothing up to
  // epoch 1.
  lemma HiddenBuffer() returns (s: State)
    ensures Reached(s, FREE) && |s.cores| == 1 && s.cores[0].ends == [2] && s.cores[0].log == [1, 1, 2]
    ensures s.cores[0].pub == 1 && s.cores[0].durable == 1
  {
    var v := TailMoves();
    SeesNull(v, 0, FREE);
    v := v.(pp := Bypass(0));
    StoresBest(v, 0, FREE);
    s :| Reached(s, FREE) && Is(s, Put(v, 0, v.cs[0].(pub := v.best)).(min := MinWith(v.min, v.best), pp := Scan(1)));
  }

  // ---- a lost update ----

  // A core without its statistics.
  ghost predicate Core0(c: Core, log: seq<int>, base: nat, ends: seq<nat>, txn: Txn, even: int, odd: int, pub: int,
                        lp: Lp)
  {
    && c.log == log && c.base == base && c.ends == ends && c.sched == 0 && c.durable == base
    && c.txn == txn && c.even == even && c.odd == odd && c.pub == pub && c.lp == lp && |c.slots| == LAG
  }

  ghost predicate Clock(v: View, cur: int, sync: int, w: Writer, pp: Ppc, best: int, min: Option<int>) {
    v.cur == cur && v.sync == sync && v.w == w && v.pp == pp && v.best == best && v.min == min && |v.cs| == 2
  }

  // The persister has loaded tick 0 as its best; core 0 then logs at epoch 3.
  lemma Stage1() returns (v: View)
    ensures At(v, STRICT) && Clock(v, 3, 0, Writer(Idle, false), Scan(0), 0, None)
    ensures Core0(v.cs[0], [3], 0, [1], NoTxn, 0, 0, 0, Stored) && Core0(v.cs[1], [], 0, [], NoTxn, 0, 0, 0, Stored)
  {
    Begins(2, STRICT);
    v := View(1, 0, Writer(Idle, false), Rest, 0, None, seq(2, _ => NewCore()));
    PStarts(v, STRICT);
    v := v.(pp := Scan(0), best := 0, min := None);
    Ticks(v, STRICT);
    v := v.(cur := 2);
    Ticks(v, STRICT);
    v := v.(cur := 3);
    LogsOne(v, 0, STRICT);
    v := Put(v, 0, Logged(NewCore(), 3));
  }

  // One round of the logger up to the write, for a buffer of core k.
  lemma HalfRound(v: View, k: nat) returns (v': View)
    requires At(v, STRICT) && |v.cs| == 2 && k < 2 && v.w.pc.Idle? && v.cs[1 - k].sched == 0
    requires var c := v.cs[k];
      c.sched == 0 && c.ends == [|c.log|] && c.base < |c.log| && |c.slots| == LAG && c.log[|c.log| - 1] <= LAG
    requires v.sync >= 0
    ensures At(v', STRICT) && v' == v.(w := v.w.(pc := Publish), cs := v'.cs) && |v'.cs| == 2
    ensures |v'.cs[k].slots| == LAG
    ensures v'.cs[k] == SetPrefix(v.cs[k], v.w.sense, v.cs[k].log[|v.cs[k].log| - 1] - 1).(
      sched := 1, durable := |v.cs[k].log|, lp := Unpublished, slots := v'.cs[k].slots)
    ensures v'.cs[1 - k] == v.cs[1 - k].(durable := v.cs[1 - k].base, lp := Unpublished)
  {
    Gathers(v, STRICT);
    v' := v.(w := v.w.(pc := Gather(v.sync)));
    Schedules(v', k, STRICT);
    v' := Put(v', k, Schedule(v.cs[k], v.w.sense));
    Writes(v', k, STRICT);
    v' := v'.(w := v'.w.(pc := Publish), cs := [Written(v'.cs[0]), Written(v'.cs[1])]);
  }

  // Core k is published, and its written buffer returned.
  lemma PublishesOwn(v: View, k: nat) returns (v': View)
    requires At(v, STRICT) && v.w.pc.Publish? && |v.cs| == 2 && k < 2
    requires v.cs[k].lp.Unpublished? && v.cs[k].sched == 1 && |v.cs[k].ends| == 1 && v.sync <= v.cs[k].pub
    ensures At(v', STRICT) && |v'.cs| == 2 && v' == Put(v, k, v'.cs[k])
    ensures var c, x := v.cs[k], Prefix(v.cs[k], v.w.sense);
      v'.cs[k] == c.(lp := Stored, pub := if x > c.pub then x else c.pub, base := c.ends[0], ends := [], sched := 0)
  {
    Loads(v, k, STRICT);
    v' := Put(v, k, v.cs[k].(lp := Loaded(v.cs[k].pub)));
    Stores(v', k, STRICT);
    v' := Put(v', k, StoreEpoch(v'.cs[k], v.w.sense));
    Dequeues(v', k, STRICT);
    v' := Put(v', k, Dequeue(v'.cs[k]));
  }

  lemma PublishesOther(v: View, k: nat) returns (v': View)
    requires At(v, STRICT) && v.w.pc.Publish? && |v.cs| == 2 && k < 2 && v.cs[k].lp.Unpublished?
    requires v.sync <= v.cs[k].pub
    ensures At(v', STRICT) && |v'.cs| == 2 && v' == Put(v, k, v'.cs[k])
    ensures var c, x := v.cs[k], Prefix(v.cs[k], v.w.sense);
      v'.cs[k] == c.(lp := Stored, pub := if x > c.pub then x else c.pub)
  {
    Loads(v, k, STRICT);
    v' := Put(v, k, v.cs[k].(lp := Loaded(v.cs[k].pub)));
    Stores(v', k, STRICT);
    v' := Put(v', k, StoreEpoch(v'.cs[k], v.w.sense));
  }

  // Core 0's buffer is written and epoch 2 published for it.
  lemma Stage2() returns (v: View)
    ensures At(v, STRICT) && Clock(v, 3, 0, Writer(Idle, true), Scan(0), 0, None)
    ensures Core0(v.cs[0], [3], 1, [], NoTxn, 2, 0, 2, Stored) && Core0(v.cs[1], [], 0, [], NoTxn, 0, 0, 0, Stored)
  {
    v := Stage1();
    v := HalfRound(v, 0);
    v := PublishesOwn(v, 0);
    v := PublishesOther(v, 1);
    NextRound(v, STRICT);
    v := v.(w := Writer(Idle, !v.w.sense));
  }

  // The persister, with its old best tick, takes core 0 back to epoch 0.
  lemma Stage3() returns (v: View)
    ensures At(v, STRICT) && Clock(v, 3, 0, Writer(Idle, true), Rest, 0, Some(0))
    ensures Core0(v.cs[0], [3], 1, [], NoTxn, 2, 0, 0, Stored) && Core0(v.cs[1], [], 0, [], NoTxn, 0, 0, 0, Stored)
  {
    v := Stage2();
    Bypasses(v, 0, STRICT);
    v := Bypassed(v, 0);
    Scans(v, 1, STRICT);
    v := v.(min := MinWith(v.min, v.cs[1].pub), pp := Scan(2));
    v := Aggregates(v, STRICT);
    Finishes(v, STRICT);
    v := v.(sync := v.min.value, pp := Rest);
  }

  // A round for core 1 flips the prefix arrays.
  lemma Stage4() returns (v: View)
    ensures At(v, STRICT) && Clock(v, 3, 0, Writer(Idle, false), Rest, 0, Some(0))
    ensures Core0(v.cs[0], [3], 1, [], NoTxn, 2, 0, 0, Stored) && Core0(v.cs[1], [3], 1, [], NoTxn, 0, 2, 2, Stored)
  {
    v := Stage3();
    LogsOne(v, 1, STRICT);
    v := Put(v, 1, Logged(v.cs[1], 3));
    v := HalfRound(v, 1);
    v := PublishesOwn(v, 1);
    v := PublishesOther(v, 0);
    NextRound(v, STRICT);
    v := v.(w := Writer(Idle, !v.w.sense));
  }

  // In the next round the logger has loaded core 0's epoch, to compare it with its stale 2.
  lemma Stage5() returns (v: View)
    ensures At(v, STRICT) && Clock(v, 3, 0, Writer(Publish, false), Rest, 0, Some(0))
    ensures Core0(v.cs[0], [3], 1, [], NoTxn, 2, 0, 0, Loaded(0))
    ensures Core0(v.cs[1], [3, 3], 2, [], NoTxn, 2, 2, 2, Stored)
  {
    v := Stage4();
    LogsOne(v, 1, STRICT);
    v := Put(v, 1, Logged(v.cs[1], 3));
    v := HalfRound(v, 1);
    v := PublishesOwn(v, 1);
    Loads(v, 0, STRICT);
    v := Put(v, 0, v.cs[0].(lp := Loaded(v.cs[0].pub)));
  }

  // The persister takes both idle cores, and the system, to epoch 4.
  lemma Stage6() returns (v: View)
    ensures At(v, STRICT) && Clock(v, 5, 4, Writer(Publish, false), Rest, 4, Some(4))
    ensures Core0(v.cs[0], [3], 1, [], NoTxn, 2, 0, 4, Loaded(0))
    ensures Core0(v.cs[1], [3, 3], 2, [], NoTxn, 2, 2, 4, Stored)
  {
    v := Stage5();
    Ticks(v, STRICT);
    v := v.(cur := 4);
    Ticks(v, STRICT);
    v := v.(cur := 5);
    PStarts(v, STRICT);
    v := v.(pp := Scan(0), best := 4, min := None);
    v := BothIdle(v);
    v := Aggregates(v, STRICT);
    Finishes(v, STRICT);
    v := v.(sync := v.min.value, pp := Rest);
  }

  lemma BothIdle(v: View) returns (v': View)
    requires At(v, STRICT) && v.pp == Scan(0) && |v.cs| == 2 && v.min == None
    requires forall k :: 0 <= k < 2 ==> v.cs[k].txn.NoTxn? && v.cs[k].ends == [] && HeadEmpty(v.cs[k])
    ensures At(v', STRICT)
    ensures v' == v.(pp := Scan(2), min := Some(v.best), cs := [v.cs[0].(pub := v.best), v.cs[1].(pub := v.best)])
  {
    Bypasses(v, 0, STRICT);
    v' := Bypassed(v, 0);
    Bypasses(v', 1, STRICT);
    v' := Bypassed(v', 1);
    assert v'.cs == [v.cs[0].(pub := v.best), v.cs[1].(pub := v.best)];
  }

  // The persister scans core 0 while a transaction runs on it, and core 1.
  lemma BusyScan(v: View, m: Rules) returns (v': View)
    requires At(v, m) && v.pp == Rest && |v.cs| == 2 && v.cs[0].txn.NoTxn? && v.cur > 0 && v.cs[0].pub <= v.cs[1].pub
    ensures At(v', m) && v' == v.(pp := Scan(2), best := v.cur - 1, min := Some(v.cs[0].pub), cs := v'.cs)
    ensures v'.cs == [v.cs[0].(txn := Running), v.cs[1]]
  {
    Starts(v, 0, m);
    v' := Put(v, 0, v.cs[0].(txn := Running));
    PStarts(v', m);
    v' := v'.(pp := Scan(0), best := v.cur - 1, min := None);
    Scans(v', 0, m);
    v' := v'.(min := Some(v.cs[0].pub), pp := Scan(1));
    Scans(v', 1, m);
    v' := v'.(pp := Scan(2));
  }

  const ASSERTED := Rules(true, true, false)

  // The logger's late store puts core 0 back to 2, and the logger goes on to
  // its next round; core 0 is busy when the persister comes by again.
  lemma Stage7() returns (v: View)
    ensures At(v, ASSERTED) && Clock(v, 5, 4, Writer(Gather(4), true), Scan(2), 4, Some(2))
    ensures Core0(v.cs[0], [3], 1, [], Running, 2, 0, 2, Stored)
    ensures Core0(v.cs[1], [3, 3], 2, [], NoTxn, 2, 2, 4, Stored)
  {
    v := Stage6();
    Relaxed(v, STRICT, ASSERTED);
    Stores(v, 0, ASSERTED);
    v := Put(v, 0, StoreEpoch(v.cs[0], v.w.sense));
    NextRound(v, ASSERTED);
    v := v.(w := Writer(Idle, true));
    Gathers(v, ASSERTED);
    v := v.(w := Writer(Gather(4), true));
    v := BusyScan(v, ASSERTED);
  }

  // The system epoch can go back, although every bypassed core was clean: the
  // store of a publish is not atomic with the load it is compared to.
  lemma SyncCanGoBack() returns (s: State)
    ensures Reached(s, CLEAN) && Shape(s) && Enabled(s, PFinish) && s.sync == 4 && Apply(s, PFinish).sync == 2
  {
    var v := Stage7();
    Relaxed(v, ASSERTED, CLEAN);
    v := Aggregates(v, CLEAN);
    s :| Reached(s, CLEAN) && Is(s, v);
  }

  // ---- a late store into a scan ----

  const ABOVE := Rules(true, false, true)

  // The late store comes when the persister has scanned core 0 and has not yet
  // stored the new system epoch, so it stores nothing below the system epoch.
  lemma LateScan() returns (v: View)
    ensures At(v, STRICT) && Clock(v, 5, 4, Writer(Publish, false), Rest, 4, Some(4))
    ensures Core0(v.cs[0], [3], 1, [], NoTxn, 2, 0, 2, Stored) && Core0(v.cs[1], [3, 3], 2, [], NoTxn, 2, 2, 4, Stored)
  {
    v := Stage5();
    TicksTo(v, 2, STRICT);
    v := v.(cur := 5);
    PStarts(v, STRICT);
    v := v.(pp := Scan(0), best := 4, min := None);
    v := BothIdle(v);
    Stores(v, 0, STRICT);
    v := Put(v, 0, StoreEpoch(v.cs[0], v.w.sense));
    v := Aggregates(v, STRICT);
    Finishes(v, STRICT);
    v := v.(sync := v.min.value, pp := Rest);
  }

  // The system epoch goes back although no publish stored an epoch between the
  // one it had loaded and the system epoch.
  lemma SyncCanGoBackLater() returns (s: State)
    ensures Reached(s, ABOVE) && Shape(s) && Enabled(s, PFinish) && s.sync == 4 && Apply(s, PFinish).sync == 2
  {
    var v := LateScan();
    v := BusyScan(v, STRICT);
    Relaxed(v, STRICT, ABOVE);
    v := Aggregates(v, ABOVE);
    s :| Reached(s, ABOVE) && Is(s, v);
  }

  // ---- what a late round does to the statistics ----

  // The count between rounds, where the persister's assertion has held.
  lemma AssertedCount(v: View, k: nat)
    requires At(v, ASSERTED) && !v.pp.Agg? && k < |v.cs|
    ensures v.cs[k].persisted == CountUpto(v.cs[k].log, v.sync)
  {
    var s :| Reached(s, ASSERTED) && Is(s, v);
    var ss, steps :| EndsIn(ss, steps, s, ASSERTED);
    assert AssertedRun(ss, steps) by {
      forall i | 0 <= i < |steps| ensures CleanStep(ss[i], steps[i]) && Asserted(ss[i], steps[i]) {
        assert Obeys(ASSERTED, ss[i], steps[i]);
      }
    }
    CountedOnce(ss, steps, |ss| - 1, k);
  }

  // The system epoch has gone back to 2 and the logger still works with 4.
  lemma LateRoundEnds() returns (v: View)
    ensures At(v, CLEAN) && Clock(v, 5, 2, Writer(Gather(4), true), Rest, 4, Some(2))
    ensures Core0(v.cs[0], [3], 1, [], Running, 2, 0, 2, Stored)
    ensures Core0(v.cs[1], [3, 3], 2, [], NoTxn, 2, 2, 4, Stored)
    ensures v.cs[0].persisted == CountUpto([3], 4)
  {
    v := Stage7();
    AssertedCount(v, 0);
    Relaxed(v, ASSERTED, CLEAN);
    v := Aggregates(v, CLEAN);
    Finishes(v, CLEAN);
    v := v.(sync := v.min.value, pp := Rest);
  }

  // Core 0's transaction of epoch 3 is counted as persisted while the system epoch is 2.
  lemma CountCanBeWrong() returns (s: State)
    ensures Reached(s, CLEAN) && !s.pp.Agg? && |s.cores| == 2 && s.sync == 2
    ensures s.cores[0].log == [3] && s.cores[0].persisted == 1 && CountUpto(s.cores[0].log, s.sync) == 0
  {
    var v := LateRoundEnds();
    s :| Reached(s, CLEAN) && Is(s, v);
  }

  // Core 1 logs at epoch 131.
  lemma LappedLog() returns (v: View)
    ensures At(v, CLEAN) && Clock(v, 131, 2, Writer(Gather(4), true), Rest, 4, Some(2))
    ensures v.cs[0].txn.NoTxn? && v.cs[0].ends == [] && HeadEmpty(v.cs[0])
    ensures v.cs[1].log == [3, 3, 131] && v.cs[1].ends == [3] && v.cs[1].sched == 0 && v.cs[1].pub == 4
  {
    v := LateRoundEnds();
    Ends(v, 0, CLEAN);
    v := Put(v, 0, v.cs[0].(txn := NoTxn));
    TicksTo(v, 126, CLEAN);
    v := v.(cur := 131);
    LogsOne(v, 1, CLEAN);
    v := Put(v, 1, Logged(v.cs[1], 131));
  }

  // The persister begins to harvest from epoch 3.
  lemma LappedScan() returns (v: View)
    ensures At(v, CLEAN) && Clock(v, 131, 2, Writer(Gather(4), true), Agg(0, 3), 130, Some(4))
    ensures v.cs[1].log == [3, 3, 131] && v.cs[1].ends == [3] && v.cs[1].sched == 0
  {
    v := LappedLog();
    PStarts(v, CLEAN);
    v := v.(pp := Scan(0), best := 130, min := None);
    Bypasses(v, 0, CLEAN);
    v := Bypassed(v, 0);
    Scans(v, 1, CLEAN);
    v := v.(min := Some(4), pp := Scan(2));
    Goes(v, PEnd, v.(pp := Agg(0, 3)), CLEAN);
    v := v.(pp := Agg(0, 3));
  }

  // The logger may count a buffer of epoch 131 into the slot that the persister
  // is about to harvest for epoch 3.
  lemma SlotCanBeShared() returns (s: State)
    ensures Reached(s, CLEAN) && Shape(s) && Enabled(s, LSched(1)) && s.pp.Agg? && s.sync == 2 && s.min == Some(4)
    ensures NextEpoch(s.cores[1]) == 131 && Slot(3) == Slot(NextEpoch(s.cores[1])) && Shares(s, 1)
  {
    var v := LappedScan();
    s :| Reached(s, CLEAN) && Is(s, v);
    assert s.own[1] == 0;
  }
}
