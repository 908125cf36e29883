// The statistics ring: each logged transaction is counted as persisted once.

module LoggerRing {
  import opened Arith
  import opened Logger
  import opened LoggerTheorems

  // How many entries have epoch x, and epoch at most x.
  function CountEq(s: seq<int>, x: int): nat {
    if s == [] then 0 else CountEq(s[..|s| - 1], x) + if s[|s| - 1] == x then 1 else 0
  }

  function CountUpto(s: seq<int>, x: int): nat {
    if s == [] then 0 else CountUpto(s[..|s| - 1], x) + if s[|s| - 1] <= x then 1 else 0
  }

  // The count is the number of entries at or below x.
  lemma {:induction false} CountIsSize(s: seq<int>, x: int)
    ensures CountUpto(s, x) == |set a | 0 <= a < |s| && s[a] <= x|
  {
    if s != [] {
      var n := |s| - 1;
      var all, low := set a | 0 <= a < |s| && s[a] <= x, set a | 0 <= a < n && s[..n][a] <= x;
      CountIsSize(s[..n], x);
      assert all == low + if s[n] <= x then {n} else {};
    }
  }

  lemma {:induction false} CountStep(s: seq<int>, x: int)
    ensures CountUpto(s, x) == CountUpto(s, x - 1) + CountEq(s, x)
  {
    if s != [] { CountStep(s[..|s| - 1], x); }
  }

  lemma {:induction false} CountNone(s: seq<int>, b: int, x: int)
    requires b < x && forall a :: 0 <= a < |s| ==> s[a] <= b
    ensures CountEq(s, x) == 0
  {
    if s != [] { CountNone(s[..|s| - 1], b, x); }
  }

  // A run of entries that are all e.
  lemma {:induction false} CountRun(log: seq<int>, lo: nat, hi: nat, e: int, x: int)
    requires lo <= hi <= |log| && forall a :: lo <= a < hi ==> log[a] == e
    ensures CountEq(log[..hi], x) == CountEq(log[..lo], x) + if x == e then hi - lo else 0
    ensures CountUpto(log[..hi], x) == CountUpto(log[..lo], x) + if e <= x then hi - lo else 0
    decreases hi
  {
    if lo < hi {
      CountRun(log, lo, hi - 1, e, x);
      assert log[..hi][..hi - 1] == log[..hi - 1];
    }
  }

  // Entries after lo are all above x.
  lemma {:induction false} CountRest(log: seq<int>, lo: nat, hi: nat, x: int)
    requires lo <= hi <= |log| && forall a :: lo <= a < hi ==> x < log[a]
    ensures CountUpto(log[..hi], x) == CountUpto(log[..lo], x)
    decreases hi
  {
    if lo < hi {
      CountRest(log, lo, hi - 1, x);
      assert log[..hi][..hi - 1] == log[..hi - 1];
    }
  }

  // Within one lap of the ring, epochs have slots of their own.
  lemma SlotsDistinct(lo: int, x: int, y: int)
    requires lo < x <= lo + LAG && lo < y <= lo + LAG && Slot(x) == Slot(y)
    ensures x == y
  {
  }

  // Epochs up to g have been harvested; the later ones of the lap wait in their slots.
  ghost predicate CoreRing(c: Core, sync: int, g: int)
    requires c.sched <= |c.ends| && |c.slots| == LAG && Counted(c) <= |c.log|
  {
    var counted := c.log[..Counted(c)];
    && sync <= g && c.persisted == CountUpto(counted, g)
    && (forall a :: 0 <= a < |counted| ==> counted[a] <= sync + LAG)
    && (forall x :: sync < x <= sync + LAG ==> c.slots[Slot(x)] == if x <= g then 0 else CountEq(counted, x))
  }

  lemma SameRing(c: Core, c': Core, sync: int, g: int)
    requires c.sched <= |c.ends| && |c.slots| == LAG && Counted(c) <= |c.log| && CoreRing(c, sync, g)
    requires c'.sched <= |c'.ends| && Counted(c') == Counted(c) && c.log <= c'.log && c'.slots == c.slots
    requires c'.persisted == c.persisted
    ensures CoreRing(c', sync, g)
  {
    assert c'.log[..Counted(c)] == c.log[..Counted(c)];
  }

  // All entries of the next buffer have its epoch.
  lemma {:induction false} BufferEpoch(c: Core, a: nat)
    requires Buffers(c) && OneEpoch(c) && c.sched < |c.ends| && Counted(c) <= a < c.ends[c.sched]
    ensures c.log[a] == NextEpoch(c)
    decreases c.ends[c.sched] - a
  {
    if a + 1 < c.ends[c.sched] {
      BufferEpoch(c, a + 1);
      assert a + 1 !in c.ends by {
        forall i | 0 <= i < |c.ends| ensures c.ends[i] != a + 1 {
          if i < c.sched { assert c.ends[i] <= Counted(c); }
        }
      }
    }
  }

  lemma ScheduleRing(c: Core, sense: bool, sync: int, g: int)
    requires Buffers(c) && OneEpoch(c) && c.sched < |c.ends| && |c.slots| == LAG && CoreRing(c, sync, g)
    requires g < NextEpoch(c) <= sync + LAG
    ensures CoreRing(Schedule(c, sense), sync, g)
  {
    var c' := Schedule(c, sense);
    var lo, hi, e := Counted(c), c.ends[c.sched], NextEpoch(c);
    assert Counted(c') == hi && c'.log == c.log;
    forall a | lo <= a < hi ensures c.log[a] == e { BufferEpoch(c, a); }
    CountRun(c.log, lo, hi, e, g);
    forall x | sync < x <= sync + LAG ensures c'.slots[Slot(x)] == if x <= g then 0 else CountEq(c.log[..hi], x) {
      CountRun(c.log, lo, hi, e, x);
      if Slot(x) == Slot(e) { SlotsDistinct(sync, x, e); }
    }
    forall a | 0 <= a < hi ensures c.log[..hi][a] <= sync + LAG {
      if a < lo { assert c.log[..lo][a] == c.log[a]; }
    }
  }

  // Harvesting epoch e moves its count, and nothing else, to the total.
  lemma HarvestRing(c: Core, sync: int, e: int)
    requires c.sched <= |c.ends| && |c.slots| == LAG && Counted(c) <= |c.log| && sync < e && CoreRing(c, sync, e - 1)
    ensures CoreRing(Harvest(c, e), sync, e)
  {
    var counted := c.log[..Counted(c)];
    var c' := Harvest(c, e);
    assert c'.log[..Counted(c')] == counted;
    CountStep(counted, e);
    var y := Lap(sync, e);
    if e > sync + LAG { CountNone(counted, sync + LAG, e); }
    forall x | sync < x <= sync + LAG ensures c'.slots[Slot(x)] == if x <= e then 0 else CountEq(counted, x) {
      if Slot(x) == Slot(e) { SlotsDistinct(sync, x, y); }
    }
  }

  // The epoch of the current lap that shares e's slot.
  function Lap(sync: int, e: int): (y: int)
    requires sync < e
    ensures sync < y <= sync + LAG && Slot(y) == Slot(e) && y <= e && (e <= sync + LAG ==> y == e)
    decreases e - sync
  {
    if e <= sync + LAG then e else Lap(sync, e - LAG)
  }

  // The lap moves on once everything up to g is harvested.
  lemma AdvanceRing(c: Core, sync: int, g: int)
    requires c.sched <= |c.ends| && |c.slots| == LAG && Counted(c) <= |c.log| && CoreRing(c, sync, g)
    ensures CoreRing(c, g, g)
  {
    var counted := c.log[..Counted(c)];
    forall x | g < x <= g + LAG ensures c.slots[Slot(x)] == CountEq(counted, x) {
      if x > sync + LAG {
        CountNone(counted, sync + LAG, x);
        var y := Lap(sync, x);
        if y > g { SlotsDistinct(g, x, y); }
      }
    }
  }

  // ---- whole states ----

  // How far core k has been harvested.
  function Harvested(s: State, k: nat): int {
    if s.pp.Agg? && s.min.Some? then
      if k < s.pp.k then s.min.value else if k == s.pp.k then s.pp.e - 1 else s.sync
    else s.sync
  }

  ghost predicate Counts(s: State) {
    forall k :: 0 <= k < |s.cores| ==>
      s.cores[k].sched <= |s.cores[k].ends| && |s.cores[k].slots| == LAG && Counted(s.cores[k]) <= |s.cores[k].log|
  }

  ghost predicate RingInv(s: State) {
    && Counts(s)
    && (forall k :: 0 <= k < |s.cores| ==> CoreRing(s.cores[k], s.sync, Harvested(s, k)))
    && (forall l :: 0 <= l < |s.writers| && s.writers[l].pc.Gather? ==> s.writers[l].pc.lim <= s.sync)
    && (s.pp.Agg? ==> s.min.Some? && s.sync < s.pp.e <= s.min.value + 1)
  }

  // Steps that leave counts and clock alone.
  lemma QuietRing(s: State, s': State)
    requires RingInv(s) && |s'.cores| == |s.cores| && s'.sync == s.sync && s'.pp == s.pp && s'.min == s.min
    requires forall l :: 0 <= l < |s'.writers| && s'.writers[l].pc.Gather? ==> s'.writers[l].pc.lim <= s.sync
    requires forall k :: 0 <= k < |s.cores| ==>
      s'.cores[k].sched <= |s'.cores[k].ends| && Counted(s'.cores[k]) == Counted(s.cores[k])
    requires forall k :: 0 <= k < |s.cores| ==>
      s.cores[k].log <= s'.cores[k].log && s'.cores[k].slots == s.cores[k].slots &&
        s'.cores[k].persisted == s.cores[k].persisted
    ensures RingInv(s')
  {
    forall k | 0 <= k < |s.cores| ensures CoreRing(s'.cores[k], s.sync, Harvested(s, k)) {
      SameRing(s.cores[k], s'.cores[k], s.sync, Harvested(s, k));
    }
  }

  lemma OneCoreRing(s: State, k: nat, c: Core)
    requires RingInv(s) && k < |s.cores| && c.sched <= |c.ends| && |c.slots| == LAG && Counted(c) <= |c.log|
    requires CoreRing(c, s.sync, Harvested(s, k))
    ensures RingInv(SetCore(s, k, c))
  {
    forall j | 0 <= j < |s.cores| && j != k ensures CoreRing(s.cores[j], s.sync, Harvested(s, j)) {}
  }

  lemma WorkerCore(c: Core, step: Step)
    requires Buffers(c) && |c.slots| == LAG
    ensures c.txn.Epoch? ==> Counted(Append(c)) == Counted(c) && c.log <= Append(c).log
    ensures Counted(c.(ends := c.ends + [|c.log|])) == Counted(c)
  {
  }

  lemma WorkerRing(s: State, step: Step)
    requires Inv(s) && RingInv(s) && Enabled(s, step) && WorkerStep(step)
    ensures RingInv(Apply(s, step))
  {
    var c, c' := s.cores[step.k], Apply(s, step).cores[step.k];
    assert Buffers(c) by { assert CoreInv(c, WriterOf(s, step.k), s.cur); }
    WorkerCore(c, step);
    SameRing(c, c', s.sync, Harvested(s, step.k));
    OneCoreRing(s, step.k, c');
  }

  lemma TickRing(s: State)
    requires RingInv(s)
    ensures RingInv(s.(cur := s.cur + 1))
  {
    QuietRing(s, s.(cur := s.cur + 1));
  }

  lemma PassCore(c: Core, sense: bool)
    requires Buffers(c)
    ensures c.lp.Loaded? ==> Counted(StoreEpoch(c, sense)) == Counted(c)
    ensures c.sched > 0 ==> Counted(Dequeue(c)) == Counted(c)
  {
  }

  lemma PassRing(s: State, step: Step)
    requires Inv(s) && RingInv(s) && Enabled(s, step) && (step.LLoad? || step.LStore? || step.LDeq?)
    ensures RingInv(Apply(s, step))
  {
    var c, c' := s.cores[step.k], Apply(s, step).cores[step.k];
    assert Buffers(c) by { assert CoreInv(c, WriterOf(s, step.k), s.cur); }
    PassCore(c, WriterOf(s, step.k).sense);
    SameRing(c, c', s.sync, Harvested(s, step.k));
    OneCoreRing(s, step.k, c');
  }

  lemma WriteRing(s: State, l: nat)
    requires Inv(s) && RingInv(s) && Enabled(s, LWrite(l))
    ensures RingInv(Apply(s, LWrite(l)))
  {
    var s' := Apply(s, LWrite(l));
    forall k | 0 <= k < |s.cores|
      ensures s'.cores[k].sched <= |s'.cores[k].ends| && Counted(s'.cores[k]) == Counted(s.cores[k])
    {
    }
    QuietRing(s, s');
  }

  lemma RoundRing(s: State, step: Step)
    requires RingInv(s) && Shape(s) && Enabled(s, step) && (step.LSync? || step.LNext?)
    ensures RingInv(Apply(s, step))
  {
    QuietRing(s, Apply(s, step));
  }

  // What a logger may schedule is later than anything harvested, within the lap.
  lemma SchedulesAhead(s: State, k: nat)
    requires Inv(s) && RingInv(s) && Enabled(s, LSched(k))
    ensures Harvested(s, k) < NextEpoch(s.cores[k]) <= s.sync + LAG
    ensures s.pp.Agg? ==> s.min.value < NextEpoch(s.cores[k])
  {
    var c := s.cores[k];
    assert CoreInv(c, WriterOf(s, k), s.cur);
    assert Durable(c, s.sync, s.cur) && (s.pp.Agg? ==> Durable(c, s.min.value, s.cur));
  }

  lemma SchedRing(s: State, k: nat)
    requires Inv(s) && RingInv(s) && Enabled(s, LSched(k))
    ensures RingInv(Apply(s, LSched(k)))
  {
    assert CoreInv(s.cores[k], WriterOf(s, k), s.cur);
    SchedulesAhead(s, k);
    ScheduleRing(s.cores[k], WriterOf(s, k).sense, s.sync, Harvested(s, k));
    OneCoreRing(s, k, Schedule(s.cores[k], WriterOf(s, k).sense));
  }

  lemma AggHarvest(s: State, k: nat, e: int)
    requires RingInv(s) && s.pp == Agg(k, e) && k < |s.cores| && e <= s.min.value
    ensures RingInv(SetCore(s, k, Harvest(s.cores[k], e)).(pp := Agg(k, e + 1)))
  {
    var s' := SetCore(s, k, Harvest(s.cores[k], e)).(pp := Agg(k, e + 1));
    HarvestRing(s.cores[k], s.sync, e);
    forall j | 0 <= j < |s.cores| && j != k ensures CoreRing(s'.cores[j], s.sync, Harvested(s', j)) {
      assert CoreRing(s.cores[j], s.sync, Harvested(s, j));
    }
  }

  lemma AggSkip(s: State, k: nat, e: int)
    requires RingInv(s) && s.pp == Agg(k, e) && k < |s.cores| && e > s.min.value && s.sync <= s.min.value
    ensures RingInv(s.(pp := Agg(k + 1, s.sync + 1)))
  {
    var s' := s.(pp := Agg(k + 1, s.sync + 1));
    forall j | 0 <= j < |s.cores| ensures CoreRing(s'.cores[j], s.sync, Harvested(s', j)) {
      assert CoreRing(s.cores[j], s.sync, Harvested(s, j));
    }
  }

  lemma AggRing(s: State)
    requires RingInv(s) && Shape(s) && Enabled(s, PAgg)
    ensures RingInv(Apply(s, PAgg))
  {
    if s.pp.e <= s.min.value { AggHarvest(s, s.pp.k, s.pp.e); } else { AggSkip(s, s.pp.k, s.pp.e); }
  }

  lemma FinishRing(s: State)
    requires Inv(s) && RingInv(s) && Enabled(s, PFinish)
    ensures RingInv(Apply(s, PFinish))
  {
    forall k | 0 <= k < |s.cores| ensures CoreRing(s.cores[k], s.min.value, s.min.value) {
      AdvanceRing(s.cores[k], s.sync, s.min.value);
    }
  }

  lemma PersisterRing(s: State, step: Step)
    requires Inv(s) && RingInv(s) && Enabled(s, step) && PersisterStep(step) && Asserted(s, step)
    ensures RingInv(Apply(s, step))
  {
    match step
    case PAgg => AggRing(s);
    case PFinish => FinishRing(s);
    case PStore => StoreRing(s);
    case PStart => MoveRing(s, Apply(s, step));
    case PLock => MoveRing(s, Apply(s, step));
    case PTail => MoveRing(s, Apply(s, step));
    case PNull => MoveRing(s, Apply(s, step));
    case PFull => MoveRing(s, Apply(s, step));
    case PLoad => MoveRing(s, Apply(s, step));
    case PEnd => EndRing(s);
  }

  lemma MoveRing(s: State, s': State)
    requires RingInv(s) && !s.pp.Agg? && !s'.pp.Agg? && s'.cores == s.cores && s'.sync == s.sync
    requires s'.writers == s.writers
    ensures RingInv(s')
  {
    forall k | 0 <= k < |s.cores|
      ensures CoreRing(s'.cores[k], s'.sync, Harvested(s', k))
    {
      assert CoreRing(s.cores[k], s.sync, Harvested(s, k));
    }
  }

  lemma StoreRing(s: State)
    requires Inv(s) && RingInv(s) && Enabled(s, PStore)
    ensures RingInv(Apply(s, PStore))
  {
    var c := s.cores[s.pp.k].(pub := s.best);
    SameRing(s.cores[s.pp.k], c, s.sync, Harvested(s, s.pp.k));
    OneCoreRing(s, s.pp.k, c);
    MoveRing(SetCore(s, s.pp.k, c), Apply(s, PStore));
  }

  lemma EndRing(s: State)
    requires Inv(s) && RingInv(s) && Enabled(s, PEnd) && Asserted(s, PEnd)
    ensures RingInv(Apply(s, PEnd))
  {
    var s' := Apply(s, PEnd);
    forall k | 0 <= k < |s.cores|
      ensures CoreRing(s'.cores[k], s'.sync, Harvested(s', k))
    {
      assert CoreRing(s.cores[k], s.sync, Harvested(s, k));
    }
  }

  lemma StepRing(s: State, step: Step)
    requires Inv(s) && RingInv(s) && Enabled(s, step) && Asserted(s, step)
    ensures RingInv(Apply(s, step))
  {
    if WorkerStep(step) { WorkerRing(s, step); }
    else if step.Tick? { TickRing(s); }
    else if step.LWrite? { WriteRing(s, step.l); }
    else if step.LSched? { SchedRing(s, step.k); }
    else if LoggerStep(step) { PassRing(s, step); }
    else if PersisterStep(step) { PersisterRing(s, step); }
    else { RoundRing(s, step); }
  }

  lemma InitialRing(s: State)
    requires Initial(s)
    ensures RingInv(s)
  {
    forall k | 0 <= k < |s.cores|
      ensures CoreRing(s.cores[k], s.sync, Harvested(s, k))
    {
      assert s.cores[k] == NewCore();
    }
  }

  lemma StepOfRunRing(ss: seq<State>, steps: seq<Step>, i: nat)
    requires AssertedRun(ss, steps) && i < |steps| && RingInv(ss[i])
    ensures RingInv(ss[i + 1])
  {
    RunInv(ss, steps, i);
    assert ss[i + 1] == Apply(ss[i], steps[i]);
    StepRing(ss[i], steps[i]);
  }

  lemma {:induction false} RunRing(ss: seq<State>, steps: seq<Step>, i: nat)
    requires AssertedRun(ss, steps) && i < |ss|
    ensures RingInv(ss[i])
    decreases i
  {
    if i == 0 {
      InitialRing(ss[0]);
    } else {
      RunRing(ss, steps, i - 1);
      StepOfRunRing(ss, steps, i - 1);
    }
  }

  // ---- theorems ----

  // Between rounds, the persisted count of a core is exactly the number of its
  // transactions with an epoch up to the system epoch.
  lemma CountedOnce(ss: seq<State>, steps: seq<Step>, i: nat, k: nat)
    requires AssertedRun(ss, steps) && i < |ss| && k < |ss[i].cores| && !ss[i].pp.Agg?
    ensures ss[i].cores[k].persisted == CountUpto(ss[i].cores[k].log, ss[i].sync)
  {
    RunInv(ss, steps, i);
    RunRing(ss, steps, i);
    RoundCount(ss[i], k);
  }

  // A scan that ends below the system epoch, against the assertion, harvests
  // nothing: the count then matches the epoch stored exactly if the core has
  // no transaction between the two.
  lemma LateRound(s: State, k: nat)
    requires Inv(s) && RingInv(s) && Enabled(s, PEnd) && s.min.value < s.sync && k < |s.cores|
    ensures s.cores[k].persisted == CountUpto(s.cores[k].log, s.min.value) <==>
      forall a :: 0 <= a < |s.cores[k].log| ==> !(s.min.value < s.cores[k].log[a] <= s.sync)
  {
    RoundCount(s, k);
    CountBetween(s.cores[k].log, s.min.value, s.sync);
  }

  lemma RoundCount(s: State, k: nat)
    requires Inv(s) && RingInv(s) && !s.pp.Agg? && k < |s.cores|
    ensures s.cores[k].persisted == CountUpto(s.cores[k].log, s.sync)
  {
    var c := s.cores[k];
    assert CoreInv(c, WriterOf(s, k), s.cur);
    assert Durable(c, s.sync, s.cur) && CoreRing(c, s.sync, Harvested(s, k));
    CountRest(c.log, Counted(c), |c.log|, s.sync);
    assert c.log[..|c.log|] == c.log;
  }

  lemma {:induction false} CountBetween(log: seq<int>, lo: int, hi: int)
    requires lo <= hi
    ensures CountUpto(log, lo) <= CountUpto(log, hi)
    ensures CountUpto(log, lo) == CountUpto(log, hi) <==> forall a :: 0 <= a < |log| ==> !(lo < log[a] <= hi)
  {
    if log != [] {
      var front := log[..|log| - 1];
      CountBetween(front, lo, hi);
      forall a | 0 <= a < |front| ensures front[a] == log[a] {}
      assert lo < log[|log| - 1] <= hi ==> CountUpto(log, lo) < CountUpto(log, hi);
    }
  }

  // The first epoch after sync that has n's slot.
  function FirstIn(sync: int, n: int): int { sync + 1 + (n - sync - 1) % LAG }

  // Some epoch still to be harvested shares the slot of the next buffer of core k.
  ghost predicate Shares(s: State, k: nat)
    requires Shape(s) && Enabled(s, LSched(k)) && s.min.Some?
  {
    exists e :: s.sync < e <= s.min.value && Slot(e) == Slot(NextEpoch(s.cores[k]))
  }

  lemma FirstSlot(sync: int, n: int)
    ensures sync < FirstIn(sync, n) <= sync + LAG && Slot(FirstIn(sync, n)) == Slot(n)
  {
    var d := n - sync - 1;
    assert n == FirstIn(sync, n) + LAG * (d / LAG);
    assert FirstIn(sync, n) == LAG * (FirstIn(sync, n) / LAG) + Slot(FirstIn(sync, n));
    ModUnique(n, LAG, FirstIn(sync, n) / LAG + d / LAG, Slot(FirstIn(sync, n)));
  }

  lemma {:induction false} FirstIsFirst(sync: int, n: int, e: int)
    requires sync < e && Slot(e) == Slot(n)
    ensures FirstIn(sync, n) <= e
  {
    FirstSlot(sync, n);
    if e < FirstIn(sync, n) { SlotsDistinct(sync, e, FirstIn(sync, n)); }
  }

  // A slot is shared exactly if the first epoch after the system epoch that has
  // the slot of the next buffer is among those to be harvested.
  lemma SharesExact(s: State, k: nat)
    requires Shape(s) && Enabled(s, LSched(k)) && s.min.Some?
    ensures Shares(s, k) <==> FirstIn(s.sync, NextEpoch(s.cores[k])) <= s.min.value
  {
    var n := NextEpoch(s.cores[k]);
    FirstSlot(s.sync, n);
    if e :| s.sync < e <= s.min.value && Slot(e) == Slot(n) { FirstIsFirst(s.sync, n, e); }
  }

  // A buffer within the current lap shares no slot, in any clean run: only a
  // logger that works with an old system epoch can reach further.
  lemma LapIsSafe(ss: seq<State>, steps: seq<Step>, i: nat, k: nat)
    requires CleanRun(ss, steps) && i < |ss| && Shape(ss[i]) && Enabled(ss[i], LSched(k))
    requires ss[i].pp.Agg? && ss[i].min.Some? && NextEpoch(ss[i].cores[k]) <= ss[i].sync + LAG
    ensures !Shares(ss[i], k)
  {
    RunInv(ss, steps, i);
    var s := ss[i];
    var n := NextEpoch(s.cores[k]);
    assert CoreInv(s.cores[k], WriterOf(s, k), s.cur) && Durable(s.cores[k], s.min.value, s.cur);
    forall e | s.sync < e <= s.min.value ensures Slot(e) != Slot(n) {
      if Slot(e) == Slot(n) { SlotsDistinct(s.sync, e, n); }
    }
  }

  // Where the persister's assertion has held, what may be scheduled is within
  // the lap, so a logger and the persister never touch the same slot of a core.
  lemma NoSlotShared(ss: seq<State>, steps: seq<Step>, i: nat, k: nat)
    requires AssertedRun(ss, steps) && i < |ss| && Shape(ss[i]) && Enabled(ss[i], LSched(k))
    requires ss[i].pp.Agg? && ss[i].min.Some?
    ensures !Shares(ss[i], k)
  {
    RunInv(ss, steps, i);
    RunRing(ss, steps, i);
    SchedulesAhead(ss[i], k);
    LapIsSafe(ss, steps, i, k);
  }
}
