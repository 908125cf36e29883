// The epoch log: workers fill single-epoch buffers, loggers write them and
// publish a durable epoch per core, the persister takes the minimum.

module Logger {
  import opened Basics

  const LAG := 128     // slots of the statistics ring

  datatype Txn = NoTxn | Running | Epoch(e: int)

  // A logger's progress on one core within a round.
  datatype Lp = Unpublished | Loaded(x0: int) | Stored

  // log[..base] has left the queue; buffer i of the queue ends at ends[i];
  // the rest of log is in the buffer being filled.  The first `sched` buffers
  // are scheduled for writing, log[..durable] has been written.
  datatype Core = Core(
    log: seq<int>, base: nat, ends: seq<nat>, sched: nat, durable: nat,
    txn: Txn, even: int, odd: int, pub: int, lp: Lp,
    slots: seq<int>, persisted: int)

  datatype Lpc = Idle | Gather(lim: int) | Publish
  datatype Writer = Writer(pc: Lpc, sense: bool)

  // Peeked: the persister has loaded the tail of core k's queue when log[..at]
  // had left it.  The slot there is empty if there is no buffer, or if the one
  // there has been dequeued since; after that it may also be still full, or full
  // again.  A buffer enters the queue with the store of its slot and leaves it
  // with the store of the tail.
  datatype Ppc = Rest | Scan(k: nat) | Locked(k: nat) | Peeked(k: nat, at: nat) | Bypass(k: nat) | Agg(k: nat, e: int)

  // own[k] is the logger of core k.
  datatype State = State(
    cur: int, sync: int, own: seq<nat>, cores: seq<Core>, writers: seq<Writer>,
    pp: Ppc, best: int, min: Option<int>)

  datatype Step =
    | Tick
    | StartTxn(k: nat) | TakeEpoch(k: nat) | Log(k: nat) | Push(k: nat) | EndTxn(k: nat)
    | LSync(l: nat) | LSched(k: nat) | LWrite(l: nat) | LLoad(k: nat) | LStore(k: nat) | LDeq(k: nat) | LNext(l: nat)
    | PStart | PLock | PTail | PNull | PFull | PStore | PLoad | PEnd | PAgg | PFinish

  // ---- one core ----

  function EndOf(c: Core): nat { if c.ends == [] then c.base else c.ends[|c.ends| - 1] }

  function Counted(c: Core): nat
    requires c.sched <= |c.ends|
  {
    if c.sched == 0 then c.base else c.ends[c.sched - 1]
  }

  function Prefix(c: Core, sense: bool): int { if sense then c.odd else c.even }

  function SetPrefix(c: Core, sense: bool, v: int): Core { if sense then c.(odd := v) else c.(even := v) }

  predicate HeadEmpty(c: Core) { EndOf(c) == |c.log| }

  // The epoch of the next buffer to schedule.
  function NextEpoch(c: Core): int
    requires c.sched < |c.ends| && 0 < c.ends[c.sched] <= |c.log|
  {
    c.log[c.ends[c.sched] - 1]
  }

  predicate Shape(s: State) {
    && |s.own| == |s.cores| && (forall k :: 0 <= k < |s.own| ==> s.own[k] < |s.writers|)
    && (forall k :: 0 <= k < |s.cores| ==> |s.cores[k].slots| == LAG && s.cores[k].sched <= |s.cores[k].ends|)
    && (forall k :: 0 <= k < |s.cores| ==>
          forall i :: 0 <= i < |s.cores[k].ends| ==> 0 < s.cores[k].ends[i] <= |s.cores[k].log|)
  }

  function WriterOf(s: State, k: nat): Writer
    requires Shape(s) && k < |s.cores|
  {
    s.writers[s.own[k]]
  }

  predicate HeldByPersister(s: State, k: nat) { (s.pp.Locked? || s.pp.Peeked? || s.pp.Bypass?) && s.pp.k == k }

  predicate Enabled(s: State, step: Step)
    requires Shape(s)
  {
    match step
    case Tick => true
    case StartTxn(k) => k < |s.cores| && s.cores[k].txn.NoTxn? && !HeldByPersister(s, k)
    case TakeEpoch(k) => k < |s.cores| && s.cores[k].txn.Running?
    case Log(k) =>
      && k < |s.cores| && s.cores[k].txn.Epoch?
      && (HeadEmpty(s.cores[k]) || (s.cores[k].log != [] && s.cores[k].log[|s.cores[k].log| - 1] == s.cores[k].txn.e))
    case Push(k) => k < |s.cores| && !HeadEmpty(s.cores[k]) && s.cores[k].log != [] && !s.cores[k].txn.Running?
    case EndTxn(k) => k < |s.cores| && !s.cores[k].txn.NoTxn?
    case LSync(l) => l < |s.writers| && s.writers[l].pc.Idle?
    case LSched(k) =>
      && k < |s.cores| && WriterOf(s, k).pc.Gather? && s.cores[k].sched < |s.cores[k].ends|
      && NextEpoch(s.cores[k]) < WriterOf(s, k).pc.lim + 1 + LAG
    case LWrite(l) =>
      && l < |s.writers| && s.writers[l].pc.Gather?
      && (exists k :: 0 <= k < |s.cores| && s.own[k] == l && s.cores[k].sched > 0)
    case LLoad(k) => k < |s.cores| && WriterOf(s, k).pc.Publish? && s.cores[k].lp.Unpublished?
    case LStore(k) => k < |s.cores| && WriterOf(s, k).pc.Publish? && s.cores[k].lp.Loaded?
    case LDeq(k) => k < |s.cores| && WriterOf(s, k).pc.Publish? && s.cores[k].lp.Stored? && s.cores[k].sched > 0
    case LNext(l) =>
      && l < |s.writers| && s.writers[l].pc.Publish?
      && (forall k :: 0 <= k < |s.cores| && s.own[k] == l ==> s.cores[k].lp.Stored? && s.cores[k].sched == 0)
    case PStart => s.pp.Rest? && 0 < |s.cores|
    case PLock => s.pp.Scan? && s.pp.k < |s.cores| && s.cores[s.pp.k].txn.NoTxn?
    case PTail => s.pp.Locked? && s.pp.k < |s.cores|
    case PNull => s.pp.Peeked? && s.pp.k < |s.cores| && (s.cores[s.pp.k].ends == [] || s.cores[s.pp.k].base != s.pp.at)
    case PFull => s.pp.Peeked? && s.pp.k < |s.cores| && (s.cores[s.pp.k].ends != [] || s.cores[s.pp.k].base != s.pp.at)
    case PStore => s.pp.Bypass? && s.pp.k < |s.cores|
    case PLoad => s.pp.Scan? && s.pp.k < |s.cores|
    case PEnd => s.pp == Scan(|s.cores|) && s.min.Some?
    case PAgg => s.pp.Agg? && s.pp.k < |s.cores| && s.min.Some?
    case PFinish => s.pp.Agg? && s.pp.k == |s.cores| && s.min.Some?
  }

  function SetCore(s: State, k: nat, c: Core): State
    requires k < |s.cores|
  {
    s.(cores := s.cores[k := c])
  }

  function MinWith(m: Option<int>, v: int): Option<int> { if m.Some? && m.value <= v then m else Some(v) }

  // The slot of epoch e.
  function Slot(e: int): nat { e % LAG }

  function Schedule(c: Core, sense: bool): Core
    requires c.sched < |c.ends| && 0 < c.ends[c.sched] <= |c.log| && |c.slots| == LAG
  {
    var e := NextEpoch(c);
    var n := c.ends[c.sched] - Counted(c);
    SetPrefix(c, sense, e - 1).(sched := c.sched + 1, slots := c.slots[Slot(e) := c.slots[Slot(e)] + n])
  }

  function Written(c: Core): Core
    requires c.sched <= |c.ends|
  {
    c.(durable := Counted(c), lp := Unpublished)
  }

  // Publish the round's epoch if it is above the one loaded before.
  function StoreEpoch(c: Core, sense: bool): Core
    requires c.lp.Loaded?
  {
    c.(lp := Stored, pub := if Prefix(c, sense) > c.lp.x0 then Prefix(c, sense) else c.pub)
  }

  // Return the oldest written buffer to the worker.
  function Dequeue(c: Core): Core
    requires 0 < c.sched <= |c.ends|
  {
    c.(base := c.ends[0], ends := c.ends[1..], sched := c.sched - 1)
  }

  function Append(c: Core): Core
    requires c.txn.Epoch?
  {
    c.(log := c.log + [c.txn.e], txn := Running)
  }

  function Harvest(c: Core, e: int): Core
    requires |c.slots| == LAG
  {
    c.(persisted := c.persisted + c.slots[Slot(e)], slots := c.slots[Slot(e) := 0])
  }

  // Persist epoch e of core k, or go on to the next core.
  function Aggregate(s: State): State
    requires Shape(s) && Enabled(s, PAgg)
  {
    var k, e := s.pp.k, s.pp.e;
    if e <= s.min.value then SetCore(s, k, Harvest(s.cores[k], e)).(pp := Agg(k, e + 1))
    else s.(pp := Agg(k + 1, s.sync + 1))
  }

  function Apply(s: State, step: Step): State
    requires Shape(s) && Enabled(s, step)
  {
    match step
    case Tick => s.(cur := s.cur + 1)
    case StartTxn(k) => SetCore(s, k, s.cores[k].(txn := Running))
    case TakeEpoch(k) => SetCore(s, k, s.cores[k].(txn := Epoch(s.cur)))
    case Log(k) => SetCore(s, k, Append(s.cores[k]))
    case Push(k) => SetCore(s, k, s.cores[k].(ends := s.cores[k].ends + [|s.cores[k].log|]))
    case EndTxn(k) => SetCore(s, k, s.cores[k].(txn := NoTxn))
    case LSync(l) => s.(writers := s.writers[l := s.writers[l].(pc := Gather(s.sync))])
    case LSched(k) => SetCore(s, k, Schedule(s.cores[k], WriterOf(s, k).sense))
    case LWrite(l) =>
      s.(writers := s.writers[l := s.writers[l].(pc := Publish)],
         cores := seq(|s.cores|,
           k requires 0 <= k < |s.cores| => if s.own[k] == l then Written(s.cores[k]) else s.cores[k]))
    case LLoad(k) => SetCore(s, k, s.cores[k].(lp := Loaded(s.cores[k].pub)))
    case LStore(k) => SetCore(s, k, StoreEpoch(s.cores[k], WriterOf(s, k).sense))
    case LDeq(k) => SetCore(s, k, Dequeue(s.cores[k]))
    case LNext(l) => s.(writers := s.writers[l := Writer(Idle, !s.writers[l].sense)])
    case PStart => s.(pp := Scan(0), best := if s.cur > 0 then s.cur - 1 else 0, min := None)
    case PLock => s.(pp := Locked(s.pp.k))
    case PTail => s.(pp := Peeked(s.pp.k, s.cores[s.pp.k].base))
    case PNull => s.(pp := Bypass(s.pp.k))
    case PFull => s.(pp := Scan(s.pp.k))
    case PStore =>
      SetCore(s, s.pp.k, s.cores[s.pp.k].(pub := s.best)).(min := MinWith(s.min, s.best), pp := Scan(s.pp.k + 1))
    case PLoad => s.(min := MinWith(s.min, s.cores[s.pp.k].pub), pp := Scan(s.pp.k + 1))
    case PEnd => s.(pp := Agg(0, s.sync + 1))
    case PAgg => Aggregate(s)
    case PFinish => s.(sync := s.min.value, pp := Rest)
  }

  function NewCore(): Core { Core([], 0, [], 0, 0, NoTxn, 0, 0, 0, Stored, seq(LAG, _ => 0), 0) }

  predicate Initial(s: State) {
    && s.cur == 1 && s.sync == 0 && |s.own| == |s.cores| && (forall k :: 0 <= k < |s.own| ==> s.own[k] < |s.writers|)
    && (forall k :: 0 <= k < |s.cores| ==> s.cores[k] == NewCore())
    && (forall l :: 0 <= l < |s.writers| ==> s.writers[l] == Writer(Idle, false))
    && s.pp == Rest && s.best == 0 && s.min == None
  }

  ghost predicate Run(ss: seq<State>, steps: seq<Step>) {
    && |ss| == |steps| + 1 && Initial(ss[0])
    && forall i {:trigger steps[i]} :: 0 <= i < |steps| ==>
      Shape(ss[i]) && Enabled(ss[i], steps[i]) && ss[i + 1] == Apply(ss[i], steps[i])
  }

  // The first buffer in the queue that has not been written, if there is one.
  function FirstUnwritten(c: Core, w: Writer): nat { if w.pc.Publish? then c.sched else 0 }

  // A core is clean if its oldest buffer that has not been written, in the
  // queue or being filled, is of an epoch after the one it is advanced to.
  predicate Clean(c: Core, w: Writer, best: int)
    requires forall i :: 0 <= i < |c.ends| ==> 0 < c.ends[i] <= |c.log|
  {
    var i := FirstUnwritten(c, w);
    if i < |c.ends| then c.log[c.ends[i] - 1] > best
    else HeadEmpty(c) || (c.log != [] && c.log[|c.log| - 1] > best)
  }

  predicate CleanStep(s: State, step: Step)
    requires Shape(s) && Enabled(s, step)
  {
    step.PStore? ==> Clean(s.cores[s.pp.k], WriterOf(s, s.pp.k), s.best)
  }

  // ---- the invariant ----

  // Buffers follow each other and are not empty.
  ghost predicate Buffers(c: Core) {
    && c.base <= |c.log| && c.sched <= |c.ends|
    && (forall i :: 0 <= i < |c.ends| ==> c.base < c.ends[i] <= |c.log|)
    && (forall i, j :: 0 <= i < j < |c.ends| ==> c.ends[i] < c.ends[j])
  }

  // The epoch changes only between buffers.
  ghost predicate OneEpoch(c: Core) {
    forall a :: c.base < a < |c.log| && c.log[a - 1] != c.log[a] ==> a in c.ends
  }

  // A core's epochs never decrease and are not in the future.
  ghost predicate Times(c: Core, cur: int) {
    && (forall a, b :: 0 <= a < b < |c.log| ==> c.log[a] <= c.log[b])
    && (forall a :: 0 <= a < |c.log| ==> 0 < c.log[a] <= cur && (c.txn.Epoch? ==> c.log[a] <= c.txn.e))
    && (c.txn.Epoch? ==> 0 < c.txn.e <= cur)
  }

  ghost predicate Progress(c: Core, pc: Lpc)
    requires c.sched <= |c.ends|
  {
    && (pc.Idle? ==> c.sched == 0)
    && (if pc.Publish? then c.durable == Counted(c) else c.durable == c.base)
  }

  // Everything logged from idx on, and everything still to come, is after v.
  ghost predicate Above(c: Core, idx: nat, v: int, cur: int) {
    && (forall a :: idx <= a < |c.log| ==> v < c.log[a])
    && (c.txn.Epoch? ==> v < c.txn.e)
    && v < cur
  }

  // Every transaction of the core up to epoch v has been written out.
  ghost predicate Durable(c: Core, v: int, cur: int) { Above(c, c.durable, v, cur) }

  ghost predicate PrefixInv(c: Core, sense: bool, cur: int)
    requires c.sched <= |c.ends|
  {
    && Above(c, Counted(c), Prefix(c, sense), cur) && Durable(c, Prefix(c, !sense), cur)
    && Durable(c, c.pub, cur)
  }

  ghost predicate CoreInv(c: Core, w: Writer, cur: int) {
    Buffers(c) && OneEpoch(c) && Times(c, cur) && Progress(c, w.pc) && PrefixInv(c, w.sense, cur)
  }

  // Cores below k have been scanned.
  ghost predicate ScanInv(s: State, k: nat) {
    && 0 < |s.cores| && k <= |s.cores| && s.best < s.cur && (k > 0 ==> s.min.Some?)
    && forall j :: 0 <= j < k && s.min.Some? ==> Durable(s.cores[j], s.min.value, s.cur)
  }

  ghost predicate PersisterInv(s: State) {
    match s.pp
    case Rest => true
    case Scan(k) => ScanInv(s, k)
    case Locked(k) => k < |s.cores| && ScanInv(s, k) && s.cores[k].txn.NoTxn?
    case Peeked(k, _) => k < |s.cores| && ScanInv(s, k) && s.cores[k].txn.NoTxn?
    case Bypass(k) => k < |s.cores| && ScanInv(s, k) && s.cores[k].txn.NoTxn?
    case Agg(k, e) => 0 < |s.cores| && k <= |s.cores| && ScanInv(s, |s.cores|)
  }

  ghost predicate Inv(s: State) {
    && Shape(s) && 0 < s.cur
    && (forall k :: 0 <= k < |s.cores| ==> CoreInv(s.cores[k], WriterOf(s, k), s.cur))
    && (forall k :: 0 <= k < |s.cores| ==> Durable(s.cores[k], s.sync, s.cur))
    && PersisterInv(s)
  }

  // ---- one core's steps ----

  // Nothing durable is ever undone.
  ghost predicate Stable(c: Core, cur: int, c': Core, cur': int) {
    forall v :: Durable(c, v, cur) ==> Durable(c', v, cur')
  }

  lemma LogStable(c: Core, cur: int)
    requires c.txn.Epoch?
    ensures Stable(c, cur, Append(c), cur)
  {
  }

  lemma LogOrder(c: Core, cur: int)
    requires Times(c, cur) && Buffers(c) && OneEpoch(c) && c.txn.Epoch?
    requires HeadEmpty(c) || c.log[|c.log| - 1] == c.txn.e
    ensures Times(Append(c), cur) && Buffers(Append(c)) && OneEpoch(Append(c))
  {
    assert HeadEmpty(c) && c.ends != [] ==> |c.log| in c.ends;
  }

  lemma LogKeeps(c: Core, w: Writer, cur: int)
    requires CoreInv(c, w, cur) && c.txn.Epoch? && (HeadEmpty(c) || c.log[|c.log| - 1] == c.txn.e)
    ensures CoreInv(Append(c), w, cur) && Stable(c, cur, Append(c), cur)
  {
    LogOrder(c, cur);
    LogStable(c, cur);
    assert Counted(Append(c)) == Counted(c);
  }

  lemma PushKeeps(c: Core, w: Writer, cur: int)
    requires CoreInv(c, w, cur) && !HeadEmpty(c)
    ensures CoreInv(c.(ends := c.ends + [|c.log|]), w, cur)
  {
    var c' := c.(ends := c.ends + [|c.log|]);
    assert Counted(c') == Counted(c);
    assert Buffers(c');
    assert OneEpoch(c');
  }

  lemma ScheduleKeeps(c: Core, w: Writer, cur: int)
    requires CoreInv(c, w, cur) && w.pc.Gather? && c.sched < |c.ends| && |c.slots| == LAG
    ensures CoreInv(Schedule(c, w.sense), w, cur) && Stable(c, cur, Schedule(c, w.sense), cur)
  {
    var c' := Schedule(c, w.sense);
    assert Counted(c') == c.ends[c.sched];
    assert Above(c', Counted(c'), NextEpoch(c) - 1, cur);
  }

  lemma DeqKeeps(c: Core, w: Writer, cur: int)
    requires CoreInv(c, w, cur) && w.pc.Publish? && c.sched > 0
    ensures CoreInv(Dequeue(c), w, cur) && Stable(c, cur, Dequeue(c), cur)
  {
    var c' := Dequeue(c);
    assert Counted(c') == Counted(c);
    assert Buffers(c');
    forall a | c'.base < a < |c.log| && c.log[a - 1] != c.log[a] ensures a in c'.ends {
      var i :| 0 <= i < |c.ends| && c.ends[i] == a;
      assert c'.ends[i - 1] == a;
    }
  }

  // ---- whole states ----

  // A step of core k alone.
  lemma CoreStep(s: State, k: nat, c: Core)
    requires Inv(s) && k < |s.cores| && CoreInv(c, WriterOf(s, k), s.cur) && Stable(s.cores[k], s.cur, c, s.cur)
    requires |c.slots| == LAG && (HeldByPersister(s, k) ==> c.txn.NoTxn?)
    ensures Inv(SetCore(s, k, c))
  {
    var s' := SetCore(s, k, c);
    forall j | 0 <= j < |s.cores| ensures CoreInv(s'.cores[j], WriterOf(s', j), s.cur) {}
    forall j, v | 0 <= j < |s.cores| && Durable(s.cores[j], v, s.cur) ensures Durable(s'.cores[j], v, s.cur) {}
  }

  lemma TxnKeeps(c: Core, w: Writer, cur: int, t: Txn)
    requires CoreInv(c, w, cur) && 0 < cur && (t == NoTxn || t == Running || t == Epoch(cur))
    ensures CoreInv(c.(txn := t), w, cur) && Stable(c, cur, c.(txn := t), cur)
  {
    var c' := c.(txn := t);
    assert Counted(c') == Counted(c);
  }

  lemma LoadKeeps(c: Core, w: Writer, cur: int, lp: Lp)
    requires CoreInv(c, w, cur)
    ensures CoreInv(c.(lp := lp), w, cur) && Stable(c, cur, c.(lp := lp), cur)
  {
    assert Counted(c.(lp := lp)) == Counted(c);
  }

  lemma PubKeeps(c: Core, w: Writer, cur: int, v: int)
    requires CoreInv(c, w, cur) && Durable(c, v, cur)
    ensures CoreInv(c.(pub := v), w, cur) && Stable(c, cur, c.(pub := v), cur)
  {
    assert Counted(c.(pub := v)) == Counted(c);
  }

  lemma StoreKeeps(c: Core, w: Writer, cur: int)
    requires CoreInv(c, w, cur) && w.pc.Publish? && c.lp.Loaded?
    ensures CoreInv(StoreEpoch(c, w.sense), w, cur) && Stable(c, cur, StoreEpoch(c, w.sense), cur)
  {
    var v := if Prefix(c, w.sense) > c.lp.x0 then Prefix(c, w.sense) else c.pub;
    PubKeeps(c, w, cur, v);
    LoadKeeps(c.(pub := v), w, cur, Stored);
  }

  predicate WorkerStep(step: Step) { step.StartTxn? || step.TakeEpoch? || step.Log? || step.Push? || step.EndTxn? }

  lemma TxnStepKeeps(s: State, k: nat, t: Txn)
    requires Inv(s) && k < |s.cores| && (t == NoTxn || t == Running || t == Epoch(s.cur))
    requires HeldByPersister(s, k) ==> t == NoTxn
    ensures Inv(SetCore(s, k, s.cores[k].(txn := t)))
  {
    assert CoreInv(s.cores[k], WriterOf(s, k), s.cur);
    TxnKeeps(s.cores[k], WriterOf(s, k), s.cur, t);
    CoreStep(s, k, s.cores[k].(txn := t));
  }

  lemma LogStepKeeps(s: State, k: nat)
    requires Inv(s) && Enabled(s, Log(k))
    ensures Inv(SetCore(s, k, Append(s.cores[k])))
  {
    assert CoreInv(s.cores[k], WriterOf(s, k), s.cur);
    LogKeeps(s.cores[k], WriterOf(s, k), s.cur);
    CoreStep(s, k, Append(s.cores[k]));
  }

  lemma PushStepKeeps(s: State, k: nat)
    requires Inv(s) && Enabled(s, Push(k))
    ensures Inv(Apply(s, Push(k)))
  {
    assert CoreInv(s.cores[k], WriterOf(s, k), s.cur);
    PushKeeps(s.cores[k], WriterOf(s, k), s.cur);
    CoreStep(s, k, s.cores[k].(ends := s.cores[k].ends + [|s.cores[k].log|]));
  }

  lemma WorkerKeeps(s: State, step: Step)
    requires Inv(s) && Enabled(s, step) && WorkerStep(step)
    ensures Inv(Apply(s, step))
  {
    match step
    case StartTxn(k) => TxnStepKeeps(s, k, Running);
    case TakeEpoch(k) => TxnStepKeeps(s, k, Epoch(s.cur));
    case Log(k) => LogStepKeeps(s, k);
    case Push(k) => PushStepKeeps(s, k);
    case EndTxn(k) => TxnStepKeeps(s, k, NoTxn);
  }

  predicate LoggerStep(step: Step) { step.LSched? || step.LLoad? || step.LStore? || step.LDeq? }

  lemma LoggerKeeps(s: State, step: Step)
    requires Inv(s) && Enabled(s, step) && LoggerStep(step)
    ensures Inv(Apply(s, step))
  {
    var c, w := s.cores[step.k], WriterOf(s, step.k);
    assert CoreInv(c, w, s.cur);
    match step
    case LSched(k) => ScheduleKeeps(c, w, s.cur); CoreStep(s, k, Schedule(c, w.sense));
    case LLoad(k) => LoadKeeps(c, w, s.cur, Loaded(c.pub)); CoreStep(s, k, c.(lp := Loaded(c.pub)));
    case LStore(k) => StoreKeeps(c, w, s.cur); CoreStep(s, k, StoreEpoch(c, w.sense));
    case LDeq(k) => DeqKeeps(c, w, s.cur); CoreStep(s, k, Dequeue(c));
  }

  lemma WrittenKeeps(c: Core, w: Writer, cur: int)
    requires CoreInv(c, w, cur) && w.pc.Gather?
    ensures CoreInv(Written(c), w.(pc := Publish), cur) && Stable(c, cur, Written(c), cur)
  {
    assert Counted(Written(c)) == Counted(c);
  }

  // Many cores at once, none of them held by the persister in a new way.
  lemma CoresStep(s: State, s': State)
    requires Inv(s) && Shape(s') && |s'.cores| == |s.cores| && s' == s.(cores := s'.cores, writers := s'.writers)
    requires forall k :: 0 <= k < |s.cores| ==>
      CoreInv(s'.cores[k], WriterOf(s', k), s.cur) && Stable(s.cores[k], s.cur, s'.cores[k], s.cur)
    requires forall k :: 0 <= k < |s.cores| ==> s'.cores[k].txn == s.cores[k].txn
    ensures Inv(s')
  {
    forall j, v | 0 <= j < |s.cores| && Durable(s.cores[j], v, s.cur) ensures Durable(s'.cores[j], v, s.cur) {}
  }

  lemma WriteKeeps(s: State, l: nat)
    requires Inv(s) && Enabled(s, LWrite(l))
    ensures Inv(Apply(s, LWrite(l)))
  {
    var s' := Apply(s, LWrite(l));
    forall k | 0 <= k < |s.cores|
      ensures CoreInv(s'.cores[k], WriterOf(s', k), s.cur) && Stable(s.cores[k], s.cur, s'.cores[k], s.cur)
    {
      assert CoreInv(s.cores[k], WriterOf(s, k), s.cur);
      if s.own[k] == l { WrittenKeeps(s.cores[k], WriterOf(s, k), s.cur); }
    }
    CoresStep(s, s');
  }

  lemma RoundKeeps(s: State, step: Step)
    requires Inv(s) && Enabled(s, step) && (step.LSync? || step.LNext?)
    ensures Inv(Apply(s, step))
  {
    var s' := Apply(s, step);
    forall k | 0 <= k < |s.cores| ensures CoreInv(s'.cores[k], WriterOf(s', k), s.cur) {
      assert CoreInv(s.cores[k], WriterOf(s, k), s.cur);
    }
  }

  lemma TickKeeps(s: State)
    requires Inv(s)
    ensures Inv(s.(cur := s.cur + 1))
  {
    var s' := s.(cur := s.cur + 1);
    forall k | 0 <= k < |s.cores| ensures CoreInv(s'.cores[k], WriterOf(s', k), s'.cur) {
      assert CoreInv(s.cores[k], WriterOf(s, k), s.cur);
    }
  }

  // The buffer being filled holds a single epoch.
  lemma {:induction false} HeadEpoch(c: Core, a: nat)
    requires Buffers(c) && OneEpoch(c) && EndOf(c) <= a < |c.log|
    ensures c.log[a] == c.log[|c.log| - 1]
    decreases |c.log| - a
  {
    if a + 1 < |c.log| {
      HeadEpoch(c, a + 1);
      assert a + 1 !in c.ends by { forall i | 0 <= i < |c.ends| ensures c.ends[i] <= EndOf(c) {} }
    }
  }

  // Between two ends of buffers there is a single epoch.
  lemma {:induction false} RunEpoch(c: Core, a: nat, hi: nat)
    requires OneEpoch(c) && c.base <= a < hi <= |c.log| && forall i :: 0 <= i < |c.ends| ==> !(a < c.ends[i] < hi)
    ensures c.log[a] == c.log[hi - 1]
    decreases hi - a
  {
    if a + 1 < hi {
      assert a + 1 !in c.ends;
      RunEpoch(c, a + 1, hi);
    }
  }

  // The first transaction that is not written yet is in the oldest buffer not written.
  lemma UnwrittenEpoch(c: Core, w: Writer)
    requires Buffers(c) && OneEpoch(c) && Progress(c, w.pc)
    ensures var i := FirstUnwritten(c, w);
      if i < |c.ends| then c.durable < c.ends[i] && c.log[c.durable] == c.log[c.ends[i] - 1]
      else c.durable == EndOf(c)
  {
    var i := FirstUnwritten(c, w);
    if i < |c.ends| {
      forall j | 0 <= j < |c.ends| ensures !(c.durable < c.ends[j] < c.ends[i]) {
        if j < i { assert c.ends[j] <= c.durable; }
      }
      RunEpoch(c, c.durable, c.ends[i]);
    }
  }

  // Advancing an idle core is durable exactly if the core is clean.
  lemma BypassExact(c: Core, w: Writer, best: int, cur: int)
    requires CoreInv(c, w, cur) && c.txn.NoTxn? && best < cur
    ensures Durable(c, best, cur) <==> Clean(c, w, best)
  {
    UnwrittenEpoch(c, w);
    if c.durable < |c.log| && EndOf(c) <= c.durable { HeadEpoch(c, c.durable); }
  }

  // Taking the minimum keeps what was scanned, and adds core k.
  lemma MinKeeps(s: State, k: nat, v: int)
    requires Shape(s) && ScanInv(s, k) && k < |s.cores| && Durable(s.cores[k], v, s.cur)
    ensures ScanInv(s.(min := MinWith(s.min, v)), k + 1)
  {
  }

  lemma LoadMinKeeps(s: State)
    requires Inv(s) && Enabled(s, PLoad)
    ensures Inv(Apply(s, PLoad))
  {
    assert CoreInv(s.cores[s.pp.k], WriterOf(s, s.pp.k), s.cur);
    MinKeeps(s, s.pp.k, s.cores[s.pp.k].pub);
  }

  // A scanned core, and the minimum that goes with it.
  lemma ScanMove(s: State, k: nat, m: Option<int>)
    requires Inv(s) && ScanInv(s.(min := m), k)
    ensures Inv(s.(min := m, pp := Scan(k)))
  {
  }

  lemma StoreMinKeeps(s: State)
    requires Inv(s) && Enabled(s, PStore) && CleanStep(s, PStore)
    ensures Inv(Apply(s, PStore))
  {
    var k := s.pp.k;
    var s1 := SetCore(s, k, s.cores[k].(pub := s.best));
    assert CoreInv(s.cores[k], WriterOf(s, k), s.cur);
    BypassExact(s.cores[k], WriterOf(s, k), s.best, s.cur);
    PubKeeps(s.cores[k], WriterOf(s, k), s.cur, s.best);
    CoreStep(s, k, s.cores[k].(pub := s.best));
    MinKeeps(s1, k, s.best);
    ScanMove(s1, k + 1, MinWith(s.min, s.best));
  }

  lemma StatsKeep(c: Core, c': Core, w: Writer, cur: int)
    requires CoreInv(c, w, cur) && c' == c.(persisted := c'.persisted, slots := c'.slots)
    ensures CoreInv(c', w, cur) && Stable(c, cur, c', cur)
  {
    assert Counted(c') == Counted(c);
  }

  lemma AggMove(s: State, k: nat, e: int)
    requires Inv(s) && s.pp.Agg? && k <= |s.cores|
    ensures Inv(s.(pp := Agg(k, e)))
  {
  }

  lemma HarvestKeeps(s: State, k: nat, e: int)
    requires Inv(s) && k < |s.cores| && !HeldByPersister(s, k)
    ensures Inv(SetCore(s, k, Harvest(s.cores[k], e)))
  {
    assert CoreInv(s.cores[k], WriterOf(s, k), s.cur);
    StatsKeep(s.cores[k], Harvest(s.cores[k], e), WriterOf(s, k), s.cur);
    CoreStep(s, k, Harvest(s.cores[k], e));
  }

  lemma AggKeeps(s: State)
    requires Inv(s) && Enabled(s, PAgg)
    ensures Inv(Apply(s, PAgg))
  {
    var k, e := s.pp.k, s.pp.e;
    if e <= s.min.value {
      HarvestKeeps(s, k, e);
      AggMove(SetCore(s, k, Harvest(s.cores[k], e)), k, e + 1);
    } else {
      AggMove(s, k + 1, s.sync + 1);
    }
  }

  lemma StartKeeps(s: State)
    requires Inv(s) && Enabled(s, PStart)
    ensures Inv(Apply(s, PStart))
  {
  }

  lemma FinishKeeps(s: State)
    requires Inv(s) && Enabled(s, PFinish)
    ensures Inv(Apply(s, PFinish))
  {
  }

  predicate PersisterStep(step: Step) {
    || step.PStart? || step.PLock? || step.PTail? || step.PNull? || step.PFull? || step.PStore? || step.PLoad?
    || step.PEnd? || step.PAgg? || step.PFinish?
  }

  lemma PersisterKeeps(s: State, step: Step)
    requires Inv(s) && Enabled(s, step) && PersisterStep(step) && CleanStep(s, step)
    ensures Inv(Apply(s, step))
  {
    match step
    case PTail =>
    case PNull =>
    case PFull =>
    case PStore => StoreMinKeeps(s);
    case PLoad => LoadMinKeeps(s);
    case PAgg => AggKeeps(s);
    case PStart => StartKeeps(s);
    case PFinish => FinishKeeps(s);
    case PLock =>
    case PEnd =>
  }

  lemma StepKeeps(s: State, step: Step)
    requires Inv(s) && Enabled(s, step) && CleanStep(s, step)
    ensures Inv(Apply(s, step))
  {
    if WorkerStep(step) { WorkerKeeps(s, step); }
    else if LoggerStep(step) { LoggerKeeps(s, step); }
    else if PersisterStep(step) { PersisterKeeps(s, step); }
    else if step.LWrite? { WriteKeeps(s, step.l); }
    else if step.Tick? { TickKeeps(s); }
    else { RoundKeeps(s, step); }
  }

  ghost predicate CleanRun(ss: seq<State>, steps: seq<Step>) {
    Run(ss, steps) && forall i {:trigger steps[i]} :: 0 <= i < |steps| ==> CleanStep(ss[i], steps[i])
  }

  lemma {:induction false} RunInv(ss: seq<State>, steps: seq<Step>, i: nat)
    requires CleanRun(ss, steps) && i < |ss|
    ensures Inv(ss[i])
    decreases i
  {
    if i > 0 {
      RunInv(ss, steps, i - 1);
      assert ss[i - 1 + 1] == Apply(ss[i - 1], steps[i - 1]);
      StepKeeps(ss[i - 1], steps[i - 1]);
    }
  }
}
