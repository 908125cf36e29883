// Deferred frees driven by the ticker: per-core delete queues, drained up to
// a tick rounded down by any multiplier m >= 1.

module Rcu {
  import opened Arith
  import T = Ticker

  // History: `at` is the freeing guard's tick, `open` the guards that were
  // open at the free, as core and generation.
  datatype Entry = Entry(p: int, tick: int, at: int, open: set<(nat, nat)>)

  // A core between the steps of do_cleanup.
  datatype Clean = Resting | Loaded(exclusive: int) | Running(batch: seq<Entry>)

  datatype Sync = Sync(queue: seq<Entry>, reaped: int, clean: Clean, freed: seq<Entry>, ran: seq<Entry>)

  datatype State = State(t: T.State, syncs: seq<Sync>)

  datatype Step =
    | Ticks(step: T.Step)
    | FreeWithFn(c: nat, p: int)
    | LoadTick(c: nat)
    | Collect(c: nat)
    | RunOne(c: nat)
    | EndClean(c: nat)

  function ToRcuTicks(m: int, t: int): int
    requires 1 <= m
  {
    t / m
  }

  predicate Shape(s: State) { T.Shape(s.t) && |s.syncs| == |s.t.ticks| }

  predicate Enabled(s: State, m: int, step: Step)
    requires 1 <= m && Shape(s)
  {
    match step
    case Ticks(st) => T.Enabled(s.t, st)
    case FreeWithFn(c, p) => c < |s.syncs| && s.t.guards[c].In?
    case LoadTick(c) => c < |s.syncs| && s.syncs[c].clean.Resting?
    case Collect(c) => c < |s.syncs| && s.syncs[c].clean.Loaded?
    case RunOne(c) => c < |s.syncs| && s.syncs[c].clean.Running? && s.syncs[c].clean.batch != []
    case EndClean(c) => c < |s.syncs| && s.syncs[c].clean.Running? && s.syncs[c].clean.batch == []
  }

  // Guards that are open now.
  function OpenNow(t: T.State): set<(nat, nat)>
    requires T.Shape(t)
  {
    set d | 0 <= d < |t.guards| && t.guards[d].In? :: (d, t.gens[d])
  }

  predicate StillOpen(t: T.State, r: (nat, nat))
    requires T.Shape(t)
  {
    r.0 < |t.guards| && t.guards[r.0].In? && t.gens[r.0] == r.1
  }

  // empty_accept_from: leading entries up to tick e.
  function Accepted(q: seq<Entry>, e: int): (n: nat)
    ensures n <= |q|
  {
    if q == [] || e < q[0].tick then 0 else 1 + Accepted(q[1..], e)
  }

  function SetSync(s: State, c: nat, x: Sync): State
    requires c < |s.syncs|
  {
    s.(syncs := s.syncs[c := x])
  }

  // e is the exclusive cleaning tick.
  function DoCollect(x: Sync, e: int): Sync {
    if e == 0 || x.reaped == e - 1 then x.(clean := Resting)
    else
      var n := Accepted(x.queue, e - 1);
      x.(reaped := e - 1, queue := x.queue[n..], clean := Running(x.queue[..n]))
  }

  function Apply(s: State, m: int, step: Step): State
    requires 1 <= m && Shape(s) && Enabled(s, m, step)
  {
    match step
    case Ticks(st) => s.(t := T.Apply(s.t, st))
    case FreeWithFn(c, p) =>
      var x := s.syncs[c];
      var e := Entry(p, ToRcuTicks(m, s.t.ticks[c] + 1), s.t.ticks[c], OpenNow(s.t));
      SetSync(s, c, x.(queue := x.queue + [e], freed := x.freed + [e]))
    case LoadTick(c) => SetSync(s, c, s.syncs[c].(clean := Loaded(s.t.last + 1)))
    case Collect(c) => SetSync(s, c, DoCollect(s.syncs[c], ToRcuTicks(m, s.syncs[c].clean.exclusive)))
    case RunOne(c) =>
      var x := s.syncs[c];
      SetSync(s, c, x.(clean := Running(x.clean.batch[1..]), ran := x.ran + [x.clean.batch[0]]))
    case EndClean(c) => SetSync(s, c, s.syncs[c].(clean := Resting))
  }

  function Initial(n: nat): State {
    State(T.Initial(n), seq(n, _ => Sync([], 0, Resting, [], [])))
  }

  ghost predicate Run(ss: seq<State>, steps: seq<Step>, n: nat, m: int)
    requires 1 <= m
  {
    && |ss| == |steps| + 1 && ss[0] == Initial(n)
    && forall i {:trigger steps[i]} :: 0 <= i < |steps| ==>
         Shape(ss[i]) && Enabled(ss[i], m, steps[i]) && ss[i + 1] == Apply(ss[i], m, steps[i])
  }

  // ---- the invariant ----

  // A guard open at the free is at most one tick ahead of the freeing one.
  ghost predicate EntryOk(t: T.State, m: int, e: Entry)
    requires T.Shape(t) && 1 <= m
  {
    && e.tick == ToRcuTicks(m, e.at + 1)
    && forall r :: r in e.open ==>
         && r.0 < |t.gens| && r.1 <= t.gens[r.0]
         && (StillOpen(t, r) ==> t.guards[r.0].tick <= e.at + 1)
  }

  ghost predicate Ended(t: T.State, e: Entry)
    requires T.Shape(t)
  {
    forall r :: r in e.open ==> r.0 < |t.gens| && r.1 <= t.gens[r.0] && !StillOpen(t, r)
  }

  ghost predicate Sorted(q: seq<Entry>) { forall i, j :: 0 <= i < j < |q| ==> q[i].tick <= q[j].tick }

  function Batch(x: Sync): seq<Entry> { if x.clean.Running? then x.clean.batch else [] }

  ghost predicate SyncInv(t: T.State, m: int, c: nat, x: Sync)
    requires T.Shape(t) && 1 <= m && c < |t.ticks|
  {
    && Sorted(x.queue)
    && (forall i :: 0 <= i < |x.queue| ==> EntryOk(t, m, x.queue[i]) && x.queue[i].at <= t.ticks[c])
    && (forall i :: 0 <= i < |Batch(x)| ==> Ended(t, Batch(x)[i]))
    && (forall i :: 0 <= i < |x.ran| ==> Ended(t, x.ran[i]))
    && x.ran + Batch(x) + x.queue == x.freed
    && (x.clean.Loaded? ==> 1 <= x.clean.exclusive <= t.last + 1)
  }

  ghost predicate ReapInv(last: int, m: int, x: Sync)
    requires 1 <= m
  {
    && 0 <= x.reaped <= Reaped(m, last + 1)
    && (x.clean.Loaded? ==> 1 <= x.clean.exclusive <= last + 1 && x.reaped <= Reaped(m, x.clean.exclusive))
  }

  // The tick a drain would reap at exclusive tick e.
  function Reaped(m: int, e: int): int
    requires 1 <= m
  {
    var r := ToRcuTicks(m, e);
    if r == 0 then 0 else r - 1
  }

  ghost predicate Inv(s: State, m: int)
    requires 1 <= m
  {
    && Shape(s) && T.Inv(s.t)
    && (forall c :: 0 <= c < |s.syncs| ==> SyncInv(s.t, m, c, s.syncs[c]))
    && (forall c :: 0 <= c < |s.syncs| ==> ReapInv(s.t.last, m, s.syncs[c]))
  }

  // ---- steps ----

  lemma {:induction false} AcceptedExact(q: seq<Entry>, e: int, i: nat)
    requires Sorted(q) && i < |q|
    ensures i < Accepted(q, e) <==> q[i].tick <= e
  {
    if e < q[0].tick {
    } else if i > 0 {
      AcceptedExact(q[1..], e, i - 1);
    }
  }

  lemma ReapedGrows(m: int, a: int, b: int)
    requires 1 <= m && 0 <= a <= b
    ensures 0 <= Reaped(m, a) <= Reaped(m, b)
  {
    DivMono(m, 0, a);
    DivMono(m, a, b);
  }

  // The grace period in numbers: both sides are rounded down, yet a free at
  // tick `at` is drained only once tick at + 1 has completed.
  lemma Grace(m: int, at: int, last: int)
    requires 1 <= m && ToRcuTicks(m, at + 1) <= ToRcuTicks(m, last + 1) - 1
    ensures at + 1 <= last
  {
    if last < at + 1 { DivMono(m, last + 1, at + 1); }
  }

  // What a clock step may do to a core's sync: guards end or start, gens and ticks grow.
  lemma TickSync(t: T.State, step: T.Step, m: int, c: nat, x: Sync)
    requires 1 <= m && T.Inv(t) && T.Enabled(t, step) && c < |t.ticks| && SyncInv(t, m, c, x)
    ensures SyncInv(T.Apply(t, step), m, c, x)
  {
    var t' := T.Apply(t, step);
    T.ClockRefinement(t, step);
    TickGuards(t, step);
    forall i | 0 <= i < |x.queue| ensures EntryOk(t', m, x.queue[i]) { KeepEntry(t, t', m, x.queue[i]); }
    forall i | 0 <= i < |Batch(x)| ensures Ended(t', Batch(x)[i]) { KeepEnded(t, t', Batch(x)[i]); }
    forall i | 0 <= i < |x.ran| ensures Ended(t', x.ran[i]) { KeepEnded(t, t', x.ran[i]); }
  }

  // Generations only grow, and a guard of an old generation was already there with its tick.
  ghost predicate Later(t: T.State, t': T.State) {
    && T.Shape(t) && T.Shape(t') && |t'.ticks| == |t.ticks|
    && (forall d :: 0 <= d < |t.ticks| ==> t.gens[d] <= t'.gens[d] && t.ticks[d] <= t'.ticks[d])
    && (forall d :: 0 <= d < |t.ticks| && t'.guards[d].In? && t'.gens[d] == t.gens[d] ==>
          t.guards[d].In? && t.guards[d].tick == t'.guards[d].tick)
  }

  lemma TickGuards(t: T.State, step: T.Step)
    requires T.Inv(t) && T.Enabled(t, step)
    ensures Later(t, T.Apply(t, step))
  {
  }

  lemma KeepEntry(t: T.State, t': T.State, m: int, e: Entry)
    requires Later(t, t') && 1 <= m && EntryOk(t, m, e)
    ensures EntryOk(t', m, e)
  {
  }

  lemma KeepEnded(t: T.State, t': T.State, e: Entry)
    requires Later(t, t') && Ended(t, e)
    ensures Ended(t', e)
  {
  }

  lemma FreeKeeps(t: T.State, m: int, c: nat, x: Sync, p: int)
    requires 1 <= m && T.Inv(t) && c < |t.ticks| && t.guards[c].In? && SyncInv(t, m, c, x)
    ensures var e := Entry(p, ToRcuTicks(m, t.ticks[c] + 1), t.ticks[c], OpenNow(t));
      SyncInv(t, m, c, x.(queue := x.queue + [e], freed := x.freed + [e]))
  {
    var e := Entry(p, ToRcuTicks(m, t.ticks[c] + 1), t.ticks[c], OpenNow(t));
    assert EntryOk(t, m, e);
    forall i | 0 <= i < |x.queue| ensures x.queue[i].tick <= e.tick { DivMono(m, x.queue[i].at + 1, e.at + 1); }
    var x' := x.(queue := x.queue + [e], freed := x.freed + [e]);
    assert x'.ran + Batch(x') + x'.queue == (x.ran + Batch(x) + x.queue) + [e];
  }

  // Every guard open at the free of a drained entry has ended.
  lemma DrainedEnded(t: T.State, m: int, e: Entry, exclusive: int)
    requires 1 <= m && T.Inv(t) && EntryOk(t, m, e) && exclusive <= t.last + 1
    requires e.tick <= ToRcuTicks(m, exclusive) - 1
    ensures Ended(t, e)
  {
    Grace(m, e.at, exclusive - 1);
    forall d | 0 <= d < |t.ticks| && t.guards[d].In? ensures t.last < t.guards[d].tick {}
  }

  lemma CollectEnded(t: T.State, m: int, c: nat, x: Sync, n: nat)
    requires 1 <= m && T.Inv(t) && c < |t.ticks| && x.clean.Loaded? && SyncInv(t, m, c, x)
    requires n == Accepted(x.queue, ToRcuTicks(m, x.clean.exclusive) - 1)
    ensures forall i :: 0 <= i < n ==> Ended(t, x.queue[i])
  {
    forall i | 0 <= i < n ensures Ended(t, x.queue[i]) {
      AcceptedExact(x.queue, ToRcuTicks(m, x.clean.exclusive) - 1, i);
      DrainedEnded(t, m, x.queue[i], x.clean.exclusive);
    }
  }

  // Moving a prefix of the queue into the batch.
  lemma MoveKeeps(t: T.State, m: int, c: nat, x: Sync, n: nat, r: int)
    requires 1 <= m && T.Shape(t) && c < |t.ticks| && SyncInv(t, m, c, x) && !x.clean.Running? && n <= |x.queue|
    requires forall i :: 0 <= i < n ==> Ended(t, x.queue[i])
    ensures SyncInv(t, m, c, x.(reaped := r, queue := x.queue[n..], clean := Running(x.queue[..n])))
  {
    var x' := x.(reaped := r, queue := x.queue[n..], clean := Running(x.queue[..n]));
    assert x.queue[..n] + x.queue[n..] == x.queue;
    assert x'.ran + Batch(x') + x'.queue == x.ran + (x.queue[..n] + x.queue[n..]);
  }

  lemma RestKeeps(t: T.State, m: int, c: nat, x: Sync)
    requires 1 <= m && T.Shape(t) && c < |t.ticks| && SyncInv(t, m, c, x) && Batch(x) == []
    ensures SyncInv(t, m, c, x.(clean := Resting))
  {
  }

  lemma CollectKeeps(t: T.State, m: int, c: nat, x: Sync, e: int)
    requires 1 <= m && T.Shape(t) && c < |t.ticks| && x.clean.Loaded? && SyncInv(t, m, c, x)
    requires forall i :: 0 <= i < Accepted(x.queue, e - 1) ==> Ended(t, x.queue[i])
    ensures SyncInv(t, m, c, DoCollect(x, e))
  {
    if e == 0 || x.reaped == e - 1 {
      RestKeeps(t, m, c, x);
    } else {
      MoveKeeps(t, m, c, x, Accepted(x.queue, e - 1), e - 1);
    }
  }

  lemma CollectStep(s: State, m: int, c: nat)
    requires 1 <= m && Inv(s, m) && Enabled(s, m, Collect(c))
    ensures SyncInv(s.t, m, c, DoCollect(s.syncs[c], ToRcuTicks(m, s.syncs[c].clean.exclusive)))
  {
    var e := ToRcuTicks(m, s.syncs[c].clean.exclusive);
    CollectEnded(s.t, m, c, s.syncs[c], Accepted(s.syncs[c].queue, e - 1));
    CollectKeeps(s.t, m, c, s.syncs[c], e);
  }

  lemma RunOneKeeps(t: T.State, m: int, c: nat, x: Sync)
    requires 1 <= m && T.Inv(t) && c < |t.ticks| && x.clean.Running? && x.clean.batch != [] && SyncInv(t, m, c, x)
    ensures SyncInv(t, m, c, x.(clean := Running(x.clean.batch[1..]), ran := x.ran + [x.clean.batch[0]]))
  {
    var b := x.clean.batch;
    assert x.ran + b == x.ran + [b[0]] + b[1..];
  }

  // The reaped tick never goes back.
  lemma ReapKeeps(s: State, m: int, step: Step, c: nat)
    requires 1 <= m && Inv(s, m) && Enabled(s, m, step) && c < |s.syncs|
    ensures ReapInv(Apply(s, m, step).t.last, m, Apply(s, m, step).syncs[c])
  {
    match step
    case Ticks(st) =>
      T.ClockRefinement(s.t, st);
      ReapedGrows(m, s.t.last + 1, T.Apply(s.t, st).last + 1);
    case Collect(d) => if d == c { ReapedGrows(m, s.syncs[c].clean.exclusive, s.t.last + 1); }
    case _ =>
  }

  lemma StepKeeps(s: State, m: int, step: Step)
    requires 1 <= m && Inv(s, m) && Enabled(s, m, step)
    ensures Inv(Apply(s, m, step), m)
  {
    forall c | 0 <= c < |s.syncs| ensures ReapInv(Apply(s, m, step).t.last, m, Apply(s, m, step).syncs[c]) {
      ReapKeeps(s, m, step, c);
    }
    match step
    case Ticks(st) =>
      T.StepKeeps(s.t, st);
      TickGuards(s.t, st);
      forall c | 0 <= c < |s.syncs|
        ensures SyncInv(T.Apply(s.t, st), m, c, s.syncs[c])
      {
        TickSync(s.t, st, m, c, s.syncs[c]);
      }
    case FreeWithFn(c, p) => FreeKeeps(s.t, m, c, s.syncs[c], p);
    case LoadTick(c) =>
    case Collect(c) => CollectStep(s, m, c);
    case RunOne(c) => RunOneKeeps(s.t, m, c, s.syncs[c]);
    case EndClean(c) => RestKeeps(s.t, m, c, s.syncs[c]);
  }

  lemma {:induction false} RunInv(ss: seq<State>, steps: seq<Step>, n: nat, m: int, i: nat)
    requires 1 <= m && Run(ss, steps, n, m) && i < |ss|
    ensures Inv(ss[i], m) && |ss[i].syncs| == n
    decreases i
  {
    if i == 0 {
    } else {
      RunInv(ss, steps, n, m, i - 1);
      assert ss[i - 1 + 1] == Apply(ss[i - 1], m, steps[i - 1]);
      StepKeeps(ss[i - 1], m, steps[i - 1]);
    }
  }

  // ---- the frees and deleters of a run, by its steps ----

  // The pointers that core c has freed before step j, in order.
  function Frees(steps: seq<Step>, j: nat, c: nat): seq<int>
    requires j <= |steps|
  {
    if j == 0 then []
    else if steps[j - 1].FreeWithFn? && steps[j - 1].c == c then Frees(steps, j - 1, c) + [steps[j - 1].p]
    else Frees(steps, j - 1, c)
  }

  // The pointers that core c's deleters have been called with before step j.
  function Calls(ss: seq<State>, steps: seq<Step>, j: nat, c: nat): seq<int>
    requires j <= |steps| && |ss| == |steps| + 1
  {
    if j == 0 then []
    else if steps[j - 1] == RunOne(c) && c < |ss[j - 1].syncs| && Batch(ss[j - 1].syncs[c]) != []
    then Calls(ss, steps, j - 1, c) + [Batch(ss[j - 1].syncs[c])[0].p]
    else Calls(ss, steps, j - 1, c)
  }

  // Entry e is of the free in step f of core c.
  ghost predicate EntryOf(ss: seq<State>, steps: seq<Step>, m: int, f: nat, c: nat, e: Entry)
    requires 1 <= m
  {
    && f < |steps| && f < |ss| && steps[f].FreeWithFn? && steps[f].c == c && e.p == steps[f].p
    && Shape(ss[f]) && c < |ss[f].syncs| && e.tick == (ss[f].t.ticks[c] + 1) / m
    && (forall d :: 0 <= d < |ss[f].t.guards| && ss[f].t.guards[d].In? ==> (d, ss[f].t.gens[d]) in e.open)
  }

  function Pointers(es: seq<Entry>): (ps: seq<int>)
    ensures |ps| == |es| && forall q :: 0 <= q < |es| ==> ps[q] == es[q].p
  {
    seq(|es|, q requires 0 <= q < |es| => es[q].p)
  }

  // The entries freed are of the frees so far, in order, and so are the calls.
  ghost predicate FreedInv(ss: seq<State>, steps: seq<Step>, j: nat, c: nat)
    requires j <= |steps| && |ss| == |steps| + 1
  {
    && c < |ss[j].syncs| && Pointers(ss[j].syncs[c].freed) == Frees(steps, j, c)
    && Pointers(ss[j].syncs[c].ran) == Calls(ss, steps, j, c)
  }

  // The entry of the free in step f is where the frees before it end.
  ghost predicate EntryInv(ss: seq<State>, steps: seq<Step>, m: int, j: nat, c: nat, f: nat)
    requires 1 <= m && f <= |steps| && j < |ss|
  {
    && c < |ss[j].syncs| && |Frees(steps, f, c)| < |ss[j].syncs[c].freed|
    && EntryOf(ss, steps, m, f, c, ss[j].syncs[c].freed[|Frees(steps, f, c)|])
  }

  lemma OpenAll(t: T.State, d: nat)
    requires T.Shape(t) && d < |t.guards| && t.guards[d].In?
    ensures (d, t.gens[d]) in OpenNow(t)
  {
  }

  lemma FreeEntry(ss: seq<State>, steps: seq<Step>, n: nat, m: int, j: nat, c: nat)
    requires 1 <= m && Run(ss, steps, n, m) && j < |steps| && steps[j].FreeWithFn? && steps[j].c == c
    ensures Shape(ss[j]) && c < |ss[j].syncs| && c < |ss[j + 1].syncs|
    ensures |ss[j + 1].syncs[c].freed| == |ss[j].syncs[c].freed| + 1
    ensures EntryOf(ss, steps, m, j, c, ss[j + 1].syncs[c].freed[|ss[j].syncs[c].freed|])
    ensures ss[j].syncs[c].freed <= ss[j + 1].syncs[c].freed && ss[j + 1].syncs[c].ran == ss[j].syncs[c].ran
  {
    assert ss[j + 1] == Apply(ss[j], m, steps[j]);
    forall d | 0 <= d < |ss[j].t.guards| && ss[j].t.guards[d].In? ensures (d, ss[j].t.gens[d]) in OpenNow(ss[j].t) {
      OpenAll(ss[j].t, d);
    }
  }

  // Other steps free nothing.
  lemma OtherEntry(ss: seq<State>, steps: seq<Step>, n: nat, m: int, j: nat, c: nat)
    requires 1 <= m && Run(ss, steps, n, m) && j < |steps| && !(steps[j].FreeWithFn? && steps[j].c == c)
    requires c < |ss[j].syncs|
    ensures c < |ss[j + 1].syncs| && ss[j + 1].syncs[c].freed == ss[j].syncs[c].freed
    ensures if steps[j] == RunOne(c)
      then Batch(ss[j].syncs[c]) != [] && ss[j + 1].syncs[c].ran == ss[j].syncs[c].ran + [Batch(ss[j].syncs[c])[0]]
      else ss[j + 1].syncs[c].ran == ss[j].syncs[c].ran
  {
    assert ss[j + 1] == Apply(ss[j], m, steps[j]);
  }

  lemma {:induction false} FreedRun(ss: seq<State>, steps: seq<Step>, n: nat, m: int, j: nat, c: nat)
    requires 1 <= m && Run(ss, steps, n, m) && j < |ss| && c < n
    ensures FreedInv(ss, steps, j, c)
    decreases j
  {
    if j > 0 {
      FreedRun(ss, steps, n, m, j - 1, c);
      if steps[j - 1].FreeWithFn? && steps[j - 1].c == c {
        FreeEntry(ss, steps, n, m, j - 1, c);
      } else {
        OtherEntry(ss, steps, n, m, j - 1, c);
      }
    }
  }

  lemma {:induction false} EntryRun(ss: seq<State>, steps: seq<Step>, n: nat, m: int, j: nat, c: nat, f: nat)
    requires 1 <= m && Run(ss, steps, n, m) && f < j < |ss| && c < n && steps[f].FreeWithFn? && steps[f].c == c
    ensures EntryInv(ss, steps, m, j, c, f)
    decreases j
  {
    FreedRun(ss, steps, n, m, f, c);
    if f == j - 1 {
      FreeEntry(ss, steps, n, m, f, c);
    } else {
      EntryRun(ss, steps, n, m, j - 1, c, f);
      if steps[j - 1].FreeWithFn? && steps[j - 1].c == c {
        FreeEntry(ss, steps, n, m, j - 1, c);
      } else {
        OtherEntry(ss, steps, n, m, j - 1, c);
      }
    }
  }

  // ---- theorems ----

  // A guard that is open and does not end keeps its generation.
  lemma {:induction false} StaysOpen(ss: seq<State>, steps: seq<Step>, n: nat, m: int, i: nat, j: nat, d: nat)
    requires 1 <= m && Run(ss, steps, n, m) && i <= j < |ss|
    requires Shape(ss[i]) && d < |ss[i].t.guards| && ss[i].t.guards[d].In?
    requires forall e :: i <= e < j ==> steps[e] != Ticks(T.Leave(d))
    ensures Shape(ss[j]) && StillOpen(ss[j].t, (d, ss[i].t.gens[d]))
    decreases j
  {
    if i < j {
      StaysOpen(ss, steps, n, m, i, j - 1, d);
      assert ss[j - 1 + 1] == Apply(ss[j - 1], m, steps[j - 1]);
    }
  }

  // The next deleter to be called is that of the first free without a call, and
  // the guards noted with it have ended.
  lemma NextCall(ss: seq<State>, steps: seq<Step>, n: nat, m: int, j: nat, c: nat)
    requires 1 <= m && Run(ss, steps, n, m) && j < |steps| && steps[j] == RunOne(c) && c < n
    ensures Shape(ss[j]) && c < |ss[j].syncs| && Batch(ss[j].syncs[c]) != []
    ensures var x, q := ss[j].syncs[c], |Calls(ss, steps, j, c)|;
      q < |x.freed| == |Frees(steps, j, c)| && x.freed[q] == Batch(x)[0] && Ended(ss[j].t, x.freed[q])
  {
    RunInv(ss, steps, n, m, j);
    FreedRun(ss, steps, n, m, j, c);
    var x := ss[j].syncs[c];
    assert Enabled(ss[j], m, steps[j]) && SyncInv(ss[j].t, m, c, x);
    assert x.freed == x.ran + Batch(x) + x.queue && Ended(ss[j].t, Batch(x)[0]);
  }

  // Grace period: when the deleter of a free is called, in order of the frees,
  // it gets the pointer freed, and every guard that was open at the free has
  // been left since.
  lemma GracePeriod(ss: seq<State>, steps: seq<Step>, n: nat, m: int, i: nat, j: nat, c: nat, p: int, d: nat)
    requires 1 <= m && Run(ss, steps, n, m) && i < |steps| && steps[i] == FreeWithFn(c, p) && c < n
    requires j < |steps| && steps[j] == RunOne(c) && |Calls(ss, steps, j, c)| == |Frees(steps, i, c)|
    requires d < n && d < |ss[i].t.guards| && ss[i].t.guards[d].In?
    ensures i < j && c < |ss[j].syncs| && Batch(ss[j].syncs[c]) != [] && Batch(ss[j].syncs[c])[0].p == p
    ensures exists e :: i <= e < j && steps[e] == Ticks(T.Leave(d))
  {
    NextCall(ss, steps, n, m, j, c);
    if j <= i { FewerFrees(steps, j, i, c); }
    EntryRun(ss, steps, n, m, j, c, i);
    if forall e :: i <= e < j ==> steps[e] != Ticks(T.Leave(d)) {
      StaysOpen(ss, steps, n, m, i, j, d);
      assert false;
    }
  }

  lemma {:induction false} FewerFrees(steps: seq<Step>, i: nat, j: nat, c: nat)
    requires i <= j <= |steps|
    ensures |Frees(steps, i, c)| <= |Frees(steps, j, c)|
    decreases j
  {
    if i < j { FewerFrees(steps, i, j - 1, c); }
  }

  // Deleters are called with the pointers freed, in order and each once, and
  // what is left of them waits in the batch and the queue.
  lemma InOrderOnce(ss: seq<State>, steps: seq<Step>, n: nat, m: int, j: nat, c: nat)
    requires 1 <= m && Run(ss, steps, n, m) && j < |ss| && c < n
    ensures c < |ss[j].syncs|
    ensures Frees(steps, j, c) == Calls(ss, steps, j, c) + Pointers(Batch(ss[j].syncs[c]) + ss[j].syncs[c].queue)
  {
    RunInv(ss, steps, n, m, j);
    FreedRun(ss, steps, n, m, j, c);
    var x := ss[j].syncs[c];
    assert SyncInv(ss[j].t, m, c, x);
    PointersJoin(x.ran, Batch(x) + x.queue);
    assert x.freed == x.ran + (Batch(x) + x.queue);
  }

  lemma PointersJoin(a: seq<Entry>, b: seq<Entry>)
    ensures Pointers(a + b) == Pointers(a) + Pointers(b)
  {
  }

  lemma {:induction false} LoadedTick(ss: seq<State>, steps: seq<Step>, n: nat, m: int, j: nat, c: nat) returns (i: nat)
    requires 1 <= m && Run(ss, steps, n, m) && j < |ss| && c < |ss[j].syncs| && ss[j].syncs[c].clean.Loaded?
    ensures i < j && steps[i] == LoadTick(c) && ss[j].syncs[c].clean.exclusive == ss[i].t.last + 1
    decreases j
  {
    if j == 0 {
      assert false;
    } else {
      assert ss[j - 1 + 1] == Apply(ss[j - 1], m, steps[j - 1]);
      if steps[j - 1] == LoadTick(c) { i := j - 1; } else { i := LoadedTick(ss, steps, n, m, j - 1, c); }
    }
  }

  // x' is x after a drain at exclusive clean tick e.
  ghost predicate Drained(x: Sync, x': Sync, e: int) {
    if e == 0 || x.reaped == e - 1 then x'.queue == x.queue && x'.clean.Resting? && x'.reaped == x.reaped
    else && x'.clean.Running? && x'.clean.batch + x'.queue == x.queue && x'.reaped == e - 1
         && (forall q :: 0 <= q < |x'.clean.batch| ==> x'.clean.batch[q].tick < e)
         && (forall q :: 0 <= q < |x'.queue| ==> e <= x'.queue[q].tick)
  }

  lemma CollectExact(x: Sync, e: int)
    requires Sorted(x.queue)
    ensures Drained(x, DoCollect(x, e), e)
  {
    var n := Accepted(x.queue, e - 1);
    assert x.queue[..n] + x.queue[n..] == x.queue;
    forall q | 0 <= q < |x.queue| ensures q < n <==> x.queue[q].tick <= e - 1 { AcceptedExact(x.queue, e - 1, q); }
  }

  // A cleanup does nothing in a tick it has reaped; otherwise it drains
  // exactly the entries of earlier ticks than the clean tick, in order.
  lemma DrainExact(ss: seq<State>, steps: seq<Step>, n: nat, m: int, i: nat, c: nat)
    requires 1 <= m && Run(ss, steps, n, m) && i < |steps| && steps[i] == Collect(c) && c < n
    ensures c < |ss[i].syncs| && c < |ss[i + 1].syncs| && ss[i].syncs[c].clean.Loaded?
    ensures Drained(ss[i].syncs[c], ss[i + 1].syncs[c], ss[i].syncs[c].clean.exclusive / m)
  {
    RunInv(ss, steps, n, m, i);
    assert ss[i + 1] == Apply(ss[i], m, steps[i]);
    assert SyncInv(ss[i].t, m, c, ss[i].syncs[c]);
    CollectExact(ss[i].syncs[c], ss[i].syncs[c].clean.exclusive / m);
  }
}
