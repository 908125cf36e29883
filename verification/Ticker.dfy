// The global ticker as a machine of single loads and stores: one ticker
// thread, any number of cores, each running re-entrant guards.

module Ticker {

  datatype Guard =
    | Out                                // depth 0
    | Wants                              // depth bumped, spinning on the core's lock
    | Holds                              // lock taken, tick not read yet
    | HasTick(v: int, since: int)        // tick read, not stored yet
    | In(depth: nat, tick: int, since: int)
    | Leaving                            // depth back to 0, lock not dropped yet

  datatype Holder = Free | Guarded | Ticking | Other

  // The ticker thread between its loads and stores.
  datatype Pc = Idle | Scan(i: nat) | Blocked(i: nat) | Owns(i: nat) | Stored(i: nat)

  // History: `since` is the last completed tick when the guard read its tick,
  // `gens` counts a core's outermost guards.
  datatype State = State(
    cur: int, last: int,
    ticks: seq<int>, locks: seq<Holder>, guards: seq<Guard>, gens: seq<nat>,
    pc: Pc)

  datatype Step =
    | Bump | Load | Grab | Store | Drop | Publish
    | Enter(c: nat) | Lock(c: nat) | ReadTick(c: nat) | StoreTick(c: nat)
    | Nest(c: nat) | Unnest(c: nat) | Leave(c: nat) | Unlock(c: nat)
    | OtherLock(c: nat) | OtherUnlock(c: nat)

  predicate Shape(s: State) { |s.locks| == |s.ticks| && |s.guards| == |s.ticks| && |s.gens| == |s.ticks| }

  predicate At(s: State, c: nat) { c < |s.ticks| }

  predicate Enabled(s: State, step: Step)
    requires Shape(s)
  {
    match step
    case Bump => s.pc.Idle?
    case Load => s.pc.Scan? && At(s, s.pc.i)
    case Grab => s.pc.Blocked? && At(s, s.pc.i) && s.locks[s.pc.i].Free?
    case Store => s.pc.Owns? && At(s, s.pc.i)
    case Drop => s.pc.Stored? && At(s, s.pc.i)
    case Publish => s.pc == Scan(|s.ticks|)
    case Enter(c) => At(s, c) && s.guards[c].Out?
    case Lock(c) => At(s, c) && s.guards[c].Wants? && s.locks[c].Free?
    case ReadTick(c) => At(s, c) && s.guards[c].Holds?
    case StoreTick(c) => At(s, c) && s.guards[c].HasTick?
    case Nest(c) => At(s, c) && s.guards[c].In?
    case Unnest(c) => At(s, c) && s.guards[c].In? && s.guards[c].depth > 1
    case Leave(c) => At(s, c) && s.guards[c].In? && s.guards[c].depth == 1
    case Unlock(c) => At(s, c) && s.guards[c].Leaving?
    case OtherLock(c) => At(s, c) && s.locks[c].Free?
    case OtherUnlock(c) => At(s, c) && s.locks[c].Other?
  }

  function SetGuard(s: State, c: nat, g: Guard): State
    requires Shape(s) && At(s, c)
  {
    s.(guards := s.guards[c := g])
  }

  function Apply(s: State, step: Step): State
    requires Shape(s) && Enabled(s, step)
  {
    match step
    case Bump => s.(cur := s.cur + 1, pc := Scan(0))
    case Load => s.(pc := if s.ticks[s.pc.i] == s.cur then Scan(s.pc.i + 1) else Blocked(s.pc.i))
    case Grab => s.(locks := s.locks[s.pc.i := Ticking], pc := Owns(s.pc.i))
    case Store => s.(ticks := s.ticks[s.pc.i := s.cur], pc := Stored(s.pc.i))
    case Drop => s.(locks := s.locks[s.pc.i := Free], pc := Scan(s.pc.i + 1))
    case Publish => s.(last := s.cur - 1, pc := Idle)
    case Enter(c) => SetGuard(s, c, Wants)
    case Lock(c) => SetGuard(s, c, Holds).(locks := s.locks[c := Guarded])
    case ReadTick(c) => SetGuard(s, c, HasTick(s.cur, s.last))
    case StoreTick(c) =>
      SetGuard(s, c, In(1, s.guards[c].v, s.guards[c].since)).(ticks := s.ticks[c := s.guards[c].v],
        gens := s.gens[c := s.gens[c] + 1])
    case Nest(c) => SetGuard(s, c, s.guards[c].(depth := s.guards[c].depth + 1))
    case Unnest(c) => SetGuard(s, c, s.guards[c].(depth := s.guards[c].depth - 1))
    case Leave(c) => SetGuard(s, c, Leaving)
    case Unlock(c) => SetGuard(s, c, Out).(locks := s.locks[c := Free])
    case OtherLock(c) => s.(locks := s.locks[c := Other])
    case OtherUnlock(c) => s.(locks := s.locks[c := Free])
  }

  function Initial(n: nat): State {
    State(1, 0, seq(n, _ => 1), seq(n, _ => Free), seq(n, _ => Out), seq(n, _ => 0), Idle)
  }

  ghost predicate Run(ss: seq<State>, steps: seq<Step>, n: nat) {
    && |ss| == |steps| + 1 && ss[0] == Initial(n)
    && forall i {:trigger steps[i]} :: 0 <= i < |steps| ==>
      Shape(ss[i]) && Enabled(ss[i], steps[i]) && ss[i + 1] == Apply(ss[i], steps[i])
  }

  // ---- the invariant ----

  ghost predicate PhaseInv(s: State) {
    0 <= s.last && if s.pc.Idle? then s.last == s.cur - 1 && forall c :: 0 <= c < |s.ticks| ==> s.ticks[c] == s.cur
    else
      && s.last == s.cur - 2 && s.pc.i <= |s.ticks| && (!s.pc.Scan? ==> s.pc.i < |s.ticks|)
      && (forall c :: 0 <= c < s.pc.i ==> s.ticks[c] == s.cur)
      && (forall c :: 0 <= c < |s.ticks| ==> s.cur - 1 <= s.ticks[c] <= s.cur)
      && (s.pc.Stored? ==> s.ticks[s.pc.i] == s.cur)
  }

  predicate LockedByGuard(g: Guard) { g.Holds? || g.HasTick? || g.In? || g.Leaving? }

  predicate LockOk(pc: Pc, c: nat, h: Holder, g: Guard) {
    && (LockedByGuard(g) <==> h.Guarded?)
    && (h.Ticking? <==> (pc == Owns(c) || pc == Stored(c)))
  }

  predicate GuardOk(cur: int, last: int, tick: int, g: Guard) {
    match g
    case HasTick(v, since) => tick <= v <= cur && v - 2 <= since <= last
    case In(depth, t, since) => 1 <= depth && t == tick && t - 2 <= since <= last
    case _ => true
  }

  ghost predicate Inv(s: State) {
    && Shape(s) && PhaseInv(s)
    && (forall c :: 0 <= c < |s.ticks| ==> LockOk(s.pc, c, s.locks[c], s.guards[c]))
    && (forall c :: 0 <= c < |s.ticks| ==> GuardOk(s.cur, s.last, s.ticks[c], s.guards[c]))
  }

  lemma TickerKeeps(s: State, step: Step)
    requires Inv(s) && Enabled(s, step)
    requires step.Bump? || step.Load? || step.Grab? || step.Store? || step.Drop? || step.Publish?
    ensures Inv(Apply(s, step))
  {
  }

  lemma GuardKeeps(s: State, step: Step)
    requires Inv(s) && Enabled(s, step)
    requires step.Enter? || step.Lock? || step.ReadTick? || step.StoreTick? || step.Nest? || step.Unnest?
    ensures Inv(Apply(s, step))
  {
  }

  lemma StepKeeps(s: State, step: Step)
    requires Inv(s) && Enabled(s, step)
    ensures Inv(Apply(s, step))
  {
    if step.Bump? || step.Load? || step.Grab? || step.Store? || step.Drop? || step.Publish? {
      TickerKeeps(s, step);
    } else if step.Enter? || step.Lock? || step.ReadTick? || step.StoreTick? || step.Nest? || step.Unnest? {
      GuardKeeps(s, step);
    }
  }

  lemma {:induction false} RunInv(ss: seq<State>, steps: seq<Step>, n: nat, i: nat)
    requires Run(ss, steps, n) && i < |ss|
    ensures Inv(ss[i]) && |ss[i].ticks| == n
    decreases i
  {
    if i == 0 {
    } else {
      RunInv(ss, steps, n, i - 1);
      assert ss[i - 1 + 1] == Apply(ss[i - 1], steps[i - 1]);
      StepKeeps(ss[i - 1], steps[i - 1]);
    }
  }

  // ---- what every reachable state satisfies ----

  // Each core is at the current tick or one behind; a guard's tick does not
  // move, is not completed, and at most one tick completes while it lasts.
  lemma EpochInvariant(ss: seq<State>, steps: seq<Step>, n: nat, i: nat, c: nat)
    requires Run(ss, steps, n) && i < |ss| && c < n
    ensures var s := ss[i];
      && Shape(s) && At(s, c) && s.cur - 2 <= s.last < s.ticks[c] && s.cur - 1 <= s.ticks[c] <= s.cur
      && (s.guards[c].In? ==>
            && s.locks[c].Guarded? && s.guards[c].tick == s.ticks[c]
            && s.last < s.guards[c].tick <= s.cur && s.guards[c].since <= s.last <= s.guards[c].since + 1)
  {
    RunInv(ss, steps, n, i);
  }

  // A guard's tick was the current one when the guard loaded it.
  lemma {:induction false} GuardTick(ss: seq<State>, steps: seq<Step>, n: nat, i: nat, c: nat) returns (j: nat)
    requires Run(ss, steps, n) && i < |ss| && c < |ss[i].guards| && (ss[i].guards[c].HasTick? || ss[i].guards[c].In?)
    ensures j < i && steps[j] == ReadTick(c)
    ensures (if ss[i].guards[c].In? then ss[i].guards[c].tick else ss[i].guards[c].v) == ss[j].cur
    ensures ss[i].guards[c].since == ss[j].last
    decreases i
  {
    if i == 0 {
      assert false;
    } else {
      assert ss[i - 1 + 1] == Apply(ss[i - 1], steps[i - 1]);
      if steps[i - 1] == ReadTick(c) { j := i - 1; } else { j := GuardTick(ss, steps, n, i - 1, c); }
    }
  }

  // At most one tick completes from the load of a guard's tick to its end.
  lemma OneTickPerGuard(ss: seq<State>, steps: seq<Step>, n: nat, i: nat, c: nat) returns (j: nat)
    requires Run(ss, steps, n) && i < |ss| && c < n && c < |ss[i].guards| && ss[i].guards[c].In?
    ensures j < i && steps[j] == ReadTick(c) && ss[j].last <= ss[i].last <= ss[j].last + 1
    ensures ss[i].last < ss[j].cur <= ss[i].cur <= ss[j].cur + 1
  {
    j := GuardTick(ss, steps, n, i, c);
    EpochInvariant(ss, steps, n, i, c);
  }

  // How deep core c's guards are nested before step i.
  function Depth(steps: seq<Step>, i: nat, c: nat): int
    requires i <= |steps|
  {
    if i == 0 then 0
    else match steps[i - 1]
      case StoreTick(d) => if d == c then 1 else Depth(steps, i - 1, c)
      case Nest(d) => Depth(steps, i - 1, c) + if d == c then 1 else 0
      case Unnest(d) => Depth(steps, i - 1, c) - if d == c then 1 else 0
      case Leave(d) => if d == c then 0 else Depth(steps, i - 1, c)
      case _ => Depth(steps, i - 1, c)
  }

  // A core is guarded exactly while guards are open on it, and as often.
  lemma {:induction false} DepthCounts(ss: seq<State>, steps: seq<Step>, n: nat, i: nat, c: nat)
    requires Run(ss, steps, n) && i < |ss| && c < n
    ensures c < |ss[i].guards| && (ss[i].guards[c].In? <==> 0 < Depth(steps, i, c))
    ensures 0 <= Depth(steps, i, c) && (ss[i].guards[c].In? ==> ss[i].guards[c].depth == Depth(steps, i, c))
    decreases i
  {
    if i > 0 {
      DepthCounts(ss, steps, n, i - 1, c);
      RunInv(ss, steps, n, i - 1);
      assert ss[i - 1 + 1] == Apply(ss[i - 1], steps[i - 1]);
    }
  }

  // The pair (cur, last) moves only by a tick after the last one completed,
  // and completes only once every open guard is at the current tick.
  lemma ClockRefinement(s: State, step: Step)
    requires Inv(s) && Enabled(s, step)
    ensures var s' := Apply(s, step);
      match step
      case Bump => s.last == s.cur - 1 && s'.cur == s.cur + 1 && s'.last == s.last
      case Publish =>
        && s.last == s.cur - 2 && s'.cur == s.cur && s'.last == s.cur - 1
        && forall c :: 0 <= c < |s.guards| && s.guards[c].In? ==> s.guards[c].tick == s.cur
      case _ => s'.cur == s.cur && s'.last == s.last
  {
  }

  lemma {:induction false} LastGrows(ss: seq<State>, steps: seq<Step>, n: nat, i: nat, j: nat)
    requires Run(ss, steps, n) && i <= j < |ss|
    ensures ss[i].last <= ss[j].last && ss[i].cur <= ss[j].cur
    decreases j
  {
    if i < j {
      LastGrows(ss, steps, n, i, j - 1);
      RunInv(ss, steps, n, j - 1);
      assert ss[j - 1 + 1] == Apply(ss[j - 1], steps[j - 1]);
      ClockRefinement(ss[j - 1], steps[j - 1]);
    }
  }

  // The smallest tick met by a scan that loads core c's tick in state at[c].
  function ScanMin(ss: seq<State>, at: seq<nat>): int
    requires 0 < |at| && forall c :: 0 <= c < |at| ==> at[c] < |ss| && c < |ss[at[c]].ticks|
  {
    var c := |at| - 1;
    var v := ss[at[c]].ticks[c];
    if c == 0 then v else var m := ScanMin(ss, at[..c]); if v < m then v else m
  }

  // A scan of the cores that races with the ticker still returns a tick above
  // every tick that was complete when it began.
  lemma {:induction false} ScanIsRecent(ss: seq<State>, steps: seq<Step>, n: nat, at: seq<nat>)
    requires Run(ss, steps, n) && 0 < |at| <= n
    requires forall c :: 0 <= c < |at| ==> at[c] < |ss|
    requires forall c, d :: 0 <= c < d < |at| ==> at[c] <= at[d]
    ensures forall c :: 0 <= c < |at| ==> c < |ss[at[c]].ticks|
    ensures ScanMin(ss, at) >= ss[at[0]].last + 1
    decreases |at|
  {
    forall d | 0 <= d < |at| ensures d < |ss[at[d]].ticks| { RunInv(ss, steps, n, at[d]); }
    var c := |at| - 1;
    EpochInvariant(ss, steps, n, at[c], c);
    LastGrows(ss, steps, n, at[0], at[c]);
    if c > 0 {
      ScanIsRecent(ss, steps, n, at[..c]);
      assert at[..c][0] == at[0];
    }
  }

  lemma {:induction false} ScanAtLeast(ss: seq<State>, at: seq<nat>, m: int)
    requires 0 < |at| && forall c :: 0 <= c < |at| ==> at[c] < |ss| && c < |ss[at[c]].ticks|
    ensures ScanMin(ss, at) >= m <==> forall c :: 0 <= c < |at| ==> ss[at[c]].ticks[c] >= m
  {
    var c := |at| - 1;
    if c > 0 {
      ScanAtLeast(ss, at[..c], m);
      forall d | 0 <= d < c ensures at[..c][d] == at[d] {}
    }
  }

  // At its end the scan is above every completed tick exactly if no tick
  // completed meanwhile, or one did and each core was loaded after it had moved
  // on from that tick.
  lemma ScanAtEnd(ss: seq<State>, steps: seq<Step>, n: nat, at: seq<nat>, end: nat)
    requires Run(ss, steps, n) && 0 < |at| <= n && at[|at| - 1] <= end < |ss|
    requires forall c :: 0 <= c < |at| ==> at[c] < |ss|
    requires forall c, d :: 0 <= c < d < |at| ==> at[c] <= at[d]
    ensures forall c :: 0 <= c < |at| ==> c < |ss[at[c]].ticks|
    ensures var done := ss[end].last - ss[at[0]].last;
      ScanMin(ss, at) >= ss[end].last + 1 <==>
        done == 0 || (done == 1 && forall c :: 0 <= c < |at| ==> ss[at[c]].ticks[c] > ss[end].last)
  {
    ScanIsRecent(ss, steps, n, at);
    EpochInvariant(ss, steps, n, at[0], 0);
    LastGrows(ss, steps, n, at[0], end);
    ScanBelow(ss, at);
    ScanAtLeast(ss, at, ss[end].last + 1);
  }

  lemma {:induction false} ScanBelow(ss: seq<State>, at: seq<nat>)
    requires 0 < |at| && forall c :: 0 <= c < |at| ==> at[c] < |ss| && c < |ss[at[c]].ticks|
    ensures ScanMin(ss, at) <= ss[at[0]].ticks[0]
  {
    if |at| > 1 {
      ScanBelow(ss, at[..|at| - 1]);
      assert at[..|at| - 1][0] == at[0];
    }
  }

  // ---- a scan that a tick overtakes ----

  ghost predicate EndsIn(ss: seq<State>, steps: seq<Step>, n: nat, s: State) { Run(ss, steps, n) && ss[|ss| - 1] == s }

  ghost predicate Reached(s: State, n: nat) { exists ss, steps :: EndsIn(ss, steps, n, s) }

  lemma Go(s: State, n: nat, step: Step)
    requires Reached(s, n) && Shape(s) && Enabled(s, step)
    ensures Reached(Apply(s, step), n)
  {
    var ss, steps :| EndsIn(ss, steps, n, s);
    var ss', steps' := ss + [Apply(s, step)], steps + [step];
    assert ss'[0] == ss[0];
    forall i | 0 <= i < |steps'|
      ensures Shape(ss'[i]) && Enabled(ss'[i], steps'[i]) && ss'[i + 1] == Apply(ss'[i], steps'[i])
    {
      if i < |steps| { assert steps'[i] == steps[i] && ss'[i] == ss[i] && ss'[i + 1] == ss[i + 1]; }
    }
    assert EndsIn(ss', steps', n, Apply(s, step));
  }

  // The ticker takes an idle core to the current tick.
  lemma Advances(s: State, n: nat, i: nat)
    requires Reached(s, n) && Shape(s) && s.pc == Scan(i) && At(s, i) && s.locks[i].Free? && s.ticks[i] != s.cur
    ensures Reached(s.(ticks := s.ticks[i := s.cur], pc := Scan(i + 1)), n)
  {
    Go(s, n, Load);
    Go(s.(pc := Blocked(i)), n, Grab);
    var s2 := s.(locks := s.locks[i := Ticking], pc := Owns(i));
    Go(s2, n, Store);
    Go(s2.(ticks := s.ticks[i := s.cur], pc := Stored(i)), n, Drop);
    assert s2.locks[i := Free] == s.locks;
  }

  // Core 0 is loaded at tick 1; tick 1 completes; core 1 is loaded at tick 2.
  // The scan yields 1, which is not above the last completed tick.
  lemma ScanCanBeLate() returns (ss: seq<State>, steps: seq<Step>, at: seq<nat>)
    ensures Run(ss, steps, 2) && |at| == 2 && at[0] <= at[1] == |ss| - 1
    ensures |ss[at[0]].ticks| == 2 && |ss[at[1]].ticks| == 2 && ScanMin(ss, at) < ss[at[1]].last + 1
  {
    var s := Initial(2);
    assert EndsIn([s], [], 2, s);
    Go(s, 2, Bump);
    s := s.(cur := 2, pc := Scan(0));
    Advances(s, 2, 0);
    s := s.(ticks := s.ticks[0 := 2], pc := Scan(1));
    Advances(s, 2, 1);
    s := s.(ticks := s.ticks[1 := 2], pc := Scan(2));
    Go(s, 2, Publish);
    s := Apply(s, Publish);
    ss, steps :| EndsIn(ss, steps, 2, s);
    at := [0, |ss| - 1];
    ScanBelow(ss, at);
  }
}
