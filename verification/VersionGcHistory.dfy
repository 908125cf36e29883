// What becomes of tuples and pointers over a run, told by the run's steps.

module VersionGcHistory {
  import opened Basics
  import opened VersionGc

  // ---- pointers ----

  // Step i gives region x a pointer to p: a search finds p, or a walk leads to it.
  ghost predicate Gets(ss: seq<State>, steps: seq<Step>, i: nat, x: int, p: int)
    requires i < |steps| && |ss| == |steps| + 1
  {
    match steps[i]
    case Fetch(y, k) => y == x && k in ss[i].tree && ss[i].tree[k] == p
    case Walk(y, n) => y == x && n in ss[i].nodes && ss[i].nodes[n].next == Some(p)
    case _ => false
  }

  lemma {:induction false} HoldsOn(ss: seq<State>, steps: seq<Step>, i: nat, j: nat, x: int, p: int)
    requires Run(ss, steps) && i < j < |ss| && Gets(ss, steps, i, x, p)
    requires forall e :: i < e < j ==> steps[e] != Walk(x, p)
    ensures x in ss[j].regions && (ss[j].regions[x].open ==> p in ss[j].regions[x].holds)
    decreases j
  {
    assert ss[j - 1 + 1] == Apply(ss[j - 1], steps[j - 1]) && Enabled(ss[j - 1], steps[j - 1]);
    if i < j - 1 { HoldsOn(ss, steps, i, j - 1, x, p); }
  }

  // A pointer that a region got is good until the region closes or walks on:
  // the tuple has not been reclaimed.
  lemma PointerIsSafe(ss: seq<State>, steps: seq<Step>, i: nat, j: nat, x: int, p: int)
    requires Run(ss, steps) && i < j < |ss| && Gets(ss, steps, i, x, p) && Open(ss[j], x)
    requires forall e :: i < e < j ==> steps[e] != Walk(x, p)
    ensures p in ss[j].nodes && p !in ss[j].freed
  {
    HoldsOn(ss, steps, i, j, x, p);
    NoReclaimedAccess(ss, steps, j);
  }

  // ---- regions ----

  // A snapshot's bound is the read-only tick of the exclusive last tick when it began.
  lemma {:induction false} BoundIs(ss: seq<State>, steps: seq<Step>, j: nat, x: int) returns (i: nat)
    requires Run(ss, steps) && j < |ss| && x in ss[j].regions && ss[j].regions[x].bound.Some?
    ensures i < j && steps[i].OpenSnap? && steps[i].x == x && ss[j].regions[x].tick == steps[i].tick
    ensures ss[j].regions[x].bound.value == (ss[i].last + 1) / 25
    decreases j
  {
    if j == 0 {
      assert false;
    } else {
      assert ss[j - 1 + 1] == Apply(ss[j - 1], steps[j - 1]) && Enabled(ss[j - 1], steps[j - 1]);
      if steps[j - 1].OpenSnap? && steps[j - 1].x == x { i := j - 1; } else { i := BoundIs(ss, steps, j - 1, x); }
    }
  }

  // A writer's epoch is the tick at which it took it.
  lemma {:induction false} EpochIs(ss: seq<State>, steps: seq<Step>, j: nat, x: int) returns (i: nat)
    requires Run(ss, steps) && j < |ss| && x in ss[j].regions && ss[j].regions[x].epoch.Some?
    ensures i < j && steps[i] == TakeEpoch(x) && ss[j].regions[x].epoch.value == ss[i].cur
    decreases j
  {
    if j == 0 {
      assert false;
    } else {
      assert ss[j - 1 + 1] == Apply(ss[j - 1], steps[j - 1]) && Enabled(ss[j - 1], steps[j - 1]);
      if steps[j - 1] == TakeEpoch(x) { i := j - 1; } else { i := EpochIs(ss, steps, j - 1, x); }
    }
  }

  // ---- writes ----

  // The tuple of key k and what it holds, in front of what it held before.
  ghost predicate Overwrites(s: State, s': State, k: int, e: int, del: bool) {
    && k in s.tree && s.tree[k] in s.nodes && k in s'.tree && s'.tree[k] in s'.nodes
    && var was, now := s.nodes[s.tree[k]], s'.nodes[s'.tree[k]];
    now.key == k && now.epoch == e && now.deleting == del && now.latest
  }

  // p, behind the head of k, has the record that the head had, and is queued
  // for the epoch that superseded it unless it was deleted.
  ghost predicate Behind(s: State, s': State, k: int, e: int, p: int) {
    && k in s.tree && s.tree[k] in s.nodes && k in s'.tree && s'.tree[k] in s'.nodes && p in s'.nodes
    && s'.nodes[s'.tree[k]].next == Some(p) && s'.nodes[p] == s.nodes[s.tree[k]].(latest := false)
    && (!s.nodes[s.tree[k]].deleting ==> p in s'.queue && s'.queue[p] == Spilled(e / 25))
  }

  // The tuple in the tree of a deleted key is queued for the epoch of the deletion.
  ghost predicate QueuedIf(s': State, k: int, e: int, del: bool) {
    del ==> k in s'.tree && s'.tree[k] in s'.queue && s'.queue[s'.tree[k]] == Deleted(e / 25)
  }

  lemma InPlaceWrites(ss: seq<State>, steps: seq<Step>, i: nat, x: int, k: int, del: bool)
    requires Run(ss, steps) && i < |steps| && steps[i] == InPlace(x, k, del)
    ensures x in ss[i].regions && ss[i].regions[x].epoch.Some?
    ensures var e := ss[i].regions[x].epoch.value;
      Overwrites(ss[i], ss[i + 1], k, e, del) && QueuedIf(ss[i + 1], k, e, del)
    ensures ss[i + 1].tree == ss[i].tree && ss[i + 1].nodes[ss[i].tree[k]].next == ss[i].nodes[ss[i].tree[k]].next
  {
    RunInv(ss, steps, i);
    assert ss[i + 1] == Apply(ss[i], steps[i]) && Enabled(ss[i], steps[i]);
  }

  lemma SpillWrites(ss: seq<State>, steps: seq<Step>, i: nat, x: int, k: int, del: bool, y: int)
    requires Run(ss, steps) && i < |steps| && steps[i] == SpillCopy(x, k, del, y)
    ensures x in ss[i].regions && ss[i].regions[x].epoch.Some?
    ensures var e := ss[i].regions[x].epoch.value;
      Overwrites(ss[i], ss[i + 1], k, e, del) && QueuedIf(ss[i + 1], k, e, del) && Behind(ss[i], ss[i + 1], k, e, y)
    ensures ss[i + 1].tree == ss[i].tree
  {
    RunInv(ss, steps, i);
    assert ss[i + 1] == Apply(ss[i], steps[i]) && Enabled(ss[i], steps[i]);
  }

  lemma ReplaceWrites(ss: seq<State>, steps: seq<Step>, i: nat, x: int, k: int, del: bool, y: int)
    requires Run(ss, steps) && i < |steps| && steps[i] == Replace(x, k, del, y)
    ensures x in ss[i].regions && ss[i].regions[x].epoch.Some? && k in ss[i].tree
    ensures var e := ss[i].regions[x].epoch.value;
      && Overwrites(ss[i], ss[i + 1], k, e, del) && QueuedIf(ss[i + 1], k, e, del)
      && Behind(ss[i], ss[i + 1], k, e, ss[i].tree[k])
    ensures ss[i + 1].tree == ss[i].tree[k := y]
  {
    RunInv(ss, steps, i);
    assert ss[i + 1] == Apply(ss[i], steps[i]) && Enabled(ss[i], steps[i]);
  }

  // ---- the cleaner ----

  // The cleaner reclaims a spill; a deleted tuple that has been replaced it
  // queues again, as a spill of the current tick; any other deleted tuple it
  // takes out of the tree, to wait for exactly the regions now open.
  lemma CleanerIs(ss: seq<State>, steps: seq<Step>, i: nat, p: int, upto: int)
    requires Run(ss, steps) && i < |steps| && steps[i] == Process(p, upto)
    ensures p in ss[i].queue && p in ss[i].nodes
    ensures var s, s' := ss[i], ss[i + 1];
      if s.queue[p].Spilled? then p in s'.freed && p !in s'.queue && s'.tree == s.tree
      else if !s.nodes[p].latest then p in s'.queue && s'.queue[p] == Spilled(s.cur / 25) && s'.tree == s.tree
      else
        && p !in s'.queue && p in s'.limbo && (forall x :: x in s'.limbo[p] <==> Open(s, x))
        && s'.tree == s.tree - {s.nodes[p].key} && s.nodes[p].key in s.tree && s.tree[s.nodes[p].key] == p
  {
    RunInv(ss, steps, i);
    assert ss[i + 1] == Apply(ss[i], steps[i]) && Enabled(ss[i], steps[i]);
  }

  // ---- nothing leaks, but for one case ----

  // Tuples inserted with no value before step j.
  function BornDeleted(steps: seq<Step>, j: nat): set<int>
    requires j <= |steps|
  {
    if j == 0 then {}
    else BornDeleted(steps, j - 1) + if steps[j - 1].Insert? && steps[j - 1].del then {steps[j - 1].y} else {}
  }

  // Queued, waiting for its grace period, or reclaimed.
  predicate InCare(s: State, n: int) { n in s.queue || n in s.limbo || n in s.freed }

  // A tuple that is superseded or deleted is cared for, unless it was born deleted.
  ghost predicate CareInv(s: State, born: set<int>) {
    && (forall n :: n in s.nodes ==> (InCare(s, n) <==> (!s.nodes[n].latest || s.nodes[n].deleting) && n !in born))
    && (forall n :: n in born ==> n in s.nodes && s.nodes[n].deleting)
  }

  lemma SameCare(s: State, s': State, born: set<int>)
    requires CareInv(s, born) && s'.nodes == s.nodes
    requires s'.queue == s.queue && s'.limbo == s.limbo && s'.freed == s.freed
    ensures CareInv(s', born)
  {
  }

  lemma InPlaceCare(s: State, x: int, k: int, del: bool, born: set<int>)
    requires CareInv(s, born) && Enabled(s, InPlace(x, k, del))
    ensures CareInv(DoInPlace(s, x, k, del), born)
  {
  }

  lemma SpillCare(s: State, x: int, k: int, del: bool, y: int, born: set<int>)
    requires CareInv(s, born) && Enabled(s, SpillCopy(x, k, del, y))
    ensures CareInv(DoSpillCopy(s, x, k, del, y), born)
  {
  }

  lemma ReplaceCare(s: State, x: int, k: int, del: bool, y: int, born: set<int>)
    requires Inv(s) && CareInv(s, born) && Enabled(s, Replace(x, k, del, y))
    ensures CareInv(DoReplace(s, x, k, del, y), born)
  {
  }

  lemma InsertCare(s: State, x: int, k: int, del: bool, y: int, born: set<int>)
    requires Inv(s) && CareInv(s, born) && Enabled(s, Insert(x, k, del, y))
    ensures CareInv(Apply(s, Insert(x, k, del, y)), born + if del then {y} else {})
  {
  }

  lemma ProcessCare(s: State, p: int, upto: int, born: set<int>)
    requires CareInv(s, born) && Enabled(s, Process(p, upto))
    ensures CareInv(DoProcess(s, p), born)
  {
  }

  lemma ReclaimCare(s: State, p: int, born: set<int>)
    requires CareInv(s, born) && Enabled(s, Reclaim(p))
    ensures CareInv(Apply(s, Reclaim(p)), born)
  {
  }

  lemma OtherCare(s: State, step: Step, born: set<int>)
    requires CareInv(s, born) && Enabled(s, step) && (Opens(step) || step.OpenSnap? || Moves(step))
    ensures CareInv(Apply(s, step), born)
  {
    SameCare(s, Apply(s, step), born);
  }

  lemma WriteCare(s: State, step: Step, born: set<int>)
    requires Inv(s) && CareInv(s, born) && Enabled(s, step) && (step.InPlace? || step.SpillCopy? || step.Replace?)
    ensures CareInv(Apply(s, step), born)
  {
    match step
    case InPlace(x, k, del) => InPlaceCare(s, x, k, del, born);
    case SpillCopy(x, k, del, y) => SpillCare(s, x, k, del, y, born);
    case Replace(x, k, del, y) => ReplaceCare(s, x, k, del, y, born);
  }

  lemma CleanCare(s: State, step: Step, born: set<int>)
    requires CareInv(s, born) && Enabled(s, step) && (step.Process? || step.Reclaim?)
    ensures CareInv(Apply(s, step), born)
  {
    match step
    case Process(p, upto) => ProcessCare(s, p, upto, born);
    case Reclaim(p) => ReclaimCare(s, p, born);
  }

  lemma StepCare(s: State, step: Step, born: set<int>)
    requires Inv(s) && CareInv(s, born) && Enabled(s, step)
    ensures CareInv(Apply(s, step), born + if step.Insert? && step.del then {step.y} else {})
  {
    assert born + {} == born;
    if step.Insert? { InsertCare(s, step.x, step.k, step.del, step.y, born); }
    else if step.Process? || step.Reclaim? { CleanCare(s, step, born); }
    else if step.InPlace? || step.SpillCopy? || step.Replace? { WriteCare(s, step, born); }
    else { OtherCare(s, step, born); }
  }

  lemma {:induction false} RunCare(ss: seq<State>, steps: seq<Step>, j: nat)
    requires Run(ss, steps) && j < |ss|
    ensures CareInv(ss[j], BornDeleted(steps, j))
    decreases j
  {
    if j > 0 {
      RunCare(ss, steps, j - 1);
      RunInv(ss, steps, j - 1);
      assert ss[j - 1 + 1] == Apply(ss[j - 1], steps[j - 1]) && Enabled(ss[j - 1], steps[j - 1]);
      StepCare(ss[j - 1], steps[j - 1], BornDeleted(steps, j - 1));
    }
  }

  // A tuple that holds no value, or is no longer the latest of its key, is
  // queued, waiting or reclaimed exactly if it was not inserted with no value.
  lemma NoLeak(ss: seq<State>, steps: seq<Step>, j: nat, n: int)
    requires Run(ss, steps) && j < |ss| && n in ss[j].nodes && (!ss[j].nodes[n].latest || ss[j].nodes[n].deleting)
    ensures InCare(ss[j], n) <==> !exists i :: 0 <= i < j && steps[i].Insert? && steps[i].del && steps[i].y == n
  {
    RunCare(ss, steps, j);
    BornBy(steps, j, n);
  }

  lemma {:induction false} BornBy(steps: seq<Step>, j: nat, n: int)
    requires j <= |steps|
    ensures n in BornDeleted(steps, j) <==>
      exists i :: 0 <= i < j && steps[i].Insert? && steps[i].del && steps[i].y == n
  {
    if j > 0 { BornBy(steps, j - 1, n); }
  }

  // ---- a tuple that leaks ----

  ghost predicate EndsIn(ss: seq<State>, steps: seq<Step>, s: State) { Run(ss, steps) && ss[|ss| - 1] == s }

  ghost predicate Reached(s: State) { exists ss, steps :: EndsIn(ss, steps, s) }

  lemma Go(s: State, step: Step)
    requires Reached(s) && Enabled(s, step)
    ensures Reached(Apply(s, step))
  {
    var ss, steps :| EndsIn(ss, steps, s);
    var ss', steps' := ss + [Apply(s, step)], steps + [step];
    assert ss'[0] == ss[0];
    forall i | 0 <= i < |steps'| ensures Enabled(ss'[i], steps'[i]) && ss'[i + 1] == Apply(ss'[i], steps'[i]) {
      if i < |steps| { assert steps'[i] == steps[i] && ss'[i] == ss[i] && ss'[i + 1] == ss[i + 1]; }
    }
    assert EndsIn(ss', steps', Apply(s, step));
  }

  // Region x is opened and has the lock of key 5 and the epoch 1.
  lemma Locks(s: State, x: int) returns (s': State)
    requires Reached(s) && s.cur == 1 && s.last == 0 && x !in s.regions && Free(s, 5)
    ensures Reached(s') && s' == s.(regions := s.regions[x := Region(1, true, None, {}, {5}, Some(1))])
  {
    Go(s, OpenTxn(x, 1));
    s' := Apply(s, OpenTxn(x, 1));
    Go(s', LockKey(x, 5));
    s' := Apply(s', LockKey(x, 5));
    Go(s', TakeEpoch(x));
    s' := Apply(s', TakeEpoch(x));
    assert {} + {5} == {5};
  }

  lemma BornWithNoValue() returns (s: State)
    ensures Reached(s) && s.cur == 1 && s.last == 0 && s.queue == map[] && s.limbo == map[] && s.freed == map[]
    ensures s.nodes == map[10 := Node(5, 1, true, true, None)] && s.tree == map[5 := 10]
    ensures s.regions.Keys == {0} && !s.regions[0].open
  {
    assert EndsIn([INITIAL], [], INITIAL);
    s := Locks(INITIAL, 0);
    Go(s, Insert(0, 5, true, 10));
    s := Apply(s, Insert(0, 5, true, 10));
    Go(s, Close(0));
    s := Apply(s, Close(0));
  }

  // Tuple 10 is inserted with no value, and replaced by tuple 11.  Nothing will
  // ever reclaim it.
  lemma LeakedTuple() returns (s: State)
    ensures Reached(s) && 10 in s.nodes && !s.nodes[10].latest && !InCare(s, 10) && forall x :: !Open(s, x)
  {
    s := BornWithNoValue();
    s := Locks(s, 1);
    Go(s, Replace(1, 5, false, 11));
    s := Apply(s, Replace(1, 5, false, 11));
    Go(s, Close(1));
    s := Apply(s, Close(1));
  }
}
