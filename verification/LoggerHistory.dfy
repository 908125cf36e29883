// Where the log, what counts as written and the published epochs come from, by
// the steps of a run.

module LoggerHistory {
  import opened Basics
  import opened Logger

  lemma RunStep(ss: seq<State>, steps: seq<Step>, i: nat)
    requires Run(ss, steps) && i < |steps|
    ensures Shape(ss[i]) && Enabled(ss[i], steps[i]) && ss[i + 1] == Apply(ss[i], steps[i])
  {
    var step := steps[i];
    assert Shape(ss[i]) && Enabled(ss[i], step);
  }

  // ---- one step and one core ----

  // What a step may change on a core, by the kind of step.
  predicate CoreMoves(s: State, step: Step, k: nat, c: Core, c': Core) {
    && c'.log == (if step == Log(k) && c.txn.Epoch? then c.log + [c.txn.e] else c.log)
    && (step.LWrite? || c'.durable == c.durable)
    && (c'.txn.Epoch? ==> if step == TakeEpoch(k) then c'.txn.e == s.cur else c'.txn == c.txn)
    && (step != LSched(k) ==> c'.even == c.even && c'.odd == c.odd)
  }

  lemma WorkerMoves(s: State, step: Step, k: nat)
    requires Shape(s) && Enabled(s, step) && k < |s.cores|
    requires step.StartTxn? || step.TakeEpoch? || step.Log? || step.Push? || step.EndTxn?
    ensures |Apply(s, step).cores| == |s.cores| && CoreMoves(s, step, k, s.cores[k], Apply(s, step).cores[k])
  {
  }

  lemma LoggerMoves(s: State, step: Step, k: nat)
    requires Shape(s) && Enabled(s, step) && k < |s.cores|
    requires step.LSync? || step.LSched? || step.LWrite? || step.LLoad? || step.LStore? || step.LDeq? || step.LNext?
    ensures |Apply(s, step).cores| == |s.cores| && CoreMoves(s, step, k, s.cores[k], Apply(s, step).cores[k])
  {
  }

  lemma OtherMoves(s: State, step: Step, k: nat)
    requires Shape(s) && Enabled(s, step) && k < |s.cores| && (step.Tick? || PersisterStep(step))
    ensures |Apply(s, step).cores| == |s.cores| && CoreMoves(s, step, k, s.cores[k], Apply(s, step).cores[k])
  {
  }

  lemma RunMoves(ss: seq<State>, steps: seq<Step>, i: nat, k: nat)
    requires Run(ss, steps) && i < |steps| && k < |ss[i].cores|
    ensures |ss[i + 1].cores| == |ss[i].cores| && CoreMoves(ss[i], steps[i], k, ss[i].cores[k], ss[i + 1].cores[k])
  {
    RunStep(ss, steps, i);
    var step := steps[i];
    if step.StartTxn? || step.TakeEpoch? || step.Log? || step.Push? || step.EndTxn? { WorkerMoves(ss[i], step, k); }
    else if step.Tick? || PersisterStep(step) { OtherMoves(ss[i], step, k); }
    else { LoggerMoves(ss[i], step, k); }
  }

  lemma {:induction false} SameCores(ss: seq<State>, steps: seq<Step>, i: nat)
    requires Run(ss, steps) && i < |ss|
    ensures |ss[i].cores| == |ss[0].cores|
  {
    if i > 0 {
      SameCores(ss, steps, i - 1);
      if 0 < |ss[i - 1].cores| { RunMoves(ss, steps, i - 1, 0); } else { NoCores(ss, steps, i - 1); }
    }
  }

  lemma NoCores(ss: seq<State>, steps: seq<Step>, i: nat)
    requires Run(ss, steps) && i < |steps| && |ss[i].cores| == 0
    ensures |ss[i + 1].cores| == 0
  {
    RunStep(ss, steps, i);
  }

  // ---- the log ----

  lemma {:induction false} LogGrows(ss: seq<State>, steps: seq<Step>, i: nat, j: nat, k: nat)
    requires Run(ss, steps) && i <= j < |ss| && k < |ss[i].cores|
    ensures k < |ss[j].cores| && ss[i].cores[k].log <= ss[j].cores[k].log
    decreases j
  {
    if i < j {
      LogGrows(ss, steps, i, j - 1, k);
      RunMoves(ss, steps, j - 1, k);
    }
  }

  lemma {:induction false} EpochTaken(ss: seq<State>, steps: seq<Step>, e: nat, i: nat, k: nat)
    requires Run(ss, steps) && e < i < |ss| && steps[e] == TakeEpoch(k)
    requires forall m :: e < m < i ==> steps[m] != TakeEpoch(k)
    ensures k < |ss[i].cores| && (ss[i].cores[k].txn.Epoch? ==> ss[i].cores[k].txn.e == ss[e].cur)
    decreases i
  {
    if e < i - 1 { EpochTaken(ss, steps, e, i - 1, k); } else { RunStep(ss, steps, e); }
    RunMoves(ss, steps, i - 1, k);
  }

  // A transaction that logs is in the log from then on, with the epoch that was
  // current when it took it.
  lemma LogIs(ss: seq<State>, steps: seq<Step>, e: nat, i: nat, j: nat, k: nat)
    requires Run(ss, steps) && e < i < j < |ss| && steps[e] == TakeEpoch(k) && steps[i] == Log(k)
    requires forall m :: e < m < i ==> steps[m] != TakeEpoch(k)
    ensures k < |ss[i].cores| && k < |ss[j].cores| && |ss[i].cores[k].log| < |ss[j].cores[k].log|
    ensures ss[j].cores[k].log[|ss[i].cores[k].log|] == ss[e].cur
  {
    EpochTaken(ss, steps, e, i, k);
    RunStep(ss, steps, i);
    RunMoves(ss, steps, i, k);
    LogGrows(ss, steps, i + 1, j, k);
  }

  // Nothing else is in the log.
  lemma {:induction false} LogFrom(ss: seq<State>, steps: seq<Step>, j: nat, k: nat, a: nat) returns (i: nat)
    requires Run(ss, steps) && j < |ss| && k < |ss[j].cores| && a < |ss[j].cores[k].log|
    ensures i < j && steps[i] == Log(k) && k < |ss[i].cores| && |ss[i].cores[k].log| == a
    decreases j
  {
    if j == 0 {
      assert false;
    } else {
      i := j - 1;
      SameCores(ss, steps, j);
      SameCores(ss, steps, i);
      RunMoves(ss, steps, i, k);
      if a < |ss[i].cores[k].log| { i := LogFrom(ss, steps, i, k, a); }
    }
  }

  // ---- what has been written ----

  lemma WriteMoves(s: State, step: Step, k: nat)
    requires Shape(s) && Enabled(s, step) && step.LWrite? && k < |s.cores|
    ensures Apply(s, step).cores[k].durable == if s.own[k] == step.l then Counted(s.cores[k]) else s.cores[k].durable
  {
  }

  // Step i writes entry a of core k, which a buffer scheduled by then holds.
  ghost predicate Writes(ss: seq<State>, steps: seq<Step>, i: nat, k: nat, a: nat)
    requires i < |steps| && |ss| == |steps| + 1
  {
    && k < |ss[i].cores| && k < |ss[i].own| && steps[i] == LWrite(ss[i].own[k])
    && var c := ss[i].cores[k];
       c.durable <= a && c.sched <= |c.ends| && a < if c.sched == 0 then c.base else c.ends[c.sched - 1]
  }

  lemma WrittenNow(ss: seq<State>, steps: seq<Step>, i: nat, k: nat, a: nat)
    requires Run(ss, steps) && i < |steps| && k < |ss[i].cores| && k < |ss[i + 1].cores|
    requires ss[i].cores[k].durable <= a < ss[i + 1].cores[k].durable
    ensures Writes(ss, steps, i, k, a)
  {
    RunStep(ss, steps, i);
    RunMoves(ss, steps, i, k);
    WriteMoves(ss[i], steps[i], k);
  }

  // An entry counts as written only by a write of its core's logger, in a
  // buffer that had been scheduled.
  lemma {:induction false} WrittenFrom(ss: seq<State>, steps: seq<Step>, j: nat, k: nat, a: nat) returns (i: nat)
    requires Run(ss, steps) && j < |ss| && k < |ss[j].cores| && a < ss[j].cores[k].durable
    ensures i < j && Writes(ss, steps, i, k, a)
    decreases j
  {
    if j == 0 {
      assert false;
    } else {
      i := j - 1;
      SameCores(ss, steps, j);
      SameCores(ss, steps, i);
      if a < ss[i].cores[k].durable { i := WrittenFrom(ss, steps, i, k, a); } else { WrittenNow(ss, steps, i, k, a); }
    }
  }

  // ---- what is published ----

  // A publish stores the logger's mark of the core if it is above the one loaded.
  lemma PublishIs(ss: seq<State>, steps: seq<Step>, i: nat, k: nat)
    requires Run(ss, steps) && i < |steps| && steps[i] == LStore(k)
    ensures k < |ss[i].cores| && k < |ss[i + 1].cores| && k < |ss[i].own| && ss[i].own[k] < |ss[i].writers|
    ensures ss[i].cores[k].lp.Loaded?
    ensures var c := ss[i].cores[k];
      var v := if ss[i].writers[ss[i].own[k]].sense then c.odd else c.even;
      ss[i + 1].cores[k].pub == if v > c.lp.x0 then v else c.pub
  {
    RunStep(ss, steps, i);
  }

  lemma SchedMoves(s: State, k: nat)
    requires Shape(s) && Enabled(s, LSched(k))
    ensures var c, c', sense := s.cores[k], Apply(s, LSched(k)).cores[k], WriterOf(s, k).sense;
      && Prefix(c', sense) == c.log[c.ends[c.sched] - 1] - 1 && Prefix(c', !sense) == Prefix(c, !sense)
      && c'.sched == c.sched + 1
  {
  }

  // The step schedules a buffer of core k and notes it in the mark of that turn.
  predicate Schedules(s: State, step: Step, k: nat, sense: bool) {
    step == LSched(k) && k < |s.own| && s.own[k] < |s.writers| && s.writers[s.own[k]].sense == sense
  }

  // A step leaves the mark alone, or schedules a buffer and sets it to one below its epoch.
  ghost predicate MarkStep(ss: seq<State>, steps: seq<Step>, i: int, k: nat, sense: bool)
    requires |ss| == |steps| + 1
  {
    0 <= i < |steps| && k < |ss[i].cores| && k < |ss[i + 1].cores| ==>
      var c, c' := ss[i].cores[k], ss[i + 1].cores[k];
      if Schedules(ss[i], steps[i], k, sense) then
        c.sched < |c.ends| && 0 < c.ends[c.sched] <= |c.log| && Prefix(c', sense) == c.log[c.ends[c.sched] - 1] - 1
      else Prefix(c', sense) == Prefix(c, sense)
  }

  lemma MarkMoves(ss: seq<State>, steps: seq<Step>, i: nat, k: nat, sense: bool)
    requires Run(ss, steps) && i < |steps|
    ensures MarkStep(ss, steps, i, k, sense)
  {
    if k < |ss[i].cores| {
      RunMoves(ss, steps, i, k);
      RunStep(ss, steps, i);
      if steps[i] == LSched(k) { SchedMoves(ss[i], k); }
    }
  }

  ghost predicate MarkSteps(ss: seq<State>, steps: seq<Step>, k: nat, sense: bool) {
    && |ss| == |steps| + 1 && (forall e :: 0 <= e < |ss| ==> k < |ss[e].cores|)
    && Prefix(ss[0].cores[k], sense) == 0 && forall e :: MarkStep(ss, steps, e, k, sense)
  }

  // Step i schedules the last buffer in that turn before j, and v is one below its epoch.
  ghost predicate IsLastMark(ss: seq<State>, steps: seq<Step>, i: nat, j: nat, k: nat, sense: bool, v: int)
    requires |ss| == |steps| + 1 && j < |ss|
  {
    && i < j && Schedules(ss[i], steps[i], k, sense) && k < |ss[i].cores|
    && (forall m :: i < m < j ==> !Schedules(ss[m], steps[m], k, sense))
    && var c := ss[i].cores[k];
       c.sched < |c.ends| && 0 < c.ends[c.sched] <= |c.log| && v == c.log[c.ends[c.sched] - 1] - 1
  }

  lemma {:induction false} LastMark(ss: seq<State>, steps: seq<Step>, j: nat, k: nat, sense: bool) returns (i: nat)
    requires MarkSteps(ss, steps, k, sense) && j < |ss| && Prefix(ss[j].cores[k], sense) != 0
    ensures IsLastMark(ss, steps, i, j, k, sense, Prefix(ss[j].cores[k], sense))
    decreases j
  {
    i := j - 1;
    assert MarkStep(ss, steps, i, k, sense);
    if !Schedules(ss[i], steps[i], k, sense) { i := LastMark(ss, steps, i, k, sense); }
  }

  lemma RunMarks(ss: seq<State>, steps: seq<Step>, j: nat, k: nat, sense: bool)
    requires Run(ss, steps) && j < |ss| && k < |ss[j].cores|
    ensures MarkSteps(ss, steps, k, sense)
  {
    SameCores(ss, steps, j);
    forall e | 0 <= e < |ss| ensures k < |ss[e].cores| { SameCores(ss, steps, e); }
    forall e ensures MarkStep(ss, steps, e, k, sense) {
      if 0 <= e < |steps| { MarkMoves(ss, steps, e, k, sense); }
    }
  }

  // That mark is one below the epoch of the last buffer scheduled in its turn.
  lemma MarkFrom(ss: seq<State>, steps: seq<Step>, j: nat, k: nat, sense: bool) returns (i: nat)
    requires Run(ss, steps) && j < |ss| && k < |ss[j].cores| && Prefix(ss[j].cores[k], sense) != 0
    ensures IsLastMark(ss, steps, i, j, k, sense, Prefix(ss[j].cores[k], sense))
  {
    RunMarks(ss, steps, j, k, sense);
    i := LastMark(ss, steps, j, k, sense);
  }

  // ---- the persister ----

  // The step takes v into the minimum.
  predicate Takes(s: State, step: Step, v: int) {
    && (step.PLoad? || step.PStore?) && (s.pp.Scan? || s.pp.Bypass?) && s.pp.k < |s.cores|
    && v == if step.PLoad? then s.cores[s.pp.k].pub else s.best
  }

  lemma MinMoves(s: State, step: Step)
    requires Shape(s) && Enabled(s, step) && Apply(s, step).min.Some?
    ensures var m, m' := s.min, Apply(s, step).min;
      if step.PLoad? || step.PStore? then
        var v := if step.PLoad? then s.cores[s.pp.k].pub else s.best;
        Takes(s, step, v) && m'.value <= v && (m' == m || m'.value == v) && (m.Some? ==> m'.value <= m.value)
      else m' == m && !step.PStart?
  {
  }

  // The minimum of a round is one of the epochs taken in that round.
  lemma {:induction false} MinFrom(ss: seq<State>, steps: seq<Step>, j: nat) returns (i: nat)
    requires Run(ss, steps) && j < |ss| && ss[j].min.Some?
    ensures i < j && Takes(ss[i], steps[i], ss[j].min.value) && forall m :: i < m < j ==> !steps[m].PStart?
    decreases j
  {
    if j == 0 {
      assert false;
    } else {
      i := j - 1;
      RunStep(ss, steps, i);
      MinMoves(ss[i], steps[i]);
      if ss[j].min == ss[i].min { i := MinFrom(ss, steps, i); }
    }
  }

  // And it is no more than any of them.
  lemma {:induction false} MinBelow(ss: seq<State>, steps: seq<Step>, i: nat, j: nat, v: int)
    requires Run(ss, steps) && i < j < |ss| && Takes(ss[i], steps[i], v)
    requires forall m :: i < m < j ==> !steps[m].PStart?
    ensures ss[j].min.Some? && ss[j].min.value <= v
    decreases j
  {
    RunStep(ss, steps, j - 1);
    if i < j - 1 {
      MinBelow(ss, steps, i, j - 1, v);
      KeepsMin(ss[j - 1], steps[j - 1]);
    }
    MinMoves(ss[j - 1], steps[j - 1]);
  }

  lemma KeepsMin(s: State, step: Step)
    requires Shape(s) && Enabled(s, step) && !step.PStart? && s.min.Some?
    ensures Apply(s, step).min.Some?
  {
  }

  // The epoch a bypass publishes is the one before that current when the round began.
  lemma {:induction false} BestFrom(ss: seq<State>, steps: seq<Step>, j: nat) returns (i: nat)
    requires Run(ss, steps) && j < |ss| && !ss[j].pp.Rest?
    ensures i < j && steps[i].PStart? && ss[j].best == (if ss[i].cur > 0 then ss[i].cur - 1 else 0)
    ensures forall m :: i < m < j ==> !steps[m].PStart?
    decreases j
  {
    if j == 0 {
      assert false;
    } else {
      i := j - 1;
      RunStep(ss, steps, i);
      BestMoves(ss[i], steps[i]);
      if !steps[i].PStart? { i := BestFrom(ss, steps, i); }
    }
  }

  lemma BestMoves(s: State, step: Step)
    requires Shape(s) && Enabled(s, step) && !Apply(s, step).pp.Rest?
    ensures step.PStart? || (!s.pp.Rest? && Apply(s, step).best == s.best)
  {
  }

  // The system epoch is the minimum of a round, stored when the round ends.
  lemma SyncIs(ss: seq<State>, steps: seq<Step>, i: nat)
    requires Run(ss, steps) && i < |steps|
    ensures if steps[i].PFinish? then ss[i].min == Some(ss[i + 1].sync) else ss[i + 1].sync == ss[i].sync
  {
    RunStep(ss, steps, i);
  }
}
