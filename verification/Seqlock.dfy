// One tuple's header as a sequence lock: a writer's single stores interleaved
// with the single loads of any number of readers and validators.

module Seqlock {

  const MAX_TID := 0xFFFF_FFFF_FFFF_FFFF
  const WRAP := 0x800_0000      // the version number has 27 bits

  datatype Header = Header(locked: bool, deleting: bool, intent: bool, modifying: bool, latest: bool, ver: nat)

  datatype Data = Data(tid: int, size: nat, buf: seq<int>, next: int)

  // One read of the tuple.  History: `gen` and `snap` are the number of
  // version bumps and the tuple when the header was loaded.
  datatype Pc =
    | Start                                    // the tentative-insert test
    | Stable                                   // spinning for a stable header
    | Test                                     // header loaded: is the version <= t?
    | LoadTid
    | LoadSize(tid: int)
    | LoadBytes(tid: int, want: nat, got: seq<int>)
    | CheckFound(tid: int, got: seq<int>)
    | LoadNext
    | CheckNext(p: int)
    | Empty                                    // met a tentative insert
    | Found(tid: int, val: seq<int>, wrapped: bool)
    | Older(p: int, wrapped: bool)

  datatype Reader = Reader(t: int, allow: bool, pc: Pc, v: Header, gen: nat, snap: Data)

  // A validation of a read at tid t.
  datatype VPc = VStart | VLoad | VCheck(ok: bool) | VDone(valid: bool, wrapped: bool, at: Data, latest: bool)
  datatype Validator = Validator(t: int, pc: VPc, v: Header, gen: nat, snap: Data)

  datatype State = State(h: Header, d: Data, gen: nat, readers: map<int, Reader>, checks: map<int, Validator>)

  datatype Step =
    | Lock(intent: bool) | MarkModifying
    | StoreTid(t: int) | StoreSize(n: nat) | StoreByte(i: nat, b: int) | StoreNext(p: int) | MarkDeleting
    | ClearLatest | Publish(t: int) | Unlock
    | NewReader(r: int, t: int, allow: bool) | Advance(r: int)
    | NewCheck(r: int, t: int) | GiveUp(r: int) | AdvanceCheck(r: int)

  predicate Writes(step: Step) {
    step.StoreTid? || step.StoreSize? || step.StoreByte? || step.StoreNext? || step.MarkDeleting?
  }

  predicate Done(pc: Pc) { pc.Empty? || pc.Found? || pc.Older? }

  // A loaded header a reader may go on with.
  predicate StableFor(h: Header, allow: bool) { !h.modifying && (allow || !h.intent) }

  predicate Enabled(s: State, step: Step) {
    match step
    case Lock(intent) => !s.h.locked
    case MarkModifying => s.h.locked && s.h.intent && s.d.tid != MAX_TID
    case StoreTid(t) => s.h.modifying && t < MAX_TID
    case StoreSize(n) => s.h.modifying && n <= |s.d.buf|
    case StoreByte(i, b) => s.h.modifying && i < |s.d.buf|
    case StoreNext(p) => s.h.modifying
    case MarkDeleting => s.h.modifying
    case ClearLatest => s.h.locked
    case Publish(t) => s.h.locked && s.h.intent && s.d.tid == MAX_TID && t < MAX_TID
    case Unlock => s.h.locked
    case NewReader(r, t, allow) => r !in s.readers && t < MAX_TID
    case Advance(r) =>
      r in s.readers && !Done(s.readers[r].pc) && (s.readers[r].pc.Stable? ==> StableFor(s.h, s.readers[r].allow))
    case NewCheck(r, t) => r !in s.checks && t < MAX_TID
    case GiveUp(r) => r in s.checks && s.checks[r].pc.VStart? && s.h.intent
    case AdvanceCheck(r) => r in s.checks && !s.checks[r].pc.VDone? && (s.checks[r].pc.VStart? ==> !s.h.intent)
  }

  // reader_check_version: equal up to the locked, write-intent and latest bits.
  predicate SameForReader(a: Header, b: Header) {
    a.deleting == b.deleting && a.modifying == b.modifying && a.ver == b.ver
  }

  function ReadSize(v: Header, size: nat): nat { if v.deleting then 0 else size }

  function ReaderStep(s: State, x: Reader): Reader
    requires !Done(x.pc)
  {
    match x.pc
    case Start => x.(pc := if s.d.tid == MAX_TID then Empty else Stable)
    case Stable => x.(pc := Test, v := s.h, gen := s.gen, snap := s.d)
    case Test => x.(pc := if s.d.tid <= x.t then LoadTid else LoadNext)
    case LoadTid => x.(pc := LoadSize(s.d.tid))
    case LoadSize(tid) => x.(pc := LoadBytes(tid, ReadSize(x.v, s.d.size), []))
    case LoadBytes(tid, want, got) =>
      if |got| < want && |got| < |s.d.buf| then x.(pc := LoadBytes(tid, want, got + [s.d.buf[|got|]]))
      else x.(pc := CheckFound(tid, got))
    case CheckFound(tid, got) =>
      x.(pc := if SameForReader(s.h, x.v) then Found(tid, got, s.gen - x.gen >= WRAP) else Stable)
    case LoadNext => x.(pc := CheckNext(s.d.next))
    case CheckNext(p) => x.(pc := if SameForReader(s.h, x.v) then Older(p, s.gen - x.gen >= WRAP) else Stable)
  }

  // stable_is_latest_version.
  function CheckStep(s: State, x: Validator): Validator
    requires !x.pc.VDone?
  {
    match x.pc
    case VStart => x.(pc := VLoad, v := s.h, gen := s.gen, snap := s.d)
    case VLoad => x.(pc := VCheck(x.v.latest && s.d.tid <= x.t))
    case VCheck(ok) => x.(pc := VDone(ok && s.h == x.v, s.gen - x.gen >= WRAP, s.d, s.h.latest))
  }

  function DoUnlock(s: State): State {
    var bump := s.h.modifying || s.h.intent;
    s.(h := s.h.(locked := false, modifying := false, intent := false,
      ver := if bump then (s.h.ver + 1) % WRAP else s.h.ver),
       gen := if bump then s.gen + 1 else s.gen)
  }

  function Apply(s: State, step: Step): State
    requires Enabled(s, step)
  {
    match step
    case Lock(intent) => s.(h := s.h.(locked := true, intent := s.h.intent || intent))
    case MarkModifying => s.(h := s.h.(modifying := true))
    case StoreTid(t) => s.(d := s.d.(tid := t))
    case StoreSize(n) => s.(d := s.d.(size := n))
    case StoreByte(i, b) => s.(d := s.d.(buf := s.d.buf[i := b]))
    case StoreNext(p) => s.(d := s.d.(next := p))
    case MarkDeleting => s.(h := s.h.(deleting := true))
    case ClearLatest => s.(h := s.h.(latest := false))
    case Publish(t) => s.(d := s.d.(tid := t))
    case Unlock => DoUnlock(s)
    case NewReader(r, t, allow) => s.(readers := s.readers[r := Reader(t, allow, Start, s.h, s.gen, s.d)])
    case Advance(r) => s.(readers := s.readers[r := ReaderStep(s, s.readers[r])])
    case NewCheck(r, t) => s.(checks := s.checks[r := Validator(t, VStart, s.h, s.gen, s.d)])
    case GiveUp(r) => s.(checks := s.checks[r := s.checks[r].(pc := VDone(false, false, s.d, s.h.latest))])
    case AdvanceCheck(r) => s.(checks := s.checks[r := CheckStep(s, s.checks[r])])
  }

  // A tuple just created for an insert: tentative, latest, locked by its creator.
  function Initial(size: nat, buf: seq<int>, deleting: bool): State {
    State(Header(true, deleting, true, false, true, 0), Data(MAX_TID, size, buf, 0), 0, map[], map[])
  }

  ghost predicate Run(ss: seq<State>, steps: seq<Step>) {
    && |ss| == |steps| + 1
    && (exists size: nat, buf, deleting :: size <= |buf| && ss[0] == Initial(size, buf, deleting))
    && forall i {:trigger steps[i]} :: 0 <= i < |steps| ==>
      Enabled(ss[i], steps[i]) && ss[i + 1] == Apply(ss[i], steps[i])
  }

  // ---- the invariant ----

  predicate Loaded(pc: Pc) {
    pc.Test? || pc.LoadTid? || pc.LoadSize? || pc.LoadBytes? || pc.CheckFound? || pc.LoadNext? || pc.CheckNext?
  }

  // Nothing has been stored since the reader loaded the header.
  predicate Fresh(h: Header, gen: nat, x: Reader) { gen == x.gen && !h.modifying }

  // What has been read so far is part of the snapshot.
  predicate Partial(x: Reader) {
    match x.pc
    case LoadTid => x.snap.tid <= x.t
    case LoadSize(tid) => tid == x.snap.tid <= x.t
    case LoadBytes(tid, want, got) =>
      tid == x.snap.tid <= x.t && want == ReadSize(x.v, x.snap.size) && |got| <= want && got <= x.snap.buf
    case CheckFound(tid, got) =>
      tid == x.snap.tid <= x.t && |got| == ReadSize(x.v, x.snap.size) && got <= x.snap.buf
    case LoadNext => x.t < x.snap.tid
    case CheckNext(p) => x.t < x.snap.tid && p == x.snap.next
    case _ => true
  }

  // The record a reader may return.
  function RecordOf(d: Data, deleting: bool): seq<int>
    requires d.size <= |d.buf|
  {
    if deleting then [] else d.buf[..d.size]
  }

  ghost predicate ReaderInv(h: Header, d: Data, gen: nat, x: Reader) {
    && x.gen <= gen && x.snap.size <= |x.snap.buf| && |x.snap.buf| == |d.buf|
    && (!x.pc.Start? && !x.pc.Empty? ==> d.tid != MAX_TID)
    && (Loaded(x.pc) ==> x.v.ver == x.gen % WRAP && !x.v.modifying)
    && (Loaded(x.pc) && Fresh(h, gen, x) ==> d == x.snap && h.deleting == x.v.deleting && Partial(x))
    && (x.pc.Found? && !x.pc.wrapped ==> x.pc.tid == x.snap.tid <= x.t && x.pc.val == RecordOf(x.snap, x.v.deleting))
    && (x.pc.Older? && !x.pc.wrapped ==> x.t < x.snap.tid && x.pc.p == x.snap.next)
    && ((x.pc.Found? || x.pc.Older?) && x.pc.wrapped ==> gen - x.gen >= WRAP)
  }

  // A validator's header had no write intent; while none came, nothing changed.
  predicate Quiet(h: Header, gen: nat, x: Validator) { gen == x.gen && !h.intent }

  ghost predicate CheckInv(h: Header, d: Data, gen: nat, x: Validator) {
    && x.gen <= gen
    && (x.pc.VLoad? || x.pc.VCheck? ==> x.v.ver == x.gen % WRAP && !x.v.intent)
    && (x.pc.VLoad? && Quiet(h, gen, x) ==> d == x.snap)
    && (x.pc.VCheck? && Quiet(h, gen, x) ==> d == x.snap && (x.pc.ok ==> x.v.latest && x.snap.tid <= x.t))
    && (x.pc.VDone? && x.pc.valid ==> if x.pc.wrapped then gen - x.gen >= WRAP else x.pc.latest && x.pc.at.tid <= x.t)
  }

  ghost predicate Inv(s: State) {
    && s.h.ver == s.gen % WRAP && (s.h.modifying ==> s.h.locked && s.h.intent && s.d.tid != MAX_TID)
    && (s.h.intent ==> s.h.locked)
    && s.d.size <= |s.d.buf|
    && (forall r :: r in s.readers ==> ReaderInv(s.h, s.d, s.gen, s.readers[r]))
    && (forall r :: r in s.checks ==> CheckInv(s.h, s.d, s.gen, s.checks[r]))
  }

  lemma SameVersion(a: nat, b: nat)
    requires a <= b && b - a < WRAP && a % WRAP == b % WRAP
    ensures a == b
  {
  }

  // Writer steps, as one reader sees them.
  lemma WriterKeepsReader(s: State, step: Step, x: Reader)
    requires Enabled(s, step) && ReaderInv(s.h, s.d, s.gen, x) && (s.h.modifying ==> s.h.locked && s.h.intent)
    requires Writes(step) || step.Lock? || step.MarkModifying? || step.ClearLatest? || step.Publish? || step.Unlock?
    ensures var s' := Apply(s, step); ReaderInv(s'.h, s'.d, s'.gen, x)
  {
  }

  lemma WriterKeepsCheck(s: State, step: Step, x: Validator)
    requires Enabled(s, step) && CheckInv(s.h, s.d, s.gen, x) && (s.h.modifying ==> s.h.locked && s.h.intent)
    requires Writes(step) || step.Lock? || step.MarkModifying? || step.ClearLatest? || step.Publish? || step.Unlock?
    ensures var s' := Apply(s, step); CheckInv(s'.h, s'.d, s'.gen, x)
  {
  }

  lemma ReaderKeeps(s: State, x: Reader)
    requires Inv(s) && ReaderInv(s.h, s.d, s.gen, x) && !Done(x.pc) && (x.pc.Stable? ==> StableFor(s.h, x.allow))
    ensures ReaderInv(s.h, s.d, s.gen, ReaderStep(s, x))
  {
    if Loaded(x.pc) && SameForReader(s.h, x.v) && s.gen - x.gen < WRAP {
      SameVersion(x.gen, s.gen);
    }
  }

  lemma CheckKeeps(s: State, x: Validator)
    requires Inv(s) && CheckInv(s.h, s.d, s.gen, x) && !x.pc.VDone? && (x.pc.VStart? ==> !s.h.intent)
    ensures CheckInv(s.h, s.d, s.gen, CheckStep(s, x))
  {
    if x.pc.VCheck? && s.h == x.v && s.gen - x.gen < WRAP {
      SameVersion(x.gen, s.gen);
    }
  }

  lemma StepKeeps(s: State, step: Step)
    requires Inv(s) && Enabled(s, step)
    ensures Inv(Apply(s, step))
  {
    var s' := Apply(s, step);
    if Writes(step) || step.Lock? || step.MarkModifying? || step.ClearLatest? || step.Publish? || step.Unlock? {
      forall r | r in s.readers
        ensures ReaderInv(s'.h, s'.d, s'.gen, s.readers[r])
      {
        WriterKeepsReader(s, step, s.readers[r]);
      }
      forall r | r in s.checks
        ensures CheckInv(s'.h, s'.d, s'.gen, s.checks[r])
      {
        WriterKeepsCheck(s, step, s.checks[r]);
      }
    } else if step.Advance? {
      ReaderKeeps(s, s.readers[step.r]);
    } else if step.AdvanceCheck? {
      CheckKeeps(s, s.checks[step.r]);
    }
  }

  lemma {:induction false} RunInv(ss: seq<State>, steps: seq<Step>, i: nat)
    requires Run(ss, steps) && i < |ss|
    ensures Inv(ss[i])
    decreases i
  {
    if i == 0 {
    } else {
      RunInv(ss, steps, i - 1);
      assert ss[i - 1 + 1] == Apply(ss[i - 1], steps[i - 1]);
      StepKeeps(ss[i - 1], steps[i - 1]);
    }
  }

  // ---- what a reader and a validator were asked ----

  // How many unlocks there are among the steps from a on and before b.
  function Unlocks(steps: seq<Step>, a: nat, b: nat): nat
    requires a <= b <= |steps|
  {
    if a == b then 0 else Unlocks(steps, a, b - 1) + if steps[b - 1].Unlock? then 1 else 0
  }

  lemma {:induction false} GenGrows(ss: seq<State>, steps: seq<Step>, a: nat, b: nat)
    requires Run(ss, steps) && a <= b <= |steps|
    ensures ss[a].gen <= ss[b].gen <= ss[a].gen + Unlocks(steps, a, b)
    decreases b
  {
    if a < b {
      GenGrows(ss, steps, a, b - 1);
      assert ss[b - 1 + 1] == Apply(ss[b - 1], steps[b - 1]);
    }
  }

  lemma {:induction false} FewerUnlocks(steps: seq<Step>, a: nat, c: nat, b: nat)
    requires a <= c <= b <= |steps|
    ensures Unlocks(steps, c, b) <= Unlocks(steps, a, b)
    decreases b
  {
    if c < b {
      FewerUnlocks(steps, a, c, b - 1);
    } else {
    }
  }

  // Reader r was started in step a, to read at t.
  ghost predicate Asked(ss: seq<State>, steps: seq<Step>, a: nat, i: nat, r: int, t: int, allow: bool) {
    Run(ss, steps) && a < i < |ss| && steps[a] == NewReader(r, t, allow)
  }

  lemma {:induction false} AskedKeeps(ss: seq<State>, steps: seq<Step>, a: nat, i: nat, r: int, t: int, allow: bool)
    requires Asked(ss, steps, a, i, r, t, allow)
    ensures r in ss[i].readers && ss[i].readers[r].t == t && ss[i].readers[r].allow == allow
    ensures forall j :: 0 <= j <= a ==> r !in ss[j].readers
    decreases i
  {
    assert ss[i - 1 + 1] == Apply(ss[i - 1], steps[i - 1]);
    if a + 1 < i {
      AskedKeeps(ss, steps, a, i - 1, r, t, allow);
    } else {
      forall j | 0 <= j <= a ensures r !in ss[j].readers { NotYet(ss, steps, j, a, r); }
    }
  }

  lemma {:induction false} NotYet(ss: seq<State>, steps: seq<Step>, j: nat, a: nat, r: int)
    requires Run(ss, steps) && j <= a < |ss| && r !in ss[a].readers
    ensures r !in ss[j].readers
    decreases a
  {
    if j < a {
      assert ss[a - 1 + 1] == Apply(ss[a - 1], steps[a - 1]);
      NotYet(ss, steps, j, a - 1, r);
    }
  }

  // ---- theorems ----

  // The reader loaded its header in state j, when no store was under way.
  ghost predicate LoadedAt(ss: seq<State>, steps: seq<Step>, j: nat, r: int, x: Reader) {
    && j < |ss| && j < |steps| && steps[j] == Advance(r) && x.gen == ss[j].gen && StableFor(ss[j].h, x.allow)
    && x.snap == ss[j].d && x.v == ss[j].h && !ss[j].h.modifying && ss[j].d.size <= |ss[j].d.buf|
  }

  lemma {:induction false} SnapshotInstant(ss: seq<State>, steps: seq<Step>, i: nat, r: int) returns (j: nat)
    requires Run(ss, steps) && i < |ss| && r in ss[i].readers
    requires var pc := ss[i].readers[r].pc; Loaded(pc) || pc.Found? || pc.Older?
    ensures j < i && LoadedAt(ss, steps, j, r, ss[i].readers[r])
    decreases i
  {
    if i == 0 {
      assert false;
    } else {
      RunInv(ss, steps, i - 1);
      assert ss[i - 1 + 1] == Apply(ss[i - 1], steps[i - 1]);
      if steps[i - 1] == Advance(r) && ss[i - 1].readers[r].pc.Stable? {
        j := i - 1;
      } else {
        j := SnapshotInstant(ss, steps, i - 1, r);
      }
    }
  }

  lemma {:induction false} EmptyInstant(ss: seq<State>, steps: seq<Step>, i: nat, r: int) returns (j: nat)
    requires Run(ss, steps) && i < |ss| && r in ss[i].readers && ss[i].readers[r].pc.Empty?
    ensures j < i && steps[j] == Advance(r) && r in ss[j].readers && ss[j].d.tid == MAX_TID
    decreases i
  {
    if i == 0 {
      assert false;
    } else {
      assert ss[i - 1 + 1] == Apply(ss[i - 1], steps[i - 1]);
      if steps[i - 1] == Advance(r) { j := i - 1; } else { j := EmptyInstant(ss, steps, i - 1, r); }
    }
  }

  // What the tuple held in state j, complete, answers a reader at t.
  ghost predicate Answers(s: State, t: int, allow: bool, pc: Pc) {
    match pc
    case Empty => s.d.tid == MAX_TID
    case Found(tid, val, _) =>
      && !s.h.modifying && (allow || !s.h.intent) && s.d.size <= |s.d.buf|
      && tid == s.d.tid <= t && val == (if s.h.deleting then [] else s.d.buf[..s.d.size])
    case Older(p, _) => !s.h.modifying && (allow || !s.h.intent) && t < s.d.tid && p == s.d.next
    case _ => false
  }

  // No torn reads: the answer to a reader at t is what the tuple held, complete,
  // at one instant during the read.  A tentative insert reads as absent; a
  // record that is not after t is returned with its id; a newer one sends the
  // reader to the next tuple.
  lemma NoTornRead(ss: seq<State>, steps: seq<Step>, a: nat, i: nat, r: int, t: int, allow: bool) returns (j: nat)
    requires Asked(ss, steps, a, i, r, t, allow) && Unlocks(steps, a, i) < WRAP
    requires r in ss[i].readers && Done(ss[i].readers[r].pc)
    ensures a < j < i && steps[j] == Advance(r) && Answers(ss[j], t, allow, ss[i].readers[r].pc)
  {
    RunInv(ss, steps, i);
    AskedKeeps(ss, steps, a, i, r, t, allow);
    var x := ss[i].readers[r];
    if x.pc.Empty? {
      j := EmptyInstant(ss, steps, i, r);
    } else {
      j := SnapshotInstant(ss, steps, i, r);
      assert Enabled(ss[j], steps[j]);
      GenGrows(ss, steps, j, i);
      FewerUnlocks(steps, a, j, i);
      assert ReaderInv(ss[i].h, ss[i].d, ss[i].gen, x);
    }
  }

  // Validation r was started in step a, for a read at id t.
  ghost predicate Checked(ss: seq<State>, steps: seq<Step>, a: nat, i: nat, r: int, t: int) {
    Run(ss, steps) && a < i < |ss| && steps[a] == NewCheck(r, t)
  }

  lemma {:induction false} CheckedKeeps(ss: seq<State>, steps: seq<Step>, a: nat, i: nat, r: int, t: int)
    requires Checked(ss, steps, a, i, r, t)
    ensures r in ss[i].checks && ss[i].checks[r].t == t && ss[a].gen <= ss[i].checks[r].gen
    decreases i
  {
    assert ss[i - 1 + 1] == Apply(ss[i - 1], steps[i - 1]);
    if a + 1 < i {
      CheckedKeeps(ss, steps, a, i - 1, r, t);
      GenGrows(ss, steps, a, i - 1);
    }
  }

  // The instant of the last load of a validation that has ended.
  lemma {:induction false} LastLoad(ss: seq<State>, steps: seq<Step>, a: nat, i: nat, r: int, t: int) returns (j: nat)
    requires Checked(ss, steps, a, i, r, t) && r in ss[i].checks && ss[i].checks[r].pc.VDone?
    ensures a < j < i && r in ss[j].checks && !ss[j].checks[r].pc.VDone?
    ensures steps[j] == GiveUp(r) || steps[j] == AdvanceCheck(r)
    ensures ss[j + 1].checks[r] == ss[i].checks[r]
    decreases i
  {
    assert ss[i - 1 + 1] == Apply(ss[i - 1], steps[i - 1]);
    if a + 1 == i {
      assert false;
    } else {
      CheckedKeeps(ss, steps, a, i - 1, r, t);
      if ss[i - 1].checks[r].pc.VDone? { j := LastLoad(ss, steps, a, i - 1, r, t); } else { j := i - 1; }
    }
  }

  // A validation that succeeds holds, all at once, at the instant of its last
  // load: the latest flag is set, the id is not after t, and nobody holds the
  // lock with write intent.  The cleaner, which locks without, may hold it.
  lemma ValidationIsAtomic(ss: seq<State>, steps: seq<Step>, a: nat, i: nat, r: int, t: int) returns (j: nat)
    requires Checked(ss, steps, a, i, r, t) && Unlocks(steps, a, i) < WRAP
    requires r in ss[i].checks && ss[i].checks[r].pc.VDone? && ss[i].checks[r].pc.valid
    ensures a < j < i && ss[j].h.latest && !ss[j].h.intent && ss[j].d.tid <= t
  {
    j := LastLoad(ss, steps, a, i, r, t);
    RunInv(ss, steps, j);
    CheckedKeeps(ss, steps, a, j, r, t);
    GenGrows(ss, steps, a, j);
    MoreUnlocks(steps, a, j, i);
    assert ss[j + 1] == Apply(ss[j], steps[j]) && Enabled(ss[j], steps[j]);
    assert CheckInv(ss[j].h, ss[j].d, ss[j].gen, ss[j].checks[r]);
    if ss[j].gen - ss[j].checks[r].gen < WRAP { SameVersion(ss[j].checks[r].gen, ss[j].gen); }
  }

  lemma {:induction false} MoreUnlocks(steps: seq<Step>, a: nat, c: nat, b: nat)
    requires a <= c <= b <= |steps|
    ensures Unlocks(steps, a, c) <= Unlocks(steps, a, b)
    decreases b
  {
    if c < b { MoreUnlocks(steps, a, c, b - 1); }
  }

  // When a validation has loaded, its header and its test are those of earlier instants.
  ghost predicate Loads(ss: seq<State>, a: nat, i: nat, x: Validator, j: nat, k: nat) {
    && a < j <= k < i <= |ss| && x.v == ss[j].h
    && (x.pc.VCheck? ==> (x.pc.ok <==> ss[j].h.latest && ss[k].d.tid <= x.t))
  }

  lemma {:induction false} CheckLoads(ss: seq<State>, steps: seq<Step>, a: nat, i: nat, r: int, t: int)
    returns (j: nat, k: nat)
    requires Checked(ss, steps, a, i, r, t) && r in ss[i].checks
    requires ss[i].checks[r].pc.VLoad? || ss[i].checks[r].pc.VCheck?
    ensures Loads(ss, a, i, ss[i].checks[r], j, k)
    decreases i
  {
    assert ss[i - 1 + 1] == Apply(ss[i - 1], steps[i - 1]);
    if a + 1 == i {
      assert false;
    } else {
      CheckedKeeps(ss, steps, a, i - 1, r, t);
      if steps[i - 1] == AdvanceCheck(r) {
        if ss[i - 1].checks[r].pc.VStart? {
          j, k := i - 1, i - 1;
        } else {
          j, k := CheckLoads(ss, steps, a, i - 1, r, t);
          k := i - 1;
        }
      } else {
        j, k := CheckLoads(ss, steps, a, i - 1, r, t);
      }
    }
  }

  // A validation fails only for a reason seen while it was under way: write
  // intent, the latest flag clear, an id after t, or a header that changed.
  lemma ValidationFails(ss: seq<State>, steps: seq<Step>, a: nat, i: nat, r: int, t: int) returns (j: nat, k: nat)
    requires Checked(ss, steps, a, i, r, t)
    requires r in ss[i].checks && ss[i].checks[r].pc.VDone? && !ss[i].checks[r].pc.valid
    ensures a < j <= k < i && (ss[j].h.intent || !ss[j].h.latest || t < ss[k].d.tid || ss[j].h != ss[k].h)
  {
    var m := LastLoad(ss, steps, a, i, r, t);
    assert ss[m + 1] == Apply(ss[m], steps[m]) && Enabled(ss[m], steps[m]);
    CheckedKeeps(ss, steps, a, m, r, t);
    if steps[m] == GiveUp(r) {
      j, k := m, m;
    } else {
      j, k := CheckLoads(ss, steps, a, m, r, t);
      if ss[m].checks[r].pc.ok { k := m; }
    }
  }

  // ---- after a full wrap of the version number ----

  // Every state so far with id 1 holds the value [5].
  ghost predicate OneIsFive(ss: seq<State>) { forall j :: 0 <= j < |ss| && ss[j].d.tid == 1 ==> ss[j].d.buf == [5] }

  function End(ss: seq<State>): State
    requires ss != []
  {
    ss[|ss| - 1]
  }

  lemma Extend(ss: seq<State>, steps: seq<Step>, step: Step) returns (ss': seq<State>, steps': seq<Step>)
    requires Run(ss, steps) && OneIsFive(ss) && Enabled(End(ss), step)
    requires Apply(End(ss), step).d.tid == 1 ==> Apply(End(ss), step).d.buf == [5]
    ensures Run(ss', steps') && OneIsFive(ss') && End(ss') == Apply(End(ss), step)
  {
    ss', steps' := ss + [Apply(End(ss), step)], steps + [step];
    assert ss'[0] == ss[0];
    forall i | 0 <= i < |steps'| ensures Enabled(ss'[i], steps'[i]) && ss'[i + 1] == Apply(ss'[i], steps'[i]) {
      if i < |steps| { assert steps'[i] == steps[i] && ss'[i] == ss[i] && ss'[i + 1] == ss[i + 1]; }
    }
  }

  // A header n lock cycles later.
  function Spun(s: State, n: nat): State { s.(h := s.h.(ver := (s.gen + n) % WRAP), gen := s.gen + n) }

  lemma {:induction false} Spin(ss: seq<State>, steps: seq<Step>, n: nat) returns (ss': seq<State>, steps': seq<Step>)
    requires Run(ss, steps) && OneIsFive(ss)
    requires var s := End(ss); !s.h.locked && !s.h.intent && !s.h.modifying && s.h.ver == s.gen % WRAP
    ensures Run(ss', steps') && OneIsFive(ss') && End(ss') == Spun(End(ss), n)
    decreases n
  {
    if n == 0 {
      ss', steps' := ss, steps;
    } else {
      ss', steps' := Spin(ss, steps, n - 1);
      ss', steps' := Extend(ss', steps', Lock(true));
      ss', steps' := Extend(ss', steps', Unlock);
    }
  }

  lemma FreshRead() returns (ss: seq<State>, steps: seq<Step>)
    ensures Run(ss, steps) && OneIsFive(ss)
    ensures End(ss).h == Header(false, false, false, false, true, 1) && End(ss).d == Data(1, 1, [5], 0)
    ensures End(ss).gen == 1
    ensures 0 in End(ss).readers && End(ss).readers[0] == Reader(10, false, Start, End(ss).h, 1, End(ss).d)
  {
    ss, steps := [Initial(1, [5], false)], [];
    ss, steps := Extend(ss, steps, Publish(1));
    ss, steps := Extend(ss, steps, Unlock);
    ss, steps := Extend(ss, steps, NewReader(0, 10, false));
  }

  // A reader up to the load of its id, with the header at generation 1.
  lemma HalfRead() returns (ss: seq<State>, steps: seq<Step>)
    ensures Run(ss, steps) && OneIsFive(ss)
    ensures End(ss).h == Header(false, false, false, false, true, 1) && End(ss).d == Data(1, 1, [5], 0)
    ensures End(ss).gen == 1
    ensures 0 in End(ss).readers
      && End(ss).readers[0] == Reader(10, false, LoadSize(1), Header(false, false, false, false, true, 1), 1,
        Data(1, 1, [5], 0))
  {
    ss, steps := FreshRead();
    ss, steps := Extend(ss, steps, Advance(0));
    ss, steps := Extend(ss, steps, Advance(0));
    ss, steps := Extend(ss, steps, Advance(0));
    ss, steps := Extend(ss, steps, Advance(0));
  }

  lemma WriteSix(ss: seq<State>, steps: seq<Step>) returns (ss': seq<State>, steps': seq<Step>)
    requires Run(ss, steps) && OneIsFive(ss) && End(ss).d == Data(1, 1, [5], 0)
    requires End(ss).h == Header(false, false, false, false, true, End(ss).gen % WRAP)
    ensures Run(ss', steps') && OneIsFive(ss') && End(ss').gen == End(ss).gen + 1 && End(ss').readers == End(ss).readers
    ensures End(ss').d == Data(2, 1, [6], 0)
    ensures End(ss').h == Header(false, false, false, false, true, (End(ss).gen + 1) % WRAP)
  {
    ss', steps' := Extend(ss, steps, Lock(true));
    ss', steps' := Extend(ss', steps', MarkModifying);
    ss', steps' := Extend(ss', steps', StoreTid(2));
    ss', steps' := Extend(ss', steps', StoreByte(0, 6));
    ss', steps' := Extend(ss', steps', Unlock);
  }

  // With a full wrap of the version number during one read, the read can
  // return an id and a value that the tuple never held together.
  lemma TornAfterWrap() returns (ss: seq<State>, steps: seq<Step>)
    ensures Run(ss, steps) && 0 in End(ss).readers && End(ss).readers[0].pc == Found(1, [6], true)
    ensures forall j :: 0 <= j < |ss| && ss[j].d.tid == 1 ==> ss[j].d.buf == [5]
  {
    ss, steps := HalfRead();
    ss, steps := Spin(ss, steps, WRAP - 1);
    ss, steps := WriteSix(ss, steps);
    ss, steps := Extend(ss, steps, Advance(0));
    ss, steps := Extend(ss, steps, Advance(0));
    ss, steps := Extend(ss, steps, Advance(0));
    ss, steps := Extend(ss, steps, Advance(0));
  }
}
