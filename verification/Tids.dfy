// Transaction ids: core, number and epoch packed into one integer, and the
// coarser read-only epochs that snapshots are taken at.

module Tids {
  // [ core 0..9 | number 9..33 | epoch 33.. ]
  const CORES := 512
  const NUMBERS := 0x100_0000
  const EPOCH_UNIT := 0x2_0000_0000
  const RO_MULT := 25

  function MakeTid(core: int, num: int, epoch: int): int { core + num * CORES + epoch * EPOCH_UNIT }

  function CoreOf(t: int): int { t % CORES }
  function NumOf(t: int): int { t % EPOCH_UNIT / CORES }
  function Epoch(t: int): int { t / EPOCH_UNIT }

  // The read-only epoch of a tick, and of a transaction.
  function Ro(e: int): int { e / RO_MULT }
  function RoTick(t: int): int { Ro(Epoch(t)) }

  // The largest id a snapshot taken at exclusive tick g may read.
  function ComputeReadOnlyTid(g: nat): int {
    var b := g / RO_MULT * RO_MULT;
    if b == 0 then MakeTid(0, 0, 0) else MakeTid(CORES - 1, NUMBERS - 1, b - 1)
  }

  // prev is overwritten in place by cur only if no snapshot can tell them apart.
  predicate CanOverwrite(prev: int, cur: int) { RoTick(prev) == RoTick(cur) || prev == 0 }

  predicate Fits(core: int, num: int) { 0 <= core < CORES && 0 <= num < NUMBERS }

  lemma Unpack(core: int, num: int, epoch: int)
    requires Fits(core, num)
    ensures var t := MakeTid(core, num, epoch); CoreOf(t) == core && NumOf(t) == num && Epoch(t) == epoch
  {
    var t := MakeTid(core, num, epoch);
    assert t == (core + num * CORES) + epoch * EPOCH_UNIT;
    assert CORES * NUMBERS == EPOCH_UNIT;
    assert 0 <= core + num * CORES < EPOCH_UNIT;
    assert t == core + (num + epoch * NUMBERS) * CORES;
  }

  lemma Repack(t: int)
    ensures Fits(CoreOf(t), NumOf(t)) && MakeTid(CoreOf(t), NumOf(t), Epoch(t)) == t
  {
    var low := t % EPOCH_UNIT;
    assert t == low + Epoch(t) * EPOCH_UNIT;
    assert low == low % CORES + low / CORES * CORES;
    assert low % CORES == t % CORES by { assert t == low + (Epoch(t) * NUMBERS) * CORES; }
  }

  // Ids compare by epoch first, then number, then core.
  lemma TidOrder(t: int, u: int)
    ensures t < u <==> (
      || Epoch(t) < Epoch(u)
      || (Epoch(t) == Epoch(u) && NumOf(t) < NumOf(u))
      || (Epoch(t) == Epoch(u) && NumOf(t) == NumOf(u) && CoreOf(t) < CoreOf(u)))
  {
    Repack(t);
    Repack(u);
  }

  // A snapshot reads exactly the ids of earlier read-only epochs.
  lemma ReadOnlyTid(g: nat, t: int)
    requires 0 < t
    ensures t <= ComputeReadOnlyTid(g) <==> RoTick(t) < g / RO_MULT
  {
    var b := g / RO_MULT * RO_MULT;
    if b > 0 {
      Unpack(CORES - 1, NUMBERS - 1, b - 1);
      Repack(t);
      TidOrder(ComputeReadOnlyTid(g), t);
    }
  }

  // Two versions may share a record exactly when every snapshot that reads
  // one reads the other, unless the older one is the initial absent record.
  lemma OverwriteHidden(prev: int, cur: int)
    requires 0 <= prev <= cur
    ensures CanOverwrite(prev, cur) <==>
      prev == 0 || forall g: nat :: prev <= ComputeReadOnlyTid(g) <==> cur <= ComputeReadOnlyTid(g)
  {
    if prev == 0 {
    } else if CanOverwrite(prev, cur) {
      forall g: nat ensures prev <= ComputeReadOnlyTid(g) <==> cur <= ComputeReadOnlyTid(g) {
        ReadOnlyTid(g, prev);
        ReadOnlyTid(g, cur);
      }
    } else {
      var g := RoTick(cur) * RO_MULT;
      assert RoTick(prev) < RoTick(cur) by { TidOrder(prev, cur); }
      ReadOnlyTid(g, prev);
      ReadOnlyTid(g, cur);
      assert prev <= ComputeReadOnlyTid(g) && !(cur <= ComputeReadOnlyTid(g));
    }
  }

  // One write of a committing transaction: `tid` is None while the tuple is
  // still an uncommitted marker.
  datatype Overwrite = Overwrite(insert: bool, marker: bool, tid: int)

  predicate Counts(w: Overwrite) { !w.insert && !w.marker }

  // No id in the way carries a later epoch.
  predicate NotLater(t: int, epoch: int) { 0 <= t && Epoch(t) <= epoch }

  // The fields are or-ed together: a number one too large sets the lowest bit of the epoch.
  function OrTid(core: int, num: int, epoch: int): int
    requires 0 <= core < CORES && 0 <= num <= NUMBERS
  {
    if num < NUMBERS then MakeTid(core, num, epoch) else MakeTid(core, 0, epoch + 1 - epoch % 2)
  }

  // The next number after t on this core beats t.
  lemma NextTid(t: int, core: int)
    requires 0 <= core < CORES && NumOf(t) < NUMBERS - 1
    ensures var n := MakeTid(core, NumOf(t) + 1, Epoch(t));
      t < n && CoreOf(n) == core && NumOf(n) == NumOf(t) + 1 && Epoch(n) == Epoch(t)
  {
    Repack(t);
    Unpack(core, NumOf(t) + 1, Epoch(t));
  }

  // An id the transaction has to beat.
  ghost predicate InTheWay(last: int, seen: seq<int>, writes: seq<Overwrite>, t: int) {
    t == last || t in seen || exists w :: w in writes && Counts(w) && w.tid == t
  }

  // An id of the current epoch has used up the numbers.
  ghost predicate UsedUp(last: int, seen: seq<int>, writes: seq<Overwrite>, epoch: int) {
    exists t :: InTheWay(last, seen, writes, t) && Epoch(t) == epoch && NumOf(t) == NUMBERS - 1
  }

  // The id after the largest one in the way is as wanted, unless numbers are used up.
  lemma NextTidExact(ret: int, core: int, t: int)
    requires 0 <= core < CORES && t <= ret
    ensures var n := OrTid(core, NumOf(ret) + 1, Epoch(ret));
      && CoreOf(n) == core
      && (NumOf(ret) < NUMBERS - 1 ==> t < n && NumOf(n) == NumOf(ret) + 1 && Epoch(n) == Epoch(ret))
      && (NumOf(ret) == NUMBERS - 1 ==> NumOf(n) == 0 && Epoch(n) == Epoch(ret) + 1 - Epoch(ret) % 2)
      && (NumOf(ret) == NUMBERS - 1 && Epoch(n) == Epoch(ret) ==> n < ret)
      && (Epoch(t) == Epoch(ret) ==> NumOf(t) <= NumOf(ret))
  {
    Repack(ret);
    if NumOf(ret) < NUMBERS - 1 {
      NextTid(ret, core);
    } else {
      Unpack(core, 0, Epoch(ret) + 1 - Epoch(ret) % 2);
      TidOrder(OrTid(core, NumOf(ret) + 1, Epoch(ret)), ret);
    }
    TidOrder(ret, t);
  }

  class ThreadContext {
    var lastCommitTid: int

    constructor ()
      ensures lastCommitTid == 0
    {
      lastCommitTid := 0;
    }

    method GenCommitTid(core: int, epoch: int, seen: seq<int>, writes: seq<Overwrite>) returns (tid: int)
      requires 0 <= core < CORES && 0 < epoch
      requires lastCommitTid == 0 || CoreOf(lastCommitTid) == core
      requires NotLater(lastCommitTid, epoch)
      requires forall i :: 0 <= i < |seen| ==> NotLater(seen[i], epoch)
      requires forall i :: 0 <= i < |writes| && Counts(writes[i]) ==> NotLater(writes[i].tid, epoch)
      modifies this
      ensures lastCommitTid == tid && CoreOf(tid) == core
      // it has the epoch and beats everything in its way exactly if numbers are not used up
      ensures Epoch(tid) == epoch && (forall t :: InTheWay(old(lastCommitTid), seen, writes, t) ==> t < tid)
        <==> !UsedUp(old(lastCommitTid), seen, writes, epoch)
      // and its number is then the first that does
      ensures UsedUp(old(lastCommitTid), seen, writes, epoch) || NumOf(tid) == 1
        || exists t :: InTheWay(old(lastCommitTid), seen, writes, t) && Epoch(t) == epoch && NumOf(t) == NumOf(tid) - 1
    {
      var last := lastCommitTid;
      var ret := last;
      if epoch != Epoch(ret) {
        ret := MakeTid(0, 0, epoch);
        Unpack(0, 0, epoch);
        TidOrder(last, ret);
      }
      for i := 0 to |seen|
        invariant last <= ret && 0 <= ret && Epoch(ret) == epoch
        invariant forall j :: 0 <= j < i ==> seen[j] <= ret
        invariant NumOf(ret) == 0 || InTheWay(last, seen, writes, ret)
      {
        if seen[i] > ret {
          TidOrder(ret, seen[i]);
          ret := seen[i];
        }
      }
      for i := 0 to |writes|
        invariant last <= ret && 0 <= ret && Epoch(ret) == epoch
        invariant forall j :: 0 <= j < |seen| ==> seen[j] <= ret
        invariant forall j :: 0 <= j < i && Counts(writes[j]) ==> writes[j].tid <= ret
        invariant NumOf(ret) == 0 || InTheWay(last, seen, writes, ret)
      {
        if writes[i].insert { continue; }
        if !writes[i].marker && writes[i].tid > ret {
          assert writes[i] in writes && Counts(writes[i]);
          TidOrder(ret, writes[i].tid);
          ret := writes[i].tid;
        }
      }
      Repack(ret);
      tid := OrTid(core, NumOf(ret) + 1, epoch);
      AllBelow(last, seen, writes, ret);
      NextTidExact(ret, core, ret);
      forall t | InTheWay(last, seen, writes, t)
        ensures t <= ret && (NumOf(ret) < NUMBERS - 1 ==> t < tid) && (Epoch(t) == epoch ==> NumOf(t) <= NumOf(ret))
      {
        NextTidExact(ret, core, t);
      }
      lastCommitTid := tid;
    }
  }

  lemma AllBelow(last: int, seen: seq<int>, writes: seq<Overwrite>, ret: int)
    requires last <= ret && (forall j :: 0 <= j < |seen| ==> seen[j] <= ret)
    requires forall j :: 0 <= j < |writes| && Counts(writes[j]) ==> writes[j].tid <= ret
    ensures forall t :: InTheWay(last, seen, writes, t) ==> t <= ret
  {
    forall t | InTheWay(last, seen, writes, t) ensures t <= ret {
      if w :| w in writes && Counts(w) && w.tid == t {
        var j :| 0 <= j < |writes| && writes[j] == w;
      }
    }
  }
}
