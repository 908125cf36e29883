// A tuple and its chain of older versions: the four ways to write the latest
// record and the walk that reads at a given transaction id.

module Tuples {
  import opened Basics
  import opened Tids

  type Bytes = seq<int>

  // A record as a reader gets it; None is a deleted record.
  datatype Rec = Rec(tid: int, val: Option<Bytes>)

  const MIN_TID := 0

  // Newest first: what a chain reads as at id t.
  function ReadAt(c: seq<Rec>, t: int): Rec {
    if c == [] then Rec(MIN_TID, None)
    else if c[0].tid <= t then c[0]
    else ReadAt(c[1..], t)
  }

  ghost predicate NonIncreasing(c: seq<Rec>) { forall i, j :: 0 <= i < j < |c| ==> c[j].tid <= c[i].tid }

  // The chain after a write: the old head is lost only if it is a live record
  // of the same read-only epoch and the new one fits over it.
  function Written(c: seq<Rec>, r: Rec, fits: bool): seq<Rec>
    requires c != []
  {
    if CanOverwrite(c[0].tid, r.tid) && c[0].val.Some? && fits then [r] + c[1..] else [r] + c
  }

  // Chain refinement: a snapshot reads the new record if it is old enough and
  // otherwise what it read before, whichever way the record was written.
  lemma WrittenRefines(c: seq<Rec>, r: Rec, fits: bool, g: nat)
    requires c != [] && 0 < c[0].tid <= r.tid
    ensures ReadAt(Written(c, r, fits), ComputeReadOnlyTid(g)) ==
      if r.tid <= ComputeReadOnlyTid(g) then r else ReadAt(c, ComputeReadOnlyTid(g))
  {
    assert ([r] + c)[1..] == c && ([r] + c[1..])[1..] == c[1..];
    OverwriteHidden(c[0].tid, r.tid);
  }

  // At an arbitrary id the write is invisible to older readers unless it
  // overwrote in place a record that they could still tell from the rest.
  lemma WrittenExact(c: seq<Rec>, r: Rec, fits: bool, t: int)
    requires c != [] && c[0].tid <= r.tid
    ensures ReadAt(Written(c, r, fits), t) == (if r.tid <= t then r else ReadAt(c, t)) <==>
      !(CanOverwrite(c[0].tid, r.tid) && c[0].val.Some? && fits && c[0].tid <= t < r.tid && ReadAt(c[1..], t) != c[0])
  {
    assert ([r] + c)[1..] == c && ([r] + c[1..])[1..] == c[1..];
  }

  lemma WrittenOrdered(c: seq<Rec>, r: Rec, fits: bool)
    requires c != [] && NonIncreasing(c) && c[0].tid <= r.tid
    ensures NonIncreasing(Written(c, r, fits)) && Written(c, r, fits)[0] == r
  {
  }

  // On an ordered chain the walk finds the newest record at or below t.
  lemma {:induction false} ReadIsNewest(c: seq<Rec>, t: int, i: nat)
    requires NonIncreasing(c) && i < |c| && c[i].tid <= t
    ensures ReadAt(c, t) in c && c[i].tid <= ReadAt(c, t).tid <= t
  {
    if c[0].tid > t { ReadIsNewest(c[1..], t, i - 1); }
  }

  // Where no record is at or below t there is nothing to read.
  lemma {:induction false} ReadAbsent(c: seq<Rec>, t: int)
    requires forall i :: 0 <= i < |c| ==> t < c[i].tid
    ensures ReadAt(c, t) == Rec(MIN_TID, None)
  {
    if c != [] { ReadAbsent(c[1..], t); }
  }

  // The answer at t by the chain alone: its first record that is not after t,
  // or the absent record if all are.
  ghost predicate FirstUpTo(c: seq<Rec>, t: int, r: Rec) {
    if exists i :: 0 <= i < |c| && c[i].tid <= t
    then exists i :: 0 <= i < |c| && c[i].tid <= t && r == c[i] && forall j :: 0 <= j < i ==> t < c[j].tid
    else r.tid == 0 && r.val == None
  }

  lemma {:induction false} ReadIsFirst(c: seq<Rec>, t: int)
    ensures FirstUpTo(c, t, ReadAt(c, t))
  {
    if c == [] {
    } else if c[0].tid <= t {
      assert ReadAt(c, t) == c[0];
    } else {
      var d := c[1..];
      ReadIsFirst(d, t);
      if i :| 0 <= i < |c| && c[i].tid <= t {
        assert d[i - 1] == c[i];
        var k :| 0 <= k < |d| && d[k].tid <= t && ReadAt(d, t) == d[k] && forall j :: 0 <= j < k ==> t < d[j].tid;
        assert c[k + 1] == d[k];
        forall j | 0 <= j < k + 1 ensures t < c[j].tid { if j > 0 { assert c[j] == d[j - 1]; } }
      } else {
        forall i | 0 <= i < |d| ensures t < d[i].tid { assert d[i] == c[i + 1]; }
      }
    }
  }

  class DbTuple {
    var version: int
    var marker: bool            // version is MAX_TID: an uncommitted insert
    var deleting: bool
    var latest: bool
    var size: nat
    var buf: Bytes              // the allocated value bytes
    var next: DbTuple?
    ghost var chain: seq<Rec>
    ghost var Repr: set<DbTuple>

    function Current(): Rec
      requires size <= |buf|
      reads this
    {
      Rec(version, if deleting then None else Some(buf[..size]))
    }

    ghost predicate Valid()
      reads this, Repr
    {
      && this in Repr && size <= |buf| && (deleting || size > 0)
      && (next != null ==> next in Repr && this !in next.Repr && next.Repr < Repr && next.Valid())
      && chain == [Current()] + if next == null then [] else next.chain
    }

    // An uncommitted insert, locked by its creator.
    constructor AllocFirst(value: Option<Bytes>, slack: nat)
      requires value != Some([])
      ensures Valid() && fresh(Repr) && marker && latest && chain == [Rec(version, value)]
    {
      version := 0;
      marker := true;
      latest := true;
      deleting := value.None?;
      size := if value.None? then 0 else |value.value|;
      buf := (if value.None? then [] else value.value) + seq(slack, _ => 0);
      next := null;
      new;
      chain := [Current()];
      Repr := {this};
      assert value.Some? ==> buf[..size] == value.value;
    }

    // A copy of base that takes over its place in the chain.
    constructor AllocSpill(base: DbTuple, slack: nat)
      requires base.Valid()
      ensures !latest && !marker && version == base.version && deleting == base.deleting && size == base.size
      ensures next == base.next
      ensures size <= |buf| && buf[..size] == base.buf[..base.size]
      ensures Repr == {this} + (if next == null then {} else next.Repr) && chain == base.chain && Valid()
      ensures fresh(this)
    {
      version := base.version;
      marker := false;
      latest := false;
      deleting := base.deleting;
      size := base.size;
      buf := base.buf[..base.size] + seq(slack, _ => 0);
      next := base.next;
      chain := base.chain;
      new;
      Repr := {this} + (if next == null then {} else next.Repr);
      assert buf[..size] == base.buf[..base.size];
    }

    // A replacement head in front of the whole chain.
    constructor AllocHead(t: int, value: Option<Bytes>, behind: DbTuple, slack: nat)
      requires behind.Valid() && value != Some([])
      ensures latest && !marker && next == behind && Repr == {this} + behind.Repr && fresh(this)
      ensures Valid() && chain == [Rec(t, value)] + behind.chain
    {
      version := t;
      marker := false;
      latest := true;
      deleting := value.None?;
      size := if value.None? then 0 else |value.value|;
      buf := (if value.None? then [] else value.value) + seq(slack, _ => 0);
      next := behind;
      new;
      Repr := {this} + behind.Repr;
      chain := [Current()] + behind.chain;
      assert value.Some? ==> buf[..size] == value.value;
    }

    // The commit of an insert publishes the record that is already in place.
    method Publish(t: int)
      requires Valid() && marker
      modifies this`version, this`marker, this`chain
      ensures Valid() && !marker && chain == [Rec(t, old(chain[0].val))] + old(chain[1..])
    {
      version := t;
      marker := false;
      chain := [Current()] + chain[1..];
    }

    // Overwrite the value bytes and the version, not the link.
    method Overwrite(t: int, value: Option<Bytes>)
      requires Valid() && value != Some([]) && (value.Some? ==> |value.value| <= |buf|) && !deleting
      modifies this`version, this`size, this`buf, this`deleting, this`chain
      ensures Valid() && chain == [Rec(t, value)] + old(chain[1..]) && |buf| == old(|buf|)
    {
      if value.Some? { buf := value.value + buf[|value.value|..]; }
      version := t;
      size := if value.None? then 0 else |value.value|;
      if size == 0 { deleting := true; }
      chain := [Current()] + chain[1..];
      assert value.Some? ==> buf[..size] == value.value;
    }

    // write_record_at: the new latest tuple, and the tuple that now holds the
    // old record, if it is still on the chain.
    method WriteRecordAt(t: int, value: Option<Bytes>, slack: nat) returns (head: DbTuple, rest: DbTuple?, forced: bool)
      requires Valid() && latest && !marker && value != Some([]) && version <= t
      modifies this
      ensures head.Valid() && head.latest && fresh(head.Repr - old(Repr)) && head.Repr >= old(Repr)
      ensures var fits := value.None? || |value.value| <= old(|buf|);
        && head.chain == Written(old(chain), Rec(t, value), fits)
        && (head == this <==> old(size) > 0 && fits && !old(deleting))
        && (rest == null <==> head.chain[1..] == old(chain[1..]) && |head.chain| == |old(chain)|)
        && (forced <==> !(CanOverwrite(old(version), t) && !old(deleting)))
      ensures head != this ==> rest == this && !latest && head.next == this && chain == old(chain)
      ensures rest != null ==> rest != head && head.next == rest && !rest.latest && rest.chain == old(chain)
    {
      var newSize := if value.None? then 0 else |value.value|;
      var oldSize := if deleting then 0 else size;
      if CanOverwrite(version, t) && oldSize > 0 {
        if newSize <= |buf| {
          Overwrite(t, value);
          return this, null, false;
        }
        head := new DbTuple.AllocHead(t, value, this, slack);
        latest := false;
        return head, this, false;
      }
      if newSize <= |buf| && oldSize > 0 {
        var spill := new DbTuple.AllocSpill(this, slack);
        next := spill;
        Repr := Repr + {spill};
        chain := [Current()] + spill.chain;
        Overwrite(t, value);
        return this, spill, true;
      }
      head := new DbTuple.AllocHead(t, value, this, slack);
      latest := false;
      return head, this, true;
    }

    // record_at and record_at_chain: walk to the first record not after t.
    method RecordAt(t: int) returns (r: Rec)
      requires Valid()
      ensures r == if marker then Rec(MIN_TID, None) else ReadAt(chain, t)
      ensures if marker then r.tid == 0 && r.val == None else FirstUpTo(chain, t, r)
    {
      ReadIsFirst(chain, t);
      if marker { return Rec(MIN_TID, None); }
      var cur: DbTuple? := this;
      while cur != null
        invariant cur != null ==> cur.Valid() && ReadAt(cur.chain, t) == ReadAt(chain, t)
        invariant cur == null ==> ReadAt(chain, t) == Rec(MIN_TID, None)
        decreases if cur == null then {} else cur.Repr
      {
        if cur.version <= t { return cur.Current(); }
        assert cur.chain[1..] == if cur.next == null then [] else cur.next.chain;
        cur := cur.next;
      }
      r := Rec(MIN_TID, None);
    }
  }
}
