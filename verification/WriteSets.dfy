// The write set at commit: sorted by tuple, locked group by group, installed
// in program order, unlocked once.

module WriteSets {
  import opened Basics

  // One put, in program order; `insert` marks the one that created the tuple.
  datatype Write = Write(tuple: int, insert: bool, value: Option<int>)

  // A sortable reference to the write at position pos.
  datatype Info = Info(tuple: int, insert: bool, pos: nat, locked: bool)

  // The sort key is [tuple, !insert, pos].
  predicate Less(a: Info, b: Info) {
    || a.tuple < b.tuple
    || (a.tuple == b.tuple && a.insert && !b.insert)
    || (a.tuple == b.tuple && a.insert == b.insert && a.pos < b.pos)
  }

  // A tuple is created by its first write.
  ghost predicate InsertsFirst(ws: seq<Write>) {
    forall p, q :: 0 <= p < q < |ws| && ws[p].tuple == ws[q].tuple ==> !ws[q].insert
  }

  function InfoOf(w: Write, p: nat): Info { Info(w.tuple, w.insert, p, w.insert) }

  function Build(ws: seq<Write>): (v: seq<Info>)
    ensures |v| == |ws| && forall p :: 0 <= p < |ws| ==> v[p] == InfoOf(ws[p], p)
  {
    if ws == [] then [] else Build(ws[..|ws| - 1]) + [InfoOf(ws[|ws| - 1], |ws| - 1)]
  }

  ghost predicate Sorted(v: seq<Info>) { forall i, j :: 0 <= i < j < |v| ==> Less(v[i], v[j]) }

  ghost predicate Distinct(v: seq<Info>) { forall i, j :: 0 <= i < j < |v| ==> v[i].pos != v[j].pos }

  lemma InsertSorted(v: seq<Info>, i: nat, x: Info)
    requires Sorted(v) && i <= |v|
    requires i > 0 ==> Less(v[i - 1], x)
    requires forall j :: i <= j < |v| ==> Less(x, v[j])
    ensures Sorted(v[..i] + [x] + v[i..])
  {
    forall j | 0 <= j < i ensures Less(v[j], x) {
      if j < i - 1 { assert Less(v[j], v[i - 1]); }
    }
  }

  // Insertion by the sort key.
  method Insert(v: seq<Info>, x: Info) returns (r: seq<Info>)
    requires Sorted(v) && forall i :: 0 <= i < |v| ==> v[i].pos != x.pos
    ensures Sorted(r) && multiset(r) == multiset(v) + multiset{x}
  {
    var i := |v|;
    while i > 0 && Less(x, v[i - 1])
      invariant 0 <= i <= |v|
      invariant forall j :: i <= j < |v| ==> Less(x, v[j])
    {
      i := i - 1;
    }
    assert v == v[..i] + v[i..];
    InsertSorted(v, i, x);
    r := v[..i] + [x] + v[i..];
  }

  method Sort(v: seq<Info>) returns (r: seq<Info>)
    requires Distinct(v)
    ensures Sorted(r) && multiset(r) == multiset(v)
  {
    r := [];
    for i := 0 to |v|
      invariant Sorted(r) && multiset(r) == multiset(v[..i])
    {
      assert v[..i + 1] == v[..i] + [v[i]];
      forall j | 0 <= j < |r| ensures r[j].pos != v[i].pos {
        assert r[j] in multiset(r);
        assert r[j] in v[..i];
      }
      r := Insert(r, v[i]);
    }
    assert v[..|v|] == v;
  }

  // sorted_dbtuples_contains.
  method Contains(v: seq<Info>, x: int) returns (found: bool)
    requires Sorted(v)
    ensures found <==> exists i :: 0 <= i < |v| && v[i].tuple == x
  {
    var lo, n := 0, |v|;
    while n > 0
      invariant 0 <= lo <= lo + n <= |v|
      invariant forall i :: 0 <= i < lo ==> v[i].tuple < x
      invariant forall i :: lo + n <= i < |v| ==> x <= v[i].tuple
    {
      var half := n / 2;
      if v[lo + half].tuple < x {
        lo, n := lo + half + 1, n - half - 1;
      } else {
        n := half;
      }
    }
    found := lo < |v| && !(x < v[lo].tuple);
  }

  // ---- groups of the sorted vector ----

  predicate Last(v: seq<Info>, k: nat)
    requires k < |v|
  {
    k == |v| - 1 || v[k + 1].tuple != v[k].tuple
  }

  ghost predicate HasInsert(v: seq<Info>, k: nat)
    requires k < |v|
  {
    exists j :: 0 <= j <= k && v[j].tuple == v[k].tuple && v[j].insert
  }

  // Which entry of a group carries the lock, and which entries are installed.
  ghost predicate Carries(v: seq<Info>, k: nat)
    requires k < |v|
  {
    v[k].insert || (Last(v, k) && !HasInsert(v, k))
  }

  predicate Installs(v: seq<Info>, k: nat)
    requires k < |v|
  {
    v[k].insert || Last(v, k)
  }

  // The group that ends at k has to be locked, and its tuple is one of xs.
  ghost predicate Blocked(v: seq<Info>, k: nat, xs: set<int>)
    requires k < |v|
  {
    Last(v, k) && !HasInsert(v, k) && v[k].tuple in xs
  }

  ghost predicate NoneBlocked(v: seq<Info>, n: nat, xs: set<int>)
    requires n <= |v|
  {
    forall k :: 0 <= k < n ==> !Blocked(v, k, xs)
  }

  lemma NoneNext(v: seq<Info>, i: nat, xs: set<int>, ok: bool)
    requires i < |v| && NoneBlocked(v, i, xs) && (ok <==> !Blocked(v, i, xs))
    ensures if ok then NoneBlocked(v, i + 1, xs) else !NoneBlocked(v, |v|, xs)
  {
  }

  // v lists the writes of ws.
  ghost predicate Lists(v: seq<Info>, ws: seq<Write>) {
    && Sorted(v) && |v| == |ws|
    && (forall k :: 0 <= k < |v| ==> v[k].pos < |ws| && v[k] == InfoOf(ws[v[k].pos], v[k].pos))
    && (forall p :: 0 <= p < |ws| ==> InfoOf(ws[p], p) in v)
  }

  lemma SortedLists(v: seq<Info>, ws: seq<Write>)
    requires Sorted(v) && multiset(v) == multiset(Build(ws))
    ensures Lists(v, ws)
  {
    assert |multiset(v)| == |v| && |multiset(Build(ws))| == |ws|;
    forall k | 0 <= k < |v| ensures v[k].pos < |ws| && v[k] == InfoOf(ws[v[k].pos], v[k].pos) {
      assert v[k] in multiset(v);
      assert v[k] in Build(ws);
    }
    forall p | 0 <= p < |ws| ensures InfoOf(ws[p], p) in v {
      assert Build(ws)[p] in multiset(v);
    }
  }

  // The last entry of a group is the last write of its tuple in program order.
  lemma LastIsLatest(v: seq<Info>, ws: seq<Write>, k: nat)
    requires Lists(v, ws) && InsertsFirst(ws) && k < |v|
    ensures Last(v, k) <==> forall q :: v[k].pos < q < |ws| ==> ws[q].tuple != v[k].tuple
  {
    if Last(v, k) {
      forall q | v[k].pos < q < |ws| ensures ws[q].tuple != v[k].tuple {
        var j :| 0 <= j < |v| && v[j] == InfoOf(ws[q], q);
      }
    } else {
      assert Less(v[k], v[k + 1]);
      var q := v[k + 1].pos;
      assert v[k].pos < q && ws[q].tuple == v[k].tuple;
    }
  }

  // Exactly the creating write and the last write of each tuple are installed.
  lemma InstallsMeaning(v: seq<Info>, ws: seq<Write>, k: nat)
    requires Lists(v, ws) && InsertsFirst(ws) && k < |v|
    ensures Installs(v, k) <==> ws[v[k].pos].insert || forall q :: v[k].pos < q < |ws| ==>
      ws[q].tuple != ws[v[k].pos].tuple
  {
    LastIsLatest(v, ws, k);
  }

  // Exactly one entry per tuple carries its lock.
  lemma OneCarrier(v: seq<Info>, ws: seq<Write>, i: nat, j: nat)
    requires Lists(v, ws) && InsertsFirst(ws) && i < j < |v| && v[i].tuple == v[j].tuple
    ensures !(Carries(v, i) && Carries(v, j))
  {
    forall a, b | 0 <= a < b < |v| && v[a].tuple == v[b].tuple ensures !v[b].insert {
      assert Less(v[a], v[b]);
    }
    if !v[i].insert { GroupRun(v, i, j); }
  }

  // Entries of one tuple are adjacent.
  lemma GroupRun(v: seq<Info>, i: nat, j: nat)
    requires Sorted(v) && i < j < |v| && v[i].tuple == v[j].tuple
    ensures v[i + 1].tuple == v[i].tuple && !Last(v, i)
  {
    if i + 1 < j { assert Less(v[i], v[i + 1]) && Less(v[i + 1], v[j]); }
  }

  lemma GroupBelow(v: seq<Info>, j: nat, k: nat)
    requires Sorted(v) && j < k < |v| && Last(v, j)
    ensures v[j].tuple < v[k].tuple
  {
    assert Less(v[j], v[j + 1]);
    if j + 1 < k { assert Less(v[j + 1], v[k]); }
  }

  lemma HasInsertStep(v: seq<Info>, i: nat)
    requires Sorted(v) && i < |v|
    ensures HasInsert(v, i) <==> v[i].insert || (i > 0 && v[i - 1].tuple == v[i].tuple && HasInsert(v, i - 1))
  {
    if j :| 0 <= j < i && v[j].tuple == v[i].tuple && v[j].insert {
      if j < i - 1 { assert Less(v[j], v[i - 1]) && Less(v[i - 1], v[i]); }
    }
  }

  lemma ListsDistinct(v: seq<Info>, ws: seq<Write>)
    requires Lists(v, ws)
    ensures Distinct(v)
  {
    forall i, j | 0 <= i < j < |v| ensures v[i].pos != v[j].pos { assert Less(v[i], v[j]); }
  }

  lemma OtherPositions(v: seq<Info>, i: nat)
    requires Distinct(v) && i < |v|
    ensures forall k :: 0 <= k < |v| && k != i ==> v[k].pos != v[i].pos
  {
  }

  lemma {:induction false} SomeCarrier(v: seq<Info>, k: nat) returns (c: nat)
    requires Sorted(v) && k < |v|
    ensures c < |v| && v[c].tuple == v[k].tuple && Carries(v, c)
    decreases |v| - k
  {
    if j :| 0 <= j <= k && v[j].tuple == v[k].tuple && v[j].insert {
      c := j;
    } else if Last(v, k) {
      c := k;
    } else {
      c := SomeCarrier(v, k + 1);
    }
  }

  // ---- values ----

  // What the writes leave in each tuple.
  function LastWrites(ws: seq<Write>): map<int, Option<int>> {
    if ws == [] then map[]
    else var w := ws[|ws| - 1]; LastWrites(ws[..|ws| - 1])[w.tuple := w.value]
  }

  // vals holds, for exactly the tuples that are written, the value of the last write.
  ghost predicate HoldsLast(ws: seq<Write>, vals: map<int, Option<int>>) {
    && (forall x :: x in vals <==> Written(ws, x))
    && (forall p :: 0 <= p < |ws| && (forall q :: p < q < |ws| ==> ws[q].tuple != ws[p].tuple) ==>
          ws[p].tuple in vals && vals[ws[p].tuple] == ws[p].value)
  }

  // x is written somewhere in ws.
  ghost predicate Written(ws: seq<Write>, x: int) { exists p :: 0 <= p < |ws| && ws[p].tuple == x }

  lemma WrittenStep(ws: seq<Write>, x: int)
    requires ws != []
    ensures Written(ws, x) <==> Written(ws[..|ws| - 1], x) || ws[|ws| - 1].tuple == x
  {
    var front := ws[..|ws| - 1];
    if p :| 0 <= p < |front| && front[p].tuple == x { assert ws[p].tuple == x; }
    if p :| 0 <= p < |ws| && ws[p].tuple == x { assert p < |front| ==> front[p].tuple == x; }
  }

  lemma {:induction false} LastWritesKeys(ws: seq<Write>, x: int)
    ensures x in LastWrites(ws) <==> Written(ws, x)
  {
    if ws != [] {
      LastWritesKeys(ws[..|ws| - 1], x);
      WrittenStep(ws, x);
    }
  }

  lemma {:induction false} LastWritesValue(ws: seq<Write>, p: nat)
    requires p < |ws| && forall q :: p < q < |ws| ==> ws[q].tuple != ws[p].tuple
    ensures ws[p].tuple in LastWrites(ws) && LastWrites(ws)[ws[p].tuple] == ws[p].value
  {
    if p < |ws| - 1 {
      var front := ws[..|ws| - 1];
      assert front[p] == ws[p] && ws[|ws| - 1].tuple != ws[p].tuple;
      LastWritesValue(front, p);
    }
  }

  lemma LastWritesMeaning(ws: seq<Write>)
    ensures HoldsLast(ws, LastWrites(ws))
  {
    forall x ensures x in LastWrites(ws) <==> Written(ws, x) { LastWritesKeys(ws, x); }
    forall p | 0 <= p < |ws| && (forall q :: p < q < |ws| ==> ws[q].tuple != ws[p].tuple)
      ensures ws[p].tuple in LastWrites(ws) && LastWrites(ws)[ws[p].tuple] == ws[p].value
    {
      LastWritesValue(ws, p);
    }
  }

  // p is the write that creates its tuple, or the last one to it.
  ghost predicate MustInstall(ws: seq<Write>, p: nat)
    requires p < |ws|
  {
    ws[p].insert || forall q :: p < q < |ws| ==> ws[q].tuple != ws[p].tuple
  }

  // x is written again at or after position p.
  ghost predicate Again(ws: seq<Write>, p: nat, x: int) { exists q :: p <= q < |ws| && ws[q].tuple == x }

  // ---- the flags set by the locking loop ----

  // infos is v with other locked flags.
  ghost predicate Flags(v: seq<Info>, infos: seq<Info>, doWrite: seq<bool>, n: nat) {
    && |infos| == |v| && |doWrite| == n
    && forall k :: 0 <= k < |v| ==> infos[k] == v[k].(locked := infos[k].locked) && v[k].pos < n
  }

  ghost predicate Settled(v: seq<Info>, infos: seq<Info>, doWrite: seq<bool>, k: nat)
    requires k < |v| && Flags(v, infos, doWrite, |doWrite|)
  {
    (infos[k].locked <==> Carries(v, k)) && (doWrite[v[k].pos] <==> Installs(v, k))
  }

  ghost predicate Raw(v: seq<Info>, infos: seq<Info>, doWrite: seq<bool>, k: nat, write: bool)
    requires k < |v| && Flags(v, infos, doWrite, |doWrite|)
  {
    infos[k].locked == v[k].insert && doWrite[v[k].pos] == write
  }

  // Locks are acquired in strictly increasing order, one for each group
  // closed below k that the transaction did not insert.
  ghost predicate LockOrder(v: seq<Info>, acquired: seq<int>, k: nat)
    requires k <= |v|
  {
    && (forall a, b :: 0 <= a < b < |acquired| ==> acquired[a] < acquired[b])
    && (forall x :: x in acquired <==> exists j :: 0 <= j < k && v[j].tuple == x && Last(v, j) && !HasInsert(v, j))
  }

  // The locked flags say exactly which locks are held, at every point.
  ghost predicate Held(v: seq<Info>, infos: seq<Info>, acquired: seq<int>) {
    && |infos| == |v|
    && (forall k :: 0 <= k < |v| ==>
          (infos[k].locked <==> v[k].insert || (Last(v, k) && !HasInsert(v, k) && v[k].tuple in acquired)))
    && forall x :: x in acquired ==> exists k :: 0 <= k < |v| && v[k].tuple == x && Last(v, k) && !HasInsert(v, k)
  }

  lemma HeldNext(v: seq<Info>, infos: seq<Info>, acquired: seq<int>, k: nat)
    requires Sorted(v) && k < |v| && Held(v, infos, acquired) && Last(v, k) && !HasInsert(v, k)
    ensures Held(v, infos[k := infos[k].(locked := true)], acquired + [v[k].tuple])
  {
    forall j | 0 <= j < |v| && j != k && Last(v, j) ensures v[j].tuple != v[k].tuple {
      if j < k { GroupBelow(v, j, k); } else { GroupBelow(v, k, j); }
    }
  }

  // Entries below i are settled, the rest untouched.
  ghost predicate Upto(v: seq<Info>, infos: seq<Info>, doWrite: seq<bool>, i: nat)
    requires i <= |v| && Flags(v, infos, doWrite, |doWrite|)
  {
    && (forall k :: 0 <= k < i ==> Settled(v, infos, doWrite, k))
    && (forall k :: i <= k < |v| ==> Raw(v, infos, doWrite, k, false))
  }

  // Entry i is the last one looked at; its group is not closed yet.
  ghost predicate Within(v: seq<Info>, infos: seq<Info>, doWrite: seq<bool>, i: nat)
    requires i < |v| && Flags(v, infos, doWrite, |doWrite|)
  {
    && (forall k :: 0 <= k < i ==> Settled(v, infos, doWrite, k))
    && Raw(v, infos, doWrite, i, v[i].insert)
    && (forall k :: i < k < |v| ==> Raw(v, infos, doWrite, k, false))
  }

  // Only entry i and its write flag change.
  ghost predicate OnlyAt(v: seq<Info>, infos: seq<Info>, doWrite: seq<bool>, infos': seq<Info>, doWrite': seq<bool>,
                         i: nat)
    requires i < |v| && Flags(v, infos, doWrite, |doWrite|)
  {
    && Flags(v, infos', doWrite', |doWrite|)
    && (forall k :: 0 <= k < |v| && k != i ==> infos'[k] == infos[k] && doWrite'[v[k].pos] == doWrite[v[k].pos])
  }

  lemma LookKeeps(v: seq<Info>, infos: seq<Info>, doWrite: seq<bool>, doWrite': seq<bool>, i: nat)
    requires i < |v| && Flags(v, infos, doWrite, |doWrite|) && Upto(v, infos, doWrite, i)
    requires OnlyAt(v, infos, doWrite, infos, doWrite', i) && doWrite'[v[i].pos] == v[i].insert
    ensures Within(v, infos, doWrite', i)
  {
    assert Raw(v, infos, doWrite, i, false);
    forall k | 0 <= k < i ensures Settled(v, infos, doWrite', k) { assert Settled(v, infos, doWrite, k); }
    forall k | i < k < |v| ensures Raw(v, infos, doWrite', k, false) { assert Raw(v, infos, doWrite, k, false); }
  }

  lemma CloseKeeps(v: seq<Info>, infos: seq<Info>, doWrite: seq<bool>, infos': seq<Info>, doWrite': seq<bool>, i: nat)
    requires i < |v| && Flags(v, infos, doWrite, |doWrite|) && Within(v, infos, doWrite, i)
    requires OnlyAt(v, infos, doWrite, infos', doWrite', i) && Settled(v, infos', doWrite', i)
    ensures Upto(v, infos', doWrite', i + 1)
  {
    forall k | 0 <= k < i ensures Settled(v, infos', doWrite', k) { assert Settled(v, infos, doWrite, k); }
    forall k | i < k < |v| ensures Raw(v, infos', doWrite', k, false) { assert Raw(v, infos, doWrite, k, false); }
  }

  // A new lock is above all earlier ones.
  lemma LockNext(v: seq<Info>, acquired: seq<int>, k: nat)
    requires Sorted(v) && k < |v| && LockOrder(v, acquired, k) && Last(v, k)
    ensures LockOrder(v, if HasInsert(v, k) then acquired else acquired + [v[k].tuple], k + 1)
  {
    forall a | 0 <= a < |acquired| ensures acquired[a] < v[k].tuple {
      assert acquired[a] in acquired;
      var j :| 0 <= j < k && v[j].tuple == acquired[a] && Last(v, j) && !HasInsert(v, j);
      GroupBelow(v, j, k);
    }
  }

  // One commit.  `markers` holds the tuples found to be another transaction's
  // uncommitted insert, `stale` those found superseded once locked.
  class Commit {
    const ws: seq<Write>
    var infos: seq<Info>
    var doWrite: seq<bool>
    var acquired: seq<int>

    constructor (ws: seq<Write>)
      ensures this.ws == ws && infos == [] && acquired == []
      ensures |doWrite| == |ws| && forall p :: 0 <= p < |ws| ==> !doWrite[p]
    {
      this.ws := ws;
      infos := [];
      acquired := [];
      doWrite := seq(|ws|, _ => false);
    }

    // Copy the write set into a vector and sort it.
    method Prepare()
      modifies this`infos
      ensures Lists(infos, ws)
    {
      var v: seq<Info> := [];
      for p := 0 to |ws|
        invariant |v| == p && forall j :: 0 <= j < p ==> v[j] == InfoOf(ws[j], j)
      {
        v := v + [InfoOf(ws[p], p)];
      }
      assert v == Build(ws);
      infos := Sort(v);
      SortedLists(infos, ws);
    }

    // handle_last_tuple_in_group, for the group that ends at k.
    method HandleLast(k: nat, inserted: bool, markers: set<int>, stale: set<int>, ghost v: seq<Info>) returns (ok: bool)
      requires Sorted(v) && Distinct(v) && k < |v| && Flags(v, infos, doWrite, |ws|) && Last(v, k)
      requires inserted <==> HasInsert(v, k)
      requires Raw(v, infos, doWrite, k, v[k].insert) && LockOrder(v, acquired, k) && Held(v, infos, acquired)
      modifies this`infos, this`doWrite, this`acquired
      ensures OnlyAt(v, old(infos), old(doWrite), infos, doWrite, k)
      ensures ok <==> inserted || v[k].tuple !in markers + stale
      ensures Held(v, infos, acquired)
      ensures ok ==> Settled(v, infos, doWrite, k) && LockOrder(v, acquired, k + 1)
      ensures !ok && v[k].tuple in markers ==> infos == old(infos) && acquired == old(acquired)
      ensures !ok && v[k].tuple !in markers ==> infos[k].locked && acquired == old(acquired) + [v[k].tuple]
    {
      LockNext(v, acquired, k);
      OtherPositions(v, k);
      if inserted {
        if !infos[k].insert { doWrite := doWrite[infos[k].pos := true]; }
      } else {
        if infos[k].tuple in markers { return false; }
        HeldNext(v, infos, acquired, k);
        acquired := acquired + [infos[k].tuple];
        infos := infos[k := infos[k].(locked := true)];
        if infos[k].tuple in stale { return false; }
        doWrite := doWrite[infos[k].pos := true];
      }
      return true;
    }

    // All inserts are marked do-write.
    method Look(i: nat, ghost v: seq<Info>)
      requires Distinct(v) && i < |v| && Flags(v, infos, doWrite, |ws|) && Upto(v, infos, doWrite, i)
      modifies this`doWrite
      ensures Flags(v, infos, doWrite, |ws|) && Within(v, infos, doWrite, i)
    {
      OtherPositions(v, i);
      assert Raw(v, infos, doWrite, i, false);
      ghost var before := doWrite;
      if infos[i].insert { doWrite := doWrite[infos[i].pos := true]; }
      LookKeeps(v, infos, before, doWrite, i);
    }

    method Close(i: nat, inserted: bool, markers: set<int>, stale: set<int>, ghost v: seq<Info>) returns (ok: bool)
      requires Sorted(v) && Distinct(v) && i < |v| && Flags(v, infos, doWrite, |ws|) && Within(v, infos, doWrite, i)
      requires LockOrder(v, acquired, i) && Held(v, infos, acquired) && (inserted <==> HasInsert(v, i))
      modifies this`infos, this`doWrite, this`acquired
      ensures Flags(v, infos, doWrite, |ws|) && Held(v, infos, acquired)
      ensures ok ==> Upto(v, infos, doWrite, i + 1) && LockOrder(v, acquired, i + 1)
      ensures ok <==> !Blocked(v, i, markers + stale)
    {
      ghost var was, flags := infos, doWrite;
      ok := true;
      if i + 1 == |infos| || infos[i + 1].tuple != infos[i].tuple {
        ok := HandleLast(i, inserted, markers, stale, v);
      }
      if ok { CloseKeeps(v, was, flags, infos, doWrite, i); }
    }

    // The entries below i have been through the locking loop.
    ghost predicate Passed(v: seq<Info>, i: nat)
      requires i <= |v|
      reads this
    {
      && Flags(v, infos, doWrite, |ws|) && Upto(v, infos, doWrite, i) && LockOrder(v, acquired, i)
      && Held(v, infos, acquired)
    }

    // One turn of the loop; seen tells whether the previous entry's group has an insert.
    method LockNextEntry(i: nat, seen: bool, markers: set<int>, stale: set<int>, ghost v: seq<Info>)
      returns (ok: bool, inserted: bool)
      requires Sorted(v) && Distinct(v) && i < |v| && Passed(v, i) && (seen <==> i > 0 && HasInsert(v, i - 1))
      modifies this`infos, this`doWrite, this`acquired
      ensures Flags(v, infos, doWrite, |ws|) && Held(v, infos, acquired)
      ensures (ok <==> !Blocked(v, i, markers + stale)) && (ok ==> Passed(v, i + 1))
      ensures inserted <==> HasInsert(v, i)
    {
      inserted := seen;
      Look(i, v);
      HasInsertStep(v, i);
      if i > 0 && infos[i - 1].tuple != infos[i].tuple { inserted := false; }
      if infos[i].insert { inserted := true; }
      ok := Close(i, inserted, markers, stale, v);
    }

    // The locking loop of commit: each group is closed at its boundary.
    method LockGroups(markers: set<int>, stale: set<int>) returns (ok: bool)
      requires Lists(infos, ws) && acquired == []
      requires |doWrite| == |ws| && forall p :: 0 <= p < |ws| ==> !doWrite[p]
      modifies this`infos, this`doWrite, this`acquired
      ensures Flags(old(infos), infos, doWrite, |ws|) && Held(old(infos), infos, acquired)
      ensures ok ==> Upto(old(infos), infos, doWrite, |infos|) && LockOrder(old(infos), acquired, |infos|)
      ensures ok <==> NoneBlocked(old(infos), |infos|, markers + stale)
    {
      ghost var v, bad := infos, markers + stale;
      ListsDistinct(v, ws);
      ok := true;
      var inserted := false;
      for i := 0 to |infos|
        invariant |infos| == |v| && Passed(v, i) && NoneBlocked(v, i, bad)
        invariant inserted <==> i > 0 && HasInsert(v, i - 1)
      {
        ok, inserted := LockNextEntry(i, inserted, markers, stale, v);
        NoneNext(v, i, bad, ok);
        if !ok { return; }
      }
    }
  }

  ghost predicate LockedIn(infos: seq<Info>, x: int) {
    exists k :: 0 <= k < |infos| && infos[k].locked && infos[k].tuple == x
  }

  // On success and on failure alike, the flagged entries name each lock held once.
  lemma HeldMeaning(v: seq<Info>, infos: seq<Info>, doWrite: seq<bool>, acquired: seq<int>, ws: seq<Write>)
    requires Lists(v, ws) && InsertsFirst(ws) && Flags(v, infos, doWrite, |ws|) && Held(v, infos, acquired)
    ensures forall i, j :: 0 <= i < j < |infos| && infos[i].locked && infos[j].locked ==>
      infos[i].tuple != infos[j].tuple
    ensures forall x :: LockedIn(infos, x) <==> x in acquired || exists w :: w in ws && w.tuple == x && w.insert
  {
    forall i, j | 0 <= i < j < |infos| && infos[i].locked && infos[j].locked ensures infos[i].tuple != infos[j].tuple {
      if v[i].tuple == v[j].tuple { OneCarrier(v, ws, i, j); }
    }
    forall x | LockedIn(infos, x) && x !in acquired ensures exists w :: w in ws && w.tuple == x && w.insert {
      var k :| 0 <= k < |infos| && infos[k].locked && infos[k].tuple == x;
      assert ws[v[k].pos] in ws;
    }
    forall x, w | w in ws && w.tuple == x && w.insert ensures LockedIn(infos, x) {
      var p :| 0 <= p < |ws| && ws[p] == w;
      var k :| 0 <= k < |v| && v[k] == InfoOf(w, p);
      assert infos[k].locked;
    }
    forall x | x in acquired ensures LockedIn(infos, x) {
      var k :| 0 <= k < |v| && v[k].tuple == x && Last(v, k) && !HasInsert(v, k);
      assert infos[k].locked;
    }
  }

  // x is written by ws but not created by it.
  ghost predicate Foreign(ws: seq<Write>, x: int) {
    (exists w :: w in ws && w.tuple == x) && forall w :: w in ws && w.tuple == x ==> !w.insert
  }

  // The groups that are locked at commit are those of the tuples it did not create.
  lemma ForeignMeaning(v: seq<Info>, ws: seq<Write>, x: int)
    requires Lists(v, ws)
    ensures (exists j :: 0 <= j < |v| && v[j].tuple == x && Last(v, j) && !HasInsert(v, j)) <==> Foreign(ws, x)
  {
    if j :| 0 <= j < |v| && v[j].tuple == x && Last(v, j) && !HasInsert(v, j) {
      assert ws[v[j].pos] in ws;
      forall w | w in ws && w.tuple == x ensures !w.insert {
        var p :| 0 <= p < |ws| && ws[p] == w;
        var i :| 0 <= i < |v| && v[i] == InfoOf(w, p);
        if j < i { GroupBelow(v, j, i); }
      }
    } else if w :| w in ws && w.tuple == x {
      var p :| 0 <= p < |ws| && ws[p] == w;
      var i :| 0 <= i < |v| && v[i] == InfoOf(w, p);
      var c := SomeCarrier(v, i);
      assert v[c].insert && ws[v[c].pos] in ws;
    }
  }

  // The locks taken by a successful pass are those of the foreign tuples.
  lemma AcquiredMeaning(v: seq<Info>, acquired: seq<int>, ws: seq<Write>, x: int)
    requires Lists(v, ws) && LockOrder(v, acquired, |v|)
    ensures x in acquired <==> Foreign(ws, x)
  {
    ForeignMeaning(v, ws, x);
  }

  // A pass fails exactly if some foreign tuple is a marker or superseded.
  lemma BlockedMeaning(v: seq<Info>, ws: seq<Write>, xs: set<int>)
    requires Lists(v, ws)
    ensures NoneBlocked(v, |v|, xs) <==> forall x :: x in xs ==> !Foreign(ws, x)
  {
    if k :| 0 <= k < |v| && Blocked(v, k, xs) { ForeignMeaning(v, ws, v[k].tuple); }
    forall x | x in xs && Foreign(ws, x) ensures !NoneBlocked(v, |v|, xs) {
      ForeignMeaning(v, ws, x);
      var j :| 0 <= j < |v| && v[j].tuple == x && Last(v, j) && !HasInsert(v, j);
      assert Blocked(v, j, xs);
    }
  }

  // What a successful locking pass means for the writes themselves: every
  // tuple is locked by exactly one entry, inserted or acquired in address
  // order, and exactly the creating and last writes will be installed.
  lemma LockedMeaning(v: seq<Info>, infos: seq<Info>, doWrite: seq<bool>, acquired: seq<int>, ws: seq<Write>)
    requires Lists(v, ws) && InsertsFirst(ws) && Flags(v, infos, doWrite, |ws|)
    requires Upto(v, infos, doWrite, |v|) && LockOrder(v, acquired, |v|)
    ensures forall p :: 0 <= p < |ws| ==> (doWrite[p] <==> MustInstall(ws, p))
    ensures forall p :: 0 <= p < |ws| ==> LockedIn(infos, ws[p].tuple)
    ensures forall i, j :: 0 <= i < j < |infos| && infos[i].locked && infos[j].locked ==>
      infos[i].tuple != infos[j].tuple
  {
    forall p | 0 <= p < |ws| ensures doWrite[p] <==> MustInstall(ws, p) {
      var k :| 0 <= k < |v| && v[k] == InfoOf(ws[p], p);
      assert Settled(v, infos, doWrite, k);
      InstallsMeaning(v, ws, k);
    }
    forall p | 0 <= p < |ws| ensures LockedIn(infos, ws[p].tuple) {
      var k :| 0 <= k < |v| && v[k] == InfoOf(ws[p], p);
      var c := SomeCarrier(v, k);
      assert Settled(v, infos, doWrite, c);
      assert infos[c].locked && infos[c].tuple == ws[p].tuple;
    }
    forall i, j | 0 <= i < j < |infos| && infos[i].locked && infos[j].locked ensures infos[i].tuple != infos[j].tuple {
      assert Settled(v, infos, doWrite, i) && Settled(v, infos, doWrite, j);
      if v[i].tuple == v[j].tuple { OneCarrier(v, ws, i, j); }
    }
  }

  // ---- installing and unlocking ----

  // Each of the locks is named by exactly one flagged entry.
  ghost predicate Names(infos: seq<Info>, held: set<int>) {
    && (forall x :: x in held <==> LockedIn(infos, x))
    && (forall i, j :: 0 <= i < j < |infos| && infos[i].locked && infos[j].locked ==> infos[i].tuple != infos[j].tuple)
  }

  ghost predicate Marks(ws: seq<Write>, doWrite: seq<bool>) {
    |doWrite| == |ws| && forall p :: 0 <= p < |ws| ==> (doWrite[p] <==> MustInstall(ws, p))
  }

  // Installing the marked writes in program order leaves in every tuple its last write.
  method InstallAll(ws: seq<Write>, doWrite: seq<bool>) returns (vals: map<int, Option<int>>)
    requires Marks(ws, doWrite)
    ensures vals == LastWrites(ws) && HoldsLast(ws, vals)
  {
    LastWritesMeaning(ws);
    vals := map[];
    for p := 0 to |ws|
      invariant vals.Keys <= LastWrites(ws[..p]).Keys
      invariant forall x :: x in LastWrites(ws[..p]) && !Again(ws, p, x) ==>
        x in vals && vals[x] == LastWrites(ws[..p])[x]
    {
      assert ws[..p + 1][..p] == ws[..p];
      if doWrite[p] { vals := vals[ws[p].tuple := ws[p].value]; }
      forall x | x in LastWrites(ws[..p + 1]) && !Again(ws, p + 1, x)
        ensures x in vals && vals[x] == LastWrites(ws[..p + 1])[x]
      {
        if x == ws[p].tuple {
          assert MustInstall(ws, p);
        } else {
          assert !Again(ws, p, x);
        }
      }
    }
    assert ws[..|ws|] == ws;
    forall x | x in LastWrites(ws) ensures x in vals && vals[x] == LastWrites(ws)[x] { assert !Again(ws, |ws|, x); }
  }

  // The unlock loop, on commit and on abort: every lock held is dropped once.
  method UnlockAll(infos: seq<Info>, held: set<int>) returns (left: set<int>, dropped: multiset<int>)
    requires Names(infos, held)
    ensures left == {} && dropped == multiset(held)
  {
    left, dropped := held, multiset{};
    for i := 0 to |infos|
      invariant left <= held && dropped == multiset(held - left)
      invariant forall k :: 0 <= k < |infos| && infos[k].locked ==> (infos[k].tuple in left <==> i <= k)
    {
      if infos[i].locked {
        var x := infos[i].tuple;
        assert held - (left - {x}) == (held - left) + {x};
        left := left - {x};
        dropped := dropped + multiset{x};
      }
    }
    forall x | x in held ensures x !in left {
      var k :| 0 <= k < |infos| && infos[k].locked && infos[k].tuple == x;
    }
    assert held - left == held;
  }

  // ---- the whole commit of one write set ----

  function TuplesOf(ws: seq<Write>): set<int> { set w | w in ws :: w.tuple }

  // Tuples that the transaction has created, and so holds locked since.
  function Created(ws: seq<Write>): set<int> { set w | w in ws && w.insert :: w.tuple }

  lemma AllLocked(v: seq<Info>, acquired: seq<int>, ws: seq<Write>)
    requires Lists(v, ws) && LockOrder(v, acquired, |v|)
    ensures Created(ws) + (set y | y in acquired) == TuplesOf(ws)
  {
    forall x ensures x in Created(ws) + (set y | y in acquired) <==> x in TuplesOf(ws) {
      AcquiredMeaning(v, acquired, ws, x);
      if x in TuplesOf(ws) && !Foreign(ws, x) {
        var w :| w in ws && w.tuple == x && w.insert;
      }
    }
  }

  ghost predicate NoneForeign(ws: seq<Write>, xs: set<int>) { forall x :: x in xs ==> !Foreign(ws, x) }

  lemma HeldBound(v: seq<Info>, infos: seq<Info>, acquired: seq<int>, ws: seq<Write>)
    requires Lists(v, ws) && Held(v, infos, acquired)
    ensures Created(ws) + (set y | y in acquired) <= TuplesOf(ws)
  {
    forall x | x in acquired ensures x in TuplesOf(ws) {
      var k :| 0 <= k < |v| && v[k].tuple == x && Last(v, k) && !HasInsert(v, k);
      assert ws[v[k].pos] in ws;
    }
  }

  lemma PassMeaning(v: seq<Info>, infos: seq<Info>, doWrite: seq<bool>, acquired: seq<int>, ws: seq<Write>)
    requires Lists(v, ws) && InsertsFirst(ws) && Flags(v, infos, doWrite, |ws|) && Held(v, infos, acquired)
    ensures var held := Created(ws) + (set y | y in acquired); Names(infos, held) && Created(ws) <= held <= TuplesOf(ws)
  {
    HeldMeaning(v, infos, doWrite, acquired, ws);
    HeldBound(v, infos, acquired, ws);
  }

  // Sort and lock; the locks held afterwards.
  method LockWrites(ws: seq<Write>, markers: set<int>, stale: set<int>)
    returns (ok: bool, infos: seq<Info>, doWrite: seq<bool>, held: set<int>)
    requires InsertsFirst(ws)
    ensures (ok <==> NoneForeign(ws, markers + stale)) && Names(infos, held) && Created(ws) <= held <= TuplesOf(ws)
    ensures ok ==> Marks(ws, doWrite) && held == TuplesOf(ws)
  {
    var c := new Commit(ws);
    c.Prepare();
    ghost var v := c.infos;
    ok := c.LockGroups(markers, stale);
    BlockedMeaning(v, ws, markers + stale);
    infos, doWrite, held := c.infos, c.doWrite, Created(ws) + (set y | y in c.acquired);
    PassMeaning(v, infos, doWrite, c.acquired, ws);
    if ok {
      AllLocked(v, c.acquired, ws);
      LockedMeaning(v, infos, doWrite, c.acquired, ws);
    }
  }

  // commit: sort, lock, validate, install, unlock.  `valid` is the outcome of
  // validation.  It succeeds exactly if validation does and no tuple written
  // but not created is a marker or superseded; it then leaves in each tuple its
  // last write, and otherwise nothing.  Either way every lock it had or took
  // has been dropped once, and on success these are the locks of all its tuples.
  method CommitWrites(ws: seq<Write>, markers: set<int>, stale: set<int>, valid: bool)
    returns (ok: bool, vals: map<int, Option<int>>, left: set<int>, dropped: multiset<int>)
    requires InsertsFirst(ws)
    ensures ok <==> valid && NoneForeign(ws, markers + stale)
    ensures if ok then HoldsLast(ws, vals) else vals == map[]
    ensures left == {} && multiset(Created(ws)) <= dropped <= multiset(TuplesOf(ws))
    ensures ok ==> dropped == multiset(TuplesOf(ws))
  {
    var infos, doWrite, held;
    ok, infos, doWrite, held := LockWrites(ws, markers, stale);
    ok := ok && valid;
    vals := map[];
    if ok { vals := InstallAll(ws, doWrite); }
    left, dropped := UnlockAll(infos, held);
  }
}
