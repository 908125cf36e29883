// Which logger serves which worker: the validity test and the default choice.

module Assignments {
  import opened Arith

  function Flat(a: seq<seq<nat>>): seq<nat> {
    if a == [] then [] else Flat(a[..|a| - 1]) + a[|a| - 1]
  }

  // Each worker is assigned exactly once, and nothing else is.
  ghost predicate OnceEach(ws: seq<nat>, n: nat) {
    forall w :: multiset(ws)[w] == if 0 <= w < n then 1 else 0
  }

  ghost predicate Valid(a: seq<seq<nat>>, nfds: nat, n: nat) { |a| <= nfds && OnceEach(Flat(a), n) }

  function Below(n: nat): (s: set<nat>)
    ensures |s| == n && forall w: nat :: w in s <==> w < n
  {
    if n == 0 then {} else Below(n - 1) + {n - 1}
  }

  lemma FullSet(s: set<nat>, n: nat)
    requires s <= Below(n)
    ensures |s| == n <==> s == Below(n)
  {
    assert |Below(n) - s| == |Below(n)| - |s|;
    if |s| == n { assert Below(n) - s == {}; }
  }

  // No worker seen twice so far, none out of range.
  ghost predicate SeenOnce(ws: seq<nat>, n: nat, seen: set<nat>) {
    && seen <= Below(n) && (forall w :: w in seen <==> w in ws)
    && (forall w :: w in ws ==> multiset(ws)[w] == 1)
  }

  lemma SeenAll(ws: seq<nat>, n: nat, seen: set<nat>)
    requires SeenOnce(ws, n, seen)
    ensures |seen| == n <==> OnceEach(ws, n)
  {
    FullSet(seen, n);
    if seen == Below(n) {
      forall w ensures multiset(ws)[w] == if 0 <= w < n then 1 else 0 {
        if w in ws { assert w in seen; } else { assert w !in multiset(ws); }
      }
    } else {
      var w :| w in Below(n) && w !in seen;
      assert w !in multiset(ws);
    }
  }

  // One more worker, seen before or out of range, spoils every continuation.
  lemma Spoiled(ws: seq<nat>, n: nat, seen: set<nat>, w: nat, rest: seq<nat>)
    requires SeenOnce(ws, n, seen) && (w in seen || w >= n)
    ensures !OnceEach(ws + [w] + rest, n)
  {
    assert multiset(ws + [w] + rest) == multiset(ws) + multiset{w} + multiset(rest);
    assert multiset(ws + [w] + rest)[w] == multiset(ws)[w] + 1 + multiset(rest)[w];
    if w in seen { assert multiset(ws)[w] == 1; }
  }

  lemma SeenNext(ws: seq<nat>, n: nat, seen: set<nat>, w: nat)
    requires SeenOnce(ws, n, seen) && w !in seen && w < n
    ensures SeenOnce(ws + [w], n, seen + {w})
  {
    assert w !in multiset(ws);
    forall v | v in ws + [w] ensures multiset(ws + [w])[v] == 1 {
      assert multiset(ws + [w]) == multiset(ws) + multiset{w};
    }
  }

  lemma {:induction false} FlatPrefix(a: seq<seq<nat>>, i: nat) returns (rest: seq<nat>)
    requires i <= |a|
    ensures Flat(a) == Flat(a[..i]) + rest
    decreases |a|
  {
    if i == |a| {
      assert a[..i] == a;
      rest := [];
    } else {
      var r := FlatPrefix(a[..|a| - 1], i);
      assert a[..|a| - 1][..i] == a[..i];
      rest := r + a[|a| - 1];
    }
  }

  // The workers of the lists before i, and of list i those before j.
  function Upto(a: seq<seq<nat>>, i: nat, j: nat): seq<nat>
    requires i < |a| && j <= |a[i]|
  {
    Flat(a[..i]) + a[i][..j]
  }

  lemma UptoNext(a: seq<seq<nat>>, i: nat, j: nat)
    requires i < |a| && j < |a[i]|
    ensures Upto(a, i, j + 1) == Upto(a, i, j) + [a[i][j]]
  {
    assert a[i][..j + 1] == a[i][..j] + [a[i][j]];
  }

  lemma UptoEnds(a: seq<seq<nat>>, i: nat)
    requires i < |a|
    ensures Upto(a, i, 0) == Flat(a[..i]) && Upto(a, i, |a[i]|) == Flat(a[..i + 1])
  {
    assert a[i][..|a[i]|] == a[i];
    assert a[..i + 1][..i] == a[..i];
  }

  // One list, after those before it.
  method SeeList(a: seq<seq<nat>>, i: nat, n: nat, before: set<nat>) returns (ok: bool, seen: set<nat>)
    requires i < |a| && SeenOnce(Flat(a[..i]), n, before)
    ensures if ok then SeenOnce(Flat(a[..i + 1]), n, seen) else !OnceEach(Flat(a), n)
  {
    seen := before;
    UptoEnds(a, i);
    for j := 0 to |a[i]|
      invariant SeenOnce(Upto(a, i, j), n, seen)
    {
      var w := a[i][j];
      if w in seen || w >= n {
        Rejects(a, n, seen, i, j);
        return false, seen;
      }
      SeenNext(Upto(a, i, j), n, seen, w);
      UptoNext(a, i, j);
      seen := seen + {w};
    }
    ok := true;
  }

  method AssignmentsValid(a: seq<seq<nat>>, nfds: nat, n: nat) returns (ok: bool)
    ensures ok <==> Valid(a, nfds, n)
  {
    if |a| > nfds { return false; }
    var seen: set<nat> := {};
    for i := 0 to |a|
      invariant SeenOnce(Flat(a[..i]), n, seen)
    {
      ok, seen := SeeList(a, i, n, seen);
      if !ok { return false; }
    }
    assert a[..|a|] == a;
    SeenAll(Flat(a), n, seen);
    ok := |seen| == n;
  }

  lemma FlatAround(a: seq<seq<nat>>, i: nat, j: nat) returns (rest: seq<nat>)
    requires i < |a| && j < |a[i]|
    ensures Flat(a) == Flat(a[..i]) + a[i][..j] + [a[i][j]] + rest
  {
    var r := FlatPrefix(a, i + 1);
    assert a[..i + 1][..i] == a[..i] && a[..i + 1][i] == a[i];
    assert Flat(a[..i + 1]) == Flat(a[..i]) + a[i];
    assert a[i] == a[i][..j] + [a[i][j]] + a[i][j + 1..];
    rest := a[i][j + 1..] + r;
  }

  lemma Rejects(a: seq<seq<nat>>, n: nat, seen: set<nat>, i: nat, j: nat)
    requires i < |a| && j < |a[i]| && SeenOnce(Upto(a, i, j), n, seen) && (a[i][j] in seen || a[i][j] >= n)
    ensures !OnceEach(Flat(a), n)
  {
    var rest := FlatAround(a, i, j);
    Spoiled(Flat(a[..i]) + a[i][..j], n, seen, a[i][j], rest);
  }

  // ---- the default assignment ----

  function Range(lo: nat, hi: nat): (r: seq<nat>)
    requires lo <= hi
    ensures |r| == hi - lo && forall i :: 0 <= i < |r| ==> r[i] == lo + i
  {
    seq(hi - lo, i requires 0 <= i => lo + i)
  }

  lemma {:induction false} RangeOnce(n: nat)
    ensures OnceEach(Range(0, n), n)
  {
    if n == 0 {
      assert Range(0, n) == [];
    } else {
      var w: nat := n - 1;
      RangeOnce(w);
      assert Range(0, n) == Range(0, w) + [w];
      assert multiset(Range(0, n)) == multiset(Range(0, w)) + multiset{w};
    }
  }

  // The workers of logger i: as many as for every other, from where the one
  // before ends, and for the last one all that are left.
  ghost predicate IsSlice(ws: seq<nat>, i: nat, n: nat, nfds: nat)
    requires 0 < nfds
  {
    && |ws| == (if i == nfds - 1 then n - i * (n / nfds) else n / nfds)
    && forall k :: 0 <= k < |ws| ==> ws[k] == i * (n / nfds) + k
  }

  // Each worker has a logger of its own.
  method OneToOne(n: nat) returns (a: seq<seq<nat>>)
    ensures |a| == n && Flat(a) == Range(0, n) && forall i :: 0 <= i < n ==> a[i] == [i]
  {
    a := [];
    for i := 0 to n
      invariant |a| == i && Flat(a) == Range(0, i) && forall j :: 0 <= j < i ==> a[j] == [j]
    {
      assert Range(0, i + 1) == Range(0, i) + [i];
      a := a + [[i]];
      assert a[..|a| - 1] + [[i]] == a;
    }
  }

  // Equal slices, the last one taking the remainder.
  method Slices(n: nat, nfds: nat) returns (a: seq<seq<nat>>)
    requires 0 < nfds < n
    ensures |a| == nfds && Flat(a) == Range(0, n) && forall i :: 0 <= i < nfds ==> IsSlice(a[i], i, n, nfds)
  {
    a := [];
    var per := n / nfds;
    for i := 0 to nfds
      invariant |a| == i && 0 <= i * per <= n && nfds * per <= n
      invariant Flat(a) == Range(0, if i == nfds then n else i * per)
      invariant forall j :: 0 <= j < i ==> IsSlice(a[j], j, n, nfds)
    {
      SliceBound(i, nfds, per);
      var hi := if i + 1 == nfds then n else (i + 1) * per;
      ghost var was := a;
      a := a + [Range(i * per, hi)];
      assert a[..|a| - 1] == was;
      assert Range(0, hi) == Range(0, i * per) + Range(i * per, hi);
    }
  }

  // Workers one to one if there are loggers enough; otherwise equal slices.
  method DefaultAssignments(n: nat, nfds: nat) returns (a: seq<seq<nat>>)
    requires 0 < n && 0 < nfds
    ensures Valid(a, nfds, n)
    ensures n <= nfds ==> |a| == n && forall i :: 0 <= i < n ==> a[i] == [i]
    ensures nfds < n ==> |a| == nfds && forall i :: 0 <= i < nfds ==> IsSlice(a[i], i, n, nfds)
  {
    if n <= nfds { a := OneToOne(n); } else { a := Slices(n, nfds); }
    RangeOnce(n);
  }

  lemma SliceBound(i: nat, nfds: nat, per: nat)
    requires i < nfds
    ensures i * per <= (i + 1) * per <= nfds * per && (i + 1) * per == i * per + per
  {
    MulMono(per, i + 1, nfds);
  }

  function Times(ws: seq<nat>, w: nat): nat { multiset(ws)[w] }

  // Worker w's logger visits cores w, w + n, w + 2n, ...
  predicate Serves(w: nat, core: nat, n: nat)
    requires 0 < n
  {
    w <= core && (core - w) % n == 0
  }

  lemma ServesExactly(w: nat, core: nat, n: nat)
    requires w < n
    ensures Serves(w, core, n) <==> w == core % n
  {
    var r: nat := core % n;
    assert r <= core && core == n * (core / n) + r;
    ModUnique(core - r, n, core / n, 0);
    if Serves(w, core, n) { ModUnique(core, n, (core - w) / n, w); }
  }

  // Every core is served by exactly one logger: the one of its worker.
  lemma CoversEachCore(a: seq<seq<nat>>, nfds: nat, n: nat, core: nat, w: nat)
    requires 0 < n && Valid(a, nfds, n)
    ensures w in Flat(a) && Serves(w, core, n) <==> w == core % n
    ensures Times(Flat(a), core % n) == 1
  {
    assert w in Flat(a) <==> w in multiset(Flat(a));
    if w < n { ServesExactly(w, core, n); }
  }
}
