// Free lists threaded through memory: every free block is on exactly one
// list, and its first word leads to the next block of that list.

module ArenaLists {
  import opened Basics

  // Owned by a CPU's region, by a thread, or being collected for a release.
  datatype Id = Region(cpu: nat, arena: nat) | Thread(t: nat, arena: nat) | Local(cpu: nat, arena: nat)

  // Word 0 of each block; 0 is the null pointer.
  type Memory = map<int, int>

  // Where a block is; None once handed out.
  type Places = map<int, Option<Id>>

  function First(xs: seq<int>): int { if xs == [] then 0 else xs[0] }

  ghost predicate Chain(mem: Memory, first: int, xs: seq<int>) {
    && first == First(xs)
    && (forall i {:trigger xs[i]} :: 0 <= i < |xs| ==> xs[i] != 0 && xs[i] in mem)
    && (forall i {:trigger mem[xs[i]]} :: 0 <= i < |xs| && xs[i] in mem ==> mem[xs[i]] == First(xs[i + 1..]))
  }

  ghost predicate Chains(mem: Memory, head: map<Id, int>, list: map<Id, seq<int>>) {
    && list.Keys == head.Keys
    && forall id :: id in head && id in list ==> Chain(mem, head[id], list[id])
  }

  // Places and lists say the same.
  ghost predicate Placed(list: map<Id, seq<int>>, place: Places) {
    && (forall id, x :: id in list && x in list[id] ==> x in place && place[x] == Some(id))
    && (forall x :: x in place && place[x].Some? ==> place[x].value in list && x in list[place[x].value])
  }

  // A list that ends does not come back to itself.
  lemma {:induction false} NoRepeat(mem: Memory, first: int, xs: seq<int>, i: nat, j: nat)
    requires Chain(mem, first, xs) && i < j < |xs|
    ensures xs[i] != xs[j]
    decreases |xs| - j
  {
    assert mem[xs[i]] == xs[i + 1];
    if j + 1 < |xs| {
      assert mem[xs[j]] == xs[j + 1];
      NoRepeat(mem, first, xs, i + 1, j + 1);
    } else {
      assert mem[xs[j]] == 0;
    }
  }

  lemma ChainTail(mem: Memory, first: int, xs: seq<int>)
    requires Chain(mem, first, xs) && xs != []
    ensures Chain(mem, mem[first], xs[1..]) && first !in xs[1..]
  {
    var r := xs[1..];
    assert mem[xs[0]] == First(xs[1..]);
    forall i | 0 <= i < |r| ensures r[i] in mem && mem[r[i]] == First(r[i + 1..]) {
      assert r[i] == xs[i + 1] && r[i + 1..] == xs[i + 2..] && mem[xs[i + 1]] == First(xs[i + 2..]);
    }
    forall j | 0 < j < |xs| ensures xs[0] != xs[j] { NoRepeat(mem, first, xs, 0, j); }
  }

  lemma ChainCons(mem: Memory, first: int, xs: seq<int>, x: int)
    requires Chain(mem, first, xs) && x != 0 && x !in xs
    ensures Chain(mem[x := first], x, [x] + xs)
  {
    var r := [x] + xs;
    var mem' := mem[x := first];
    forall i | 0 <= i < |r| ensures r[i] in mem' && r[i] != 0 && mem'[r[i]] == First(r[i + 1..]) {
      if i == 0 {
        assert r[1..] == xs;
      } else {
        assert r[i] == xs[i - 1] && r[i + 1..] == xs[i..] && mem[xs[i - 1]] == First(xs[i..]);
      }
    }
  }

  lemma ChainFrame(mem: Memory, mem': Memory, first: int, xs: seq<int>)
    requires Chain(mem, first, xs) && forall x :: x in xs ==> x in mem' && (x in mem ==> mem'[x] == mem[x])
    ensures Chain(mem', first, xs)
  {
    forall i | 0 <= i < |xs|
      ensures xs[i] in mem' && mem'[xs[i]] == First(xs[i + 1..])
    {
      assert mem[xs[i]] == First(xs[i + 1..]);
    }
  }

  // ---- taking a block off a list ----

  lemma PopKeeps(mem: Memory, head: map<Id, int>, list: map<Id, seq<int>>, place: Places, id: Id)
    requires Chains(mem, head, list) && Placed(list, place) && id in head && head[id] != 0
    ensures list[id] != [] && head[id] == list[id][0] && head[id] in mem && head[id] in place
    ensures Chains(mem, head[id := mem[head[id]]], list[id := list[id][1..]])
    ensures Placed(list[id := list[id][1..]], place[head[id] := None])
  {
    var x := head[id];
    ChainTail(mem, x, list[id]);
    var list' := list[id := list[id][1..]];
    assert x in list[id];
    forall o, y | o in list' && y in list'[o] ensures y in place && y != x && place[y] == Some(o) {
      assert y in list[o];
    }
  }

  // ---- putting a block on a list ----

  lemma PushKeeps(mem: Memory, head: map<Id, int>, list: map<Id, seq<int>>, place: Places, id: Id, x: int)
    requires Chains(mem, head, list) && Placed(list, place) && id in head && x in place && place[x] == None && x != 0
    ensures Chains(mem[x := head[id]], head[id := x], list[id := [x] + list[id]])
    ensures Placed(list[id := [x] + list[id]], place[x := Some(id)])
  {
    var mem' := mem[x := head[id]];
    forall o | o in list ensures x !in list[o] {}
    forall o | o in head && o != id ensures Chain(mem', head[o], list[o]) { ChainFrame(mem, mem', head[o], list[o]); }
    ChainCons(mem, head[id], list[id], x);
    var list' := list[id := [x] + list[id]];
    forall o, y | o in list' && y in list'[o] ensures y in place && place[x := Some(id)][y] == Some(o) {
      if y != x { assert y in list[o]; }
    }
  }

  // ---- joining two lists ----

  function Moved(place: Places, xs: seq<int>, id: Id): Places {
    map x | x in place :: if x in xs then Some(id) else place[x]
  }

  // xs, ending in `last`, is linked in front of ys.
  lemma ChainJoin(mem: Memory, f: int, xs: seq<int>, g: int, ys: seq<int>, last: int)
    requires Chain(mem, f, xs) && Chain(mem, g, ys) && xs != [] && last == xs[|xs| - 1]
    requires forall x :: x in xs ==> x !in ys
    ensures Chain(mem[last := g], f, xs + ys)
  {
    var r := xs + ys;
    var mem' := mem[last := g];
    forall i | 0 <= i < |r| ensures r[i] in mem' && r[i] != 0 && mem'[r[i]] == First(r[i + 1..]) {
      if i < |xs| - 1 {
        NoRepeat(mem, f, xs, i, |xs| - 1);
        assert r[i] == xs[i] && mem[xs[i]] == First(xs[i + 1..]) && xs[i + 1..][0] == xs[i + 1] &&
          r[i + 1..][0] == xs[i + 1];
      } else if i == |xs| - 1 {
        assert r[i] == xs[i] && r[i + 1..] == ys;
      } else {
        var j := i - |xs|;
        assert r[i] == ys[j] && ys[j] in ys && last in xs;
        assert r[i + 1..] == ys[j + 1..] && mem[ys[j]] == First(ys[j + 1..]);
      }
    }
  }

  ghost predicate Joined(head: map<Id, int>, list: map<Id, seq<int>>, from: Id, to: Id, head': map<Id, int>,
                         list': map<Id, seq<int>>)
  {
    && from in head && to in head && from in list && to in list && from != to
    && head' == head[to := head[from]][from := 0] && list' == list[to := list[from] + list[to]][from := []]
  }

  lemma JoinPlaces(list: map<Id, seq<int>>, place: Places, from: Id, to: Id)
    requires Placed(list, place) && from in list && to in list && from != to
    ensures Placed(list[to := list[from] + list[to]][from := []], Moved(place, list[from], to))
  {
    var list' := list[to := list[from] + list[to]][from := []];
    var place' := Moved(place, list[from], to);
    forall id, x | id in list' && x in list'[id] ensures x in place' && place'[x] == Some(id) {
      if id == to {
        if x !in list[from] { assert x in list[to]; }
      } else {
        assert x in list[id] && x !in list[from];
      }
    }
    forall x | x in place' && place'[x].Some? ensures place'[x].value in list' && x in list'[place'[x].value] {
      if x !in list[from] { assert x in list[place[x].value]; }
    }
  }

  lemma JoinKeeps(mem: Memory, head: map<Id, int>, list: map<Id, seq<int>>, place: Places, from: Id, to: Id, last: int,
                  head': map<Id, int>, list': map<Id, seq<int>>)
    requires Chains(mem, head, list) && Placed(list, place) && Joined(head, list, from, to, head', list')
    requires list[from] != [] && last == list[from][|list[from]| - 1]
    ensures Chains(mem[last := head[to]], head', list')
  {
    var mem' := mem[last := head[to]];
    assert last in list[from];
    forall x | x in list[from] ensures x !in list[to] { assert place[x] == Some(from); }
    assert place[last] == Some(from);
    ChainJoin(mem, head[from], list[from], head[to], list[to], last);
    forall id | id in head' && id != to ensures Chain(mem', head'[id], list'[id]) {
      if id != from {
        forall x | x in list[id] ensures x != last { assert place[x] == Some(id); }
        ChainFrame(mem, mem', head[id], list[id]);
      }
    }
  }

  // A whole list moves to an empty one: no word of memory changes.
  lemma MoveKeeps(mem: Memory, head: map<Id, int>, list: map<Id, seq<int>>, place: Places, from: Id, to: Id,
                  head': map<Id, int>, list': map<Id, seq<int>>)
    requires Chains(mem, head, list) && Placed(list, place) && Joined(head, list, from, to, head', list')
    requires list[to] == [] && list[from] != []
    ensures Chains(mem, head', list')
  {
    var xs := list[from];
    var last := xs[|xs| - 1];
    assert mem[last] == First(xs[|xs|..]);
    JoinKeeps(mem, head, list, place, from, to, last, head', list');
    assert mem[last := head[to]] == mem;
  }

  // ---- a new page ----

  function Added(place: Places, xs: seq<int>, id: Id): Places {
    map x | x in place.Keys + (set y | y in xs) :: if x in xs then Some(id) else place[x]
  }

  lemma AddPlaces(list: map<Id, seq<int>>, place: Places, id: Id, xs: seq<int>)
    requires Placed(list, place) && id in list && list[id] == [] && forall x :: x in xs ==> x !in place
    ensures Placed(list[id := xs], Added(place, xs, id))
  {
    var list', place' := list[id := xs], Added(place, xs, id);
    forall x | x in place' && place'[x].Some? ensures place'[x].value in list' && x in list'[place'[x].value] {
      if x !in xs { assert x in place && x in list[place[x].value]; }
    }
  }

  lemma CarveKeeps(mem: Memory, mem': Memory, head: map<Id, int>, list: map<Id, seq<int>>, place: Places, id: Id,
                   first: int, xs: seq<int>)
    requires Chains(mem, head, list) && Placed(list, place) && id in list && list[id] == []
    requires Chain(mem', first, xs) && forall x :: x in xs ==> x !in place
    requires forall x :: x in mem && x !in xs ==> x in mem' && mem'[x] == mem[x]
    ensures Chains(mem', head[id := first], list[id := xs])
  {
    forall o | o in head && o != id ensures Chain(mem', head[o], list[o]) {
      CarveFrame(mem, mem', head[o], list[o], place, xs);
    }
  }

  lemma CarveFrame(mem: Memory, mem': Memory, first: int, ys: seq<int>, place: Places, xs: seq<int>)
    requires Chain(mem, first, ys) && (forall y :: y in ys ==> y in place) && (forall x :: x in xs ==> x !in place)
    requires forall x :: x in mem && x !in xs ==> x in mem' && mem'[x] == mem[x]
    ensures Chain(mem', first, ys)
  {
    forall x | x in ys ensures x in mem' && x in mem && mem'[x] == mem[x] {
      var i :| 0 <= i < |ys| && ys[i] == x;
    }
    ChainFrame(mem, mem', first, ys);
  }
}
