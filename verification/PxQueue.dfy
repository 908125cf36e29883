// The queue of groups behind the delete queues: singly linked groups of
// entries of one tick, with a freelist of empty groups.

module PxQueue {

  class Group<T> {
    var next: Group?<T>
    var pxs: seq<T>
    var tick: int

    constructor ()
      ensures next == null && pxs == [] && tick == 0
    {
      next, pxs, tick := null, [], 0;
    }
  }

  function Succ<T>(gs: seq<Group<T>>, i: nat): Group?<T> { if i + 1 < |gs| then gs[i + 1] else null }

  // The first and the last group alone, for frames.
  function FirstOf<T>(gs: seq<Group<T>>): (r: seq<Group<T>>)
    ensures r == if gs == [] then [] else [gs[0]]
  {
    if gs == [] then [] else [gs[0]]
  }

  function LastOf<T>(gs: seq<Group<T>>): (r: seq<Group<T>>)
    ensures r == if gs == [] then [] else [gs[|gs| - 1]]
  {
    if gs == [] then [] else [gs[|gs| - 1]]
  }

  // gs is the chain from first to last.
  ghost predicate Linked<T>(gs: seq<Group<T>>, first: Group?<T>, last: Group?<T>)
    reads gs`next
  {
    && first == (if gs == [] then null else gs[0]) && last == (if gs == [] then null else gs[|gs| - 1])
    && (forall i {:trigger gs[i].next} :: 0 <= i < |gs| ==> gs[i].next == Succ(gs, i))
  }

  // A chain that ends does not come back to itself.
  lemma {:induction false} NoRepeat<T>(gs: seq<Group<T>>, first: Group?<T>, last: Group?<T>, i: nat, j: nat)
    requires Linked(gs, first, last) && i < j < |gs|
    ensures gs[i] != gs[j]
    decreases |gs| - j
  {
    assert gs[i].next == Succ(gs, i) && gs[j].next == Succ(gs, j);
    if j + 1 < |gs| { NoRepeat(gs, first, last, i + 1, j + 1); }
  }

  lemma LinkedCons<T>(p: Group<T>, gs: seq<Group<T>>, first: Group?<T>, last: Group?<T>)
    requires Linked(gs, first, last) && p !in gs && p.next == first
    ensures Linked([p] + gs, p, if gs == [] then p else last)
  {
    var r := [p] + gs;
    forall i | 0 <= i < |r| ensures r[i].next == Succ(r, i) {
      if i > 0 { assert r[i] == gs[i - 1]; }
      if i + 1 < |r| { assert r[i + 1] == gs[i]; }
    }
  }

  lemma LinkedTail<T>(gs: seq<Group<T>>, first: Group?<T>, last: Group?<T>)
    requires Linked(gs, first, last) && gs != []
    ensures Linked(gs[1..], gs[0].next, if |gs| == 1 then null else last) && gs[0] !in gs[1..]
  {
    var r := gs[1..];
    forall j | 0 < j < |gs| ensures gs[0] != gs[j] { NoRepeat(gs, first, last, 0, j); }
    forall i | 0 <= i < |r| ensures r[i].next == Succ(r, i) { assert r[i] == gs[i + 1]; }
  }

  // g has just been linked behind the last group.
  lemma LinkedSnoc<T>(gs: seq<Group<T>>, g: Group<T>)
    requires gs != [] && g.next == null
    requires forall i :: 0 <= i < |gs| ==> gs[i].next == Succ(gs + [g], i)
    ensures Linked(gs + [g], gs[0], g)
  {
    var r := gs + [g];
    forall i | 0 <= i < |r| ensures r[i].next == Succ(r, i) {
      if i < |gs| { assert r[i] == gs[i]; }
    }
  }

  method LinkBehind<T>(last: Group<T>, g: Group<T>, ghost gs: seq<Group<T>>)
    requires gs != [] && Linked(gs, gs[0], last) && g !in gs && g.next == null
    modifies last`next
    ensures Linked(gs + [g], gs[0], g)
  {
    assert gs[|gs| - 1].next == null;
    forall i | 0 <= i < |gs| - 1 ensures gs[i] != last && gs[i].next == gs[i + 1] { assert gs[i].next == Succ(gs, i); }
    last.next := g;
    forall i | 0 <= i < |gs| ensures gs[i].next == Succ(gs + [g], i) {}
    LinkedSnoc(gs, g);
  }

  // Live groups are not empty, not too full, and sorted by tick.
  ghost predicate Filled<T>(gs: seq<Group<T>>, cap: nat)
    reads gs`pxs, gs`tick
  {
    && (forall i {:trigger gs[i].pxs} :: 0 <= i < |gs| ==> 0 < |gs[i].pxs| <= cap)
    && (forall i, j {:trigger gs[i].tick, gs[j].tick} :: 0 <= i < j < |gs| ==> gs[i].tick <= gs[j].tick)
  }

  ghost predicate Apart<T>(a: seq<Group<T>>, b: seq<Group<T>>) { forall i :: 0 <= i < |a| ==> a[i] !in b }

  // An entry and its tick.
  datatype Entry<T> = Entry(px: T, tick: int)

  function Tagged<T>(pxs: seq<T>, tick: int): (r: seq<Entry<T>>)
    ensures |r| == |pxs| && forall i :: 0 <= i < |r| ==> r[i] == Entry(pxs[i], tick)
  {
    seq(|pxs|, i requires 0 <= i < |pxs| => Entry(pxs[i], tick))
  }

  ghost function Contents<T>(gs: seq<Group<T>>): seq<Entry<T>>
    reads gs`pxs, gs`tick
  {
    if gs == [] then [] else Contents(gs[..|gs| - 1]) + Tagged(gs[|gs| - 1].pxs, gs[|gs| - 1].tick)
  }

  lemma {:induction false} ContentsJoin<T>(a: seq<Group<T>>, b: seq<Group<T>>)
    ensures Contents(a + b) == Contents(a) + Contents(b)
  {
    if b == [] {
      assert a + b == a;
    } else {
      var r := a + b;
      ContentsJoin(a, b[..|b| - 1]);
      assert r[..|r| - 1] == a + b[..|b| - 1];
    }
  }

  // Every entry has the tick of one of the groups.
  lemma {:induction false} ContentsTick<T>(gs: seq<Group<T>>, k: nat) returns (i: nat)
    requires k < |Contents(gs)|
    ensures i < |gs| && Contents(gs)[k].tick == gs[i].tick
  {
    var n := |gs| - 1;
    if k < |Contents(gs[..n])| {
      i := ContentsTick(gs[..n], k);
      assert gs[..n][i] == gs[i];
    } else {
      i := n;
    }
  }

  ghost predicate Upto<T>(es: seq<Entry<T>>, e: int) { forall k :: 0 <= k < |es| ==> es[k].tick <= e }

  ghost predicate After<T>(es: seq<Entry<T>>, e: int) { forall k :: 0 <= k < |es| ==> e < es[k].tick }

  lemma AllUpto<T>(gs: seq<Group<T>>, e: int)
    requires forall i :: 0 <= i < |gs| ==> gs[i].tick <= e
    ensures Upto(Contents(gs), e)
  {
    forall k | 0 <= k < |Contents(gs)| ensures Contents(gs)[k].tick <= e { var i := ContentsTick(gs, k); }
  }

  lemma AllAfter<T>(gs: seq<Group<T>>, cap: nat, e: int)
    requires Filled(gs, cap) && (gs != [] ==> e < gs[0].tick)
    ensures After(Contents(gs), e)
  {
    forall k | 0 <= k < |Contents(gs)| ensures e < Contents(gs)[k].tick {
      var i := ContentsTick(gs, k);
      assert i > 0 ==> gs[0].tick <= gs[i].tick;
    }
  }

  lemma AcceptContents<T>(a: seq<Group<T>>, b: seq<Group<T>>, cap: nat, e: int)
    requires (forall i {:trigger a[i].tick} :: 0 <= i < |a| ==> a[i].tick <= e) && (b != [] ==> e < b[0].tick)
    requires Filled(b, cap)
    ensures Contents(a) + Contents(b) == Contents(a + b)
    ensures Upto(Contents(a), e) && After(Contents(b), e)
  {
    ContentsJoin(a, b);
    AllUpto(a, e);
    AllAfter(b, cap, e);
  }

  // a's chain, whose last link now leads to b.
  lemma LinkedJoin<T>(a: seq<Group<T>>, b: seq<Group<T>>, first: Group?<T>, last: Group?<T>)
    requires a != [] && Linked(b, first, last)
    requires forall i {:trigger a[i].next} :: 0 <= i < |a| ==> a[i].next == if i + 1 < |a| then a[i + 1] else first
    ensures Linked(a + b, a[0], if b == [] then a[|a| - 1] else last)
  {
    var r := a + b;
    forall i | 0 <= i < |r| ensures r[i].next == Succ(r, i) {
      if i < |a| {
        assert r[i] == a[i] && a[i].next == r[i].next;
      } else {
        assert r[i] == b[i - |a|] && b[i - |a|].next == Succ(b, i - |a|);
      }
    }
  }

  // Links chain b behind chain a.
  method JoinBehind<T>(last: Group<T>, first: Group?<T>, ghost a: seq<Group<T>>, ghost b: seq<Group<T>>,
                       ghost end: Group?<T>)
    requires a != [] && Linked(a, a[0], last) && Linked(b, first, end) && Apart(a, b)
    modifies last`next
    ensures Linked(a + b, a[0], if b == [] then last else end)
  {
    assert a[|a| - 1].next == null;
    forall i | 0 <= i < |a| - 1 ensures a[i] != last && a[i].next == a[i + 1] { assert a[i].next == Succ(a, i); }
    last.next := first;
    LinkedJoin(a, b, first, end);
  }

  class Queue<T> {
    const cap: nat
    var head: Group?<T>
    var tail: Group?<T>
    var freeHead: Group?<T>
    var freeTail: Group?<T>
    var ngroups: nat
    ghost var live: seq<Group<T>>
    ghost var free: seq<Group<T>>

    ghost predicate Valid()
      reads this, live, free
    {
      && 0 < cap && ngroups == |live|
      && Linked(live, head, tail) && Linked(free, freeHead, freeTail)
      && Apart(live, free) && Filled(live, cap)
    }

    constructor (cap: nat)
      requires 0 < cap
      ensures Valid() && live == [] && free == [] && this.cap == cap
    {
      this.cap := cap;
      head, tail, freeHead, freeTail := null, null, null, null;
      ngroups := 0;
      live, free := [], [];
    }

    method IsEmpty() returns (r: bool)
      requires Valid()
      ensures r <==> Contents(live) == []
    {
      r := head == null;
      if live != [] { assert |Tagged(live[|live| - 1].pxs, live[|live| - 1].tick)| > 0; }
    }

    // Puts a group that is not in the queue on the freelist.
    method PushFree(p: Group<T>)
      requires Valid() && p !in live && p !in free
      modifies this`freeHead, this`freeTail, this`free, p`next
      ensures Valid() && free == [p] + old(free)
    {
      p.next := freeHead;
      assert Linked(free, freeHead, freeTail);
      assert Linked(live, head, tail) && Filled(live, cap);
      LinkedCons(p, free, freeHead, freeTail);
      if freeTail == null { freeTail := p; }
      freeHead := p;
      free := [p] + free;
      assert Apart(live, free);
    }

    // Adds n new groups to the freelist.
    method AllocFreelist(n: nat)
      requires Valid()
      modifies this`freeHead, this`freeTail, this`free
      ensures Valid() && |free| == n + |old(free)| && free[n..] == old(free)
      ensures forall i :: 0 <= i < n ==> fresh(free[i])
    {
      for i := 0 to n
        invariant Valid() && |free| == i + |old(free)| && free[i..] == old(free)
        invariant forall j :: 0 <= j < i ==> fresh(free[j])
      {
        var p := new Group<T>();
        PushFree(p);
      }
    }

    method EnsureFreelist()
      requires Valid()
      modifies this`freeHead, this`freeTail, this`free
      ensures Valid() && free != [] && forall i :: 0 <= i < |free| ==> fresh(free[i]) || free[i] in old(free)
    {
      if freeHead == null { AllocFreelist(16); }
    }

    // Takes a group off the freelist, emptied and stamped.
    method PopFree(t: int) returns (g: Group<T>)
      requires Valid() && free != []
      modifies this`freeHead, this`freeTail, this`free, free[0]
      ensures Valid() && g == old(free[0]) && free == old(free[1..]) && g !in live && g !in free
      ensures g.next == null && g.pxs == [] && g.tick == t
    {
      LinkedTail(free, freeHead, freeTail);
      g := freeHead;
      freeHead := g.next;
      if g == freeTail { freeTail := null; }
      free := free[1..];
      g.next, g.pxs, g.tick := null, [], t;
    }

    // The first live group.
    method FirstLive(g: Group<T>)
      requires Valid() && live == [] && g !in free && g.next == null && 0 < |g.pxs| <= cap
      modifies this`head, this`tail, this`ngroups, this`live
      ensures Valid() && live == [g]
    {
      ngroups := 1;
      head, tail := g, g;
      live := [g];
    }

    // Links a filled group behind the tail.
    method AppendLive(g: Group<T>)
      requires Valid() && g !in live && g !in free && g.next == null && 0 < |g.pxs| <= cap
      requires live != [] ==> live[|live| - 1].tick <= g.tick
      modifies this`head, this`tail, this`ngroups, this`live, LastOf(live)`next
      ensures Valid() && live == old(live) + [g]
    {
      if head == null {
        FirstLive(g);
      } else {
        assert tail in LastOf(live);
        LinkBehind(tail, g, live);
        tail := g;
        ngroups := ngroups + 1;
        live := live + [g];
      }
    }

    // A group off the freelist that holds t alone.
    method NewGroup(t: T, tick: int) returns (g: Group<T>)
      requires Valid() && free != []
      modifies this`freeHead, this`freeTail, this`free, free[0]
      ensures Valid() && g == old(free[0]) && free == old(free[1..]) && g !in live && g !in free
      ensures g.next == null && g.pxs == [t] && g.tick == tick
    {
      g := PopFree(tick);
      g.pxs := [t];
    }

    // A new group behind the tail, with its first entry.
    method AppendNew(t: T, tick: int)
      requires Valid() && free != [] && (live != [] ==> live[|live| - 1].tick <= tick)
      modifies this, live`next, free[0]
      ensures Valid() && live == old(live) + [old(free[0])] && free == old(free[1..])
      ensures Contents(live) == old(Contents(live)) + [Entry(t, tick)]
    {
      var g := NewGroup(t, tick);
      AppendLive(g);
      assert live[..|live| - 1] == old(live);
    }

    // Enqueue t at a tick that is not below the last one.
    method Enqueue(t: T, tick: int)
      requires Valid() && (live != [] ==> live[|live| - 1].tick <= tick)
      modifies this, live, free
      ensures Valid() && Contents(live) == old(Contents(live)) + [Entry(t, tick)]
      ensures live == old(live) || (|live| == |old(live)| + 1 && live[..|old(live)|] == old(live))
    {
      if tail == null || |tail.pxs| == cap || tail.tick != tick {
        EnsureFreelist();
        AppendNew(t, tick);
      } else {
        AddToTail(t);
      }
    }

    method AddToTail(t: T)
      requires Valid() && live != [] && |tail.pxs| < cap
      modifies tail`pxs
      ensures Valid() && Contents(live) == old(Contents(live)) + [Entry(t, tail.tick)]
    {
      ghost var front, was := live[..|live| - 1], tail.pxs;
      forall i | 0 <= i < |front| ensures front[i] != tail { NoRepeat(live, head, tail, i, |live| - 1); }
      tail.pxs := tail.pxs + [t];
      assert Tagged(was + [t], tail.tick) == Tagged(was, tail.tick) + [Entry(t, tail.tick)];
    }

    // The two queues share no group.
    ghost predicate Separate(q: Queue<T>)
      reads this, q
    {
      q != this && Apart(live, q.live) && Apart(live, q.free) && Apart(free, q.live) && Apart(free, q.free)
    }

    // Unlinks the first group.
    method PopHead() returns (g: Group<T>)
      requires Valid() && live != []
      modifies this`head, this`tail, this`ngroups, this`live, FirstOf(live)`next
      ensures Valid() && g == old(live[0]) && live == old(live[1..]) && g.next == null && g !in live && g !in free
    {
      LinkedTail(live, head, tail);
      g := head;
      assert g in FirstOf(live);
      head := g.next;
      if head == null { tail := null; }
      live := live[1..];
      ngroups := ngroups - 1;
      g.next := null;
    }

    // Moves source's first group behind this queue's tail.
    method MoveHead(source: Queue<T>)
      requires Valid() && source.Valid() && Separate(source) && cap == source.cap && source.live != []
      requires live != [] ==> live[|live| - 1].tick <= source.live[0].tick
      modifies this`head, this`tail, this`ngroups, this`live, LastOf(live)`next
      modifies source`head, source`tail, source`ngroups, source`live, FirstOf(source.live)`next
      ensures Valid() && source.Valid() && Separate(source)
      ensures live == old(live) + [old(source.live[0])] && source.live == old(source.live[1..])
    {
      assert source.live[0] !in source.free;
      var g := source.PopHead();
      AppendLive(g);
    }

    // The same, with the two queues' groups given as one chain.
    method MoveNext(source: Queue<T>, ghost all: seq<Group<T>>)
      requires Valid() && source.Valid() && Separate(source) && cap == source.cap && source.live != []
      requires live + source.live == all && Filled(all, cap)
      modifies this`head, this`tail, this`ngroups, this`live, source`head, source`tail, source`ngroups, source`live
      modifies all`next
      ensures Valid() && source.Valid() && Separate(source)
      ensures live == old(live) + [old(source.live[0])] && source.live == old(source.live[1..])
      ensures live + source.live == all
    {
      ghost var n := |live|;
      assert all[n] == source.live[0] && (n > 0 ==> all[n - 1] == live[n - 1] && all[n - 1].tick <= all[n].tick);
      MoveHead(source);
    }

    // all's groups up to some point are here, the rest is still in source.
    ghost predicate Accepting(source: Queue<T>, all: seq<Group<T>>, e: int)
      reads this, source, live, free, source.live, source.free, all
    {
      && Valid() && source.Valid() && Separate(source) && cap == source.cap && live + source.live == all
      && Filled(all, cap)
      && forall i {:trigger live[i].tick} :: 0 <= i < |live| ==> live[i].tick <= e
    }

    method AcceptOne(source: Queue<T>, ghost all: seq<Group<T>>, e: int)
      requires Accepting(source, all, e) && source.live != [] && source.live[0].tick <= e
      modifies this`head, this`tail, this`ngroups, this`live, source`head, source`tail, source`ngroups, source`live
      modifies all`next
      ensures Accepting(source, all, e) && |source.live| == |old(source.live)| - 1
    {
      MoveNext(source, all);
    }

    // The loop over source's groups.
    method AcceptGroups(source: Queue<T>, e: int)
      requires Valid() && source.Valid() && Separate(source) && cap == source.cap && live == []
      modifies this`head, this`tail, this`ngroups, this`live
      modifies source`head, source`tail, source`ngroups, source`live, source.live`next
      ensures Valid() && source.Valid() && Separate(source) && live + source.live == old(source.live)
      ensures forall i {:trigger live[i].tick} :: 0 <= i < |live| ==> live[i].tick <= e
      ensures source.live != [] ==> e < source.live[0].tick
    {
      ghost var all := source.live;
      while source.head != null && source.head.tick <= e
        invariant Accepting(source, all, e)
        decreases |source.live|
      {
        AcceptOne(source, all, e);
      }
    }

    // Accepts, into this empty queue, all of source's entries up to tick e.
    method EmptyAcceptFrom(source: Queue<T>, e: int)
      requires Valid() && source.Valid() && Separate(source) && cap == source.cap && live == []
      modifies this`head, this`tail, this`ngroups, this`live
      modifies source`head, source`tail, source`ngroups, source`live, source.live`next
      ensures Valid() && source.Valid() && Separate(source) && live + source.live == old(source.live)
      ensures Contents(live) + Contents(source.live) == old(Contents(source.live))
      ensures Upto(Contents(live), e) && After(Contents(source.live), e)
    {
      AcceptGroups(source, e);
      AcceptContents(live, source.live, cap, e);
    }

    // All live groups go to the front of the freelist.
    method Clear()
      requires Valid()
      modifies this`head, this`tail, this`freeHead, this`freeTail, this`ngroups, this`live, this`free, live`next
      ensures Valid() && live == [] && free == old(live) + old(free)
    {
      if head == null { return; }
      JoinBehind(tail, freeHead, live, free, freeTail);
      if freeTail == null { freeTail := tail; }
      freeHead := head;
      head, tail := null, null;
      ngroups := 0;
      free := live + free;
      live := [];
    }

    // Puts a whole chain on the freelist.
    method TakeFree(first: Group<T>, last: Group<T>, ghost a: seq<Group<T>>)
      requires Valid() && a != [] && Linked(a, first, last) && Apart(a, live) && Apart(a, free)
      modifies this`freeHead, this`freeTail, this`free, last`next
      ensures Valid() && free == a + old(free)
    {
      JoinBehind(last, freeHead, a, free, freeTail);
      if freeTail == null { freeTail := last; }
      freeHead := first;
      free := a + free;
    }

    // Gives the whole freelist to dest.
    method TransferAll(dest: Queue<T>)
      requires Valid() && dest.Valid() && Separate(dest)
      modifies this`freeHead, this`freeTail, this`free, dest`freeHead, dest`freeTail, dest`free, free`next
      ensures Valid() && dest.Valid() && Separate(dest) && free == [] && dest.free == old(free) + old(dest.free)
    {
      if freeHead == null { return; }
      dest.TakeFree(freeHead, freeTail, free);
      freeHead, freeTail := null, null;
      free := [];
    }

    // Takes the first group off the freelist.
    method DropFree() returns (p: Group<T>)
      requires Valid() && free != []
      modifies this`freeHead, this`freeTail, this`free
      ensures Valid() && p == old(free[0]) && free == old(free[1..]) && p !in live && p !in free
    {
      LinkedTail(free, freeHead, freeTail);
      p := freeHead;
      freeHead := p.next;
      if p == freeTail { freeTail := null; }
      free := free[1..];
    }

    method GiveOne(dest: Queue<T>)
      requires Valid() && dest.Valid() && Separate(dest) && free != []
      modifies this`freeHead, this`freeTail, this`free, dest`freeHead, dest`freeTail, dest`free, free`next
      ensures Valid() && dest.Valid() && Separate(dest)
      ensures free == old(free[1..]) && dest.free == [old(free[0])] + old(dest.free)
    {
      assert free[0] !in dest.live && free[0] !in dest.free;
      var p := DropFree();
      dest.PushFree(p);
    }

    // The same, for a freelist that is the rest of all.
    method GiveNext(dest: Queue<T>, ghost all: seq<Group<T>>, ghost c: nat)
      requires Valid() && dest.Valid() && Separate(dest) && c < |all| && free == all[c..]
      modifies this`freeHead, this`freeTail, this`free, dest`freeHead, dest`freeTail, dest`free, all`next
      ensures Valid() && dest.Valid() && Separate(dest)
      ensures free == all[c + 1..] && dest.free == [all[c]] + old(dest.free)
    {
      forall i | 0 <= i < |free| ensures free[i] == all[c + i] {}
      GiveOne(dest);
    }

    // Gives up to n groups of the freelist to dest, one by one.
    method TransferSome(dest: Queue<T>, n: nat)
      requires Valid() && dest.Valid() && Separate(dest)
      modifies this`freeHead, this`freeTail, this`free, dest`freeHead, dest`freeTail, dest`free, free`next
      ensures Valid() && dest.Valid() && Separate(dest)
      ensures var c := if n < |old(free)| then n else |old(free)|;
        free == old(free)[c..] && dest.free == Reversed(old(free)[..c]) + old(dest.free)
    {
      ghost var all := free;
      var c := 0;
      while freeHead != null && c < n
        invariant Valid() && dest.Valid() && Separate(dest) && 0 <= c <= n && c <= |all|
        invariant free == all[c..] && dest.free == Reversed(all[..c]) + old(dest.free)
        decreases n - c
      {
        GiveNext(dest, all, c);
        ReversedNext(all, c, old(dest.free));
        c := c + 1;
      }
    }

    // What the iterator visits from begin() to end().
    method Collect() returns (r: seq<Entry<T>>)
      requires Valid()
      ensures r == Contents(live)
    {
      r := [];
      var px, i := head, 0;
      ghost var k := 0;
      while px != null
        invariant 0 <= k <= |live| && px == (if k < |live| then live[k] else null)
        invariant k < |live| ==>
          0 <= i < |live[k].pxs| && r == Contents(live[..k]) + Tagged(live[k].pxs[..i], live[k].tick)
        invariant k == |live| ==> r == Contents(live)
        decreases |live| - k, if k < |live| then |live[k].pxs| - i else 0
      {
        assert Tagged(px.pxs[..i + 1], px.tick) == Tagged(px.pxs[..i], px.tick) + [Entry(px.pxs[i], px.tick)];
        r := r + [Entry(px.pxs[i], px.tick)];
        i := i + 1;
        if i == |px.pxs| {
          assert px.pxs[..i] == px.pxs && live[..k + 1][..k] == live[..k];
          assert px.next == Succ(live, k);
          px, i, k := px.next, 0, k + 1;
          assert live[..|live|] == live;
        }
      }
    }
  }

  lemma ReversedNext<T>(s: seq<T>, c: nat, rest: seq<T>)
    requires c < |s|
    ensures [s[c]] + (Reversed(s[..c]) + rest) == Reversed(s[..c + 1]) + rest
  {
    assert s[..c + 1][..c] == s[..c];
  }

  function Reversed<T>(s: seq<T>): (r: seq<T>)
    ensures |r| == |s| && forall k :: 0 <= k < |s| ==> r[k] == s[|s| - 1 - k]
  {
    if s == [] then [] else [s[|s| - 1]] + Reversed(s[..|s| - 1])
  }
}
