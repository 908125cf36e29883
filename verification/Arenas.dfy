// The arena allocator: huge pages carved into blocks of one size class, free
// lists per CPU and per thread, and the release of a thread's blocks to the
// CPUs that own them.

module Arenas {
  import opened Arith
  import opened ArenaLists

  const ALIGN := 16
  const MAX_ARENAS := 32
  const WORD := 0x1_0000_0000_0000_0000

  function Unit(arena: nat): nat { (arena + 1) * ALIGN }

  // The rounded size and the size class, in size_t arithmetic.
  function ArenaSize(sz: nat): (r: (int, int)) {
    var rounded := (sz + ALIGN - 1) / ALIGN * ALIGN;
    (rounded, (rounded / ALIGN + WORD - 1) % WORD)
  }

  // A request fits its block with no smaller class that would do; a request
  // for no bytes or for more than the largest class has no arena.
  lemma ArenaSizeFits(sz: nat)
    requires sz + ALIGN <= WORD
    ensures var a := ArenaSize(sz).1;
      && (a < MAX_ARENAS <==> 0 < sz <= MAX_ARENAS * ALIGN)
      && (0 < sz ==> ArenaSize(sz).0 == Unit(a) && sz <= Unit(a) < sz + ALIGN)
  {
  }

  // ---- carving a page ----

  function Ceil(x: int, u: int): int
    requires 1 <= u
  {
    (x + u - 1) / u * u
  }

  lemma CeilFits(x: int, u: int)
    requires 1 <= u
    ensures x <= Ceil(x, u) < x + u && Ceil(x, u) % u == 0
  {
    var q := (x + u - 1) / u;
    assert x + u - 1 == u * q + (x + u - 1) % u;
    assert Ceil(x, u) == u * q;
    ModUnique(Ceil(x, u), u, q, 0);
  }

  // The aligned blocks of u bytes that fit into [page, page + size), from the first one on.
  ghost predicate Carved(xs: seq<int>, page: int, size: int, u: int)
    requires 1 <= u
  {
    && xs != [] && xs[0] == Ceil(page, u)
    && (forall i {:trigger xs[i]} :: 0 <= i < |xs| ==> xs[i] == xs[0] + i * u)
    && xs[|xs| - 1] + u <= page + size < xs[|xs| - 1] + 2 * u
  }

  // Every word but the last leads to the next block.
  ghost predicate Threaded(mem: Memory, xs: seq<int>) {
    && (forall i {:trigger xs[i]} :: 0 <= i < |xs| - 1 ==> xs[i] in mem)
    && (forall i {:trigger mem[xs[i]]} :: 0 <= i < |xs| - 1 && xs[i] in mem ==> mem[xs[i]] == xs[i + 1])
  }

  method InitializePage(mem: Memory, page: int, size: int, u: int)
    returns (mem': Memory, first: int, ghost xs: seq<int>)
    requires 1 <= u && 0 < page && Ceil(page, u) + u <= page + size
    ensures Carved(xs, page, size, u) && Chain(mem', first, xs)
    ensures forall x :: x in mem && x !in xs ==> x in mem' && mem'[x] == mem[x]
  {
    CeilFits(page, u);
    mem', first := mem, Ceil(page, u);
    xs := [first];
    var p := first;
    var next := p + u;
    while next + u <= page + size
      invariant xs != [] && xs[0] == first && p == xs[|xs| - 1] && next == p + u && p + u <= page + size
      invariant forall i {:trigger xs[i]} :: 0 <= i < |xs| ==> xs[i] == first + i * u
      invariant Threaded(mem', xs)
      invariant forall x :: x in mem && x !in xs ==> x in mem' && mem'[x] == mem[x]
      decreases page + size - next
    {
      ThreadNext(mem', xs, first, u, next);
      mem' := mem'[p := next];
      xs := xs + [next];
      p := next;
      next := next + u;
    }
    ThreadEnd(mem', xs, first, u);
    mem' := mem'[p := 0];
  }

  lemma Spread(xs: seq<int>, first: int, u: int, i: nat, j: nat)
    requires 1 <= u && i < j < |xs| && forall k {:trigger xs[k]} :: 0 <= k < |xs| ==> xs[k] == first + k * u
    ensures xs[i] + u <= xs[j]
  {
    MulMono(u, i + 1, j);
    assert xs[i] == first + i * u && xs[j] == first + j * u;
  }

  lemma ThreadNext(mem: Memory, xs: seq<int>, first: int, u: int, next: int)
    requires 1 <= u && xs != [] && Threaded(mem, xs) && next == xs[|xs| - 1] + u
    requires forall k {:trigger xs[k]} :: 0 <= k < |xs| ==> xs[k] == first + k * u
    ensures Threaded(mem[xs[|xs| - 1] := next], xs + [next]) && next == first + |xs| * u
  {
    var p, r := xs[|xs| - 1], xs + [next];
    var mem' := mem[p := next];
    forall i | 0 <= i < |r| - 1 ensures r[i] in mem' && mem'[r[i]] == r[i + 1] {
      if i < |xs| - 1 {
        Spread(xs, first, u, i, |xs| - 1);
        assert mem[xs[i]] == xs[i + 1];
      }
    }
  }

  lemma ThreadEnd(mem: Memory, xs: seq<int>, first: int, u: int)
    requires 1 <= u && xs != [] && Threaded(mem, xs) && 0 < first
    requires forall k {:trigger xs[k]} :: 0 <= k < |xs| ==> xs[k] == first + k * u
    ensures Chain(mem[xs[|xs| - 1] := 0], first, xs)
  {
    var last := xs[|xs| - 1];
    var mem' := mem[last := 0];
    assert xs[0] == first + 0 * u;
    forall i | 0 <= i < |xs| ensures xs[i] != 0 && xs[i] in mem' && mem'[xs[i]] == First(xs[i + 1..]) {
      if i > 0 { Spread(xs, first, u, 0, i); }
      if i < |xs| - 1 {
        Spread(xs, first, u, i, |xs| - 1);
        assert mem[xs[i]] == xs[i + 1];
      }
    }
  }

  // ---- blocks ----

  // The size class of a block and the CPU whose region it was carved from.
  datatype Block = Block(arena: nat, cpu: nat)

  function Start(memstart: int, per: int, cpu: nat): int { memstart + cpu * per }

  lemma StartMono(memstart: int, per: int, c: nat, d: nat)
    requires 0 <= per && c < d
    ensures Start(memstart, per, c) + per <= Start(memstart, per, d)
  {
    MulMono(per, c + 1, d);
  }

  // x is aligned to its size and lies in the used part of its CPU's region.
  predicate BlockOk(x: int, b: Block, begin: seq<int>, memstart: int, per: int) {
    && b.arena < MAX_ARENAS && b.cpu < |begin| && x % Unit(b.arena) == 0
    && Start(memstart, per, b.cpu) <= x && x + Unit(b.arena) <= begin[b.cpu]
  }

  ghost predicate BlocksOk(blocks: map<int, Block>, begin: seq<int>, memstart: int, per: int) {
    forall x :: x in blocks ==> BlockOk(x, blocks[x], begin, memstart, per)
  }

  ghost predicate Disjoint(blocks: map<int, Block>) {
    forall x, y :: x in blocks && y in blocks && x < y ==> x + Unit(blocks[x].arena) <= y
  }

  // Regions are used from the start up, page by page.
  ghost predicate RegionsOk(begin: seq<int>, memstart: int, per: int, page: int) {
    && 1024 <= page && 0 < memstart && 0 < per
    && forall c {:trigger begin[c]} :: 0 <= c < |begin| ==>
         && Start(memstart, per, c) <= begin[c] <= Start(memstart, per, c) + per
         && begin[c] % page == 0
  }

  // A pointer's CPU by division is the CPU it was carved from.
  lemma PointerCpu(x: int, b: Block, begin: seq<int>, memstart: int, per: int, page: int)
    requires RegionsOk(begin, memstart, per, page) && BlockOk(x, b, begin, memstart, per)
    ensures (x - memstart) / per == b.cpu && memstart <= x < Start(memstart, per, |begin|)
  {
    var r := x - Start(memstart, per, b.cpu);
    assert begin[b.cpu] <= Start(memstart, per, b.cpu) + per;
    assert x - memstart == per * b.cpu + r && 0 <= r < per;
    ModUnique(x - memstart, per, b.cpu, r);
    MulMono(per, 0, b.cpu);
    StartMono(memstart, per, b.cpu, |begin|);
  }

  function AddBlocks(blocks: map<int, Block>, xs: seq<int>, b: Block): map<int, Block> {
    map x | x in blocks.Keys + (set y | y in xs) :: if x in xs then b else blocks[x]
  }

  // Where an old block lies from a page at the end of cpu's used part.
  lemma OldBlock(x: int, b: Block, begin: seq<int>, memstart: int, per: int, page: int, cpu: nat)
    requires RegionsOk(begin, memstart, per, page) && cpu < |begin| && BlockOk(x, b, begin, memstart, per)
    requires begin[cpu] + page <= Start(memstart, per, cpu) + per
    ensures x + Unit(b.arena) <= begin[cpu] || begin[cpu] + page <= x
  {
    assert begin[b.cpu] <= Start(memstart, per, b.cpu) + per;
    if b.cpu < cpu {
      StartMono(memstart, per, b.cpu, cpu);
    } else if cpu < b.cpu {
      StartMono(memstart, per, cpu, b.cpu);
    }
  }

  lemma NewBlock(xs: seq<int>, page: int, size: int, u: int, x: int)
    requires 1 <= u && Carved(xs, page, size, u) && x in xs
    ensures page <= x && x + u <= page + size && x % u == 0
  {
    var i :| 0 <= i < |xs| && xs[i] == x;
    CeilFits(page, u);
    var last := |xs| - 1;
    if i > 0 { Spread(xs, xs[0], u, 0, i); }
    if i < last { Spread(xs, xs[0], u, i, last); }
    var q := xs[0] / u;
    assert xs[0] == u * q + xs[0] % u;
    assert x == u * (q + i);
    ModUnique(x, u, q + i, 0);
  }

  lemma CarveBlocks(blocks: map<int, Block>, begin: seq<int>, memstart: int, per: int, page: int, cpu: nat,
                    arena: nat, xs: seq<int>)
    requires RegionsOk(begin, memstart, per, page) && BlocksOk(blocks, begin, memstart, per) && cpu < |begin|
    requires arena < MAX_ARENAS
    requires begin[cpu] + page <= Start(memstart, per, cpu) + per && Carved(xs, begin[cpu], page, Unit(arena))
    ensures forall x :: x in xs ==> x !in blocks
    ensures BlocksOk(AddBlocks(blocks, xs, Block(arena, cpu)), begin[cpu := begin[cpu] + page], memstart, per)
  {
    forall x | x in xs
      ensures x !in blocks && BlockOk(x, Block(arena, cpu), begin[cpu := begin[cpu] + page], memstart, per)
    {
      NewBlock(xs, begin[cpu], page, Unit(arena), x);
      if x in blocks { OldBlock(x, blocks[x], begin, memstart, per, page, cpu); }
    }
  }

  lemma CarveDisjoint(blocks: map<int, Block>, begin: seq<int>, memstart: int, per: int, page: int, cpu: nat,
                      arena: nat, xs: seq<int>)
    requires RegionsOk(begin, memstart, per, page) && BlocksOk(blocks, begin, memstart, per) && Disjoint(blocks)
    requires cpu < |begin|
    requires begin[cpu] + page <= Start(memstart, per, cpu) + per && Carved(xs, begin[cpu], page, Unit(arena))
    ensures Disjoint(AddBlocks(blocks, xs, Block(arena, cpu)))
  {
    var all := AddBlocks(blocks, xs, Block(arena, cpu));
    forall x, y | x in all && y in all && x < y ensures x + Unit(all[x].arena) <= y {
      if x in xs {
        NewBlock(xs, begin[cpu], page, Unit(arena), x);
      } else {
        OldBlock(x, blocks[x], begin, memstart, per, page, cpu);
      }
      if y in xs {
        NewBlock(xs, begin[cpu], page, Unit(arena), y);
      } else {
        OldBlock(y, blocks[y], begin, memstart, per, page, cpu);
      }
      if x in xs && y in xs {
        var i :| 0 <= i < |xs| && xs[i] == x;
        var j :| 0 <= j < |xs| && xs[j] == y;
        if i < j { Spread(xs, xs[0], Unit(arena), i, j); } else if j < i { Spread(xs, xs[0], Unit(arena), j, i); }
      }
    }
  }
}
