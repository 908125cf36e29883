// The allocator's state and operations.

module Allocators {
  import opened Basics
  import opened Arith
  import opened ArenaLists
  import opened Arenas

  predicate IsId(id: Id, ncpus: nat, nthreads: nat) {
    id.arena < MAX_ARENAS && if id.Thread? then id.t < nthreads else id.cpu < ncpus
  }

  // A free block is on a list of its size class; only a thread's list may hold
  // blocks of other CPUs.
  ghost predicate Classes(place: Places, blocks: map<int, Block>) {
    forall x :: x in place && x in blocks && place[x].Some? ==>
      && blocks[x].arena == place[x].value.arena
      && (!place[x].value.Thread? ==> blocks[x].cpu == place[x].value.cpu)
  }

  // Free lists partition the free blocks.
  ghost predicate ListsOk(mem: Memory, head: map<Id, int>, list: map<Id, seq<int>>, place: Places,
                          blocks: map<int, Block>, ncpus: nat, nthreads: nat)
  {
    && Chains(mem, head, list) && Placed(list, place) && place.Keys == blocks.Keys && Classes(place, blocks)
    && forall id :: id in head <==> IsId(id, ncpus, nthreads)
  }

  // Blocks are aligned, disjoint and inside their CPU's region.
  ghost predicate CarvingOk(begin: seq<int>, blocks: map<int, Block>, memstart: int, per: int, page: int) {
    RegionsOk(begin, memstart, per, page) && BlocksOk(blocks, begin, memstart, per) && Disjoint(blocks)
  }

  lemma PopLists(mem: Memory, head: map<Id, int>, list: map<Id, seq<int>>, place: Places, blocks: map<int, Block>,
                 ncpus: nat, nthreads: nat, id: Id)
    requires ListsOk(mem, head, list, place, blocks, ncpus, nthreads) && id in head && head[id] != 0
    ensures list[id] != [] && head[id] == list[id][0] && head[id] in mem && head[id] in blocks
    ensures blocks[head[id]].arena == id.arena
    ensures head[id] in place && place[head[id]] == Some(id)
    ensures ListsOk(mem, head[id := mem[head[id]]], list[id := list[id][1..]], place[head[id] := None], blocks,
      ncpus, nthreads)
  {
    PopKeeps(mem, head, list, place, id);
    assert head[id] in list[id] && place[head[id]] == Some(id);
  }

  lemma PushLists(mem: Memory, head: map<Id, int>, list: map<Id, seq<int>>, place: Places, blocks: map<int, Block>,
                  ncpus: nat, nthreads: nat, id: Id, x: int)
    requires ListsOk(mem, head, list, place, blocks, ncpus, nthreads) && id in head && x in blocks && place[x] == None
    requires x != 0
    requires blocks[x].arena == id.arena && (!id.Thread? ==> blocks[x].cpu == id.cpu)
    ensures ListsOk(mem[x := head[id]], head[id := x], list[id := [x] + list[id]], place[x := Some(id)], blocks,
      ncpus, nthreads)
  {
    PushKeeps(mem, head, list, place, id, x);
  }

  // The first block of one list moves to another.
  lemma MoveLists(mem: Memory, head: map<Id, int>, list: map<Id, seq<int>>, place: Places, blocks: map<int, Block>,
                  ncpus: nat, nthreads: nat, from: Id, to: Id)
    requires ListsOk(mem, head, list, place, blocks, ncpus, nthreads) && from in head && to in head && from != to
    requires from.arena == to.arena
    requires head[from] != 0 && head[from] in blocks && (!to.Thread? ==> blocks[head[from]].cpu == to.cpu)
    ensures list[from] != [] && head[from] in mem
    ensures var x := head[from];
      ListsOk(mem[x := head[to]], head[from := mem[x]][to := x], list[from := list[from][1..]][to := [x] + list[to]],
        place[x := Some(to)], blocks, ncpus, nthreads)
  {
    var x := head[from];
    PopLists(mem, head, list, place, blocks, ncpus, nthreads, from);
    PushLists(mem, head[from := mem[x]], list[from := list[from][1..]], place[x := None], blocks, ncpus, nthreads,
      to, x);
    assert place[x := None][x := Some(to)] == place[x := Some(to)];
  }

  lemma ClaimLists(mem: Memory, head: map<Id, int>, list: map<Id, seq<int>>, place: Places, blocks: map<int, Block>,
                   ncpus: nat, nthreads: nat, from: Id, to: Id)
    requires ListsOk(mem, head, list, place, blocks, ncpus, nthreads) && from in head && to in head && to.Thread?
    requires !from.Thread? && from.arena == to.arena
    requires list[to] == [] && head[from] != 0
    ensures list[from] != []
    ensures ListsOk(mem, head[to := head[from]][from := 0], list[to := list[from]][from := []],
      Moved(place, list[from], to), blocks, ncpus, nthreads)
  {
    assert Chain(mem, head[from], list[from]) && list[from] + list[to] == list[from];
    JoinPlaces(list, place, from, to);
    MoveKeeps(mem, head, list, place, from, to, head[to := head[from]][from := 0], list[to := list[from]][from := []]);
  }

  // A collected list goes in front of its region's list.
  lemma SpliceLists(mem: Memory, head: map<Id, int>, list: map<Id, seq<int>>, place: Places, blocks: map<int, Block>,
                    ncpus: nat, nthreads: nat, from: Id, to: Id, last: int)
    requires ListsOk(mem, head, list, place, blocks, ncpus, nthreads) && from in head && to in head && from.Local?
    requires to == Region(from.cpu, from.arena)
    requires list[from] != [] && last == LastOf(list[from])
    ensures ListsOk(mem[last := head[to]], head[to := head[from]][from := 0], Spliced(list, from, to),
      Moved(place, list[from], to), blocks, ncpus, nthreads)
  {
    JoinPlaces(list, place, from, to);
    JoinKeeps(mem, head, list, place, from, to, last, head[to := head[from]][from := 0],
      list[to := list[from] + list[to]][from := []]);
  }

  lemma CarveLists(mem: Memory, mem': Memory, head: map<Id, int>, list: map<Id, seq<int>>, place: Places,
                   blocks: map<int, Block>, ncpus: nat, nthreads: nat,
                   id: Id, first: int, xs: seq<int>, cpu: nat)
    requires ListsOk(mem, head, list, place, blocks, ncpus, nthreads) && id in head && id.Thread? && list[id] == []
    requires Chain(mem', first, xs) && forall x :: x in xs ==> x !in blocks
    requires forall x :: x in mem && x !in xs ==> x in mem' && mem'[x] == mem[x]
    ensures ListsOk(mem', head[id := first], list[id := xs], Added(place, xs, id),
      AddBlocks(blocks, xs, Block(id.arena, cpu)), ncpus, nthreads)
  {
    CarveKeeps(mem, mem', head, list, place, id, first, xs);
    AddPlaces(list, place, id, xs);
  }

  lemma CarveCarving(begin: seq<int>, blocks: map<int, Block>, memstart: int, per: int, page: int, cpu: nat,
                     arena: nat, xs: seq<int>)
    requires CarvingOk(begin, blocks, memstart, per, page) && cpu < |begin| && arena < MAX_ARENAS
    requires begin[cpu] + page <= Start(memstart, per, cpu) + per && Carved(xs, begin[cpu], page, Unit(arena))
    ensures forall x :: x in xs ==> x !in blocks
    ensures CarvingOk(begin[cpu := begin[cpu] + page], AddBlocks(blocks, xs, Block(arena, cpu)), memstart, per, page)
  {
    CarveBlocks(blocks, begin, memstart, per, page, cpu, arena, xs);
    CarveDisjoint(blocks, begin, memstart, per, page, cpu, arena, xs);
    ModLap(begin[cpu], page);
  }

  // Every block keeps its place, or goes from one list to another.
  ghost predicate StaysOr(p: Places, p': Places, from: Id, to: Id) {
    forall x :: x in p ==> x in p' && (p'[x] == p[x] || (p[x] == Some(from) && p'[x] == Some(to)))
  }

  lemma MovedStays(list: map<Id, seq<int>>, place: Places, from: Id, to: Id)
    requires Placed(list, place) && from in list
    ensures StaysOr(place, Moved(place, list[from], to), from, to)
  {
  }

  lemma AddedStays(place: Places, xs: seq<int>, blocks: map<int, Block>, id: Id, b: Block)
    requires (forall x :: x in xs ==> x !in place) && place.Keys == blocks.Keys
    ensures Kept(place, Added(place, xs, id)) && KeptBlocks(blocks, AddBlocks(blocks, xs, b))
  {
  }

  // How a thread's empty list is supplied: with the CPU's whole list if that
  // has blocks, and else with those of the next page of the CPU's region.
  ghost predicate Supplied(l: map<Id, seq<int>>, l': map<Id, seq<int>>, b: seq<int>, b': seq<int>, thread: Id,
                           region: Id, page: int)
    requires region in l && thread in l && region.Region? && region.cpu < |b|
  {
    if l[region] != [] then l' == l[thread := l[region]][region := []] && b' == b
    else && b' == b[region.cpu := b[region.cpu] + page]
         && exists xs :: Carved(xs, b[region.cpu], page, Unit(region.arena)) && l' == l[thread := xs]
  }

  // A list that has blocks is left alone.
  ghost predicate Ensured(l: map<Id, seq<int>>, l': map<Id, seq<int>>, b: seq<int>, b': seq<int>, thread: Id,
                          region: Id, page: int)
    requires region in l && thread in l && region.Region? && region.cpu < |b|
  {
    if l[thread] != [] then l' == l && b' == b else Supplied(l, l', b, b', thread, region, page)
  }

  // x comes from the front of the thread's list, or of the CPU's if the thread has none.
  ghost predicate IsFirst(l: map<Id, seq<int>>, x: int, thread: Id, region: Id)
    requires region in l && thread in l
  {
    if l[thread] != [] then x == l[thread][0] else l[region] != [] ==> x == l[region][0]
  }

  // The same blocks, of those there were, are handed out.
  ghost predicate SameHeld(p: Places, p': Places) {
    forall x :: x in p ==> x in p' && (p[x] == None <==> p'[x] == None)
  }

  // Blocks handed out stay handed out.
  ghost predicate StillHeld(p: Places, p': Places) { forall x :: x in p && p[x] == None ==> x in p' && p'[x] == None }

  lemma PopHeld(p0: Places, p: Places, x: int)
    requires SameHeld(p0, p) && x in p && p[x] != None
    ensures StillHeld(p0, p[x := None]) && (x in p0 ==> p0[x] != None)
  {
  }

  ghost predicate Kept(p: Places, p': Places) { forall x :: x in p ==> x in p' && p'[x] == p[x] }

  ghost predicate KeptBlocks(p: map<int, Block>, p': map<int, Block>) {
    forall x :: x in p ==> x in p' && p'[x] == p[x]
  }

  function AllIds(ncpus: nat, nthreads: nat): (s: set<Id>)
    ensures forall id :: id in s <==> IsId(id, ncpus, nthreads)
  {
    (set c: nat, a: nat | 0 <= c < ncpus && 0 <= a < MAX_ARENAS :: Region(c, a))
    + (set t: nat, a: nat | 0 <= t < nthreads && 0 <= a < MAX_ARENAS :: Thread(t, a))
    + (set c: nat, a: nat | 0 <= c < ncpus && 0 <= a < MAX_ARENAS :: Local(c, a))
  }

  lemma {:induction false} StartAligned(memstart: int, per: int, page: int, c: nat)
    requires 1 <= page && memstart % page == 0 && per % page == 0
    ensures Start(memstart, per, c) % page == 0
  {
    var m, p := memstart / page, per / page;
    assert memstart == page * m && per == page * p;
    assert c * per == page * (c * p);
    ModUnique(Start(memstart, per, c), page, m + c * p, 0);
  }

  class Allocator {
    const memstart: int
    const per: int
    const page: int
    const ncpus: nat
    const nthreads: nat
    var begin: seq<int>
    var mem: Memory
    var head: map<Id, int>
    ghost var list: map<Id, seq<int>>
    ghost var place: Places
    ghost var blocks: map<int, Block>

    ghost predicate Lists()
      reads this`mem, this`head, this`list, this`place, this`blocks
    {
      ListsOk(mem, head, list, place, blocks, ncpus, nthreads)
    }

    ghost predicate Carving()
      reads this`begin, this`blocks
    {
      |begin| == ncpus && CarvingOk(begin, blocks, memstart, per, page)
    }

    ghost predicate Valid()
      reads this
    {
      Lists() && Carving()
    }

    constructor (memstart: int, per: int, page: int, ncpus: nat, nthreads: nat)
      requires 1024 <= page && 0 < memstart && 0 < per && memstart % page == 0 && per % page == 0
      ensures Valid() && blocks == map[] && this.ncpus == ncpus && this.nthreads == nthreads
    {
      this.memstart, this.per, this.page, this.ncpus, this.nthreads := memstart, per, page, ncpus, nthreads;
      begin := seq(ncpus, c requires 0 <= c < ncpus => Start(memstart, per, c));
      mem := map[];
      head := map id | id in AllIds(ncpus, nthreads) :: 0;
      list := map id | id in AllIds(ncpus, nthreads) :: [];
      place := map[];
      blocks := map[];
      forall c: nat | c < ncpus ensures Start(memstart, per, c) % page == 0 { StartAligned(memstart, per, page, c); }
    }

    method PointerToCpu(x: int) returns (cpu: nat)
      requires Carving() && x in blocks
      ensures cpu == blocks[x].cpu && cpu < ncpus && x != 0
    {
      PointerCpu(x, blocks[x], begin, memstart, per, page);
      cpu := (x - memstart) / per;
    }

    // The thread's list or the CPU's has a block of the class, or the CPU's region has a page left.
    ghost predicate Available(t: nat, cpu: nat, arena: nat)
      requires Valid() && t < nthreads && cpu < ncpus && arena < MAX_ARENAS
      reads this
    {
      list[Thread(t, arena)] != [] || list[Region(cpu, arena)] != [] ||
        begin[cpu] + page <= Start(memstart, per, cpu) + per
    }

    // Stores new links and heads, with the lists and places they stand for.
    method Relink(mem': Memory, head': map<Id, int>, ghost list': map<Id, seq<int>>, ghost place': Places)
      requires ListsOk(mem', head', list', place', blocks, ncpus, nthreads)
      modifies this`mem, this`head, this`list, this`place
      ensures Lists() && mem == mem' && head == head' && list == list' && place == place'
    {
      mem, head, list, place := mem', head', list', place';
    }

    // Stores a region's new bump pointer, with the blocks carved below it.
    method Grow(begin': seq<int>, ghost blocks': map<int, Block>)
      requires |begin'| == ncpus && CarvingOk(begin', blocks', memstart, per, page)
      modifies this`begin, this`blocks
      ensures Carving() && begin == begin' && blocks == blocks'
    {
      begin, blocks := begin', blocks';
    }

    // Takes the first block of a list.
    method Pop(id: Id) returns (x: int)
      requires Lists() && id in head && head[id] != 0
      modifies this`head, this`list, this`place
      ensures Lists() && old(list[id]) != [] && x == old(list[id][0]) && x in blocks && x in old(place)
      ensures list == old(list)[id := old(list[id][1..])] && place == old(place)[x := None]
      ensures blocks[x].arena == id.arena && old(place[x]) == Some(id)
    {
      PopLists(mem, head, list, place, blocks, ncpus, nthreads, id);
      x := head[id];
      head := head[id := mem[x]];
      list := list[id := list[id][1..]];
      place := place[x := None];
    }

    // Puts a block that is on no list in front of one of its size class.
    method Push(id: Id, x: int)
      requires Lists() && id in head && x in blocks && place[x] == None && x != 0
      requires blocks[x].arena == id.arena && (!id.Thread? ==> blocks[x].cpu == id.cpu)
      modifies this`mem, this`head, this`list, this`place
      ensures Lists() && list == old(list)[id := [x] + old(list[id])] && place == old(place)[x := Some(id)]
    {
      PushLists(mem, head, list, place, blocks, ncpus, nthreads, id, x);
      mem := mem[x := head[id]];
      head := head[id := x];
      list := list[id := [x] + list[id]];
      place := place[x := Some(id)];
    }

    // claims the CPU's whole list for the thread.
    method Claim(t: nat, cpu: nat, arena: nat)
      requires Valid() && t < nthreads && cpu < ncpus && arena < MAX_ARENAS
      requires list[Thread(t, arena)] == [] && head[Region(cpu, arena)] != 0
      modifies this`mem, this`head, this`list, this`place
      ensures Valid() && list == old(list)[Thread(t, arena) := old(list[Region(cpu, arena)])][Region(cpu, arena) := []]
      ensures list[Thread(t, arena)] != []
      ensures StaysOr(old(place), place, Region(cpu, arena), Thread(t, arena))
    {
      var from, to := Region(cpu, arena), Thread(t, arena);
      ClaimLists(mem, head, list, place, blocks, ncpus, nthreads, from, to);
      MovedStays(list, place, from, to);
      Relink(mem, head[to := head[from]][from := 0], list[to := list[from]][from := []], Moved(place, list[from], to));
    }

    // The memory of a new page, its first block and its blocks.
    method CarvePage(t: nat, cpu: nat, arena: nat) returns (mem': Memory, first: int, ghost xs: seq<int>)
      requires Valid() && t < nthreads && cpu < ncpus && arena < MAX_ARENAS && list[Thread(t, arena)] == []
      requires begin[cpu] + page <= Start(memstart, per, cpu) + per
      ensures Carved(xs, begin[cpu], page, Unit(arena)) && forall x :: x in xs ==> x !in blocks && x !in place
      ensures CarvingOk(begin[cpu := begin[cpu] + page], AddBlocks(blocks, xs, Block(arena, cpu)), memstart, per, page)
      ensures ListsOk(mem', head[Thread(t, arena) := first], list[Thread(t, arena) := xs],
        Added(place, xs, Thread(t, arena)),
                      AddBlocks(blocks, xs, Block(arena, cpu)), ncpus, nthreads)
    {
      PageFits(begin[cpu], page, arena, memstart, per, cpu);
      mem', first, xs := InitializePage(mem, begin[cpu], page, Unit(arena));
      CarveCarving(begin, blocks, memstart, per, page, cpu, arena, xs);
      CarveLists(mem, mem', head, list, place, blocks, ncpus, nthreads, Thread(t, arena), first, xs, cpu);
    }

    // Carves a new page of the CPU's region for the thread.
    method Carve(t: nat, cpu: nat, arena: nat) returns (ghost xs: seq<int>)
      requires Valid() && t < nthreads && cpu < ncpus && arena < MAX_ARENAS && list[Thread(t, arena)] == []
      requires begin[cpu] + page <= Start(memstart, per, cpu) + per
      modifies this`mem, this`head, this`list, this`place, this`blocks, this`begin
      ensures Valid() && begin == old(begin)[cpu := old(begin[cpu]) + page]
      ensures Carved(xs, old(begin[cpu]), page, Unit(arena)) && list == old(list)[Thread(t, arena) := xs]
      ensures Kept(old(place), place) && KeptBlocks(old(blocks), blocks)
    {
      var mem', first;
      mem', first, xs := CarvePage(t, cpu, arena);
      AddedStays(place, xs, blocks, Thread(t, arena), Block(arena, cpu));
      Grow(begin[cpu := begin[cpu] + page], AddBlocks(blocks, xs, Block(arena, cpu)));
      Relink(mem', head[Thread(t, arena) := first], list[Thread(t, arena) := xs], Added(place, xs, Thread(t, arena)));
    }

    // AllocateArenas: the thread's empty list of this class gets the CPU's
    // list, or a new page; fails only when the CPU's region is used up.
    method AllocateArenas(t: nat, cpu: nat, arena: nat) returns (ok: bool)
      requires Valid() && t < nthreads && cpu < ncpus && arena < MAX_ARENAS && list[Thread(t, arena)] == []
      modifies this`mem, this`head, this`list, this`place, this`blocks, this`begin
      ensures Valid()
      ensures (ok <==> old(list[Region(cpu, arena)]) != [] || old(begin[cpu]) + page <= Start(memstart, per, cpu) + per)
      ensures ok ==> list[Thread(t, arena)] != []
      ensures ok ==> Supplied(old(list), list, old(begin), begin, Thread(t, arena), Region(cpu, arena), page)
      ensures !ok ==> list == old(list) && place == old(place) && blocks == old(blocks) && begin == old(begin)
      ensures StaysOr(old(place), place, Region(cpu, arena), Thread(t, arena))
      ensures KeptBlocks(old(blocks), blocks)
    {
      EmptyList(mem, head, list, Region(cpu, arena));
      if head[Region(cpu, arena)] != 0 {
        Claim(t, cpu, arena);
        return true;
      }
      if begin[cpu] + page > Start(memstart, per, cpu) + per { return false; }
      ghost var xs := Carve(t, cpu, arena);
      return true;
    }

    // ensure_arena.
    method EnsureArena(t: nat, cpu: nat, arena: nat) returns (ok: bool)
      requires Valid() && t < nthreads && cpu < ncpus && arena < MAX_ARENAS
      modifies this`mem, this`head, this`list, this`place, this`blocks, this`begin
      ensures Valid() && (ok ==> head[Thread(t, arena)] != 0)
      ensures ok <==> old(Available(t, cpu, arena))
      ensures ok ==> Ensured(old(list), list, old(begin), begin, Thread(t, arena), Region(cpu, arena), page)
      ensures SameHeld(old(place), place)
    {
      EmptyList(mem, head, list, Thread(t, arena));
      if head[Thread(t, arena)] != 0 { return true; }
      ok := AllocateArenas(t, cpu, arena);
      EmptyList(mem, head, list, Thread(t, arena));
    }

    // The first block of the thread's list; p0 has the places before the request.
    method TakeFirst(t: nat, arena: nat, ghost p0: Places) returns (x: int)
      requires Valid() && t < nthreads && arena < MAX_ARENAS && head[Thread(t, arena)] != 0 && SameHeld(p0, place)
      modifies this`head, this`list, this`place
      ensures Valid() && StillHeld(p0, place) && (x in p0 ==> p0[x] != None)
      ensures old(list[Thread(t, arena)]) != [] && x == old(list[Thread(t, arena)][0])
      ensures x in blocks && place[x] == None && blocks[x].arena == arena
    {
      ghost var before := place;
      x := Pop(Thread(t, arena));
      PopHeld(p0, before, x);
    }

    // A block of one size class, unless the CPU's region is used up.
    method Take(t: nat, cpu: nat, arena: nat) returns (r: Option<int>)
      requires Valid() && t < nthreads && cpu < ncpus && arena < MAX_ARENAS
      modifies this`mem, this`head, this`list, this`place, this`blocks, this`begin
      ensures Valid() && StillHeld(old(place), place) && (r.Some? <==> old(Available(t, cpu, arena)))
      ensures r.Some? ==> IsFirst(old(list), r.value, Thread(t, arena), Region(cpu, arena))
      ensures r.Some? ==> r.value in blocks && place[r.value] == None && blocks[r.value].arena == arena
      ensures r.Some? && r.value in old(place) ==> old(place[r.value]) != None
    {
      var ok := EnsureArena(t, cpu, arena);
      if !ok { return None; }
      var x := TakeFirst(t, arena, old(place));
      r := Some(x);
    }

    // A block for sz bytes, or None where the source falls back to malloc or
    // stops for lack of memory.
    method Alloc(t: nat, pin: int, sz: nat) returns (r: Option<int>)
      requires Valid() && t < nthreads && pin < ncpus && sz + ALIGN <= WORD
      modifies this`mem, this`head, this`list, this`place, this`blocks, this`begin
      ensures Valid() && StillHeld(old(place), place)
      ensures r.Some? <==> 0 <= pin && 0 < sz <= MAX_ARENAS * ALIGN && old(Available(t, pin, ArenaSize(sz).1))
      ensures r.Some? ==> IsFirst(old(list), r.value, Thread(t, ArenaSize(sz).1), Region(pin, ArenaSize(sz).1))
      ensures r.Some? ==> r.value in blocks && place[r.value] == None && 0 < sz <= Unit(blocks[r.value].arena)
      ensures r.Some? && r.value in old(place) ==> old(place[r.value]) != None
    {
      var arena := ArenaSize(sz).1;
      ArenaSizeFits(sz);
      if pin < 0 || arena >= MAX_ARENAS { return None; }
      r := Take(t, pin, arena);
    }

    // A handed-out block goes to the thread's list of the size it was asked with.
    method Dealloc(t: nat, x: int, sz: nat)
      requires Valid() && t < nthreads && x in blocks && place[x] == None
      requires sz + ALIGN <= WORD && ArenaSize(sz).1 == blocks[x].arena
      modifies this`mem, this`head, this`list, this`place
      ensures Valid() && place == old(place)[x := Some(Thread(t, blocks[x].arena))]
    {
      PointerCpu(x, blocks[x], begin, memstart, per, page);
      Push(Thread(t, ArenaSize(sz).1), x);
    }

    // Moves the thread's first block of a class to the list collected for its CPU.
    method MoveOne(t: nat, arena: nat) returns (x: int, cpu: nat)
      requires Valid() && t < nthreads && arena < MAX_ARENAS && head[Thread(t, arena)] != 0
      modifies this`mem, this`head, this`list, this`place
      ensures Valid() && x in blocks && x != 0 && cpu == blocks[x].cpu && cpu < ncpus && x in old(place)
      ensures old(place[x]) == Some(Thread(t, arena))
      ensures old(list[Thread(t, arena)]) != []
      ensures list == old(list)[Thread(t, arena) := old(list[Thread(t, arena)])[1..]]
        [Local(cpu, arena) := [x] + old(list[Local(cpu, arena)])]
      ensures place == old(place)[x := Some(Local(cpu, arena))]
    {
      var from := Thread(t, arena);
      PopLists(mem, head, list, place, blocks, ncpus, nthreads, from);
      x := head[from];
      cpu := PointerToCpu(x);
      var to := Local(cpu, arena);
      MoveLists(mem, head, list, place, blocks, ncpus, nthreads, from, to);
      Relink(mem[x := head[to]], head[from := mem[x]][to := x], list[from := list[from][1..]][to := [x] + list[to]],
        place[x := Some(to)]);
    }

    method CollectOne(t: nat, arena: nat, tails: map<Id, int>, ghost p0: Places) returns (tails': map<Id, int>)
      requires Collected(p0, place, blocks, t)
      requires Valid() && t < nthreads && arena < MAX_ARENAS && head[Thread(t, arena)] != 0 && TailsOk(tails, list)
      modifies this`mem, this`head, this`list, this`place
      ensures Valid() && TailsOk(tails', list) && Collected(p0, place, blocks, t)
      ensures list[Thread(t, arena)] == old(list[Thread(t, arena)])[1..] && |old(list[Thread(t, arena)])| > 0
      ensures OtherThreads(old(list), list, Thread(t, arena))
    {
      ghost var list0, before := list, place;
      var x, cpu := MoveOne(t, arena);
      CollectedNext(p0, before, blocks, t, x, arena);
      var id := Local(cpu, arena);
      CollectTails(tails, list0, id, x, Thread(t, arena));
      MoveOthers(list0, id, x, Thread(t, arena));
      tails' := if tails[id] == 0 then tails[id := x] else tails;
    }

    // All blocks of one class of the thread.
    method CollectClass(t: nat, arena: nat, tails: map<Id, int>) returns (tails': map<Id, int>)
      requires Valid() && t < nthreads && arena < MAX_ARENAS && TailsOk(tails, list)
      modifies this`mem, this`head, this`list, this`place
      ensures Valid() && TailsOk(tails', list) && Collected(old(place), place, blocks, t)
      ensures list[Thread(t, arena)] == []
      ensures OtherThreads(old(list), list, Thread(t, arena))
    {
      tails' := tails;
      EmptyList(mem, head, list, Thread(t, arena));
      while head[Thread(t, arena)] != 0
        invariant Valid() && TailsOk(tails', list) && Collected(old(place), place, blocks, t)
        invariant OtherThreads(old(list), list, Thread(t, arena))
        invariant head[Thread(t, arena)] == 0 <==> list[Thread(t, arena)] == []
        decreases |list[Thread(t, arena)]|
      {
        tails' := CollectOne(t, arena, tails', old(place));
        EmptyList(mem, head, list, Thread(t, arena));
      }
    }

    method ZeroTails() returns (tails: map<Id, int>)
      requires Lists() && forall id :: id in list && id.Local? ==> list[id] == []
      ensures TailsOk(tails, list)
    {
      tails := map id | id in head :: 0;
    }

    // The first pass of ReleaseArenas, over all size classes.
    method CollectAll(t: nat) returns (tails: map<Id, int>)
      requires Valid() && t < nthreads && forall id :: id in list && id.Local? ==> list[id] == []
      modifies this`mem, this`head, this`list, this`place
      ensures Valid() && TailsOk(tails, list) && Collected(old(place), place, blocks, t)
      ensures ThreadCleared(list, t, MAX_ARENAS)
    {
      tails := ZeroTails();
      for arena := 0 to MAX_ARENAS
        invariant Valid() && TailsOk(tails, list) && Collected(old(place), place, blocks, t)
        invariant ThreadCleared(list, t, arena)
      {
        ghost var before, list0 := place, list;
        tails := CollectClass(t, arena, tails);
        CollectedAgain(old(place), before, place, blocks, t);
        ThreadClearedNext(list0, list, t, arena);
      }
    }

    // Links a collected list in front of its CPU's list.
    method SpliceOne(cpu: nat, arena: nat, tail: int)
      requires Valid() && cpu < ncpus && arena < MAX_ARENAS && list[Local(cpu, arena)] != []
      requires tail == LastOf(list[Local(cpu, arena)])
      modifies this`mem, this`head, this`list, this`place
      ensures Valid() && Returned(old(place), place)
      ensures list == Spliced(old(list), Local(cpu, arena), Region(cpu, arena))
    {
      var from, to := Local(cpu, arena), Region(cpu, arena);
      SpliceLists(mem, head, list, place, blocks, ncpus, nthreads, from, to, tail);
      SplicePlaces(place, list, from, to);
      Relink(mem[tail := head[to]], head[to := head[from]][from := 0], Spliced(list, from, to),
        Moved(place, list[from], to));
    }

    // One size class of one CPU; p0 and l0 are places and lists before the pass.
    method SpliceClass(cpu: nat, arena: nat, tails: map<Id, int>, ghost p0: Places, ghost l0: map<Id, seq<int>>)
      returns (tails': map<Id, int>)
      requires Valid() && cpu < ncpus && arena < MAX_ARENAS && Passing(tails, list, l0, p0, place, cpu, arena)
      modifies this`mem, this`head, this`list, this`place
      ensures Valid() && Passing(tails', list, l0, p0, place, cpu, arena + 1)
    {
      EmptyList(mem, head, list, Local(cpu, arena));
      tails' := tails;
      if head[Local(cpu, arena)] != 0 {
        ghost var before, list0 := place, list;
        SpliceOne(cpu, arena, tails[Local(cpu, arena)]);
        PassNext(tails, list0, l0, p0, before, place, cpu, arena);
        tails' := tails[Local(cpu, arena) := 0];
      }
    }

    method SpliceCpu(cpu: nat, tails: map<Id, int>, ghost p0: Places, ghost l0: map<Id, seq<int>>)
      returns (tails': map<Id, int>)
      requires Valid() && cpu < ncpus && Passing(tails, list, l0, p0, place, cpu, 0)
      modifies this`mem, this`head, this`list, this`place
      ensures Valid() && Passing(tails', list, l0, p0, place, cpu + 1, 0)
    {
      tails' := tails;
      for arena := 0 to MAX_ARENAS
        invariant Valid() && Passing(tails', list, l0, p0, place, cpu, arena)
      {
        tails' := SpliceClass(cpu, arena, tails', p0, l0);
      }
      PassCpu(tails', list, l0, p0, place, cpu, head, ncpus, nthreads);
    }

    // The second pass: every CPU takes back what was collected for it.
    method SpliceAll(tails: map<Id, int>)
      requires Valid() && TailsOk(tails, list)
      modifies this`mem, this`head, this`list, this`place
      ensures Valid() && Returned(old(place), place) && OnlyRegions(old(list), list) && Cleared(list, ncpus, 0)
    {
      var left := tails;
      for cpu := 0 to ncpus
        invariant Valid() && Passing(left, list, old(list), old(place), place, cpu, 0)
      {
        left := SpliceCpu(cpu, left, old(place), old(list));
      }
    }

    // ReleaseArenas: every block of the thread is back on the list of its own
    // CPU and size class; no other block moves.
    method ReleaseArenas(t: nat)
      requires Valid() && t < nthreads && forall id :: id in list && id.Local? ==> list[id] == []
      modifies this`mem, this`head, this`list, this`place
      ensures Valid() && forall id :: id in list && id.Local? ==> list[id] == []
      ensures place.Keys == old(place).Keys
      ensures forall x :: x in place ==> place[x] == AfterRelease(old(place[x]), blocks[x].cpu, t)
    {
      ghost var p0 := place;
      NoLocalPlaces(list, place);
      var tails := CollectAll(t);
      ghost var p1, l1 := place, list;
      SpliceAll(tails);
      ReleasedLists(l1, list, head, ncpus, nthreads, t);
      ReleasePlaces(p0, p1, place, blocks, list, t);
    }
  }

  lemma NoLocalPlaces(list: map<Id, seq<int>>, place: Places)
    requires Placed(list, place) && forall id :: id in list && id.Local? ==> list[id] == []
    ensures forall x :: x in place && place[x].Some? ==> !place[x].value.Local?
  {
  }

  // After both passes thread t's lists and all collected lists are empty.
  lemma ReleasedLists(l1: map<Id, seq<int>>, list: map<Id, seq<int>>, head: map<Id, int>, ncpus: nat, nthreads: nat,
                      t: nat)
    requires OnlyRegions(l1, list) && Cleared(list, ncpus, 0) && list.Keys == head.Keys
    requires forall id :: id in head <==> IsId(id, ncpus, nthreads)
    requires ThreadCleared(l1, t, MAX_ARENAS)
    ensures forall id :: id in list && (id.Local? || (id.Thread? && id.t == t)) ==> list[id] == []
  {
    forall id | id in list && (id.Local? || (id.Thread? && id.t == t)) ensures list[id] == [] {
      assert IsId(id, ncpus, nthreads);
      if id.Thread? { assert id == Thread(t, id.arena); }
    }
  }

  ghost function Spliced(list: map<Id, seq<int>>, from: Id, to: Id): map<Id, seq<int>>
    requires from in list && to in list
  {
    list[to := list[from] + list[to]][from := []]
  }

  // Thread lists keep their blocks, and emptied collected lists stay empty.
  ghost predicate OnlyRegions(list: map<Id, seq<int>>, list': map<Id, seq<int>>) {
    && list'.Keys == list.Keys
    && forall id :: id in list && id in list' ==> id.Region? || list'[id] == list[id] || (id.Local? && list'[id] == [])
  }

  // Collected lists before class `arena` of `cpu` have been returned.
  ghost predicate Cleared(list: map<Id, seq<int>>, cpu: nat, arena: nat) {
    forall id :: id in list && id.Local? && (id.cpu < cpu || (id.cpu == cpu && id.arena < arena)) ==> list[id] == []
  }

  ghost predicate Passing(tails: map<Id, int>, list: map<Id, seq<int>>, l0: map<Id, seq<int>>, p0: Places,
                          place: Places, cpu: nat, arena: nat)
  {
    TailsOk(tails, list) && OnlyRegions(l0, list) && Returned(p0, place) && Cleared(list, cpu, arena)
  }

  lemma PassNext(tails: map<Id, int>, list: map<Id, seq<int>>, l0: map<Id, seq<int>>, p0: Places, p1: Places,
                 p2: Places, cpu: nat, arena: nat)
    requires Passing(tails, list, l0, p0, p1, cpu, arena) && Returned(p1, p2) && Local(cpu, arena) in list
    requires Region(cpu, arena) in list
    ensures Passing(tails[Local(cpu, arena) := 0], Spliced(list, Local(cpu, arena), Region(cpu, arena)), l0, p0, p2,
      cpu, arena + 1)
  {
    ReturnedAgain(p0, p1, p2);
    SplicedLists(tails, list, Local(cpu, arena), Region(cpu, arena));
  }

  lemma PassCpu(tails: map<Id, int>, list: map<Id, seq<int>>, l0: map<Id, seq<int>>, p0: Places, place: Places,
                cpu: nat, head: map<Id, int>, ncpus: nat, nthreads: nat)
    requires Passing(tails, list, l0, p0, place, cpu, MAX_ARENAS) && list.Keys == head.Keys
    requires forall id :: id in head <==> IsId(id, ncpus, nthreads)
    ensures Passing(tails, list, l0, p0, place, cpu + 1, 0)
  {
  }

  lemma SplicePlaces(place: Places, list: map<Id, seq<int>>, from: Id, to: Id)
    requires Placed(list, place) && from in list && from.Local? && to == Region(from.cpu, from.arena)
    ensures Returned(place, Moved(place, list[from], to))
  {
  }

  lemma SplicedLists(tails: map<Id, int>, list: map<Id, seq<int>>, from: Id, to: Id)
    requires TailsOk(tails, list) && from in list && from.Local? && to in list && to.Region?
    ensures TailsOk(tails[from := 0], Spliced(list, from, to)) && OnlyRegions(list, Spliced(list, from, to))
  {
  }

  // Where a block is after thread t has released its arenas.
  function AfterRelease(p: Option<Id>, cpu: nat, t: nat): Option<Id> {
    if p.Some? && p.value.Thread? && p.value.t == t then Some(Region(cpu, p.value.arena)) else p
  }

  // Every block stays, or goes from a collected list to the region's.
  ghost predicate Returned(p0: Places, p: Places) {
    p.Keys == p0.Keys && forall x :: x in p0 && x in p ==>
      p[x] == p0[x] || (p0[x].Some? && p0[x].value.Local? && p[x] == Some(Region(p0[x].value.cpu, p0[x].value.arena)))
  }

  lemma ReturnedAgain(p0: Places, p1: Places, p2: Places)
    requires Returned(p0, p1) && Returned(p1, p2)
    ensures Returned(p0, p2)
  {
  }

  lemma ReleasePlaces(p0: Places, p1: Places, p2: Places, blocks: map<int, Block>, list: map<Id, seq<int>>, t: nat)
    requires Collected(p0, p1, blocks, t) && Returned(p1, p2) && Placed(list, p2) && p0.Keys == blocks.Keys
    requires forall x :: x in p0 && p0[x].Some? ==> !p0[x].value.Local?
    requires forall id :: id in list && (id.Local? || (id.Thread? && id.t == t)) ==> list[id] == []
    ensures forall x :: x in p2 ==> p2[x] == AfterRelease(p0[x], blocks[x].cpu, t)
  {
    forall x | x in p2 ensures p2[x] == AfterRelease(p0[x], blocks[x].cpu, t) {
      if p2[x].Some? { assert x in list[p2[x].value]; }
    }
  }

  lemma EmptyList(mem: Memory, head: map<Id, int>, list: map<Id, seq<int>>, id: Id)
    requires Chains(mem, head, list) && id in head
    ensures head[id] == 0 <==> list[id] == []
  {
    assert Chain(mem, head[id], list[id]);
  }

  lemma CollectedNext(p0: Places, p: Places, blocks: map<int, Block>, t: nat, x: int, arena: nat)
    requires Collected(p0, p, blocks, t) && x in p && p[x] == Some(Thread(t, arena)) && x in blocks
    ensures Collected(p0, p[x := Some(Local(blocks[x].cpu, arena))], blocks, t)
  {
  }

  lemma CollectedAgain(p0: Places, p1: Places, p2: Places, blocks: map<int, Block>, t: nat)
    requires Collected(p0, p1, blocks, t) && Collected(p1, p2, blocks, t)
    ensures Collected(p0, p2, blocks, t)
  {
  }

  // No other thread list changes.
  ghost predicate OtherThreads(list: map<Id, seq<int>>, list': map<Id, seq<int>>, id: Id) {
    list'.Keys == list.Keys && forall o :: o in list && o in list' && o.Thread? && o != id ==> list'[o] == list[o]
  }

  ghost predicate ThreadCleared(list: map<Id, seq<int>>, t: nat, n: nat) {
    forall a :: 0 <= a < n ==> Thread(t, a) in list && list[Thread(t, a)] == []
  }

  lemma ThreadClearedNext(list: map<Id, seq<int>>, list': map<Id, seq<int>>, t: nat, arena: nat)
    requires ThreadCleared(list, t, arena) && OtherThreads(list, list', Thread(t, arena))
    requires Thread(t, arena) in list' && list'[Thread(t, arena)] == []
    ensures ThreadCleared(list', t, arena + 1)
  {
  }

  lemma MoveOthers(list: map<Id, seq<int>>, id: Id, x: int, from: Id)
    requires id in list && id.Local? && from in list && from.Thread? && list[from] != []
    ensures OtherThreads(list, list[from := list[from][1..]][id := [x] + list[id]], from)
  {
  }

  lemma CollectTails(tails: map<Id, int>, list: map<Id, seq<int>>, id: Id, x: int, from: Id)
    requires TailsOk(tails, list) && id in list && id.Local? && from in list && from.Thread? && list[from] != []
    requires x != 0
    ensures TailsOk(if tails[id] == 0 then tails[id := x] else tails,
      list[from := list[from][1..]][id := [x] + list[id]])
  {
  }

  // The last block of each collected list, 0 if it is empty.
  ghost predicate TailsOk(tails: map<Id, int>, list: map<Id, seq<int>>) {
    forall id :: id in list && id.Local? ==>
      id in tails && tails[id] == LastOf(list[id]) && (list[id] != [] ==> tails[id] != 0)
  }

  function LastOf(xs: seq<int>): int { if xs == [] then 0 else xs[|xs| - 1] }

  // Every block stays, or goes from thread t to its own CPU's collected list.
  ghost predicate Collected(p0: Places, p: Places, blocks: map<int, Block>, t: nat) {
    p.Keys == p0.Keys && forall x :: x in p0 && x in p ==> p[x] == p0[x] || GoesLocal(p0[x], p[x], blocks, x, t)
  }

  predicate GoesLocal(p0: Option<Id>, p: Option<Id>, blocks: map<int, Block>, x: int, t: nat) {
    && p0.Some? && p0.value.Thread? && p0.value.t == t && x in blocks
    && p == Some(Local(blocks[x].cpu, p0.value.arena))
  }

  lemma PageFits(px: int, page: int, arena: nat, memstart: int, per: int, cpu: nat)
    requires 1024 <= page && arena < MAX_ARENAS && 0 < memstart && 0 < per && Start(memstart, per, cpu) <= px
    ensures 0 < px && Ceil(px, Unit(arena)) + Unit(arena) <= px + page
  {
    MulMono(per, 0, cpu);
    CeilFits(px, Unit(arena));
  }
}
