// Garbage collection of old versions: spilled and deleted tuples wait in
// queues until no reader can reach them, although `next` links to reclaimed
// tuples are never cleared.

module VersionGc {
  import opened Basics
  import opened Tids

  // A committed tuple.  `epoch` is the epoch of its version.
  datatype Node = Node(key: int, epoch: int, deleting: bool, latest: bool, next: Option<int>)

  // An RCU region: a transaction, or a snapshot reader with its bound.
  // `holds` are the tuples it has pointers to.
  datatype Region = Region(tick: int, open: bool, bound: Option<int>, holds: set<int>, keys: set<int>,
    epoch: Option<int>)

  datatype Entry = Spilled(tick: int) | Deleted(tick: int)

  type Nodes = map<int, Node>

  datatype State = State(
    cur: int, last: int,
    nodes: Nodes, tree: map<int, int>,
    regions: map<int, Region>,
    queue: map<int, Entry>,
    limbo: map<int, set<int>>,       // unlinked, waiting for the regions open at that time
    freed: map<int, int>)            // reclaimed, with the tick it was queued at

  datatype Step =
    | Tick | Complete
    | OpenTxn(x: int, tick: int) | OpenSnap(x: int, tick: int) | Close(x: int)
    | Fetch(x: int, k: int)
    | Walk(x: int, n: int)
    | LockKey(x: int, k: int) | UnlockKey(x: int, k: int)
    | TakeEpoch(x: int)
    | InPlace(x: int, k: int, del: bool)
    | SpillCopy(x: int, k: int, del: bool, y: int)
    | Replace(x: int, k: int, del: bool, y: int)
    | Insert(x: int, k: int, del: bool, y: int)
    | Process(p: int, upto: int)
    | Reclaim(p: int)

  predicate Open(s: State, x: int) { x in s.regions && s.regions[x].open }

  predicate Free(s: State, k: int)  { forall x :: x in s.regions && s.regions[x].open ==> k !in s.regions[x].keys }

  // x holds k's lock and has taken its epoch; k's latest tuple exists.
  predicate Writer(s: State, x: int, k: int) {
    && Open(s, x) && k in s.regions[x].keys && s.regions[x].epoch.Some?
    && k in s.tree && s.tree[k] in s.nodes
  }

  predicate Fresh(s: State, y: int) { y !in s.nodes }

  predicate Enabled(s: State, step: Step) {
    match step
    case Tick => s.last == s.cur - 1
    case Complete =>
      s.last == s.cur - 2 && forall x :: x in s.regions && s.regions[x].open ==> s.regions[x].tick == s.cur
    case OpenTxn(x, tick) => x !in s.regions && s.last < tick <= s.cur
    case OpenSnap(x, tick) => x !in s.regions && s.last < tick <= s.cur
    case Close(x) => Open(s, x)
    case Fetch(x, k) => Open(s, x) && k in s.tree
    case Walk(x, n) =>
      && Open(s, x) && s.regions[x].bound.Some? && n in s.regions[x].holds && n in s.nodes
      && s.regions[x].bound.value <= Ro(s.nodes[n].epoch) && s.nodes[n].next.Some?
    case LockKey(x, k) => Open(s, x) && s.regions[x].bound.None? && s.regions[x].epoch.None? && Free(s, k)
    case UnlockKey(x, k) => Open(s, x) && k in s.regions[x].keys
    case TakeEpoch(x) => Open(s, x) && s.regions[x].bound.None? && s.regions[x].epoch.None?
    case InPlace(x, k, del) =>
      && Writer(s, x, k) && !s.nodes[s.tree[k]].deleting
      && Ro(s.nodes[s.tree[k]].epoch) == Ro(s.regions[x].epoch.value)
    case SpillCopy(x, k, del, y) =>
      && Writer(s, x, k) && !s.nodes[s.tree[k]].deleting && Fresh(s, y)
      && Ro(s.nodes[s.tree[k]].epoch) != Ro(s.regions[x].epoch.value)
    case Replace(x, k, del, y) => Writer(s, x, k) && Fresh(s, y)
    case Insert(x, k, del, y) =>
      Open(s, x) && k in s.regions[x].keys && s.regions[x].epoch.Some? && k !in s.tree && Fresh(s, y)
    case Process(p, upto) =>
      && p in s.queue && p in s.nodes && upto <= s.last && s.queue[p].tick <= Ro(upto) - 1
      && (s.queue[p].Deleted? && s.nodes[p].latest ==> Free(s, s.nodes[p].key))
    case Reclaim(p) => p in s.limbo && forall x :: x in s.limbo[p] ==> !Open(s, x)
  }

  function SetRegion(s: State, x: int, r: Region): State { s.(regions := s.regions[x := r]) }

  // A snapshot reads below the read-only epoch of the exclusive last tick.
  function SnapRegion(last: int, tick: int): Region { Region(tick, true, Some(Ro(last + 1)), {}, {}, None) }

  function OpenRegions(s: State): set<int> { set x | x in s.regions && s.regions[x].open }

  // A deletion queues the tuple that now carries the deleted record.
  function QueueDelete(queue: map<int, Entry>, del: bool, p: int, tick: int): map<int, Entry> {
    if del then queue[p := Deleted(tick)] else queue
  }

  function DoInPlace(s: State, x: int, k: int, del: bool): State
    requires Enabled(s, InPlace(x, k, del))
  {
    var e := s.regions[x].epoch.value;
    var h := s.tree[k];
    s.(nodes := s.nodes[h := s.nodes[h].(epoch := e, deleting := del)], queue := QueueDelete(s.queue, del, h, Ro(e)))
  }

  function DoSpillCopy(s: State, x: int, k: int, del: bool, y: int): State
    requires Enabled(s, SpillCopy(x, k, del, y))
  {
    var e := s.regions[x].epoch.value;
    var h := s.tree[k];
    var was := s.nodes[h];
    s.(nodes := s.nodes[y := was.(latest := false)][h := was.(epoch := e, deleting := del, next := Some(y))],
       queue := QueueDelete(s.queue[y := Spilled(Ro(e))], del, h, Ro(e)))
  }

  // A deleted tuple that is replaced is on the queue already.
  function DoReplace(s: State, x: int, k: int, del: bool, y: int): State
    requires Enabled(s, Replace(x, k, del, y))
  {
    var e := s.regions[x].epoch.value;
    var h := s.tree[k];
    var was := s.nodes[h];
    s.(nodes := s.nodes[h := was.(latest := false)][y := Node(k, e, del, true, Some(h))],
       tree := s.tree[k := y],
       queue := QueueDelete(if was.deleting then s.queue else s.queue[h := Spilled(Ro(e))], del, y, Ro(e)))
  }

  // clean_up_to_including, for one entry.
  function DoProcess(s: State, p: int): State
    requires p in s.queue && p in s.nodes
  {
    match s.queue[p]
    case Spilled(tick) => s.(queue := s.queue - {p}, freed := s.freed[p := tick])
    case Deleted(tick) =>
      if !s.nodes[p].latest then s.(queue := s.queue[p := Spilled(Ro(s.cur))])
      else s.(queue := s.queue - {p}, tree := s.tree - {s.nodes[p].key},
              nodes := s.nodes[p := s.nodes[p].(latest := false)], limbo := s.limbo[p := OpenRegions(s)])
  }

  function Apply(s: State, step: Step): State
    requires Enabled(s, step)
  {
    match step
    case Tick => s.(cur := s.cur + 1)
    case Complete => s.(last := s.cur - 1)
    case OpenTxn(x, tick) => SetRegion(s, x, Region(tick, true, None, {}, {}, None))
    case OpenSnap(x, tick) => SetRegion(s, x, SnapRegion(s.last, tick))
    case Close(x) => SetRegion(s, x, s.regions[x].(open := false))
    case Fetch(x, k) => SetRegion(s, x, s.regions[x].(holds := s.regions[x].holds + {s.tree[k]}))
    case Walk(x, n) => SetRegion(s, x, s.regions[x].(holds := s.regions[x].holds - {n} + {s.nodes[n].next.value}))
    case LockKey(x, k) => SetRegion(s, x, s.regions[x].(keys := s.regions[x].keys + {k}))
    case UnlockKey(x, k) => SetRegion(s, x, s.regions[x].(keys := s.regions[x].keys - {k}))
    case TakeEpoch(x) => SetRegion(s, x, s.regions[x].(epoch := Some(s.cur)))
    case InPlace(x, k, del) => DoInPlace(s, x, k, del)
    case SpillCopy(x, k, del, y) => DoSpillCopy(s, x, k, del, y)
    case Replace(x, k, del, y) => DoReplace(s, x, k, del, y)
    case Insert(x, k, del, y) =>
      s.(nodes := s.nodes[y := Node(k, s.regions[x].epoch.value, del, true, None)], tree := s.tree[k := y])
    case Process(p, upto) => DoProcess(s, p)
    case Reclaim(p) => s.(limbo := s.limbo - {p}, freed := s.freed[p := -1])
  }

  const INITIAL := State(1, 0, map[], map[], map[], map[], map[], map[])

  ghost predicate Run(ss: seq<State>, steps: seq<Step>) {
    && |ss| == |steps| + 1 && ss[0] == INITIAL
    && forall i {:trigger steps[i]} :: 0 <= i < |steps| ==>
      Enabled(ss[i], steps[i]) && ss[i + 1] == Apply(ss[i], steps[i])
  }

  // ---- the invariant ----

  // Where a tuple is: at most one of queue, limbo and freed; never the last
  // two while latest, never queued as a spill while latest.
  ghost predicate PlaceInv(nodes: Nodes, tree: map<int, int>, queue: map<int, Entry>, limbo: map<int, set<int>>,
                           freed: map<int, int>)
  {
    && (forall k :: k in tree ==> tree[k] in nodes && nodes[tree[k]].key == k && nodes[tree[k]].latest)
    && (forall n :: n in nodes && nodes[n].latest ==>
      nodes[n].key in tree && tree[nodes[n].key] == n && n !in limbo && n !in freed)
    && (forall p :: p in queue ==> p in nodes && p !in limbo && p !in freed)
    && (forall p :: p in queue && p in nodes ==> if queue[p].Spilled? then !nodes[p].latest else nodes[p].deleting)
    && (forall p :: p in limbo ==> p in nodes && p !in freed)
    && (forall p :: p in freed ==> p in nodes)
  }

  // Links: a latest or unlinked tuple has none pointing at it; one to a
  // queued or reclaimed spill comes from a tuple no newer than its tick.
  ghost predicate LinkInv(nodes: Nodes, queue: map<int, Entry>, limbo: map<int, set<int>>, freed: map<int, int>) {
    forall n :: n in nodes && nodes[n].next.Some? ==> LinkOk(nodes, queue, limbo, freed, n, nodes[n].next.value)
  }

  predicate LinkOk(nodes: Nodes, queue: map<int, Entry>, limbo: map<int, set<int>>, freed: map<int, int>, n: int,
                   p: int)
    requires n in nodes
  {
    && p in nodes && !nodes[p].latest && p !in limbo
    && (p in queue && queue[p].Spilled? ==> Ro(nodes[n].epoch) <= queue[p].tick)
    && (p in freed ==> Ro(nodes[n].epoch) <= freed[p])
  }

  // What a region may point at.
  ghost predicate HoldInv(nodes: Nodes, queue: map<int, Entry>, limbo: map<int, set<int>>, freed: map<int, int>,
                          x: int, r: Region)
  {
    r.open ==> forall p :: p in r.holds ==>
      && p in nodes && p !in freed
      && (p in queue && queue[p].Spilled? ==> Ro(r.tick - 1) <= queue[p].tick)
      && (p in limbo ==> x in limbo[p])
  }

  ghost predicate RegionInv(cur: int, last: int, nodes: Nodes, tree: map<int, int>, r: Region) {
    r.open ==>
      && last < r.tick <= cur
      && (r.bound.Some? ==> Ro(r.tick - 1) <= r.bound.value <= Ro(last + 1))
      && (r.epoch.Some? ==> r.tick <= r.epoch.value <= cur)
      && (r.epoch.Some? ==> forall k :: k in r.keys && k in tree && tree[k] in nodes ==>
        nodes[tree[k]].epoch <= r.epoch.value)
  }

  ghost predicate Inv(s: State) {
    && 0 <= s.last && s.cur - 2 <= s.last < s.cur
    && PlaceInv(s.nodes, s.tree, s.queue, s.limbo, s.freed)
    && LinkInv(s.nodes, s.queue, s.limbo, s.freed)
    && (forall p :: p in s.freed ==> s.freed[p] < Ro(s.last))
    && (forall n :: n in s.nodes ==> s.nodes[n].epoch <= s.cur)
    && (forall x :: x in s.regions ==> HoldInv(s.nodes, s.queue, s.limbo, s.freed, x, s.regions[x]))
    && (forall x :: x in s.regions ==> RegionInv(s.cur, s.last, s.nodes, s.tree, s.regions[x]))
    && (forall x, y, k :: Open(s, x) && Open(s, y) && k in s.regions[x].keys && k in s.regions[y].keys ==> x == y)
  }

  // ---- clock and region steps ----

  lemma RoMono(a: int, b: int)
    requires a <= b
    ensures Ro(a) <= Ro(b)
  {
  }

  lemma ClockKeeps(s: State, step: Step)
    requires Inv(s) && Enabled(s, step) && (step.Tick? || step.Complete?)
    ensures Inv(Apply(s, step))
  {
    RoMono(s.last, s.cur - 1);
  }

  // A region that takes no new pointer.
  lemma RegionKeeps(s: State, x: int, r: Region)
    requires Inv(s) && (r.open ==> RegionInv(s.cur, s.last, s.nodes, s.tree, r))
    requires r.open ==> HoldInv(s.nodes, s.queue, s.limbo, s.freed, x, r)
    requires forall y, k :: Open(s, y) && y != x && k in s.regions[y].keys && r.open ==> k !in r.keys
    ensures Inv(SetRegion(s, x, r))
  {
  }

  lemma FetchKeeps(s: State, x: int, k: int)
    requires Inv(s) && Enabled(s, Fetch(x, k))
    ensures Inv(Apply(s, Fetch(x, k)))
  {
    RegionKeeps(s, x, s.regions[x].(holds := s.regions[x].holds + {s.tree[k]}));
  }

  // A snapshot reader that follows a link meets no reclaimed tuple.
  lemma WalkIsSafe(s: State, x: int, n: int)
    requires Inv(s) && Enabled(s, Walk(x, n))
    ensures var p := s.nodes[n].next.value;
      && p in s.nodes && p !in s.freed && p !in s.limbo
      && (p in s.queue && s.queue[p].Spilled? ==> Ro(s.regions[x].tick - 1) <= s.queue[p].tick)
  {
    var p := s.nodes[n].next.value;
    assert LinkOk(s.nodes, s.queue, s.limbo, s.freed, n, p);
    assert RegionInv(s.cur, s.last, s.nodes, s.tree, s.regions[x]);
    RoMono(s.last, s.regions[x].tick - 1);
  }

  lemma WalkKeeps(s: State, x: int, n: int)
    requires Inv(s) && Enabled(s, Walk(x, n))
    ensures Inv(Apply(s, Walk(x, n)))
  {
    WalkIsSafe(s, x, n);
    RegionKeeps(s, x, s.regions[x].(holds := s.regions[x].holds - {n} + {s.nodes[n].next.value}));
  }

  lemma NewRegionKeeps(s: State, x: int, r: Region)
    requires Inv(s) && RegionInv(s.cur, s.last, s.nodes, s.tree, r) && r.holds == {} && r.keys == {}
    ensures Inv(SetRegion(s, x, r))
  {
    RegionKeeps(s, x, r);
  }

  lemma OpenTxnKeeps(s: State, x: int, tick: int)
    requires Inv(s) && Enabled(s, OpenTxn(x, tick))
    ensures Inv(Apply(s, OpenTxn(x, tick)))
  {
    NewRegionKeeps(s, x, Region(tick, true, None, {}, {}, None));
  }

  lemma SnapBound(s: State, tick: int)
    requires 0 <= s.last && s.cur - 2 <= s.last < tick <= s.cur
    ensures RegionInv(s.cur, s.last, s.nodes, s.tree, SnapRegion(s.last, tick))
  {
    RoMono(tick - 1, s.last + 1);
  }

  lemma OpenSnapKeeps(s: State, x: int, tick: int)
    requires Inv(s) && Enabled(s, OpenSnap(x, tick))
    ensures Inv(SetRegion(s, x, SnapRegion(s.last, tick)))
  {
    SnapBound(s, tick);
    NewRegionKeeps(s, x, SnapRegion(s.last, tick));
  }

  lemma CloseKeeps(s: State, x: int)
    requires Inv(s) && Enabled(s, Close(x))
    ensures Inv(Apply(s, Close(x)))
  {
    RegionKeeps(s, x, s.regions[x].(open := false));
  }

  lemma LockKeyKeeps(s: State, x: int, k: int)
    requires Inv(s) && Enabled(s, LockKey(x, k))
    ensures Inv(Apply(s, LockKey(x, k)))
  {
    RegionKeeps(s, x, s.regions[x].(keys := s.regions[x].keys + {k}));
  }

  lemma UnlockKeyKeeps(s: State, x: int, k: int)
    requires Inv(s) && Enabled(s, UnlockKey(x, k))
    ensures Inv(Apply(s, UnlockKey(x, k)))
  {
    RegionKeeps(s, x, s.regions[x].(keys := s.regions[x].keys - {k}));
  }

  lemma TakeEpochKeeps(s: State, x: int)
    requires Inv(s) && Enabled(s, TakeEpoch(x))
    ensures Inv(Apply(s, TakeEpoch(x)))
  {
    var r := s.regions[x].(epoch := Some(s.cur));
    forall k | k in r.keys && k in s.tree && s.tree[k] in s.nodes ensures s.nodes[s.tree[k]].epoch <= s.cur {
      var h := s.tree[k];
      assert h in s.nodes;
    }
    RegionKeeps(s, x, r);
  }

  // ---- writes ----

  // A writer's epoch is at most one behind the current tick, so every open
  // region's tick is at most one above it.
  lemma WriterIsRecent(s: State, x: int, k: int)
    requires Inv(s) && Writer(s, x, k)
    ensures s.nodes[s.tree[k]].epoch <= s.regions[x].epoch.value <= s.cur
    ensures forall y :: Open(s, y) ==> Ro(s.regions[y].tick - 1) <= Ro(s.regions[x].epoch.value)
  {
    assert RegionInv(s.cur, s.last, s.nodes, s.tree, s.regions[x]);
    forall y | Open(s, y) ensures Ro(s.regions[y].tick - 1) <= Ro(s.regions[x].epoch.value) {
      assert RegionInv(s.cur, s.last, s.nodes, s.tree, s.regions[y]);
      RoMono(s.regions[y].tick - 1, s.regions[x].epoch.value);
    }
  }

  // The writer's own head is the only one its write can move, and nobody else holds that key.
  lemma WriteRegions(s: State, nodes': Nodes, tree': map<int, int>, x: int, k: int)
    requires Inv(s) && Writer(s, x, k) && k in tree' && tree'[k] in nodes'
    requires nodes'[tree'[k]].epoch == s.regions[x].epoch.value
    requires forall j :: j in tree' && j != k ==> j in s.tree && tree'[j] == s.tree[j]
    requires forall n :: n in s.nodes && n != s.tree[k] ==> n in nodes' && nodes'[n] == s.nodes[n]
    ensures forall y :: y in s.regions ==> RegionInv(s.cur, s.last, nodes', tree', s.regions[y])
  {
    forall y | y in s.regions ensures RegionInv(s.cur, s.last, nodes', tree', s.regions[y]) {
      assert RegionInv(s.cur, s.last, s.nodes, s.tree, s.regions[y]);
      forall j | s.regions[y].open && s.regions[y].epoch.Some? && j in s.regions[y].keys && j in tree' &&
        tree'[j] in nodes'
        ensures nodes'[tree'[j]].epoch <= s.regions[y].epoch.value
      {
        if j != k {
          var h := s.tree[j];
          assert h in s.nodes && s.nodes[h].key == j;
        }
      }
    }
  }

  lemma InPlacePlaces(s: State, x: int, k: int, del: bool)
    requires Inv(s) && Enabled(s, InPlace(x, k, del))
    ensures var s' := DoInPlace(s, x, k, del);
      PlaceInv(s'.nodes, s'.tree, s'.queue, s'.limbo, s'.freed) && LinkInv(s'.nodes, s'.queue, s'.limbo, s'.freed)
  {
    var s' := DoInPlace(s, x, k, del);
    forall n | n in s'.nodes && s'.nodes[n].next.Some?
      ensures LinkOk(s'.nodes, s'.queue, s'.limbo, s'.freed, n, s'.nodes[n].next.value)
    {
      assert LinkOk(s.nodes, s.queue, s.limbo, s.freed, n, s.nodes[n].next.value);
    }
  }

  lemma InPlaceKeeps(s: State, x: int, k: int, del: bool)
    requires Inv(s) && Enabled(s, InPlace(x, k, del))
    ensures Inv(DoInPlace(s, x, k, del))
  {
    var s' := DoInPlace(s, x, k, del);
    WriterIsRecent(s, x, k);
    InPlacePlaces(s, x, k, del);
    WriteRegions(s, s'.nodes, s'.tree, x, k);
    forall y | y in s.regions ensures HoldInv(s'.nodes, s'.queue, s'.limbo, s'.freed, y, s.regions[y]) {
      assert HoldInv(s.nodes, s.queue, s.limbo, s.freed, y, s.regions[y]);
    }
  }

  lemma SpillPlaces(s: State, x: int, k: int, del: bool, y: int)
    requires Inv(s) && Enabled(s, SpillCopy(x, k, del, y))
    ensures var s' := DoSpillCopy(s, x, k, del, y); PlaceInv(s'.nodes, s'.tree, s'.queue, s'.limbo, s'.freed)
  {
  }

  lemma SpillLinks(s: State, x: int, k: int, del: bool, y: int)
    requires Inv(s) && Enabled(s, SpillCopy(x, k, del, y))
    ensures var s' := DoSpillCopy(s, x, k, del, y); LinkInv(s'.nodes, s'.queue, s'.limbo, s'.freed)
  {
    var s' := DoSpillCopy(s, x, k, del, y);
    var h := s.tree[k];
    forall n | n in s'.nodes && s'.nodes[n].next.Some?
      ensures LinkOk(s'.nodes, s'.queue, s'.limbo, s'.freed, n, s'.nodes[n].next.value)
    {
      var from := if n == y then h else n;
      if n != h { assert LinkOk(s.nodes, s.queue, s.limbo, s.freed, from, s.nodes[from].next.value); }
    }
  }

  lemma SpillKeeps(s: State, x: int, k: int, del: bool, y: int)
    requires Inv(s) && Enabled(s, SpillCopy(x, k, del, y))
    ensures Inv(DoSpillCopy(s, x, k, del, y))
  {
    var s' := DoSpillCopy(s, x, k, del, y);
    WriterIsRecent(s, x, k);
    SpillPlaces(s, x, k, del, y);
    SpillLinks(s, x, k, del, y);
    WriteRegions(s, s'.nodes, s'.tree, x, k);
    forall o | o in s.regions ensures HoldInv(s'.nodes, s'.queue, s'.limbo, s'.freed, o, s.regions[o]) {
      assert HoldInv(s.nodes, s.queue, s.limbo, s.freed, o, s.regions[o]);
    }
  }

  lemma ReplacePlaces(s: State, x: int, k: int, del: bool, y: int)
    requires Inv(s) && Enabled(s, Replace(x, k, del, y))
    ensures var s' := DoReplace(s, x, k, del, y); PlaceInv(s'.nodes, s'.tree, s'.queue, s'.limbo, s'.freed)
  {
  }

  lemma ReplaceLinks(s: State, x: int, k: int, del: bool, y: int)
    requires Inv(s) && Enabled(s, Replace(x, k, del, y))
    ensures var s' := DoReplace(s, x, k, del, y); LinkInv(s'.nodes, s'.queue, s'.limbo, s'.freed)
  {
    var s' := DoReplace(s, x, k, del, y);
    forall n | n in s'.nodes && s'.nodes[n].next.Some?
      ensures LinkOk(s'.nodes, s'.queue, s'.limbo, s'.freed, n, s'.nodes[n].next.value)
    {
      if n != y { assert LinkOk(s.nodes, s.queue, s.limbo, s.freed, n, s.nodes[n].next.value); }
    }
  }

  lemma ReplaceHolds(s: State, x: int, k: int, del: bool, y: int, o: int)
    requires Inv(s) && Enabled(s, Replace(x, k, del, y)) && o in s.regions
    ensures var s' := DoReplace(s, x, k, del, y); HoldInv(s'.nodes, s'.queue, s'.limbo, s'.freed, o, s.regions[o])
  {
    WriterIsRecent(s, x, k);
    assert HoldInv(s.nodes, s.queue, s.limbo, s.freed, o, s.regions[o]);
  }

  lemma ReplaceKeeps(s: State, x: int, k: int, del: bool, y: int)
    requires Inv(s) && Enabled(s, Replace(x, k, del, y))
    ensures Inv(DoReplace(s, x, k, del, y))
  {
    var s' := DoReplace(s, x, k, del, y);
    WriterIsRecent(s, x, k);
    ReplacePlaces(s, x, k, del, y);
    ReplaceLinks(s, x, k, del, y);
    WriteRegions(s, s'.nodes, s'.tree, x, k);
    forall o | o in s.regions ensures HoldInv(s'.nodes, s'.queue, s'.limbo, s'.freed, o, s.regions[o]) {
      ReplaceHolds(s, x, k, del, y, o);
    }
  }

  lemma InsertPlaces(s: State, y: int, node: Node)
    requires Inv(s) && y !in s.nodes && node.key !in s.tree && node.latest && node.next == None
    ensures var nodes', tree' := s.nodes[y := node], s.tree[node.key := y];
      PlaceInv(nodes', tree', s.queue, s.limbo, s.freed) && LinkInv(nodes', s.queue, s.limbo, s.freed)
  {
    var nodes' := s.nodes[y := node];
    forall n | n in nodes' && nodes'[n].next.Some?
      ensures LinkOk(nodes', s.queue, s.limbo, s.freed, n, nodes'[n].next.value)
    {
      assert LinkOk(s.nodes, s.queue, s.limbo, s.freed, n, s.nodes[n].next.value);
    }
  }

  lemma InsertRegions(s: State, x: int, y: int, node: Node, o: int)
    requires Inv(s) && Open(s, x) && s.regions[x].epoch == Some(node.epoch) && node.key in s.regions[x].keys
    requires y !in s.nodes && o in s.regions
    ensures RegionInv(s.cur, s.last, s.nodes[y := node], s.tree[node.key := y], s.regions[o])
    ensures HoldInv(s.nodes[y := node], s.queue, s.limbo, s.freed, o, s.regions[o])
  {
    assert RegionInv(s.cur, s.last, s.nodes, s.tree, s.regions[o]) &&
      HoldInv(s.nodes, s.queue, s.limbo, s.freed, o, s.regions[o]);
  }

  lemma InsertKeeps(s: State, x: int, k: int, del: bool, y: int)
    requires Inv(s) && Enabled(s, Insert(x, k, del, y))
    ensures Inv(Apply(s, Insert(x, k, del, y)))
  {
    var node := Node(k, s.regions[x].epoch.value, del, true, None);
    assert RegionInv(s.cur, s.last, s.nodes, s.tree, s.regions[x]);
    InsertPlaces(s, y, node);
    forall o | o in s.regions
      ensures RegionInv(s.cur, s.last, s.nodes[y := node], s.tree[k := y], s.regions[o])
           && HoldInv(s.nodes[y := node], s.queue, s.limbo, s.freed, o, s.regions[o])
    {
      InsertRegions(s, x, y, node, o);
    }
    SameFrame(s, s.(nodes := s.nodes[y := node], tree := s.tree[k := y]));
  }

  // The parts of the invariant, put together for steps that leave clock and regions alone.
  lemma SameFrame(s: State, s': State)
    requires Inv(s) && s'.cur == s.cur && s'.last == s.last && s'.regions == s.regions
    requires PlaceInv(s'.nodes, s'.tree, s'.queue, s'.limbo, s'.freed)
    requires LinkInv(s'.nodes, s'.queue, s'.limbo, s'.freed)
    requires forall p :: p in s'.freed ==> s'.freed[p] < Ro(s.last)
    requires forall n :: n in s'.nodes ==> s'.nodes[n].epoch <= s.cur
    requires forall o :: o in s.regions ==> HoldInv(s'.nodes, s'.queue, s'.limbo, s'.freed, o, s.regions[o])
    requires forall o :: o in s.regions ==> RegionInv(s.cur, s.last, s'.nodes, s'.tree, s.regions[o])
    ensures Inv(s')
  {
  }

  // ---- the cleaner ----

  // Nobody can still be at a spilled tuple whose tick is past.
  lemma SpillUnheld(s: State, p: int, upto: int, o: int)
    requires Inv(s) && Enabled(s, Process(p, upto)) && s.queue[p].Spilled? && Open(s, o)
    ensures p !in s.regions[o].holds
  {
    assert HoldInv(s.nodes, s.queue, s.limbo, s.freed, o, s.regions[o]);
    assert RegionInv(s.cur, s.last, s.nodes, s.tree, s.regions[o]);
    RoMono(upto, s.last);
    RoMono(s.last, s.regions[o].tick - 1);
  }

  lemma FreeSpillParts(s: State, s': State, p: int, upto: int)
    requires Inv(s) && Enabled(s, Process(p, upto)) && s.queue[p].Spilled? && s' == DoProcess(s, p)
    ensures PlaceInv(s'.nodes, s'.tree, s'.queue, s'.limbo, s'.freed) && LinkInv(s'.nodes, s'.queue, s'.limbo, s'.freed)
  {
    forall n | n in s.nodes && s.nodes[n].next.Some?
      ensures LinkOk(s'.nodes, s'.queue, s'.limbo, s'.freed, n, s.nodes[n].next.value)
    {
      assert LinkOk(s.nodes, s.queue, s.limbo, s.freed, n, s.nodes[n].next.value);
    }
  }

  lemma FreeSpillKeeps(s: State, p: int, upto: int)
    requires Inv(s) && Enabled(s, Process(p, upto)) && s.queue[p].Spilled?
    ensures Inv(DoProcess(s, p))
  {
    var s' := DoProcess(s, p);
    FreeSpillParts(s, s', p, upto);
    RoMono(upto, s.last);
    forall o | o in s.regions ensures HoldInv(s'.nodes, s'.queue, s'.limbo, s'.freed, o, s.regions[o]) {
      assert HoldInv(s.nodes, s.queue, s.limbo, s.freed, o, s.regions[o]);
      if Open(s, o) { SpillUnheld(s, p, upto, o); }
    }
    SameFrame(s, s');
  }

  lemma RequeueParts(s: State, s': State, p: int, upto: int)
    requires Inv(s) && Enabled(s, Process(p, upto)) && s.queue[p].Deleted? && !s.nodes[p].latest
    requires s' == DoProcess(s, p)
    ensures PlaceInv(s'.nodes, s'.tree, s'.queue, s'.limbo, s'.freed) && LinkInv(s'.nodes, s'.queue, s'.limbo, s'.freed)
  {
    forall n | n in s.nodes && s.nodes[n].next.Some?
      ensures LinkOk(s'.nodes, s'.queue, s'.limbo, s'.freed, n, s.nodes[n].next.value)
    {
      assert LinkOk(s.nodes, s.queue, s.limbo, s.freed, n, s.nodes[n].next.value);
      RoMono(s.nodes[n].epoch, s.cur);
    }
  }

  lemma RequeueHolds(s: State, s': State, p: int, upto: int, o: int)
    requires Inv(s) && Enabled(s, Process(p, upto)) && s.queue[p].Deleted? && !s.nodes[p].latest
    requires s' == DoProcess(s, p) && o in s.regions
    ensures HoldInv(s'.nodes, s'.queue, s'.limbo, s'.freed, o, s.regions[o])
  {
    assert HoldInv(s.nodes, s.queue, s.limbo, s.freed, o, s.regions[o]);
    assert RegionInv(s.cur, s.last, s.nodes, s.tree, s.regions[o]);
    if Open(s, o) { RoMono(s.regions[o].tick - 1, s.cur); }
  }

  lemma RequeueKeeps(s: State, p: int, upto: int)
    requires Inv(s) && Enabled(s, Process(p, upto)) && s.queue[p].Deleted? && !s.nodes[p].latest
    ensures Inv(DoProcess(s, p))
  {
    var s' := DoProcess(s, p);
    RequeueParts(s, s', p, upto);
    forall o | o in s.regions
      ensures HoldInv(s'.nodes, s'.queue, s'.limbo, s'.freed, o, s.regions[o])
    {
      RequeueHolds(s, s', p, upto, o);
    }
    SameFrame(s, s');
  }

  lemma UnlinkPlaces(s: State, p: int, upto: int)
    requires Inv(s) && Enabled(s, Process(p, upto)) && s.queue[p].Deleted? && s.nodes[p].latest
    ensures var s' := DoProcess(s, p);
      PlaceInv(s'.nodes, s'.tree, s'.queue, s'.limbo, s'.freed) && LinkInv(s'.nodes, s'.queue, s'.limbo, s'.freed)
  {
    var s' := DoProcess(s, p);
    forall n | n in s.nodes && s.nodes[n].next.Some?
      ensures LinkOk(s'.nodes, s'.queue, s'.limbo, s'.freed, n, s.nodes[n].next.value)
    {
      assert LinkOk(s.nodes, s.queue, s.limbo, s.freed, n, s.nodes[n].next.value);
    }
  }

  lemma UnlinkRegions(s: State, p: int, upto: int, o: int)
    requires Inv(s) && Enabled(s, Process(p, upto)) && s.queue[p].Deleted? && s.nodes[p].latest && o in s.regions
    ensures var s' := DoProcess(s, p);
      HoldInv(s'.nodes, s'.queue, s'.limbo, s'.freed, o, s.regions[o]) &&
        RegionInv(s.cur, s.last, s'.nodes, s'.tree, s.regions[o])
  {
    assert HoldInv(s.nodes, s.queue, s.limbo, s.freed, o, s.regions[o]);
    assert RegionInv(s.cur, s.last, s.nodes, s.tree, s.regions[o]);
  }

  lemma UnlinkKeeps(s: State, p: int, upto: int)
    requires Inv(s) && Enabled(s, Process(p, upto)) && s.queue[p].Deleted? && s.nodes[p].latest
    ensures Inv(DoProcess(s, p))
  {
    UnlinkPlaces(s, p, upto);
    var s' := DoProcess(s, p);
    forall o | o in s.regions
      ensures HoldInv(s'.nodes, s'.queue, s'.limbo, s'.freed, o, s.regions[o])
      ensures RegionInv(s.cur, s.last, s'.nodes, s'.tree, s.regions[o])
    {
      UnlinkRegions(s, p, upto, o);
    }
    SameFrame(s, s');
  }

  lemma ReclaimParts(s: State, s': State, p: int)
    requires Inv(s) && Enabled(s, Reclaim(p)) && s' == Apply(s, Reclaim(p))
    ensures PlaceInv(s'.nodes, s'.tree, s'.queue, s'.limbo, s'.freed) && LinkInv(s'.nodes, s'.queue, s'.limbo, s'.freed)
  {
    forall n | n in s.nodes && s.nodes[n].next.Some?
      ensures LinkOk(s'.nodes, s'.queue, s'.limbo, s'.freed, n, s.nodes[n].next.value)
    {
      assert LinkOk(s.nodes, s.queue, s.limbo, s.freed, n, s.nodes[n].next.value);
    }
  }

  lemma ReclaimKeeps(s: State, p: int)
    requires Inv(s) && Enabled(s, Reclaim(p))
    ensures Inv(Apply(s, Reclaim(p)))
  {
    var s' := Apply(s, Reclaim(p));
    ReclaimParts(s, s', p);
    forall o | o in s.regions ensures HoldInv(s'.nodes, s'.queue, s'.limbo, s'.freed, o, s.regions[o]) {
      assert HoldInv(s.nodes, s.queue, s.limbo, s.freed, o, s.regions[o]);
    }
    SameFrame(s, s');
  }

  predicate Opens(step: Step) { step.Tick? || step.Complete? || step.OpenTxn? || step.Close? }

  lemma OpensKeep(s: State, step: Step)
    requires Inv(s) && Enabled(s, step) && Opens(step)
    ensures Inv(Apply(s, step))
  {
    match step
    case Tick => ClockKeeps(s, step);
    case Complete => ClockKeeps(s, step);
    case OpenTxn(x, tick) => OpenTxnKeeps(s, x, tick);
    case Close(x) => CloseKeeps(s, x);
  }

  lemma SnapsKeep(s: State, x: int, tick: int)
    requires Inv(s) && Enabled(s, OpenSnap(x, tick))
    ensures Inv(Apply(s, OpenSnap(x, tick)))
  {
    OpenSnapKeeps(s, x, tick);
  }

  predicate Moves(step: Step) { step.Fetch? || step.Walk? || step.LockKey? || step.UnlockKey? || step.TakeEpoch? }

  lemma MovesKeep(s: State, step: Step)
    requires Inv(s) && Enabled(s, step) && Moves(step)
    ensures Inv(Apply(s, step))
  {
    match step
    case Fetch(x, k) => FetchKeeps(s, x, k);
    case Walk(x, n) => WalkKeeps(s, x, n);
    case LockKey(x, k) => LockKeyKeeps(s, x, k);
    case UnlockKey(x, k) => UnlockKeyKeeps(s, x, k);
    case TakeEpoch(x) => TakeEpochKeeps(s, x);
  }

  lemma WritesKeep(s: State, step: Step)
    requires Inv(s) && Enabled(s, step) && !Opens(step) && !step.OpenSnap? && !Moves(step)
    ensures Inv(Apply(s, step))
  {
    match step
    case InPlace(x, k, del) => InPlaceKeeps(s, x, k, del);
    case SpillCopy(x, k, del, y) => SpillKeeps(s, x, k, del, y);
    case Replace(x, k, del, y) => ReplaceKeeps(s, x, k, del, y);
    case Insert(x, k, del, y) => InsertKeeps(s, x, k, del, y);
    case Process(p, upto) =>
      if s.queue[p].Spilled? { FreeSpillKeeps(s, p, upto); }
      else if !s.nodes[p].latest { RequeueKeeps(s, p, upto); }
      else { UnlinkKeeps(s, p, upto); }
    case Reclaim(p) => ReclaimKeeps(s, p);
  }

  lemma StepKeeps(s: State, step: Step)
    requires Inv(s) && Enabled(s, step)
    ensures Inv(Apply(s, step))
  {
    if Opens(step) { OpensKeep(s, step); }
    else if step.OpenSnap? { SnapsKeep(s, step.x, step.tick); }
    else if Moves(step) { MovesKeep(s, step); }
    else { WritesKeep(s, step); }
  }

  lemma {:induction false} RunInv(ss: seq<State>, steps: seq<Step>, i: nat)
    requires Run(ss, steps) && i < |ss|
    ensures Inv(ss[i])
    decreases i
  {
    if i > 0 {
      RunInv(ss, steps, i - 1);
      assert ss[i - 1 + 1] == Apply(ss[i - 1], steps[i - 1]);
      StepKeeps(ss[i - 1], steps[i - 1]);
    }
  }

  // ---- theorems ----

  // No open region points at a reclaimed tuple, a snapshot reader's next step
  // along a chain meets none, and the tree never holds one.
  lemma NoReclaimedAccess(ss: seq<State>, steps: seq<Step>, i: nat)
    requires Run(ss, steps) && i < |ss|
    ensures forall x, p :: Open(ss[i], x) && p in ss[i].regions[x].holds ==> p in ss[i].nodes && p !in ss[i].freed
    ensures forall x, n :: Enabled(ss[i], Walk(x, n)) ==>
      ss[i].nodes[n].next.value in ss[i].nodes && ss[i].nodes[n].next.value !in ss[i].freed
    ensures forall k :: k in ss[i].tree ==> ss[i].tree[k] !in ss[i].freed && ss[i].tree[k] !in ss[i].limbo
  {
    RunInv(ss, steps, i);
    var s := ss[i];
    forall x, p | Open(s, x) && p in s.regions[x].holds ensures p in s.nodes && p !in s.freed {
      assert HoldInv(s.nodes, s.queue, s.limbo, s.freed, x, s.regions[x]);
    }
    forall x, n | Enabled(s, Walk(x, n)) ensures s.nodes[n].next.value in s.nodes && s.nodes[n].next.value !in s.freed {
      WalkIsSafe(s, x, n);
    }
    forall k | k in s.tree ensures s.tree[k] !in s.freed && s.tree[k] !in s.limbo {
      var h := s.tree[k];
      assert h in s.nodes && s.nodes[h].latest;
    }
  }

  // The step that gives tuple p back: a spill past its tick, or a deleted
  // tuple whose grace period is over.
  predicate Releases(s: State, step: Step, p: int) {
    (step.Process? && step.p == p && p in s.queue && s.queue[p].Spilled?) || step == Reclaim(p)
  }

  // What is released was not released before, is not the latest version, not
  // in the tree, and not queued or waiting afterwards; nothing else is released.
  lemma ReclaimedOnce(ss: seq<State>, steps: seq<Step>, i: nat, p: int)
    requires Run(ss, steps) && i < |steps| && Releases(ss[i], steps[i], p)
    ensures p !in ss[i].freed && p in ss[i].nodes && !ss[i].nodes[p].latest
    ensures ss[i + 1].freed.Keys == ss[i].freed.Keys + {p} && p !in ss[i + 1].queue && p !in ss[i + 1].limbo
    ensures forall k :: k in ss[i].tree ==> ss[i].tree[k] != p
  {
    RunInv(ss, steps, i);
    RunInv(ss, steps, i + 1);
    assert ss[i + 1] == Apply(ss[i], steps[i]);
  }

  lemma {:induction false} FreedGrows(ss: seq<State>, steps: seq<Step>, i: nat, j: nat)
    requires Run(ss, steps) && i <= j < |ss|
    ensures ss[i].freed.Keys <= ss[j].freed.Keys
    decreases j
  {
    if i < j {
      FreedGrows(ss, steps, i, j - 1);
      assert ss[j - 1 + 1] == Apply(ss[j - 1], steps[j - 1]);
    }
  }

  // At most once: no tuple is released by two steps of a run.
  lemma AtMostOnce(ss: seq<State>, steps: seq<Step>, i: nat, j: nat, p: int)
    requires Run(ss, steps) && i <= j < |steps| && Releases(ss[i], steps[i], p) && Releases(ss[j], steps[j], p)
    ensures i == j
  {
    ReclaimedOnce(ss, steps, i, p);
    ReclaimedOnce(ss, steps, j, p);
    if i < j { FreedGrows(ss, steps, i + 1, j); }
  }

  lemma QueuedOnce(ss: seq<State>, steps: seq<Step>, i: nat, p: int)
    requires Run(ss, steps) && i < |steps| && p in ss[i + 1].queue && p !in ss[i].queue
    ensures p !in ss[i].freed && p !in ss[i].limbo
  {
    RunInv(ss, steps, i);
    RunInv(ss, steps, i + 1);
    assert ss[i + 1] == Apply(ss[i], steps[i]);
  }
}
