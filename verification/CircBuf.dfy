// The circular buffer between workers and loggers, at single loads and
// stores: enqueuers race for the head, one thread dequeues and peeks, and
// others may peek too.

module CircBuf {
  import opened Arith

  // History: h0 is the number of claims when the head was loaded, h the
  // number of the claim won.
  datatype Enq =
    | Start(p: int)
    | Head(p: int, icur: nat, h0: nat)       // head loaded
    | Empty(p: int, icur: nat, h0: nat)      // its slot seen empty
    | Claimed(p: int, i: nat, h: nat)        // head moved on, slot not stored yet

  datatype Deq =
    | Rest
    | Got(ret: int)                          // slot at the tail loaded
    | Bumped(i: nat)                         // tail moved on, slot not cleared yet
    | Peeking(t: nat, i: nat, ps: seq<int>)
    | Peeked(ps: seq<int>)

  // 0 is the null pointer.  History: claims in order, items taken in order,
  // `cleared` slots given back.
  datatype State = State(
    buf: seq<int>, head: nat, tail: nat,
    enqs: map<int, Enq>, deq: Deq,
    claims: seq<int>, taken: seq<int>, cleared: nat)

  datatype Step =
    | BeginEnq(e: int, p: int) | LoadHead(e: int) | LoadSlot(e: int) | Cas(e: int) | StoreSlot(e: int)
    | DeqLoad | DeqBump | DeqClear
    | PeekStart | PeekNext | PeekStop | PeekDone

  function Cap(s: State): nat { |s.buf| }

  predicate Shape(s: State) {
    && 0 < Cap(s) && s.head < Cap(s) && s.tail < Cap(s)
    && (forall e :: e in s.enqs && (s.enqs[e].Head? || s.enqs[e].Empty?) ==> s.enqs[e].icur < Cap(s))
    && (forall e :: e in s.enqs && s.enqs[e].Claimed? ==> s.enqs[e].i < Cap(s))
    && (s.deq.Bumped? ==> s.deq.i < Cap(s)) && (s.deq.Peeking? ==> s.deq.i < Cap(s))
  }

  predicate Enabled(s: State, step: Step)
    requires Shape(s)
  {
    match step
    case BeginEnq(e, p) => e !in s.enqs && p != 0
    case LoadHead(e) => e in s.enqs && s.enqs[e].Start?
    case LoadSlot(e) => e in s.enqs && s.enqs[e].Head?
    case Cas(e) => e in s.enqs && s.enqs[e].Empty?
    case StoreSlot(e) => e in s.enqs && s.enqs[e].Claimed?
    case DeqLoad => s.deq.Rest? && s.buf[s.tail] != 0
    case DeqBump => s.deq.Got?
    case DeqClear => s.deq.Bumped?
    case PeekStart => s.deq.Rest?
    case PeekNext => s.deq.Peeking?
    case PeekStop => s.deq.Peeking?
    case PeekDone => s.deq.Peeked?
  }

  function Next(s: State, i: nat): nat
    requires 0 < Cap(s)
  {
    (i + 1) % Cap(s)
  }

  function SetEnq(s: State, e: int, x: Enq): State { s.(enqs := s.enqs[e := x]) }

  function DoCas(s: State, e: int): State
    requires Shape(s) && Enabled(s, Cas(e))
  {
    var x := s.enqs[e];
    if s.head != x.icur then SetEnq(s, e, Start(x.p))
    else SetEnq(s, e, Claimed(x.p, x.icur, |s.claims|)).(head := Next(s, x.icur), claims := s.claims + [x.p])
  }

  function DoPeek(s: State): Deq
    requires Shape(s) && Enabled(s, PeekNext)
  {
    var d := s.deq;
    if s.buf[d.i] == 0 then Peeked(d.ps)
    else if Next(s, d.i) == d.t then Peeked(d.ps + [s.buf[d.i]])
    else Peeking(d.t, Next(s, d.i), d.ps + [s.buf[d.i]])
  }

  function Apply(s: State, step: Step): State
    requires Shape(s) && Enabled(s, step)
  {
    match step
    case BeginEnq(e, p) => SetEnq(s, e, Start(p))
    case LoadHead(e) => SetEnq(s, e, Head(s.enqs[e].p, s.head, |s.claims|))
    case LoadSlot(e) =>
      var x := s.enqs[e];
      SetEnq(s, e, if s.buf[x.icur] != 0 then Start(x.p) else Empty(x.p, x.icur, x.h0))
    case Cas(e) => DoCas(s, e)
    case StoreSlot(e) => s.(buf := s.buf[s.enqs[e].i := s.enqs[e].p], enqs := s.enqs - {e})
    case DeqLoad => s.(deq := Got(s.buf[s.tail]))
    case DeqBump => s.(deq := Bumped(s.tail), tail := Next(s, s.tail), taken := s.taken + [s.deq.ret])
    case DeqClear => s.(deq := Rest, buf := s.buf[s.deq.i := 0], cleared := s.cleared + 1)
    case PeekStart => s.(deq := Peeking(s.tail, s.tail, []))
    case PeekNext => s.(deq := DoPeek(s))
    case PeekStop => s.(deq := Peeked(s.deq.ps))
    case PeekDone => s.(deq := Rest)
  }

  function Initial(n: nat): State { State(seq(n, _ => 0), 0, 0, map[], Rest, [], [], 0) }

  ghost predicate Run(ss: seq<State>, steps: seq<Step>, n: nat) {
    && 0 < n && |ss| == |steps| + 1 && ss[0] == Initial(n)
    && forall i {:trigger steps[i]} :: 0 <= i < |steps| ==>
      Shape(ss[i]) && Enabled(ss[i], steps[i]) && ss[i + 1] == Apply(ss[i], steps[i])
  }

  // The slot under the head is neither full nor claimed by someone who has yet to store.
  predicate FreeHead(s: State)
    requires Shape(s)
  {
    s.buf[s.head] == 0 && forall e :: e in s.enqs && s.enqs[e].Claimed? ==> s.enqs[e].i != s.head
  }

  // A compare-and-swap that succeeds takes a free slot.
  predicate Room(s: State, step: Step)
    requires Shape(s) && Enabled(s, step)
  {
    step.Cas? && s.head == s.enqs[step.e].icur ==> FreeHead(s)
  }

  // What the source asserts before the store: a claimed slot is empty, and has one claimer.
  ghost predicate Sound(s: State) {
    && (forall e :: e in s.enqs && s.enqs[e].Claimed? ==> s.enqs[e].i < Cap(s) && s.buf[s.enqs[e].i] == 0)
    && (forall e, f :: e in s.enqs && f in s.enqs && s.enqs[e].Claimed? && s.enqs[f].Claimed? ==>
          s.enqs[e].i == s.enqs[f].i ==> e == f)
  }

  // ---- the invariant ----

  // Claim h has not been stored yet.
  ghost predicate Pending(enqs: map<int, Enq>, h: nat) { exists e :: e in enqs && enqs[e].Claimed? && enqs[e].h == h }

  // Slots of the claims that are not cleared hold their items once stored; all others are empty.
  ghost predicate SlotsInv(buf: seq<int>, enqs: map<int, Enq>, claims: seq<int>, cleared: nat)
    requires 0 < |buf|
  {
    && (forall h :: cleared <= h < |claims| ==>
      claims[h] != 0 && buf[h % |buf|] == if Pending(enqs, h) then 0 else claims[h])
    && (forall j :: 0 <= j < |buf| && buf[j] != 0 ==> exists h :: cleared <= h < |claims| && h % |buf| == j)
  }

  ghost predicate EnqInv(n: nat, claims: seq<int>, cleared: nat, x: Enq)
    requires 0 < n
  {
    && x.p != 0
    && (x.Head? ==> x.h0 <= |claims| && x.icur == x.h0 % n)
    && (x.Empty? ==> x.h0 <= |claims| && x.icur == x.h0 % n)
    && (x.Claimed? ==> cleared <= x.h < |claims| && x.i == x.h % n && claims[x.h] == x.p)
  }

  ghost predicate DeqInv(s: State)
    requires 0 < Cap(s)
  {
    var t := |s.taken|;
    && s.taken <= s.claims && s.cleared == (if s.deq.Bumped? then t - 1 else t)
    && match s.deq
       case Rest => true
       case Got(ret) => t < |s.claims| && !Pending(s.enqs, t) && ret == s.claims[t]
       case Bumped(i) => 0 < t && i == (t - 1) % Cap(s) && !Pending(s.enqs, t - 1)
       case Peeking(first, i, ps) =>
         && first == t % Cap(s) && |ps| < Cap(s) && i == (t + |ps|) % Cap(s)
         && t + |ps| <= |s.claims| && ps == s.claims[t..t + |ps|]
       case Peeked(ps) => t + |ps| <= |s.claims| && ps == s.claims[t..t + |ps|]
  }

  ghost predicate Inv(s: State) {
    && Shape(s) && s.head == |s.claims| % Cap(s) && s.tail == |s.taken| % Cap(s)
    && s.cleared <= |s.claims| <= s.cleared + Cap(s)
    && SlotsInv(s.buf, s.enqs, s.claims, s.cleared) && DeqInv(s)
    && (forall e :: e in s.enqs ==> EnqInv(Cap(s), s.claims, s.cleared, s.enqs[e]))
    && (forall e, f :: e in s.enqs && f in s.enqs && s.enqs[e].Claimed? && s.enqs[f].Claimed? ==>
          s.enqs[e].h == s.enqs[f].h ==> e == f)
  }

  // ---- enqueue steps ----

  // The same claims are pending.
  ghost predicate SamePending(enqs: map<int, Enq>, enqs': map<int, Enq>) {
    forall h :: Pending(enqs', h) <==> Pending(enqs, h)
  }

  lemma UnclaimedStep(enqs: map<int, Enq>, e: int, x: Enq)
    requires !x.Claimed? && (e in enqs ==> !enqs[e].Claimed?)
    ensures SamePending(enqs, enqs[e := x])
  {
    var enqs' := enqs[e := x];
    forall h | Pending(enqs, h) ensures Pending(enqs', h) {
      var f :| f in enqs && enqs[f].Claimed? && enqs[f].h == h;
      assert f in enqs' && enqs'[f] == enqs[f];
    }
  }

  // A step that changes only an enqueuer without a claim.
  lemma LocalKeeps(s: State, e: int, x: Enq)
    requires Inv(s) && !x.Claimed? && (e in s.enqs ==> !s.enqs[e].Claimed?) && EnqInv(Cap(s), s.claims, s.cleared, x)
    requires (x.Head? || x.Empty?) ==> x.icur < Cap(s)
    ensures Inv(SetEnq(s, e, x))
  {
    UnclaimedStep(s.enqs, e, x);
  }

  lemma LoadSlotKeeps(s: State, e: int)
    requires Inv(s) && Enabled(s, LoadSlot(e))
    ensures Inv(Apply(s, LoadSlot(e)))
  {
    var x := s.enqs[e];
    LocalKeeps(s, e, if s.buf[x.icur] != 0 then Start(x.p) else Empty(x.p, x.icur, x.h0));
  }

  // The slot under the head is free exactly if not every slot is taken.
  lemma FreeIfRoom(s: State)
    requires Inv(s) && |s.claims| - s.cleared < Cap(s)
    ensures FreeHead(s)
  {
    forall h | s.cleared <= h < |s.claims| ensures h % Cap(s) != s.head {
      if h % Cap(s) == s.head { ModNear(h, |s.claims|, Cap(s)); }
    }
  }

  lemma RoomIfFree(s: State)
    requires Inv(s) && FreeHead(s)
    ensures |s.claims| - s.cleared < Cap(s)
  {
    if |s.claims| == s.cleared + Cap(s) { ModLap(s.cleared, Cap(s)); }
  }

  lemma ClaimPending(enqs: map<int, Enq>, e: int, x: Enq)
    requires x.Claimed? && e in enqs && !enqs[e].Claimed?
    ensures forall h :: Pending(enqs[e := x], h) <==> Pending(enqs, h) || h == x.h
  {
    var enqs' := enqs[e := x];
    assert enqs'[e] == x;
    forall h | Pending(enqs, h) ensures Pending(enqs', h) {
      var f :| f in enqs && enqs[f].Claimed? && enqs[f].h == h;
      assert f in enqs' && enqs'[f] == enqs[f];
    }
  }

  lemma ClaimSlots(s: State, s': State, e: int)
    requires Inv(s) && |s.claims| - s.cleared < Cap(s) && e in s.enqs && s.enqs[e].Empty?
    requires s' == SetEnq(s, e, Claimed(s.enqs[e].p, s.head, |s.claims|)).(head := s'.head,
      claims := s.claims + [s.enqs[e].p])
    ensures SlotsInv(s'.buf, s'.enqs, s'.claims, s'.cleared)
  {
    FreeIfRoom(s);
    ClaimPending(s.enqs, e, s'.enqs[e]);
    forall j | 0 <= j < |s.buf| && s.buf[j] != 0 ensures exists h :: s.cleared <= h < |s'.claims| && h % |s.buf| == j {
      var h :| s.cleared <= h < |s.claims| && h % |s.buf| == j;
      assert s.cleared <= h < |s'.claims|;
    }
  }

  lemma ClaimDeq(s: State, s': State, e: int)
    requires Inv(s) && e in s.enqs && s.enqs[e].Empty?
    requires s' == SetEnq(s, e, Claimed(s.enqs[e].p, s.head, |s.claims|)).(head := s'.head,
      claims := s.claims + [s.enqs[e].p])
    ensures DeqInv(s')
  {
    ClaimPending(s.enqs, e, s'.enqs[e]);
    assert s.claims <= s'.claims;
    if s.deq.Peeking? || s.deq.Peeked? {
      var t, n := |s.taken|, |s.deq.ps|;
      assert s'.claims[t..t + n] == s.claims[t..t + n];
    }
  }

  lemma CasKeeps(s: State, e: int)
    requires Inv(s) && Enabled(s, Cas(e)) && Room(s, Cas(e))
    ensures Inv(DoCas(s, e))
  {
    var x := s.enqs[e];
    if s.head != x.icur {
      LocalKeeps(s, e, Start(x.p));
    } else {
      RoomIfFree(s);
      ModStep(|s.claims|, Cap(s));
      ClaimSlots(s, DoCas(s, e), e);
      ClaimDeq(s, DoCas(s, e), e);
    }
  }

  // A compare-and-swap keeps the invariant, and what the source asserts, exactly if there is room.
  lemma CasExact(s: State, e: int)
    requires Inv(s) && Enabled(s, Cas(e))
    ensures Inv(DoCas(s, e)) <==> Room(s, Cas(e))
    ensures Sound(DoCas(s, e)) <==> Room(s, Cas(e))
  {
    if Room(s, Cas(e)) {
      CasKeeps(s, e);
      InvSound(DoCas(s, e));
    } else {
      CasUnsound(s, e);
      if |s.claims| - s.cleared < Cap(s) { FreeIfRoom(s); }
    }
  }

  lemma CasUnsound(s: State, e: int)
    requires Shape(s) && Enabled(s, Cas(e)) && !Room(s, Cas(e))
    ensures !Sound(DoCas(s, e))
  {
    var s' := DoCas(s, e);
    assert s'.enqs[e].Claimed? && s'.enqs[e].i == s.head;
    if s.buf[s.head] == 0 {
      var f :| f in s.enqs && s.enqs[f].Claimed? && s.enqs[f].i == s.head;
      assert f != e && s'.enqs[f] == s.enqs[f];
    }
  }

  lemma InvSound(s: State)
    requires Inv(s)
    ensures Sound(s)
  {
    forall e | e in s.enqs && s.enqs[e].Claimed? ensures s.buf[s.enqs[e].i] == 0 {
      assert EnqInv(Cap(s), s.claims, s.cleared, s.enqs[e]) && Pending(s.enqs, s.enqs[e].h);
    }
    forall e, f | e in s.enqs && f in s.enqs && s.enqs[e].Claimed? && s.enqs[f].Claimed? && s.enqs[e].i == s.enqs[f].i
      ensures e == f
    {
      assert EnqInv(Cap(s), s.claims, s.cleared, s.enqs[e]) && EnqInv(Cap(s), s.claims, s.cleared, s.enqs[f]);
      ModNear(s.enqs[f].h, s.enqs[e].h, Cap(s));
    }
  }

  lemma StorePending(s: State, e: int)
    requires Inv(s) && Enabled(s, StoreSlot(e))
    ensures forall h :: Pending(s.enqs - {e}, h) <==> Pending(s.enqs, h) && h != s.enqs[e].h
  {
    var enqs' := s.enqs - {e};
    forall h | Pending(s.enqs, h) && h != s.enqs[e].h ensures Pending(enqs', h) {
      var f :| f in s.enqs && s.enqs[f].Claimed? && s.enqs[f].h == h;
      assert f in enqs' && enqs'[f] == s.enqs[f];
    }
  }

  lemma StoreSlots(s: State, e: int)
    requires Inv(s) && Enabled(s, StoreSlot(e))
    ensures var s' := Apply(s, StoreSlot(e)); SlotsInv(s'.buf, s'.enqs, s'.claims, s'.cleared)
  {
    var s' := Apply(s, StoreSlot(e));
    var x := s.enqs[e];
    StorePending(s, e);
    forall h | s.cleared <= h < |s.claims|
      ensures s'.buf[h % |s.buf|] == if Pending(s'.enqs, h) then 0 else s.claims[h]
    {
      if h % |s.buf| == x.i { ModNear(h, x.h, Cap(s)); }
    }
    forall j | 0 <= j < |s.buf| && s'.buf[j] != 0 ensures exists h :: s.cleared <= h < |s.claims| && h % |s.buf| == j {
      if j == x.i { assert s.cleared <= x.h < |s.claims| && x.h % |s.buf| == j; }
    }
  }

  lemma StoreKeeps(s: State, e: int)
    requires Inv(s) && Enabled(s, StoreSlot(e))
    ensures Inv(Apply(s, StoreSlot(e)))
  {
    StorePending(s, e);
    StoreSlots(s, e);
  }

  // ---- dequeue and peek steps ----

  // A full slot within a lap of the tail holds the claim of that position.
  lemma FullSlot(s: State, pos: nat)
    requires Inv(s) && s.cleared == |s.taken| <= pos < |s.taken| + Cap(s) && s.buf[pos % Cap(s)] != 0
    ensures pos < |s.claims| && !Pending(s.enqs, pos) && s.buf[pos % Cap(s)] == s.claims[pos]
  {
    var h :| s.cleared <= h < |s.claims| && h % Cap(s) == pos % Cap(s);
    ModNear(h, pos, Cap(s));
  }

  lemma DeqLoadKeeps(s: State)
    requires Inv(s) && Enabled(s, DeqLoad)
    ensures Inv(Apply(s, DeqLoad))
  {
    FullSlot(s, |s.taken|);
  }

  lemma DeqBumpKeeps(s: State)
    requires Inv(s) && Enabled(s, DeqBump)
    ensures Inv(Apply(s, DeqBump))
  {
    ModStep(|s.taken|, Cap(s));
  }

  lemma ClearSlots(s: State)
    requires Inv(s) && Enabled(s, DeqClear)
    ensures SlotsInv(s.buf[s.deq.i := 0], s.enqs, s.claims, s.cleared + 1)
  {
    var buf' := s.buf[s.deq.i := 0];
    forall h | s.cleared + 1 <= h < |s.claims| ensures buf'[h % |s.buf|] == s.buf[h % |s.buf|] {
      if h % |s.buf| == s.deq.i { ModNear(h, s.cleared, Cap(s)); }
    }
    forall j | 0 <= j < |s.buf| && buf'[j] != 0
      ensures exists h :: s.cleared + 1 <= h < |s.claims| && h % |s.buf| == j
    {
      var h :| s.cleared <= h < |s.claims| && h % |s.buf| == j;
    }
  }

  lemma DeqClearKeeps(s: State)
    requires Inv(s) && Enabled(s, DeqClear)
    ensures Inv(Apply(s, DeqClear))
  {
    ClearSlots(s);
    forall e | e in s.enqs ensures EnqInv(Cap(s), s.claims, s.cleared + 1, s.enqs[e]) {
      assert EnqInv(Cap(s), s.claims, s.cleared, s.enqs[e]);
      assert s.enqs[e].Claimed? ==> Pending(s.enqs, s.enqs[e].h);
    }
  }

  // One more item of the peeked prefix.
  lemma PeekFull(s: State)
    requires Inv(s) && Enabled(s, PeekNext) && s.buf[s.deq.i] != 0
    ensures var t, n := |s.taken|, |s.deq.ps| + 1;
      && t + n <= |s.claims| && s.deq.ps + [s.buf[s.deq.i]] == s.claims[t..t + n]
      && Next(s, s.deq.i) == (t + n) % Cap(s) && (n == Cap(s) ==> Next(s, s.deq.i) == s.deq.t)
  {
    var pos := |s.taken| + |s.deq.ps|;
    FullSlot(s, pos);
    ModStep(pos, Cap(s));
    ModLap(|s.taken|, Cap(s));
    assert s.claims[|s.taken|..pos + 1] == s.claims[|s.taken|..pos] + [s.claims[pos]];
  }

  // A change of the dequeuer's own state.
  lemma DeqLocal(s: State, d: Deq)
    requires Inv(s) && DeqInv(s.(deq := d)) && (d.Bumped? ==> d.i < Cap(s)) && (d.Peeking? ==> d.i < Cap(s))
    ensures Inv(s.(deq := d))
  {
  }

  lemma PeekDeq(s: State)
    requires Inv(s) && Enabled(s, PeekNext)
    ensures DeqInv(s.(deq := DoPeek(s))) && (DoPeek(s).Peeking? ==> DoPeek(s).i < Cap(s)) && !DoPeek(s).Bumped?
  {
    if s.buf[s.deq.i] != 0 { PeekFull(s); }
  }

  lemma PeekNextKeeps(s: State)
    requires Inv(s) && Enabled(s, PeekNext)
    ensures Inv(Apply(s, PeekNext))
  {
    PeekDeq(s);
    DeqLocal(s, DoPeek(s));
  }

  lemma StepKeeps(s: State, step: Step)
    requires Inv(s) && Enabled(s, step) && Room(s, step)
    ensures Inv(Apply(s, step))
  {
    match step
    case BeginEnq(e, p) => LocalKeeps(s, e, Start(p));
    case LoadHead(e) => LocalKeeps(s, e, Head(s.enqs[e].p, s.head, |s.claims|));
    case LoadSlot(e) => LoadSlotKeeps(s, e);
    case Cas(e) => CasKeeps(s, e);
    case StoreSlot(e) => StoreKeeps(s, e);
    case DeqLoad => DeqLoadKeeps(s);
    case DeqBump => DeqBumpKeeps(s);
    case DeqClear => DeqClearKeeps(s);
    case PeekNext => PeekNextKeeps(s);
    case PeekStart =>
    case PeekStop =>
    case PeekDone =>
  }

  ghost predicate RoomRun(ss: seq<State>, steps: seq<Step>, n: nat) {
    Run(ss, steps, n) && forall i {:trigger steps[i]} :: 0 <= i < |steps| ==> Room(ss[i], steps[i])
  }

  lemma {:induction false} RunInv(ss: seq<State>, steps: seq<Step>, n: nat, i: nat)
    requires RoomRun(ss, steps, n) && i < |ss|
    ensures Inv(ss[i]) && Cap(ss[i]) == n
    decreases i
  {
    if i > 0 {
      RunInv(ss, steps, n, i - 1);
      assert ss[i - 1 + 1] == Apply(ss[i - 1], steps[i - 1]);
      StepKeeps(ss[i - 1], steps[i - 1]);
    }
  }

  // ---- theorems ----

  // What enqueuer e was called with last before step i.
  function Arg(steps: seq<Step>, i: nat, e: int): int
    requires i <= |steps|
  {
    if i == 0 then 0
    else if steps[i - 1].BeginEnq? && steps[i - 1].e == e then steps[i - 1].p
    else Arg(steps, i - 1, e)
  }

  // The items of the calls that have won a slot before step j, in that order.
  function Enqueued(ss: seq<State>, steps: seq<Step>, j: nat): seq<int>
    requires j <= |steps| && |ss| == |steps| + 1
  {
    if j == 0 then []
    else if steps[j - 1].Cas? && steps[j - 1].e in ss[j].enqs && ss[j].enqs[steps[j - 1].e].Claimed?
    then Enqueued(ss, steps, j - 1) + [Arg(steps, j - 1, steps[j - 1].e)]
    else Enqueued(ss, steps, j - 1)
  }

  // The items loaded by dequeues before step j.
  function Dequeued(ss: seq<State>, steps: seq<Step>, j: nat): seq<int>
    requires j <= |steps| && |ss| == |steps| + 1
  {
    if j == 0 then []
    else if steps[j - 1].DeqLoad? && ss[j - 1].tail < |ss[j - 1].buf|
    then Dequeued(ss, steps, j - 1) + [ss[j - 1].buf[ss[j - 1].tail]]
    else Dequeued(ss, steps, j - 1)
  }

  lemma {:induction false} ArgsKept(ss: seq<State>, steps: seq<Step>, n: nat, i: nat, e: int)
    requires Run(ss, steps, n) && i < |ss| && e in ss[i].enqs
    ensures ss[i].enqs[e].p == Arg(steps, i, e)
    decreases i
  {
    if i > 0 {
      assert ss[i - 1 + 1] == Apply(ss[i - 1], steps[i - 1]);
      if !(steps[i - 1].BeginEnq? && steps[i - 1].e == e) { ArgsKept(ss, steps, n, i - 1, e); }
    }
  }

  lemma {:induction false} ClaimsAre(ss: seq<State>, steps: seq<Step>, n: nat, j: nat)
    requires Run(ss, steps, n) && j < |ss|
    ensures ss[j].claims == Enqueued(ss, steps, j)
    decreases j
  {
    if j > 0 {
      ClaimsAre(ss, steps, n, j - 1);
      assert ss[j - 1 + 1] == Apply(ss[j - 1], steps[j - 1]);
      if steps[j - 1].Cas? { ArgsKept(ss, steps, n, j - 1, steps[j - 1].e); }
    }
  }

  lemma {:induction false} TakenAre(ss: seq<State>, steps: seq<Step>, n: nat, j: nat)
    requires Run(ss, steps, n) && j < |ss|
    ensures Dequeued(ss, steps, j) == ss[j].taken + if ss[j].deq.Got? then [ss[j].deq.ret] else []
    decreases j
  {
    if j > 0 {
      TakenAre(ss, steps, n, j - 1);
      assert ss[j - 1 + 1] == Apply(ss[j - 1], steps[j - 1]);
    }
  }

  // First in, first out: the items dequeued are the first of those enqueued, in
  // the order in which their slots were won, and what peekall returns is the
  // front of the rest.
  lemma Fifo(ss: seq<State>, steps: seq<Step>, n: nat, i: nat)
    requires RoomRun(ss, steps, n) && i < |ss|
    ensures Dequeued(ss, steps, i) <= Enqueued(ss, steps, i)
    ensures ss[i].deq.Peeked? ==> Dequeued(ss, steps, i) + ss[i].deq.ps <= Enqueued(ss, steps, i)
  {
    RunInv(ss, steps, n, i);
    ClaimsAre(ss, steps, n, i);
    TakenAre(ss, steps, n, i);
  }

  // A dequeue returns what it loaded, which is never null.
  lemma {:induction false} Returned(ss: seq<State>, steps: seq<Step>, n: nat, i: nat)
    requires RoomRun(ss, steps, n) && i < |ss| && ss[i].deq.Got?
    ensures Dequeued(ss, steps, i) != [] && ss[i].deq.ret == Dequeued(ss, steps, i)[|Dequeued(ss, steps, i)| - 1] != 0
  {
    RunInv(ss, steps, n, i);
    TakenAre(ss, steps, n, i);
  }

  // No store overwrites an item and no slot has two claimers, anywhere in a
  // run, exactly if each compare-and-swap that succeeds takes a free slot.
  lemma NoOverwrite(ss: seq<State>, steps: seq<Step>, n: nat)
    requires Run(ss, steps, n)
    ensures (forall i :: 0 <= i < |ss| ==> Sound(ss[i])) <==> RoomRun(ss, steps, n)
  {
    if RoomRun(ss, steps, n) {
      forall i | 0 <= i < |ss| ensures Sound(ss[i]) {
        RunInv(ss, steps, n, i);
        InvSound(ss[i]);
      }
    } else {
      var i :| 0 <= i < |steps| && !Room(ss[i], steps[i]);
      assert ss[i + 1] == Apply(ss[i], steps[i]);
      CasUnsound(ss[i], steps[i].e);
    }
  }

  // Another thread peeks: it loads the tail in one state and the slot there in
  // a later one.  If the tail has not moved in between, it sees the first item,
  // or nothing exactly if that is not stored yet.
  lemma PeekElsewhere(ss: seq<State>, steps: seq<Step>, n: nat, i: nat, j: nat)
    requires RoomRun(ss, steps, n) && i <= j < |ss| && |ss[j].taken| == |ss[i].taken|
    requires 2 <= n || !ss[j].deq.Bumped?
    ensures ss[i].tail < |ss[j].buf|
    ensures var v, t := ss[j].buf[ss[i].tail], |ss[i].taken|;
      if t < |ss[j].claims| && !Pending(ss[j].enqs, t) then v == ss[j].claims[t] != 0 else v == 0
  {
    RunInv(ss, steps, n, i);
    RunInv(ss, steps, n, j);
    var s, t := ss[j], |ss[j].taken|;
    if t == |s.claims| && s.buf[s.tail] != 0 {
      var h :| s.cleared <= h < |s.claims| && h % n == t % n;
      ModNear(h, t, n);
    }
  }

  // ---- runs without a lap ----

  // No full lap of the head while an enqueue is between two of its steps.
  predicate NoLap(s: State, step: Step)
    requires Shape(s) && Enabled(s, step)
  {
    && (step.LoadSlot? ==> forall e :: e in s.enqs && s.enqs[e].Claimed? ==> |s.claims| - s.enqs[e].h < Cap(s))
    && (step.Cas? ==> |s.claims| - s.enqs[step.e].h0 < Cap(s))
  }

  ghost predicate LaplessRun(ss: seq<State>, steps: seq<Step>, n: nat) {
    Run(ss, steps, n) && forall i {:trigger steps[i]} :: 0 <= i < |steps| ==> NoLap(ss[i], steps[i])
  }

  // Whoever saw an empty slot under a head that has not moved has room.
  ghost predicate SawRoom(s: State) {
    forall e :: e in s.enqs && s.enqs[e].Empty? && s.enqs[e].h0 == |s.claims| ==> |s.claims| - s.cleared < Cap(s)
  }

  // An empty slot under the head means there is room.
  lemma RoomIfEmpty(s: State, x: Enq)
    requires Inv(s) && x.Head? && EnqInv(Cap(s), s.claims, s.cleared, x) && x.icur < Cap(s) && s.buf[x.icur] == 0
    requires forall e :: e in s.enqs && s.enqs[e].Claimed? ==> |s.claims| - s.enqs[e].h < Cap(s)
    ensures x.h0 == |s.claims| ==> |s.claims| - s.cleared < Cap(s)
  {
    ModLap(s.cleared, Cap(s));
    forall e | e in s.enqs && s.enqs[e].Claimed? ensures Pending(s.enqs, s.enqs[e].h) {}
    if s.cleared < |s.claims| { assert s.buf[s.cleared % Cap(s)] == 0 ==> Pending(s.enqs, s.cleared); }
  }

  lemma LaplessRoom(s: State, step: Step)
    requires Inv(s) && SawRoom(s) && Enabled(s, step) && NoLap(s, step)
    ensures Room(s, step)
  {
    if step.Cas? && s.head == s.enqs[step.e].icur {
      ModDistinct(s.enqs[step.e].h0, |s.claims|, Cap(s));
      FreeIfRoom(s);
    }
  }

  lemma LaplessSaw(s: State, step: Step)
    requires Inv(s) && SawRoom(s) && Enabled(s, step) && NoLap(s, step)
    ensures SawRoom(Apply(s, step))
  {
    if step.LoadSlot? && s.buf[s.enqs[step.e].icur] == 0 { RoomIfEmpty(s, s.enqs[step.e]); }
  }

  lemma {:induction false} LaplessInv(ss: seq<State>, steps: seq<Step>, n: nat, i: nat)
    requires LaplessRun(ss, steps, n) && i < |ss|
    ensures Inv(ss[i]) && SawRoom(ss[i]) && Cap(ss[i]) == n
    decreases i
  {
    if i > 0 {
      LaplessInv(ss, steps, n, i - 1);
      assert ss[i - 1 + 1] == Apply(ss[i - 1], steps[i - 1]);
      LaplessRoom(ss[i - 1], steps[i - 1]);
      LaplessSaw(ss[i - 1], steps[i - 1]);
      StepKeeps(ss[i - 1], steps[i - 1]);
    }
  }

  // Without a lap there is always room.
  lemma LaplessIsSafe(ss: seq<State>, steps: seq<Step>, n: nat)
    requires LaplessRun(ss, steps, n)
    ensures RoomRun(ss, steps, n)
  {
    forall i | 0 <= i < |steps| ensures Room(ss[i], steps[i]) {
      LaplessInv(ss, steps, n, i);
      LaplessRoom(ss[i], steps[i]);
    }
  }

  // ---- a single enqueuer ----

  // All enqueues come from thread e.
  ghost predicate OneEnqueuer(steps: seq<Step>, e: int) {
    forall i :: 0 <= i < |steps| && steps[i].BeginEnq? ==> steps[i].e == e
  }

  ghost predicate Alone(s: State, e: int) {
    && (forall f :: f in s.enqs ==> f == e)
    && (e in s.enqs && (s.enqs[e].Head? || s.enqs[e].Empty?) ==> s.enqs[e].h0 == |s.claims|)
  }

  lemma {:induction false} AloneRun(ss: seq<State>, steps: seq<Step>, n: nat, e: int, i: nat)
    requires Run(ss, steps, n) && OneEnqueuer(steps, e) && i < |ss|
    ensures Alone(ss[i], e) && Cap(ss[i]) == n
    decreases i
  {
    if i > 0 {
      AloneRun(ss, steps, n, e, i - 1);
      assert ss[i - 1 + 1] == Apply(ss[i - 1], steps[i - 1]);
    }
  }

  // With one enqueuer nothing can lap, so every run is safe.
  lemma SingleEnqueuer(ss: seq<State>, steps: seq<Step>, n: nat, e: int)
    requires Run(ss, steps, n) && OneEnqueuer(steps, e)
    ensures RoomRun(ss, steps, n)
  {
    forall i | 0 <= i < |steps| ensures NoLap(ss[i], steps[i]) { AloneRun(ss, steps, n, e, i); }
    LaplessIsSafe(ss, steps, n);
  }

  // ---- two enqueuers and a full lap ----

  ghost predicate EndsIn(ss: seq<State>, steps: seq<Step>, n: nat, s: State) { Run(ss, steps, n) && ss[|ss| - 1] == s }

  ghost predicate Reached(s: State, n: nat) { exists ss, steps :: EndsIn(ss, steps, n, s) }

  lemma Go(s: State, n: nat, step: Step)
    requires Reached(s, n) && Shape(s) && Enabled(s, step)
    ensures Reached(Apply(s, step), n)
  {
    var ss, steps :| EndsIn(ss, steps, n, s);
    var ss', steps' := ss + [Apply(s, step)], steps + [step];
    assert ss'[0] == ss[0];
    forall i | 0 <= i < |steps'|
      ensures Shape(ss'[i]) && Enabled(ss'[i], steps'[i]) && ss'[i + 1] == Apply(ss'[i], steps'[i])
    {
      if i < |steps| { assert steps'[i] == steps[i] && ss'[i] == ss[i] && ss'[i + 1] == ss[i + 1]; }
    }
    assert EndsIn(ss', steps', n, Apply(s, step));
  }

  // Thread e claims the slot under the head for p.
  lemma Claims(s: State, n: nat, e: int, p: int) returns (s': State)
    requires Reached(s, n) && Shape(s) && e !in s.enqs && p != 0 && s.buf[s.head] == 0
    ensures Reached(s', n) && Shape(s')
    ensures s' == s.(enqs := s.enqs[e := Claimed(p, s.head, |s.claims|)], head := Next(s, s.head),
      claims := s.claims + [p])
  {
    Go(s, n, BeginEnq(e, p));
    s' := Apply(s, BeginEnq(e, p));
    Go(s', n, LoadHead(e));
    s' := Apply(s', LoadHead(e));
    Go(s', n, LoadSlot(e));
    s' := Apply(s', LoadSlot(e));
    Go(s', n, Cas(e));
    s' := Apply(s', Cas(e));
    assert s'.enqs == s.enqs[e := Claimed(p, s.head, |s.claims|)];
  }

  // While thread 1 has claimed a slot and not stored it, thread 2 goes once
  // around a buffer of two and claims the same slot.
  lemma SlotClaimedTwice() returns (s: State)
    ensures Reached(s, 2) && Shape(s) && 1 in s.enqs && 2 in s.enqs
    ensures s.enqs[1].Claimed? && s.enqs[2].Claimed? && s.enqs[1].i == s.enqs[2].i
  {
    s := Initial(2);
    assert EndsIn([s], [], 2, s);
    s := Claims(s, 2, 1, 7);
    s := Claims(s, 2, 2, 8);
    Go(s, 2, StoreSlot(2));
    s := Apply(s, StoreSlot(2));
    s := Claims(s, 2, 2, 9);
  }
}
