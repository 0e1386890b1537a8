/** The order in which the queue is run, over every run of the two sides (lib/planner/planner.cpp). */
module QueueOrder {
  import opened Trapezoids
  import opened Kinematics
  import opened Paths
  import opened LookAhead
  import opened PlanStates
  import opened ExecStates
  import opened ExecSafety
  import opened Systems
  import opened MotionTheorems

  // ─── A push ahead of the oldest ────────────────────────────────────────────

  /** What a push asks for: a kind, a tag, and the path from where it is entered. */
  datatype Ask = Ask(kind: Kind, tag: int, path: Path, s0: real)

  /** The block an item becomes, if any of it is left to run. */
  function Asks(item: Item): seq<Ask> {
    match item
    case LineItem(tag, path, _) => [Ask(Line, tag, path, 0.0)]
    case CurveItem(tag, path, from, dir, _) =>
      if from <= 0.0 then [Ask(Curve, tag, path, 0.0)]
      else if from >= path.length then []
      else [Ask(Curve, tag, path.(length := path.length - from, dirStart := dir), from)]
    case EventItem(tag) => [Ask(Event, tag, EVENT_PATH, 0.0)]
  }

  function AsksOf(items: seq<Item>): (r: seq<Ask>)
    ensures |r| <= |items|
  {
    if items == [] then [] else Asks(items[0]) + AsksOf(items[1..])
  }

  /** The block is what was asked for. */
  predicate Meets(b: Block, a: Ask) { b.kind == a.kind && b.tag == a.tag && b.path == a.path && b.s0 == a.s0 }

  predicate AllMeet(q: seq<Block>, asks: seq<Ask>) {
    |q| == |asks| && forall i :: 0 <= i < |q| ==> Meets(q[i], asks[i])
  }

  lemma PushMeets(sq: real -> real, p: PlanState, item: Item)
    requires ItemOk(item) && |p.q| < RING_SIZE
    ensures var r := PushItem(sq, p, item); p.q <= r.q && AllMeet(r.q[|p.q|..], Asks(item))
  {
    hide JunctionMaxSqr, ProfileOf;
  }

  lemma {:induction false} PushAllMeets(sq: real -> real, p: PlanState, items: seq<Item>)
    requires |p.q| + |items| <= RING_SIZE && forall i :: 0 <= i < |items| ==> ItemOk(items[i])
    ensures var r := PushAll(sq, p, items); p.q <= r.q && AllMeet(r.q[|p.q|..], AsksOf(items))
    decreases |items|
  {
    hide PushItem, Asks, Meets;
    if items != [] {
      var p1 := PushItem(sq, p, items[0]);
      PushMeets(sq, p, items[0]);
      AsksOne(items[0]);
      PushAllMeets(sq, p1, items[1..]);
      var r := PushAll(sq, p, items);
      assert r.q[|p.q|..] == p1.q[|p.q|..] + r.q[|p1.q|..];
    }
  }

  lemma AsksOne(item: Item)
    ensures |Asks(item)| <= 1
  {
  }

  /** Pushed between beginFront() and endFront(), the items that leave anything to run go before the oldest block, in the
      order they were pushed, the old queue unchanged behind them; the first is entered from rest. */
  lemma FrontGoesFirst(sq: real -> real, y: System, items: seq<Item>)
    requires Enabled(y, Front(items)) && Shape(y.m)
    ensures var q, r, n := y.m.p.q, Perform(sq, y, Front(items)).m.p.q, |AsksOf(items)|;
      && |r| == n + |q| && r[n..] == q
      && AllMeet(r[..n], AsksOf(items))
      && (n > 0 ==> r[0].maxEntry == 0.0)
  {
    hide PushAll, Asks, EndFront, Meets;
    PushAllMeets(sq, y.m.p, items);
    FrontMoves(PushAll(sq, y.m.p, items), y.m.p.q, AsksOf(items));
  }

  lemma FrontMoves(p: PlanState, q: seq<Block>, asks: seq<Ask>)
    requires q <= p.q && AllMeet(p.q[|q|..], asks)
    ensures var r, n := EndFront(p, |q|).q, |asks|;
      |r| == n + |q| && r[n..] == q && AllMeet(r[..n], asks) && (n > 0 ==> r[0].maxEntry == 0.0)
  {
    hide Meets;
    var r, n, mark := EndFront(p, |q|).q, |asks|, |q|;
    assert p.q[..mark] == q;
    if n > 0 {
      assert r[n..] == p.q[..mark];
      forall i | 0 <= i < n
        ensures Meets(r[i], asks[i])
      {
        assert p.q[mark..][i] == p.q[mark + i];
        if i == 0 { CapNotAsked(p.q[mark], asks[0]); }
      }
    }
  }

  lemma CapNotAsked(b: Block, a: Ask)
    requires Meets(b, a)
    ensures Meets(b.(maxEntry := 0.0), a)
  {
  }

  // ─── Handing out ───────────────────────────────────────────────────────────

  /** The oldest block is handed out once, as it was planned from its start; given back once, it and its offers are gone; and
      a staged piece is taken once, the offer standing. */
  lemma HandsOutOnce(p: PlanState)
    requires p.claimed ==> p.q != []
    ensures Claim(Claim(p)) == Claim(p) && Claim(p).q == p.q
    ensures !p.claimed && p.q != [] ==>
      var c := Claim(p);
      && c.claimed && c.run == Piece(0.0, 0.0, p.q[0].profile) && c.pinned == p.q[0].exitSqr && c.offer.None? && c.staged.None?
      && Release(c).q == p.q[1..] && !Release(c).claimed
    ensures !p.claimed ==> Release(p) == p
    ensures Release(Release(p)) == Release(p) && (p.claimed ==> Release(p).offer.None? && Release(p).staged.None?)
    ensures TakeStaged(TakeStaged(p)) == TakeStaged(p) == p.(staged := None)
  {
  }

  // ─── First in, first out ───────────────────────────────────────────────────

  /** What a block keeps from push to release: its kind, its tag and where along its path it ends. */
  datatype Name = Name(kind: Kind, tag: int, end: real)

  function NameOf(b: Block): Name { Name(b.kind, b.tag, b.s0 + b.path.length) }

  function Names(q: seq<Block>): (r: seq<Name>)
    ensures |r| == |q| && forall i :: 0 <= i < |q| ==> r[i] == NameOf(q[i])
  {
    seq(|q|, i requires 0 <= i < |q| => NameOf(q[i]))
  }

  /** What is queued is the old queue and what was added behind it, less the k oldest. */
  predicate Follows(q: seq<Block>, added: seq<Name>, k: nat, r: seq<Block>) {
    k <= |q| + |added| && Names(r) == (Names(q) + added)[k..]
  }

  lemma {:induction false} TickDrops(sq: real -> real, m: Machine, dt: real)
    requires Shape(m)
    ensures var q := Advance(sq, m, dt).p.q; |q| <= |m.p.q| && q == m.p.q[|m.p.q| - |q|..]
    decreases |m.p.q|, Pending(m), if dt > 0.0 then 1 else 0
  {
    hide TurnOnce;
    if dt > 0.0 && !m.e.mode.Held? {
      var turn := TurnOnce(sq, m, dt);
      TurnShrinks(sq, m, dt);
      TurnDrops(sq, m, dt);
      if turn.again { TickDrops(sq, turn.m, turn.left); }
    }
  }

  lemma TurnDrops(sq: real -> real, m: Machine, dt: real)
    requires Shape(m)
    ensures var q := TurnOnce(sq, m, dt).m.p.q; q == m.p.q || (m.p.q != [] && q == m.p.q[1..])
  {
    hide StopDistance, StopTime, EndSpeed, EndTime, Speed, Travel, Piece.At, Piece.SpeedAt, Piece.End;
  }

  lemma SuffixFollows(q: seq<Block>, k: nat)
    requires k <= |q|
    ensures Follows(q, [], k, q[k..])
  {
    assert Names(q) + [] == Names(q);
    assert Names(q)[k..] == Names(q[k..]);
  }

  lemma SameFollows(q: seq<Block>, r: seq<Block>)
    requires |q| == |r| && forall i :: 0 <= i < |q| ==> NameOf(q[i]) == NameOf(r[i])
    ensures Follows(q, [], 0, r)
  {
    assert Names(q) == Names(r);
  }

  lemma CommitOrder(sq: real -> real, p: PlanState, dirty: bool, t: real)
    requires IsSqrt(sq) && PlanInv(sq, p, dirty)
    ensures Follows(p.q, [], 0, Commit(p, t).q)
  {
    hide Planned, ReverseEntry, ProfileOf, Chain, Sqr, RouteOk, Profiled, PieceOn, BlockOk, PlanInv, Names, RaiseOk;
    InvQueue(sq, p, dirty);
    if Accepts(p, t) {
      var Ready(raise, blocks) := p.plan.value;
      PlanParts(sq, p, dirty);
      PlannedChain(sq, p.Unclaimed(), if raise.Some? then raise.value.exitSqr else p.pinned);
      var r := Commit(p, t).q;
      forall i | 0 <= i < |p.q|
        ensures NameOf(p.q[i]) == NameOf(r[i])
      {
        if p.claimed && i > 0 { assert p.q[i] == p.Unclaimed()[i - 1] && r[i] == blocks[i - 1]; }
      }
      SameFollows(p.q, r);
    } else {
      SameFollows(p.q, p.q);
    }
  }

  lemma InvQueue(sq: real -> real, p: PlanState, dirty: bool)
    requires PlanInv(sq, p, dirty)
    ensures p.claimed ==> p.q != []
  {
    hide RouteOk, Chain, Profiled, PlanOk, PieceOn;
  }

  lemma RestartOrder(sq: real -> real, p: PlanState, dirty: bool, s: real) returns (k: nat)
    requires PlanInv(sq, p, dirty) && s >= 0.0
    ensures Follows(p.q, [], k, Restart(sq, p, s).q)
  {
    hide PlanInv, Restart, Names, NameOf;
    AccelOk(sq, p, dirty);
    RestartKeepsEnds(sq, p, dirty, s);
    var r := Restart(sq, p, s).q;
    k := |p.q| - |r|;
    forall i | 0 <= i < |r|
      ensures NameOf(p.q[k..][i]) == NameOf(r[i])
    {
      EndsName(p.q[k + i], r[i]);
    }
    SameFollows(p.q[k..], r);
    SuffixFollows(p.q, k);
    Joined(p.q, p.q[k..], r, [], [], k, 0);
  }

  lemma EndsName(b: Block, c: Block)
    requires b.kind == c.kind && b.tag == c.tag && b.s0 + b.path.length == c.s0 + c.path.length
    ensures NameOf(b) == NameOf(c)
  {
  }

  /** One step and then another. */
  lemma Joined(q: seq<Block>, r: seq<Block>, s: seq<Block>, a: seq<Name>, b: seq<Name>, k: nat, j: nat)
    requires Follows(q, a, k, r) && Follows(r, b, j, s)
    ensures Follows(q, a + b, k + j, s)
  {
    hide Names;
    var x := Names(q) + a;
    assert Names(q) + (a + b) == x + b;
    assert (x[k..] + b)[j..] == (x + b)[k + j..];
  }

  lemma PushOrder(sq: real -> real, p: PlanState, item: Item) returns (added: seq<Name>)
    requires ItemOk(item) && |p.q| <= RING_SIZE
    ensures Follows(p.q, added, 0, PushItem(sq, p, item).q)
  {
    hide Names, Asks, Meets, NameOf;
    var r := PushItem(sq, p, item).q;
    if p.Full() {
      FullPush(sq, p, item);
      added := [];
      SameFollows(p.q, p.q);
    } else {
      PushMeets(sq, p, item);
      added := Names(r[|p.q|..]);
      assert Names(p.q) + added == Names(r);
    }
  }

  lemma QueueFits(sq: real -> real, p: PlanState, dirty: bool)
    requires PlanInv(sq, p, dirty)
    ensures |p.q| <= RING_SIZE
  {
    hide RouteOk, Chain, Profiled, PlanOk, ClaimOk;
  }

  lemma FullPush(sq: real -> real, p: PlanState, item: Item)
    requires ItemOk(item) && p.Full()
    ensures PushItem(sq, p, item) == p
  {
  }

  lemma TickOrder(sq: real -> real, m: Machine, dt: real) returns (k: nat)
    requires Shape(m)
    ensures Follows(m.p.q, [], k, Tick(sq, m, dt).p.q)
  {
    hide Advance, Names;
    var r := Advance(sq, m, dt);
    TickDrops(sq, m, dt);
    k := |m.p.q| - |Settle(r).p.q|;
    SuffixFollows(m.p.q, k);
  }

  /** Any step but a push to the front leaves the order alone: blocks go from the front, and come in at the back. */
  lemma PerformOrder(sq: real -> real, y: System, a: Action) returns (k: nat, added: seq<Name>)
    requires IsSqrt(sq) && SystemInv(sq, y) && Shape(y.m) && Enabled(y, a) && !a.Front?
    ensures Follows(y.m.p.q, added, k, Perform(sq, y, a).m.p.q)
    ensures !a.Push? ==> added == []
  {
    hide PlanInv, ExecInv, Advance, Replan, Commit, Restart, PushItem, Names, Follows, Tick, NeedsRing, ItemOk;
    k, added := 0, [];
    match a
    case Push(item) => PushedItemOk(y, a); QueueFits(sq, y.m.p, y.dirty); added := PushOrder(sq, y.m.p, item);
    case DoReplan(t) => ReplanQueue(sq, y.m.p, t); SameFollows(y.m.p.q, y.m.p.q);
    case DoCommit(t) => CommitOrder(sq, y.m.p, y.dirty, t);
    case DoTick(dt) => k := TickOrder(sq, y.m, dt);
    case DoRelease => k := ReleaseOrder(sq, y);
    case DoResume => k := ResumeOrder(sq, y);
    case DoReset => k := |y.m.p.q|; SuffixFollows(y.m.p.q, k); assert y.m.p.q[k..] == [];
    case _ => SameFollows(y.m.p.q, y.m.p.q);
  }

  lemma ReleaseOrder(sq: real -> real, y: System) returns (k: nat)
    requires SystemInv(sq, y) && Shape(y.m)
    ensures Follows(y.m.p.q, [], k, ReleaseExec(sq, y.m).p.q)
  {
    hide PlanInv, Restart, Names, Follows, OnPiece, CanBrake;
    if y.m.e.mode.Held? {
      k := RestartOrder(sq, y.m.p, y.dirty, if y.m.e.cur then y.m.e.s else 0.0);
    } else {
      k := 0;
      SameFollows(y.m.p.q, y.m.p.q);
    }
  }

  lemma ResumeOrder(sq: real -> real, y: System) returns (k: nat)
    requires IsSqrt(sq) && SystemInv(sq, y) && Shape(y.m)
    ensures Follows(y.m.p.q, [], k, Resume(sq, y.m).p.q)
  {
    hide PlanInv, ExecInv, Restart, Names, Follows, Replan, Commit, ReleaseExec;
    k := ReleaseOrder(sq, y);
    if y.m.e.mode.Held? {
      ReleaseKeepsAll(sq, y);
      ShapeMeans(y.m);
      HasShape(Perform(sq, y, DoRelease).m);
      ShapeMeans(Perform(sq, y, DoRelease).m);
      var p := ReleaseExec(sq, y.m).p;
      ReplanQueue(sq, p, 0.0);
      ReplanKeeps(sq, p, true, 0.0);
      CommitOrder(sq, Replan(sq, p, 0.0), true, 0.0);
      Joined(y.m.p.q, p.q, Resume(sq, y.m).p.q, [], [], k, 0);
      var none: seq<Name> := [];
      assert none + none == none;
    } else {
      NotHeld(sq, y.m);
    }
  }

  lemma NotHeld(sq: real -> real, m: Machine)
    requires Shape(m) && !m.e.mode.Held?
    ensures Resume(sq, m) == m == ReleaseExec(sq, m)
  {
  }

  predicate NoFront(acts: seq<Action>) { forall i :: 0 <= i < |acts| ==> !acts[i].Front? }

  /** Over any run of the two sides without a push to the front the queue is first in, first out: what is left is the old
      queue and what was pushed since, in that order, less the oldest. So while any of what was pushed to the front is
      left, all that stood behind it is. */
  lemma {:induction false} FirstInFirstOut(sq: real -> real, y: System, acts: seq<Action>) returns (k: nat, added: seq<Name>)
    requires IsSqrt(sq) && SystemInv(sq, y) && Shape(y.m) && ValidRun(sq, y, acts) && NoFront(acts)
    ensures Follows(y.m.p.q, added, k, Final(sq, y, acts).m.p.q)
    decreases |acts|
  {
    hide SystemInv, Enabled, Perform, Shape, Names, Follows;
    if acts == [] {
      k, added := 0, [];
      SameFollows(y.m.p.q, y.m.p.q);
    } else {
      var z := Perform(sq, y, acts[0]);
      PerformKeeps(sq, y, acts[0]);
      var j, first := PerformOrder(sq, y, acts[0]);
      var i, rest := FirstInFirstOut(sq, z, acts[1..]);
      Joined(y.m.p.q, z.m.p.q, Final(sq, y, acts).m.p.q, first, rest, j, i);
      k, added := j + i, first + rest;
    }
  }

  function AskNames(asks: seq<Ask>): seq<Name> {
    seq(|asks|, i requires 0 <= i < |asks| => Name(asks[i].kind, asks[i].tag, asks[i].s0 + asks[i].path.length))
  }

  /** What is left of a, then b, then whatever was added: while any of a is left, all of b is. */
  ghost predicate RunsBefore(a: seq<Name>, b: seq<Name>, left: seq<Name>) {
    exists k: nat, added: seq<Name> :: LeftOf(a, b, added, k, left)
  }

  predicate LeftOf(a: seq<Name>, b: seq<Name>, added: seq<Name>, k: nat, left: seq<Name>) {
    k <= |a| + |b| + |added| && left == (a + b + added)[k..] && (k <= |a| ==> left == a[k..] + b + added)
  }

  /** So what is pushed to the front is run before the old queue: until the last of it has left, nothing behind it has. */
  lemma FrontRunsFirst(sq: real -> real, y: System, items: seq<Item>, acts: seq<Action>)
    requires IsSqrt(sq) && Reached(sq, y) && Enabled(y, Front(items)) && NoFront(acts)
    ensures Shape(y.m)
    ensures var z := Perform(sq, y, Front(items));
      Shape(z.m) && (ValidRun(sq, z, acts) ==> RunsBefore(AskNames(AsksOf(items)), Names(y.m.p.q), Names(Final(sq, z, acts).m.p.q)))
  {
    hide SystemInv, Perform, Enabled, Reached, ValidRun, Final, AsksOf, RunsBefore;
    ReachedSafe(sq, y);
    PerformKeeps(sq, y, Front(items));
    var z := Perform(sq, y, Front(items));
    if ValidRun(sq, z, acts) {
      FrontGoesFirst(sq, y, items);
      FrontNames(z.m.p.q, y.m.p.q, AsksOf(items));
      var k, added := FirstInFirstOut(sq, z, acts);
      Cut(AskNames(AsksOf(items)), Names(y.m.p.q), added, k, Names(Final(sq, z, acts).m.p.q));
    }
  }

  lemma FrontNames(r: seq<Block>, q: seq<Block>, asks: seq<Ask>)
    requires |asks| <= |r| && r[|asks|..] == q && AllMeet(r[..|asks|], asks)
    ensures Names(r) == AskNames(asks) + Names(q)
  {
    forall i | 0 <= i < |r|
      ensures Names(r)[i] == (AskNames(asks) + Names(q))[i]
    {
      if i < |asks| { assert r[..|asks|][i] == r[i]; } else { assert r[|asks|..][i - |asks|] == r[i]; }
    }
  }

  lemma Cut(a: seq<Name>, b: seq<Name>, added: seq<Name>, k: nat, left: seq<Name>)
    requires k <= |a| + |b| + |added| && left == (a + b + added)[k..]
    ensures RunsBefore(a, b, left)
  {
    if k <= |a| { assert (a + b + added)[k..] == a[k..] + b + added; }
    assert LeftOf(a, b, added, k, left);
  }
}
