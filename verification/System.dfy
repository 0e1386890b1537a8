/** The producer and the consumer together: every interleaving of planner and executor operations.
    The source's lock makes each operation one step, except that replan() reads without it (a torn
    replan is one whose epoch is already stale) and commit() may read the clock of before a tick
    that holds no lock and is still under way. */
module Systems {
  import opened Trapezoids
  import opened Kinematics
  import opened Paths
  import opened LookAhead
  import opened PlanStates
  import opened ExecStates
  import opened ExecSafety
  import opened RingLock

  /** `dirty`: restarted, and not yet replanned and committed. `adopted`: adopt() was called since the last
      tick. `prev`: the clock before the last tick, if that tick held no lock. */
  datatype System = System(m: Machine, dirty: bool, adopted: bool, prev: Option<real>)

  datatype Item = LineItem(tag: int, path: Path, deviation: real)
                | CurveItem(tag: int, path: Path, from: real, dir: Vec2, deviation: real)
                | EventItem(tag: int)

  datatype Action =
    | Push(item: Item)
    | Front(items: seq<Item>)
    | DoReplan(t: real)
    | TornReplan
    | DoCommit(t: real)
    | DoAdopt
    | DoTick(dt: real)
    | Hold
    | RanEvent
    | DoRelease
    | DoResume
    | DoAbort
    | DoReset

  predicate ItemOk(item: Item) {
    match item
    case LineItem(_, path, deviation) => PathOk(path) && deviation >= 0.0
    case CurveItem(_, path, _, _, deviation) => PathOk(path) && deviation >= 0.0
    case EventItem(_) => true
  }

  function PushItem(sq: real -> real, p: PlanState, item: Item): PlanState
    requires ItemOk(item)
  {
    match item
    case LineItem(tag, path, deviation) => PushLine(sq, p, tag, path, deviation).0
    case CurveItem(tag, path, from, dir, deviation) => PushCurve(sq, p, tag, path, from, dir, deviation).0
    case EventItem(tag) => PushEvent(sq, p, tag).0
  }

  function PushAll(sq: real -> real, p: PlanState, items: seq<Item>): (r: PlanState)
    requires forall i :: 0 <= i < |items| ==> ItemOk(items[i])
    ensures |r.q| >= |p.q|
    decreases |items|
  {
    if items == [] then p else PushAll(sq, PushItem(sq, p, items[0]), items[1..])
  }

  /** What each side may do next. */
  predicate Enabled(y: System, a: Action) {
    var p, e := y.m.p, y.m.e;
    match a
    case Push(item) => ItemOk(item)
    // Front pushes come between a restart and its replan, while nothing runs.
    case Front(items) => y.dirty && |p.q| + |items| <= RING_SIZE && forall i :: 0 <= i < |items| ==> ItemOk(items[i])
    // A clock read while an offer stands is one the executor has published since.
    case DoReplan(t) => t >= 0.0 && (p.offer.Some? ==> t <= e.t)
    case DoCommit(t) => t == e.clock || (!y.adopted && y.prev == Some(t))
    case DoTick(dt) => !y.dirty && y.adopted && 0.0 <= dt <= p.guard
    case _ => true
  }

  predicate SystemShape(y: System) { Shape(y.m) }

  function Perform(sq: real -> real, y: System, a: Action): System
    requires SystemShape(y) && Enabled(y, a)
  {
    var m := y.m;
    match a
    case Push(item) => y.(m := m.(p := PushItem(sq, m.p, item)))
    case Front(items) => y.(m := m.(p := EndFront(PushAll(sq, m.p, items), |m.p.q|)))
    case DoReplan(t) => y.(m := m.(p := Replan(sq, m.p, t)))
    case TornReplan => y.(m := m.(p := m.p.(plan := None)))
    case DoCommit(t) => y.(m := m.(p := Commit(m.p, t)), dirty := y.dirty && !Accepts(m.p, t))
    case DoAdopt => y.(m := Adopt(m), adopted := true)
    case DoTick(dt) =>
      y.(m := Tick(sq, m, dt), adopted := false, prev := if NeedsRing(sq, m, dt) then None else Some(m.e.clock))
    case Hold => y.(m := m.(e := HoldExec(m.e)))
    case RanEvent => y.(m := EventDone(m))
    case DoRelease => y.(m := ReleaseExec(sq, m), dirty := y.dirty || m.e.mode.Held?)
    case DoResume => y.(m := Resume(sq, m), dirty := if m.e.mode.Held? then false else y.dirty)
    case DoAbort => y.(m := Abort(m))
    case DoReset => y.(m := Machine(Reset(m.p), ExecReset(m.e)), dirty := false)
  }

  function Initial(ahead: real, guard: real, idle: Piece): System {
    System(Machine(PlanState([], false, 0.0, ahead, guard, idle, None, None, None),
                   ExecState(Running, false, false, idle, None, false, 0.0, 0.0, 0.0, 0.0, 0)),
           false, false, None)
  }

  // ─── The invariant of the two sides together ───────────────────────────────

  /** An offer not yet taken is more than a tick away when a tick may start, and never behind the executor. */
  predicate InTime(y: System) {
    var p, e := y.m.p, y.m.e;
    && (e.cur && e.mode.Running? && p.staged.Some? && y.adopted ==> e.t + p.guard < p.staged.value.t0)
    && (e.cur && e.mode.Running? && !y.adopted && y.prev.Some? ==> e.t <= y.prev.value + p.guard)
    && e.clock == if e.cur then e.t else 0.0
  }

  predicate SystemInv(sq: real -> real, y: System) {
    PlanInv(sq, y.m.p, y.dirty) && ExecInv(y.m) && InTime(y)
  }

  lemma StartsSafe(sq: real -> real, ahead: real, guard: real, idle: Piece)
    requires ahead >= 0.0 && guard >= 0.0
    ensures SystemInv(sq, Initial(ahead, guard, idle))
  {
    hide Reach;
  }

  /** The executor's side does not see what the producer changes behind the claimed block. */
  lemma ExecFrame(m: Machine, p: PlanState)
    requires ExecInv(m) && p.claimed == m.p.claimed && p.pinned == m.p.pinned && p.run == m.p.run
    requires p.offer == m.p.offer && p.staged == m.p.staged
    requires m.p.claimed ==> p.q != [] && p.q[0] == m.p.q[0]
    requires forall i :: 0 <= i < |p.q| ==> p.q[i].path.accel > 0.0
    requires PlannedLate(m.(p := p)) || p.plan.None?
    ensures ExecInv(m.(p := p))
  {
    hide PieceOn, TakesOver, Sqr, Reach, SameStart, CanBrake;
  }

  lemma AccelOk(sq: real -> real, p: PlanState, dirty: bool)
    requires PlanInv(sq, p, dirty)
    ensures forall i :: 0 <= i < |p.q| ==> p.q[i].path.accel > 0.0
  {
    hide Chain, Profiled, ClaimOk, PlanOk;
  }

  lemma PushItemKeeps(sq: real -> real, p: PlanState, dirty: bool, item: Item)
    requires IsSqrt(sq) && PlanInv(sq, p, dirty) && ItemOk(item)
    ensures var r := PushItem(sq, p, item);
      && PlanInv(sq, r, dirty) && p.q <= r.q && |r.q| <= |p.q| + 1
      && (r == p || (r.plan.None? && r == p.(q := r.q, plan := None)))
  {
    hide PlanInv, NewBlock;
    if !p.Full() {
      match item
      case LineItem(tag, path, deviation) => PushKeeps(sq, p, dirty, Line, tag, path, 0.0, deviation);
      case CurveItem(tag, path, from, dir, deviation) =>
        if from <= 0.0 {
          PushKeeps(sq, p, dirty, Curve, tag, path, 0.0, deviation);
        } else if from < path.length {
          PushKeeps(sq, p, dirty, Curve, tag, path.(length := path.length - from, dirStart := dir), from, deviation);
        }
      case EventItem(tag) => PushKeeps(sq, p, dirty, Event, tag, EVENT_PATH, 0.0, 0.0);
    }
  }

  lemma {:induction false} PushAllKeeps(sq: real -> real, p: PlanState, items: seq<Item>)
    requires IsSqrt(sq) && PlanInv(sq, p, true) && forall i :: 0 <= i < |items| ==> ItemOk(items[i])
    ensures var r := PushAll(sq, p, items);
      PlanInv(sq, r, true) && p.q <= r.q && r == p.(q := r.q, plan := r.plan) && |r.q| <= |p.q| + |items|
    decreases |items|
  {
    hide PlanInv, PushItem;
    if items != [] {
      PushItemKeeps(sq, p, true, items[0]);
      PushAllKeeps(sq, PushItem(sq, p, items[0]), items[1..]);
    }
  }

  /** A commit that raises the running block's exit leaves the executor's motion as it is up to the switch. */
  lemma CommitKeepsExec(sq: real -> real, m: Machine, dirty: bool, t: real)
    requires IsSqrt(sq) && PlanInv(sq, m.p, dirty) && ExecInv(m) && Accepts(m.p, t)
    requires PlanInv(sq, Commit(m.p, t), false)
    requires m.e.cur && m.e.mode.Running? && m.p.plan.value.raise.Some? ==> m.e.t < m.p.plan.value.raise.value.piece.t0
    ensures ExecInv(m.(p := Commit(m.p, t)))
  {
    hide Chain, Profiled, Sqr, Reach, Planned, ReverseEntry, Trapezoid.Position, Trapezoid.Velocity, Sound, ProfileOf;
    AccelOk(sq, Commit(m.p, t), false);
    var raise := m.p.plan.value.raise;
    if raise.None? {
      ExecFrame(m, Commit(m.p, t));
    } else {
      RaiseKeepsExec(sq, m, dirty, t);
    }
  }

  lemma RaiseKeepsExec(sq: real -> real, m: Machine, dirty: bool, t: real)
    requires PlanInv(sq, m.p, dirty) && ExecInv(m) && Accepts(m.p, t) && m.p.plan.value.raise.Some?
    requires forall i :: 0 <= i < |Commit(m.p, t).q| ==> Commit(m.p, t).q[i].path.accel > 0.0
    requires m.e.cur && m.e.mode.Running? ==> m.e.t < m.p.plan.value.raise.value.piece.t0
    ensures ExecInv(m.(p := Commit(m.p, t)))
  {
    hide Chain, Profiled, Sqr, Reach, Planned, ReverseEntry, Trapezoid.Position, Trapezoid.Velocity, Sound, ProfileOf, RouteOk;
    var r := m.p.plan.value.raise.value;
    var b, c := m.p.q[0], Commit(m.p, t).q[0];
    RaisedBrake(b, c, m.e);
    PieceFrame(b, c, m.e.piece);
    PieceFrame(b, c, r.piece);
    if m.e.next.Some? { PieceFrame(b, c, m.e.next.value); }
  }

  lemma RaisedBrake(b: Block, c: Block, e: ExecState)
    requires CanBrake(b, e) && c.path == b.path && b.exitSqr <= c.exitSqr
    ensures CanBrake(c, e)
  {
    ReachGrowsSqr(b.exitSqr, c.exitSqr, b.path.accel, b.path.length - e.s);
    hide Reach, Sqr;
  }

  lemma ReplanKeepsExec(sq: real -> real, m: Machine, dirty: bool, t: real)
    requires IsSqrt(sq) && PlanInv(sq, m.p, dirty) && ExecInv(m) && t >= 0.0 && (m.p.offer.Some? ==> t <= m.e.t)
    ensures ExecInv(m.(p := Replan(sq, m.p, t)))
  {
    hide Chain, Profiled, Sqr, Reach, Planned, ReverseEntry, Sound, ProfileOf, RaiseAt, SameStart, TakesOver, OnPiece, RouteOk, CanBrake;
    AccelOk(sq, m.p, dirty);
    var h := HorizonAt(m.p, t);
    if h.At? && RaiseAt(sq, m.p, h).Some? { RaiseSound(sq, m.p, t); }
    ExecFrame(m, Replan(sq, m.p, t));
  }

  lemma ResetExec(m: Machine)
    requires ExecInv(m)
    ensures ExecInv(Machine(Reset(m.p), ExecReset(m.e)))
  {
    hide Sqr, Reach, OnPiece, CanBrake;
    SqrZero();
  }

  lemma ReleaseKeepsAll(sq: real -> real, y: System)
    requires SystemInv(sq, y) && y.m.e.mode.Held?
    ensures SystemInv(sq, Perform(sq, y, DoRelease))
  {
    hide Chain, Profiled, Sqr, Reach, Planned, ReverseEntry, Sound, ProfileOf, PieceOn, OnPiece, CanBrake, Trimmed, WithSpeeds, PlanInv;
    var s := if y.m.e.cur then y.m.e.s else 0.0;
    RestartKeeps(sq, y.m.p, y.dirty, s);
    AccelOk(sq, Restart(sq, y.m.p, s), true);
    SqrZero();
  }

  lemma HasShape(m: Machine)
    requires ExecInv(m)
    ensures Shape(m)
  {
    hide OnPiece, CanBrake, Sqr;
  }

  lemma ShapeMeans(m: Machine)
    requires Shape(m)
    ensures m.p.claimed ==> m.p.q != []
    ensures forall i :: 0 <= i < |m.p.q| ==> m.p.q[i].path.accel > 0.0
  {
  }

  lemma ResumeKeepsAll(sq: real -> real, y: System)
    requires IsSqrt(sq) && SystemInv(sq, y) && y.m.e.mode.Held?
    ensures SystemInv(sq, Perform(sq, y, DoResume))
  {
    hide PlanInv, ExecInv, Planned, Restart, EndFront, Shape;
    HasShape(y.m);
    ReleaseKeepsAll(sq, y);
    var z := Perform(sq, y, DoRelease);
    HasShape(z.m);
    ShapeMeans(z.m);
    ReplanKeeps(sq, z.m.p, true, 0.0);
    ReplanKeepsExec(sq, z.m, true, 0.0);
    var k := z.m.(p := Replan(sq, z.m.p, 0.0));
    ShapeMeans(y.m);
    Restarted(sq, y.m.p, if y.m.e.cur then y.m.e.s else 0.0);
    CommitKeeps(sq, k.p, true, 0.0);
    CommitKeepsExec(sq, k, true, 0.0);
  }

  lemma Restarted(sq: real -> real, p: PlanState, s: real)
    requires forall i :: 0 <= i < |p.q| ==> p.q[i].path.accel > 0.0
    ensures var r := Restart(sq, p, s); !r.claimed && r.staged.None? && r.offer.None?
  {
    hide Trimmed, WithSpeeds;
  }

  lemma AdoptKeepsAll(sq: real -> real, y: System)
    requires SystemInv(sq, y)
    ensures SystemInv(sq, Perform(sq, y, DoAdopt))
  {
    hide PlanInv, Sqr, Reach, PieceOn, TakesOver;
    TakeKeeps(sq, y.m.p, y.dirty);
    StagedIsOffer(sq, y.m.p, y.dirty);
  }

  lemma StagedIsOffer(sq: real -> real, p: PlanState, dirty: bool)
    requires PlanInv(sq, p, dirty)
    ensures p.staged.Some? ==> p.staged == p.offer && p.claimed && p.q != [] && !p.q[0].kind.Event?
  {
    hide PieceOn, Sqr, Chain, Profiled, RouteOk, PlanOk;
  }

  lemma CommitKeepsAll(sq: real -> real, y: System, t: real)
    requires IsSqrt(sq) && SystemInv(sq, y) && Enabled(y, DoCommit(t))
    ensures SystemInv(sq, Perform(sq, y, DoCommit(t)))
  {
    hide PlanInv, ExecInv;
    CommitKeeps(sq, y.m.p, y.dirty, t);
    if Accepts(y.m.p, t) {
      InTimeForCommit(sq, y, t);
      CommitKeepsExec(sq, y.m, y.dirty, t);
    } else {
      AccelOk(sq, y.m.p, y.dirty);
      FramePlan(y.m, None);
    }
  }

  lemma FramePlan(m: Machine, plan: Option<Plan>)
    requires ExecInv(m) && plan.None?
    ensures ExecInv(m.(p := m.p.(plan := plan)))
  {
    ExecFrame(m, m.p.(plan := plan));
  }

  lemma InTimeForCommit(sq: real -> real, y: System, t: real)
    requires SystemInv(sq, y) && Enabled(y, DoCommit(t)) && Accepts(y.m.p, t)
    ensures y.m.e.cur && y.m.e.mode.Running? && y.m.p.plan.value.raise.Some? ==>
      var t0 := y.m.p.plan.value.raise.value.piece.t0;
      y.m.e.t < t0 && (y.adopted ==> y.m.e.t + y.m.p.guard < t0)
  {
    hide Chain, Profiled, ClaimOk, PlanOk, RouteOk, OnPiece, CanBrake;
  }

  lemma TickBudget(sq: real -> real, y: System, dt: real)
    requires SystemInv(sq, y) && Enabled(y, DoTick(dt))
    ensures Good(sq, y.m) && Budget(y.m, dt)
  {
    hide PlanInv, OnPiece, CanBrake, Sqr;
  }

  lemma TickKeepsAll(sq: real -> real, y: System, dt: real)
    requires IsSqrt(sq) && SystemInv(sq, y) && Enabled(y, DoTick(dt))
    ensures SystemInv(sq, Perform(sq, y, DoTick(dt)))
  {
    hide PlanInv, ExecInv, Advance, Good, NeedsRing, Bounded;
    TickBudget(sq, y, dt);
    HasShape(y.m);
    TickRoute(sq, y);
    var a, vCap := SomeBound(y.m.p.q);
    AdvanceKeeps(sq, y.m, dt, a, vCap);
    var r := Advance(sq, y.m, dt);
    SettleKeeps(sq, r);
    if !NeedsRing(sq, y.m, dt) { NoRingNoChange(sq, y.m, dt); }
    GoodParts(sq, Settle(r));
  }

  lemma TickRoute(sq: real -> real, y: System)
    requires SystemInv(sq, y)
    ensures RouteOk(y.m.p.q)
  {
    hide ExecInv, Chain, Profiled, ClaimOk, PlanOk;
  }

  lemma GoodParts(sq: real -> real, m: Machine)
    ensures Good(sq, m) <==> PlanInv(sq, m.p, false) && ExecInv(m)
  {
    hide PlanInv, ExecInv;
  }

  lemma SettleKeeps(sq: real -> real, m: Machine)
    requires Good(sq, m)
    ensures Good(sq, Settle(m))
  {
    hide PlanInv, Sqr, Reach, PieceOn, TakesOver, SameStart;
    ResetKeeps(sq, m.p, false);
    SqrZero();
  }

  // ─── Whole runs ────────────────────────────────────────────────────────────

  lemma PushKeepsAll(sq: real -> real, y: System, item: Item)
    requires IsSqrt(sq) && SystemInv(sq, y) && ItemOk(item)
    ensures SystemInv(sq, Perform(sq, y, Push(item)))
  {
    hide PlanInv, ExecInv, PushItem, ItemOk;
    HasShape(y.m);
    PushItemKeeps(sq, y.m.p, y.dirty, item);
    AccelOk(sq, PushItem(sq, y.m.p, item), y.dirty);
    ShapeMeans(y.m);
    if PushItem(sq, y.m.p, item) != y.m.p { ExecFrame(y.m, PushItem(sq, y.m.p, item)); }
  }

  lemma FrontKeepsAll(sq: real -> real, y: System, items: seq<Item>)
    requires IsSqrt(sq) && SystemInv(sq, y) && Enabled(y, Front(items))
    ensures SystemInv(sq, Perform(sq, y, Front(items)))
  {
    hide PlanInv, ExecInv, PushAll, ItemOk, EndFront;
    HasShape(y.m);
    PushAllKeeps(sq, y.m.p, items);
    var p := PushAll(sq, y.m.p, items);
    EndFrontKeeps(sq, p, |y.m.p.q|);
    AccelOk(sq, EndFront(p, |y.m.p.q|), true);
    Unclaimed(sq, y);
    EndFrontRest(p, |y.m.p.q|);
    ExecFrame(y.m, EndFront(p, |y.m.p.q|));
  }

  lemma EndFrontRest(p: PlanState, mark: nat)
    requires mark <= |p.q|
    ensures EndFront(p, mark) == p.(q := EndFront(p, mark).q, plan := None)
  {
  }

  lemma Unclaimed(sq: real -> real, y: System)
    requires SystemInv(sq, y) && y.dirty
    ensures !y.m.p.claimed
  {
    hide ExecInv, Chain, Profiled, PlanOk, RouteOk;
  }

  lemma StillKeepsAll(sq: real -> real, y: System, a: Action)
    requires SystemInv(sq, y) && (a.TornReplan? || a.Hold? || a.RanEvent? || a.DoAbort? || a.DoReset?)
    ensures SystemInv(sq, Perform(sq, y, a))
  {
    hide PlanInv, ExecInv;
    HasShape(y.m);
    match a {
      case TornReplan =>
        DropPlan(sq, y.m.p, y.dirty);
        FramePlan(y.m, None);
      case DoReset =>
        ResetKeeps(sq, y.m.p, y.dirty);
        ResetExec(y.m);
      case RanEvent => EventDoneKeeps(y.m);
      case _ =>
        HoldKeepsExec(y.m, a.DoAbort?);
    }
  }

  lemma EventDoneKeeps(m: Machine)
    requires ExecInv(m)
    ensures ExecInv(EventDone(m))
  {
    hide Sqr, Reach, PieceOn, TakesOver, SameStart;
  }

  lemma HoldKeepsExec(m: Machine, abort: bool)
    requires ExecInv(m)
    ensures ExecInv(m.(e := HoldExec(if abort then m.e.(aborting := true) else m.e)))
  {
    hide Sqr, Reach, PieceOn, TakesOver, SameStart;
  }

  lemma DropPlan(sq: real -> real, p: PlanState, dirty: bool)
    requires PlanInv(sq, p, dirty)
    ensures PlanInv(sq, p.(plan := None), dirty)
  {
    hide Chain, Profiled, RouteOk, PieceOn, Sqr;
    assert p.(plan := None).Unclaimed() == p.Unclaimed();
  }

  lemma PerformKeeps(sq: real -> real, y: System, a: Action)
    requires IsSqrt(sq) && SystemInv(sq, y) && Shape(y.m) && Enabled(y, a)
    ensures SystemInv(sq, Perform(sq, y, a)) && Shape(Perform(sq, y, a).m)
  {
    hide SystemInv, Enabled, Tick, Replan, Commit, Adopt, ReleaseExec, Resume, PushItem, PushAll, EndFront, NeedsRing;
    match a {
      case Push(item) => PushedItemOk(y, a); PushKeepsAll(sq, y, item);
      case Front(items) => FrontKeepsAll(sq, y, items);
      case DoReplan(t) => ReplanKeepsAll(sq, y, t);
      case DoCommit(t) => CommitKeepsAll(sq, y, t);
      case DoAdopt => AdoptKeepsAll(sq, y);
      case DoTick(dt) => TickKeepsAll(sq, y, dt);
      case DoRelease => ReleaseOrNot(sq, y);
      case DoResume => ResumeOrNot(sq, y);
      case _ => StillKeepsAll(sq, y, a);
    }
    InvShape(sq, Perform(sq, y, a));
  }

  lemma PushedItemOk(y: System, a: Action)
    requires Enabled(y, a) && a.Push?
    ensures ItemOk(a.item)
  {
  }

  lemma InvShape(sq: real -> real, y: System)
    requires SystemInv(sq, y)
    ensures Shape(y.m)
  {
    hide PlanInv, ExecInv, Shape;
    HasShape(y.m);
  }

  lemma ReplanKeepsAll(sq: real -> real, y: System, t: real)
    requires IsSqrt(sq) && SystemInv(sq, y) && Enabled(y, DoReplan(t))
    ensures SystemInv(sq, Perform(sq, y, DoReplan(t)))
  {
    hide PlanInv, ExecInv, Planned, RaiseAt, HorizonAt;
    HasShape(y.m);
    ReplanKeeps(sq, y.m.p, y.dirty, t);
    ReplanKeepsExec(sq, y.m, y.dirty, t);
  }

  lemma ReleaseOrNot(sq: real -> real, y: System)
    requires SystemInv(sq, y)
    ensures SystemInv(sq, Perform(sq, y, DoRelease))
  {
    hide PlanInv, ExecInv, Restart;
    HasShape(y.m);
    if y.m.e.mode.Held? { ReleaseKeepsAll(sq, y); }
  }

  lemma ResumeOrNot(sq: real -> real, y: System)
    requires IsSqrt(sq) && SystemInv(sq, y)
    ensures SystemInv(sq, Perform(sq, y, DoResume))
  {
    hide PlanInv, ExecInv, ReleaseExec, Commit, Replan;
    HasShape(y.m);
    if y.m.e.mode.Held? { ResumeKeepsAll(sq, y); }
  }

  /** A run: each action is one its side may do then. */
  predicate ValidRun(sq: real -> real, y: System, acts: seq<Action>)
    requires Shape(y.m)
    decreases |acts|
  {
    acts == [] ||
    (Enabled(y, acts[0]) && var z := Perform(sq, y, acts[0]); Shape(z.m) && ValidRun(sq, z, acts[1..]))
  }

  function Final(sq: real -> real, y: System, acts: seq<Action>): System
    requires Shape(y.m) && ValidRun(sq, y, acts)
    decreases |acts|
  {
    if acts == [] then y else Final(sq, Perform(sq, y, acts[0]), acts[1..])
  }

  /** Every interleaving keeps the invariant. */
  lemma {:induction false} RunKeeps(sq: real -> real, y: System, acts: seq<Action>)
    requires IsSqrt(sq) && SystemInv(sq, y) && Shape(y.m) && ValidRun(sq, y, acts)
    ensures SystemInv(sq, Final(sq, y, acts))
    decreases |acts|
  {
    hide SystemInv, Enabled, Perform, Shape;
    if acts != [] {
      PerformKeeps(sq, y, acts[0]);
      RunKeeps(sq, Perform(sq, y, acts[0]), acts[1..]);
    }
  }
}
