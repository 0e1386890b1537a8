/** What planner.h and executor.h promise, for every run of the two sides. */
module MotionTheorems {
  import opened Arithmetic
  import opened Trapezoids
  import opened Kinematics
  import opened Paths
  import opened LookAhead
  import opened PlanStates
  import opened ExecStates
  import opened ExecSafety
  import opened RingLock
  import opened Systems
  import opened AdditiveTicks
  import opened Holds
  import opened HoldLag

  /** A state some run reaches from an empty ring. */
  ghost predicate Reached(sq: real -> real, y: System) {
    exists ahead: real, guard: real, idle: Piece, acts: seq<Action> ::
      ahead >= 0.0 && guard >= 0.0 && ValidRun(sq, Initial(ahead, guard, idle), acts)
      && y == Final(sq, Initial(ahead, guard, idle), acts)
  }

  lemma ReachedSafe(sq: real -> real, y: System)
    requires IsSqrt(sq) && Reached(sq, y)
    ensures SystemInv(sq, y) && Shape(y.m)
  {
    hide SystemInv, ValidRun, Final;
    var ahead: real, guard: real, idle: Piece, acts: seq<Action> :|
      ahead >= 0.0 && guard >= 0.0 && ValidRun(sq, Initial(ahead, guard, idle), acts)
      && y == Final(sq, Initial(ahead, guard, idle), acts);
    StartsSafe(sq, ahead, guard, idle);
    RunKeeps(sq, Initial(ahead, guard, idle), acts);
    InvShape(sq, y);
  }

  /** The executed speed never jumps and the path is never skipped or run twice: in any reachable state, over
      any tick, across pieces, junctions, events, holds and aborts. */
  lemma SpeedNeverJumps(sq: real -> real, y: System, dt: real, a: real, vCap: real)
    requires IsSqrt(sq) && Reached(sq, y)
    ensures Shape(y.m)
    ensures Enabled(y, DoTick(dt)) && Bounded(y.m.p.q, a, vCap) ==>
      var z := Perform(sq, y, DoTick(dt));
      && Abs(z.m.e.v - y.m.e.v) <= Prod(a, dt)
      && (!y.m.e.aborting ==> 0.0 <= Remaining(y.m) - Remaining(z.m) <= Prod(vCap, dt))
  {
    hide SystemInv, Reached, Bounded, Remaining, Advance, Good, NeedsRing, Prod;
    ReachedSafe(sq, y);
    if Enabled(y, DoTick(dt)) && Bounded(y.m.p.q, a, vCap) {
      TickBudget(sq, y, dt);
      AdvanceKeeps(sq, y.m, dt, a, vCap);
      var r := Advance(sq, y.m, dt);
      GoodShape(sq, r);
      AdvanceAborting(sq, y.m, dt);
      ClockRemaining(r, if r.e.cur then r.e.t else 0.0);
    }
  }

  lemma ClockRemaining(m: Machine, c: real)
    ensures Remaining(m.(e := m.e.(clock := c))) == Remaining(m)
  {
  }

  lemma {:induction false} AdvanceAborting(sq: real -> real, m: Machine, dt: real)
    requires Shape(m)
    ensures Advance(sq, m, dt).e.aborting == m.e.aborting
    decreases |m.p.q|, Pending(m), if dt > 0.0 then 1 else 0
  {
    hide TurnOnce;
    if dt > 0.0 && !m.e.mode.Held? {
      var turn := TurnOnce(sq, m, dt);
      TurnShrinks(sq, m, dt);
      TurnAborting(sq, m, dt);
      if turn.again { AdvanceAborting(sq, turn.m, turn.left); }
    }
  }

  lemma TurnAborting(sq: real -> real, m: Machine, dt: real)
    requires Shape(m)
    ensures TurnOnce(sq, m, dt).m.e.aborting == m.e.aborting
  {
    hide StopDistance, StopTime, EndSpeed, EndTime, Speed, Travel, Piece.At, Piece.SpeedAt, Piece.End;
  }

  // ─── Only ticks move the machine ───────────────────────────────────────────

  lemma {:induction false} SameLength(q: seq<Block>, r: seq<Block>)
    requires |q| == |r| && forall i :: 0 <= i < |q| ==> q[i].path == r[i].path
    ensures TotalLength(q) == TotalLength(r)
  {
    if q != [] { SameLength(q[1..], r[1..]); }
  }

  lemma RestartLength(sq: real -> real, p: PlanState, s: real)
    requires RouteOk(p.q) && (p.claimed ==> p.q != [] && 0.0 <= s <= p.q[0].path.length) && (!p.claimed ==> s == 0.0)
    ensures TotalLength(Restart(sq, p, s).q) == TotalLength(p.q) - s
  {
    hide ProfileOf;
    var t := Trimmed(p, s);
    if p.q != [] { RouteTail(p.q); }
    assert TotalLength(t) == TotalLength(p.q) - s;
    SameLength(t, Restart(sq, p, s).q);
  }

  lemma CommitLength(sq: real -> real, p: PlanState, dirty: bool, t: real)
    requires IsSqrt(sq) && PlanInv(sq, p, dirty)
    ensures TotalLength(Commit(p, t).q) == TotalLength(p.q) && Commit(p, t).claimed == p.claimed
  {
    if Accepts(p, t) {
      var Ready(raise, blocks) := p.plan.value;
      PinnedCanStop(sq, p, dirty);
      PlannedChain(sq, p.Unclaimed(), if raise.Some? then raise.value.exitSqr else p.pinned);
      hide Planned, ReverseEntry, ProfileOf, Chain, Profiled, PieceOn, TakesOver, SameStart, Sqr, BlockOk;
      SameLength(p.q, Commit(p, t).q);
    }
  }

  /** Between ticks nothing moves: every other action but a reset leaves the speed as it is, and all but
      pushes leave the path still to run exactly as long; a stop and restart loses and repeats none of it. */
  lemma OnlyTicksMove(sq: real -> real, y: System, a: Action)
    requires IsSqrt(sq) && Reached(sq, y) && !a.DoTick? && !a.DoReset?
    ensures Shape(y.m)
    ensures Enabled(y, a) ==>
      && Perform(sq, y, a).m.e.v == y.m.e.v
      && (!a.Push? && !a.Front? ==> Remaining(Perform(sq, y, a).m) == Remaining(y.m))
  {
    hide Reached, SystemInv, Perform, Enabled;
    ReachedSafe(sq, y);
    if Enabled(y, a) { StaysPut(sq, y, a); }
  }

  lemma StaysPut(sq: real -> real, y: System, a: Action)
    requires IsSqrt(sq) && SystemInv(sq, y) && Shape(y.m) && Enabled(y, a) && !a.DoTick? && !a.DoReset?
    ensures Perform(sq, y, a).m.e.v == y.m.e.v
    ensures !a.Push? && !a.Front? ==> Remaining(Perform(sq, y, a).m) == Remaining(y.m)
  {
    hide PlanInv, PushItem, PushAll, EndFront, Replan, Commit, Restart, TotalLength, OnPiece;
    match a {
      case DoCommit(t) => CommitLength(sq, y.m.p, y.dirty, t);
      case DoReplan(t) => ReplanQueue(sq, y.m.p, t);
      case DoRelease => if y.m.e.mode.Held? { ReleaseLength(sq, y); }
      case DoResume =>
        if y.m.e.mode.Held? {
          ReleaseLength(sq, y);
          ReleaseKeepsAll(sq, y);
          var p := ReleaseExec(sq, y.m).p;
          ReplanQueue(sq, p, 0.0);
          ReplanKeeps(sq, p, true, 0.0);
          CommitLength(sq, Replan(sq, p, 0.0), true, 0.0);
        }
      case _ =>
    }
  }

  lemma ReplanQueue(sq: real -> real, p: PlanState, t: real)
    requires p.claimed ==> p.q != []
    requires forall i :: 0 <= i < |p.q| ==> p.q[i].path.accel > 0.0
    ensures Replan(sq, p, t).q == p.q && Replan(sq, p, t).claimed == p.claimed
  {
    hide Planned, RaiseAt, HorizonAt;
  }

  lemma ReleaseLength(sq: real -> real, y: System)
    requires SystemInv(sq, y) && Shape(y.m) && y.m.e.mode.Held?
    ensures Remaining(ReleaseExec(sq, y.m)) == Remaining(y.m)
  {
    hide PlanInv, OnPiece, Sqr, Reach, Restart;
    TickRoute(sq, y);
    EventLengths(y.m.p.q);
    RestartLength(sq, y.m.p, if y.m.e.cur then y.m.e.s else 0.0);
  }

  lemma EventLengths(q: seq<Block>)
    requires RouteOk(q)
    ensures q != [] && q[0].kind.Event? ==> q[0].path.length == 0.0
  {
  }

  // ─── The header's invariants ───────────────────────────────────────────────

  /** Outside a restart, in every reachable state: each committed exit is the next entry, within its junction cap,
      the claimed block hands over at its committed exit, and the newest block exits at rest. */
  lemma CommittedChain(sq: real -> real, y: System)
    requires IsSqrt(sq) && Reached(sq, y) && !y.dirty
    ensures var q := y.m.p.q; var first := if y.m.p.claimed then 1 else 0;
      && first <= |q|
      && (forall i :: first <= i < |q| ==>
            && 0.0 <= q[i].entrySqr <= q[i].maxEntry
            && Feasible(q[i].path.length, q[i].path.accel, q[i].entrySqr, q[i].path.vMaxSqr, q[i].exitSqr)
            && q[i].exitSqr == EntryAfter(q, i))
      && (y.m.p.claimed ==> q[0].exitSqr == EntryAfter(q, 0))
      && (q != [] ==> q[|q| - 1].exitSqr == 0.0)
  {
    hide Reached, ExecInv, Profiled, PlanOk, PieceOn, RouteOk, Feasible, Sqr;
    ReachedSafe(sq, y);
    var p := y.m.p;
    ChainJoins(p.Unclaimed(), p.pinned);
    if p.claimed {
      var u := p.q[1..];
      assert forall i :: 1 <= i < |p.q| ==> p.q[i] == u[i - 1] && EntryAfter(p.q, i) == EntryAfter(u, i - 1);
    }
  }

  /** A standing offer is for the claimed block, not yet reached, and starts before what runs now would end:
      adopt() always finds it in time, and no piece is ever found late. */
  lemma OffersInTime(sq: real -> real, y: System)
    requires IsSqrt(sq) && Reached(sq, y)
    ensures y.m.e.late == 0
    ensures y.m.p.staged.Some? ==> y.m.p.claimed && y.m.p.staged == y.m.p.offer
    ensures y.m.p.staged.Some? && y.m.e.mode.Running? ==>
      var x := y.m.p.staged.value;
      && y.m.e.t < x.t0 < y.m.e.piece.End()
      && x.s0 == y.m.e.piece.At(x.t0) && x.profile.vEntry == y.m.e.piece.SpeedAt(x.t0)
      && Adopt(y.m).e.next == Some(x)
  {
    hide Reached, PlanInv, PieceOn, CanBrake, Sqr, Reach;
    ReachedSafe(sq, y);
    StagedIsOffer(sq, y.m.p, y.dirty);
  }

  /** Even the planner at its worst: the entry pinned by the claimed block can always still be stopped from. */
  lemma PinnedNeverTooFast(sq: real -> real, y: System)
    requires IsSqrt(sq) && Reached(sq, y)
    ensures 0.0 <= y.m.p.pinned <= ReverseEntry(y.m.p.Unclaimed())
  {
    hide Reached, PlanInv, ExecInv;
    ReachedSafe(sq, y);
    PinnedCanStop(sq, y.m.p, y.dirty);
  }

  /** While it runs, the machine is never too fast for the block it is in, nor to brake to the block's committed exit. */
  lemma AlwaysCanBrake(sq: real -> real, y: System)
    requires IsSqrt(sq) && Reached(sq, y)
    ensures Shape(y.m)
    ensures y.m.e.cur && !y.m.p.q[0].kind.Event? ==> CanBrake(y.m.p.q[0], y.m.e)
  {
    hide Reached, PlanInv, OnPiece, CanBrake;
    ReachedSafe(sq, y);
  }

  // ─── A hold, from any reachable state ──────────────────────────────────────

  lemma HoldIsGood(sq: real -> real, y: System)
    requires IsSqrt(sq) && SystemInv(sq, y) && !y.dirty
    ensures InHold(sq, y.m.(e := HoldExec(y.m.e)))
  {
    hide PlanInv, ExecInv;
    HoldKeepsExec(y.m, false);
  }

  /** A hold begun at any reachable instant completes: held and at rest once its speed is shed, without
      passing the end of the first block the plan stops in. */
  lemma HoldFromAnywhere(sq: real -> real, y: System, dt: real, aMin: real, i: nat)
    requires IsSqrt(sq) && Reached(sq, y) && !y.dirty && dt > 0.0
    ensures Shape(y.m)
    ensures BrakesAt(y.m.p.q, aMin) && y.m.e.v <= Prod(aMin, dt) && RestAhead(y.m, i) ==>
      var m := y.m.(e := HoldExec(y.m.e));
      && Shape(m) && Advance(sq, m, dt).e.mode.Held? && Advance(sq, m, dt).e.v == 0.0
      && |Advance(sq, m, dt).p.q| + i >= |y.m.p.q|
  {
    hide Reached, SystemInv, InHold, Advance, BrakesAt, Prod, Bounded;
    ReachedSafe(sq, y);
    HoldIsGood(sq, y);
    TickRoute(sq, y);
    if BrakesAt(y.m.p.q, aMin) && y.m.e.v <= Prod(aMin, dt) && RestAhead(y.m, i) {
      var a, vCap := SomeBound(y.m.p.q);
      var m := y.m.(e := HoldExec(y.m.e));
      HoldCompletes(sq, m, dt, aMin, a, vCap);
      HoldStopsByRest(sq, m, dt, i);
    }
  }

  /** A hold begun at any reachable instant is, for as long as no further offer comes due, no further along the path
      than the run it replaces would have been. */
  lemma HoldNeverAhead(sq: real -> real, y: System, dt: real)
    requires IsSqrt(sq) && Reached(sq, y) && !y.dirty
    ensures Shape(y.m)
    ensures y.m.e.mode.Running? && Budget(y.m, dt) ==>
      var h := y.m.(e := HoldExec(y.m.e));
      Shape(h) && Remaining(Advance(sq, h, dt)) >= Remaining(Advance(sq, y.m, dt))
  {
    hide Reached, SystemInv, InHold, Advance, PlanInv, ExecInv, Remaining, Budget;
    ReachedSafe(sq, y);
    HoldIsGood(sq, y);
    RunIsGood(sq, y);
    InHoldGood(sq, y.m.(e := HoldExec(y.m.e)));
    if y.m.e.mode.Running? && Budget(y.m, dt) { HoldLags(sq, y.m, dt); }
  }

  /** Where the accelerations queued up to the next event do not rise, it is no faster either: at rest by the time the
      run would be. */
  lemma HoldNoFaster(sq: real -> real, y: System, dt: real, a: real)
    requires IsSqrt(sq) && Reached(sq, y) && !y.dirty && a >= 0.0
    ensures Shape(y.m)
    ensures y.m.e.mode.Running? && Budget(y.m, dt) && Easing(y.m.p.q, a) ==>
      var h := y.m.(e := HoldExec(y.m.e));
      && Shape(h) && Advance(sq, h, dt).e.v <= Advance(sq, y.m, dt).e.v
      && (Advance(sq, y.m, dt).e.v == 0.0 ==> Advance(sq, h, dt).e.v == 0.0)
  {
    hide Reached, SystemInv, InHold, Advance, PlanInv, ExecInv, Easing, Budget;
    ReachedSafe(sq, y);
    HoldIsGood(sq, y);
    RunIsGood(sq, y);
    var h := y.m.(e := HoldExec(y.m.e));
    InHoldGood(sq, h);
    if y.m.e.mode.Running? && Budget(y.m, dt) && Easing(y.m.p.q, a) {
      HoldSlows(sq, y.m, dt, a);
      HoldBudget(y.m, dt);
      NotNegative(sq, h, dt);
    }
  }

  lemma HoldBudget(m: Machine, dt: real)
    requires Budget(m, dt)
    ensures Budget(m.(e := HoldExec(m.e)), dt)
  {
  }

  lemma InHoldGood(sq: real -> real, m: Machine)
    requires InHold(sq, m)
    ensures Good(sq, m)
  {
  }

  lemma RunIsGood(sq: real -> real, y: System)
    requires SystemInv(sq, y) && !y.dirty
    ensures Good(sq, y.m)
  {
  }

  /** In every reachable state a tick may be cut anywhere. */
  lemma TicksAdd(sq: real -> real, y: System, d1: real, d2: real)
    requires IsSqrt(sq) && Reached(sq, y) && d1 >= 0.0 && d2 >= 0.0
    ensures Shape(y.m)
    ensures !y.dirty ==> Shape(Tick(sq, y.m, d1)) && Tick(sq, Tick(sq, y.m, d1), d2) == Tick(sq, y.m, d1 + d2)
  {
    hide Reached, PlanInv, ExecInv, Tick, PendingInside;
    ReachedSafe(sq, y);
    if !y.dirty {
      GoodPending(sq, y.m);
      TickAdds(sq, y.m, d1, d2);
    }
  }

  /** In every reachable state needsRing() is exact about a claimed block: without it the tick leaves all the
      producer can see alone, and with it the block is released. */
  lemma NeedsRingExact(sq: real -> real, y: System, dt: real)
    requires IsSqrt(sq) && Reached(sq, y) && !y.dirty && dt > 0.0
    ensures Shape(y.m)
    ensures !NeedsRing(sq, y.m, dt) ==> Tick(sq, y.m, dt).p == y.m.p
    ensures y.m.e.cur && !y.m.e.aborting && !y.m.e.mode.Held? ==>
      (NeedsRing(sq, y.m, dt) <==> |Tick(sq, y.m, dt).p.q| < |y.m.p.q|)
  {
    hide Reached, PlanInv, ExecInv, NeedsRing, Advance;
    ReachedSafe(sq, y);
    if NeedsRing(sq, y.m, dt) {
      if y.m.e.cur && !y.m.e.aborting && !y.m.e.mode.Held? {
        NeededRingReleases(sq, y.m, dt);
        AdvanceAborting(sq, y.m, dt);
      }
    } else {
      NoRingNoChange(sq, y.m, dt);
    }
  }
}
