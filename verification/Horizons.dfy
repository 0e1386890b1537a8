/** What a replan may still raise the running block to, and that it plans exactly that (lib/planner/planner.cpp). */
module Horizons {
  import opened Arithmetic
  import opened Trapezoids
  import opened Kinematics
  import opened Paths
  import opened LookAhead
  import opened PlanStates
  import opened ExecStates
  import opened ExecSafety
  import opened Systems
  import opened MotionTheorems

  /** An offer has yet to take over. */
  predicate OfferAhead(p: PlanState, t: real) { p.offer.Some? && t < p.offer.value.t0 }

  /** The instant from which a plan made at clock t may change the running block. */
  function TakeOver(p: PlanState, t: real): real {
    if OfferAhead(p, t) then p.offer.value.t0 else t + p.ahead
  }

  /** Some plan of these blocks, feasible and joined up to rest, enters at x. */
  ghost predicate CanEnter(q: seq<Block>, x: real) {
    exists other: seq<Block> :: SameRoute(q, other) && Chain(other, x)
  }

  /** The running block, at speed v with `left` of it to go, can end at x and the blocks behind it take over from there. */
  ghost predicate Attainable(p: PlanState, v: real, left: real, x: real)
    requires p.q != []
  {
    x <= p.q[0].path.vMaxSqr && x <= v * v + 2.0 * p.q[0].path.accel * left && CanEnter(p.Unclaimed(), x)
  }

  /** Faster than the committed exit by more than rounding. */
  predicate WorthIt(committed: real, x: real) { x > committed * 1.00001 + 0.000001 }

  /** The fastest of them. */
  ghost predicate Fastest(p: PlanState, v: real, left: real, x: real)
    requires p.q != []
  {
    Attainable(p, v, left, x) && forall u: real :: Attainable(p, v, left, u) ==> u <= x
  }

  lemma EntersExactly(sq: real -> real, q: seq<Block>, x: real)
    requires RouteOk(q)
    ensures CanEnter(q, x) <==> 0.0 <= x <= ReverseEntry(q)
  {
    hide Chain, SameRoute, RouteOk, ReverseEntry, Planned;
    if 0.0 <= x <= ReverseEntry(q) {
      RouteAccel(q);
      PlannedChain(sq, q, x);
      assert SameRoute(q, Planned(sq, q, x));
    }
    if CanEnter(q, x) {
      var other: seq<Block> :| SameRoute(q, other) && Chain(other, x);
      SameReverse(q, other);
      ChainBelowReverse(other, x);
      ChainJoins(other, x);
    }
  }

  lemma RouteAccel(q: seq<Block>)
    requires RouteOk(q)
    ensures forall i :: 0 <= i < |q| ==> q[i].path.accel > 0.0
  {
  }

  lemma AttainableExactly(sq: real -> real, p: PlanState, v: real, left: real, x: real)
    requires p.q != [] && RouteOk(p.Unclaimed()) && left >= 0.0
    ensures Attainable(p, v, left, x) <==>
            0.0 <= x <= Min(Min(ReverseEntry(p.Unclaimed()), p.q[0].path.vMaxSqr), Reach(Sqr(v), p.q[0].path.accel, Max(left, 0.0)))
  {
    hide CanEnter, RouteOk, ReverseEntry;
    EntersExactly(sq, p.Unclaimed(), x);
  }

  /** Where the plan takes over, at what speed and with how much of the block to go: as the planner finds it. */
  lemma HorizonIs(p: PlanState, t: real)
    requires RouteOk(p.q) && p.claimed && ClaimOk(p) && p.ahead >= 0.0 && p.guard >= 0.0 && t >= 0.0
    ensures var h, tau, base := HorizonAt(p, t), TakeOver(p, t), p.Effective();
      && (h.TooClose? <==> OfferAhead(p, t) && t + p.guard >= tau)
      && (!h.TooClose? ==> (h.At? <==> tau < base.End()))
      && (h.At? ==> h.t == tau && h.s == base.At(tau) && h.vSqr == Sqr(base.SpeedAt(tau)) && !p.q[0].kind.Event?
                    && 0.0 <= base.At(tau) <= p.q[0].path.length)
  {
    hide Sqr, Trapezoid.Position, Trapezoid.Velocity, RouteOk;
    var tau, base := TakeOver(p, t), p.Effective();
    if !p.q[0].kind.Event? {
      PieceStart(p.q[0], base);
      if base.t0 <= tau < base.End() { InPlace(p.q[0], base, tau); }
      if !OfferAhead(p, t) { AfterStart(p, t); }
    } else {
      EventEnds(p);
    }
  }

  lemma AfterStart(p: PlanState, t: real)
    requires p.claimed && ClaimOk(p) && p.ahead >= 0.0 && t >= 0.0 && !OfferAhead(p, t)
    ensures p.Effective().t0 <= TakeOver(p, t)
  {
    hide PieceOn, Sqr;
  }

  lemma EventEnds(p: PlanState)
    requires p.claimed && ClaimOk(p) && p.q[0].kind.Event?
    ensures p.offer.None? && p.Effective().End() == 0.0
  {
    hide PieceOn, Sqr;
  }

  lemma InPlace(b: Block, x: Piece, tau: real)
    requires PieceOn(b, x) && x.t0 <= tau < x.End()
    ensures 0.0 <= x.At(tau) <= b.path.length
  {
    hide Trapezoid.Position, Trapezoid.Velocity, Sqr;
    InRange(x.profile, tau - x.t0);
  }

  /** At the horizon the fastest attainable exit is the one the two passes allow, and it is planned for if it is worth it. */
  lemma RaiseIsFastest(sq: real -> real, p: PlanState, t: real)
    requires IsSqrt(sq) && PlanInv(sq, p, false) && p.claimed && t >= 0.0
    ensures var h := HorizonAt(p, t); p.q != [] && (h.At? ==> p.q[0].path.accel > 0.0)
    ensures var h := HorizonAt(p, t); h.At? ==>
      var v, left := p.Effective().SpeedAt(h.t), p.q[0].path.length - p.Effective().At(h.t);
      var raise := RaiseAt(sq, p, h);
      && (raise.Some? <==> exists x :: Attainable(p, v, left, x) && WorthIt(p.q[0].exitSqr, x))
      && (raise.Some? ==> Fastest(p, v, left, raise.value.exitSqr))
  {
    hide PlanOk, PieceOn, Chain, Profiled, Attainable, ReverseEntry, HorizonAt, Sqr, Trapezoid.Position, Trapezoid.Velocity, RouteOk, Make,
         ClaimOk, PlanInv, Reach;
    Parts(sq, p);
    var h := HorizonAt(p, t);
    HorizonIs(p, t);
    if h.At? {
      var base, c := p.Effective(), p.q[0];
      var v, left := base.SpeedAt(h.t), c.path.length - base.At(h.t);
      RouteAccel(p.q);
      RouteUnclaimed(p);
      ReverseInRange(p.Unclaimed());
      forall x: real
        ensures Attainable(p, v, left, x) <==> 0.0 <= x <= Limit(p, v, left)
      {
        AttainableExactly(sq, p, v, left, x);
      }
      LimitPositive(p, v, left);
      ExitLeft(p, t);
      if RaiseAt(sq, p, h).Some? { assert Attainable(p, v, left, Limit(p, v, left)) && WorthIt(c.exitSqr, Limit(p, v, left)); }
    }
  }

  function Limit(p: PlanState, v: real, left: real): real
    requires p.q != []
  {
    Min(Min(ReverseEntry(p.Unclaimed()), p.q[0].path.vMaxSqr), Reach(Sqr(v), p.q[0].path.accel, Max(left, 0.0)))
  }

  lemma LimitPositive(p: PlanState, v: real, left: real)
    requires p.q != [] && RouteOk(p.q) && !p.q[0].kind.Event? && ReverseEntry(p.Unclaimed()) >= 0.0 && left >= 0.0
    ensures Limit(p, v, left) >= 0.0
  {
    hide ReverseEntry;
    assert BlockOk(p.q[0]);
    Monotone(p.q[0].path.accel, p.q[0].path.accel, 0.0, left);
  }

  /** With nothing left of the block its committed exit is the speed it is at. */
  lemma ExitLeft(p: PlanState, t: real)
    requires RouteOk(p.q) && p.claimed && ClaimOk(p) && !p.q[0].kind.Event? && p.ahead >= 0.0 && p.guard >= 0.0 && t >= 0.0
    requires HorizonAt(p, t).At?
    ensures var h := HorizonAt(p, t); h.s >= p.q[0].path.length ==> Reach(h.vSqr, p.q[0].path.accel, 0.0) <= p.q[0].exitSqr
    ensures p.q[0].exitSqr >= 0.0
  {
    hide RouteOk, PieceOn, Trapezoid.Position, Trapezoid.Velocity, HorizonAt;
    HorizonOk(p, t);
    var h := HorizonAt(p, t);
    HorizonIs(p, t);
  }

  lemma Parts(sq: real -> real, p: PlanState)
    requires PlanInv(sq, p, false) && p.claimed
    ensures RouteOk(p.q) && ClaimOk(p) && p.q != [] && p.ahead >= 0.0 && p.guard >= 0.0
  {
    hide PlanOk, PieceOn, Chain, Profiled, Sqr, RouteOk;
  }

  // ─── In every reachable state ──────────────────────────────────────────────

  /** The plan's exit for the running block. */
  function PlannedExit(p: PlanState, plan: Plan): real
    requires p.q != [] && plan.Ready?
  {
    if plan.raise.Some? then plan.raise.value.exitSqr else p.q[0].exitSqr
  }

  /** From where the running block can still be changed, a replan plans the fastest there is: with (s, v) its motion at the
      instant a new piece may take over, any exit it can still reach from there and the blocks behind it can take over at is
      no faster than the planned one, or not worth changing it for; a raise is planned if and only if some exit is worth it,
      and then is the fastest of them, from (s, v) to the block's end. It waits only where an offer takes over within the
      guard. */
  lemma ReplanIsFastest(sq: real -> real, y: System, t: real)
    requires IsSqrt(sq) && Reached(sq, y) && y.m.p.claimed && Enabled(y, DoReplan(t))
    ensures Shape(y.m)
    ensures Perform(sq, y, DoReplan(t)).m.p.plan.Some?
    ensures var p, tau, base, plan := y.m.p, TakeOver(y.m.p, t), y.m.p.Effective(), Perform(sq, y, DoReplan(t)).m.p.plan.value;
      var v, left := base.SpeedAt(tau), p.q[0].path.length - base.At(tau);
      && (plan.Wait? <==> OfferAhead(p, t) && t + p.guard >= tau)
      && (plan.Ready? && tau < base.End() ==>
            && (forall x: real :: Attainable(p, v, left, x) ==> x <= PlannedExit(p, plan) || !WorthIt(p.q[0].exitSqr, x))
            && (plan.raise.Some? <==> exists x: real :: Attainable(p, v, left, x) && WorthIt(p.q[0].exitSqr, x))
            && (plan.raise.Some? ==>
                  && Fastest(p, v, left, plan.raise.value.exitSqr)
                  && Covers(plan.raise.value, tau, base.At(tau), v, left)))
      && (plan.Ready? && tau >= base.End() ==> plan.raise.None?)
  {
    hide Reached, PlanInv, ExecInv, HorizonAt, RaiseAt, Attainable, Planned, Trapezoid.Position, Trapezoid.Velocity, Chain, Profiled, Sqr,
         RaiseOk, Covers, WorthIt;
    ReachedSafe(sq, y);
    var p := y.m.p;
    ClaimedClean(sq, y);
    Parts(sq, p);
    HorizonIs(p, t);
    ReplanHas(sq, p, t);
    var h := HorizonAt(p, t);
    if h.At? {
      RaiseIsFastest(sq, p, t);
      if RaiseAt(sq, p, h).Some? {
        RaiseCovers(sq, p, t);
      }
    }
  }

  lemma ClaimedClean(sq: real -> real, y: System)
    requires SystemInv(sq, y) && y.m.p.claimed
    ensures !y.dirty && PlanInv(sq, y.m.p, false)
  {
    hide ExecInv, Chain, Profiled, PlanOk, RouteOk, ClaimOk;
  }

  lemma ReplanHas(sq: real -> real, p: PlanState, t: real)
    requires (p.claimed ==> p.q != []) && forall i :: 0 <= i < |p.q| ==> p.q[i].path.accel > 0.0
    ensures var r := Replan(sq, p, t); r.plan.Some? && (r.plan.value.Wait? <==> HorizonAt(p, t).TooClose?)
    ensures var r := Replan(sq, p, t); r.plan.value.Ready? ==> r.plan.value.raise == RaiseAt(sq, p, HorizonAt(p, t))
    ensures !HorizonAt(p, t).At? ==> RaiseAt(sq, p, HorizonAt(p, t)).None?
    ensures !p.claimed ==> HorizonAt(p, t).NoHorizon?
  {
    hide Planned, Make, ReverseEntry;
  }

  /** The raised piece: from there at that speed, over what is left, to its exit. */
  predicate Covers(r: Raise, t0: real, s0: real, v: real, left: real) {
    && r.piece.t0 == t0 && r.piece.s0 == s0 && r.piece.profile.vEntry == v && r.piece.profile.length == left
    && Sqr(r.piece.profile.vExit) == r.exitSqr && Sound(r.piece.profile)
  }

  lemma RaiseCovers(sq: real -> real, p: PlanState, t: real)
    requires IsSqrt(sq) && PlanInv(sq, p, false) && p.claimed && t >= 0.0
    requires var h := HorizonAt(p, t); h.At? && RaiseAt(sq, p, h).Some?
    ensures var tau := TakeOver(p, t);
      Covers(RaiseAt(sq, p, HorizonAt(p, t)).value, tau, p.Effective().At(tau), p.Effective().SpeedAt(tau),
             p.q[0].path.length - p.Effective().At(tau))
  {
    hide PlanInv, HorizonAt, Make, ReverseEntry, Sqr, Trapezoid.Position, Trapezoid.Velocity, RouteOk, ClaimOk, Sound;
    Parts(sq, p);
    HorizonIs(p, t);
    RaiseSound(sq, p, t);
    var tau := TakeOver(p, t);
    if p.offer.Some? { OfferStarts(p); }
  }

  lemma OfferStarts(p: PlanState)
    requires p.claimed && ClaimOk(p) && p.offer.Some?
    ensures var o := p.offer.value; o.At(o.t0) == o.s0 && o.SpeedAt(o.t0) == o.profile.vEntry
  {
    hide Sqr;
    PieceStart(p.q[0], p.offer.value);
  }

  /** Behind the running block too: no feasible plan that enters no faster than the exit planned is faster anywhere. */
  lemma PlanIsFastest(sq: real -> real, y: System, t: real, x: real, other: seq<Block>)
    requires IsSqrt(sq) && Reached(sq, y) && y.m.p.claimed && Enabled(y, DoReplan(t))
    requires SameRoute(y.m.p.Unclaimed(), other) && Chain(other, x)
    ensures Shape(y.m)
    ensures Perform(sq, y, DoReplan(t)).m.p.plan.Some?
    ensures var plan := Perform(sq, y, DoReplan(t)).m.p.plan.value;
      plan.Ready? && x <= PlannedExit(y.m.p, plan) ==>
        && |plan.blocks| == |other|
        && forall i :: 0 <= i < |other| ==>
             other[i].entrySqr <= plan.blocks[i].entrySqr && other[i].exitSqr <= plan.blocks[i].exitSqr
  {
    hide Reached, PlanInv, ExecInv, HorizonAt, RaiseAt, Planned, Chain, SameRoute, RouteOk, ClaimOk;
    ReachedSafe(sq, y);
    var p := y.m.p;
    ClaimedClean(sq, y);
    Parts(sq, p);
    RouteUnclaimed(p);
    ReplanHas(sq, p, t);
    ClaimExit(p);
    RouteAccel(p.Unclaimed());
    var plan := Replan(sq, p, t).plan.value;
    if plan.Ready? && x <= PlannedExit(p, plan) {
      ReplanBlocks(sq, p, t);
      PlannedGreatest(sq, p.Unclaimed(), PlannedExit(p, plan), other, x);
      RouteSize(p.Unclaimed(), other);
    }
  }

  lemma ReplanBlocks(sq: real -> real, p: PlanState, t: real)
    requires p.claimed && p.q != [] && p.pinned == p.q[0].exitSqr
    requires forall i :: 0 <= i < |p.q| ==> p.q[i].path.accel > 0.0
    requires forall i :: 0 <= i < |p.Unclaimed()| ==> p.Unclaimed()[i].path.accel > 0.0
    ensures var plan := Replan(sq, p, t).plan.value;
      plan.Ready? ==> plan.blocks == Planned(sq, p.Unclaimed(), PlannedExit(p, plan))
  {
    hide Planned, HorizonAt, RaiseAt;
  }

  lemma RouteSize(q: seq<Block>, r: seq<Block>)
    requires SameRoute(q, r)
    ensures |q| == |r|
  {
  }

  /** An accepted commit is the plan: the raise is offered and staged and is the running block's exit, and the blocks behind
      have the planned speeds; one refused changes nothing but to drop the plan. */
  lemma CommitIs(p: PlanState, t: real)
    requires p.claimed ==> p.q != []
    ensures var r := Commit(p, t);
      && r.plan.None? && r.claimed == p.claimed && r.run == p.run
      && (!Accepts(p, t) ==> r == p.(plan := None))
      && (Accepts(p, t) ==>
            && r.Unclaimed() == p.plan.value.blocks
            && (p.claimed ==> r.q != [] && r.q[0] == p.q[0].(exitSqr := PlannedExit(p, p.plan.value)))
            && (p.claimed && p.plan.value.raise.Some? ==>
                  && r.staged == r.offer == Some(p.plan.value.raise.value.piece)
                  && r.pinned == p.plan.value.raise.value.exitSqr)
            && (p.plan.value.raise.None? ==> r.staged == p.staged && r.offer == p.offer && r.pinned == p.pinned))
  {
  }

  /** So what is committed is the fastest there is: of any feasible speeds for the blocks behind the running one that it can
      still hand over at, none hands over faster than the committed exit by an amount worth the change, and none that hands
      over no faster is anywhere above. */
  lemma CommittedIsFastest(sq: real -> real, y: System, t: real, c: real, x: real, other: seq<Block>)
    requires IsSqrt(sq) && Reached(sq, y) && y.m.p.claimed && Enabled(y, DoReplan(t))
    requires TakeOver(y.m.p, t) < y.m.p.Effective().End()
    requires y.m.p.q != [] && SameRoute(y.m.p.Unclaimed(), other) && Chain(other, x)
    requires var tau, base := TakeOver(y.m.p, t), y.m.p.Effective();
      Attainable(y.m.p, base.SpeedAt(tau), y.m.p.q[0].path.length - base.At(tau), x)
    ensures Shape(y.m) && Shape(Perform(sq, y, DoReplan(t)).m)
    ensures var z := Perform(sq, y, DoReplan(t));
      Enabled(z, DoCommit(c)) && Accepts(z.m.p, c) ==>
        var w := Perform(sq, z, DoCommit(c)).m.p;
        && w.q != [] && (x <= w.q[0].exitSqr || !WorthIt(y.m.p.q[0].exitSqr, x))
        && (x <= w.q[0].exitSqr ==>
              && |w.Unclaimed()| == |other|
              && forall i :: 0 <= i < |other| ==>
                   other[i].entrySqr <= w.Unclaimed()[i].entrySqr && other[i].exitSqr <= w.Unclaimed()[i].exitSqr)
  {
    hide Reached, SystemInv, Attainable, WorthIt, Commit, Replan, SameRoute, Chain, Covers, Fastest, Piece.At, Piece.SpeedAt, Piece.End;
    ReachedSafe(sq, y);
    PerformKeeps(sq, y, DoReplan(t));
    ReplanIsFastest(sq, y, t);
    PlanIsFastest(sq, y, t, x, other);
    ShapeMeans(y.m);
    ReplanQueue(sq, y.m.p, t);
    var z := Perform(sq, y, DoReplan(t));
    if Enabled(z, DoCommit(c)) && Accepts(z.m.p, c) { CommitIs(z.m.p, c); }
  }

  /** And (s, v) is where the machine will be: running on, with whatever is offered taken up, it is there at that instant. */
  lemma RunsThere(sq: real -> real, y: System)
    requires IsSqrt(sq) && Reached(sq, y) && y.m.e.cur && y.m.e.mode.Running?
    ensures Shape(y.m) && Shape(Adopt(y.m))
    ensures var p, tau, base := y.m.p, TakeOver(y.m.p, y.m.e.t), y.m.p.Effective();
      var e := Advance(sq, Adopt(y.m), tau - y.m.e.t).e;
      tau < base.End() ==> tau >= y.m.e.t && e.cur && e.t == tau && e.s == base.At(tau) && e.v == base.SpeedAt(tau)
  {
    hide Reached, PlanInv, Trapezoid.Position, Trapezoid.Velocity, Sqr, CanBrake, RouteOk, ClaimOk, PieceOn;
    ReachedSafe(sq, y);
    OffersInTime(sq, y);
    var p, m, base := y.m.p, Adopt(y.m), y.m.p.Effective();
    ClaimedClean(sq, y);
    Parts(sq, p);
    if p.q[0].kind.Event? {
      EventEnds(p);
    } else {
      if p.offer.Some? { OfferStarts(p); }
      Offered(sq, y);
      var tau := TakeOver(p, y.m.e.t);
      if tau < base.End() {
        if m.e.next.Some? { SwitchesThere(sq, m); } else { CoastsThere(sq, m, tau); }
      }
    }
  }

  /** What is taken up is the offer, and if nothing is to come the running piece is the one the block ends on. */
  lemma Offered(sq: real -> real, y: System)
    requires SystemInv(sq, y) && y.m.e.cur && y.m.e.mode.Running? && !y.m.p.q[0].kind.Event?
    ensures y.m.p.ahead >= 0.0
    ensures var m := Adopt(y.m);
      && Shape(m) && m.p.staged.None? && m.e.t == y.m.e.t && m.e.cur && m.e.mode.Running? && m.p.q == y.m.p.q
      && m.e.t < m.e.piece.End() && m.e.s == m.e.piece.At(m.e.t) && m.e.v == m.e.piece.SpeedAt(m.e.t)
      && (if m.e.next.Some? then m.e.next == y.m.p.offer && m.e.t < m.e.next.value.t0
          else m.e.piece == y.m.p.Effective() && !OfferAhead(y.m.p, y.m.e.t))
  {
    hide Trapezoid.Position, Trapezoid.Velocity, Sqr, CanBrake, RouteOk, PieceOn, Chain, Profiled, PlanOk, SameStart;
  }

  lemma SwitchesThere(sq: real -> real, m: Machine)
    requires Shape(m) && m.e.cur && m.e.mode.Running? && !m.p.q[0].kind.Event? && m.e.next.Some? && m.e.t < m.e.next.value.t0
    ensures var x := m.e.next.value; var e := Advance(sq, m, x.t0 - m.e.t).e;
      e.cur && e.t == x.t0 && e.s == x.s0 && e.v == x.profile.vEntry
  {
    hide Trapezoid.Position, Trapezoid.Velocity;
  }

  lemma CoastsThere(sq: real -> real, m: Machine, tau: real)
    requires Shape(m) && m.e.cur && m.e.mode.Running? && !m.p.q[0].kind.Event? && m.e.next.None? && m.e.t <= tau < m.e.piece.End()
    requires m.e.s == m.e.piece.At(m.e.t) && m.e.v == m.e.piece.SpeedAt(m.e.t)
    ensures var e := Advance(sq, m, tau - m.e.t).e;
      e.cur && e.t == tau && e.s == m.e.piece.At(tau) && e.v == m.e.piece.SpeedAt(tau)
  {
    hide Trapezoid.Position, Trapezoid.Velocity, Trapezoid.Duration;
  }
}
