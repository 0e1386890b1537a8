/** The caps of a path against the motion that is run: no axis exceeds its limits in any reachable state
    (lib/planner/executor.cpp with lib/planner/line.cpp and lib/planner/bezier.cpp). */
module AxisLimits {
  import opened Arithmetic
  import opened Trapezoids
  import opened Kinematics
  import opened Paths
  import opened LookAhead
  import opened PlanStates
  import opened ExecStates
  import opened ExecSafety
  import opened RingLock
  import opened Systems
  import opened Holds
  import opened HoldLag
  import opened MotionTheorems
  import C = SpeedCaps

  // ─── Within one block ──────────────────────────────────────────────────────

  lemma PieceGentle(b: Block, x: Piece, t: real, u: real)
    requires PieceOn(b, x) && x.t0 <= t <= u <= x.End()
    ensures Abs(x.SpeedAt(u) - x.SpeedAt(t)) <= Prod(b.path.accel, u - t)
  {
    hide Trapezoid.Position, Trapezoid.Velocity, Sound, Prod;
    ProfileSmooth(x.profile, t - x.t0, u - x.t0);
    assert (u - x.t0) - (t - x.t0) == u - t;
  }

  lemma ProdAdds(a: real, d: real, e: real)
    ensures Prod(a, d + e) == Prod(a, d) + Prod(a, e)
  {
  }

  /** Switch or no switch, the speed changes by no more than the block's acceleration. */
  lemma RunGentle(b: Block, e: ExecState, u: real)
    requires OnTrack(b, e) && e.t <= u < LastPiece(e).End()
    ensures Abs(PieceAt(e, u).SpeedAt(u) - e.v) <= Prod(b.path.accel, u - e.t)
  {
    hide Trapezoid.Position, Trapezoid.Velocity, PieceOn, Prod;
    if e.next.Some? && u >= e.next.value.t0 {
      var n := e.next.value;
      PieceGentle(b, e.piece, e.t, n.t0);
      PieceGentle(b, n, n.t0, u);
      AtStart(b, n);
      ProdAdds(b.path.accel, n.t0 - e.t, u - n.t0);
      assert (n.t0 - e.t) + (u - n.t0) == u - e.t;
    } else {
      PieceGentle(b, e.piece, e.t, u);
    }
  }

  lemma LeftBlock(sq: real -> real, m: Machine, k: Machine, dt: real, left: real)
    requires Shape(m) && Shape(k) && |k.p.q| < |m.p.q| && Advance(sq, m, dt) == Advance(sq, k, left)
    ensures |Advance(sq, m, dt).p.q| < |m.p.q|
  {
    hide Advance;
    AdvanceShrinks(sq, k, left);
  }

  lemma RunInBlock(sq: real -> real, m: Machine, dt: real)
    requires IsSqrt(sq) && Good(sq, m) && Shape(m) && m.e.cur && m.e.mode.Running? && !m.p.q[0].kind.Event?
    requires Budget(m, dt) && dt > 0.0 && |Advance(sq, m, dt).p.q| == |m.p.q|
    ensures Abs(Advance(sq, m, dt).e.v - m.e.v) <= Prod(m.p.q[0].path.accel, dt)
  {
    hide Advance, PlanInv, ExecInv, Prod, Budget, OnTrack, Trapezoid.Position, Trapezoid.Velocity;
    var left := LastPiece(m.e).End() - m.e.t;
    RunThrough(sq, m, dt);
    if dt < left {
      IsOnTrack(sq, m);
      RunGentle(m.p.q[0], m.e, m.e.t + dt);
      assert m.e.t + dt - m.e.t == dt;
    } else {
      LeftBlock(sq, m, Finished(m), dt, dt - left);
      assert false;
    }
  }

  lemma StopGentle(v: real, a: real, d: real)
    requires a > 0.0 && v >= 0.0 && d >= 0.0
    ensures Speed(v, -a, d) >= 0.0 ==> Abs(Speed(v, -a, d) - v) <= Prod(a, d)
    ensures v <= Prod(a, d) ==> Abs(0.0 - v) <= Prod(a, d)
  {
    Monotone(a, a, 0.0, d);
  }

  lemma HoldInBlock(sq: real -> real, m: Machine, dt: real)
    requires IsSqrt(sq) && Good(sq, m) && Shape(m) && m.e.cur && m.e.mode.Holding? && !m.p.q[0].kind.Event?
    requires dt > 0.0 && |Advance(sq, m, dt).p.q| == |m.p.q|
    ensures Abs(Advance(sq, m, dt).e.v - m.e.v) <= Prod(m.p.q[0].path.accel, dt)
  {
    hide Advance, PlanInv, ExecInv, Prod, Stays, Speed, EndSpeed, EndTime;
    var a, rem := m.p.q[0].path.accel, m.p.q[0].path.length - m.e.s;
    GoodShape(sq, m);
    if Stays(sq, m, dt) {
      StaysSpeed(sq, m, dt);
      NotNegative(sq, m, dt);
      StopGentle(m.e.v, a, dt);
      if Advance(sq, m, dt).e.v <= 0.0 { StopsInTime(sq, m, dt); }
    } else {
      var w := EndSpeed(sq, m.e.v, a, rem);
      HoldLeavesAt(sq, m, dt);
      LeftBlock(sq, m, FinishBlock(m, w), dt, dt - EndTime(m.e.v, w, a));
      assert false;
    }
  }

  /** A hold that comes to rest in its block had the time to. */
  lemma StopsInTime(sq: real -> real, m: Machine, dt: real)
    requires IsSqrt(sq) && Good(sq, m) && Shape(m) && m.e.cur && m.e.mode.Holding? && !m.p.q[0].kind.Event?
    requires dt > 0.0 && Stays(sq, m, dt) && Advance(sq, m, dt).e.v <= 0.0
    ensures m.e.v <= Prod(m.p.q[0].path.accel, dt)
  {
    hide PlanInv, ExecInv, StopDistance, EndSpeed, EndTime, Travel, CanBrake;
    StaysAtSpeed(sq, m, dt);
    var a := m.p.q[0].path.accel;
    Divides(m.e.v, a);
    GoodShape(sq, m);
    StopFacts(m.e.v, a);
    if StopTime(m.e.v, a) <= dt { Monotone(a, a, StopTime(m.e.v, a), dt); }
    SpeedIs(m.e.v, a, dt);
  }

  /** In every reachable state, over every tick that stays in a block, the motion keeps that block's own caps. */
  lemma BlockCaps(sq: real -> real, y: System, dt: real)
    requires IsSqrt(sq) && Reached(sq, y) && !y.dirty && dt > 0.0
    ensures Shape(y.m)
    ensures y.m.e.cur && !y.m.p.q[0].kind.Event? ==> y.m.e.v >= 0.0 && Sqr(y.m.e.v) <= y.m.p.q[0].path.vMaxSqr
    ensures y.m.e.cur && !y.m.p.q[0].kind.Event? && Budget(y.m, dt) && |Advance(sq, y.m, dt).p.q| == |y.m.p.q| ==>
      Abs(Advance(sq, y.m, dt).e.v - y.m.e.v) <= Prod(y.m.p.q[0].path.accel, dt)
  {
    hide Reached, SystemInv, Advance, PlanInv, ExecInv, Prod, Budget, Sqr;
    ReachedSafe(sq, y);
    RunIsGood(sq, y);
    AlwaysCanBrake(sq, y);
    var m := y.m;
    GoodShape(sq, m);
    if m.e.cur && !m.p.q[0].kind.Event? && Budget(m, dt) && |Advance(sq, m, dt).p.q| == |m.p.q| {
      if m.e.mode.Running? {
        RunInBlock(sq, m, dt);
      } else if m.e.mode.Holding? {
        HoldInBlock(sq, m, dt);
      } else {
        HeldStands(sq, m, dt);
        Monotone(m.p.q[0].path.accel, m.p.q[0].path.accel, 0.0, dt);
        ProdNotNegative(m.p.q[0].path.accel, dt);
      }
    }
  }

  lemma ProdNotNegative(a: real, d: real)
    requires a >= 0.0 && d >= 0.0
    ensures Prod(a, d) >= 0.0
  {
  }

  lemma HeldStands(sq: real -> real, m: Machine, dt: real)
    requires Shape(m) && m.e.mode.Held?
    ensures Advance(sq, m, dt) == m
  {
  }

  // ─── Axis by axis ──────────────────────────────────────────────────────────

  lemma Across(a: real, dt: real, u: real)
    ensures Prod(Prod(a, dt), u) == Prod(Prod(a, u), dt)
  {
  }

  /** On a line capped as makeLine caps it, in every reachable state, neither axis exceeds its feed, nor over any tick in
      the block its acceleration. */
  lemma LineAxes(sq: real -> real, y: System, dt: real, u: seq<real>, l: C.Limits, vMax: real, accel: real, i: nat)
    requires IsSqrt(sq) && Reached(sq, y) && !y.dirty && dt > 0.0
    requires C.LimitsOk(l) && |u| == 2 && u[0] >= 0.0 && u[1] >= 0.0 && vMax >= 0.0 && i < 2
    requires C.Within(vMax, u, l.feed, 2) && C.Within(accel, u, l.accel, 2)
    ensures Shape(y.m)
    ensures y.m.e.cur && !y.m.p.q[0].kind.Event? && y.m.p.q[0].path.vMaxSqr <= Sqr(vMax) ==>
      Prod(y.m.e.v, u[i]) <= l.feed[i]
    ensures y.m.e.cur && !y.m.p.q[0].kind.Event? && y.m.p.q[0].path.accel <= accel && Budget(y.m, dt)
            && |Advance(sq, y.m, dt).p.q| == |y.m.p.q| ==>
      Prod(Abs(Advance(sq, y.m, dt).e.v - y.m.e.v), u[i]) <= Prod(l.accel[i], dt)
  {
    hide Reached, Advance, Prod, Budget, Sqr;
    BlockCaps(sq, y, dt);
    if y.m.e.cur && !y.m.p.q[0].kind.Event? {
      var b, v := y.m.p.q[0], y.m.e.v;
      if b.path.vMaxSqr <= Sqr(vMax) {
        SpeedUnderCap(v, vMax, b.path.vMaxSqr);
        C.ProdGrows(v, vMax, u[i]);
      }
      if b.path.accel <= accel && Budget(y.m, dt) && |Advance(sq, y.m, dt).p.q| == |y.m.p.q| {
        var dv := Abs(Advance(sq, y.m, dt).e.v - v);
        C.ProdGrows(b.path.accel, accel, dt);
        C.ProdGrows(dv, Prod(accel, dt), u[i]);
        Across(accel, dt, u[i]);
        C.ProdGrows(0.0, accel, u[i]);
        C.ProdGrows(Prod(accel, u[i]), l.accel[i], dt);
      }
    }
  }

  /** On a curve whose tangent A follows, capped as the planner caps it, in every reachable state: over any tick in the
      block, with `at` its mean acceleration along the path and wherever the curvature then is within its bounds, no axis
      exceeds its acceleration and A neither its speed nor its own. */
  lemma CurveAxes(sq: real -> real, y: System, dt: real, feed: real, l: C.Limits, kappaMax: real, dkappaMax: real,
                  wA: real, alphaA: real, i: C.Instant, tx: real, ty: real)
    requires IsSqrt(sq) && Reached(sq, y) && !y.dirty && dt > 0.0
    requires C.LimitsOk(l) && feed >= 0.0 && kappaMax >= 0.0 && dkappaMax >= 0.0 && wA > 0.0 && alphaA > 0.0
    requires Prod(tx, tx) + Prod(ty, ty) == 1.0 && Abs(i.k) <= kappaMax && Abs(i.dk) <= dkappaMax
    requires Shape(y.m) && y.m.e.cur && !y.m.p.q[0].kind.Event? && Budget(y.m, dt)
    requires var cap := C.TangentCap(C.CurveCap(feed, l, kappaMax), kappaMax, dkappaMax, wA, alphaA);
      y.m.p.q[0].path.vMaxSqr <= cap.vMaxSqr && y.m.p.q[0].path.accel <= cap.accel
    requires |Advance(sq, y.m, dt).p.q| == |y.m.p.q|
    requires i.v == y.m.e.v && Prod(i.at, dt) == Advance(sq, y.m, dt).e.v - y.m.e.v
    ensures Abs(C.AxisAccel(i.at, C.Centripetal(i), tx, ty)) <= l.accel[0]
    ensures Abs(C.AxisAccel(i.at, C.Centripetal(i), ty, -tx)) <= l.accel[1]
    ensures Abs(Prod(i.v, i.k)) <= wA && Abs(Prod(i.at, i.k) + Prod(Prod(i.v, i.v), i.dk)) <= alphaA
  {
    hide Reached, Advance, Prod, Budget, Sqr, C.TangentCap, C.CurveCap, C.AxisAccel, C.Centripetal;
    BlockCaps(sq, y, dt);
    MeanWithin(i.at, dt, y.m.p.q[0].path.accel);
    var c := C.CurveCap(feed, l, kappaMax);
    TangentBelow(c, kappaMax, dkappaMax, wA, alphaA);
    assert Prod(i.v, i.v) == Sqr(i.v) by { SqrIs(i.v); }
    C.CurveTurn(i, c, kappaMax, dkappaMax, wA, alphaA);
    C.CurveAxes(i, feed, l, kappaMax, dkappaMax, tx, ty);
  }

  lemma SqrIs(v: real)
    ensures Prod(v, v) == Sqr(v)
  {
  }

  /** A mean acceleration is within what bounds the change of speed. */
  lemma MeanWithin(at: real, dt: real, a: real)
    requires dt > 0.0 && Abs(Prod(at, dt)) <= Prod(a, dt)
    ensures Abs(at) <= a
  {
    SignOf(dt, a - at);
    SignOf(dt, a + at);
    assert dt * (a - at) == a * dt - at * dt && dt * (a + at) == a * dt + at * dt;
  }

  lemma TangentBelow(c: C.Cap, kappaMax: real, dkappaMax: real, wA: real, alphaA: real)
    ensures var t := C.TangentCap(c, kappaMax, dkappaMax, wA, alphaA); t.vMaxSqr <= c.vMaxSqr && t.accel <= c.accel
  {
    hide Prod, C.Quotient;
  }
}
