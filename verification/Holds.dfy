/** Where and when a hold comes to rest (lib/planner/planner/executor.h). */
module Holds {
  import opened Arithmetic
  import opened Trapezoids
  import opened Kinematics
  import opened Paths
  import opened LookAhead
  import opened PlanStates
  import opened ExecStates
  import opened ExecSafety

  /** Every queued block brakes at least this hard. */
  predicate BrakesAt(q: seq<Block>, aMin: real) {
    aMin > 0.0 && forall i :: 0 <= i < |q| ==> q[i].path.accel >= aMin
  }

  lemma LeavesSlower(sq: real -> real, v: real, a: real, aMin: real, rem: real, dt: real)
    requires IsSqrt(sq) && 0.0 < aMin <= a && v >= 0.0 && rem >= 0.0 && StopDistance(v, a) > rem
    ensures var w := EndSpeed(sq, v, a, rem); var t := EndTime(v, w, a);
      w > 0.0 && t >= 0.0 && Prod(aMin, t) <= v - w
  {
    Divides(v * v, 2.0 * a);
    SignOf(2.0 * a, StopDistance(v, a) - rem);
    EndFacts(sq, v, a, rem);
    var w := EndSpeed(sq, v, a, rem);
    PositiveEnd(sq, v, a, rem);
    Divides(v - w, a);
    Monotone(aMin, a, EndTime(v, w, a), EndTime(v, w, a));
  }

  lemma PositiveEnd(sq: real -> real, v: real, a: real, rem: real)
    requires IsSqrt(sq) && v * v - 2.0 * a * rem > 0.0
    ensures EndSpeed(sq, v, a, rem) > 0.0
  {
    EndSpeedSqr(sq, v, a, rem);
  }

  lemma SlowEnough(v: real, w: real, a: real, aMin: real, dt: real)
    requires 0.0 < aMin <= a && 0.0 <= w <= v && v <= Prod(aMin, dt) && dt >= 0.0
    ensures StopTime(v, a) <= dt && EndTime(v, w, a) <= dt
  {
    Monotone(aMin, a, dt, dt);
    Divides(v, a);
    Divides(v - w, a);
    assert a * (v / a - dt) == v - a * dt <= 0.0;
    assert a * ((v - w) / a - dt) == v - w - a * dt <= 0.0;
    SignOf(a, v / a - dt);
    SignOf(a, (v - w) / a - dt);
  }

  predicate InHold(sq: real -> real, m: Machine) { Good(sq, m) && !m.e.mode.Running? }

  /** A pass with time enough to stop: held, or on into the next block with time enough left. */
  lemma HoldTurnStops(sq: real -> real, m: Machine, dt: real, aMin: real, a: real, vCap: real)
    requires IsSqrt(sq) && InHold(sq, m) && m.e.mode.Holding? && BrakesAt(m.p.q, aMin) && Bounded(m.p.q, a, vCap)
    requires m.e.cur && dt > 0.0 && m.e.v <= Prod(aMin, dt)
    ensures var r := TurnInBlock(sq, m, dt);
      && InHold(sq, r.m) && BrakesAt(r.m.p.q, aMin) && Bounded(r.m.p.q, a, vCap)
      && (r.again ==> r.m.e.mode.Holding? && r.left > 0.0 && r.m.e.v <= Prod(aMin, r.left) && |r.m.p.q| < |m.p.q|)
      && (!r.again ==> r.m.e.mode.Held?)
  {
    hide PlanInv, ExecInv, Moved, Bounded, StopDistance, StopTime, EndSpeed, EndTime, TurnOk, Sqr, Reach, Speed, Travel, Prod;
    GoodShape(sq, m);
    BlockTurnKeeps(sq, m, dt, a, vCap);
    TurnOkGood(sq, m, TurnInBlock(sq, m, dt), dt, a, vCap);
    if m.p.q != [] { BoundedTail(m.p.q, a, vCap); }
    if !m.p.q[0].kind.Event? {
      HoldBlockStops(sq, m, dt, aMin);
    } else {
      EventAtRest(sq, m);
    }
  }

  lemma GoodShape(sq: real -> real, m: Machine)
    requires Good(sq, m)
    ensures Shape(m) && m.e.v >= 0.0
    ensures m.e.mode.Held? ==> m.e.v == 0.0
    ensures m.e.cur && !m.p.q[0].kind.Event? ==> m.e.s <= m.p.q[0].path.length
    ensures Budget(m, 0.0) || m.e.mode.Running?
  {
    hide PlanInv, OnPiece, Sqr, Reach;
  }

  lemma TurnOkGood(sq: real -> real, m: Machine, r: Turn, dt: real, a: real, vCap: real)
    requires TurnOk(sq, m, r, dt, a, vCap)
    ensures Good(sq, r.m) && r.left >= 0.0
  {
    hide Good, Moved;
  }

  lemma HoldBlockStops(sq: real -> real, m: Machine, dt: real, aMin: real)
    requires IsSqrt(sq) && Shape(m) && m.e.cur && m.e.v >= 0.0 && m.e.s <= m.p.q[0].path.length
    requires BrakesAt(m.p.q, aMin) && dt > 0.0 && m.e.v <= Prod(aMin, dt) && m.e.mode.Holding?
    ensures var r := TurnHolding(sq, m, dt);
      && (r.again ==> r.left > 0.0 && r.m.e.v <= Prod(aMin, r.left) && r.m == FinishBlock(m, r.m.e.v))
      && (!r.again ==> r.m.e.mode.Held? && r.m.p == m.p)
  {
    hide StopDistance, StopTime, EndSpeed, EndTime, Speed, Travel, Prod, Sqr, Reach;
    var acc, rem := m.p.q[0].path.accel, m.p.q[0].path.length - m.e.s;
    var w := EndSpeed(sq, m.e.v, acc, rem);
    if StopDistance(m.e.v, acc) <= rem {
      SlowEnough(m.e.v, 0.0, acc, aMin, dt);
    } else {
      LeavesSlower(sq, m.e.v, acc, aMin, rem, dt);
      EndFacts(sq, m.e.v, acc, rem);
      SlowEnough(m.e.v, w, acc, aMin, dt);
      OverLeft(aMin, m.e.v, w, EndTime(m.e.v, w, acc), dt);
    }
  }

  lemma OverLeft(aMin: real, v: real, w: real, t: real, dt: real)
    requires aMin > 0.0 && w > 0.0 && Prod(aMin, t) <= v - w && v <= Prod(aMin, dt)
    ensures dt - t > 0.0 && w <= Prod(aMin, dt - t)
  {
    assert aMin * (dt - t) == aMin * dt - aMin * t;
    SignOf(aMin, dt - t);
  }

  /** A hold completes: given the time its speed takes to shed at the gentlest queued acceleration, the
      machine is held, however many blocks, events or junctions the braking crosses. */
  lemma {:induction false} HoldCompletes(sq: real -> real, m: Machine, dt: real, aMin: real, a: real, vCap: real)
    requires IsSqrt(sq) && InHold(sq, m) && BrakesAt(m.p.q, aMin) && Bounded(m.p.q, a, vCap)
    requires dt > 0.0 && m.e.v <= Prod(aMin, dt) && Shape(m)
    ensures Advance(sq, m, dt).e.mode.Held? && Advance(sq, m, dt).e.v == 0.0
    decreases |m.p.q|
  {
    hide PlanInv, ExecInv, TurnInBlock, Bounded, Prod, Sqr, Reach;
    GoodShape(sq, m);
    if !m.e.mode.Held? {
      TurnShrinks(sq, m, dt);
      if m.e.cur {
        HoldTurnStops(sq, m, dt, aMin, a, vCap);
        StoppedOrOn(sq, m, dt, aMin, a, vCap);
      } else if m.p.q != [] && m.e.v > 0.0 {
        BoundsPositive(m.p.q, a, vCap);
        BeginKeeps(sq, m, a, vCap);
        HoldTurnStops(sq, BeginBlock(m), dt, aMin, a, vCap);
        StoppedOrOn(sq, m, dt, aMin, a, vCap);
      }
    }
  }

  lemma StoppedOrOn(sq: real -> real, m: Machine, dt: real, aMin: real, a: real, vCap: real)
    requires IsSqrt(sq) && Shape(m) && dt > 0.0 && !m.e.mode.Held?
    requires var r := TurnOnce(sq, m, dt);
      && Shape(r.m) && InHold(sq, r.m) && BrakesAt(r.m.p.q, aMin) && Bounded(r.m.p.q, a, vCap)
      && (r.again ==> r.left > 0.0 && r.m.e.v <= Prod(aMin, r.left) && |r.m.p.q| < |m.p.q|)
      && (!r.again ==> r.m.e.mode.Held?)
    ensures Advance(sq, m, dt).e.mode.Held? && Advance(sq, m, dt).e.v == 0.0
    decreases |m.p.q|, 0
  {
    hide PlanInv, ExecInv, TurnOnce, Bounded, Prod, Sqr, Reach, InHold;
    TurnShrinks(sq, m, dt);
    var r := TurnOnce(sq, m, dt);
    if r.again {
      HoldCompletes(sq, r.m, r.left, aMin, a, vCap);
    } else {
      HeldAtRest(sq, r.m);
    }
  }

  lemma HeldAtRest(sq: real -> real, m: Machine)
    requires InHold(sq, m) && m.e.mode.Held?
    ensures m.e.v == 0.0
  {
    GoodShape(sq, m);
  }

  // ─── Where it stops ────────────────────────────────────────────────────────

  lemma CanStopHere(v: real, a: real, rem: real)
    requires a > 0.0 && Sqr(v) <= Reach(0.0, a, rem)
    ensures StopDistance(v, a) <= rem
  {
    Divides(v * v, 2.0 * a);
    SignOf(2.0 * a, StopDistance(v, a) - rem);
  }

  /** A hold in a block that ends at rest stays in it. */
  lemma RestBlockKept(sq: real -> real, m: Machine, dt: real)
    requires InHold(sq, m) && m.e.mode.Holding? && m.e.cur && dt > 0.0 && m.p.q[0].exitSqr == 0.0
    requires m.p.q[0].kind.Event? ==> !m.e.eventDone
    ensures TurnInBlock(sq, m, dt).m.p == m.p
  {
    hide PlanInv, OnPiece, Sqr, Reach, StopDistance, StopTime, EndSpeed, EndTime, Speed, Travel;
    if !m.p.q[0].kind.Event? {
      CanStopHere(m.e.v, m.p.q[0].path.accel, m.p.q[0].path.length - m.e.s);
    }
  }

  lemma HoldTurnKeeps(sq: real -> real, m: Machine, dt: real)
    requires IsSqrt(sq) && InHold(sq, m) && m.e.mode.Holding? && m.e.cur && dt > 0.0
    ensures InHold(sq, TurnInBlock(sq, m, dt).m)
    ensures var r := TurnInBlock(sq, m, dt).m.p.q; r == m.p.q || r == m.p.q[1..]
    ensures TurnInBlock(sq, m, dt).m.e.cur ==> TurnInBlock(sq, m, dt).m.p.q == m.p.q && TurnInBlock(sq, m, dt).m.e.eventDone == m.e.eventDone
  {
    hide PlanInv, ExecInv, StopDistance, StopTime, EndSpeed, EndTime, Speed, Travel, TurnOk, Bounded;
    GoodShape(sq, m);
    GoodRoute(sq, m);
    var a, vCap := SomeBound(m.p.q);
    BlockTurnKeeps(sq, m, dt, a, vCap);
    TurnOkGood(sq, m, TurnInBlock(sq, m, dt), dt, a, vCap);
  }

  lemma GoodRoute(sq: real -> real, m: Machine)
    requires Good(sq, m)
    ensures RouteOk(m.p.q)
  {
    hide ExecInv, Chain, Profiled, ClaimOk, PlanOk;
  }

  /** Block `i` has not been passed: it comes to rest at its end, and is no event already run. */
  predicate RestAhead(m: Machine, i: nat) {
    i < |m.p.q| && m.p.q[i].exitSqr == 0.0 && (i == 0 && m.e.cur && m.p.q[0].kind.Event? ==> !m.e.eventDone)
  }

  /** A hold does not outrun the plan: no block is released past the first one the
      committed plan ends at rest in, and the newest always does. */
  lemma {:induction false} HoldStopsByRest(sq: real -> real, m: Machine, dt: real, i: nat)
    requires IsSqrt(sq) && InHold(sq, m) && Shape(m) && RestAhead(m, i)
    ensures |Advance(sq, m, dt).p.q| + i >= |m.p.q|
    decreases |m.p.q|, Pending(m), if dt > 0.0 then 1 else 0
  {
    hide PlanInv, ExecInv, TurnInBlock, Good;
    if dt > 0.0 && !m.e.mode.Held? {
      TurnShrinks(sq, m, dt);
      if m.e.cur {
        HoldTurnKeeps(sq, m, dt);
        if i == 0 { RestBlockKept(sq, m, dt); }
        RestThen(sq, m, dt, i);
      } else if m.p.q != [] && m.e.v > 0.0 {
        BeginKeeps(sq, m, 0.0, 0.0);
        HoldTurnKeeps(sq, BeginBlock(m), dt);
        if i == 0 { RestBlockKept(sq, BeginBlock(m), dt); }
        RestThen(sq, m, dt, i);
      }
    }
  }

  lemma RestThen(sq: real -> real, m: Machine, dt: real, i: nat)
    requires IsSqrt(sq) && Shape(m) && RestAhead(m, i) && dt > 0.0 && !m.e.mode.Held?
    requires var r := TurnOnce(sq, m, dt).m;
      && InHold(sq, r) && Shape(r)
      && (r.p.q == m.p.q || (i > 0 && r.p.q == m.p.q[1..]))
      && (r.e.cur ==> r.p.q == m.p.q && (i == 0 && m.p.q[0].kind.Event? ==> !r.e.eventDone))
    requires var r := TurnOnce(sq, m, dt);
      r.again ==> |r.m.p.q| < |m.p.q| || Pending(r.m) < Pending(m) || (Pending(r.m) == Pending(m) && r.left <= 0.0)
    ensures |Advance(sq, m, dt).p.q| + i >= |m.p.q|
    decreases |m.p.q|, Pending(m), 0
  {
    hide TurnOnce, InHold;
    var r := TurnOnce(sq, m, dt);
    if r.again && r.left > 0.0 {
      if r.m.p.q == m.p.q {
        HoldStopsByRest(sq, r.m, r.left, i);
      } else {
        HoldStopsByRest(sq, r.m, r.left, i - 1);
      }
    }
  }
}
