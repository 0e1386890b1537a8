/** When a tick may touch the ring: Executor::needsRing against Executor::tick (lib/planner/executor.cpp). */
module RingLock {
  import opened Trapezoids
  import opened Kinematics
  import opened Paths
  import opened LookAhead
  import opened PlanStates
  import opened ExecStates
  import opened ExecSafety

  /** The planner untouched, the same block, and its time no further than the tick. */
  predicate Untouched(m: Machine, r: Machine, dt: real) {
    r.p == m.p && r.e.cur == m.e.cur && r.e.t <= m.e.t + dt && r.e.aborting == m.e.aborting
    && (r.e.mode.Running? ==> m.e.mode.Running?)
  }

  lemma StopsHere(sq: real -> real, m: Machine, dt: real)
    requires Shape(m) && dt > 0.0 && !m.e.mode.Held?
    requires var r := TurnOnce(sq, m, dt); !r.again || r.left <= 0.0
    ensures Advance(sq, m, dt) == TurnOnce(sq, m, dt).m
  {
    hide TurnOnce;
    TurnShrinks(sq, m, dt);
  }

  lemma CoastUntouched(sq: real -> real, m: Machine, dt: real)
    requires Shape(m) && dt > 0.0 && m.e.cur && m.e.mode.Running? && !m.p.q[0].kind.Event?
    requires m.e.next.Some? ==> m.e.t + dt < m.e.next.value.t0
    requires dt < m.e.piece.End() - m.e.t
    ensures Untouched(m, Advance(sq, m, dt), dt)
  {
    hide Trapezoid.Position, Trapezoid.Velocity;
    StopsHere(sq, m, dt);
  }

  lemma SwitchUntouched(sq: real -> real, m: Machine, dt: real)
    requires Shape(m) && dt > 0.0 && m.e.cur && m.e.mode.Running? && !m.p.q[0].kind.Event?
    requires m.e.next.Some? && m.e.t + dt >= m.e.next.value.t0 && m.e.t <= m.e.next.value.t0
    requires dt < m.e.next.value.End() - m.e.t
    ensures Untouched(m, Advance(sq, m, dt), dt)
  {
    hide Trapezoid.Position, Trapezoid.Velocity;
    var turn := TurnOnce(sq, m, dt);
    TurnShrinks(sq, m, dt);
    assert turn.again && turn.m.e.next.None? && turn.m.e.t == m.e.next.value.t0;
    if turn.left > 0.0 { CoastUntouched(sq, turn.m, turn.left); }
  }

  lemma BrakeUntouched(sq: real -> real, m: Machine, dt: real)
    requires Shape(m) && dt > 0.0 && m.e.cur && m.e.mode.Holding? && !m.p.q[0].kind.Event? && !NeedsRing(sq, m, dt)
    ensures Untouched(m, Advance(sq, m, dt), dt)
  {
    hide StopDistance, StopTime, EndSpeed, EndTime, Travel, Speed;
    StopsHere(sq, m, dt);
  }

  /** Where the lock test says no, a tick claims nothing, releases nothing and resets nothing: it changes
      nothing the producer can see. */
  lemma NoRingNoChange(sq: real -> real, m: Machine, dt: real)
    requires Good(sq, m) && dt >= 0.0 && !NeedsRing(sq, m, dt)
    ensures Untouched(m, Advance(sq, m, dt), dt) && Tick(sq, m, dt).p == m.p
  {
    hide PlanInv, StopDistance, StopTime, EndSpeed, EndTime, Trapezoid.Position, Trapezoid.Velocity, PieceOn, Sqr, Reach, CanBrake;
    if dt <= 0.0 || m.e.mode.Held? {
    } else if m.p.q[0].kind.Event? {
      StopsHere(sq, m, dt);
    } else if m.e.mode.Running? {
      if m.e.next.Some? && m.e.t + dt >= m.e.next.value.t0 {
        SwitchUntouched(sq, m, dt);
      } else {
        CoastUntouched(sq, m, dt);
      }
    } else {
      BrakeUntouched(sq, m, dt);
    }
  }

  lemma {:induction false} AdvanceShrinks(sq: real -> real, m: Machine, dt: real)
    requires Shape(m)
    ensures |Advance(sq, m, dt).p.q| <= |m.p.q|
    decreases |m.p.q|, Pending(m), if dt > 0.0 then 1 else 0
  {
    hide TurnOnce;
    if dt > 0.0 && !m.e.mode.Held? {
      var turn := TurnOnce(sq, m, dt);
      TurnShrinks(sq, m, dt);
      if turn.again { AdvanceShrinks(sq, turn.m, turn.left); }
    }
  }

  lemma ThenShrinks(sq: real -> real, m: Machine, dt: real)
    requires Shape(m) && dt > 0.0 && !m.e.mode.Held?
    requires var turn := TurnOnce(sq, m, dt); turn.again && |turn.m.p.q| < |m.p.q|
    ensures |Advance(sq, m, dt).p.q| < |m.p.q|
  {
    hide TurnOnce;
    TurnShrinks(sq, m, dt);
    AdvanceShrinks(sq, TurnOnce(sq, m, dt).m, TurnOnce(sq, m, dt).left);
  }

  /** The lock is not taken for nothing: with a block claimed, a tick that needs the ring does release it. */
  lemma NeededRingReleases(sq: real -> real, m: Machine, dt: real)
    requires Good(sq, m) && dt > 0.0 && m.e.cur && !m.e.mode.Held? && !m.e.aborting && NeedsRing(sq, m, dt)
    ensures |Advance(sq, m, dt).p.q| < |m.p.q|
  {
    hide PlanInv, StopDistance, StopTime, EndSpeed, EndTime, Trapezoid.Position, Trapezoid.Velocity, PieceOn, Sqr, Reach, CanBrake, Sound;
    var turn := TurnOnce(sq, m, dt);
    if m.e.mode.Running? && !m.p.q[0].kind.Event? && m.e.next.Some? {
      SwitchThenEnds(sq, m, dt);
    } else {
      ThenShrinks(sq, m, dt);
    }
  }

  lemma SwitchThenEnds(sq: real -> real, m: Machine, dt: real)
    requires Good(sq, m) && dt > 0.0 && m.e.cur && m.e.mode.Running? && !m.p.q[0].kind.Event? && m.e.next.Some?
    requires dt >= m.e.next.value.End() - m.e.t
    ensures |Advance(sq, m, dt).p.q| < |m.p.q|
  {
    hide PlanInv, Trapezoid.Position, Trapezoid.Velocity, Sqr, Reach, CanBrake, Sound, Chain, StopDistance, StopTime, EndSpeed, EndTime;
    var x := m.e.next.value;
    PieceStart(m.p.q[0], x);
    var turn := TurnOnce(sq, m, dt);
    TurnShrinks(sq, m, dt);
    assert turn.again && turn.m.e.next.None? && turn.m.e.piece == x && turn.m.p == m.p && turn.left == dt - (x.t0 - m.e.t);
    ThenShrinks(sq, turn.m, turn.left);
  }
}
