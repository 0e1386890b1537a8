/** How a tick is cut does not matter: tick(d1) then tick(d2) is tick(d1 + d2) (lib/planner/executor.cpp). */
module AdditiveTicks {
  import opened Arithmetic
  import opened Trapezoids
  import opened Kinematics
  import opened Paths
  import opened LookAhead
  import opened PlanStates
  import opened ExecStates
  import opened ExecSafety

  lemma StopShift(v: real, a: real, d: real)
    requires a > 0.0
    ensures StopDistance(Speed(v, -a, d), a) == StopDistance(v, a) - Travel(v, -a, d)
    ensures StopTime(Speed(v, -a, d), a) == StopTime(v, a) - d
  {
    Divides(v, a);
    Divides(v - a * d, a);
    assert a * (v / a - d) == v - a * d;
    SignOf(a, (v - a * d) / a - (v / a - d));
    Divides(v * v, 2.0 * a);
    Divides((v - a * d) * (v - a * d), 2.0 * a);
    assert 2.0 * a * (v * v / (2.0 * a) - (v * d - 0.5 * a * d * d)) == (v - a * d) * (v - a * d);
    SignOf(2.0 * a, (v - a * d) * (v - a * d) / (2.0 * a) - (v * v / (2.0 * a) - (v * d - 0.5 * a * d * d)));
  }

  lemma EndSpeedIs(sq: real -> real, v: real, a: real, rem: real)
    ensures EndSpeed(sq, v, a, rem) == sq(Max(0.0, Sqr(v) - Reach(0.0, a, rem)))
  {
  }

  lemma ReachShift(sqr: real, a: real, rem: real, x: real)
    ensures Reach(sqr, -a, x) - Reach(0.0, a, rem - x) == sqr - Reach(0.0, a, rem)
  {
  }

  lemma EndShift(sq: real -> real, v: real, a: real, rem: real, d: real)
    requires a > 0.0
    ensures EndSpeed(sq, Speed(v, -a, d), a, rem - Travel(v, -a, d)) == EndSpeed(sq, v, a, rem)
  {
    hide EndSpeed, Speed, Travel, Sqr, Reach;
    RampEnergy(v, -a, d);
    ReachShift(Sqr(v), a, rem, Travel(v, -a, d));
    EndSpeedIs(sq, v, a, rem);
    EndSpeedIs(sq, Speed(v, -a, d), a, rem - Travel(v, -a, d));
  }

  lemma EndTimeShift(v: real, w: real, a: real, d: real)
    requires a > 0.0
    ensures EndTime(Speed(v, -a, d), w, a) == EndTime(v, w, a) - d
  {
    Divides(v - w, a);
    Divides(v - a * d - w, a);
    SignOf(a, (v - a * d - w) / a - ((v - w) / a - d));
  }

  /** A pass cut short by the end of its time leaves the block for the next tick. */
  predicate Paused(m: Machine, r: Turn) {
    r.again && r.m.e.cur && r.m.p == m.p && r.m.e.mode == m.e.mode && r.m.e.next == m.e.next && r.left <= 0.0
  }

  lemma BrakeOn(sq: real -> real, m: Machine, d1: real, d2: real)
    requires Shape(m) && m.e.cur && d1 > 0.0 && d2 > 0.0
    requires TurnHolding(sq, m, d1) == Brake(m, m.p.q[0].path.accel, d1)
    ensures TurnHolding(sq, Brake(m, m.p.q[0].path.accel, d1).m, d2) == TurnHolding(sq, m, d1 + d2)
  {
    hide StopDistance, StopTime, EndSpeed, EndTime, Speed, Travel;
    var a, v := m.p.q[0].path.accel, m.e.v;
    var rem := m.p.q[0].path.length - m.e.s;
    StopShift(v, a, d1);
    EndShift(sq, v, a, rem, d1);
    EndTimeShift(v, EndSpeed(sq, v, a, rem), a, d1);
    TravelAdds(v, -a, d1, d2);
    SpeedAdds(v, -a, d1, d2);
    var m1 := Brake(m, a, d1).m;
    assert m.p.q[0].path.length - m1.e.s == rem - Travel(v, -a, d1);
  }

  /** A pending piece starts before the running one ends. Without it the split could matter: the first
      part would finish the block, the whole would switch first. */
  predicate PendingInside(m: Machine) {
    m.e.cur && m.e.mode.Running? && m.e.next.Some? ==> m.e.next.value.t0 <= m.e.piece.End()
  }

  lemma GoodPending(sq: real -> real, m: Machine)
    requires Good(sq, m)
    ensures PendingInside(m)
  {
    hide PlanInv, PieceOn, CanBrake, Sqr, Trapezoid.Position, Trapezoid.Velocity;
  }

  lemma RunningAdds(m: Machine, d1: real, d2: real)
    requires Shape(m) && m.e.cur && d1 > 0.0 && d2 > 0.0 && m.e.mode.Running? && PendingInside(m)
    ensures var r, w := TurnRunning(m, d1), TurnRunning(m, d1 + d2);
      || (r.again && w == Turn(r.m, r.left + d2, true) && r.left >= 0.0)
      || (Paused(m, r) && TurnRunning(r.m, d2) == w)
  {
    hide Trapezoid.Position, Trapezoid.Velocity, Piece.At, Piece.SpeedAt, Piece.End;
    var r, w := TurnRunning(m, d1), TurnRunning(m, d1 + d2);
    assert m.e.t + (d1 + d2) == (m.e.t + d1) + d2;
    if Paused(m, r) && r.m.e.t == m.e.t + d1 {
      var u := TurnRunning(r.m, d2);
      assert u.left == w.left;
      assert u.m.e.t == w.m.e.t;
      assert u.m == w.m;
      assert u == w;
    } else {
      assert w.left == r.left + d2;
      assert w.m == r.m;
    }
  }

  /** In a block: either the first part of the time ends it the same way, or the rest picks up where it left. */
  lemma BlockAdds(sq: real -> real, m: Machine, d1: real, d2: real)
    requires Shape(m) && m.e.cur && d1 > 0.0 && d2 > 0.0 && !m.e.mode.Held? && PendingInside(m)
    ensures var r, w := TurnInBlock(sq, m, d1), TurnInBlock(sq, m, d1 + d2);
      || (r.again && w == Turn(r.m, r.left + d2, true) && r.left >= 0.0)
      || (!r.again && w == r && Stays(sq, r.m, d2))
      || (Paused(m, r) && Shape(r.m) && TurnInBlock(sq, r.m, d2) == w)
  {
    hide StopDistance, StopTime, EndSpeed, EndTime, Speed, Travel, Trapezoid.Position, Trapezoid.Velocity, TurnRunning;
    if m.p.q[0].kind.Event? {
    } else if m.e.mode.Running? {
      RunningAdds(m, d1, d2);
    } else if TurnHolding(sq, m, d1) == Brake(m, m.p.q[0].path.accel, d1) {
      BrakeOn(sq, m, d1, d2);
    }
  }

  /** More time changes nothing: held, drained, or waiting at an event. */
  predicate Stays(sq: real -> real, m: Machine, d: real) {
    Shape(m) && (m.e.mode.Held? || (d > 0.0 ==> TurnOnce(sq, m, d) == Turn(m, 0.0, false)))
  }

  lemma TurnAdds(sq: real -> real, m: Machine, d1: real, d2: real)
    requires Shape(m) && d1 > 0.0 && d2 > 0.0 && !m.e.mode.Held? && PendingInside(m)
    ensures PendingInside(TurnOnce(sq, m, d1).m)
    ensures var r, w := TurnOnce(sq, m, d1), TurnOnce(sq, m, d1 + d2);
      || (r.again && w == Turn(r.m, r.left + d2, true) && r.left >= 0.0)
      || (!r.again && w == r && Stays(sq, r.m, d2))
      || (r.again && r.left <= 0.0 && Shape(r.m) && !r.m.e.mode.Held? && TurnOnce(sq, r.m, d2) == w)
  {
    hide TurnInBlock;
    TurnPending(sq, m, d1);
    if m.e.cur {
      BlockAdds(sq, m, d1, d2);
    } else if m.p.q != [] && !(m.e.mode.Holding? && m.e.v <= 0.0) {
      BlockAdds(sq, BeginBlock(m), d1, d2);
    }
  }

  lemma TurnPending(sq: real -> real, m: Machine, d: real)
    requires Shape(m) && PendingInside(m)
    ensures PendingInside(TurnOnce(sq, m, d).m)
  {
    hide StopDistance, StopTime, EndSpeed, EndTime, Speed, Travel, Trapezoid.Position, Trapezoid.Velocity, Piece.End;
  }

  /** The loop is additive in its time. */
  lemma {:induction false} AdvanceAdds(sq: real -> real, m: Machine, d1: real, d2: real)
    requires Shape(m) && d1 >= 0.0 && d2 >= 0.0 && PendingInside(m)
    ensures Advance(sq, Advance(sq, m, d1), d2) == Advance(sq, m, d1 + d2)
    decreases |m.p.q|, Pending(m), if d1 > 0.0 then 1 else 0
  {
    hide TurnOnce;
    if d1 > 0.0 && d2 > 0.0 && !m.e.mode.Held? {
      TurnAdds(sq, m, d1, d2);
      TurnShrinks(sq, m, d1);
      TurnShrinks(sq, m, d1 + d2);
      var r, w := TurnOnce(sq, m, d1), TurnOnce(sq, m, d1 + d2);
      if r.again && w == Turn(r.m, r.left + d2, true) && r.left >= 0.0 {
        AdvanceAdds(sq, r.m, r.left, d2);
      }
    }
  }

  function WithClock(m: Machine, c: real): Machine { m.(e := m.e.(clock := c)) }

  lemma HoldingClock(sq: real -> real, m: Machine, d: real, c: real)
    requires Shape(m) && m.e.cur
    ensures var r := TurnHolding(sq, m, d); TurnHolding(sq, WithClock(m, c), d) == r.(m := WithClock(r.m, c))
  {
    hide StopDistance, StopTime, EndSpeed, EndTime, Speed, Travel;
  }

  lemma RunningClock(m: Machine, d: real, c: real)
    ensures var r := TurnRunning(m, d); TurnRunning(WithClock(m, c), d) == r.(m := WithClock(r.m, c))
  {
    hide Piece.End, Piece.At, Piece.SpeedAt;
  }

  lemma BlockClock(sq: real -> real, m: Machine, d: real, c: real)
    requires Shape(m) && m.e.cur
    ensures var r := TurnInBlock(sq, m, d); TurnInBlock(sq, WithClock(m, c), d) == r.(m := WithClock(r.m, c))
  {
    hide TurnHolding, TurnRunning;
    HoldingClock(sq, m, d, c);
    RunningClock(m, d, c);
  }

  lemma TurnClock(sq: real -> real, m: Machine, d: real, c: real)
    requires Shape(m)
    ensures var r := TurnOnce(sq, m, d); TurnOnce(sq, WithClock(m, c), d) == r.(m := WithClock(r.m, c))
  {
    hide TurnInBlock;
    if m.e.cur {
      BlockClock(sq, m, d, c);
    } else if m.p.q != [] {
      assert BeginBlock(WithClock(m, c)) == WithClock(BeginBlock(m), c);
      BlockClock(sq, BeginBlock(m), d, c);
    }
  }

  /** The published clock is never read by the loop. */
  lemma {:induction false} AdvanceClock(sq: real -> real, m: Machine, d: real, c: real)
    requires Shape(m)
    ensures Advance(sq, WithClock(m, c), d) == WithClock(Advance(sq, m, d), c)
    decreases |m.p.q|, Pending(m), if d > 0.0 then 1 else 0
  {
    hide TurnOnce;
    if d > 0.0 && !m.e.mode.Held? {
      TurnClock(sq, m, d, c);
      TurnShrinks(sq, m, d);
      var turn := TurnOnce(sq, m, d);
      if turn.again { AdvanceClock(sq, turn.m, turn.left, c); }
    }
  }

  lemma HeldStays(sq: real -> real, m: Machine, d: real)
    requires Shape(m) && m.e.mode.Held?
    ensures Advance(sq, m, d) == m
  {
  }

  lemma DrainedStays(sq: real -> real, m: Machine, d: real)
    requires Shape(m) && m.p.q == [] && m.e.mode.Running? && m.e.v == 0.0 && !m.e.cur
    ensures Advance(sq, m, d) == m
  {
  }

  /** tick(d1); tick(d2) leaves the same ring, block, time, distance, speed and clock as tick(d1 + d2):
      across block ends, piece switches, events, holds and a finished abort. */
  lemma TickAdds(sq: real -> real, m: Machine, d1: real, d2: real)
    requires Shape(m) && d1 >= 0.0 && d2 >= 0.0 && PendingInside(m)
    ensures Shape(Tick(sq, m, d1)) && Tick(sq, Tick(sq, m, d1), d2) == Tick(sq, m, d1 + d2)
  {
    hide Advance;
    var r := Advance(sq, m, d1);
    AdvanceAdds(sq, m, d1, d2);
    if r.e.mode.Held? {
      HeldStays(sq, r, d2);
      if r.e.aborting { DrainedStays(sq, Settle(r), d2); } else { HeldStays(sq, Settle(r), d2); }
    } else {
      AdvanceClock(sq, r, d2, if r.e.cur then r.e.t else 0.0);
    }
  }
}
