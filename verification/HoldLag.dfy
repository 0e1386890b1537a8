/** A hold against the plan it interrupts, at equal times (lib/planner/planner/executor.h). */
module HoldLag {
  import opened Arithmetic
  import opened Trapezoids
  import opened Kinematics
  import opened Paths
  import opened LookAhead
  import opened PlanStates
  import opened ExecStates
  import opened ExecSafety
  import opened Holds

  // ─── A profile outruns its own braking curve ───────────────────────────────

  /** Over d, from speed v1 at s1 to v2 at s2: at least as far and as fast as braking at `a` all the way. */
  predicate Leads(a: real, v1: real, s1: real, v2: real, s2: real, d: real) {
    s2 - s1 >= Travel(v1, -a, d) && v2 >= Speed(v1, -a, d)
  }

  lemma TravelFaster(v1: real, v2: real, a: real, d: real)
    requires v1 <= v2 && d >= 0.0
    ensures Travel(v1, a, d) <= Travel(v2, a, d) && Speed(v1, a, d) <= Speed(v2, a, d)
  {
    Monotone(v2 - v1, v2 - v1, 0.0, d);
    assert (v2 - v1) * d == v2 * d - v1 * d;
  }

  lemma TravelHarder(v: real, a: real, b: real, d: real)
    requires a <= b && d >= 0.0
    ensures Travel(v, a, d) <= Travel(v, b, d) && Speed(v, a, d) <= Speed(v, b, d)
  {
    Monotone(b - a, b - a, 0.0, d);
    Monotone((b - a) * d, (b - a) * d, 0.0, d);
    assert (b - a) * d == b * d - a * d;
    assert (b - a) * d * d == b * d * d - a * d * d;
  }

  lemma LeadsTrans(a: real, v1: real, s1: real, v2: real, s2: real, v3: real, s3: real, d1: real, d2: real)
    requires Leads(a, v1, s1, v2, s2, d1) && Leads(a, v2, s2, v3, s3, d2) && d2 >= 0.0
    ensures Leads(a, v1, s1, v3, s3, d1 + d2)
  {
    hide Travel, Speed;
    TravelAdds(v1, -a, d1, d2);
    SpeedAdds(v1, -a, d1, d2);
    TravelFaster(Speed(v1, -a, d1), v2, -a, d2);
  }

  lemma OnePhaseLeads(tr: Trapezoid, t1: real, t2: real)
    requires Sound(tr) && 0.0 <= t1 <= t2 <= tr.Duration()
    requires t2 <= tr.tAcc || tr.tAcc <= t1
    requires t2 <= tr.tAcc + tr.tCruise || tr.tAcc + tr.tCruise <= t1
    ensures Leads(tr.accel, tr.Velocity(t1), tr.Position(t1), tr.Velocity(t2), tr.Position(t2), t2 - t1)
  {
    hide Travel, Speed, Trapezoid.Position, Trapezoid.Velocity;
    SoundParts(tr);
    var dt := t2 - t1;
    if t2 <= tr.tAcc {
      InAcc(tr, t1);
      InAcc(tr, t2);
      assert t1 + dt == t2;
      TravelAdds(tr.vEntry, tr.accel, t1, dt);
      SpeedAdds(tr.vEntry, tr.accel, t1, dt);
      TravelHarder(tr.Velocity(t1), -tr.accel, tr.accel, dt);
    } else if tr.tAcc <= t1 && t2 <= tr.tAcc + tr.tCruise {
      InCruise(tr, t1);
      InCruise(tr, t2);
      assert (t1 - tr.tAcc) + dt == t2 - tr.tAcc;
      CruiseAdds(tr.vCruise, t1 - tr.tAcc, dt);
      SpeedStays(tr.vCruise, dt);
      TravelHarder(tr.vCruise, -tr.accel, 0.0, dt);
    } else {
      InDec(tr, t1);
      InDec(tr, t2);
      var r := tr.Duration() - t2;
      assert r + dt == tr.Duration() - t1;
      TravelAdds(tr.vExit, tr.accel, r, dt);
      SpeedAdds(tr.vExit, tr.accel, r, dt);
      Backwards(tr.Velocity(t2), tr.accel, dt);
    }
  }

  lemma ProfileLeads(tr: Trapezoid, t1: real, t2: real)
    requires Sound(tr) && 0.0 <= t1 <= t2 <= tr.Duration()
    ensures Leads(tr.accel, tr.Velocity(t1), tr.Position(t1), tr.Velocity(t2), tr.Position(t2), t2 - t1)
    decreases (if t1 < tr.tAcc < t2 then 1 else 0) + (if t1 < tr.tAcc + tr.tCruise < t2 then 1 else 0)
  {
    hide Leads, Trapezoid.Position, Trapezoid.Velocity;
    SoundParts(tr);
    var b1, b2 := tr.tAcc, tr.tAcc + tr.tCruise;
    if t1 < b1 < t2 {
      ProfileLeads(tr, t1, b1);
      ProfileLeads(tr, b1, t2);
      LeadsVia(tr, t1, b1, t2);
    } else if t1 < b2 < t2 {
      ProfileLeads(tr, t1, b2);
      ProfileLeads(tr, b2, t2);
      LeadsVia(tr, t1, b2, t2);
    } else {
      OnePhaseLeads(tr, t1, t2);
    }
  }

  lemma LeadsVia(tr: Trapezoid, t1: real, m: real, t2: real)
    requires m <= t2
    requires Leads(tr.accel, tr.Velocity(t1), tr.Position(t1), tr.Velocity(m), tr.Position(m), m - t1)
    requires Leads(tr.accel, tr.Velocity(m), tr.Position(m), tr.Velocity(t2), tr.Position(t2), t2 - m)
    ensures Leads(tr.accel, tr.Velocity(t1), tr.Position(t1), tr.Velocity(t2), tr.Position(t2), t2 - t1)
  {
    hide Leads, Trapezoid.Position, Trapezoid.Velocity;
    LeadsTrans(tr.accel, tr.Velocity(t1), tr.Position(t1), tr.Velocity(m), tr.Position(m),
               tr.Velocity(t2), tr.Position(t2), m - t1, t2 - m);
    assert (m - t1) + (t2 - m) == t2 - t1;
  }

  lemma TravelPositive(v: real, a: real, d: real)
    requires v >= 0.0 && a >= 0.0 && d > 0.0 && (v > 0.0 || a > 0.0)
    ensures Travel(v, a, d) > 0.0
  {
    Monotone(v, v, 0.0, d);
    Monotone(a, a, 0.0, d);
    Monotone(a * d, a * d, 0.0, d);
    if v > 0.0 { assert v * d > 0.0; } else { assert a * d > 0.0; assert a * d * d > 0.0; }
  }

  lemma StandingStill(tr: Trapezoid)
    requires Sound(tr) && tr.vCruise == 0.0
    ensures tr.length == 0.0
  {
    SoundParts(tr);
    SignOf(tr.accel, tr.tAcc);
    SignOf(tr.accel, tr.tDec);
  }

  /** A profile reaches its length at its end, not before. */
  lemma BeforeEnd(tr: Trapezoid, t: real)
    requires Sound(tr) && tr.length > 0.0 && tr.accel > 0.0 && 0.0 <= t < tr.Duration()
    ensures tr.Position(t) < tr.length
  {
    hide Travel, Speed, Trapezoid.Position, Trapezoid.Velocity;
    SoundParts(tr);
    var b := tr.tAcc + tr.tCruise;
    if t >= b {
      InDec(tr, t);
      TravelPositive(tr.vExit, tr.accel, tr.Duration() - t);
    } else if t >= tr.tAcc {
      if tr.vCruise == 0.0 { StandingStill(tr); }
      InCruise(tr, t);
      InCruise(tr, b);
      InRange(tr, b);
      CruiseAdds(tr.vCruise, t - tr.tAcc, b - t);
      assert (t - tr.tAcc) + (b - t) == b - tr.tAcc;
      TravelPositive(tr.vCruise, 0.0, b - t);
    } else {
      InAcc(tr, t);
      InAcc(tr, tr.tAcc);
      InRange(tr, t);
      InRange(tr, tr.tAcc);
      TravelAdds(tr.vEntry, tr.accel, t, tr.tAcc - t);
      assert t + (tr.tAcc - t) == tr.tAcc;
      TravelPositive(tr.Velocity(t), tr.accel, tr.tAcc - t);
    }
  }

  // ─── The running block ─────────────────────────────────────────────────────

  /** The piece the block will end on, as far as the executor knows. */
  function LastPiece(e: ExecState): Piece { if e.next.Some? then e.next.value else e.piece }

  /** The piece that runs at block time u. */
  function PieceAt(e: ExecState, u: real): Piece {
    if e.next.Some? && u >= e.next.value.t0 then e.next.value else e.piece
  }

  /** What the block's motion needs of its pieces. */
  predicate OnTrack(b: Block, e: ExecState) {
    && PieceOn(b, e.piece) && e.piece.profile.length > 0.0 && b.path.accel > 0.0
    && e.piece.t0 <= e.t < e.piece.End() && e.s == e.piece.At(e.t) && e.v == e.piece.SpeedAt(e.t)
    && (e.next.Some? ==> Coming(b, e.piece, e.t, e.next.value))
  }

  lemma IsOnTrack(sq: real -> real, m: Machine)
    requires Good(sq, m) && m.e.cur && m.e.mode.Running? && !m.p.q[0].kind.Event?
    ensures OnTrack(m.p.q[0], m.e)
  {
    hide PlanInv, CanBrake, PieceOn, Sqr, Trapezoid.Position, Trapezoid.Velocity;
  }

  lemma PieceLeads(b: Block, x: Piece, t: real, u: real)
    requires PieceOn(b, x) && x.t0 <= t <= u <= x.End()
    ensures Leads(b.path.accel, x.SpeedAt(t), x.At(t), x.SpeedAt(u), x.At(u), u - t) && x.At(t) <= x.At(u)
  {
    hide Leads, Trapezoid.Position, Trapezoid.Velocity, Smooth, Travel, Speed, Sound;
    ProfileLeads(x.profile, t - x.t0, u - x.t0);
    ProfileSmooth(x.profile, t - x.t0, u - x.t0);
    Forwards(x.profile, t - x.t0, u - x.t0);
    assert (u - x.t0) - (t - x.t0) == u - t;
    LeadsShift(b.path.accel, x.SpeedAt(t), x.profile.Position(t - x.t0), x.SpeedAt(u), x.profile.Position(u - x.t0), u - t, x.s0);
  }

  lemma LeadsShift(a: real, v1: real, s1: real, v2: real, s2: real, d: real, shift: real)
    requires Leads(a, v1, s1, v2, s2, d)
    ensures Leads(a, v1, shift + s1, v2, shift + s2, d)
  {
  }

  lemma Forwards(tr: Trapezoid, t1: real, t2: real)
    requires Smooth(tr.accel, tr.vCruise, tr.Velocity(t1), tr.Position(t1), tr.Velocity(t2), tr.Position(t2), t2 - t1)
    ensures tr.Position(t1) <= tr.Position(t2)
  {
    hide Trapezoid.Position, Trapezoid.Velocity;
  }

  /** Between now and block time u the run outruns its braking curve, switch or no switch. */
  lemma RunLeads(b: Block, e: ExecState, u: real)
    requires OnTrack(b, e) && e.t <= u <= LastPiece(e).End() && (e.next.None? ==> u <= e.piece.End())
    ensures var x := PieceAt(e, u); Leads(b.path.accel, e.v, e.s, x.SpeedAt(u), x.At(u), u - e.t)
  {
    hide Leads, Trapezoid.Position, Trapezoid.Velocity, PieceOn;
    if e.next.Some? && u >= e.next.value.t0 {
      var x, n := e.piece, e.next.value;
      PieceLeads(b, x, e.t, n.t0);
      PieceLeads(b, n, n.t0, u);
      PieceStart(b, n);
      LeadsTrans(b.path.accel, e.v, e.s, x.SpeedAt(n.t0), x.At(n.t0), n.SpeedAt(u), n.At(u), n.t0 - e.t, u - n.t0);
      assert (n.t0 - e.t) + (u - n.t0) == u - e.t;
    } else {
      PieceLeads(b, e.piece, e.t, u);
    }
  }

  /** It never moves back. */
  lemma RunForwards(b: Block, e: ExecState, u: real, w: real)
    requires OnTrack(b, e) && e.t <= u <= w <= LastPiece(e).End()
    ensures PieceAt(e, u).At(u) <= PieceAt(e, w).At(w)
  {
    hide Leads, Trapezoid.Position, Trapezoid.Velocity, PieceOn;
    if e.next.Some? && w >= e.next.value.t0 && u < e.next.value.t0 {
      var x, n := e.piece, e.next.value;
      PieceLeads(b, x, u, n.t0);
      PieceLeads(b, n, n.t0, w);
      PieceStart(b, n);
    } else {
      PieceLeads(b, PieceAt(e, u), u, w);
    }
  }

  /** Before its end it is inside the block. */
  lemma RunInside(b: Block, e: ExecState, u: real)
    requires OnTrack(b, e) && e.t <= u < LastPiece(e).End()
    ensures PieceAt(e, u).At(u) < b.path.length
  {
    hide Trapezoid.Position, Trapezoid.Velocity, Sound;
    BeforeEnd(PieceAt(e, u).profile, u - PieceAt(e, u).t0);
  }

  /** The machine where the running block ends. */
  function Finished(m: Machine): Machine {
    FinishBlock(m.(e := m.e.(piece := LastPiece(m.e))), LastPiece(m.e).profile.vExit)
  }

  lemma Coasts(sq: real -> real, m: Machine, dt: real)
    requires Shape(m) && dt > 0.0 && m.e.cur && m.e.mode.Running? && !m.p.q[0].kind.Event?
    requires m.e.next.Some? ==> m.e.t + dt < m.e.next.value.t0
    ensures dt < m.e.piece.End() - m.e.t ==>
      var u, r := m.e.t + dt, Advance(sq, m, dt);
      r.p == m.p && r.e.cur && r.e.s == m.e.piece.At(u) && r.e.v == m.e.piece.SpeedAt(u)
    ensures dt >= m.e.piece.End() - m.e.t ==>
      Advance(sq, m, dt) == Advance(sq, FinishBlock(m, m.e.piece.profile.vExit), dt - (m.e.piece.End() - m.e.t))
  {
    hide Trapezoid.Position, Trapezoid.Velocity;
    TurnShrinks(sq, m, dt);
  }

  /** Over to the pending piece. */
  function Switched(m: Machine): Machine
    requires m.e.next.Some?
  {
    var x := m.e.next.value;
    m.(e := m.e.(t := x.t0, piece := x, next := None, s := x.s0, v := x.profile.vEntry))
  }

  lemma Switches(sq: real -> real, m: Machine, dt: real)
    requires Shape(m) && dt > 0.0 && m.e.cur && m.e.mode.Running? && !m.p.q[0].kind.Event?
    requires m.e.next.Some? && m.e.t < m.e.next.value.t0 <= m.e.t + dt
    ensures Shape(Switched(m)) && Advance(sq, m, dt) == Advance(sq, Switched(m), dt - (m.e.next.value.t0 - m.e.t))
  {
    hide Trapezoid.Position, Trapezoid.Velocity;
    TurnShrinks(sq, m, dt);
  }

  /** A tick either leaves the machine in the running block, or ends it and goes on. */
  lemma RunThrough(sq: real -> real, m: Machine, dt: real)
    requires Good(sq, m) && m.e.cur && m.e.mode.Running? && !m.p.q[0].kind.Event? && Budget(m, dt) && dt > 0.0
    ensures var left := LastPiece(m.e).End() - m.e.t;
      && (dt < left ==>
            var u, r := m.e.t + dt, Advance(sq, m, dt);
            && r.p == m.p && r.e.cur
            && r.e.s == PieceAt(m.e, u).At(u) && r.e.v == PieceAt(m.e, u).SpeedAt(u))
      && (dt >= left ==> Shape(Finished(m)) && Advance(sq, m, dt) == Advance(sq, Finished(m), dt - left))
  {
    hide PlanInv, Trapezoid.Position, Trapezoid.Velocity, PieceOn, CanBrake, Sqr, Reach;
    if m.e.next.Some? && m.e.t + dt >= m.e.next.value.t0 {
      var x := m.e.next.value;
      Switches(sq, m, dt);
      var d := dt - (x.t0 - m.e.t);
      assert PieceAt(m.e, m.e.t + dt) == x && x.t0 + d == m.e.t + dt;
      AtStart(m.p.q[0], x);
      if d > 0.0 { Coasts(sq, Switched(m), d); }
    } else {
      Coasts(sq, m, dt);
      if m.e.next.Some? {
        AtStart(m.p.q[0], m.e.next.value);
      } else {
        assert m.(e := m.e.(piece := LastPiece(m.e))) == m;
      }
    }
  }

  lemma AtStart(b: Block, x: Piece)
    requires PieceOn(b, x)
    ensures x.At(x.t0) == x.s0 && x.SpeedAt(x.t0) == x.profile.vEntry
    ensures x.t0 <= x.End() && (x.profile.length > 0.0 ==> x.t0 < x.End())
  {
    PieceStart(b, x);
  }

  /** No offer is left untaken at the end of a tick that ends the block. */
  lemma FinishedGood(sq: real -> real, m: Machine, dt: real)
    requires IsSqrt(sq) && Good(sq, m) && m.e.cur && m.e.mode.Running? && !m.p.q[0].kind.Event? && Budget(m, dt)
    requires dt >= LastPiece(m.e).End() - m.e.t
    ensures Shape(m) && Good(sq, Finished(m)) && Finished(m).p == Release(m.p) && m.p.staged.None?
  {
    hide PlanInv, Trapezoid.Position, Trapezoid.Velocity, PieceOn, CanBrake, Sqr, Reach, Bounded;
    GoodRoute(sq, m);
    var a, vCap := SomeBound(m.p.q);
    PendingParts(sq, m, a, vCap);
    if m.e.next.Some? {
      var x := m.e.next.value;
      AtStart(m.p.q[0], x);
      SwitchKeeps(sq, m, a, vCap);
      FinishKeeps(sq, Switched(m), a, vCap);
    } else {
      FinishKeeps(sq, m, a, vCap);
    }
  }

  // ─── The hold stays behind ─────────────────────────────────────────────────

  /** A tick never lengthens what is left to run. */
  lemma NeverBack(sq: real -> real, m: Machine, dt: real)
    requires IsSqrt(sq) && Good(sq, m) && Shape(m) && Budget(m, dt)
    ensures Remaining(Advance(sq, m, dt)) <= Remaining(m)
  {
    hide Advance, PlanInv, ExecInv, Remaining, Budget, Bounded;
    GoodRoute(sq, m);
    var a, vCap := SomeBound(m.p.q);
    AdvanceKeeps(sq, m, dt, a, vCap);
  }

  /** The two machines compared: one in a hold, one running, on the same queue. */
  predicate Paired(sq: real -> real, h: Machine, r: Machine) {
    && Shape(h) && Shape(r) && Good(sq, h) && Good(sq, r)
    && h.p == r.p && h.e.mode.Holding? && r.e.mode.Running? && h.e.cur == r.e.cur
  }

  /** Where braking for d, or to a stop, leaves a hold that stays in its block. */
  function BrakingTime(v: real, a: real, dt: real): real
    requires a > 0.0
  {
    if StopTime(v, a) <= dt then StopTime(v, a) else dt
  }

  predicate Stays(sq: real -> real, h: Machine, dt: real)
    requires Shape(h) && h.e.cur
  {
    var a, rem := h.p.q[0].path.accel, h.p.q[0].path.length - h.e.s;
    StopDistance(h.e.v, a) <= rem || EndTime(h.e.v, EndSpeed(sq, h.e.v, a, rem), a) > dt
  }

  lemma HoldStaysAt(sq: real -> real, h: Machine, dt: real)
    requires IsSqrt(sq) && Good(sq, h) && Shape(h) && h.e.cur && h.e.mode.Holding? && !h.p.q[0].kind.Event? && dt > 0.0
    requires Stays(sq, h, dt)
    ensures var b, x := h.p.q[0], Advance(sq, h, dt);
      var d := if StopDistance(h.e.v, b.path.accel) <= b.path.length - h.e.s
               then BrakingTime(h.e.v, b.path.accel, dt) else dt;
      && x.p == h.p && x.e.cur && 0.0 <= d <= dt && x.e.s == h.e.s + Travel(h.e.v, -b.path.accel, d)
      && x.e.s <= b.path.length
  {
    hide PlanInv, ExecInv, StopDistance, StopTime, EndSpeed, EndTime, Travel, Speed, CanBrake, Bounded;
    GoodShape(sq, h);
    StopFacts(h.e.v, h.p.q[0].path.accel);
    TurnShrinks(sq, h, dt);
    GoodRoute(sq, h);
    var a, vCap := SomeBound(h.p.q);
    BlockTurnKeeps(sq, h, dt, a, vCap);
    TurnOkGood(sq, h, TurnInBlock(sq, h, dt), dt, a, vCap);
    GoodShape(sq, TurnInBlock(sq, h, dt).m);
  }

  lemma HoldLeavesAt(sq: real -> real, h: Machine, dt: real)
    requires IsSqrt(sq) && Good(sq, h) && Shape(h) && h.e.cur && h.e.mode.Holding? && !h.p.q[0].kind.Event? && dt > 0.0
    requires !Stays(sq, h, dt)
    ensures var a, rem := h.p.q[0].path.accel, h.p.q[0].path.length - h.e.s;
      var w := EndSpeed(sq, h.e.v, a, rem);
      var t := EndTime(h.e.v, w, a);
      && 0.0 <= t <= dt && Travel(h.e.v, -a, t) == rem
      && Shape(FinishBlock(h, w)) && Good(sq, FinishBlock(h, w))
      && Advance(sq, h, dt) == Advance(sq, FinishBlock(h, w), dt - t)
  {
    hide PlanInv, ExecInv, StopDistance, StopTime, EndSpeed, EndTime, Travel, Speed, CanBrake, Bounded;
    GoodShape(sq, h);
    TurnShrinks(sq, h, dt);
    GoodRoute(sq, h);
    EndFacts(sq, h.e.v, h.p.q[0].path.accel, h.p.q[0].path.length - h.e.s);
    var a, vCap := SomeBound(h.p.q);
    BlockTurnKeeps(sq, h, dt, a, vCap);
    TurnOkGood(sq, h, TurnInBlock(sq, h, dt), dt, a, vCap);
  }

  /** Same block, same place, the hold no faster and with no more time: both lemmas below start from this. */
  predicate InBlock(sq: real -> real, h: Machine, r: Machine, dh: real, dr: real) {
    && Paired(sq, h, r) && h.e.cur && !h.p.q[0].kind.Event? && h.e.s == r.e.s && h.e.v <= r.e.v
    && 0.0 < dh <= dr && Budget(r, dr)
  }

  /** After d of both, braking has gone no further than the run. */
  lemma RunAhead(sq: real -> real, h: Machine, r: Machine, d: real)
    requires Paired(sq, h, r) && h.e.cur && !h.p.q[0].kind.Event? && h.e.s == r.e.s && h.e.v <= r.e.v && d >= 0.0
    requires r.e.t + d <= LastPiece(r.e).End()
    ensures h.e.s + Travel(h.e.v, -h.p.q[0].path.accel, d) <= PieceAt(r.e, r.e.t + d).At(r.e.t + d)
  {
    hide Good, Travel, Speed, Trapezoid.Position, Trapezoid.Velocity, PieceOn;
    var b := r.p.q[0];
    IsOnTrack(sq, r);
    RunLeads(b, r.e, r.e.t + d);
    TravelFaster(h.e.v, r.e.v, -b.path.accel, d);
    assert r.e.t + d - r.e.t == d;
  }

  lemma HoldStaysLag(sq: real -> real, h: Machine, r: Machine, dh: real, dr: real)
    requires IsSqrt(sq) && InBlock(sq, h, r, dh, dr) && Stays(sq, h, dh)
    ensures Remaining(Advance(sq, h, dh)) >= Remaining(Advance(sq, r, dr))
  {
    hide Good, Travel, Advance, Trapezoid.Position, Trapezoid.Velocity, Stays, StopDistance, BrakingTime, TotalLength,
         Budget, OnTrack;
    var b, t := h.p.q[0], r.e.t;
    var d := if StopDistance(h.e.v, b.path.accel) <= b.path.length - h.e.s
             then BrakingTime(h.e.v, b.path.accel, dh) else dh;
    HoldStaysAt(sq, h, dh);
    RunThrough(sq, r, dr);
    if dr < LastPiece(r.e).End() - t {
      RunAhead(sq, h, r, d);
      IsOnTrack(sq, r);
      RunForwards(b, r.e, t + d, t + dr);
    } else {
      FinishedGood(sq, r, dr);
      FinishedLeft(r, dr - (LastPiece(r.e).End() - t));
      NeverBack(sq, Finished(r), dr - (LastPiece(r.e).End() - t));
    }
  }

  lemma FinishedLeft(m: Machine, d: real)
    requires m.p.q != [] && m.p.claimed && d >= 0.0
    ensures Remaining(Finished(m)) == TotalLength(m.p.q) - m.p.q[0].path.length
    ensures Budget(Finished(m), d) && !Finished(m).e.cur
  {
  }

  lemma RunLeavesFirst(sq: real -> real, h: Machine, r: Machine, dh: real, dr: real)
    requires IsSqrt(sq) && InBlock(sq, h, r, dh, dr) && !Stays(sq, h, dh)
    ensures var a := h.p.q[0].path.accel;
      LastPiece(r.e).End() - r.e.t <= EndTime(h.e.v, EndSpeed(sq, h.e.v, a, h.p.q[0].path.length - h.e.s), a)
  {
    hide Good, Travel, Advance, Trapezoid.Position, Trapezoid.Velocity, Stays, EndTime, EndSpeed, Budget, OnTrack;
    var a := h.p.q[0].path.accel;
    var d := EndTime(h.e.v, EndSpeed(sq, h.e.v, a, h.p.q[0].path.length - h.e.s), a);
    HoldLeavesAt(sq, h, dh);
    if LastPiece(r.e).End() - r.e.t > d {
      RunAhead(sq, h, r, d);
      IsOnTrack(sq, r);
      RunInside(r.p.q[0], r.e, r.e.t + d);
      assert false;
    }
  }

  lemma {:induction false} LagInBlock(sq: real -> real, h: Machine, r: Machine, dh: real, dr: real)
    requires IsSqrt(sq) && InBlock(sq, h, r, dh, dr)
    ensures Remaining(Advance(sq, h, dh)) >= Remaining(Advance(sq, r, dr))
    decreases |h.p.q|, 0
  {
    hide Good, Travel, Advance, Stays, EndTime, EndSpeed, Remaining, Budget, LastPiece;
    if Stays(sq, h, dh) {
      HoldStaysLag(sq, h, r, dh, dr);
    } else {
      var a := h.p.q[0].path.accel;
      var w := EndSpeed(sq, h.e.v, a, h.p.q[0].path.length - h.e.s);
      var th, tr := EndTime(h.e.v, w, a), LastPiece(r.e).End() - r.e.t;
      HoldLeavesAt(sq, h, dh);
      RunLeavesFirst(sq, h, r, dh, dr);
      RunThrough(sq, r, dr);
      FinishedGood(sq, r, dr);
      LagBetween(sq, FinishBlock(h, w), Finished(r), dh - th, dr - tr);
    }
  }

  lemma HoldRests(sq: real -> real, h: Machine, dh: real)
    requires Shape(h) && h.e.mode.Holding? && !h.e.cur && (dh <= 0.0 || h.e.v <= 0.0 || h.p.q == [])
    ensures Remaining(Advance(sq, h, dh)) == Remaining(h)
  {
    if dh > 0.0 { TurnShrinks(sq, h, dh); }
  }

  lemma BeginsWith(sq: real -> real, m: Machine, dt: real)
    requires Shape(m) && !m.e.cur && m.p.q != [] && !m.e.mode.Held? && dt > 0.0 && (m.e.mode.Holding? ==> m.e.v > 0.0)
    ensures Shape(BeginBlock(m)) && Advance(sq, m, dt) == Advance(sq, BeginBlock(m), dt)
  {
    hide TurnInBlock;
    TurnShrinks(sq, m, dt);
    TurnShrinks(sq, BeginBlock(m), dt);
  }

  /** Between blocks, the hold with no more time left. */
  lemma {:induction false} LagBetween(sq: real -> real, h: Machine, r: Machine, dh: real, dr: real)
    requires IsSqrt(sq) && Paired(sq, h, r) && !h.e.cur && 0.0 <= dh <= dr
    ensures Remaining(Advance(sq, h, dh)) >= Remaining(Advance(sq, r, dr))
    decreases |h.p.q|, 1
  {
    hide Advance, PlanInv, AtJoin, Sqr;
    if dh <= 0.0 || h.e.v <= 0.0 || h.p.q == [] {
      HoldRests(sq, h, dh);
      NeverBack(sq, r, dr);
    } else {
      BeginsWith(sq, h, dh);
      BeginsWith(sq, r, dr);
      BeginKeeps(sq, h, 0.0, 0.0);
      BeginKeeps(sq, r, 0.0, 0.0);
      LagInBlock(sq, BeginBlock(h), BeginBlock(r), dh, dr);
    }
  }

  /** Whenever a hold begins, it is at every later instant no further along the path than the run would have been. */
  lemma HoldLags(sq: real -> real, m: Machine, dt: real)
    requires IsSqrt(sq) && Shape(m) && Good(sq, m) && m.e.mode.Running? && Budget(m, dt)
    requires Good(sq, m.(e := HoldExec(m.e)))
    ensures var h := m.(e := HoldExec(m.e)); Shape(h) && Remaining(Advance(sq, h, dt)) >= Remaining(Advance(sq, m, dt))
  {
    hide Advance, PlanInv, ExecInv;
    var h := m.(e := HoldExec(m.e));
    if dt <= 0.0 {
      StandsStill(sq, h, dt);
      NeverBack(sq, m, dt);
    } else if !m.e.cur {
      LagBetween(sq, h, m, dt, dt);
    } else if m.p.q[0].kind.Event? {
      EventHolds(sq, h, dt);
      NeverBack(sq, m, dt);
    } else {
      LagInBlock(sq, h, m, dt, dt);
    }
  }

  lemma StandsStill(sq: real -> real, h: Machine, dt: real)
    requires Shape(h) && dt <= 0.0
    ensures Advance(sq, h, dt) == h
  {
  }

  /** At an event a hold ends there, or past it at rest. */
  lemma EventHolds(sq: real -> real, h: Machine, dt: real)
    requires Good(sq, h) && Shape(h) && h.e.mode.Holding? && h.e.cur && h.p.q[0].kind.Event? && dt > 0.0
    ensures Remaining(Advance(sq, h, dt)) == Remaining(h)
  {
    hide PlanInv, OnPiece, CanBrake;
    TurnShrinks(sq, h, dt);
    GoodRoute(sq, h);
    EventLength(h);
    if h.e.eventDone { HoldRests(sq, FinishBlock(h, 0.0), dt); }
  }

  // ─── Where the accelerations ahead do not rise ─────────────────────────────

  /** Up to the first event no block accelerates harder than the one before, nor the first harder than `a`. */
  predicate Easing(q: seq<Block>, a: real)
    decreases |q|
  {
    q == [] || q[0].kind.Event? || (q[0].path.accel <= a && Easing(q[1..], q[0].path.accel))
  }

  /** What is left of the run's speed after braking at `a` for d, as a bound. */
  predicate Brisk(v: real, a: real, d: real, w: real) { w >= v - Prod(a, d) }

  lemma BriskTrans(v: real, a: real, d: real, w: real, b: real, e: real, x: real)
    requires Brisk(v, a, d, w) && Brisk(w, b, e, x) && b <= a && e >= 0.0
    ensures Brisk(v, a, d + e, x)
  {
    Monotone(a - b, a - b, 0.0, e);
    assert (a - b) * e == a * e - b * e && a * (d + e) == a * d + a * e;
  }

  lemma SpeedBrisk(v: real, a: real, b: real, d: real)
    requires 0.0 <= a <= b && d >= 0.0
    ensures Brisk(v, b, d, Speed(v, -a, d))
  {
    Monotone(b - a, b - a, 0.0, d);
    assert (b - a) * d == b * d - a * d;
  }

  lemma EndLeads(b: Block, e: ExecState)
    requires OnTrack(b, e)
    ensures var x, left := LastPiece(e), LastPiece(e).End() - e.t;
      left > 0.0 && x.profile.vExit >= Speed(e.v, -b.path.accel, left)
  {
    hide Travel, Speed, Trapezoid.Position, Trapezoid.Velocity, PieceOn;
    var x := LastPiece(e);
    AtStart(b, x);
    RunLeads(b, e, x.End());
    PieceStart(b, x);
  }

  /** A run sheds speed no faster than the block it is in may brake. */
  lemma {:induction false} RunBrisk(sq: real -> real, m: Machine, dt: real, a: real)
    requires IsSqrt(sq) && Good(sq, m) && Shape(m) && m.e.mode.Running? && Budget(m, dt) && Easing(m.p.q, a) && a >= 0.0
    requires m.e.cur && m.p.q[0].kind.Event? ==> !m.e.eventDone
    ensures Brisk(m.e.v, a, dt, Advance(sq, m, dt).e.v)
    decreases |m.p.q|, if m.e.cur then 0 else 1
  {
    hide Advance, PlanInv, AtJoin, Sqr, Travel, Speed, Brisk, Trapezoid.Position, Trapezoid.Velocity, PieceOn, Prod, OnPiece;
    if dt <= 0.0 {
      StandsStill(sq, m, dt);
      BriskNone(m.e.v, a, dt);
    } else if m.p.q == [] || m.p.q[0].kind.Event? {
      RestsAt(sq, m, dt);
      BriskStill(a, dt);
    } else if !m.e.cur {
      BeginsWith(sq, m, dt);
      BeginKeeps(sq, m, 0.0, 0.0);
      RunBrisk(sq, BeginBlock(m), dt, a);
    } else {
      BlockBrisk(sq, m, dt, a);
    }
  }

  lemma BriskNone(v: real, a: real, d: real)
    requires d == 0.0
    ensures Brisk(v, a, d, v)
  {
  }

  lemma BriskStill(a: real, d: real)
    requires a >= 0.0 && d >= 0.0
    ensures Brisk(0.0, a, d, 0.0)
  {
    Monotone(a, a, 0.0, d);
  }

  /** At the end of the queue and at an event the machine is, and stays, at rest. */
  lemma RestsAt(sq: real -> real, m: Machine, dt: real)
    requires IsSqrt(sq) && Good(sq, m) && Shape(m) && m.e.mode.Running? && dt > 0.0
    requires m.p.q == [] || (m.p.q[0].kind.Event? && (m.e.cur ==> !m.e.eventDone))
    ensures m.e.v == 0.0 && Advance(sq, m, dt).e.v == 0.0
  {
    hide PlanInv, CanBrake, OnPiece, Sqr, Bounded, AtJoin;
    TurnShrinks(sq, m, dt);
    if m.p.q == [] {
      EmptyAtRest(sq, m);
    } else if !m.e.cur {
      BeginKeeps(sq, m, 0.0, 0.0);
    }
  }

  lemma EmptyAtRest(sq: real -> real, m: Machine)
    requires Good(sq, m) && m.p.q == [] && !m.e.cur && m.e.mode.Running?
    ensures m.e.v == 0.0
  {
    assert m.p.Unclaimed() == [];
    ZeroSpeed(m.e.v, m.p.pinned);
  }

  lemma BlockBrisk(sq: real -> real, m: Machine, dt: real, a: real)
    requires IsSqrt(sq) && Good(sq, m) && Shape(m) && m.e.mode.Running? && Budget(m, dt) && Easing(m.p.q, a) && a >= 0.0
    requires m.e.cur && !m.p.q[0].kind.Event? && dt > 0.0
    ensures Brisk(m.e.v, a, dt, Advance(sq, m, dt).e.v)
    decreases |m.p.q|, 0, 0
  {
    hide Advance, PlanInv, AtJoin, Sqr, Travel, Speed, Brisk, Trapezoid.Position, Trapezoid.Velocity, PieceOn, Prod, OnTrack;
    var b, left := m.p.q[0], LastPiece(m.e).End() - m.e.t;
    IsOnTrack(sq, m);
    TrackAccel(b, m.e);
    if dt < left {
      RunLeads(b, m.e, m.e.t + dt);
      RunThrough(sq, m, dt);
      SpeedBrisk(m.e.v, b.path.accel, a, dt);
      assert m.e.t + dt - m.e.t == dt;
      BriskMore(m.e.v, a, dt, Speed(m.e.v, -b.path.accel, dt), Advance(sq, m, dt).e.v);
    } else {
      EndLeads(b, m.e);
      RunThrough(sq, m, dt);
      FinishedGood(sq, m, dt);
      FinishedLeft(m, dt - left);
      SpeedBrisk(m.e.v, b.path.accel, a, left);
      BriskMore(m.e.v, a, left, Speed(m.e.v, -b.path.accel, left), Finished(m).e.v);
      RunBrisk(sq, Finished(m), dt - left, b.path.accel);
      BriskTrans(m.e.v, a, left, Finished(m).e.v, b.path.accel, dt - left, Advance(sq, m, dt).e.v);
      assert left + (dt - left) == dt;
    }
  }

  lemma TrackAccel(b: Block, e: ExecState)
    requires OnTrack(b, e)
    ensures b.path.accel > 0.0 && e.t < LastPiece(e).End()
  {
    hide Trapezoid.Position, Trapezoid.Velocity, PieceOn;
    AtStart(b, LastPiece(e));
  }

  lemma BriskMore(v: real, a: real, d: real, w: real, x: real)
    requires Brisk(v, a, d, w) && x >= w
    ensures Brisk(v, a, d, x)
  {
  }

  /** The hold's speed, against the run's less what `a` sheds in the time the run is ahead. */
  predicate Slower(vh: real, vr: real, a: real, lead: real) { vh <= vr - Prod(a, lead) }

  lemma SlowerEnds(vh: real, vr: real, a: real, dh: real, dr: real, w: real, x: real)
    requires Slower(vh, vr, a, dr - dh) && Brisk(vr, a, dr, x) && w <= vh - Prod(a, dh)
    ensures w <= x
  {
    assert a * (dr - dh) == a * dr - a * dh;
  }

  lemma SlowerEases(vh: real, vr: real, c: real, a: real, lead: real)
    requires Slower(vh, vr, c, lead) && a <= c && lead >= 0.0
    ensures Slower(vh, vr, a, lead)
  {
    Monotone(c - a, c - a, 0.0, lead);
    assert (c - a) * lead == c * lead - a * lead;
  }

  lemma SlowerOn(vh: real, vr: real, a: real, dh: real, dr: real, th: real, tr: real, w: real, x: real)
    requires Slower(vh, vr, a, dr - dh) && w == Speed(vh, -a, th) && x >= Speed(vr, -a, tr)
    ensures Slower(w, x, a, (dr - tr) - (dh - th))
  {
    assert a * ((dr - tr) - (dh - th)) == a * (dr - dh) - a * tr + a * th;
  }

  lemma StaysSpeed(sq: real -> real, h: Machine, dt: real)
    requires IsSqrt(sq) && Good(sq, h) && Shape(h) && h.e.cur && h.e.mode.Holding? && !h.p.q[0].kind.Event? && dt > 0.0
    requires Stays(sq, h, dt)
    ensures var v := Advance(sq, h, dt).e.v; v <= 0.0 || v == Speed(h.e.v, -h.p.q[0].path.accel, dt)
  {
    hide PlanInv, ExecInv, StopDistance, StopTime, EndSpeed, EndTime, Travel, Speed, CanBrake;
    TurnShrinks(sq, h, dt);
  }

  lemma StaysAtSpeed(sq: real -> real, m: Machine, dt: real)
    requires IsSqrt(sq) && Good(sq, m) && Shape(m) && m.e.cur && m.e.mode.Holding? && !m.p.q[0].kind.Event?
    requires dt > 0.0 && Stays(sq, m, dt)
    ensures var a := m.p.q[0].path.accel;
      Advance(sq, m, dt).e.v == Speed(m.e.v, -a, dt) || (StopTime(m.e.v, a) <= dt && m.e.v >= 0.0)
  {
    hide PlanInv, StopDistance, StopTime, EndSpeed, EndTime, Travel, Speed, CanBrake;
    TurnShrinks(sq, m, dt);
  }

  lemma SpeedIs(v: real, a: real, d: real)
    ensures Speed(v, -a, d) == v - Prod(a, d)
  {
  }

  lemma NotNegative(sq: real -> real, m: Machine, dt: real)
    requires IsSqrt(sq) && Good(sq, m) && Shape(m) && Budget(m, dt)
    ensures Advance(sq, m, dt).e.v >= 0.0
  {
    hide Advance, PlanInv, ExecInv, Budget, Bounded;
    GoodRoute(sq, m);
    var a, vCap := SomeBound(m.p.q);
    AdvanceKeeps(sq, m, dt, a, vCap);
    GoodShape(sq, Advance(sq, m, dt));
  }

  lemma EasingHead(q: seq<Block>, c: real)
    requires Easing(q, c) && q != [] && !q[0].kind.Event?
    ensures q[0].path.accel <= c && Easing(q, q[0].path.accel) && Easing(q[1..], q[0].path.accel)
  {
  }

  lemma {:induction false} SlowerInBlock(sq: real -> real, h: Machine, r: Machine, dh: real, dr: real)
    requires IsSqrt(sq) && InBlock(sq, h, r, dh, dr) && Slower(h.e.v, r.e.v, h.p.q[0].path.accel, dr - dh)
    requires Easing(h.p.q, h.p.q[0].path.accel)
    ensures Advance(sq, h, dh).e.v <= Advance(sq, r, dr).e.v
    decreases |h.p.q|, 0
  {
    hide Good, Travel, Advance, Stays, EndTime, EndSpeed, Budget, LastPiece, Speed, Slower, Brisk, Prod, Easing, OnTrack;
    var a := h.p.q[0].path.accel;
    IsOnTrack(sq, r);
    TrackAccel(h.p.q[0], r.e);
    if Stays(sq, h, dh) {
      StaysSpeed(sq, h, dh);
      NotNegative(sq, r, dr);
      BlockBrisk(sq, r, dr, a);
      SpeedIs(h.e.v, a, dh);
      if Advance(sq, h, dh).e.v > 0.0 {
        SlowerEnds(h.e.v, r.e.v, a, dh, dr, Advance(sq, h, dh).e.v, Advance(sq, r, dr).e.v);
      }
    } else {
      var w := EndSpeed(sq, h.e.v, a, h.p.q[0].path.length - h.e.s);
      var th, tr := EndTime(h.e.v, w, a), LastPiece(r.e).End() - r.e.t;
      HoldLeavesAt(sq, h, dh);
      LeavesSpeed(h.e.v, w, a);
      RunLeavesFirst(sq, h, r, dh, dr);
      RunThrough(sq, r, dr);
      FinishedGood(sq, r, dr);
      EndLeads(h.p.q[0], r.e);
      SlowerOn(h.e.v, r.e.v, a, dh, dr, th, tr, w, Finished(r).e.v);
      EasingHead(h.p.q, a);
      SlowerBetween(sq, FinishBlock(h, w), Finished(r), dh - th, dr - tr, a);
    }
  }

  lemma LeavesSpeed(v: real, w: real, a: real)
    requires a > 0.0
    ensures Speed(v, -a, EndTime(v, w, a)) == w
  {
    Divides(v - w, a);
  }

  lemma RestsSlower(sq: real -> real, h: Machine, dh: real)
    requires Shape(h) && h.e.mode.Holding? && !h.e.cur && (dh <= 0.0 || h.e.v <= 0.0 || h.p.q == [])
    ensures var v := Advance(sq, h, dh).e.v; v <= 0.0 || (dh <= 0.0 && v == h.e.v)
  {
    if dh > 0.0 { TurnShrinks(sq, h, dh); }
  }

  lemma {:induction false} SlowerBetween(sq: real -> real, h: Machine, r: Machine, dh: real, dr: real, c: real)
    requires IsSqrt(sq) && Paired(sq, h, r) && !h.e.cur && 0.0 <= dh <= dr && c >= 0.0
    requires Slower(h.e.v, r.e.v, c, dr - dh) && Easing(h.p.q, c)
    ensures Advance(sq, h, dh).e.v <= Advance(sq, r, dr).e.v
    decreases |h.p.q|, 1
  {
    hide Advance, PlanInv, AtJoin, Sqr, Slower, Brisk, Prod, Easing;
    if dh <= 0.0 || h.e.v <= 0.0 || h.p.q == [] {
      RestsSlower(sq, h, dh);
      NotNegative(sq, r, dr);
      RunBrisk(sq, r, dr, c);
      if Advance(sq, h, dh).e.v > 0.0 {
        ProdZero(c, dh);
        SlowerEnds(h.e.v, r.e.v, c, dh, dr, h.e.v, Advance(sq, r, dr).e.v);
      }
    } else {
      BeginsWith(sq, h, dh);
      BeginsWith(sq, r, dr);
      BeginKeeps(sq, h, 0.0, 0.0);
      BeginKeeps(sq, r, 0.0, 0.0);
      EasingHead(h.p.q, c);
      SlowerEases(h.e.v, r.e.v, c, h.p.q[0].path.accel, dr - dh);
      SlowerInBlock(sq, BeginBlock(h), BeginBlock(r), dh, dr);
    }
  }

  lemma ProdZero(a: real, d: real)
    requires d == 0.0
    ensures Prod(a, d) == 0.0
  {
  }

  /** Where the accelerations up to the next event do not rise, a hold is at no later instant faster than the run would
      have been: it is at rest by the time the run first is. */
  lemma HoldSlows(sq: real -> real, m: Machine, dt: real, a: real)
    requires IsSqrt(sq) && Shape(m) && Good(sq, m) && m.e.mode.Running? && Budget(m, dt) && Easing(m.p.q, a) && a >= 0.0
    requires Good(sq, m.(e := HoldExec(m.e)))
    ensures var h := m.(e := HoldExec(m.e)); Shape(h) && Advance(sq, h, dt).e.v <= Advance(sq, m, dt).e.v
  {
    hide Advance, PlanInv, ExecInv, Easing, Slower, Prod;
    var h := m.(e := HoldExec(m.e));
    NoLead(m.e.v, a, dt);
    if dt <= 0.0 {
      StandsStill(sq, h, dt);
      StandsStill(sq, m, dt);
    } else if !m.e.cur {
      SlowerBetween(sq, h, m, dt, dt, a);
    } else if m.p.q[0].kind.Event? {
      EventStops(sq, h, dt);
      NotNegative(sq, m, dt);
    } else {
      EasingHead(m.p.q, a);
      NoLead(m.e.v, m.p.q[0].path.accel, dt);
      SlowerInBlock(sq, h, m, dt, dt);
    }
  }

  lemma NoLead(v: real, a: real, d: real)
    ensures Slower(v, v, a, d - d)
  {
  }

  lemma EventStops(sq: real -> real, h: Machine, dt: real)
    requires Good(sq, h) && Shape(h) && h.e.mode.Holding? && h.e.cur && h.p.q[0].kind.Event? && dt > 0.0
    ensures Advance(sq, h, dt).e.v <= 0.0
  {
    hide PlanInv, OnPiece, CanBrake;
    TurnShrinks(sq, h, dt);
    if h.e.eventDone { RestsSlower(sq, FinishBlock(h, 0.0), dt); }
  }
}
