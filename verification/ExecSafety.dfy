/** What every pass of the executor's loop keeps, and how far it moves the machine. */
module ExecSafety {
  import opened Arithmetic
  import opened Trapezoids
  import opened Kinematics
  import opened Paths
  import opened LookAhead
  import opened PlanStates
  import opened ExecStates

  /** A piece the running one hands over to, not yet reached. */
  predicate Coming(b: Block, running: Piece, t: real, x: Piece) {
    PieceOn(b, x) && x.profile.length > 0.0 && TakesOver(running, x) && t < x.t0
  }

  /** The executor runs its piece, and what it holds, is offered or has adopted is what the planner planned from. */
  predicate OnPiece(m: Machine)
    requires m.p.q != []
  {
    var p, e, b := m.p, m.e, m.p.q[0];
    && PieceOn(b, e.piece) && e.piece.profile.length > 0.0
    && e.piece.t0 <= e.t < e.piece.End() && e.s == e.piece.At(e.t) && e.v == e.piece.SpeedAt(e.t)
    && Sqr(e.piece.profile.vExit) <= p.pinned
    && (e.next.Some? ==> Coming(b, e.piece, e.t, e.next.value))
    && (p.staged.Some? ==> Coming(b, e.piece, e.t, p.staged.value))
    && (e.next.Some? && p.staged.Some? ==> SameStart(e.next.value, p.staged.value))
    && (if p.staged.Some? then true
        else if e.next.Some? then p.offer == e.next
        else e.piece == p.Effective())
  }

  /** A raise planned past an offer's switch was planned after the consumer passed it. */
  predicate PlannedLate(m: Machine) {
    m.p.plan.Some? && m.p.plan.value.Ready? && m.p.plan.value.raise.Some? && m.p.offer.Some? ==>
      SameStart(m.p.offer.value, m.p.plan.value.raise.value.piece) || m.p.offer.value.t0 <= m.e.t
  }

  /** Braking from here cannot pass the block's end above its committed exit. */
  predicate CanBrake(b: Block, e: ExecState) {
    && 0.0 <= e.s <= b.path.length
    && Sqr(e.v) <= Reach(b.exitSqr, b.path.accel, b.path.length - e.s)
    && Sqr(e.v) <= b.path.vMaxSqr
  }

  /** Between blocks: at the speed the next block enters at, or below it in a hold. */
  predicate AtJoin(m: Machine) {
    if m.e.mode.Running? then Sqr(m.e.v) == m.p.pinned else Sqr(m.e.v) <= m.p.pinned
  }

  predicate ExecInv(m: Machine) {
    && Shape(m) && m.e.v >= 0.0 && m.e.late == 0 && m.e.t >= 0.0 && m.e.s >= 0.0
    && (m.e.mode.Held? ==> m.e.v == 0.0)
    && (!m.e.cur ==> m.e.t == 0.0 && m.e.s == 0.0 && AtJoin(m))
    && (m.e.cur && m.p.q[0].kind.Event? ==> m.e.v == 0.0 && m.e.s == 0.0 && m.e.t == 0.0 && m.e.next.None?)
    && (m.e.cur && !m.p.q[0].kind.Event? ==>
          && CanBrake(m.p.q[0], m.e)
          && (m.e.mode.Running? ==> OnPiece(m) && PlannedLate(m)))
  }

  /** The time a tick may take: it cannot run past a piece the consumer has not yet taken. */
  predicate Budget(m: Machine, dt: real) {
    dt >= 0.0 && (m.e.cur && m.e.mode.Running? && m.p.staged.Some? ==> m.e.t + dt < m.p.staged.value.t0)
  }

  /** The length of path still queued, less what is run of the claimed block. */
  function TotalLength(q: seq<Block>): real {
    if q == [] then 0.0 else q[0].path.length + TotalLength(q[1..])
  }

  function Remaining(m: Machine): real {
    TotalLength(m.p.q) - (if m.e.cur then m.e.s else 0.0)
  }

  /** `a` and `vCap` bound every queued block. */
  predicate Bounded(q: seq<Block>, a: real, vCap: real) {
    a >= 0.0 && vCap >= 0.0 && forall i :: 0 <= i < |q| ==> q[i].path.accel <= a && q[i].path.vMaxSqr <= Sqr(vCap)
  }

  /** From `m` to `r` in `dt`: no speed jump, no path skipped or repeated. */
  predicate Moved(m: Machine, r: Machine, a: real, vCap: real, dt: real) {
    Smooth(a, vCap, m.e.v, -Remaining(m), r.e.v, -Remaining(r), dt)
  }

  lemma StayPut(m: Machine, r: Machine, a: real, vCap: real, dt: real)
    requires r.e.v == m.e.v && Remaining(r) == Remaining(m) && a >= 0.0 && vCap >= 0.0 && dt >= 0.0
    ensures Moved(m, r, a, vCap, dt)
  {
    hide Remaining;
    Monotone(a, a, 0.0, dt);
    Monotone(vCap, vCap, 0.0, dt);
  }

  lemma SmoothWiden(a: real, vCap: real, v1: real, s1: real, v2: real, s2: real, dt: real, a': real, vCap': real, dt': real)
    requires Smooth(a, vCap, v1, s1, v2, s2, dt) && 0.0 <= a <= a' && 0.0 <= vCap <= vCap' && 0.0 <= dt <= dt'
    ensures Smooth(a', vCap', v1, s1, v2, s2, dt')
  {
    Monotone(a, a', dt, dt');
    Monotone(vCap, vCap', dt, dt');
  }

  lemma SmoothShift(a: real, vCap: real, v1: real, s1: real, v2: real, s2: real, dt: real, d: real)
    requires Smooth(a, vCap, v1, s1, v2, s2, dt)
    ensures Smooth(a, vCap, v1, s1 + d, v2, s2 + d, dt)
  {
  }

  lemma SpeedUnderCap(v: real, cap: real, vMaxSqr: real)
    requires v >= 0.0 && cap >= 0.0 && Sqr(v) <= vMaxSqr <= Sqr(cap)
    ensures v <= cap
  {
    SqrGrows(v, cap);
  }

  // ─── Running ───────────────────────────────────────────────────────────────

  /** Along one piece: the time runs from `t` to `u`. */
  lemma AlongPiece(b: Block, x: Piece, t: real, u: real, a: real, vCap: real)
    requires PieceOn(b, x) && x.t0 <= t <= u <= x.End()
    requires b.path.accel <= a && 0.0 <= vCap && b.path.vMaxSqr <= Sqr(vCap)
    ensures Smooth(a, vCap, x.SpeedAt(t), x.At(t), x.SpeedAt(u), x.At(u), u - t)
    ensures 0.0 <= x.At(u) <= b.path.length && x.SpeedAt(u) >= 0.0
    ensures Sqr(x.SpeedAt(u)) <= Reach(Sqr(x.profile.vExit), b.path.accel, b.path.length - x.At(u))
    ensures Sqr(x.SpeedAt(u)) <= b.path.vMaxSqr
  {
    hide Trapezoid.Position, Trapezoid.Velocity, Smooth, Sqr, Reach, Travel, Speed;
    var tr := x.profile;
    SoundParts(tr);
    ProfileSmooth(tr, t - x.t0, u - x.t0);
    InRange(tr, u - x.t0);
    Energy(tr, u - x.t0);
    SpeedUnderCap(tr.vCruise, vCap, b.path.vMaxSqr);
    assert (u - x.t0) - (t - x.t0) == u - t;
    SmoothWiden(tr.accel, tr.vCruise, tr.Velocity(t - x.t0), tr.Position(t - x.t0),
                tr.Velocity(u - x.t0), tr.Position(u - x.t0), u - t, a, vCap, u - t);
    SmoothShift(a, vCap, tr.Velocity(t - x.t0), tr.Position(t - x.t0),
                tr.Velocity(u - x.t0), tr.Position(u - x.t0), u - t, x.s0);
    assert b.path.length - x.At(u) == tr.length - tr.Position(u - x.t0);
  }

  lemma PieceStart(b: Block, x: Piece)
    requires PieceOn(b, x)
    ensures x.At(x.t0) == x.s0 && x.SpeedAt(x.t0) == x.profile.vEntry
    ensures x.At(x.End()) == b.path.length && x.SpeedAt(x.End()) == x.profile.vExit
    ensures x.t0 <= x.End() && (x.profile.length > 0.0 ==> x.t0 < x.End())
  {
    hide Trapezoid.Position, Trapezoid.Velocity;
    Ends(x.profile);
    assert x.t0 - x.t0 == 0.0 && x.End() - x.t0 == x.profile.Duration();
  }

  predicate Good(sq: real -> real, m: Machine) { PlanInv(sq, m.p, false) && ExecInv(m) }

  predicate RunningBlock(sq: real -> real, m: Machine, a: real, vCap: real) {
    && Good(sq, m) && Bounded(m.p.q, a, vCap)
    && m.e.cur && m.e.mode.Running? && !m.p.q[0].kind.Event?
  }

  /** The machine at block time `u` of its piece. */
  function Along(m: Machine, u: real): Machine {
    m.(e := m.e.(t := u, s := m.e.piece.At(u), v := m.e.piece.SpeedAt(u)))
  }

  lemma AlongMoves(sq: real -> real, m: Machine, u: real, a: real, vCap: real)
    requires RunningBlock(sq, m, a, vCap) && m.e.t <= u <= m.e.piece.End()
    ensures Moved(m, Along(m, u), a, vCap, u - m.e.t)
    ensures CanBrake(m.p.q[0], Along(m, u).e) && Along(m, u).e.v >= 0.0
  {
    var b, x := m.p.q[0], m.e.piece;
    hide Trapezoid.Position, Trapezoid.Velocity, Smooth, Sqr, Reach, Chain, Profiled, PlanOk, RouteOk, TotalLength, PieceOn;
    AlongPiece(b, x, m.e.t, u, a, vCap);
    ReachGrowsSqr(Sqr(x.profile.vExit), b.exitSqr, b.path.accel, b.path.length - x.At(u));
    SmoothShift(a, vCap, m.e.v, m.e.s, x.SpeedAt(u), x.At(u), u - m.e.t, -TotalLength(m.p.q));
  }

  lemma CoastKeeps(sq: real -> real, m: Machine, u: real, a: real, vCap: real)
    requires RunningBlock(sq, m, a, vCap) && m.e.t <= u < m.e.piece.End()
    requires m.e.next.Some? ==> u < m.e.next.value.t0
    requires m.p.staged.Some? ==> u < m.p.staged.value.t0
    ensures Good(sq, Along(m, u)) && Moved(m, Along(m, u), a, vCap, u - m.e.t)
  {
    AlongMoves(sq, m, u, a, vCap);
    hide Trapezoid.Position, Trapezoid.Velocity, Smooth, Sqr, Reach, Chain, Profiled, PlanOk, RouteOk, TotalLength, PieceOn,
         TakesOver, SameStart, ClaimOk, CanBrake, Remaining;
  }

  /** Taking over the pending piece: the same place, the same speed. */
  lemma SwitchKeeps(sq: real -> real, m: Machine, a: real, vCap: real)
    requires RunningBlock(sq, m, a, vCap) && m.e.next.Some? && m.p.staged.None?
    ensures var x := m.e.next.value;
      var r := m.(e := m.e.(t := x.t0, piece := x, next := None, s := x.s0, v := x.profile.vEntry));
      && Good(sq, r) && Moved(m, r, a, vCap, x.t0 - m.e.t) && m.e.t < x.t0
  {
    var x := m.e.next.value;
    AlongMoves(sq, m, x.t0, a, vCap);
    PieceStart(m.p.q[0], x);
    hide Trapezoid.Position, Trapezoid.Velocity, Smooth, Sqr, Reach, Chain, Profiled, PlanOk, RouteOk, TotalLength, PieceOn,
         SameStart, CanBrake, Remaining;
    var r := m.(e := m.e.(t := x.t0, piece := x, next := None, s := x.s0, v := x.profile.vEntry));
    assert r.e.(piece := m.e.piece, next := m.e.next) == Along(m, x.t0).e;
    SameMotion(m, Along(m, x.t0), r, a, vCap, x.t0 - m.e.t);
  }

  lemma SameMotion(m: Machine, r1: Machine, r2: Machine, a: real, vCap: real, dt: real)
    requires Moved(m, r1, a, vCap, dt) && r1.p.q == r2.p.q && r1.e.v == r2.e.v && r1.e.s == r2.e.s && r1.e.cur == r2.e.cur
    ensures Moved(m, r2, a, vCap, dt)
  {
  }

  /** The block runs out at its committed exit: the speed the next one enters at. */
  lemma FinishKeeps(sq: real -> real, m: Machine, a: real, vCap: real)
    requires RunningBlock(sq, m, a, vCap) && m.e.next.None? && m.p.staged.None?
    ensures var r := FinishBlock(m, m.e.piece.profile.vExit);
      Good(sq, r) && Moved(m, r, a, vCap, m.e.piece.End() - m.e.t)
  {
    var x := m.e.piece;
    AlongMoves(sq, m, x.End(), a, vCap);
    PieceStart(m.p.q[0], x);
    ReleaseKeeps(sq, m.p);
    RouteTail(m.p.q);
    hide Trapezoid.Position, Trapezoid.Velocity, Smooth, Sqr, Reach, Chain, Profiled, PlanOk, RouteOk, PieceOn,
         SameStart, CanBrake, TakesOver, Sound;
  }

  /** What one pass owes: the invariant, no more time than it had, and a smooth move. */
  predicate TurnOk(sq: real -> real, m: Machine, r: Turn, dt: real, a: real, vCap: real) {
    Good(sq, r.m) && 0.0 <= r.left <= dt && Budget(r.m, r.left) && Moved(m, r.m, a, vCap, dt - r.left)
  }

  lemma PendingParts(sq: real -> real, m: Machine, a: real, vCap: real)
    requires RunningBlock(sq, m, a, vCap)
    ensures m.e.cur && m.e.mode.Running? && m.e.t < m.e.piece.End()
    ensures m.e.next.Some? ==> m.e.t < m.e.next.value.t0 < m.e.piece.End()
    ensures m.p.staged.Some? ==> m.e.t < m.p.staged.value.t0 < m.e.piece.End()
    ensures m.e.next.Some? && m.p.staged.Some? ==> m.e.next.value.t0 == m.p.staged.value.t0
  {
    hide PlanInv, CanBrake, PieceOn, Sqr, Trapezoid.Position, Trapezoid.Velocity;
  }

  /** A pass while running a moving block. */
  lemma RunningKeeps(sq: real -> real, m: Machine, dt: real, a: real, vCap: real)
    requires RunningBlock(sq, m, a, vCap) && Budget(m, dt) && dt > 0.0
    ensures TurnOk(sq, m, TurnRunning(m, dt), dt, a, vCap)
  {
    hide RunningBlock, Good, Moved, PlanInv, ExecInv, Trapezoid.Position, Trapezoid.Velocity;
    PendingParts(sq, m, a, vCap);
    var e, x := m.e, m.e.piece;
    if e.next.Some? && e.t + dt >= e.next.value.t0 {
      SwitchKeeps(sq, m, a, vCap);
    } else if dt < x.End() - e.t {
      CoastKeeps(sq, m, e.t + dt, a, vCap);
    } else {
      FinishKeeps(sq, m, a, vCap);
    }
  }

  // ─── Holding ───────────────────────────────────────────────────────────────

  lemma StopFacts(v: real, a: real)
    requires a > 0.0 && v >= 0.0
    ensures StopTime(v, a) >= 0.0 && Speed(v, -a, StopTime(v, a)) == 0.0
    ensures Travel(v, -a, StopTime(v, a)) == StopDistance(v, a)
    ensures Sqr(v) == Reach(0.0, a, StopDistance(v, a))
  {
    Divides(v, a);
    Divides(v * v, 2.0 * a);
    var t := v / a;
    SignOf(a, t);
    assert a * (v * t) == v * v;
    assert 2.0 * a * (v * t - 0.5 * a * t * t) == 2.0 * (v * (a * t)) - (a * t) * (a * t);
    SignOf(2.0 * a, StopDistance(v, a) - (v * t - 0.5 * a * t * t));
  }

  lemma EndFacts(sq: real -> real, v: real, a: real, rem: real)
    requires IsSqrt(sq) && a > 0.0 && v >= 0.0 && rem >= 0.0 && StopDistance(v, a) > rem
    ensures var w := EndSpeed(sq, v, a, rem); var t := EndTime(v, w, a);
      && 0.0 <= w <= v && Sqr(w) == Reach(Sqr(v), -a, rem)
      && t >= 0.0 && Speed(v, -a, t) == w && Travel(v, -a, t) == rem
  {
    var w := EndSpeed(sq, v, a, rem);
    var t := EndTime(v, w, a);
    assert v * v - 2.0 * a * rem > 0.0 by {
      Divides(v * v, 2.0 * a);
      SignOf(2.0 * a, StopDistance(v, a) - rem);
    }
    EndSpeedSqr(sq, v, a, rem);
    EndBelow(v, w, a, rem);
    Divides(v - w, a);
    SignOf(a, t);
    BrakeLength(v, w, a, t, rem);
  }

  lemma EndSpeedSqr(sq: real -> real, v: real, a: real, rem: real)
    requires IsSqrt(sq) && v * v - 2.0 * a * rem > 0.0
    ensures var w := EndSpeed(sq, v, a, rem); w >= 0.0 && w * w == v * v - 2.0 * a * rem
  {
  }

  lemma EndBelow(v: real, w: real, a: real, rem: real)
    requires a > 0.0 && rem >= 0.0 && v >= 0.0 && w >= 0.0 && w * w == v * v - 2.0 * a * rem
    ensures w <= v
  {
    Monotone(2.0 * a, 2.0 * a, 0.0, rem);
    SquareOrder(w, v);
  }

  lemma BrakeLength(v: real, w: real, a: real, t: real, rem: real)
    requires a > 0.0 && a * t == v - w && w * w == v * v - 2.0 * a * rem
    ensures Travel(v, -a, t) == rem && Speed(v, -a, t) == w
  {
    assert 2.0 * a * (v * t + 0.5 * (-a) * t * t) == 2.0 * (v * (a * t)) - (a * t) * (a * t);
    assert 2.0 * a * (rem - (v * t + 0.5 * (-a) * t * t)) == 0.0;
    SignOf(2.0 * a, rem - (v * t + 0.5 * (-a) * t * t));
  }

  /** Braking for `dt`, still moving: within the block, and still able to brake to its exit. */
  lemma BrakeFacts(v: real, a: real, rem: real, dt: real, low: real, exitSqr: real)
    requires a > 0.0 && v >= 0.0 && dt >= 0.0 && Speed(v, -a, dt) >= low >= 0.0
    requires Sqr(v) <= Reach(Sqr(low), a, rem) && Sqr(v) <= Reach(exitSqr, a, rem)
    ensures 0.0 <= Travel(v, -a, dt) <= rem && Speed(v, -a, dt) <= v
    ensures Sqr(Speed(v, -a, dt)) <= Reach(exitSqr, a, rem - Travel(v, -a, dt))
    ensures Sqr(Speed(v, -a, dt)) <= Sqr(v)
  {
    var w, d := Speed(v, -a, dt), Travel(v, -a, dt);
    assert w <= v by { Monotone(a, a, 0.0, dt); }
    RampEnergy(v, -a, dt);
    SqrGrows(low, w);
    SqrGrows(w, v);
    hide Speed, Travel, Sqr;
    assert 2.0 * a * d == Sqr(v) - Sqr(w);
    assert 2.0 * a * (rem - d) == 2.0 * a * rem - 2.0 * a * d >= 0.0;
    SignOf(2.0 * a, d);
    SignOf(2.0 * a, rem - d);
  }

  predicate HoldingBlock(sq: real -> real, m: Machine, a: real, vCap: real) {
    && Shape(m) && Good(sq, m) && Bounded(m.p.q, a, vCap)
    && m.e.cur && m.e.mode.Holding? && !m.p.q[0].kind.Event?
  }

  /** The machine after braking for `t` of its time. */
  function Braked(m: Machine, t: real): Machine
    requires m.p.q != []
  {
    var acc := m.p.q[0].path.accel;
    m.(e := m.e.(s := m.e.s + Travel(m.e.v, -acc, t), v := Speed(m.e.v, -acc, t)))
  }

  lemma BrakedMoves(sq: real -> real, m: Machine, t: real, low: real, a: real, vCap: real)
    requires HoldingBlock(sq, m, a, vCap) && t >= 0.0
    requires Speed(m.e.v, -m.p.q[0].path.accel, t) >= low >= 0.0
    requires Sqr(m.e.v) <= Reach(Sqr(low), m.p.q[0].path.accel, m.p.q[0].path.length - m.e.s)
    ensures Moved(m, Braked(m, t), a, vCap, t)
    ensures CanBrake(m.p.q[0], Braked(m, t).e) && 0.0 <= Braked(m, t).e.v <= m.e.v
  {
    var b, e := m.p.q[0], m.e;
    hide Smooth, Sqr, Reach, Chain, Profiled, PlanOk, RouteOk, TotalLength, PieceOn, Speed, Travel;
    BrakeFacts(e.v, b.path.accel, b.path.length - e.s, t, low, b.exitSqr);
    SpeedUnderCap(e.v, vCap, b.path.vMaxSqr);
    SmoothRamp(b.path.accel, vCap, e.v, -b.path.accel, e.s, t);
    var w, s' := Braked(m, t).e.v, Braked(m, t).e.s;
    SmoothWiden(b.path.accel, vCap, e.v, e.s, w, s', t, a, vCap, t);
    SmoothShift(a, vCap, e.v, e.s, w, s', t, -TotalLength(m.p.q));
    assert b.path.length - s' == b.path.length - e.s - Travel(e.v, -b.path.accel, t);
  }

  lemma SameBrake(b: Block, e1: ExecState, e2: ExecState)
    requires CanBrake(b, e1) && e1.s == e2.s && e1.v == e2.v
    ensures CanBrake(b, e2)
  {
  }

  lemma LeavesHolding(sq: real -> real, m: Machine, r: Machine)
    requires Good(sq, m) && m.e.cur && m.e.mode.Holding? && !m.p.q[0].kind.Event?
    requires r.p == m.p && r.e == m.e.(s := r.e.s, v := r.e.v, mode := r.e.mode)
    requires CanBrake(m.p.q[0], r.e) && r.e.v >= 0.0
    requires r.e.mode.Holding? || (r.e.mode.Held? && r.e.v == 0.0)
    ensures Good(sq, r)
  {
    hide PlanInv, Sqr, Reach;
  }

  lemma HoldingParts(sq: real -> real, m: Machine, a: real, vCap: real)
    requires HoldingBlock(sq, m, a, vCap)
    ensures Shape(m) && m.e.cur && m.p.q != [] && m.p.q[0].path.accel > 0.0 && m.e.v >= 0.0 && CanBrake(m.p.q[0], m.e)
    ensures m.e.s <= m.p.q[0].path.length && a >= 0.0 && vCap >= 0.0
  {
    hide PlanInv, Sqr, Reach, OnPiece, Bounded;
    assert Bounded(m.p.q, a, vCap);
    BoundsPositive(m.p.q, a, vCap);
  }

  lemma BoundsPositive(q: seq<Block>, a: real, vCap: real)
    requires Bounded(q, a, vCap)
    ensures a >= 0.0 && vCap >= 0.0
  {
  }

  predicate StopsInBlock(m: Machine)
    requires Shape(m) && m.e.cur
  {
    StopDistance(m.e.v, m.p.q[0].path.accel) <= m.p.q[0].path.length - m.e.s
  }

  /** What a pass of a hold owes: nothing broken, no jump, no speeding up. */
  predicate HoldTurn(sq: real -> real, m: Machine, r: Turn, dt: real, a: real, vCap: real) {
    && Good(sq, r.m) && 0.0 <= r.left <= dt && Moved(m, r.m, a, vCap, dt - r.left)
    && r.m.e.v <= m.e.v && !r.m.e.mode.Running?
  }

  lemma HoldWithin(sq: real -> real, m: Machine, dt: real, a: real, vCap: real)
    requires HoldingBlock(sq, m, a, vCap) && dt > 0.0 && StopsInBlock(m)
    ensures HoldTurn(sq, m, TurnHolding(sq, m, dt), dt, a, vCap)
  {
    hide PlanInv, ExecInv, Bounded, Good, Moved, Travel, Speed, StopTime, StopDistance, CanBrake, Sqr, Reach;
    HoldingParts(sq, m, a, vCap);
    var b, e := m.p.q[0], m.e;
    var acc := b.path.accel;
    StopFacts(e.v, acc);
    SqrZero();
    StopWithin(e.v, acc, b.path.length - e.s);
    if StopTime(e.v, acc) <= dt {
      BrakedMoves(sq, m, StopTime(e.v, acc), 0.0, a, vCap);
      var r := TurnHolding(sq, m, dt).m;
      MovedWiden(m, Braked(m, StopTime(e.v, acc)), r, a, vCap, StopTime(e.v, acc), dt);
      SameBrake(m.p.q[0], Braked(m, StopTime(e.v, acc)).e, r.e);
      LeavesHolding(sq, m, r);
    } else {
      StillMoving(e.v, acc, dt);
      BrakedMoves(sq, m, dt, 0.0, a, vCap);
      LeavesHolding(sq, m, Braked(m, dt));
    }
  }

  /** Braking to `w` at the block's end. */
  lemma HoldToEnd(sq: real -> real, m: Machine, w: real, a: real, vCap: real)
    requires IsSqrt(sq) && HoldingBlock(sq, m, a, vCap) && !StopsInBlock(m)
    requires w == EndSpeed(sq, m.e.v, m.p.q[0].path.accel, m.p.q[0].path.length - m.e.s)
    ensures var t := EndTime(m.e.v, w, m.p.q[0].path.accel);
      t >= 0.0 && Good(sq, FinishBlock(m, w)) && Moved(m, FinishBlock(m, w), a, vCap, t) && 0.0 <= w <= m.e.v
  {
    hide PlanInv, ExecInv, Bounded, Good, Moved, Travel, Speed, StopTime, StopDistance, EndSpeed, EndTime, CanBrake, Sqr, Reach;
    HoldingParts(sq, m, a, vCap);
    var acc, rem := m.p.q[0].path.accel, m.p.q[0].path.length - m.e.s;
    EndFacts(sq, m.e.v, acc, rem);
    BackUp(m.e.v, w, acc, rem);
    BrakedMoves(sq, m, EndTime(m.e.v, w, acc), w, a, vCap);
    LeaveBlock(sq, m, w, EndTime(m.e.v, w, acc), a, vCap);
  }

  /** Braking on, short of the block's end. */
  lemma HoldOn(sq: real -> real, m: Machine, w: real, dt: real, a: real, vCap: real)
    requires IsSqrt(sq) && HoldingBlock(sq, m, a, vCap) && !StopsInBlock(m) && dt > 0.0
    requires w == EndSpeed(sq, m.e.v, m.p.q[0].path.accel, m.p.q[0].path.length - m.e.s)
    requires EndTime(m.e.v, w, m.p.q[0].path.accel) > dt
    ensures Good(sq, Braked(m, dt)) && Moved(m, Braked(m, dt), a, vCap, dt) && Braked(m, dt).e.v <= m.e.v
  {
    hide PlanInv, ExecInv, Bounded, Good, Moved, Travel, Speed, StopTime, StopDistance, EndSpeed, EndTime, CanBrake, Sqr, Reach;
    HoldingParts(sq, m, a, vCap);
    var acc, rem := m.p.q[0].path.accel, m.p.q[0].path.length - m.e.s;
    EndFacts(sq, m.e.v, acc, rem);
    BackUp(m.e.v, w, acc, rem);
    NotYetThere(m.e.v, w, acc, dt);
    BrakedMoves(sq, m, dt, w, a, vCap);
    LeavesHolding(sq, m, Braked(m, dt));
  }

  lemma HoldThrough(sq: real -> real, m: Machine, dt: real, a: real, vCap: real)
    requires IsSqrt(sq) && HoldingBlock(sq, m, a, vCap) && dt > 0.0 && !StopsInBlock(m)
    ensures HoldTurn(sq, m, TurnHolding(sq, m, dt), dt, a, vCap)
  {
    hide PlanInv, ExecInv, Bounded, Good, Moved, Travel, Speed, StopTime, StopDistance, EndSpeed, EndTime, CanBrake, Sqr, Reach;
    HoldingParts(sq, m, a, vCap);
    var acc, rem := m.p.q[0].path.accel, m.p.q[0].path.length - m.e.s;
    var w := EndSpeed(sq, m.e.v, acc, rem);
    if EndTime(m.e.v, w, acc) <= dt {
      HoldToEnd(sq, m, w, a, vCap);
    } else {
      HoldOn(sq, m, w, dt, a, vCap);
    }
  }

  /** A pass while holding in a moving block. */
  lemma HoldingKeeps(sq: real -> real, m: Machine, dt: real, a: real, vCap: real)
    requires IsSqrt(sq) && HoldingBlock(sq, m, a, vCap) && dt > 0.0
    ensures HoldTurn(sq, m, TurnHolding(sq, m, dt), dt, a, vCap)
  {
    hide HoldTurn, HoldingBlock, StopsInBlock;
    HoldingParts(sq, m, a, vCap);
    if StopsInBlock(m) {
      HoldWithin(sq, m, dt, a, vCap);
    } else {
      HoldThrough(sq, m, dt, a, vCap);
    }
  }

  lemma SqrZero()
    ensures Sqr(0.0) == 0.0
  {
  }

  lemma StopWithin(v: real, a: real, rem: real)
    requires a > 0.0 && StopDistance(v, a) <= rem && Sqr(v) == Reach(0.0, a, StopDistance(v, a))
    ensures Sqr(v) <= Reach(Sqr(0.0), a, rem)
  {
    ReachGrows(0.0, a, StopDistance(v, a), rem);
  }

  lemma StillMoving(v: real, a: real, dt: real)
    requires a > 0.0 && StopTime(v, a) > dt
    ensures Speed(v, -a, dt) >= 0.0
  {
    Divides(v, a);
    SignOf(a, StopTime(v, a) - dt);
  }

  lemma BackUp(v: real, w: real, a: real, rem: real)
    requires Sqr(w) == Reach(Sqr(v), -a, rem)
    ensures Sqr(v) <= Reach(Sqr(w), a, rem)
  {
  }

  lemma NotYetThere(v: real, w: real, a: real, dt: real)
    requires a > 0.0 && EndTime(v, w, a) > dt
    ensures Speed(v, -a, dt) >= w
  {
    Divides(v - w, a);
    SignOf(a, EndTime(v, w, a) - dt);
  }

  lemma MovedWiden(m: Machine, r1: Machine, r2: Machine, a: real, vCap: real, dt: real, dt': real)
    requires Moved(m, r1, a, vCap, dt) && 0.0 <= dt <= dt' && a >= 0.0 && vCap >= 0.0
    requires r1.p.q == r2.p.q && r1.e.v == r2.e.v && r1.e.s == r2.e.s && r1.e.cur == r2.e.cur
    ensures Moved(m, r2, a, vCap, dt')
  {
    SmoothWiden(a, vCap, m.e.v, -Remaining(m), r1.e.v, -Remaining(r1), dt, a, vCap, dt');
  }

  lemma AtExit(b: Block, e: ExecState)
    requires CanBrake(b, e) && e.s == b.path.length
    ensures Sqr(e.v) <= b.exitSqr
  {
    hide Sqr, Reach;
    assert b.path.length - e.s == 0.0;
    ReachZero(b.exitSqr, b.path.accel);
  }

  lemma ReachZero(sqr: real, a: real)
    ensures Reach(sqr, a, 0.0) == sqr
  {
  }

  /** A hold reaches the block's end still moving: no faster than its committed exit. */
  lemma LeaveBlock(sq: real -> real, m: Machine, w: real, t: real, a: real, vCap: real)
    requires HoldingBlock(sq, m, a, vCap) && w >= 0.0
    requires Moved(m, Braked(m, t), a, vCap, t)
    requires Braked(m, t).e.v == w && Braked(m, t).e.s == m.p.q[0].path.length
    requires CanBrake(m.p.q[0], Braked(m, t).e)
    ensures Good(sq, FinishBlock(m, w)) && Moved(m, FinishBlock(m, w), a, vCap, t)
  {
    hide PlanInv, ExecInv, Moved, Travel, Speed, CanBrake, Sqr, Release;
    ReleaseKeeps(sq, m.p);
    AtExit(m.p.q[0], Braked(m, t).e);
    HeldEnd(sq, m, w);
    ReleasedLength(m, Braked(m, t), w, a, vCap, t);
  }

  lemma HeldEnd(sq: real -> real, m: Machine, w: real)
    requires Good(sq, m) && m.e.cur && m.e.mode.Holding? && w >= 0.0 && Sqr(w) <= m.p.q[0].exitSqr
    requires PlanInv(sq, Release(m.p), false)
    ensures ExecInv(FinishBlock(m, w))
  {
    hide Sqr, Chain, Profiled, PlanOk, RouteOk, PieceOn, CanBrake, OnPiece;
  }

  lemma ReleasedLength(m: Machine, r: Machine, w: real, a: real, vCap: real, t: real)
    requires m.e.cur && m.p.claimed && m.p.q != [] && Moved(m, r, a, vCap, t)
    requires r.p == m.p && r.e.cur && r.e.v == w && r.e.s == m.p.q[0].path.length
    ensures Moved(m, FinishBlock(m, w), a, vCap, t)
  {
    hide Smooth;
    assert Remaining(FinishBlock(m, w)) == Remaining(r);
  }

  // ─── The loop ──────────────────────────────────────────────────────────────

  lemma BoundedTail(q: seq<Block>, a: real, vCap: real)
    requires Bounded(q, a, vCap) && q != []
    ensures Bounded(q[1..], a, vCap)
  {
  }

  /** An event is run at rest, between two stops. */
  lemma EventAtRest(sq: real -> real, m: Machine)
    requires Good(sq, m) && m.e.cur && m.p.q[0].kind.Event?
    ensures m.p.pinned == 0.0 && m.e.v == 0.0 && m.p.q[0].path.length == 0.0 && m.p.staged.None?
  {
    var x := m.p.Effective();
    SoundParts(x.profile);
    SqrGrows(x.profile.vExit, x.profile.vCruise);
    hide Travel, Speed, Trapezoid.Position, Trapezoid.Velocity, Chain, Profiled, PlanOk;
  }

  lemma EventKeeps(sq: real -> real, m: Machine, dt: real, a: real, vCap: real)
    requires Good(sq, m) && m.e.cur && m.p.q[0].kind.Event? && dt > 0.0 && Bounded(m.p.q, a, vCap) && !m.e.mode.Held?
    ensures var r := TurnAtEvent(m, dt);
      Good(sq, r.m) && 0.0 <= r.left <= dt && Budget(r.m, r.left) && Moved(m, r.m, a, vCap, dt - r.left)
  {
    hide Sqr, Reach, Chain, Profiled, PlanOk, RouteOk, PieceOn, Moved, TotalLength;
    EventAtRest(sq, m);
    ReleaseKeeps(sq, m.p);
    SqrZero();
    EventLength(m);
    StayPut(m, TurnAtEvent(m, dt).m, a, vCap, dt - TurnAtEvent(m, dt).left);
  }

  lemma EventLength(m: Machine)
    requires m.e.cur && m.p.q != [] && m.p.q[0].path.length == 0.0
    ensures TotalLength(m.p.q) == TotalLength(m.p.q[1..])
  {
  }

  /** Each block starts at its planned entry speed; in a hold, at no more. */
  lemma BeginKeeps(sq: real -> real, m: Machine, a: real, vCap: real)
    requires IsSqrt(sq) && Good(sq, m) && !m.e.cur && !m.e.mode.Held? && m.p.q != [] && a >= 0.0 && vCap >= 0.0
    ensures var r := BeginBlock(m);
      && Good(sq, r) && Moved(m, r, a, vCap, 0.0) && r.p.staged.None?
      && (m.e.mode.Running? ==> r.p.q[0].profile.vEntry == m.e.v)
      && (!m.e.mode.Running? ==> m.e.v <= r.p.q[0].profile.vEntry)
  {
    hide Sqr, Reach, PlanOk, RouteOk, PieceOn, Moved, TotalLength, Trapezoid.Position, Trapezoid.Velocity, Planned, ReverseEntry, ProfileOf, Feasible, BlockOk, Profiled, Travel, Speed, CanBrake;
    var r := BeginBlock(m);
    var b := m.p.q[0];
    assert m.p.Unclaimed() == m.p.q;
    FirstBlock(sq, m.p);
    ClaimKeeps(sq, m.p);
    EntrySpeed(sq, m, b);
    PieceStart(b, r.e.piece);
    StartBrake(b, r.e, m.p.pinned);
    StayPut(m, r, a, vCap, 0.0);
    if b.kind.Event? { ZeroSpeed(m.e.v, b.path.vMaxSqr); }
  }

  lemma ZeroSpeed(v: real, vMaxSqr: real)
    requires v >= 0.0 && vMaxSqr == 0.0 && Sqr(v) <= vMaxSqr
    ensures v == 0.0
  {
    SqrGrows(0.0, v);
  }

  lemma FirstBlock(sq: real -> real, p: PlanState)
    requires IsSqrt(sq) && PlanInv(sq, p, false) && !p.claimed && p.q != []
    ensures var b := p.q[0];
      && b.entrySqr == p.pinned && BlockOk(b) && PieceOn(b, Piece(0.0, 0.0, b.profile))
      && Feasible(b.path.length, b.path.accel, p.pinned, b.path.vMaxSqr, b.exitSqr)
      && Sqr(b.profile.vExit) == b.exitSqr && b.profile.vEntry == sq(p.pinned) && b.path.accel > 0.0
      && b.profile.length == b.path.length && Sqr(b.profile.vEntry) == p.pinned && b.profile.vEntry >= 0.0
      && (b.kind.Event? ==> b.path.vMaxSqr == 0.0 && b.path.length == 0.0 && b.profile.Duration() == 0.0)
      && (!b.kind.Event? ==> b.path.length > 0.0)
  {
    hide ProfileOf, Reach, PlanOk, Sqr, Sound;
    FreshPiece(sq, p.q[0]);
  }

  lemma EntrySpeed(sq: real -> real, m: Machine, b: Block)
    requires IsSqrt(sq) && m.e.v >= 0.0 && b.profile.vEntry == sq(m.p.pinned) && b.profile.vEntry >= 0.0
    requires Sqr(b.profile.vEntry) == m.p.pinned && AtJoin(m)
    ensures m.e.mode.Running? ==> m.e.v == b.profile.vEntry
    ensures m.e.v <= b.profile.vEntry && Sqr(m.e.v) <= m.p.pinned
  {
    SqrGrows(m.e.v, b.profile.vEntry);
  }

  lemma StartBrake(b: Block, e: ExecState, entrySqr: real)
    requires Feasible(b.path.length, b.path.accel, entrySqr, b.path.vMaxSqr, b.exitSqr)
    requires e.s == 0.0 && Sqr(e.v) <= entrySqr
    ensures CanBrake(b, e)
  {
  }

  /** One pass of the loop keeps everything, and never jumps. */
  lemma TurnKeeps(sq: real -> real, m: Machine, dt: real, a: real, vCap: real)
    requires IsSqrt(sq) && Good(sq, m) && Budget(m, dt) && dt > 0.0 && !m.e.mode.Held? && Bounded(m.p.q, a, vCap)
    ensures TurnOk(sq, m, TurnOnce(sq, m, dt), dt, a, vCap)
  {
    hide PlanInv, Moved, TurnInBlock, Sqr, Reach, OnPiece, CanBrake, TurnOk, Bounded, Budget, PieceOn;
    if m.e.cur {
      BlockTurnKeeps(sq, m, dt, a, vCap);
    } else if m.p.q != [] && !(m.e.mode.Holding? && m.e.v <= 0.0) {
      BeginThenTurn(sq, m, dt, a, vCap);
    } else {
      RestKeeps(sq, m, dt, a, vCap);
    }
  }

  lemma BlockTurnKeeps(sq: real -> real, m: Machine, dt: real, a: real, vCap: real)
    requires IsSqrt(sq) && Good(sq, m) && Budget(m, dt) && dt > 0.0 && !m.e.mode.Held? && Bounded(m.p.q, a, vCap)
    requires m.e.cur
    ensures TurnOk(sq, m, TurnInBlock(sq, m, dt), dt, a, vCap)
  {
    hide PlanInv, Moved, TurnRunning, TurnHolding, TurnAtEvent, Sqr, Reach, OnPiece, CanBrake;
    if m.p.q[0].kind.Event? {
      EventKeeps(sq, m, dt, a, vCap);
    } else if m.e.mode.Running? {
      RunningKeeps(sq, m, dt, a, vCap);
    } else {
      HoldingKeeps(sq, m, dt, a, vCap);
    }
  }

  lemma BeginThenTurn(sq: real -> real, m: Machine, dt: real, a: real, vCap: real)
    requires IsSqrt(sq) && Good(sq, m) && dt > 0.0 && !m.e.mode.Held? && Bounded(m.p.q, a, vCap)
    requires !m.e.cur && m.p.q != []
    ensures TurnOk(sq, m, TurnInBlock(sq, BeginBlock(m), dt), dt, a, vCap)
  {
    hide PlanInv, Moved, Sqr, Reach, OnPiece, CanBrake, TurnRunning, TurnHolding, TurnAtEvent;
    BeginKeeps(sq, m, a, vCap);
    BlockTurnKeeps(sq, BeginBlock(m), dt, a, vCap);
    var r := TurnInBlock(sq, BeginBlock(m), dt);
    MovedTrans(m, BeginBlock(m), r.m, a, vCap, 0.0, dt - r.left);
  }

  lemma MovedTrans(m: Machine, k: Machine, r: Machine, a: real, vCap: real, d1: real, d2: real)
    requires Moved(m, k, a, vCap, d1) && Moved(k, r, a, vCap, d2)
    ensures Moved(m, r, a, vCap, d1 + d2)
  {
    hide Smooth, Remaining;
    SmoothTrans(a, vCap, m.e.v, -Remaining(m), k.e.v, -Remaining(k), r.e.v, -Remaining(r), d1, d2);
  }

  /** Nothing to run, or a hold complete between blocks: the machine is already at rest. */
  lemma RestKeeps(sq: real -> real, m: Machine, dt: real, a: real, vCap: real)
    requires Good(sq, m) && dt > 0.0 && !m.e.mode.Held? && Bounded(m.p.q, a, vCap) && !m.e.cur
    requires m.p.q == [] || (m.e.mode.Holding? && m.e.v <= 0.0)
    ensures TurnOk(sq, m, TurnOnce(sq, m, dt), dt, a, vCap)
  {
    hide Sqr, Reach, PlanOk, RouteOk, Moved, TotalLength, Profiled, PieceOn;
    if m.p.q == [] {
      assert m.p.Unclaimed() == [];
      ZeroSpeed(m.e.v, m.p.pinned);
    }
    StayPut(m, TurnOnce(sq, m, dt).m, a, vCap, dt);
    SqrZero();
  }

  /** tick()'s loop keeps the invariant; over the whole tick the speed changes by at most `a` times the
      time and the path moves forward by at most `vCap` times it, across pieces, blocks, events and holds. */
  lemma {:induction false} AdvanceKeeps(sq: real -> real, m: Machine, dt: real, a: real, vCap: real)
    requires IsSqrt(sq) && Good(sq, m) && Budget(m, dt) && Bounded(m.p.q, a, vCap)
    ensures Good(sq, Advance(sq, m, dt)) && Moved(m, Advance(sq, m, dt), a, vCap, dt)
    decreases |m.p.q|, Pending(m), if dt > 0.0 then 1 else 0
  {
    hide PlanInv, Moved, TurnOnce, Sqr, Reach, OnPiece, CanBrake;
    if dt <= 0.0 || m.e.mode.Held? {
      BoundsPositive(m.p.q, a, vCap);
      StayPut(m, m, a, vCap, dt);
    } else {
      var turn := TurnOnce(sq, m, dt);
      TurnShrinks(sq, m, dt);
      TurnKeeps(sq, m, dt, a, vCap);
      if turn.again {
        TurnBounded(sq, m, dt, a, vCap);
        AdvanceKeeps(sq, turn.m, turn.left, a, vCap);
        MovedTrans(m, turn.m, Advance(sq, turn.m, turn.left), a, vCap, dt - turn.left, turn.left);
      } else {
        TurnEnds(sq, m, dt);
      }
    }
  }

  lemma TurnBounded(sq: real -> real, m: Machine, dt: real, a: real, vCap: real)
    requires Shape(m) && Bounded(m.p.q, a, vCap)
    ensures Bounded(TurnOnce(sq, m, dt).m.p.q, a, vCap)
  {
    hide Sqr, Reach, Trapezoid.Position, Trapezoid.Velocity, Speed, Travel, StopDistance, StopTime, EndSpeed, EndTime;
    if m.p.q != [] { BoundedTail(m.p.q, a, vCap); }
  }

  lemma TurnEnds(sq: real -> real, m: Machine, dt: real)
    requires Shape(m)
    ensures !TurnOnce(sq, m, dt).again ==> TurnOnce(sq, m, dt).left == 0.0
  {
    hide Sqr, Reach, Trapezoid.Position, Trapezoid.Velocity, Speed, Travel, StopDistance, StopTime, EndSpeed, EndTime;
  }

  /** Large enough bounds for any queue. */
  lemma {:induction false} SomeBound(q: seq<Block>) returns (a: real, vCap: real)
    requires RouteOk(q)
    ensures Bounded(q, a, vCap)
  {
    hide PathOk;
    if q == [] {
      a, vCap := 0.0, 0.0;
    } else {
      RouteTail(q);
      var a', v' := SomeBound(q[1..]);
      a := Max(a', q[0].path.accel);
      vCap := Max(v', q[0].path.vMaxSqr + 1.0);
      BoundCons(q, a', v', a, vCap);
    }
  }

  lemma BoundCons(q: seq<Block>, a': real, v': real, a: real, vCap: real)
    requires q != [] && BlockOk(q[0]) && Bounded(q[1..], a', v')
    requires a == Max(a', q[0].path.accel) && vCap == Max(v', q[0].path.vMaxSqr + 1.0)
    ensures Bounded(q, a, vCap)
  {
    SqrGrows(v', vCap);
    SqrGrows(q[0].path.vMaxSqr + 1.0, vCap);
    Roomy(q[0].path.vMaxSqr);
    hide Sqr;
    forall i | 0 <= i < |q|
      ensures q[i].path.accel <= a && q[i].path.vMaxSqr <= Sqr(vCap)
    {
      if i > 0 { assert q[i] == q[1..][i - 1]; }
    }
  }

  lemma Roomy(x: real)
    requires x >= 0.0
    ensures x <= Sqr(x + 1.0)
  {
    Monotone(x, x, 0.0, x);
  }
}
