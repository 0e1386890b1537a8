/** What a junction's cap is: the highest squared speed at which the corner can be taken (lib/planner/line.cpp). */
module Junctions {
  import opened Arithmetic
  import opened Trapezoids
  import opened Kinematics
  import opened Paths
  import opened LookAhead
  import opened PlanStates

  /** Cosine of the turn: 1 straight on, -1 straight back. */
  function Turn(prev: Path, next: Path): real { prev.dirEnd.x * next.dirStart.x + prev.dirEnd.y * next.dirStart.y }

  /** A steps its speed by dr times the path's, no more than the jump allows. */
  predicate StepFits(jump: Option<real>, dr: real, sqr: real) { jump.Some? ==> sqr * Sqr(dr) <= Sqr(jump.value) }

  /** A circle of the given radius touches both legs; its centre is radius / s from the corner, so that it passes the corner
      no further off than the deviation. */
  predicate Rounds(radius: real, s: real, deviation: real) { radius <= (radius + deviation) * s }

  /** The cosine of half the turn. */
  predicate HalfTurn(prev: Path, next: Path, s: real) { s >= 0.0 && 2.0 * s * s == 1.0 + Turn(prev, next) }

  /** The corner can be taken at this squared speed: both paths allow it, A can step, and where it turns, short of straight
      back, a circle within the deviation needs no more than either path's acceleration. */
  ghost predicate CanTake(prev: Path, next: Path, deviation: real, sqr: real)
    requires prev.accel > 0.0 && next.accel > 0.0
  {
    && sqr <= prev.vMaxSqr && sqr <= next.vMaxSqr
    && (prev.axes != next.axes || Turn(prev, next) < -0.999999 ==> sqr == 0.0)
    && StepFits(prev.aJump, prev.aRateEnd - next.aRateStart, sqr)
    && StepFits(next.aJump, prev.aRateEnd - next.aRateStart, sqr)
    && (-0.999999 <= Turn(prev, next) <= 0.999999 ==>
          forall s: real :: HalfTurn(prev, next, s) ==> Rounds(sqr / Min(prev.accel, next.accel), s, deviation))
  }

  predicate JunctionOk(p: Path) { p.accel > 0.0 && p.vMaxSqr >= 0.0 && (p.aJump.Some? ==> p.aJump.value >= 0.0) }

  lemma StepExactly(cap: real, a: Option<real>, b: Option<real>, d: real, sqr: real)
    requires sqr >= 0.0 && (a.Some? ==> a.value >= 0.0) && (b.Some? ==> b.value >= 0.0)
    ensures sqr <= JumpCap(cap, MinJump(a, b), Abs(d)) <==> sqr <= cap && StepFits(a, d, sqr) && StepFits(b, d, sqr)
  {
    hide Sqr;
    SqrEven(d);
    if d == 0.0 {
      SqrZero();
      if a.Some? { SqrNonNegative(a.value); }
      if b.Some? { SqrNonNegative(b.value); }
    } else {
      if a.Some? { JumpExactly(a.value, Abs(d), sqr); }
      if b.Some? { JumpExactly(b.value, Abs(d), sqr); }
      if a.Some? && b.Some? { SqrGrows(a.value, b.value); }
    }
  }

  lemma SqrEven(d: real)
    ensures Sqr(Abs(d)) == Sqr(d)
  {
  }

  lemma SqrZero()
    ensures Sqr(0.0) == 0.0
  {
  }

  lemma JumpExactly(j: real, d: real, sqr: real)
    requires j >= 0.0 && d > 0.0 && sqr >= 0.0
    ensures sqr <= Sqr(j / d) <==> sqr * Sqr(d) <= Sqr(j)
  {
    var q := j / d;
    Divides(j, d);
    assert Sqr(j) == Sqr(q) * Sqr(d) by { ProductSqr(q, d); }
    Square(d);
    Scales(sqr, Sqr(q), Sqr(d));
  }

  lemma ProductSqr(q: real, d: real)
    ensures Sqr(d * q) == Sqr(q) * Sqr(d)
  {
  }

  lemma Square(d: real)
    requires d > 0.0
    ensures Sqr(d) > 0.0
  {
    SignOf(d, d);
  }

  lemma Scales(x: real, y: real, k: real)
    requires k > 0.0
    ensures x * k <= y * k <==> x <= y
  {
    SignOf(k, x - y);
    SignOf(k, y - x);
  }

  lemma CornerExactly(cap: real, a: real, deviation: real, s: real, sqr: real)
    requires a > 0.0 && deviation >= 0.0 && 0.0 <= s < 1.0
    ensures sqr <= CornerCap(cap, a, deviation, s) <==> sqr <= cap && Rounds(sqr / a, s, deviation)
  {
    var q, r := a * deviation * s / (1.0 - s), sqr / a;
    Divides(a * deviation * s, 1.0 - s);
    Divides(sqr, a);
    Scales(sqr, q, 1.0 - s);
    assert a * (r - (r + deviation) * s) == sqr * (1.0 - s) - a * deviation * s by { RadiusTimes(a, r, deviation, s); }
    SignOf(a, r - (r + deviation) * s);
  }

  lemma RadiusTimes(a: real, r: real, deviation: real, s: real)
    ensures a * (r - (r + deviation) * s) == (a * r) * (1.0 - s) - a * deviation * s
  {
  }

  lemma HalfIs(sq: real -> real, prev: Path, next: Path, s: real)
    requires IsSqrt(sq) && Turn(prev, next) >= -1.0
    ensures HalfTurn(prev, next, s) <==> s == sq(0.5 * (1.0 - CosTheta(prev, next)))
  {
    hide Turn;
    CosIs(prev, next);
    var half := 0.5 * (1.0 + Turn(prev, next));
    if s >= 0.0 { SquareOrder(s, sq(half)); }
    assert 2.0 * s * s == 2.0 * (s * s);
  }

  lemma CosIs(prev: Path, next: Path)
    ensures CosTheta(prev, next) == -Turn(prev, next)
  {
  }

  /** Both paths' caps, and A's. */
  predicate Fits(prev: Path, next: Path, sqr: real) {
    && sqr <= prev.vMaxSqr && sqr <= next.vMaxSqr
    && StepFits(prev.aJump, prev.aRateEnd - next.aRateStart, sqr) && StepFits(next.aJump, prev.aRateEnd - next.aRateStart, sqr)
  }

  function FitCap(prev: Path, next: Path): real {
    JumpCap(Min(prev.vMaxSqr, next.vMaxSqr), MinJump(prev.aJump, next.aJump), Abs(prev.aRateEnd - next.aRateStart))
  }

  lemma FitsExactly(prev: Path, next: Path, sqr: real)
    requires JunctionOk(prev) && JunctionOk(next) && sqr >= 0.0
    ensures sqr <= FitCap(prev, next) <==> Fits(prev, next, sqr)
    ensures Fits(prev, next, 0.0)
  {
    hide JumpCap, StepFits, MinJump;
    StepExactly(Min(prev.vMaxSqr, next.vMaxSqr), prev.aJump, next.aJump, prev.aRateEnd - next.aRateStart, sqr);
    NoStep(prev.aJump, prev.aRateEnd - next.aRateStart);
    NoStep(next.aJump, prev.aRateEnd - next.aRateStart);
  }

  ghost predicate RoundsAll(prev: Path, next: Path, radius: real, deviation: real) {
    forall s: real :: HalfTurn(prev, next, s) ==> Rounds(radius, s, deviation)
  }

  lemma TurnExactly(sq: real -> real, prev: Path, next: Path, deviation: real, sqr: real)
    requires IsSqrt(sq) && deviation >= 0.0 && JunctionOk(prev) && JunctionOk(next) && sqr >= 0.0
    requires -0.999999 <= CosTheta(prev, next) <= 0.999999
    ensures var s := sq(0.5 * (1.0 - CosTheta(prev, next)));
      sqr <= CornerCap(FitCap(prev, next), Min(prev.accel, next.accel), deviation, s) <==>
        Fits(prev, next, sqr) && RoundsAll(prev, next, sqr / Min(prev.accel, next.accel), deviation)
  {
    hide CosTheta, FitCap, CornerCap, Turn, HalfTurn, Rounds, Fits;
    var s := sq(0.5 * (1.0 - CosTheta(prev, next)));
    CosIs(prev, next);
    FitsExactly(prev, next, sqr);
    SineBelowOne(sq, 0.5 * (1.0 - CosTheta(prev, next)));
    CornerExactly(FitCap(prev, next), Min(prev.accel, next.accel), deviation, s, sqr);
    HalfIs(sq, prev, next, s);
    forall u: real | HalfTurn(prev, next, u)
      ensures u == s
    {
      HalfIs(sq, prev, next, u);
    }
  }

  /** The cap is exact: a corner's speed is under it if and only if the corner can be taken at that speed. */
  lemma JunctionExactly(sq: real -> real, prev: Path, next: Path, deviation: real, sqr: real)
    requires IsSqrt(sq) && deviation >= 0.0 && JunctionOk(prev) && JunctionOk(next) && sqr >= 0.0
    ensures sqr <= JunctionMaxSqr(sq, prev, next, deviation) <==> CanTake(prev, next, deviation, sqr)
  {
    hide CosTheta, JumpCap, CornerCap, StepFits, Turn, MinJump, Sqr, RoundsAll, Fits, Rounds, HalfTurn, CanTake;
    CosIs(prev, next);
    RoundsNone(prev, next, deviation);
    FitsExactly(prev, next, sqr);
    TakesIs(prev, next, deviation, sqr);
    if -0.999999 <= CosTheta(prev, next) <= 0.999999 { TurnExactly(sq, prev, next, deviation, sqr); }
  }

  lemma RoundsNone(prev: Path, next: Path, deviation: real)
    requires prev.accel > 0.0 && next.accel > 0.0 && deviation >= 0.0
    ensures RoundsAll(prev, next, 0.0 / Min(prev.accel, next.accel), deviation)
  {
    hide Turn;
    forall s: real | HalfTurn(prev, next, s)
      ensures Rounds(0.0, s, deviation)
    {
      Monotone(deviation, deviation, 0.0, s);
    }
  }

  lemma TakesIs(prev: Path, next: Path, deviation: real, sqr: real)
    requires prev.accel > 0.0 && next.accel > 0.0
    ensures CanTake(prev, next, deviation, sqr) <==>
      && Fits(prev, next, sqr) && (prev.axes != next.axes || Turn(prev, next) < -0.999999 ==> sqr == 0.0)
      && (-0.999999 <= Turn(prev, next) <= 0.999999 ==> RoundsAll(prev, next, sqr / Min(prev.accel, next.accel), deviation))
  {
    hide Turn, StepFits, Rounds, HalfTurn;
  }

  lemma NoStep(jump: Option<real>, d: real)
    ensures StepFits(jump, d, 0.0)
  {
    if jump.Some? { SqrNonNegative(jump.value); }
  }

  /** The cap a block is queued with: rest for an event, behind one and in an empty queue; otherwise exactly what the corner
      with the newest block allows. */
  lemma QueuedExactly(sq: real -> real, p: PlanState, kind: Kind, tag: int, path: Path, s0: real, deviation: real, sqr: real)
    requires IsSqrt(sq) && RouteOk(p.q) && JunctionOk(path) && deviation >= 0.0 && sqr >= 0.0
    requires forall i :: 0 <= i < |p.q| ==> JunctionOk(p.q[i].path)
    ensures var rest := kind.Event? || p.q == [] || p.q[|p.q| - 1].kind.Event?;
      sqr <= NewBlock(sq, p, kind, tag, path, s0, deviation).maxEntry <==>
        if rest then sqr == 0.0 else CanTake(p.q[|p.q| - 1].path, path, deviation, sqr)
  {
    hide JunctionMaxSqr, ProfileOf, CanTake, BlockOk;
    if p.q != [] { JunctionExactly(sq, p.q[|p.q| - 1].path, path, deviation, sqr); }
  }

  // ─── What is queued ────────────────────────────────────────────────────────

  /** A move is queued, once, if and only if it comes to a path and the ring has room; it is refused if and only if its axes
      do not go together, A cannot ride along, or there is no room for what would be queued or for a line of no length; and
      nothing changes but for the block queued. */
  lemma MoveQueued(sq: real -> real, p: PlanState, tag: int, move: Move, deviation: real)
    requires move.Along? ==> move.path.accel > 0.0
    ensures var (r, ok) := PushMove(sq, p, tag, move, deviation);
      && (!ok <==> move.MixedAxes? || move.Unlimited? || (p.Full() && (move.NoLength? || move.Along?)))
      && (move.Along? && !p.Full() <==> r != p && |r.q| == |p.q| + 1)
      && (r != p ==> r == p.(q := r.q, plan := None) && p.q <= r.q && r.q[|p.q|].path == move.path && r.q[|p.q|].tag == tag
                     && r.q[|p.q|].kind == Line && r.q[|p.q|].s0 == 0.0)
  {
    hide JunctionMaxSqr, ProfileOf;
  }

  /** A curve is refused only for want of room, and one entered at or past its end is accepted with nothing to queue. */
  lemma CurveQueued(sq: real -> real, p: PlanState, tag: int, path: Path, from: real, dir: Vec2, deviation: real)
    requires path.accel > 0.0 && path.length > 0.0
    ensures var (r, ok) := PushCurve(sq, p, tag, path, from, dir, deviation);
      && (ok <==> !p.Full()) && (|r.q| == |p.q| + 1 <==> ok && from < path.length) && (|r.q| != |p.q| + 1 ==> r == p)
      && (ok && from < path.length ==>
            var b := r.q[|p.q|];
            && r == p.(q := p.q + [b], plan := None) && b.kind == Curve && b.tag == tag
            && b.s0 == Max(from, 0.0) && b.s0 + b.path.length == path.length
            && b.path.dirStart == (if from <= 0.0 then path.dirStart else dir) && b.path.dirEnd == path.dirEnd)
  {
    hide JunctionMaxSqr, ProfileOf;
  }
}
