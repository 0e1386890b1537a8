/** A path as the planner sees it, and the speed limit of a corner (lib/planner/planner/path.h, line.cpp). */
module Paths {
  import opened Arithmetic
  import opened Trapezoids

  datatype Option<+T> = None | Some(value: T)

  datatype Axes = XY | Z | A | NoAxes

  datatype Vec2 = Vec2(x: real, y: real)

  /** `aJump` is None where the source holds INFINITY: A may change speed at once at a join. */
  datatype Path = Path(
    axes: Axes, length: real, accel: real, vMaxSqr: real,
    dirStart: Vec2, dirEnd: Vec2,
    aRateStart: real, aRateEnd: real, aJump: Option<real>)

  /** Limits a path is queued with: it moves, at some speed. */
  predicate PathOk(p: Path) {
    p.length > 0.0 && p.accel > 0.0 && p.vMaxSqr > 0.0 && (p.aJump.Some? ==> p.aJump.value >= 0.0)
  }

  function MinJump(a: Option<real>, b: Option<real>): Option<real> {
    if a.None? then b else if b.None? then a else Some(Min(a.value, b.value))
  }

  function JumpCap(cap: real, jump: Option<real>, dr: real): real
    requires dr >= 0.0
  {
    if dr > 0.0 && jump.Some? then Min(cap, Sqr(jump.value / dr)) else cap
  }

  function CosTheta(prev: Path, next: Path): real {
    -(prev.dirEnd.x * next.dirStart.x + prev.dirEnd.y * next.dirStart.y)
  }

  /** The junction cap, as a squared speed. */
  function JunctionMaxSqr(sq: real -> real, prev: Path, next: Path, deviation: real): real {
    if prev.axes != next.axes then 0.0
    else
      var cap := JumpCap(Min(prev.vMaxSqr, next.vMaxSqr), MinJump(prev.aJump, next.aJump),
                         Abs(prev.aRateEnd - next.aRateStart));
      var c := CosTheta(prev, next);
      if c < -0.999999 then cap
      else if c > 0.999999 then 0.0
      else
        var half := 0.5 * (1.0 - c);
        var sinHalf := sq(half);
        CornerCap(cap, Min(prev.accel, next.accel), deviation, sinHalf)
  }

  /** Speed of a circle rounding the corner within `deviation`; a division by zero is the source's INFINITY. */
  function CornerCap(cap: real, a: real, deviation: real, sinHalf: real): real {
    if sinHalf == 1.0 then cap else Min(cap, a * deviation * sinHalf / (1.0 - sinHalf))
  }

  lemma SqrNonNegative(v: real)
    ensures Sqr(v) >= 0.0
  {
  }

  lemma CornerInRange(cap: real, a: real, deviation: real, s: real)
    requires cap >= 0.0 && a > 0.0 && deviation >= 0.0 && 0.0 <= s < 1.0
    ensures 0.0 <= CornerCap(cap, a, deviation, s) <= cap
  {
    assert a * deviation >= 0.0;
    assert a * deviation * s >= 0.0;
    var q := a * deviation * s / (1.0 - s);
    assert (1.0 - s) * q == a * deviation * s;
    if q < 0.0 { SignOf(1.0 - s, -q); }
  }

  lemma JumpInRange(cap: real, jump: Option<real>, dr: real)
    requires cap >= 0.0 && dr >= 0.0
    ensures 0.0 <= JumpCap(cap, jump, dr) <= cap
  {
    hide Sqr;
    if dr > 0.0 && jump.Some? { SqrNonNegative(jump.value / dr); }
  }

  lemma SineBelowOne(sq: real -> real, half: real)
    requires IsSqrt(sq) && 0.0 <= half < 1.0
    ensures 0.0 <= sq(half) < 1.0
  {
    SquareOrder(1.0, sq(half));
  }

  /** What the look-ahead relies on: a junction is never negative, and never above either neighbour's cap. */
  lemma JunctionInRange(sq: real -> real, prev: Path, next: Path, deviation: real)
    requires IsSqrt(sq) && deviation >= 0.0
    requires prev.accel > 0.0 && next.accel > 0.0 && prev.vMaxSqr >= 0.0 && next.vMaxSqr >= 0.0
    ensures var j := JunctionMaxSqr(sq, prev, next, deviation);
      0.0 <= j <= prev.vMaxSqr && j <= next.vMaxSqr
  {
    hide CosTheta, JumpCap, CornerCap;
    var dr := Abs(prev.aRateEnd - next.aRateStart);
    var cap := Min(prev.vMaxSqr, next.vMaxSqr);
    JumpInRange(cap, MinJump(prev.aJump, next.aJump), dr);
    var c := CosTheta(prev, next);
    if prev.axes == next.axes && -0.999999 <= c <= 0.999999 {
      var half := 0.5 * (1.0 - c);
      SineBelowOne(sq, half);
      CornerInRange(JumpCap(cap, MinJump(prev.aJump, next.aJump), dr), Min(prev.accel, next.accel), deviation, sq(half));
    }
  }
}
