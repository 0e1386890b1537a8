/** A profile is the fastest its block allows: at every point of it, and in all (lib/planner/trapezoid.cpp). */
module Fastest {
  import opened Arithmetic
  import opened Trapezoids
  import opened Kinematics

  /** The highest squared speed allowed at s: what the entry can have reached, what can still brake to the exit, the cap. */
  function Allowed(length: real, accel: real, entrySqr: real, vMaxSqr: real, exitSqr: real, s: real): real {
    Min(vMaxSqr, Min(Reach(entrySqr, accel, s), Reach(exitSqr, accel, length - s)))
  }

  /** The cruise is at the cap, unless there is none. */
  lemma CruiseAtCap(sq: real -> real, length: real, accel: real, entrySqr: real, vMaxSqr: real, exitSqr: real)
    requires IsSqrt(sq) && Feasible(length, accel, entrySqr, vMaxSqr, exitSqr)
    ensures var tr := Make(sq, length, accel, entrySqr, vMaxSqr, exitSqr);
      Sqr(tr.vCruise) == vMaxSqr || tr.tCruise == 0.0
  {
    hide Phases;
    var c := Min(vMaxSqr, 0.5 * (entrySqr + exitSqr) + accel * length);
    CruiseCovers(length, accel, entrySqr, vMaxSqr, exitSqr);
    MakeUnclamped(sq, length, accel, entrySqr, vMaxSqr, exitSqr);
    if c < vMaxSqr { NoCruise(length, accel, sq(entrySqr), sq(c), sq(exitSqr), entrySqr, c, exitSqr); }
    PhasesKeepSpeeds(length, accel, sq(entrySqr), sq(c), sq(exitSqr), entrySqr, c, exitSqr);
  }

  lemma NoCruise(length: real, accel: real, e: real, c: real, x: real, entrySqr: real, cruiseSqr: real, exitSqr: real)
    requires accel > 0.0 && cruiseSqr == 0.5 * (entrySqr + exitSqr) + accel * length
    ensures Phases(length, accel, e, c, x, entrySqr, cruiseSqr, exitSqr).tCruise == 0.0
  {
    var acc, dec := (cruiseSqr - entrySqr) / (2.0 * accel), (cruiseSqr - exitSqr) / (2.0 * accel);
    Divides(cruiseSqr - entrySqr, 2.0 * accel);
    Divides(cruiseSqr - exitSqr, 2.0 * accel);
    assert 2.0 * accel * (length - acc - dec) == 0.0;
    SignOf(2.0 * accel, length - acc - dec);
  }

  /** At every instant of a feasible profile the speed is the highest that entry, exit and cap allow where it then is. */
  lemma FastestEverywhere(sq: real -> real, length: real, accel: real, entrySqr: real, vMaxSqr: real, exitSqr: real, t: real)
    requires IsSqrt(sq) && Feasible(length, accel, entrySqr, vMaxSqr, exitSqr)
    requires 0.0 <= t <= Make(sq, length, accel, entrySqr, vMaxSqr, exitSqr).Duration()
    ensures var tr := Make(sq, length, accel, entrySqr, vMaxSqr, exitSqr);
      Sqr(tr.Velocity(t)) == Allowed(length, accel, entrySqr, vMaxSqr, exitSqr, tr.Position(t))
  {
    hide Travel, Speed, Sqr, Reach, Trapezoid.Position, Trapezoid.Velocity, Make, Sound;
    var tr := Make(sq, length, accel, entrySqr, vMaxSqr, exitSqr);
    MakeExact(sq, length, accel, entrySqr, vMaxSqr, exitSqr);
    CruiseAtCap(sq, length, accel, entrySqr, vMaxSqr, exitSqr);
    Energy(tr, t);
    if t <= tr.tAcc {
      InAcc(tr, t);
      RampEnergy(tr.vEntry, tr.accel, t);
    } else if t < tr.tAcc + tr.tCruise {
      InCruise(tr, t);
    } else {
      InDec(tr, t);
      RampEnergy(tr.vExit, tr.accel, tr.Duration() - t);
    }
  }

  // ─── At that speed ─────────────────────────────────────────────────────────

  /** From s1 at v1 to s2 in dt, off what the speed alone would give by no more than the acceleration can make of it. */
  predicate AtSpeed(a: real, v1: real, s1: real, s2: real, dt: real) {
    Abs(s2 - s1 - Prod(v1, dt)) <= 0.5 * Prod(a, Prod(dt, dt))
  }

  lemma OneRamp(a: real, v: real, acc: real, s: real, dt: real)
    requires -a <= acc <= a && dt >= 0.0
    ensures AtSpeed(a, v, s, s + Travel(v, acc, dt), dt)
  {
    Between(acc, a, dt * dt);
    SquareNotNegative(dt);
    assert Travel(v, acc, dt) - v * dt == 0.5 * (acc * (dt * dt));
  }

  lemma SquareNotNegative(d: real)
    ensures d * d >= 0.0
  {
  }

  lemma Between(acc: real, a: real, k: real)
    requires -a <= acc <= a
    ensures k >= 0.0 ==> -(a * k) <= acc * k <= a * k
  {
    if k >= 0.0 {
      NotNegative(a - acc, k);
      NotNegative(a + acc, k);
    }
  }

  lemma NotNegative(a: real, b: real)
    requires a >= 0.0 && b >= 0.0
    ensures a * b >= 0.0
  {
  }

  lemma SpeedJoins(a: real, v1: real, v2: real, s1: real, s2: real, s3: real, d1: real, d2: real)
    requires a >= 0.0 && d1 >= 0.0 && d2 >= 0.0 && Abs(v2 - v1) <= Prod(a, d1)
    requires AtSpeed(a, v1, s1, s2, d1) && AtSpeed(a, v2, s2, s3, d2)
    ensures AtSpeed(a, v1, s1, s3, d1 + d2)
  {
    hide Prod;
    SpeedSplits(v1, v2, d1, d2);
    Gained(v2 - v1, a, d1, d2);
    SquareOfSum(a, d1, d2);
  }

  lemma SpeedSplits(v1: real, v2: real, d1: real, d2: real)
    ensures Prod(v1, d1 + d2) == Prod(v1, d1) + Prod(v2, d2) - Prod(v2 - v1, d2)
  {
  }

  lemma Gained(u: real, a: real, d1: real, d2: real)
    requires Abs(u) <= Prod(a, d1) && d2 >= 0.0
    ensures Abs(Prod(u, d2)) <= Prod(a, Prod(d1, d2))
  {
    NotNegative(Prod(a, d1) - u, d2);
    NotNegative(Prod(a, d1) + u, d2);
    assert (a * d1 - u) * d2 == a * (d1 * d2) - u * d2;
    assert (a * d1 + u) * d2 == a * (d1 * d2) + u * d2;
  }

  lemma SquareOfSum(a: real, d1: real, d2: real)
    ensures Prod(a, Prod(d1 + d2, d1 + d2)) == Prod(a, Prod(d1, d1)) + Prod(a, Prod(d2, d2)) + 2.0 * Prod(a, Prod(d1, d2))
  {
    assert (d1 + d2) * (d1 + d2) == d1 * d1 + d2 * d2 + 2.0 * (d1 * d2);
  }

  /** Between any two instants a profile covers what its speed at the first would, to within half the acceleration times the
      time squared: its position is the sum of its speeds. */
  lemma MovesAtSpeed(tr: Trapezoid, t1: real, t2: real)
    requires Sound(tr) && 0.0 <= t1 <= t2 <= tr.Duration()
    ensures AtSpeed(tr.accel, tr.Velocity(t1), tr.Position(t1), tr.Position(t2), t2 - t1)
    decreases (if t1 < tr.tAcc < t2 then 1 else 0) + (if t1 < tr.tAcc + tr.tCruise < t2 then 1 else 0)
  {
    hide Travel, Speed, AtSpeed, Smooth, Sound, Trapezoid.Position, Trapezoid.Velocity;
    SoundParts(tr);
    var b1, b2 := tr.tAcc, tr.tAcc + tr.tCruise;
    if t1 < b1 < t2 {
      MovesAtSpeed(tr, t1, b1);
      MovesAtSpeed(tr, b1, t2);
      MovesOn(tr, t1, b1, t2);
    } else if t1 < b2 < t2 {
      MovesAtSpeed(tr, t1, b2);
      MovesAtSpeed(tr, b2, t2);
      MovesOn(tr, t1, b2, t2);
    } else {
      MovesInPhase(tr, t1, t2);
    }
  }

  lemma MovesOn(tr: Trapezoid, t1: real, m: real, t2: real)
    requires Sound(tr) && 0.0 <= t1 <= m <= t2 <= tr.Duration()
    requires AtSpeed(tr.accel, tr.Velocity(t1), tr.Position(t1), tr.Position(m), m - t1)
    requires AtSpeed(tr.accel, tr.Velocity(m), tr.Position(m), tr.Position(t2), t2 - m)
    ensures AtSpeed(tr.accel, tr.Velocity(t1), tr.Position(t1), tr.Position(t2), t2 - t1)
  {
    hide AtSpeed, Sound, Trapezoid.Position, Trapezoid.Velocity;
    ProfileSmooth(tr, t1, m);
    AccelPositive(tr);
    SpeedJoins(tr.accel, tr.Velocity(t1), tr.Velocity(m), tr.Position(t1), tr.Position(m), tr.Position(t2), m - t1, t2 - m);
    assert (m - t1) + (t2 - m) == t2 - t1;
  }

  lemma MovesInPhase(tr: Trapezoid, t1: real, t2: real)
    requires Sound(tr) && 0.0 <= t1 <= t2 <= tr.Duration()
    requires t2 <= tr.tAcc || tr.tAcc <= t1
    requires t2 <= tr.tAcc + tr.tCruise || tr.tAcc + tr.tCruise <= t1
    ensures AtSpeed(tr.accel, tr.Velocity(t1), tr.Position(t1), tr.Position(t2), t2 - t1)
  {
    hide Travel, Speed, AtSpeed, Sound, Trapezoid.Position, Trapezoid.Velocity;
    SoundParts(tr);
    AccelPositive(tr);
    var dt := t2 - t1;
    if t2 <= tr.tAcc {
      InAcc(tr, t1);
      InAcc(tr, t2);
      assert t1 + dt == t2;
      TravelAdds(tr.vEntry, tr.accel, t1, dt);
      OneRamp(tr.accel, tr.Velocity(t1), tr.accel, tr.Position(t1), dt);
    } else if tr.tAcc <= t1 && t2 <= tr.tAcc + tr.tCruise {
      InCruise(tr, t1);
      InCruise(tr, t2);
      assert (t1 - tr.tAcc) + dt == t2 - tr.tAcc;
      CruiseAdds(tr.vCruise, t1 - tr.tAcc, dt);
      OneRamp(tr.accel, tr.vCruise, 0.0, tr.Position(t1), dt);
    } else {
      InDec(tr, t1);
      InDec(tr, t2);
      var r := tr.Duration() - t2;
      assert r + dt == tr.Duration() - t1;
      TravelAdds(tr.vExit, tr.accel, r, dt);
      SpeedAdds(tr.vExit, tr.accel, r, dt);
      Backwards(tr.Velocity(t2), tr.accel, dt);
      OneRamp(tr.accel, tr.Velocity(t1), -tr.accel, tr.Position(t1), dt);
    }
  }

  // ─── In time ───────────────────────────────────────────────────────────────

  /** A sound profile's time, multiplied out: 2 c (a T + v0 + v1) = 2 c² + (2 a L + v0² + v1²). */
  lemma TimeOf(tr: Trapezoid, a: real, l: real, v0: real, v1: real)
    requires Sound(tr) && tr.accel == a && tr.length == l && tr.vEntry == v0 && tr.vExit == v1
    ensures 2.0 * Prod(tr.vCruise, Prod(a, tr.Duration()) + (v0 + v1)) == 2.0 * Sqr(tr.vCruise) + (2.0 * Prod(a, l) + Sqr(v0) + Sqr(v1))
  {
    var c, d0, d1, t := tr.vCruise, tr.tAcc, tr.tDec, tr.tCruise;
    RampTwice(a, v0, d0);
    RampTwice(a, v1, d1);
    assert c == v0 + a * d0 && c == v1 + a * d1;
    assert a * (d0 + t + d1) == (c - v0) + a * t + (c - v1);
    assert a * (tr.sAcc + c * t + tr.sDec) == a * tr.sAcc + a * (c * t) + a * tr.sDec;
    assert c * (2.0 * c + a * t) == 2.0 * (c * c) + a * (c * t);
  }

  lemma RampTwice(a: real, v: real, t: real)
    ensures 2.0 * (a * Travel(v, a, t)) == Sqr(v + a * t) - Sqr(v)
  {
  }

  /** The peak: the squared speed at which the two ramps meet. */
  predicate UnderPeak(tr: Trapezoid) { 2.0 * Sqr(tr.vCruise) <= 2.0 * Prod(tr.accel, tr.length) + Sqr(tr.vEntry) + Sqr(tr.vExit) }

  lemma SoundUnderPeak(tr: Trapezoid)
    requires Sound(tr)
    ensures UnderPeak(tr)
  {
    var a, c := tr.accel, tr.vCruise;
    RampTwice(a, tr.vEntry, tr.tAcc);
    RampTwice(a, tr.vExit, tr.tDec);
    TravelGrows(c, 0.0, tr.tCruise);
    assert a * tr.length == a * tr.sAcc + a * (c * tr.tCruise) + a * tr.sDec;
    Monotone(a, a, 0.0, c * tr.tCruise);
  }

  /** Over the same length between the same speeds, the profile with the higher cruise is no slower. */
  lemma HigherIsQuicker(tr: Trapezoid, other: Trapezoid)
    requires Sound(tr) && Sound(other) && tr.accel == other.accel && tr.length == other.length
    requires tr.vEntry == other.vEntry && tr.vExit == other.vExit && 0.0 < other.vCruise <= tr.vCruise
    ensures tr.Duration() <= other.Duration()
  {
    hide Sound, Travel, Prod, Trapezoid.Duration;
    TimeOf(tr, tr.accel, tr.length, tr.vEntry, tr.vExit);
    TimeOf(other, tr.accel, tr.length, tr.vEntry, tr.vExit);
    SoundUnderPeak(tr);
    AccelPositive(tr);
    var a, e := tr.accel, tr.vEntry + tr.vExit;
    var k := 2.0 * Prod(a, tr.length) + Sqr(tr.vEntry) + Sqr(tr.vExit);
    var x, y := Prod(a, tr.Duration()) + e, Prod(a, other.Duration()) + e;
    NotSlower(tr.vCruise, other.vCruise, x, y, k);
    Divided(a, e, tr.Duration(), other.Duration());
  }

  lemma Divided(a: real, e: real, s: real, t: real)
    requires a > 0.0 && Prod(a, s) + e <= Prod(a, t) + e
    ensures s <= t
  {
    if t < s { Positive(a, s - t); }
  }

  /** 2 c x = 2 c² + k and 2 d y = 2 d² + k, so 2 c d (y - x) = (c - d)(k - 2 c d). */
  lemma NotSlower(c: real, d: real, x: real, y: real, k: real)
    requires 0.0 < d <= c && 2.0 * Sqr(c) <= k
    requires 2.0 * Prod(c, x) == 2.0 * Sqr(c) + k && 2.0 * Prod(d, y) == 2.0 * Sqr(d) + k
    ensures x <= y
  {
    hide Prod, Sqr;
    Cross(c, d, x, y, k);
    ProdBelow(c, d);
    ProdSign(c - d, k - 2.0 * Prod(c, d));
    Pulls(Prod(c, d), y - x);
  }

  lemma ProdBelow(c: real, d: real)
    requires 0.0 < d <= c
    ensures 0.0 < Prod(c, d) <= Sqr(c)
  {
    assert Prod(c, d) > 0.0 by { Positive(c, d); }
    Below(c, d);
  }

  lemma Below(c: real, d: real)
    requires 0.0 < d <= c
    ensures Prod(c, d) <= Sqr(c)
  {
    Monotone(c, c, d, c);
  }

  lemma ProdSign(a: real, b: real)
    requires a >= 0.0 && b >= 0.0
    ensures Prod(a, b) >= 0.0
  {
  }

  lemma Pulls(k: real, x: real)
    requires k > 0.0 && Prod(k, x) >= 0.0
    ensures x >= 0.0
  {
    if x < 0.0 { Positive(k, -x); }
  }

  lemma AccelPositive(tr: Trapezoid)
    requires Sound(tr)
    ensures tr.accel > 0.0
  {
  }

  lemma Positive(a: real, b: real)
    requires a > 0.0 && b > 0.0
    ensures a * b > 0.0
  {
  }

  lemma Cross(c: real, d: real, x: real, y: real, k: real)
    requires 2.0 * Prod(c, x) == 2.0 * Sqr(c) + k && 2.0 * Prod(d, y) == 2.0 * Sqr(d) + k
    ensures 2.0 * Prod(Prod(c, d), y - x) == Prod(c - d, k - 2.0 * Prod(c, d))
  {
    hide Prod, Sqr;
    Regroup(c, d, y);
    Regroup(d, c, x);
    ProdSwaps(c, d);
    Spread(Prod(c, d), y, x);
    CrossSquares(c, d, k);
  }

  lemma Regroup(c: real, d: real, y: real)
    ensures 2.0 * Prod(Prod(c, d), y) == Prod(c, 2.0 * Prod(d, y))
  {
  }

  lemma Spread(k: real, y: real, x: real)
    ensures Prod(k, y - x) == Prod(k, y) - Prod(k, x)
  {
  }

  lemma CrossSquares(c: real, d: real, k: real)
    ensures Prod(c, 2.0 * Sqr(d) + k) - Prod(d, 2.0 * Sqr(c) + k) == Prod(c - d, k - 2.0 * Prod(c, d))
  {
  }

  /** So of all sound profiles over the block between those speeds and within its cap, the one made takes the least time. */
  lemma Quickest(sq: real -> real, length: real, accel: real, entrySqr: real, vMaxSqr: real, exitSqr: real, other: Trapezoid)
    requires IsSqrt(sq) && Feasible(length, accel, entrySqr, vMaxSqr, exitSqr)
    requires Sound(other) && other.length == length && other.accel == accel && Sqr(other.vCruise) <= vMaxSqr
    requires Sqr(other.vEntry) == entrySqr && Sqr(other.vExit) == exitSqr
    ensures Make(sq, length, accel, entrySqr, vMaxSqr, exitSqr).Duration() <= other.Duration()
  {
    hide Make, Sqr, Trapezoid.Duration, Travel, Speed;
    var tr := Make(sq, length, accel, entrySqr, vMaxSqr, exitSqr);
    MakeExact(sq, length, accel, entrySqr, vMaxSqr, exitSqr);
    MadeCruise(sq, length, accel, entrySqr, vMaxSqr, exitSqr);
    SoundParts(tr);
    SoundParts(other);
    SqrGrows(tr.vEntry, other.vEntry);
    SqrGrows(tr.vExit, other.vExit);
    SoundUnderPeak(other);
    SqrGrows(other.vCruise, tr.vCruise);
    PeakIs(other);
    if other.vCruise > 0.0 {
      HigherIsQuicker(tr, other);
    } else {
      AtRest(other);
      RestMade(sq, accel, vMaxSqr);
    }
  }

  lemma PeakIs(tr: Trapezoid)
    requires UnderPeak(tr)
    ensures Sqr(tr.vCruise) <= 0.5 * (Sqr(tr.vEntry) + Sqr(tr.vExit)) + tr.accel * tr.length
  {
    hide Sqr;
  }

  lemma MadeCruise(sq: real -> real, length: real, accel: real, entrySqr: real, vMaxSqr: real, exitSqr: real)
    requires IsSqrt(sq) && Feasible(length, accel, entrySqr, vMaxSqr, exitSqr)
    ensures Sqr(Make(sq, length, accel, entrySqr, vMaxSqr, exitSqr).vCruise) == Min(vMaxSqr, 0.5 * (entrySqr + exitSqr) + accel * length)
  {
    hide Phases;
    var c := Min(vMaxSqr, 0.5 * (entrySqr + exitSqr) + accel * length);
    CruiseCovers(length, accel, entrySqr, vMaxSqr, exitSqr);
    MakeUnclamped(sq, length, accel, entrySqr, vMaxSqr, exitSqr);
    PhasesKeepSpeeds(length, accel, sq(entrySqr), sq(c), sq(exitSqr), entrySqr, c, exitSqr);
  }

  lemma AtRest(tr: Trapezoid)
    requires Sound(tr) && tr.vCruise <= 0.0
    ensures tr.length == 0.0 && tr.vEntry == 0.0 && tr.vExit == 0.0 && tr.vCruise == 0.0 && tr.Duration() >= 0.0
    ensures Sqr(tr.vEntry) == 0.0 && Sqr(tr.vExit) == 0.0
  {
    SignOf(tr.accel, tr.tAcc);
    SignOf(tr.accel, tr.tDec);
  }

  lemma RestMade(sq: real -> real, accel: real, vMaxSqr: real)
    requires IsSqrt(sq) && accel > 0.0 && vMaxSqr >= 0.0
    ensures Make(sq, 0.0, accel, 0.0, vMaxSqr, 0.0).Duration() == 0.0
  {
    SqrtOfSquare(sq, 0.0);
  }
}
