/** What a sound profile does in time: every instant of lib/planner/trapezoid.cpp's position and velocity. */
module Kinematics {
  import opened Arithmetic
  import opened Trapezoids

  lemma Monotone(p: real, q: real, r: real, s: real)
    requires 0.0 <= p <= q && 0.0 <= r <= s
    ensures 0.0 <= p * r <= q * s
  {
    assert p * r <= q * r;
    assert q * r <= q * s;
  }

  /** A ramp cut `r` seconds from its low end, seen from both ends. */
  lemma RampCut(a: real, lo: real, hi: real, d: real, s: real, r: real)
    requires a > 0.0 && Ramp(a, lo, hi, d, s) && 0.0 <= r <= d
    ensures lo <= Speed(lo, a, r) <= hi && Speed(hi, -a, d - r) == Speed(lo, a, r)
    ensures 0.0 <= Travel(lo, a, r) <= s
    ensures s - Travel(hi, -a, d - r) == Travel(lo, a, r)
  {
    assert a * (d - r) == a * d - a * r;
    Monotone(a, a, 0.0, r);
    Monotone(a, a, 0.0, d - r);
    TravelAdds(lo, a, r, d - r);
    TravelGrows(lo, a, r);
    TravelGrows(lo + a * r, a, d - r);
    assert s - Travel(hi, -a, d - r) == Travel(lo, a, r) by { CutIdentity(a, lo, d, r); }
  }

  lemma TravelAdds(v: real, a: real, t: real, u: real)
    ensures Travel(v, a, t + u) == Travel(v, a, t) + Travel(Speed(v, a, t), a, u)
  {
  }

  lemma TravelGrows(v: real, a: real, t: real)
    requires v >= 0.0 && a >= 0.0 && t >= 0.0
    ensures Travel(v, a, t) >= 0.0
  {
    Monotone(v, v, 0.0, t);
    Monotone(a, a, 0.0, t);
    Monotone(a * t, a * t, 0.0, t);
  }

  lemma CutIdentity(a: real, x: real, d: real, r: real)
    ensures Travel(x, a, d) - Travel(Speed(x, a, d), -a, d - r) == Travel(x, a, r)
  {
  }

  lemma SoundParts(tr: Trapezoid)
    requires Sound(tr)
    ensures tr.sAcc >= 0.0 && tr.sDec >= 0.0 && Travel(tr.vCruise, 0.0, tr.tCruise) >= 0.0
    ensures tr.tAcc >= 0.0 && tr.tCruise >= 0.0 && tr.tDec >= 0.0
    ensures tr.length == tr.sAcc + Travel(tr.vCruise, 0.0, tr.tCruise) + tr.sDec
    ensures 0.0 <= tr.vEntry <= tr.vCruise && 0.0 <= tr.vExit <= tr.vCruise
    ensures tr.sAcc == Travel(tr.vEntry, tr.accel, tr.tAcc) && tr.vCruise == Speed(tr.vEntry, tr.accel, tr.tAcc)
    ensures tr.sDec == Travel(tr.vExit, tr.accel, tr.tDec) && tr.vCruise == Speed(tr.vExit, tr.accel, tr.tDec)
  {
    TravelGrows(tr.vEntry, tr.accel, tr.tAcc);
    TravelGrows(tr.vExit, tr.accel, tr.tDec);
    TravelGrows(tr.vCruise, 0.0, tr.tCruise);
    hide Travel, Speed;
  }

  lemma AtZero(v: real, a: real)
    ensures Travel(v, a, 0.0) == 0.0 && Speed(v, a, 0.0) == v
  {
  }

  /** Braking, by the time left. */
  lemma InDec(tr: Trapezoid, t: real)
    requires Sound(tr) && tr.tAcc + tr.tCruise <= t <= tr.Duration()
    ensures var r := tr.Duration() - t;
      && tr.Velocity(t) == Speed(tr.vExit, tr.accel, r)
      && tr.length - tr.Position(t) == Travel(tr.vExit, tr.accel, r)
  {
    hide Travel, Speed;
    var r := tr.Duration() - t;
    SoundParts(tr);
    RampCut(tr.accel, tr.vExit, tr.vCruise, tr.tDec, tr.sDec, r);
    AtZero(tr.vExit, tr.accel);
    AtZero(tr.vEntry, tr.accel);
    AtZero(tr.vCruise, 0.0);
    if 0.0 < t && r > 0.0 {
      assert t - tr.tAcc - tr.tCruise == tr.tDec - r;
    }
  }

  lemma InCruise(tr: Trapezoid, t: real)
    requires Sound(tr) && tr.tAcc <= t <= tr.tAcc + tr.tCruise
    ensures tr.Velocity(t) == tr.vCruise
    ensures tr.Position(t) == tr.sAcc + Travel(tr.vCruise, 0.0, t - tr.tAcc)
  {
    hide Travel, Speed;
    SoundParts(tr);
    AtZero(tr.vEntry, tr.accel);
    AtZero(tr.vCruise, 0.0);
    if t == tr.tAcc + tr.tCruise {
      InDec(tr, t);
      assert tr.Duration() - t == tr.tDec;
    }
  }

  lemma InAcc(tr: Trapezoid, t: real)
    requires Sound(tr) && 0.0 <= t <= tr.tAcc
    ensures tr.Velocity(t) == Speed(tr.vEntry, tr.accel, t)
    ensures tr.Position(t) == Travel(tr.vEntry, tr.accel, t)
  {
    hide Travel, Speed;
    SoundParts(tr);
    AtZero(tr.vEntry, tr.accel);
    AtZero(tr.vCruise, 0.0);
    if t == tr.tAcc { InCruise(tr, t); }
  }

  /** The speed and the position moved no more than `a` and `vCap` allow over `dt`, and not backwards. */
  predicate Smooth(a: real, vCap: real, v1: real, s1: real, v2: real, s2: real, dt: real) {
    && Abs(v2 - v1) <= Prod(a, dt)
    && 0.0 <= s2 - s1 <= Prod(vCap, dt)
  }

  lemma SmoothTrans(a: real, vCap: real, v1: real, s1: real, v2: real, s2: real, v3: real, s3: real, d1: real, d2: real)
    requires Smooth(a, vCap, v1, s1, v2, s2, d1) && Smooth(a, vCap, v2, s2, v3, s3, d2)
    ensures Smooth(a, vCap, v1, s1, v3, s3, d1 + d2)
  {
    assert Prod(a, d1 + d2) == Prod(a, d1) + Prod(a, d2);
    assert Prod(vCap, d1 + d2) == Prod(vCap, d1) + Prod(vCap, d2);
  }

  lemma SpeedBound(v: real, acc: real, a: real, dt: real)
    requires a >= 0.0 && -a <= acc <= a && dt >= 0.0
    ensures Abs(Speed(v, acc, dt) - v) <= Prod(a, dt)
  {
    assert (a - acc) * dt >= 0.0;
    assert (a + acc) * dt >= 0.0;
    assert (a - acc) * dt == a * dt - acc * dt;
    assert (a + acc) * dt == a * dt + acc * dt;
  }

  lemma MeanBound(mean: real, vCap: real, dt: real)
    requires 0.0 <= mean <= vCap && dt >= 0.0
    ensures 0.0 <= Prod(mean, dt) <= Prod(vCap, dt)
  {
    Monotone(mean, vCap, dt, dt);
  }

  /** A constant acceleration, up or down, whose speeds stay in [0, vCap]. */
  lemma SmoothRamp(a: real, vCap: real, v: real, acc: real, s: real, dt: real)
    requires a >= 0.0 && -a <= acc <= a && dt >= 0.0
    requires 0.0 <= v <= vCap && 0.0 <= Speed(v, acc, dt) <= vCap
    ensures Smooth(a, vCap, v, s, Speed(v, acc, dt), s + Travel(v, acc, dt), dt)
  {
    hide Speed, Travel, Prod;
    SpeedBound(v, acc, a, dt);
    Halves(v, acc, dt);
    MeanBound(0.5 * (v + Speed(v, acc, dt)), vCap, dt);
  }

  lemma Halves(v: real, a: real, t: real)
    ensures Travel(v, a, t) == Prod(0.5 * (v + Speed(v, a, t)), t)
  {
  }

  /** At every instant of a profile the speed is between rest and cruise and the position inside the block. */
  lemma InRange(tr: Trapezoid, t: real)
    requires Sound(tr) && 0.0 <= t <= tr.Duration()
    ensures 0.0 <= tr.Velocity(t) <= tr.vCruise && 0.0 <= tr.Position(t) <= tr.length
  {
    hide Travel, Speed;
    SoundParts(tr);
    if t <= tr.tAcc {
      InAcc(tr, t);
      RampCut(tr.accel, tr.vEntry, tr.vCruise, tr.tAcc, tr.sAcc, t);
    } else if t <= tr.tAcc + tr.tCruise {
      InCruise(tr, t);
      TravelGrows(tr.vCruise, 0.0, t - tr.tAcc);
      TravelGrows(tr.vCruise, 0.0, tr.tAcc + tr.tCruise - t);
      CruiseAdds(tr.vCruise, t - tr.tAcc, tr.tAcc + tr.tCruise - t);
      assert (t - tr.tAcc) + (tr.tAcc + tr.tCruise - t) == tr.tCruise;
    } else {
      InDec(tr, t);
      RampCut(tr.accel, tr.vExit, tr.vCruise, tr.tDec, tr.sDec, tr.Duration() - t);
    }
  }

  lemma CruiseAdds(v: real, t: real, u: real)
    ensures Travel(v, 0.0, t + u) == Travel(v, 0.0, t) + Travel(v, 0.0, u)
  {
  }

  /** Speed and position at two instants of one profile: no jump, and never backwards. */
  lemma ProfileSmooth(tr: Trapezoid, t1: real, t2: real)
    requires Sound(tr) && 0.0 <= t1 <= t2 <= tr.Duration()
    ensures Smooth(tr.accel, tr.vCruise, tr.Velocity(t1), tr.Position(t1), tr.Velocity(t2), tr.Position(t2), t2 - t1)
    decreases (if t1 < tr.tAcc < t2 then 1 else 0) + (if t1 < tr.tAcc + tr.tCruise < t2 then 1 else 0)
  {
    hide Travel, Speed, Smooth, Trapezoid.Position, Trapezoid.Velocity;
    SoundParts(tr);
    var b1, b2 := tr.tAcc, tr.tAcc + tr.tCruise;
    if t1 < b1 < t2 {
      ProfileSmooth(tr, t1, b1);
      ProfileSmooth(tr, b1, t2);
      Joined(tr, t1, b1, t2);
    } else if t1 < b2 < t2 {
      ProfileSmooth(tr, t1, b2);
      ProfileSmooth(tr, b2, t2);
      Joined(tr, t1, b2, t2);
    } else {
      OnePhase(tr, t1, t2);
    }
  }

  lemma Joined(tr: Trapezoid, t1: real, m: real, t2: real)
    requires Smooth(tr.accel, tr.vCruise, tr.Velocity(t1), tr.Position(t1), tr.Velocity(m), tr.Position(m), m - t1)
    requires Smooth(tr.accel, tr.vCruise, tr.Velocity(m), tr.Position(m), tr.Velocity(t2), tr.Position(t2), t2 - m)
    ensures Smooth(tr.accel, tr.vCruise, tr.Velocity(t1), tr.Position(t1), tr.Velocity(t2), tr.Position(t2), t2 - t1)
  {
    hide Smooth, Trapezoid.Position, Trapezoid.Velocity;
    SmoothTrans(tr.accel, tr.vCruise, tr.Velocity(t1), tr.Position(t1), tr.Velocity(m), tr.Position(m),
                tr.Velocity(t2), tr.Position(t2), m - t1, t2 - m);
    assert (m - t1) + (t2 - m) == t2 - t1;
  }

  lemma OnePhase(tr: Trapezoid, t1: real, t2: real)
    requires Sound(tr) && 0.0 <= t1 <= t2 <= tr.Duration()
    requires t2 <= tr.tAcc || tr.tAcc <= t1
    requires t2 <= tr.tAcc + tr.tCruise || tr.tAcc + tr.tCruise <= t1
    ensures Smooth(tr.accel, tr.vCruise, tr.Velocity(t1), tr.Position(t1), tr.Velocity(t2), tr.Position(t2), t2 - t1)
  {
    hide Travel, Speed, Smooth, Trapezoid.Position, Trapezoid.Velocity;
    SoundParts(tr);
    InRange(tr, t1);
    InRange(tr, t2);
    var dt := t2 - t1;
    if t2 <= tr.tAcc {
      InAcc(tr, t1);
      InAcc(tr, t2);
      assert t1 + dt == t2;
      TravelAdds(tr.vEntry, tr.accel, t1, dt);
      SpeedAdds(tr.vEntry, tr.accel, t1, dt);
      SmoothRamp(tr.accel, tr.vCruise, tr.Velocity(t1), tr.accel, tr.Position(t1), dt);
    } else if tr.tAcc <= t1 && t2 <= tr.tAcc + tr.tCruise {
      InCruise(tr, t1);
      InCruise(tr, t2);
      assert (t1 - tr.tAcc) + dt == t2 - tr.tAcc;
      CruiseAdds(tr.vCruise, t1 - tr.tAcc, dt);
      SpeedStays(tr.vCruise, dt);
      SmoothRamp(tr.accel, tr.vCruise, tr.vCruise, 0.0, tr.Position(t1), dt);
    } else {
      InDec(tr, t1);
      InDec(tr, t2);
      var r := tr.Duration() - t2;
      assert r + dt == tr.Duration() - t1;
      TravelAdds(tr.vExit, tr.accel, r, dt);
      SpeedAdds(tr.vExit, tr.accel, r, dt);
      Backwards(tr.Velocity(t2), tr.accel, dt);
      SmoothRamp(tr.accel, tr.vCruise, tr.Velocity(t1), -tr.accel, tr.Position(t1), dt);
    }
  }

  lemma SpeedAdds(v: real, a: real, t: real, u: real)
    ensures Speed(v, a, t + u) == Speed(Speed(v, a, t), a, u)
  {
  }

  lemma SpeedStays(v: real, t: real)
    ensures Speed(v, 0.0, t) == v
  {
  }

  /** Running a ramp backwards in time. */
  lemma Backwards(v: real, a: real, t: real)
    ensures Speed(Speed(v, a, t), -a, t) == v
    ensures Travel(Speed(v, a, t), -a, t) == Travel(v, a, t)
  {
  }

  lemma RampEnergy(v: real, a: real, t: real)
    ensures Sqr(Speed(v, a, t)) == Reach(Sqr(v), a, Travel(v, a, t))
  {
  }

  lemma ReachGrows(sqr: real, a: real, s1: real, s2: real)
    requires a >= 0.0 && s1 <= s2
    ensures Reach(sqr, a, s1) <= Reach(sqr, a, s2)
  {
    Monotone(a, a, 0.0, s2 - s1);
  }

  lemma SqrGrows(v1: real, v2: real)
    requires 0.0 <= v1 && 0.0 <= v2
    ensures Sqr(v1) <= Sqr(v2) <==> v1 <= v2
    ensures Sqr(v1) == Sqr(v2) <==> v1 == v2
    ensures Sqr(v1) >= 0.0
  {
    SquareOrder(v1, v2);
  }

  /** Never faster than the entry allows so far, nor than what can still brake to the exit. */
  lemma Energy(tr: Trapezoid, t: real)
    requires Sound(tr) && 0.0 <= t <= tr.Duration()
    ensures Sqr(tr.Velocity(t)) <= Reach(Sqr(tr.vEntry), tr.accel, tr.Position(t))
    ensures Sqr(tr.Velocity(t)) <= Reach(Sqr(tr.vExit), tr.accel, tr.length - tr.Position(t))
    ensures Sqr(tr.Velocity(t)) <= Sqr(tr.vCruise)
  {
    hide Travel, Speed, Sqr, Reach, Trapezoid.Position, Trapezoid.Velocity;
    SoundParts(tr);
    InRange(tr, t);
    SqrGrows(tr.Velocity(t), tr.vCruise);
    RampEnergy(tr.vEntry, tr.accel, tr.tAcc);
    RampEnergy(tr.vExit, tr.accel, tr.tDec);
    var s := tr.Position(t);
    if t <= tr.tAcc {
      InAcc(tr, t);
      RampEnergy(tr.vEntry, tr.accel, t);
      RampCut(tr.accel, tr.vEntry, tr.vCruise, tr.tAcc, tr.sAcc, t);
    } else {
      if t <= tr.tAcc + tr.tCruise {
        InCruise(tr, t);
        TravelGrows(tr.vCruise, 0.0, t - tr.tAcc);
      } else {
        InDec(tr, t);
        RampCut(tr.accel, tr.vExit, tr.vCruise, tr.tDec, tr.sDec, tr.Duration() - t);
      }
      assert tr.sAcc <= s;
      ReachGrows(Sqr(tr.vEntry), tr.accel, tr.sAcc, s);
    }
    if t >= tr.tAcc + tr.tCruise {
      InDec(tr, t);
      RampEnergy(tr.vExit, tr.accel, tr.Duration() - t);
    } else {
      if tr.tAcc <= t {
        InCruise(tr, t);
        var u := tr.tAcc + tr.tCruise - t;
        TravelGrows(tr.vCruise, 0.0, u);
        CruiseAdds(tr.vCruise, t - tr.tAcc, u);
        assert (t - tr.tAcc) + u == tr.tCruise;
      }
      assert s + tr.sDec <= tr.length;
      ReachGrows(Sqr(tr.vExit), tr.accel, tr.sDec, tr.length - s);
    }
  }

  /** The whole profile: from rest at its start to its length, ends met exactly. */
  lemma Ends(tr: Trapezoid)
    requires Sound(tr)
    ensures tr.Duration() >= 0.0
    ensures tr.Position(0.0) == 0.0 && tr.Velocity(0.0) == tr.vEntry
    ensures tr.Position(tr.Duration()) == tr.length && tr.Velocity(tr.Duration()) == tr.vExit
    ensures tr.length > 0.0 ==> tr.Duration() > 0.0
  {
    hide Travel, Speed;
    SoundParts(tr);
    AtZero(tr.vExit, tr.accel);
    AtZero(tr.vEntry, tr.accel);
    AtZero(tr.vCruise, 0.0);
    InDec(tr, tr.Duration());
  }
}
