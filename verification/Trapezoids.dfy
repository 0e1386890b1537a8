/** Trapezoidal speed profiles (lib/planner/trapezoid.cpp).
    Floats are exact reals; sqrtf is a parameter `sq`, known only by IsSqrt. */
module Trapezoids {
  import opened Arithmetic

  ghost predicate IsSqrt(sq: real -> real) {
    forall x: real :: x >= 0.0 ==> sq(x) >= 0.0 && sq(x) * sq(x) == x
  }

  /** Taking the root of a square gives the number back. */
  lemma SqrtOfSquare(sq: real -> real, v: real)
    requires IsSqrt(sq) && v >= 0.0
    ensures sq(v * v) == v
  {
    assert v * v >= 0.0;
    SquareOrder(sq(v * v), v);
  }

  /** Distance covered in `t` from speed `v` under the constant acceleration `a`. */
  function Travel(v: real, a: real, t: real): real { v * t + 0.5 * a * t * t }

  function Speed(v: real, a: real, t: real): real { v + a * t }

  function Sqr(v: real): real { v * v }

  /** Squared speed after `s` at the acceleration `a`: what a ramp of that length can reach. */
  function Reach(sqr: real, a: real, s: real): real { sqr + 2.0 * a * s }

  datatype Trapezoid = Trapezoid(
    length: real, accel: real,
    vEntry: real, vCruise: real, vExit: real,
    tAcc: real, tCruise: real, tDec: real,
    sAcc: real, sDec: real)
  {
    function Duration(): real { tAcc + tCruise + tDec }

    function Position(t: real): real {
      if t <= 0.0 then 0.0
      else if t < tAcc then Travel(vEntry, accel, t)
      else
        var t1 := t - tAcc;
        if t1 < tCruise then sAcc + Travel(vCruise, 0.0, t1)
        else
          var t2 := t1 - tCruise;
          if t2 >= tDec then length
          else Clamp(length - sDec + Travel(vCruise, -accel, t2), 0.0, length)
    }

    function Velocity(t: real): real {
      if t <= 0.0 then vEntry
      else if t < tAcc then Speed(vEntry, accel, t)
      else
        var t1 := t - tAcc;
        if t1 < tCruise then vCruise
        else
          var t2 := t1 - tCruise;
          if t2 >= tDec then vExit else Speed(vCruise, -accel, t2)
    }
  }

  function Make(sq: real -> real, length: real, accel: real,
                entryIn: real, vMaxSqr: real, exitIn: real): Trapezoid
    requires accel > 0.0
  {
    var peakSqr := 0.5 * (entryIn + exitIn) + accel * length;
    var cruiseSqr := Min(vMaxSqr, peakSqr);
    var entrySqr := Min(entryIn, cruiseSqr);
    var exitSqr := Min(exitIn, cruiseSqr);
    Phases(length, accel, sq(entrySqr), sq(cruiseSqr), sq(exitSqr), entrySqr, cruiseSqr, exitSqr)
  }

  /** The rest of makeTrapezoid, once the three square roots are taken. */
  function Phases(length: real, accel: real, vEntry: real, vCruise: real, vExit: real,
                  entrySqr: real, cruiseSqr: real, exitSqr: real): Trapezoid
    requires accel > 0.0
  {
    var acc := (cruiseSqr - entrySqr) / (2.0 * accel);
    var dec := (cruiseSqr - exitSqr) / (2.0 * accel);
    var over := length - acc - dec < 0.0;
    var sAcc := if over then Clamp(acc, 0.0, length) else acc;
    var sDec := if over then length - sAcc else dec;
    var sCruise := if over then 0.0 else length - acc - dec;
    Trapezoid(length, accel, vEntry, vCruise, vExit,
              (vCruise - vEntry) / accel,
              if vCruise > 0.0 then sCruise / vCruise else 0.0,
              (vCruise - vExit) / accel,
              sAcc, sDec)
  }

  /** What the look-ahead promises of every request for a profile. */
  predicate Feasible(length: real, accel: real, entrySqr: real, vMaxSqr: real, exitSqr: real) {
    && accel > 0.0 && length >= 0.0
    && 0.0 <= entrySqr <= vMaxSqr && 0.0 <= exitSqr <= vMaxSqr
    && entrySqr <= Reach(exitSqr, accel, length)
    && exitSqr <= Reach(entrySqr, accel, length)
    && (length > 0.0 ==> vMaxSqr > 0.0)
  }

  /** A ramp from v0 up to v1 at `accel`: its time and its length. */
  predicate Ramp(accel: real, v0: real, v1: real, t: real, s: real) {
    && 0.0 <= v0 <= v1 && t >= 0.0
    && v1 == Speed(v0, accel, t)
    && s == Travel(v0, accel, t)
  }

  /** A profile whose three phases fit together: everything a consumer needs of one. */
  predicate Sound(tr: Trapezoid) {
    && tr.accel > 0.0
    && Ramp(tr.accel, tr.vEntry, tr.vCruise, tr.tAcc, tr.sAcc)
    && Ramp(tr.accel, tr.vExit, tr.vCruise, tr.tDec, tr.sDec)
    && tr.tCruise >= 0.0
    && tr.length == tr.sAcc + Travel(tr.vCruise, 0.0, tr.tCruise) + tr.sDec
  }

  lemma Divides(x: real, k: real)
    requires k > 0.0
    ensures k * (x / k) == x
  {
  }

  /** The ramps of a feasible request fit in its length. */
  lemma RampsFit(length: real, accel: real, entrySqr: real, cruiseSqr: real, exitSqr: real, acc: real, dec: real)
    requires accel > 0.0 && 2.0 * accel * acc == cruiseSqr - entrySqr && 2.0 * accel * dec == cruiseSqr - exitSqr
    requires entrySqr <= cruiseSqr && exitSqr <= cruiseSqr
    requires cruiseSqr <= 0.5 * (entrySqr + exitSqr) + accel * length
    ensures acc >= 0.0 && dec >= 0.0 && acc + dec <= length
  {
    var k := 2.0 * accel;
    assert k * (length - acc - dec) == k * length - k * acc - k * dec >= 0.0;
    SignOf(k, acc);
    SignOf(k, dec);
    SignOf(k, length - acc - dec);
  }

  lemma CruiseCovers(length: real, accel: real, entrySqr: real, vMaxSqr: real, exitSqr: real)
    requires Feasible(length, accel, entrySqr, vMaxSqr, exitSqr)
    ensures var c := Min(vMaxSqr, 0.5 * (entrySqr + exitSqr) + accel * length);
      entrySqr <= c && exitSqr <= c && c <= vMaxSqr && (c == 0.0 ==> length == 0.0)
  {
    assert 2.0 * accel * length == 2.0 * (accel * length);
    SignOf(accel, length);
  }

  lemma RampOf(accel: real, v0: real, v1: real, sqr0: real, sqr1: real, t: real, s: real)
    requires accel > 0.0 && 0.0 <= v0 && 0.0 <= v1 && v0 * v0 == sqr0 && v1 * v1 == sqr1 && sqr0 <= sqr1
    requires accel * t == v1 - v0 && 2.0 * accel * s == sqr1 - sqr0
    ensures Ramp(accel, v0, v1, t, s)
  {
    SquareOrder(v0, v1);
    SignOf(accel, t);
    RampLength(accel, v0, t, s);
  }

  lemma RampLength(accel: real, v0: real, t: real, s: real)
    requires accel > 0.0 && 2.0 * accel * s == (v0 + accel * t) * (v0 + accel * t) - v0 * v0
    ensures s == Travel(v0, accel, t)
  {
    assert accel * (s - (v0 * t + 0.5 * accel * t * t)) == 0.0;
    SignOf(accel, s - (v0 * t + 0.5 * accel * t * t));
  }

  lemma EntryRamp(accel: real, v0: real, v1: real, sqr0: real, sqr1: real)
    requires accel > 0.0 && 0.0 <= v0 && 0.0 <= v1 && v0 * v0 == sqr0 && v1 * v1 == sqr1 && sqr0 <= sqr1
    ensures Ramp(accel, v0, v1, (v1 - v0) / accel, (sqr1 - sqr0) / (2.0 * accel))
  {
    Divides(v1 - v0, accel);
    Divides(sqr1 - sqr0, 2.0 * accel);
    RampOf(accel, v0, v1, sqr0, sqr1, (v1 - v0) / accel, (sqr1 - sqr0) / (2.0 * accel));
  }

  lemma CruiseTime(c: real, rest: real)
    requires c >= 0.0 && rest >= 0.0 && (c == 0.0 ==> rest == 0.0)
    ensures var t := if c > 0.0 then rest / c else 0.0; t >= 0.0 && Travel(c, 0.0, t) == rest
  {
    if c > 0.0 {
      Divides(rest, c);
      SignOf(c, rest / c);
    }
  }

  lemma FitByParts(length: real, accel: real, entrySqr: real, cruiseSqr: real, exitSqr: real)
    requires accel > 0.0 && entrySqr <= cruiseSqr && exitSqr <= cruiseSqr
    requires cruiseSqr <= 0.5 * (entrySqr + exitSqr) + accel * length
    ensures var acc, dec := (cruiseSqr - entrySqr) / (2.0 * accel), (cruiseSqr - exitSqr) / (2.0 * accel);
      acc >= 0.0 && dec >= 0.0 && acc + dec <= length
  {
    Divides(cruiseSqr - entrySqr, 2.0 * accel);
    Divides(cruiseSqr - exitSqr, 2.0 * accel);
    RampsFit(length, accel, entrySqr, cruiseSqr, exitSqr,
             (cruiseSqr - entrySqr) / (2.0 * accel), (cruiseSqr - exitSqr) / (2.0 * accel));
  }

  lemma PhasesSound(length: real, accel: real, e: real, c: real, x: real, entrySqr: real, cruiseSqr: real, exitSqr: real)
    requires accel > 0.0 && 0.0 <= e && 0.0 <= c && 0.0 <= x
    requires e * e == entrySqr && c * c == cruiseSqr && x * x == exitSqr
    requires entrySqr <= cruiseSqr && exitSqr <= cruiseSqr
    requires cruiseSqr <= 0.5 * (entrySqr + exitSqr) + accel * length
    requires cruiseSqr == 0.0 ==> length == 0.0
    ensures Sound(Phases(length, accel, e, c, x, entrySqr, cruiseSqr, exitSqr))
  {
    hide Ramp, Travel;
    EntryRamp(accel, e, c, entrySqr, cruiseSqr);
    EntryRamp(accel, x, c, exitSqr, cruiseSqr);
    FitByParts(length, accel, entrySqr, cruiseSqr, exitSqr);
    CruiseTime(c, length - (cruiseSqr - entrySqr) / (2.0 * accel) - (cruiseSqr - exitSqr) / (2.0 * accel));
  }

  lemma MakeUnclamped(sq: real -> real, length: real, accel: real, entrySqr: real, vMaxSqr: real, exitSqr: real)
    requires Feasible(length, accel, entrySqr, vMaxSqr, exitSqr)
    ensures var c := Min(vMaxSqr, 0.5 * (entrySqr + exitSqr) + accel * length);
      Make(sq, length, accel, entrySqr, vMaxSqr, exitSqr)
        == Phases(length, accel, sq(entrySqr), sq(c), sq(exitSqr), entrySqr, c, exitSqr)
  {
    hide Phases;
    CruiseCovers(length, accel, entrySqr, vMaxSqr, exitSqr);
  }

  lemma PhasesKeepSpeeds(length: real, accel: real, e: real, c: real, x: real, entrySqr: real, cruiseSqr: real, exitSqr: real)
    requires accel > 0.0
    ensures var tr := Phases(length, accel, e, c, x, entrySqr, cruiseSqr, exitSqr);
      tr.length == length && tr.accel == accel && tr.vEntry == e && tr.vCruise == c && tr.vExit == x
  {
  }

  /** A feasible request is met exactly: no end speed is clamped and the phases add up. */
  lemma MakeExact(sq: real -> real, length: real, accel: real, entrySqr: real, vMaxSqr: real, exitSqr: real)
    requires IsSqrt(sq) && Feasible(length, accel, entrySqr, vMaxSqr, exitSqr)
    ensures var tr := Make(sq, length, accel, entrySqr, vMaxSqr, exitSqr);
      && Sound(tr) && tr.length == length && tr.accel == accel
      && tr.vEntry == sq(entrySqr) && tr.vExit == sq(exitSqr)
      && Sqr(tr.vEntry) == entrySqr && Sqr(tr.vExit) == exitSqr
      && Sqr(tr.vCruise) <= vMaxSqr
  {
    hide Sound, Make, Phases;
    var c := Min(vMaxSqr, 0.5 * (entrySqr + exitSqr) + accel * length);
    CruiseCovers(length, accel, entrySqr, vMaxSqr, exitSqr);
    MakeUnclamped(sq, length, accel, entrySqr, vMaxSqr, exitSqr);
    PhasesSound(length, accel, sq(entrySqr), sq(c), sq(exitSqr), entrySqr, c, exitSqr);
    PhasesKeepSpeeds(length, accel, sq(entrySqr), sq(c), sq(exitSqr), entrySqr, c, exitSqr);
  }
}
