/** The caps a path gets before it is planned, and what they guarantee of every axis at every instant
    (lib/planner/line.cpp, lib/planner/bezier.cpp, lib/planner/mesh.cpp). */
module SpeedCaps {
  import opened Arithmetic

  function Quotient(a: real, b: real): real
    requires b > 0.0
  {
    a / b
  }

  // ─── Arithmetic ────────────────────────────────────────────────────────────

  lemma ProdGrows(a: real, b: real, c: real)
    requires 0.0 <= a <= b && c >= 0.0
    ensures 0.0 <= Prod(a, c) <= Prod(b, c)
  {
    if c > 0.0 {
      SignOf(c, a);
      SignOf(c, b - a);
      assert c * (b - a) == b * c - a * c;
    }
  }

  lemma QuotientIs(a: real, b: real)
    requires b > 0.0
    ensures Prod(Quotient(a, b), b) == a && (a >= 0.0 ==> Quotient(a, b) >= 0.0) && (a > 0.0 ==> Quotient(a, b) > 0.0)
  {
  }

  /** A value within a limit divided by a rate keeps its product with any smaller rate within the limit. */
  lemma UnderCap(x: real, limit: real, rate: real, r: real)
    requires rate > 0.0 && 0.0 <= x <= Quotient(limit, rate) && 0.0 <= r <= rate
    ensures 0.0 <= Prod(x, r) <= limit
  {
    hide Prod, Quotient;
    QuotientIs(limit, rate);
    ProdGrows(x, Quotient(limit, rate), rate);
    ProdGrows(r, rate, x);
    ProdSwaps(x, r);
    ProdSwaps(x, rate);
  }

  lemma AbsProd(a: real, b: real)
    ensures Abs(Prod(a, b)) == Prod(Abs(a), Abs(b))
  {
  }

  lemma AbsSum(a: real, b: real)
    ensures Abs(a + b) <= Abs(a) + Abs(b)
  {
  }

  // ─── A straight line ───────────────────────────────────────────────────────

  datatype Limits = Limits(feed: seq<real>, accel: seq<real>)   // x, y, z, A

  predicate LimitsOk(l: Limits) {
    |l.feed| == 4 == |l.accel| && (forall i :: 0 <= i < 4 ==> l.feed[i] > 0.0 && l.accel[i] > 0.0)
  }

  /** Speed v along direction u stays within the first n axes' feeds; likewise for an acceleration. */
  predicate Within(v: real, u: seq<real>, limit: seq<real>, n: nat)
    requires n <= |u| && n <= |limit|
  {
    forall i :: 0 <= i < n ==> Prod(v, u[i]) <= limit[i]
  }

  predicate Reaches(v: real, u: seq<real>, limit: seq<real>, n: nat)
    requires n <= |u| && n <= |limit|
  {
    exists i :: 0 <= i < n && u[i] > 0.0 && Prod(v, u[i]) == limit[i]
  }

  /** The limits projected onto the direction: no axis exceeds its feed or its acceleration, and both are the highest that
      do not. `u` holds the magnitudes of the direction's components, not both zero. */
  method MakeLine(u: seq<real>, feed: real, l: Limits) returns (vMax: real, accel: real)
    requires LimitsOk(l) && feed >= 0.0 && |u| == 2 && u[0] >= 0.0 && u[1] >= 0.0 && (u[0] > 0.0 || u[1] > 0.0)
    ensures 0.0 <= vMax <= feed && accel > 0.0
    ensures Within(vMax, u, l.feed, 2) && (vMax == feed || Reaches(vMax, u, l.feed, 2))
    ensures Within(accel, u, l.accel, 2) && Reaches(accel, u, l.accel, 2)
  {
    hide Prod, Quotient;
    vMax := feed;
    accel := 0.0;
    var bounded := false;   // false: no acceleration limit yet
    for i := 0 to 2
      invariant 0.0 <= vMax <= feed && Within(vMax, u, l.feed, i) && (vMax == feed || Reaches(vMax, u, l.feed, i))
      invariant bounded ==> accel > 0.0 && Within(accel, u, l.accel, i) && Reaches(accel, u, l.accel, i)
      invariant !bounded ==> forall j :: 0 <= j < i ==> u[j] == 0.0
    {
      if u[i] <= 0.0 {
        ProdZero(vMax);
        ProdZero(accel);
        continue;
      }
      var v, a := Quotient(l.feed[i], u[i]), Quotient(l.accel[i], u[i]);
      QuotientIs(l.feed[i], u[i]);
      QuotientIs(l.accel[i], u[i]);
      ProdGrows(Min(vMax, v), v, u[i]);
      LowerWithin(vMax, Min(vMax, v), u, l.feed, i);
      vMax := Min(vMax, v);
      if bounded {
        LowerWithin(accel, Min(accel, a), u, l.accel, i);
        ProdGrows(Min(accel, a), a, u[i]);
      } else {
        ZeroWithin(a, u, l.accel, i);
      }
      accel := if bounded then Min(accel, a) else a;
      bounded := true;
    }
  }

  lemma ProdZero(a: real)
    ensures Prod(a, 0.0) == 0.0
  {
  }

  lemma LowerWithin(v: real, w: real, u: seq<real>, limit: seq<real>, n: nat)
    requires n <= |u| && n <= |limit| && 0.0 <= w <= v && Within(v, u, limit, n) && (forall i :: 0 <= i < |u| ==> u[i] >= 0.0)
    ensures Within(w, u, limit, n)
  {
    hide Prod;
    forall i | 0 <= i < n
      ensures Prod(w, u[i]) <= limit[i]
    {
      ProdGrows(w, v, u[i]);
    }
  }

  lemma ZeroWithin(a: real, u: seq<real>, limit: seq<real>, n: nat)
    requires n <= |u| && n <= |limit| && (forall i :: 0 <= i < n ==> u[i] == 0.0) && (forall i :: 0 <= i < n ==> limit[i] > 0.0)
    ensures Within(a, u, limit, n)
  {
    hide Prod;
    ProdZero(a);
  }

  // ─── A curve ───────────────────────────────────────────────────────────────

  const ROOT_HALF: real := 0.70710678
  const SHARE: real := 0.5

  /** What a path is capped at. */
  datatype Cap = Cap(vMaxSqr: real, accel: real)

  function CurveCap(feed: real, l: Limits, kappaMax: real): Cap
    requires LimitsOk(l)
  {
    var a := Min(l.accel[0], l.accel[1]) * ROOT_HALF;
    var v := Min(feed, Min(l.feed[0], l.feed[1]));
    Cap(if kappaMax > 0.0 then Min(Prod(v, v), Quotient(a, kappaMax)) else Prod(v, v), a)
  }

  /** The further caps of a curve whose tangent A follows; `wA` and `alphaA` are A's limits in radians. */
  function TangentCap(c: Cap, kappaMax: real, dkappaMax: real, wA: real, alphaA: real): Cap {
    var c1 := if kappaMax > 0.0 then
                var vw := Quotient(wA, kappaMax);
                Cap(Min(c.vMaxSqr, Prod(vw, vw)), Min(c.accel, Quotient((1.0 - SHARE) * alphaA, kappaMax)))
              else c;
    if dkappaMax > 0.0 then c1.(vMaxSqr := Min(c1.vMaxSqr, Quotient(SHARE * alphaA, dkappaMax))) else c1
  }

  /** An instant the planner allows: speed v, tangential acceleration at, at curvature k changing at dk per mm. */
  datatype Instant = Instant(v: real, at: real, k: real, dk: real)

  predicate Allowed(i: Instant, c: Cap, kappaMax: real, dkappaMax: real) {
    i.v >= 0.0 && Prod(i.v, i.v) <= c.vMaxSqr && Abs(i.at) <= c.accel && Abs(i.k) <= kappaMax && Abs(i.dk) <= dkappaMax
  }

  /** Centripetal acceleration. */
  function Centripetal(i: Instant): real { Prod(Prod(i.v, i.v), i.k) }

  lemma ProdNonNegative(v: real)
    ensures Prod(v, v) >= 0.0
  {
  }

  lemma CentripetalBound(i: Instant, feed: real, l: Limits, kappaMax: real, dkappaMax: real)
    requires LimitsOk(l) && feed >= 0.0 && Allowed(i, CurveCap(feed, l, kappaMax), kappaMax, dkappaMax)
    ensures Abs(Centripetal(i)) <= CurveCap(feed, l, kappaMax).accel
  {
    hide Prod, Quotient;
    var c := CurveCap(feed, l, kappaMax);
    ProdNonNegative(i.v);
    AbsProd(Prod(i.v, i.v), i.k);
    if kappaMax > 0.0 {
      UnderCap(Prod(i.v, i.v), c.accel, kappaMax, Abs(i.k));
    } else {
      ProdZero(Prod(i.v, i.v));
    }
  }

  lemma SquareBound(x: real, a: real)
    requires Abs(x) <= a
    ensures Prod(x, x) <= Prod(a, a)
  {
    hide Prod;
    ProdSigns(a - x, a + x);
    Conjugates(a, x);
  }

  lemma ProdSigns(p: real, q: real)
    requires p >= 0.0 && q >= 0.0
    ensures Prod(p, q) >= 0.0
  {
  }

  lemma Conjugates(a: real, x: real)
    ensures Prod(a - x, a + x) == Prod(a, a) - Prod(x, x)
  {
  }

  /** One axis's share of a tangential p and a centripetal q. */
  function AxisAccel(p: real, q: real, tx: real, ty: real): real { p * tx - q * ty }

  /** (at tx - k ty)^2 <= at^2 + k^2 for a unit vector: Cauchy-Schwarz. */
  lemma Projected(p: real, q: real, tx: real, ty: real)
    requires Prod(tx, tx) + Prod(ty, ty) == 1.0
    ensures Prod(AxisAccel(p, q, tx, ty), AxisAccel(p, q, tx, ty)) <= Prod(p, p) + Prod(q, q)
  {
    var x, y := p * tx - q * ty, p * ty + q * tx;
    assert x * x + y * y == (p * p + q * q) * (tx * tx + ty * ty);
    assert y * y >= 0.0;
  }

  /** Root a half, twice, squared: the shared bound fits inside the axis limit. */
  lemma RootHalf(m: real)
    requires m > 0.0
    ensures 2.0 * Prod(m * ROOT_HALF, m * ROOT_HALF) <= Prod(m, m)
  {
    assert (m * ROOT_HALF) * (m * ROOT_HALF) == (m * m) * (ROOT_HALF * ROOT_HALF);
    assert 2.0 * (ROOT_HALF * ROOT_HALF) <= 1.0;
    assert m * m >= 0.0;
  }

  /** On a curve no axis exceeds its acceleration: with tangent (tx, ty), the x acceleration is at tx - v^2 k ty and the y
      acceleration at ty + v^2 k tx. */
  lemma CurveAxes(i: Instant, feed: real, l: Limits, kappaMax: real, dkappaMax: real, tx: real, ty: real)
    requires LimitsOk(l) && feed >= 0.0 && Allowed(i, CurveCap(feed, l, kappaMax), kappaMax, dkappaMax)
    requires Prod(tx, tx) + Prod(ty, ty) == 1.0
    ensures Abs(AxisAccel(i.at, Centripetal(i), tx, ty)) <= l.accel[0]
    ensures Abs(AxisAccel(i.at, Centripetal(i), ty, -tx)) <= l.accel[1]
  {
    hide Prod, Quotient, Centripetal, AxisAccel;
    CentripetalBound(i, feed, l, kappaMax, dkappaMax);
    AxisBound(i.at, Centripetal(i), l, tx, ty);
    MinusSquare(tx);
    AxisBound(i.at, Centripetal(i), l, ty, -tx);
  }

  lemma MinusSquare(a: real)
    ensures Prod(-a, -a) == Prod(a, a)
  {
  }

  lemma AxisBound(p: real, q: real, l: Limits, tx: real, ty: real)
    requires LimitsOk(l) && Prod(tx, tx) + Prod(ty, ty) == 1.0
    requires var m := Min(l.accel[0], l.accel[1]); Abs(p) <= m * ROOT_HALF && Abs(q) <= m * ROOT_HALF
    ensures Abs(AxisAccel(p, q, tx, ty)) <= Min(l.accel[0], l.accel[1])
  {
    hide Prod, AxisAccel;
    var m := Min(l.accel[0], l.accel[1]);
    var x := AxisAccel(p, q, tx, ty);
    SquareBound(p, m * ROOT_HALF);
    SquareBound(q, m * ROOT_HALF);
    Projected(p, q, tx, ty);
    RootHalf(m);
    AbsSquare(x);
    SquareOrder(Abs(x), m);
  }

  lemma AbsSquare(x: real)
    ensures Prod(Abs(x), Abs(x)) == Prod(x, x)
  {
  }

  /** A turns no faster than its feed and, keeping half its acceleration for the change of curvature, no harder than its
      limit: |k v| <= w and |k at + dk v^2| <= alpha. */
  lemma CurveTurn(i: Instant, c: Cap, kappaMax: real, dkappaMax: real, wA: real, alphaA: real)
    requires wA > 0.0 && alphaA > 0.0 && kappaMax >= 0.0 && dkappaMax >= 0.0
    requires Allowed(i, TangentCap(c, kappaMax, dkappaMax, wA, alphaA), kappaMax, dkappaMax)
    ensures Abs(Prod(i.v, i.k)) <= wA
    ensures Abs(Prod(i.at, i.k) + Prod(Prod(i.v, i.v), i.dk)) <= alphaA
  {
    hide Prod, Quotient;
    ProdNonNegative(i.v);
    AbsProd(i.v, i.k);
    AbsProd(i.at, i.k);
    AbsProd(Prod(i.v, i.v), i.dk);
    ProdZero(i.v);
    ProdZero(Abs(i.at));
    ProdZero(Prod(i.v, i.v));
    if kappaMax > 0.0 {
      QuotientIs(wA, kappaMax);
      SquareOrder(i.v, Quotient(wA, kappaMax));
      UnderCap(i.v, wA, kappaMax, Abs(i.k));
      UnderCap(Abs(i.at), (1.0 - SHARE) * alphaA, kappaMax, Abs(i.k));
    }
    if dkappaMax > 0.0 { UnderCap(Prod(i.v, i.v), SHARE * alphaA, dkappaMax, Abs(i.dk)); }
    AbsSum(Prod(i.at, i.k), Prod(Prod(i.v, i.v), i.dk));
  }

  // ─── A linear turn of A, and the mesh ──────────────────────────────────────

  /** A turning linearly along the path, `rate` degrees per mm. */
  function RideCap(c: Cap, rate: real, feedA: real, accelA: real): Cap
    requires rate > 0.0
  {
    var v := Quotient(feedA, rate);
    Cap(Min(c.vMaxSqr, Prod(v, v)), Min(c.accel, Quotient(accelA, rate)))
  }

  lemma RideTurn(c: Cap, rate: real, feedA: real, accelA: real, v: real, at: real)
    requires rate > 0.0 && feedA > 0.0 && accelA > 0.0 && v >= 0.0
    requires var r := RideCap(c, rate, feedA, accelA); Prod(v, v) <= r.vMaxSqr && Abs(at) <= r.accel
    ensures Prod(v, rate) <= feedA && Prod(Abs(at), rate) <= accelA
  {
    hide Prod, Quotient;
    QuotientIs(feedA, rate);
    SquareOrder(v, Quotient(feedA, rate));
    UnderCap(v, feedA, rate, rate);
    UnderCap(Abs(at), accelA, rate, rate);
  }

  /** Z following the mesh, its slope and the slope's change per sampling step bounded. Zero slope: no cap (None). */
  datatype MeshCap = MeshCap(vMaxSqr: real, accel: real, capsSpeed: bool, capsAccel: bool)

  function MeshCapOf(slope: real, dslope: real, step: real, zFeed: real, zAccel: real): MeshCap {
    var c := if slope > 0.0 then
               var v := Quotient(zFeed, slope);
               MeshCap(Prod(v, v), Quotient(0.5 * zAccel, slope), true, true)
             else MeshCap(0.0, 0.0, false, false);
    if dslope > 0.0 then
      var v2 := Quotient(0.5 * zAccel * step, dslope);
      c.(vMaxSqr := if c.capsSpeed then Min(c.vMaxSqr, v2) else v2, capsSpeed := true)
    else c
  }

  /** Z keeps within its feed and acceleration: |slope v| and |slope at + (dslope / step) v^2|. */
  lemma MeshFollowed(slope: real, dslope: real, step: real, zFeed: real, zAccel: real, v: real, at: real, k: real, dk: real)
    requires slope >= 0.0 && dslope >= 0.0 && step > 0.0 && zFeed > 0.0 && zAccel > 0.0 && v >= 0.0
    requires Abs(k) <= slope && Prod(Abs(dk), step) <= dslope
    requires var c := MeshCapOf(slope, dslope, step, zFeed, zAccel);
      (c.capsSpeed ==> Prod(v, v) <= c.vMaxSqr) && (c.capsAccel ==> Abs(at) <= c.accel)
    ensures Abs(Prod(v, k)) <= zFeed
    ensures Abs(Prod(at, k) + Prod(Prod(v, v), dk)) <= zAccel
  {
    hide Prod, Quotient;
    ProdNonNegative(v);
    AbsProd(v, k);
    AbsProd(at, k);
    AbsProd(Prod(v, v), dk);
    ProdZero(v);
    ProdZero(Abs(at));
    if slope > 0.0 {
      QuotientIs(zFeed, slope);
      SquareOrder(v, Quotient(zFeed, slope));
      UnderCap(v, zFeed, slope, Abs(k));
      UnderCap(Abs(at), 0.5 * zAccel, slope, Abs(k));
    }
    BendBound(Prod(v, v), dk, dslope, step, zAccel);
    AbsSum(Prod(at, k), Prod(Prod(v, v), dk));
  }

  lemma BendBound(v2: real, dk: real, dslope: real, step: real, zAccel: real)
    requires v2 >= 0.0 && step > 0.0 && dslope >= 0.0 && zAccel > 0.0 && Prod(Abs(dk), step) <= dslope
    requires dslope > 0.0 ==> v2 <= Quotient(0.5 * zAccel * step, dslope)
    ensures Prod(v2, Abs(dk)) <= 0.5 * zAccel
  {
    hide Prod, Quotient;
    ProdStep(Abs(dk), step);
    ProdZero(v2);
    if dslope > 0.0 {
      UnderCap(v2, 0.5 * zAccel * step, dslope, Prod(Abs(dk), step));
      ProdAcross(v2, Abs(dk), step);
      ProdHalf(zAccel, step);
      Cancel(Prod(v2, Abs(dk)), 0.5 * zAccel, step);
    }
  }

  lemma ProdHalf(a: real, step: real)
    ensures Prod(0.5 * a, step) == 0.5 * a * step
  {
  }

  lemma ProdStep(a: real, step: real)
    requires a >= 0.0 && step > 0.0
    ensures Prod(a, step) >= 0.0 && (Prod(a, step) <= 0.0 ==> a == 0.0)
  {
  }

  lemma ProdAcross(a: real, b: real, c: real)
    ensures Prod(a, Prod(b, c)) == Prod(Prod(a, b), c)
  {
  }

  lemma Cancel(a: real, b: real, c: real)
    requires c > 0.0 && Prod(a, c) <= Prod(b, c)
    ensures a <= b
  {
    hide Prod;
    if a > b { ProdAbove(a, b, c); }
  }

  lemma ProdAbove(a: real, b: real, c: real)
    requires a > b && c > 0.0
    ensures Prod(a, c) > Prod(b, c)
  {
    assert (a - b) * c > 0.0;
  }

  // ─── The knife: its axis leads the tip by d ────────────────────────────────

  /** An XY path turning up to `rate` rad per mm; `a` is the slower of the XY accelerations. */
  function BladeCap(c: Cap, d: real, rate: real, a: real): Cap
    requires d > 0.0 && rate > 0.0
  {
    BladeDefined(d, rate);
    var k := 1.0 + Prod(d, rate);
    Cap(Min(Quotient(c.vMaxSqr, Prod(k, k)), Quotient(a, Prod(d, Prod(rate, rate)))), Quotient(c.accel, k))
  }

  lemma BladeDefined(d: real, rate: real)
    requires d > 0.0 && rate > 0.0
    ensures 1.0 + Prod(d, rate) > 1.0 && Prod(d, Prod(rate, rate)) > 0.0
    ensures Prod(1.0 + Prod(d, rate), 1.0 + Prod(d, rate)) > 0.0
  {
    var q, k := d * rate, 1.0 + d * rate;
    assert q > 0.0;
    assert rate * rate > 0.0;
    assert d * (rate * rate) > 0.0;
    assert k * k > 0.0;
  }

  lemma ProdSquares(v: real, k: real)
    ensures Prod(Prod(v, k), Prod(v, k)) == Prod(Prod(v, v), Prod(k, k))
  {
    assert (v * k) * (v * k) == (v * v) * (k * k);
  }

  lemma ProdRotate(v2: real, d: real, r2: real)
    ensures Prod(d, Prod(v2, r2)) == Prod(v2, Prod(d, r2))
  {
  }

  /** The axis runs up to 1 + d rate times faster than the tip, and still keeps to the path's own caps; and what the turn
      throws across it, d (rate v)^2, keeps within the acceleration. */
  lemma BladeKeeps(c: Cap, d: real, rate: real, a: real, v: real, at: real)
    requires d > 0.0 && rate > 0.0 && a > 0.0 && c.vMaxSqr >= 0.0 && c.accel >= 0.0
    requires var b := BladeCap(c, d, rate, a); Prod(v, v) <= b.vMaxSqr && Abs(at) <= b.accel
    ensures var k := 1.0 + Prod(d, rate); Prod(Prod(v, k), Prod(v, k)) <= c.vMaxSqr && Prod(Abs(at), k) <= c.accel
    ensures Prod(d, Prod(Prod(v, rate), Prod(v, rate))) <= a
  {
    hide Prod, Quotient;
    BladeDefined(d, rate);
    var k := 1.0 + Prod(d, rate);
    ProdNonNegative(v);
    ProdSquares(v, k);
    ProdSquares(v, rate);
    UnderCap(Prod(v, v), c.vMaxSqr, Prod(k, k), Prod(k, k));
    UnderCap(Abs(at), c.accel, k, k);
    ProdRotate(Prod(v, v), d, Prod(rate, rate));
    UnderCap(Prod(v, v), a, Prod(d, Prod(rate, rate)), Prod(d, Prod(rate, rate)));
  }

  // ─── And no lower than they need be ────────────────────────────────────────

  lemma QuotientExactly(x: real, a: real, b: real)
    requires b > 0.0
    ensures x <= Quotient(a, b) <==> Prod(x, b) <= a
  {
    hide Prod, Quotient;
    QuotientIs(a, b);
    if x <= Quotient(a, b) { NotAbove(x, Quotient(a, b), b); } else { ProdAbove(x, Quotient(a, b), b); }
  }

  lemma NotAbove(x: real, y: real, b: real)
    requires x <= y && b > 0.0
    ensures Prod(x, b) <= Prod(y, b)
  {
    SignOf(b, y - x);
    assert b * (y - x) == y * b - x * b;
  }

  lemma SquareQuotientExactly(x: real, a: real, b: real)
    requires b > 0.0 && a >= 0.0
    ensures x <= Prod(Quotient(a, b), Quotient(a, b)) <==> Prod(x, Prod(b, b)) <= Prod(a, a)
  {
    hide Prod, Quotient;
    var q := Quotient(a, b);
    QuotientIs(a, b);
    ProdSquares(q, b);
    ProdPositive(b);
    if x <= Prod(q, q) { NotAbove(x, Prod(q, q), Prod(b, b)); } else { ProdAbove(x, Prod(q, q), Prod(b, b)); }
  }

  lemma ProdPositive(b: real)
    requires b > 0.0
    ensures Prod(b, b) > 0.0
  {
    SignOf(b, b);
  }

  lemma MinSquare(x: real, y: real)
    requires x >= 0.0 && y >= 0.0
    ensures Prod(Min(x, y), Min(x, y)) == Min(Prod(x, x), Prod(y, y))
  {
    hide Prod;
    SquareOrder(x, y);
  }

  /** A squared speed is under a curve's cap if and only if it is within the feed, both axes' feeds and, turning at the
      sharpest point, the acceleration left to it. */
  lemma CurveCapExactly(feed: real, l: Limits, kappaMax: real, sqr: real)
    requires LimitsOk(l) && feed >= 0.0 && kappaMax >= 0.0
    ensures var c := CurveCap(feed, l, kappaMax);
      && (sqr <= c.vMaxSqr <==>
            && sqr <= Prod(feed, feed) && sqr <= Prod(l.feed[0], l.feed[0]) && sqr <= Prod(l.feed[1], l.feed[1])
            && (kappaMax > 0.0 ==> Prod(sqr, kappaMax) <= c.accel))
      && c.accel == Min(l.accel[0], l.accel[1]) * ROOT_HALF
  {
    hide Prod, Quotient;
    MinSquare(l.feed[0], l.feed[1]);
    MinSquare(feed, Min(l.feed[0], l.feed[1]));
    if kappaMax > 0.0 { QuotientExactly(sqr, CurveCap(feed, l, kappaMax).accel, kappaMax); }
  }

  /** And under the cap of a curve A follows if and only if A, at the sharpest point, keeps its speed, and half of its
      acceleration is enough for each of what the path's acceleration and the change of curvature ask of it. */
  lemma TangentCapExactly(c: Cap, kappaMax: real, dkappaMax: real, wA: real, alphaA: real, sqr: real, at: real)
    requires wA > 0.0 && alphaA > 0.0 && kappaMax >= 0.0 && dkappaMax >= 0.0
    ensures var t := TangentCap(c, kappaMax, dkappaMax, wA, alphaA);
      && (sqr <= t.vMaxSqr <==>
            && sqr <= c.vMaxSqr && (kappaMax > 0.0 ==> Prod(sqr, Prod(kappaMax, kappaMax)) <= Prod(wA, wA))
            && (dkappaMax > 0.0 ==> Prod(sqr, dkappaMax) <= SHARE * alphaA))
      && (at <= t.accel <==> at <= c.accel && (kappaMax > 0.0 ==> Prod(at, kappaMax) <= (1.0 - SHARE) * alphaA))
  {
    hide Prod, Quotient;
    if kappaMax > 0.0 {
      SquareQuotientExactly(sqr, wA, kappaMax);
      QuotientExactly(at, (1.0 - SHARE) * alphaA, kappaMax);
    }
    if dkappaMax > 0.0 { QuotientExactly(sqr, SHARE * alphaA, dkappaMax); }
  }

  /** The same of A riding along, of the mesh and of the knife's axis. */
  lemma RideCapExactly(c: Cap, rate: real, feedA: real, accelA: real, sqr: real, at: real)
    requires rate > 0.0 && feedA > 0.0 && accelA > 0.0
    ensures var r := RideCap(c, rate, feedA, accelA);
      && (sqr <= r.vMaxSqr <==> sqr <= c.vMaxSqr && Prod(sqr, Prod(rate, rate)) <= Prod(feedA, feedA))
      && (at <= r.accel <==> at <= c.accel && Prod(at, rate) <= accelA)
  {
    hide Prod, Quotient;
    SquareQuotientExactly(sqr, feedA, rate);
    QuotientExactly(at, accelA, rate);
  }

  lemma MeshCapExactly(slope: real, dslope: real, step: real, zFeed: real, zAccel: real, sqr: real, at: real)
    requires slope >= 0.0 && dslope >= 0.0 && step > 0.0 && zFeed > 0.0 && zAccel > 0.0
    ensures var c := MeshCapOf(slope, dslope, step, zFeed, zAccel);
      && (c.capsSpeed <==> slope > 0.0 || dslope > 0.0) && (c.capsAccel <==> slope > 0.0)
      && (c.capsSpeed ==>
            (sqr <= c.vMaxSqr <==>
               && (slope > 0.0 ==> Prod(sqr, Prod(slope, slope)) <= Prod(zFeed, zFeed))
               && (dslope > 0.0 ==> Prod(sqr, dslope) <= 0.5 * zAccel * step)))
      && (c.capsAccel ==> (at <= c.accel <==> Prod(at, slope) <= 0.5 * zAccel))
  {
    hide Prod, Quotient;
    if slope > 0.0 {
      SquareQuotientExactly(sqr, zFeed, slope);
      QuotientExactly(at, 0.5 * zAccel, slope);
    }
    if dslope > 0.0 { QuotientExactly(sqr, 0.5 * zAccel * step, dslope); }
  }

  lemma BladeCapExactly(c: Cap, d: real, rate: real, a: real, sqr: real, at: real)
    requires d > 0.0 && rate > 0.0
    ensures var b, k := BladeCap(c, d, rate, a), 1.0 + Prod(d, rate);
      && (sqr <= b.vMaxSqr <==> Prod(sqr, Prod(k, k)) <= c.vMaxSqr && Prod(sqr, Prod(d, Prod(rate, rate))) <= a)
      && (at <= b.accel <==> Prod(at, k) <= c.accel)
  {
    hide Prod, Quotient;
    BladeDefined(d, rate);
    var k := 1.0 + Prod(d, rate);
    QuotientExactly(sqr, c.vMaxSqr, Prod(k, k));
    QuotientExactly(sqr, a, Prod(d, Prod(rate, rate)));
    QuotientExactly(at, c.accel, k);
  }
}
