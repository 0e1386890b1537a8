/** The fitted parameter t(s) of a curve: the slope test, and what it buys (lib/planner/bezier.cpp). */
module CurveFit {
  import opened Arithmetic

  /** t(u) = u + d2 (u^2 - u) + d3 (u^3 - u). */
  function Fit(d2: real, d3: real, u: real): real { u + d2 * (u * u - u) + d3 * (u * u * u - u) }

  /** dt/du. */
  function Slope(d2: real, d3: real, u: real): real { 1.0 + d2 * (2.0 * u - 1.0) + d3 * (3.0 * u * u - 1.0) }

  /** The code's test: both ends, and the vertex if it lies between. */
  function SlopeMin(d2: real, d3: real): real {
    var ends := Min(1.0 - d2 - d3, 1.0 + d2 + 2.0 * d3);
    if d3 != 0.0 then
      var uv := -d2 / (3.0 * d3);
      if 0.0 < uv < 1.0 then Min(ends, 1.0 + d2 * (2.0 * uv - 1.0) + d3 * (3.0 * uv * uv - 1.0)) else ends
    else ends
  }

  predicate Monotonic(d2: real, d3: real) { SlopeMin(d2, d3) > 0.0 }

  lemma ProdSign(a: real, b: real)
    ensures a >= 0.0 && b >= 0.0 ==> Prod(a, b) >= 0.0
    ensures a <= 0.0 && b <= 0.0 ==> Prod(a, b) >= 0.0
    ensures a <= 0.0 && b >= 0.0 ==> Prod(a, b) <= 0.0
    ensures a > 0.0 && b > 0.0 ==> Prod(a, b) > 0.0
  {
  }

  lemma SlopeEnds(d2: real, d3: real)
    ensures Slope(d2, d3, 0.0) == 1.0 - d2 - d3 && Slope(d2, d3, 1.0) == 1.0 + d2 + 2.0 * d3
  {
  }

  /** Against the chord between the ends, the slope bends by 3 d3 u (u - 1). */
  lemma SlopeChord(d2: real, d3: real, u: real)
    ensures Slope(d2, d3, u)
         == Prod(1.0 - u, Slope(d2, d3, 0.0)) + Prod(u, Slope(d2, d3, 1.0)) + 3.0 * Prod(d3, Prod(u, u - 1.0))
  {
    var a, b := d2 * u, d3 * u;
    assert d2 * (2.0 * u - 1.0) == 2.0 * a - d2;
    assert d3 * (3.0 * u * u - 1.0) == 3.0 * (b * u) - d3;
    assert (1.0 - u) * (1.0 - d2 - d3) == 1.0 - d2 - d3 - u + a + b;
    assert u * (1.0 + d2 + 2.0 * d3) == u + a + 2.0 * b;
    assert d3 * (u * (u - 1.0)) == b * u - b;
  }

  /** Against its value at the vertex, where d2 == -3 d3 v, the slope is higher by 3 d3 (u - v)^2. */
  lemma SlopeVertex(d2: real, d3: real, u: real, v: real)
    requires d2 == -3.0 * Prod(d3, v)
    ensures Slope(d2, d3, u) == Slope(d2, d3, v) + 3.0 * Prod(d3, Prod(u - v, u - v))
  {
    var k, b := d3 * v, d3 * u;
    assert d2 * (2.0 * u - 1.0) == -6.0 * (k * u) + 3.0 * k;
    assert d2 * (2.0 * v - 1.0) == -6.0 * (k * v) + 3.0 * k;
    assert d3 * (3.0 * u * u - 1.0) == 3.0 * (b * u) - d3;
    assert d3 * (3.0 * v * v - 1.0) == 3.0 * (k * v) - d3;
    assert d3 * ((u - v) * (u - v)) == b * u - 2.0 * (k * u) + k * v;
  }

  /** From either end, with the vertex v beyond it, the slope only grows inwards. */
  lemma SlopeFromEnd(d2: real, d3: real, u: real, v: real, e: real)
    requires d2 == -3.0 * Prod(d3, v)
    ensures Slope(d2, d3, u) == Slope(d2, d3, e) + 3.0 * Prod(d3, Prod(u - e, u + e - 2.0 * v))
  {
    var k, b, f := d3 * v, d3 * u, d3 * e;
    assert d2 * (2.0 * u - 1.0) == -6.0 * (k * u) + 3.0 * k;
    assert d2 * (2.0 * e - 1.0) == -6.0 * (k * e) + 3.0 * k;
    assert d3 * (3.0 * u * u - 1.0) == 3.0 * (b * u) - d3;
    assert d3 * (3.0 * e * e - 1.0) == 3.0 * (f * e) - d3;
    assert d3 * ((u - e) * (u + e - 2.0 * v)) == b * u - f * e - 2.0 * (k * u) + 2.0 * (k * e);
  }

  lemma VertexIs(d2: real, d3: real)
    requires d3 != 0.0
    ensures d2 == -3.0 * Prod(d3, -d2 / (3.0 * d3))
  {
    var v := -d2 / (3.0 * d3);
    assert v * (3.0 * d3) == -d2;
  }

  lemma AcceptedFlat(d2: real, d3: real, u: real)
    requires Monotonic(d2, d3) && 0.0 <= u <= 1.0 && d3 <= 0.0
    ensures Slope(d2, d3, u) > 0.0
  {
    hide Slope, Prod;
    SlopeEnds(d2, d3);
    SlopeChord(d2, d3, u);
    ProdSign(1.0 - u, Slope(d2, d3, 0.0));
    ProdSign(u, Slope(d2, d3, 1.0));
    ProdSign(u, 1.0 - u);
    ProdSign(d3, Prod(u, u - 1.0));
    ProdSign(u - 1.0, u);
    ProdSwaps(u, u - 1.0);
  }

  lemma AcceptedBowl(d2: real, d3: real, u: real)
    requires Monotonic(d2, d3) && 0.0 <= u <= 1.0 && d3 > 0.0
    ensures Slope(d2, d3, u) > 0.0
  {
    hide Prod;
    var v := -d2 / (3.0 * d3);
    VertexIs(d2, d3);
    SlopeEnds(d2, d3);
    if 0.0 < v < 1.0 {
      SlopeVertex(d2, d3, u, v);
      ProdSign(u - v, u - v);
      ProdSign(d3, Prod(u - v, u - v));
    } else {
      var e := if v <= 0.0 then 0.0 else 1.0;
      SlopeFromEnd(d2, d3, u, v, e);
      ProdSign(u - e, u + e - 2.0 * v);
      ProdSign(d3, Prod(u - e, u + e - 2.0 * v));
    }
  }

  /** The test is exact: it accepts if and only if the slope is positive all along the curve. */
  lemma MonotonicExact(d2: real, d3: real)
    ensures Monotonic(d2, d3) <==> forall u: real :: 0.0 <= u <= 1.0 ==> Slope(d2, d3, u) > 0.0
  {
    hide Slope;
    if Monotonic(d2, d3) {
      forall u: real | 0.0 <= u <= 1.0
        ensures Slope(d2, d3, u) > 0.0
      {
        if d3 <= 0.0 { AcceptedFlat(d2, d3, u); } else { AcceptedBowl(d2, d3, u); }
      }
    }
    if forall u: real :: 0.0 <= u <= 1.0 ==> Slope(d2, d3, u) > 0.0 { PositiveAccepted(d2, d3); }
  }

  lemma PositiveAccepted(d2: real, d3: real)
    requires forall u: real :: 0.0 <= u <= 1.0 ==> Slope(d2, d3, u) > 0.0
    ensures Monotonic(d2, d3)
  {
    SlopeEnds(d2, d3);
    assert Slope(d2, d3, 0.0) > 0.0 && Slope(d2, d3, 1.0) > 0.0;
    if d3 != 0.0 {
      var uv := -d2 / (3.0 * d3);
      if 0.0 < uv < 1.0 { assert Slope(d2, d3, uv) > 0.0; }
    }
  }

  // ─── The parameter increases ───────────────────────────────────────────────

  function F2(u: real): real { u * u - u }
  function F3(u: real): real { u * u * u - u }
  function Mean2(x: real, y: real): real { 6.0 * (x + y) - 6.0 }
  function Mean3(x: real, y: real): real { 6.0 * (x * x + x * y + y * y) - 6.0 }

  lemma FitIs(d2: real, d3: real, u: real)
    ensures Fit(d2, d3, u) == u + Prod(d2, F2(u)) + Prod(d3, F3(u))
  {
  }

  lemma Mean2Is(x: real, y: real)
    ensures 6.0 * (F2(y) - F2(x)) == Prod(y - x, Mean2(x, y))
  {
  }

  lemma Mean3Is(x: real, y: real)
    ensures 6.0 * (F3(y) - F3(x)) == Prod(y - x, Mean3(x, y))
  {
    assert (y - x) * (x * x + x * y + y * y) == y * y * y - x * x * x;
  }

  lemma Spread(w: real, d2: real, p: real, d3: real, q: real)
    ensures Prod(w, 6.0 + Prod(d2, p) + Prod(d3, q)) == 6.0 * w + Prod(d2, Prod(w, p)) + Prod(d3, Prod(w, q))
  {
    assert w * (d2 * p) == d2 * (w * p);
    assert w * (d3 * q) == d3 * (w * q);
  }

  lemma ProdGap(d: real, a: real, b: real)
    ensures 6.0 * (Prod(d, a) - Prod(d, b)) == Prod(d, 6.0 * (a - b))
  {
  }

  /** Simpson's three samples of the slope. */
  lemma SlopeSum(d2: real, d3: real, x: real, y: real)
    ensures Slope(d2, d3, x) + 4.0 * Slope(d2, d3, (x + y) / 2.0) + Slope(d2, d3, y)
         == 6.0 + Prod(d2, Mean2(x, y)) + Prod(d3, Mean3(x, y))
  {
    var m := (x + y) / 2.0;
    assert 4.0 * (m * m) == x * x + 2.0 * (x * y) + y * y;
    var a, b, e := x * x, m * m, y * y;
    assert d3 * (3.0 * x * x - 1.0) == 3.0 * (d3 * a) - d3;
    assert d3 * (3.0 * m * m - 1.0) == 3.0 * (d3 * b) - d3;
    assert d3 * (3.0 * y * y - 1.0) == 3.0 * (d3 * e) - d3;
    assert d3 * (6.0 * (a + x * y + e) - 6.0) == 6.0 * (d3 * a) + 6.0 * (d3 * (x * y)) + 6.0 * (d3 * e) - 6.0 * d3;
    assert 4.0 * (d3 * b) == d3 * a + 2.0 * (d3 * (x * y)) + d3 * e;
  }

  /** The mean slope over [x, y] is Simpson's, exactly: the slope is a parabola. */
  lemma Simpson(d2: real, d3: real, x: real, y: real)
    ensures 6.0 * (Fit(d2, d3, y) - Fit(d2, d3, x))
         == Prod(y - x, Slope(d2, d3, x) + 4.0 * Slope(d2, d3, (x + y) / 2.0) + Slope(d2, d3, y))
  {
    hide Fit, Slope, Prod, F2, F3, Mean2, Mean3;
    FitIs(d2, d3, x);
    FitIs(d2, d3, y);
    Mean2Is(x, y);
    Mean3Is(x, y);
    ProdGap(d2, F2(y), F2(x));
    ProdGap(d3, F3(y), F3(x));
    SlopeSum(d2, d3, x, y);
    Spread(y - x, d2, Mean2(x, y), d3, Mean3(x, y));
  }

  /** An accepted fit increases strictly. */
  lemma FitIncreases(d2: real, d3: real, x: real, y: real)
    requires Monotonic(d2, d3) && 0.0 <= x < y <= 1.0
    ensures Fit(d2, d3, x) < Fit(d2, d3, y)
  {
    hide Fit, Slope, Monotonic, Prod;
    MonotonicExact(d2, d3);
    var m := (x + y) / 2.0;
    Simpson(d2, d3, x, y);
    ProdSign(y - x, Slope(d2, d3, x) + 4.0 * Slope(d2, d3, m) + Slope(d2, d3, y));
  }

  // ─── In arc length ─────────────────────────────────────────────────────────

  /** A curve's record: the quadratic and cubic coefficients as sent, the linear one derived. */
  datatype Curve = Curve(length: real, ts0: real, ts1: real, ts2: real)

  function D2(b: Curve): real { b.ts1 * b.length * b.length }
  function D3(b: Curve): real { b.ts2 * b.length * b.length * b.length }

  /** What the check leaves: an accepted slope, and the coefficient that makes the end exact. */
  predicate Checked(b: Curve) {
    b.length > 0.0 && Monotonic(D2(b), D3(b)) && b.ts0 == (1.0 - D2(b) - D3(b)) / b.length
  }

  function Raw(b: Curve, s: real): real { s * (b.ts0 + s * (b.ts1 + s * b.ts2)) }

  function BezierT(b: Curve, s: real): real {
    var t := Raw(b, s);
    if t < 0.0 then 0.0 else if t > 1.0 then 1.0 else t
  }

  function Twice(s: real, k: real): real { s * (s * k) }
  function Thrice(s: real, k: real): real { s * (s * (s * k)) }

  lemma RawTerms(b: Curve, s: real)
    ensures Raw(b, s) == Prod(s, b.ts0) + Twice(s, b.ts1) + Thrice(s, b.ts2)
  {
  }

  lemma FitTerms(d2: real, d3: real, u: real)
    ensures Fit(d2, d3, u) == Prod(u, 1.0 - d2 - d3) + Twice(u, d2) + Thrice(u, d3)
  {
  }

  lemma Linear(u: real, L: real, k: real, e: real)
    requires L > 0.0 && k == e / L
    ensures Prod(Prod(u, L), k) == Prod(u, e)
  {
    assert L * k == e;
  }

  lemma Square(b: Curve, u: real)
    ensures Twice(Prod(u, b.length), b.ts1) == Twice(u, D2(b))
  {
  }

  lemma Cube(b: Curve, u: real)
    ensures Thrice(Prod(u, b.length), b.ts2) == Thrice(u, D3(b))
  {
    var L, k := b.length, b.ts2;
    var v := u * L;
    assert v * v == (u * u) * (L * L);
    assert v * (v * v) == (u * u * u) * (L * L * L);
    assert v * (v * (v * k)) == (v * (v * v)) * k;
  }

  /** In arc length the code's polynomial is the fit. */
  lemma RawIsFit(b: Curve, u: real)
    requires Checked(b)
    ensures Raw(b, Prod(u, b.length)) == Fit(D2(b), D3(b), u)
  {
    hide Raw, Fit, Prod, Twice, Thrice, Monotonic, D2, D3;
    RawTerms(b, Prod(u, b.length));
    Linear(u, b.length, b.ts0, 1.0 - D2(b) - D3(b));
    Square(b, u);
    Cube(b, u);
    FitTerms(D2(b), D3(b), u);
  }

  /** Arc length as a fraction of the whole. */
  function InUnits(b: Curve, s: real): real
    requires b.length > 0.0
  {
    s / b.length
  }

  lemma InUnitsGrows(b: Curve, s: real, s': real)
    requires b.length > 0.0 && s < s'
    ensures InUnits(b, s) < InUnits(b, s')
  {
    assert s' / b.length - s / b.length == (s' - s) / b.length > 0.0;
  }

  lemma InUnitsIs(b: Curve, s: real)
    requires b.length > 0.0
    ensures Prod(InUnits(b, s), b.length) == s
  {
  }

  lemma InUnitsEnds(b: Curve)
    requires b.length > 0.0
    ensures InUnits(b, 0.0) == 0.0 && InUnits(b, b.length) == 1.0
  {
    var q := b.length / b.length;
    assert q * b.length == b.length;
    assert (q - 1.0) * b.length == 0.0;
  }

  lemma FitEnds(d2: real, d3: real)
    ensures Fit(d2, d3, 0.0) == 0.0 && Fit(d2, d3, 1.0) == 1.0
  {
  }

  lemma RawAt(b: Curve, s: real)
    requires Checked(b)
    ensures Raw(b, s) == Fit(D2(b), D3(b), InUnits(b, s))
  {
    hide Raw, Fit, InUnits, Prod, D2, D3, Monotonic;
    RawIsFit(b, InUnits(b, s));
    InUnitsIs(b, s);
  }

  lemma RawEnds(b: Curve)
    requires Checked(b)
    ensures Raw(b, 0.0) == 0.0 && Raw(b, b.length) == 1.0
  {
    hide Raw, Fit, InUnits, D2, D3, Monotonic;
    RawAt(b, 0.0);
    RawAt(b, b.length);
    InUnitsEnds(b);
    FitEnds(D2(b), D3(b));
  }

  /** A checked curve is traversed once, forwards: t(s) runs strictly from exactly 0 to exactly 1. */
  lemma Forwards(b: Curve, s: real, s': real)
    requires Checked(b) && 0.0 <= s < s' <= b.length
    ensures Raw(b, s) < Raw(b, s') && Raw(b, 0.0) == 0.0 && Raw(b, b.length) == 1.0
  {
    hide Raw, Fit, InUnits, D2, D3, Monotonic;
    RawEnds(b);
    RawAt(b, s);
    RawAt(b, s');
    InUnitsEnds(b);
    InUnitsGrows(b, s, s');
    if 0.0 < s { InUnitsGrows(b, 0.0, s); }
    if s' < b.length { InUnitsGrows(b, s', b.length); }
    FitIncreases(D2(b), D3(b), InUnits(b, s), InUnits(b, s'));
  }

  /** So the clamp is idle along the curve, whose ends are met only at its ends. */
  lemma ClampIdle(b: Curve, s: real)
    requires Checked(b) && 0.0 <= s <= b.length
    ensures BezierT(b, s) == Raw(b, s)
    ensures BezierT(b, s) == 0.0 <==> s == 0.0
    ensures BezierT(b, s) == 1.0 <==> s == b.length
  {
    hide Raw, D2, D3, Monotonic;
    RawEnds(b);
    if s > 0.0 { Forwards(b, 0.0, s); }
    if s < b.length { Forwards(b, s, b.length); }
  }
}
