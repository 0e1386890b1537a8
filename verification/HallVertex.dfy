/** The correction between lags: the vertex of the parabola through the peak and its neighbours
    (src/node/types/stepper/hall_index.cpp). */
module HallVertex {
  import opened Arithmetic
  import opened Autoconvolution
  import opened HallResolve

  /** a x² + b x + c. */
  function Quadratic(a: real, b: real, c: real, x: real): real { a * x * x + b * x + c }

  /** The parabola through (-1, ba), (0, bb) and (1, bc). */
  predicate Through(p: Peak, a: real, b: real, c: real) {
    && Quadratic(a, b, c, -1.0) == p.ba as real && Quadratic(a, b, c, 0.0) == p.bb as real
    && Quadratic(a, b, c, 1.0) == p.bc as real
  }

  /** No neighbour is above the peak. */
  predicate Tops(p: Peak) { p.bb >= p.ba && p.bb >= p.bc }

  predicate Flat(p: Peak) { p.ba - 2 * p.bb + p.bc == 0 }

  /** Where the parabola is highest; on the peak itself if it is flat. */
  ghost predicate Vertex(p: Peak, d: real) {
    && (Flat(p) ==> d == 0.0)
    && forall a: real, b: real, c: real, x: real :: Through(p, a, b, c) ==> Quadratic(a, b, c, x) <= Quadratic(a, b, c, d)
  }

  lemma ThroughIs(p: Peak, a: real, b: real, c: real)
    requires Through(p, a, b, c)
    ensures c == p.bb as real && 2.0 * b == (p.bc - p.ba) as real && 2.0 * a == (p.ba - 2 * p.bb + p.bc) as real
  {
  }

  function Den(p: Peak): real { (p.ba - 2 * p.bb + p.bc) as real }

  lemma DeltaIs(p: Peak)
    requires !Flat(p)
    ensures 2.0 * Prod(Den(p), Delta(p.ba, p.bb, p.bc)) == (p.ba - p.bc) as real
  {
  }

  /** A parabola is at most what it is where its slope is zero, if it opens downwards. */
  lemma HighestAt(a: real, b: real, c: real, x: real, d: real)
    requires a <= 0.0 && 2.0 * a * d + b == 0.0
    ensures Quadratic(a, b, c, x) <= Quadratic(a, b, c, d)
  {
    var u := x - d;
    assert Quadratic(a, b, c, x) - Quadratic(a, b, c, d) == a * (u * u) + (2.0 * a * d + b) * u;
    Square(u);
    NotPositive(a, u * u);
  }

  lemma Square(u: real)
    ensures u * u >= 0.0
  {
  }

  lemma NotPositive(a: real, s: real)
    requires a <= 0.0 && s >= 0.0
    ensures a * s <= 0.0
  {
  }

  /** Between neighbours no higher than the peak the correction is at most half a lag, towards the higher of them. */
  lemma DeltaInRange(p: Peak)
    requires Tops(p)
    ensures var d := Delta(p.ba, p.bb, p.bc);
      -0.5 <= d <= 0.5 && (d > 0.0 <==> p.bc > p.ba) && (d < 0.0 <==> p.bc < p.ba)
  {
    hide Delta, Prod;
    if Flat(p) {
      FlatDelta(p);
    } else {
      var d := Delta(p.ba, p.bb, p.bc);
      DeltaIs(p);
      Opposite(Den(p), d);
      Within(-Den(p), d);
    }
  }

  lemma Opposite(m: real, d: real)
    ensures Prod(-m, d) == -Prod(m, d)
  {
  }

  lemma Ordered(m: real, x: real, y: real)
    requires m > 0.0
    ensures Prod(m, x) <= Prod(m, y) <==> x <= y
  {
    SignOf(m, y - x);
    SignOf(m, x - y);
    Apart(m, y, x);
  }

  lemma Apart(m: real, y: real, x: real)
    ensures m * (y - x) == Prod(m, y) - Prod(m, x) && m * (x - y) == Prod(m, x) - Prod(m, y)
  {
  }

  lemma ByHalf(m: real)
    ensures 2.0 * Prod(m, 0.5) == m && 2.0 * Prod(m, -0.5) == -m && Prod(m, 0.0) == 0.0
  {
  }

  lemma Within(m: real, d: real)
    requires m > 0.0
    ensures -0.5 <= d <= 0.5 <==> -m <= 2.0 * Prod(m, d) <= m
    ensures (d > 0.0 <==> Prod(m, d) > 0.0) && (d < 0.0 <==> Prod(m, d) < 0.0)
  {
    hide Prod;
    ByHalf(m);
    Ordered(m, d, 0.5);
    Ordered(m, -0.5, d);
    Ordered(m, d, 0.0);
    Ordered(m, 0.0, d);
  }

  /** The slope of the parabola at the correction. */
  lemma DeltaSlope(p: Peak)
    requires !Flat(p)
    ensures 2.0 * ((p.ba - 2 * p.bb + p.bc) as real / 2.0) * Delta(p.ba, p.bb, p.bc) + (p.bc - p.ba) as real / 2.0 == 0.0
  {
    hide Delta;
    DeltaIs(p);
    Doubled(Den(p), Delta(p.ba, p.bb, p.bc));
  }

  lemma Doubled(m: real, d: real)
    ensures 2.0 * (m / 2.0) * d == Prod(m, d)
  {
  }

  /** The code's correction is the vertex, and there is no other. */
  lemma VertexIs(p: Peak, e: real)
    requires Tops(p)
    ensures Vertex(p, e) <==> e == Delta(p.ba, p.bb, p.bc)
  {
    hide Delta, Through, Quadratic;
    var d := Delta(p.ba, p.bb, p.bc);
    DeltaVertex(p);
    if Vertex(p, e) && !Flat(p) {
      var a, b, c := (p.ba - 2 * p.bb + p.bc) as real / 2.0, (p.bc - p.ba) as real / 2.0, p.bb as real;
      Fits(p);
      assert Quadratic(a, b, c, d) <= Quadratic(a, b, c, e);
      DeltaSlope(p);
      OnlyTop(a, b, c, e, d);
    }
    if Flat(p) { FlatDelta(p); }
  }

  lemma FlatDelta(p: Peak)
    requires Flat(p)
    ensures Delta(p.ba, p.bb, p.bc) == 0.0
  {
  }

  lemma Fits(p: Peak)
    ensures Through(p, (p.ba - 2 * p.bb + p.bc) as real / 2.0, (p.bc - p.ba) as real / 2.0, p.bb as real)
  {
  }

  lemma OnlyTop(a: real, b: real, c: real, x: real, d: real)
    requires a < 0.0 && 2.0 * a * d + b == 0.0 && Quadratic(a, b, c, d) <= Quadratic(a, b, c, x)
    ensures x == d
  {
    var u := x - d;
    assert Quadratic(a, b, c, x) - Quadratic(a, b, c, d) == a * Squared(u) + (2.0 * a * d + b) * u;
    if x != d {
      BendsDown(a, u);
      assert false;
    }
  }

  function Squared(u: real): real { u * u }

  lemma BendsDown(a: real, u: real)
    requires a < 0.0 && u != 0.0
    ensures a * Squared(u) < 0.0
  {
    hide Squared;
    SquarePositive(u);
    SignOf(-a, Squared(u));
  }

  lemma SquarePositive(u: real)
    requires u != 0.0
    ensures Squared(u) > 0.0
  {
    if u > 0.0 {
      SignOf(u, u);
    } else {
      SignOf(-u, -u);
      assert -u * -u == u * u;
    }
  }

  lemma DeltaVertex(p: Peak)
    requires Tops(p)
    ensures Vertex(p, Delta(p.ba, p.bb, p.bc))
  {
    hide Quadratic, Through, Delta;
    var d := Delta(p.ba, p.bb, p.bc);
    if Flat(p) { FlatDelta(p); } else { DeltaSlope(p); }
    forall a: real, b: real, c: real, x: real | Through(p, a, b, c)
      ensures Quadratic(a, b, c, x) <= Quadratic(a, b, c, d)
    {
      ThroughIs(p, a, b, c);
      HighestAt(a, b, c, x, d);
    }
  }

  /** Away from a peak and off a flat one the correction is within half a lag only of a pit: exactly where both neighbours
      are on the same side. */
  lemma SmallExactly(p: Peak)
    requires !Flat(p)
    ensures -0.5 <= Delta(p.ba, p.bb, p.bc) <= 0.5 <==> (p.bb >= p.ba && p.bb >= p.bc) || (p.bb <= p.ba && p.bb <= p.bc)
  {
    hide Delta, Prod;
    var d := Delta(p.ba, p.bb, p.bc);
    DeltaIs(p);
    Opposite(Den(p), d);
    if p.ba - 2 * p.bb + p.bc < 0 { Within(-Den(p), d); } else { Within(Den(p), d); }
  }

  // ─── The search's own peak ─────────────────────────────────────────────────

  lemma EndLags(g: seq<int>)
    requires |g| >= 1
    ensures AC(g, 0) == g[0] * g[0] && AC(g, 2 * |g| - 2) == g[|g| - 1] * g[|g| - 1]
  {
    LagIsAC(g, 0);
    LagIsAC(g, 2 * |g| - 2);
    SumOne(g, 0, 0);
    SumOne(g, 2 * |g| - 2, |g| - 1);
  }

  lemma SumOne(g: seq<int>, k: nat, i: nat)
    requires k - i == i < |g|
    ensures Sum(g, Conv(k), i, i + 1) == g[i] * g[i]
  {
    assert Sum(g, Conv(k), i, i) == 0;
  }

  /** No neighbour of the lag the search finds is above it if and only if the window's first sample, where it is next to
      lag 0, and its last, where it is next to the last lag, are no deeper than its root: always, where both are clear. */
  lemma TopsExactly(g: seq<int>)
    requires NonNegative(g) && |g| >= 2
    ensures var p, n := Scan(g, 2 * |g| - 1), |g|;
      Tops(p) <==> (p.bk == 1 ==> g[0] * g[0] <= p.best) && (p.bk == 2 * n - 3 ==> g[n - 1] * g[n - 1] <= p.best)
  {
    hide AC, Scan;
    ScanFinds(g, 2 * |g| - 1);
    EndLags(g);
  }

  /** Otherwise the correction may lead past the neighbour and away from the higher one. */
  lemma EdgeMisleads()
    ensures var p := Scan([10, 1, 0], 5);
      p.bk == 1 && p.ba == 100 && p.bc == 1 && !Tops(p) && Delta(p.ba, p.bb, p.bc) > 0.5
  {
    hide AC, Scan;
    var g := [10, 1, 0];
    FiveLags();
    ScanSteps(g);
  }

  lemma ScanSteps(g: seq<int>)
    requires AC(g, 0) == 100 && AC(g, 1) == 20 && AC(g, 2) == 1 && AC(g, 3) == 0 && AC(g, 4) == 0
    ensures Scan(g, 5) == Peak(0, 0, 20, 1, 100, 20, 1)
  {
    hide AC;
    assert Scan(g, 0) == Peak(0, 0, -1, 0, 0, 0, 0);
    assert Scan(g, 1) == Peak(0, 100, -1, 0, 0, 0, 0);
    assert Scan(g, 2) == Peak(100, 20, -1, 0, 0, 0, 0);
    assert Scan(g, 3) == Peak(20, 1, 20, 1, 100, 20, 1);
    assert Scan(g, 4) == Peak(1, 0, 20, 1, 100, 20, 1);
  }

  lemma FiveLags()
    ensures var g := [10, 1, 0];
      AC(g, 0) == 100 && AC(g, 1) == 20 && AC(g, 2) == 1 && AC(g, 3) == 0 && AC(g, 4) == 0
  {
    hide AC, G;
    var g := [10, 1, 0];
    assert G(g, -2) == 0 == G(g, -1) && G(g, 0) == 10 && G(g, 1) == 1 && G(g, 2) == 0 == G(g, 3) == G(g, 4) by { SamplesAre(g); }
    LagOf(g, 0);
    LagOf(g, 1);
    LagOf(g, 2);
    LagOf(g, 3);
    LagOf(g, 4);
  }

  lemma SamplesAre(g: seq<int>)
    requires g == [10, 1, 0]
    ensures G(g, -2) == 0 == G(g, -1) && G(g, 0) == 10 && G(g, 1) == 1 && G(g, 2) == 0 == G(g, 3) == G(g, 4)
  {
  }

  lemma LagOf(g: seq<int>, k: int)
    requires |g| == 3
    ensures AC(g, k) == G(g, 0) * G(g, k) + G(g, 1) * G(g, k - 1) + G(g, 2) * G(g, k - 2)
  {
    hide G;
    SumOfThree(g, Conv(k));
  }

  lemma SumOfThree(g: seq<int>, t: Term)
    ensures Sum(g, t, 0, 3) == At(g, t, 0) + At(g, t, 1) + At(g, t, 2)
  {
    hide At;
    assert Sum(g, t, 0, 0) == 0;
    assert Sum(g, t, 0, 1) == At(g, t, 0);
    assert Sum(g, t, 0, 2) == At(g, t, 0) + At(g, t, 1);
  }

  // ─── In steps ──────────────────────────────────────────────────────────────

  /** The nearest integer, of two the one further from zero. */
  lemma RoundIs(x: real)
    ensures -0.5 <= Round(x) as real - x <= 0.5
    ensures Round(x) as real - x == 0.5 ==> x > 0.0
    ensures Round(x) as real - x == -0.5 ==> x < 0.0
  {
  }

  lemma RoundGrows(x: real, y: real)
    requires x <= y
    ensures Round(x) <= Round(y)
  {
  }

  /** The position of the fraction d past lag bk: half of it, in samples. */
  function Place(p: Peak, d: real, winStart: int, decim: nat, sign: int): real {
    winStart as real + (p.bk as real + d) / 2.0 * (decim * sign) as real
  }

  /** The index is the place of the parabola's vertex, to the nearest step, and at most half a lag off the peak's own, on the
      side of the higher neighbour. */
  ghost predicate AtVertex(p: Peak, winStart: int, decim: nat, sign: int, index: int) {
    && (exists d: real :: Vertex(p, d) && -0.5 <= d <= 0.5 && -0.5 <= index as real - Place(p, d, winStart, decim, sign) <= 0.5)
    && (p.bc == p.ba ==> index == Round(Place(p, 0.0, winStart, decim, sign)))
    && (sign > 0 && p.bc > p.ba ==> index >= Round(Place(p, 0.0, winStart, decim, sign)))
    && (sign > 0 && p.bc < p.ba ==> index <= Round(Place(p, 0.0, winStart, decim, sign)))
    && (sign < 0 && p.bc > p.ba ==> index <= Round(Place(p, 0.0, winStart, decim, sign)))
    && (sign < 0 && p.bc < p.ba ==> index >= Round(Place(p, 0.0, winStart, decim, sign)))
  }

  lemma PlaceMoves(p: Peak, d: real, winStart: int, decim: nat, sign: int)
    ensures Place(p, d, winStart, decim, sign)
         == Place(p, 0.0, winStart, decim, sign) + d * (decim * sign) as real / 2.0
  {
    var w := (decim * sign) as real;
    assert (p.bk as real + d) / 2.0 * w == p.bk as real / 2.0 * w + d * w / 2.0;
  }

  lemma SignOfProduct(d: real, decim: nat, sign: int)
    ensures d >= 0.0 && sign >= 0 ==> d * (decim * sign) as real >= 0.0
    ensures d <= 0.0 && sign >= 0 ==> d * (decim * sign) as real <= 0.0
    ensures d >= 0.0 && sign <= 0 ==> d * (decim * sign) as real <= 0.0
    ensures d <= 0.0 && sign <= 0 ==> d * (decim * sign) as real >= 0.0
  {
    var k := decim * sign;
    assert sign >= 0 ==> k >= 0;
    assert sign <= 0 ==> k <= 0;
    if d >= 0.0 { SignedProduct(d, k as real); } else { SignedProduct(-d, k as real); assert -d * k as real == -(d * k as real); }
  }

  lemma SignedProduct(d: real, k: real)
    requires d >= 0.0
    ensures k >= 0.0 ==> d * k >= 0.0
    ensures k <= 0.0 ==> d * k <= 0.0
  {
    if k <= 0.0 { NotPositive(k, d); }
  }

  lemma IndexAtVertex(p: Peak, winStart: int, decim: nat, sign: int)
    requires Tops(p)
    ensures AtVertex(p, winStart, decim, sign, IndexAt(p, winStart, decim, sign))
  {
    hide Round, Delta, Vertex, Place;
    var d := Delta(p.ba, p.bb, p.bc);
    VertexIs(p, d);
    DeltaInRange(p);
    PlaceIs(p, winStart, decim, sign);
    RoundIs(Place(p, d, winStart, decim, sign));
    PlaceMoves(p, d, winStart, decim, sign);
    SignOfProduct(d, decim, sign);
    if Place(p, 0.0, winStart, decim, sign) <= Place(p, d, winStart, decim, sign) {
      RoundGrows(Place(p, 0.0, winStart, decim, sign), Place(p, d, winStart, decim, sign));
    }
    if Place(p, d, winStart, decim, sign) <= Place(p, 0.0, winStart, decim, sign) {
      RoundGrows(Place(p, d, winStart, decim, sign), Place(p, 0.0, winStart, decim, sign));
    }
  }

  lemma PlaceIs(p: Peak, winStart: int, decim: nat, sign: int)
    ensures IndexAt(p, winStart, decim, sign) == Round(Place(p, Delta(p.ba, p.bb, p.bc), winStart, decim, sign))
  {
    hide Delta, Round;
  }
}
