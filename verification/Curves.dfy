/** Cubic curves and their exact pieces (web/src/toolpath/geometry.ts), by way of the blossom: the value of a curve at
    three parameters at once, symmetric and affine in each. */
module Curves {

  datatype Pt = Pt(x: real, y: real)

  datatype Cubic = Cubic(p0: Pt, p1: Pt, p2: Pt, p3: Pt)

  function Lerp(a: real, b: real, t: real): real { a + (b - a) * t }

  function LerpPt(a: Pt, b: Pt, t: real): Pt { Pt(Lerp(a.x, b.x, t), Lerp(a.y, b.y, t)) }

  /** One coordinate of B(t), in Bernstein form. */
  function Bernstein(p0: real, p1: real, p2: real, p3: real, t: real): real {
    var mt := 1.0 - t;
    mt * mt * mt * p0 + 3.0 * mt * mt * t * p1 + 3.0 * mt * t * t * p2 + t * t * t * p3
  }

  function BezierPoint(c: Cubic, t: real): Pt {
    Pt(Bernstein(c.p0.x, c.p1.x, c.p2.x, c.p3.x, t), Bernstein(c.p0.y, c.p1.y, c.p2.y, c.p3.y, t))
  }

  /** De Casteljau's split at t. */
  function SplitAt(c: Cubic, t: real): (Cubic, Cubic) {
    var a, b, d := LerpPt(c.p0, c.p1, t), LerpPt(c.p1, c.p2, t), LerpPt(c.p2, c.p3, t);
    var ab, bd := LerpPt(a, b, t), LerpPt(b, d, t);
    var m := LerpPt(ab, bd, t);
    (Cubic(c.p0, a, ab, m), Cubic(m, bd, d, c.p3))
  }

  // ─── The blossom ───────────────────────────────────────────────────────────

  /** Two steps of de Casteljau, at two parameters. */
  function Quad(a: Pt, b: Pt, c: Pt, x: real, y: real): Pt { LerpPt(LerpPt(a, b, x), LerpPt(b, c, x), y) }

  function Blossom(c: Cubic, x: real, y: real, z: real): Pt {
    LerpPt(Quad(c.p0, c.p1, c.p2, x, y), Quad(c.p1, c.p2, c.p3, x, y), z)
  }

  /** The piece of c over [r, s]. */
  function Sub(c: Cubic, r: real, s: real): Cubic {
    Cubic(Blossom(c, r, r, r), Blossom(c, r, r, s), Blossom(c, r, s, s), Blossom(c, s, s, s))
  }

  lemma LerpOfLerp(a: real, b: real, x: real, y: real, u: real)
    ensures Lerp(a, b, Lerp(x, y, u)) == Lerp(Lerp(a, b, x), Lerp(a, b, y), u)
  {
    var d := b - a;
    assert d * (x + (y - x) * u) == d * x + (d * y - d * x) * u;
  }

  lemma QuadSwaps1(a: real, b: real, c: real, x: real, y: real)
    ensures Lerp(Lerp(a, b, x), Lerp(b, c, x), y) == Lerp(Lerp(a, b, y), Lerp(b, c, y), x)
  {
    var d, e := b - a, c - b;
    assert (d + (e - d) * x) * y == d * y + (e - d) * (x * y);
    assert (d + (e - d) * y) * x == d * x + (e - d) * (x * y);
  }

  lemma QuadSwaps(a: Pt, b: Pt, c: Pt, x: real, y: real)
    ensures Quad(a, b, c, x, y) == Quad(a, b, c, y, x)
  {
    hide Lerp;
    QuadSwaps1(a.x, b.x, c.x, x, y);
    QuadSwaps1(a.y, b.y, c.y, x, y);
  }

  /** Symmetric in its parameters... */
  lemma BlossomSwaps(c: Cubic, x: real, y: real, z: real)
    ensures Blossom(c, x, y, z) == Blossom(c, y, x, z) && Blossom(c, x, y, z) == Blossom(c, x, z, y)
  {
    hide LerpPt;
    QuadSwaps(c.p0, c.p1, c.p2, x, y);
    QuadSwaps(c.p1, c.p2, c.p3, x, y);
    QuadSwaps(LerpPt(c.p0, c.p1, x), LerpPt(c.p1, c.p2, x), LerpPt(c.p2, c.p3, x), y, z);
  }

  /** ... and affine in the last. */
  lemma BlossomLerps(c: Cubic, x: real, y: real, r: real, s: real, u: real)
    ensures LerpPt(Blossom(c, x, y, r), Blossom(c, x, y, s), u) == Blossom(c, x, y, Lerp(r, s, u))
  {
    hide Lerp, Quad;
    var a, b := Quad(c.p0, c.p1, c.p2, x, y), Quad(c.p1, c.p2, c.p3, x, y);
    LerpOfLerp(a.x, b.x, r, s, u);
    LerpOfLerp(a.y, b.y, r, s, u);
  }

  lemma Casteljau1(p0: real, p1: real, p2: real, p3: real, t: real)
    ensures Bernstein(p0, p1, p2, p3, t)
         == Lerp(Lerp(Lerp(p0, p1, t), Lerp(p1, p2, t), t), Lerp(Lerp(p1, p2, t), Lerp(p2, p3, t), t), t)
  {
    Powers(p0, p1, p2, p3, t);
    Nested(p0, p1, p2, p3, t);
  }

  /** Both forms in powers of t. */
  function Power(p0: real, p1: real, p2: real, p3: real, t: real): real {
    p0 + 3.0 * (p1 - p0) * t + 3.0 * (p2 - 2.0 * p1 + p0) * (t * t) + (p3 - 3.0 * p2 + 3.0 * p1 - p0) * (t * t * t)
  }

  lemma Powers(p0: real, p1: real, p2: real, p3: real, t: real)
    ensures Bernstein(p0, p1, p2, p3, t) == Power(p0, p1, p2, p3, t)
  {
    var mt, q, k := 1.0 - t, t * t, t * t * t;
    assert mt * mt == 1.0 - 2.0 * t + q;
    assert mt * mt * mt == 1.0 - 3.0 * t + 3.0 * q - k;
    assert mt * mt * t == t - 2.0 * q + k;
    assert mt * t * t == q - k;
  }

  lemma Nested2(a: real, b: real, c: real, t: real)
    ensures Lerp(Lerp(a, b, t), Lerp(b, c, t), t) == a + 2.0 * (b - a) * t + (c - 2.0 * b + a) * (t * t)
  {
    var d, e := b - a, c - b;
    assert (d + (e - d) * t) * t == d * t + (e - d) * (t * t);
  }

  lemma Nested(p0: real, p1: real, p2: real, p3: real, t: real)
    ensures Power(p0, p1, p2, p3, t)
         == Lerp(Lerp(Lerp(p0, p1, t), Lerp(p1, p2, t), t), Lerp(Lerp(p1, p2, t), Lerp(p2, p3, t), t), t)
  {
    Nested2(p0, p1, p2, t);
    Nested2(p1, p2, p3, t);
    var d, e, f := p1 - p0, 2.0 * (p2 - p1) - 2.0 * (p1 - p0), (p3 - 2.0 * p2 + p1) - (p2 - 2.0 * p1 + p0);
    assert (d + e * t + f * (t * t)) * t == d * t + e * (t * t) + f * (t * t * t);
  }

  /** The curve is its blossom on the diagonal. */
  lemma OnDiagonal(c: Cubic, t: real)
    ensures BezierPoint(c, t) == Blossom(c, t, t, t)
  {
    hide Lerp, Bernstein;
    Casteljau1(c.p0.x, c.p1.x, c.p2.x, c.p3.x, t);
    Casteljau1(c.p0.y, c.p1.y, c.p2.y, c.p3.y, t);
  }

  // ─── Pieces ────────────────────────────────────────────────────────────────

  /** One level of de Casteljau on a piece. */
  lemma SubLevels(c: Cubic, r: real, s: real, u: real)
    ensures var w, q := Lerp(r, s, u), Sub(c, r, s);
      && LerpPt(q.p0, q.p1, u) == Blossom(c, r, r, w)
      && LerpPt(q.p1, q.p2, u) == Blossom(c, r, s, w)
      && LerpPt(q.p2, q.p3, u) == Blossom(c, s, s, w)
      && LerpPt(Blossom(c, r, r, w), Blossom(c, r, s, w), u) == Blossom(c, r, w, w)
      && LerpPt(Blossom(c, r, s, w), Blossom(c, s, s, w), u) == Blossom(c, w, s, w)
      && LerpPt(Blossom(c, r, w, w), Blossom(c, w, s, w), u) == Blossom(c, w, w, w)
  {
    hide Lerp, LerpPt, Blossom;
    var w := Lerp(r, s, u);
    BlossomLerps(c, r, r, r, s, u);
    BlossomLerps(c, r, s, r, s, u);
    BlossomLerps(c, s, s, r, s, u);
    BlossomLerps(c, r, w, r, s, u);
    BlossomLerps(c, w, s, r, s, u);
    BlossomLerps(c, w, w, r, s, u);
    BlossomSwaps(c, r, r, s);
    BlossomSwaps(c, r, s, s);
    BlossomSwaps(c, r, s, r);
    BlossomSwaps(c, s, s, r);
    BlossomSwaps(c, s, r, s);
    BlossomSwaps(c, r, r, w);
    BlossomSwaps(c, r, w, r);
    BlossomSwaps(c, r, s, w);
    BlossomSwaps(c, r, w, s);
    BlossomSwaps(c, s, s, w);
    BlossomSwaps(c, w, s, r);
    BlossomSwaps(c, s, w, r);
    BlossomSwaps(c, s, r, w);
    BlossomSwaps(c, w, s, s);
    BlossomSwaps(c, s, w, s);
    BlossomSwaps(c, w, w, r);
    BlossomSwaps(c, w, r, w);
    BlossomSwaps(c, r, w, w);
    BlossomSwaps(c, w, w, s);
    BlossomSwaps(c, w, s, w);
  }

  /** A piece retraces its stretch of the curve. */
  lemma SubRetraces(c: Cubic, r: real, s: real, u: real)
    ensures BezierPoint(Sub(c, r, s), u) == BezierPoint(c, Lerp(r, s, u))
  {
    hide Lerp, LerpPt, BezierPoint;
    OnDiagonal(Sub(c, r, s), u);
    OnDiagonal(c, Lerp(r, s, u));
    DiagonalOfSub(c, r, s, u);
  }

  lemma DiagonalOfSub(c: Cubic, r: real, s: real, u: real)
    ensures Blossom(Sub(c, r, s), u, u, u) == Blossom(c, Lerp(r, s, u), Lerp(r, s, u), Lerp(r, s, u))
  {
    hide Lerp, LerpPt;
    SubLevels(c, r, s, u);
    var q := Sub(c, r, s);
    assert Quad(q.p0, q.p1, q.p2, u, u) == LerpPt(LerpPt(q.p0, q.p1, u), LerpPt(q.p1, q.p2, u), u);
  }

  /** Splitting a piece gives the two pieces either side of the split parameter. */
  lemma SplitSub(c: Cubic, r: real, s: real, u: real)
    ensures SplitAt(Sub(c, r, s), u) == (Sub(c, r, Lerp(r, s, u)), Sub(c, Lerp(r, s, u), s))
  {
    hide Lerp, LerpPt, Blossom;
    var w := Lerp(r, s, u);
    SubLevels(c, r, s, u);
    BlossomSwaps(c, w, s, w);
    BlossomSwaps(c, s, s, w);
    BlossomSwaps(c, s, w, s);
  }

  /** The whole curve is its piece over [0, 1]. */
  lemma WholeIsSub(c: Cubic)
    ensures Sub(c, 0.0, 1.0) == c
  {
    hide Lerp;
    LerpPtEnds(c);
  }

  lemma LerpPtEnds(c: Cubic)
    ensures forall a, b: Pt :: LerpPt(a, b, 0.0) == a && LerpPt(a, b, 1.0) == b
  {
  }
}
