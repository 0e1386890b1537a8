/** The resolve: the autoconvolution's peak, found in bounded slices (src/node/types/stepper/hall_index.cpp). */
module HallResolve {
  import opened Autoconvolution
  import opened HallConstants

  const RESOLVE_MACS: int := 2048
  const INT32_MAX: int := 0x7fff_ffff
  const MAX_DEPTH: int := 2047   // a 13-bit depth, scaled by >> 2

  /** The three-deep history and the best interior lag so far. */
  datatype Peak = Peak(h0: int, h1: int, best: int, bk: nat, ba: int, bb: int, bc: int)

  function Take(p: Peak, k: nat, acc: int): Peak {
    var q := if k >= 2 && p.h1 > p.best then p.(best := p.h1, bk := k - 1, ba := p.h0, bb := p.h1, bc := acc) else p;
    q.(h0 := p.h1, h1 := acc)
  }

  /** The one-pass search: the state after lags 0..k. */
  function Scan(g: seq<int>, k: nat): Peak {
    if k == 0 then Peak(0, 0, -1, 0, 0, 0, 0) else Take(Scan(g, k - 1), k - 1, AC(g, k - 1))
  }

  /** What the search has found: the first of the largest interior lags, with both neighbours. */
  predicate Found(g: seq<int>, k: nat, p: Peak) {
    && (k >= 1 ==> p.h1 == AC(g, k - 1)) && (k >= 2 ==> p.h0 == AC(g, k - 2))
    && (k <= 2 ==> p.best == -1)
    && (k > 2 ==>
          && 1 <= p.bk <= k - 2
          && p.best == p.bb == AC(g, p.bk) && p.ba == AC(g, p.bk - 1) && p.bc == AC(g, p.bk + 1)
          && (forall j: int :: 1 <= j <= k - 2 ==> AC(g, j) <= p.best)
          && (forall j: int :: 1 <= j < p.bk ==> AC(g, j) < p.best))
  }

  predicate NonNegative(g: seq<int>) { forall i :: 0 <= i < |g| ==> g[i] >= 0 }

  lemma {:induction false} SumNonNegative(g: seq<int>, k: int, lo: int, hi: int)
    requires NonNegative(g)
    ensures Sum(g, Conv(k), lo, hi) >= 0
    decreases hi - lo
  {
    if lo < hi { SumNonNegative(g, k, lo, hi - 1); }
  }

  lemma {:induction false} ScanFinds(g: seq<int>, k: nat)
    requires NonNegative(g)
    ensures Found(g, k, Scan(g, k))
  {
    hide AC;
    if k > 0 {
      ScanFinds(g, k - 1);
      if k > 2 { ACNonNegative(g, k - 2); }
    }
  }

  lemma ACNonNegative(g: seq<int>, k: int)
    requires NonNegative(g)
    ensures AC(g, k) >= 0
  {
    SumNonNegative(g, k, 0, |g|);
  }

  // ─── The cost ──────────────────────────────────────────────────────────────

  /** Multiply-accumulates of lag k over n samples. */
  function Width(n: nat, k: nat): nat
    requires k < 2 * n - 1
  {
    if k < n then k + 1 else 2 * n - 1 - k
  }

  function Work(n: nat, k: nat): nat
    requires k <= 2 * n - 1 || k == 0
  {
    if k == 0 then 0 else Work(n, k - 1) + Width(n, k - 1)
  }

  lemma {:induction false} RisingWork(n: nat, k: nat)
    requires k <= n && n > 0
    ensures 2 * Work(n, k) == k * (k + 1)
  {
    if k > 0 { RisingWork(n, k - 1); }
  }

  lemma {:induction false} FallingWork(n: nat, k: nat)
    requires n <= k <= 2 * n - 1
    ensures 2 * Work(n, k) == 2 * n * n - (2 * n - 1 - k) * (2 * n - k)
  {
    if k == n {
      RisingWork(n, n);
    } else {
      FallingWork(n, k - 1);
      var r := 2 * n - k;
      assert r * (r + 1) == (r - 1) * r + 2 * r;
    }
  }

  /** The whole resolve is n squared multiply-accumulates. */
  lemma TotalWork(n: nat)
    requires n > 0
    ensures Work(n, 2 * n - 1) == n * n
  {
    FallingWork(n, 2 * n - 1);
  }

  // ─── The lag the code sums ─────────────────────────────────────────────────

  function Lo(n: nat, k: nat): int { if k >= n then k - n + 1 else 0 }

  function Hi(n: nat, k: nat): int { if k < n then k else n - 1 }

  lemma LagOutside(g: seq<int>, k: nat, i: int)
    requires k < 2 * |g| - 1 && (i < Lo(|g|, k) || Hi(|g|, k) < i)
    ensures At(g, Conv(k), i) == 0
  {
    hide Times;
    TimesZero(G(g, i));
    TimesZero(G(g, k - i));
  }

  /** Only the indices where both factors are in the window are summed. */
  lemma LagIsAC(g: seq<int>, k: nat)
    requires k < 2 * |g| - 1
    ensures Sum(g, Conv(k), Lo(|g|, k), Hi(|g|, k) + 1) == AC(g, k)
    ensures Hi(|g|, k) + 1 - Lo(|g|, k) == Width(|g|, k)
  {
    hide At, Sum;
    var t, lo, hi := Conv(k), Lo(|g|, k), Hi(|g|, k) + 1;
    forall i | i < lo || hi <= i
      ensures At(g, t, i) == 0
    {
      LagOutside(g, k, i);
    }
    SumSplit(g, t, 0, lo, |g|);
    SumSplit(g, t, lo, hi, |g|);
    SumZero(g, t, 0, lo);
    SumZero(g, t, hi, |g|);
  }

  predicate AtMost(g: seq<int>, d: nat) { forall i :: 0 <= i < |g| ==> 0 <= g[i] <= d }

  predicate Depths(g: seq<int>) { AtMost(g, MAX_DEPTH) }

  lemma ProductAtMost(a: int, b: int, d: nat)
    requires 0 <= a <= d && 0 <= b <= d
    ensures 0 <= a * b <= d * d
  {
    assert a * b <= d * b;
    assert d * b <= d * d;
  }

  lemma {:induction false} SumAtMost(g: seq<int>, k: nat, j: int, d: nat)
    requires AtMost(g, d) && k < 2 * |g| - 1 && Lo(|g|, k) <= j <= Hi(|g|, k) + 1
    ensures 0 <= Sum(g, Conv(k), Lo(|g|, k), j) <= (j - Lo(|g|, k)) * (d * d)
    decreases j
  {
    if j > Lo(|g|, k) {
      SumAtMost(g, k, j - 1, d);
      ProductAtMost(g[j - 1], g[k - (j - 1)], d);
    }
  }

  lemma ACAtMost(g: seq<int>, k: nat, d: nat)
    requires AtMost(g, d) && k < 2 * |g| - 1
    ensures 0 <= AC(g, k) <= Width(|g|, k) * (d * d)
  {
    hide Sum;
    LagIsAC(g, k);
    SumAtMost(g, k, Hi(|g|, k) + 1, d);
  }

  lemma SignedProductAtMost(a: int, b: int, d: nat)
    requires a <= d && 0 <= d + a && b <= d && 0 <= d + b
    ensures -(d * d) <= a * b <= d * d
  {
    var x, y := if a < 0 then -a else a, if b < 0 then -b else b;
    ProductAtMost(x, y, d);
    assert a * b == x * y || a * b == -(x * y);
  }

  lemma EdgeAtMost(g: seq<int>, k: int, i: int, d: nat)
    requires AtMost(g, d)
    ensures -(d * d) <= At(g, Edge(k), i) <= d * d
  {
    SignedProductAtMost(G(g, i) - G(g, i - 1), G(g, k - i) - G(g, k + 1 - i), d);
  }

  lemma {:induction false} EdgeSumAtMost(g: seq<int>, k: int, hi: nat, d: nat)
    requires AtMost(g, d)
    ensures -(hi * (d * d)) <= Sum(g, Edge(k), 0, hi) <= hi * (d * d)
    decreases hi
  {
    hide At;
    if hi > 0 {
      EdgeSumAtMost(g, k, hi - 1, d);
      EdgeAtMost(g, k, hi - 1, d);
      assert hi * (d * d) == (hi - 1) * (d * d) + d * d;
    }
  }

  /** The second difference of the autoconvolution is bounded by the edges, not by the peak. */
  lemma SecondDifferenceAtMost(g: seq<int>, k: int, d: nat)
    requires AtMost(g, d)
    ensures var den := AC(g, k - 1) - 2 * AC(g, k) + AC(g, k + 1);
      -((|g| + 1) * (d * d)) <= den <= (|g| + 1) * (d * d)
  {
    hide Sum, AC;
    SecondDifference(g, k);
    EdgeSumAtMost(g, k, |g| + 1, d);
  }

  // ─── The vertex and the answer ─────────────────────────────────────────────

  /** lroundf: to the nearest integer, halves away from zero. */
  function Round(x: real): int {
    if x >= 0.0 then (x + 0.5).Floor else -((0.5 - x).Floor)
  }

  function Delta(ba: int, bb: int, bc: int): real {
    var den := ba - 2 * bb + bc;
    if den != 0 then 0.5 * (ba - bc) as real / den as real else 0.0
  }

  function IndexAt(p: Peak, winStart: int, decim: nat, sign: int): int {
    var c := (p.bk as real + Delta(p.ba, p.bb, p.bc)) * 0.5;
    Round(winStart as real + c * (decim * sign) as real)
  }

  /** On a non-zero window symmetric about c / 2, with the centre an interior lag, the search returns exactly
      that centre, and the vertex correction is zero. */
  lemma SymmetricCentre(g: seq<int>, c: nat, i: nat, winStart: int, decim: nat, sign: int)
    requires NonNegative(g) && Symmetric(g, c) && i < |g| && g[i] != 0 && 1 <= c <= 2 * |g| - 3
    ensures var p := Scan(g, 2 * |g| - 1);
      && p.bk == c && p.best == Energy(g) && p.ba == p.bc && Delta(p.ba, p.bb, p.bc) == 0.0
      && IndexAt(p, winStart, decim, sign) == Round(winStart as real + 0.5 * c as real * (decim * sign) as real)
  {
    hide AC, Symmetric, Energy, Scan, Round;
    var p := Scan(g, 2 * |g| - 1);
    ScanFinds(g, 2 * |g| - 1);
    if p.bk != c { OnePeak(g, c, p.bk, i); }
    OnePeak(g, c, c - 1, i);
    PeakIsBalanced(g, c, 1);
    assert (p.bk as real + 0.0) * 0.5 == 0.5 * c as real;
  }
}
