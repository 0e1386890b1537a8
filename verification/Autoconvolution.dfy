/** The mathematics of the Hall index: the autoconvolution of a window peaks, and only there, at twice its
    symmetry axis (src/node/types/stepper/hall_index.cpp). */
module Autoconvolution {

  /** The window with zeros on both sides. */
  function G(g: seq<int>, i: int): int { if 0 <= i < |g| then g[i] else 0 }

  function Times(a: int, b: int): int { a * b }

  /** What is summed at index i: g[i]g[k-i]; g[i]g[i-s]; g[i-s]^2; (g[i]-g[i-s])^2; (g[i]-g[i-1])(g[k-i]-g[k+1-i]). */
  datatype Term = Conv(k: int) | Corr(s: int) | Before(s: int) | Gap(s: int) | Edge(k: int)

  function At(g: seq<int>, t: Term, i: int): int {
    match t
    case Conv(k) => Times(G(g, i), G(g, k - i))
    case Corr(s) => Times(G(g, i), G(g, i - s))
    case Before(s) => Times(G(g, i - s), G(g, i - s))
    case Gap(s) => Times(G(g, i) - G(g, i - s), G(g, i) - G(g, i - s))
    case Edge(k) => Times(G(g, i) - G(g, i - 1), G(g, k - i) - G(g, k + 1 - i))
  }

  /** Sum of a term over lo..hi, hi excluded. */
  function Sum(g: seq<int>, t: Term, lo: int, hi: int): int
    decreases hi - lo
  {
    if hi <= lo then 0 else Sum(g, t, lo, hi - 1) + At(g, t, hi - 1)
  }

  lemma {:induction false} SumSplit(g: seq<int>, t: Term, lo: int, mid: int, hi: int)
    requires lo <= mid <= hi
    ensures Sum(g, t, lo, hi) == Sum(g, t, lo, mid) + Sum(g, t, mid, hi)
    decreases hi - mid
  {
    hide At;
    if mid < hi { SumSplit(g, t, lo, mid, hi - 1); }
  }

  lemma {:induction false} SumZero(g: seq<int>, t: Term, lo: int, hi: int)
    requires forall i :: lo <= i < hi ==> At(g, t, i) == 0
    ensures Sum(g, t, lo, hi) == 0
    decreases hi - lo
  {
    hide At;
    if lo < hi { SumZero(g, t, lo, hi - 1); }
  }

  /** Two terms that agree `shift` apart have the same sums. */
  lemma {:induction false} SumShift(g: seq<int>, t: Term, u: Term, lo: int, hi: int, shift: int)
    requires forall i :: lo <= i < hi ==> At(g, t, i) == At(g, u, i + shift)
    ensures Sum(g, t, lo, hi) == Sum(g, u, lo + shift, hi + shift)
    decreases hi - lo
  {
    hide At;
    if lo < hi { SumShift(g, t, u, lo, hi - 1, shift); }
  }

  /** Only the part of a range where a term can be non-zero matters. */
  lemma SumSupport(g: seq<int>, t: Term, n: int, lo: int, hi: int)
    requires lo <= 0 <= n <= hi && forall i :: i < 0 || n <= i ==> At(g, t, i) == 0
    ensures Sum(g, t, lo, hi) == Sum(g, t, 0, n)
  {
    hide At, Sum;
    SumSplit(g, t, lo, 0, hi);
    SumSplit(g, t, 0, n, hi);
    SumZero(g, t, lo, 0);
    SumZero(g, t, n, hi);
  }

  /** AC[k], over the whole window. */
  function AC(g: seq<int>, k: int): int { Sum(g, Conv(k), 0, |g|) }

  function Energy(g: seq<int>): int { Sum(g, Corr(0), 0, |g|) }

  /** Mirror image about `c / 2`, zero extension included. */
  ghost predicate Symmetric(g: seq<int>, c: int) { forall i: int :: G(g, i) == G(g, c - i) }

  lemma ConvAt(g: seq<int>, c: int, s: int, i: int)
    requires Symmetric(g, c)
    ensures At(g, Conv(c + s), i) == At(g, Corr(s), i)
  {
    hide G, Times;
    assert G(g, c + s - i) == G(g, c - (c + s - i));
    assert c - (c + s - i) == i - s;
  }

  /** About its axis, the autoconvolution is an autocorrelation. */
  lemma ConvIsCorr(g: seq<int>, c: int, s: int)
    requires Symmetric(g, c)
    ensures AC(g, c + s) == Sum(g, Corr(s), 0, |g|)
  {
    hide Sum, At, G, Symmetric;
    var t, u := Conv(c + s), Corr(s);
    forall i | 0 <= i < |g|
      ensures At(g, t, i) == At(g, u, i + 0)
    {
      ConvAt(g, c, s, i);
    }
    SumShift(g, t, u, 0, |g|, 0);
  }

  lemma MirrorAt(g: seq<int>, s: int, i: int)
    ensures At(g, Corr(-s), i) == At(g, Corr(s), i + s)
  {
    assert i - (-s) == i + s && (i + s) - s == i;
  }

  lemma TimesZero(a: int)
    ensures Times(a, 0) == 0 && Times(0, a) == 0
  {
  }

  lemma OutsideZero(g: seq<int>, t: Term, i: int)
    requires ((t.Corr? || t.Conv?) && (i < 0 || |g| <= i)) || (t.Before? && i < t.s)
    ensures At(g, t, i) == 0
  {
    hide Times;
    TimesZero(if t.Corr? then G(g, i - t.s) else if t.Conv? then G(g, t.k - i) else 0);
  }

  lemma CorrSupport(g: seq<int>, s: int, lo: int, hi: int)
    requires lo <= 0 && |g| <= hi
    ensures Sum(g, Corr(s), lo, hi) == Sum(g, Corr(s), 0, |g|)
  {
    hide At, Sum;
    forall i | i < 0 || |g| <= i
      ensures At(g, Corr(s), i) == 0
    {
      OutsideZero(g, Corr(s), i);
    }
    SumSupport(g, Corr(s), |g|, lo, hi);
  }

  lemma CorrEven(g: seq<int>, s: int)
    requires s >= 0
    ensures Sum(g, Corr(s), 0, |g|) == Sum(g, Corr(-s), 0, |g|)
  {
    hide Sum, At;
    CorrSupport(g, s, 0, |g| + s);
    CorrSupport(g, -s, -s, |g|);
    var t, u := Corr(-s), Corr(s);
    forall i | -s <= i < |g|
      ensures At(g, t, i) == At(g, u, i + s)
    {
      MirrorAt(g, s, i);
    }
    SumShift(g, t, u, -s, |g|, s);
  }

  /** The autoconvolution of a symmetric window is symmetric about the same point. */
  lemma PeakIsBalanced(g: seq<int>, c: int, s: int)
    requires Symmetric(g, c) && s >= 0
    ensures AC(g, c - s) == AC(g, c + s)
  {
    hide Symmetric, Sum, AC, G;
    ConvIsCorr(g, c, s);
    ConvIsCorr(g, c, -s);
    CorrEven(g, s);
  }

  lemma SquareOfGap(a: int, b: int)
    ensures Times(a - b, a - b) == Times(a, a) + Times(b, b) - 2 * Times(a, b)
    ensures Times(a - b, a - b) >= 0
    ensures a != b ==> Times(a - b, a - b) > 0
  {
    var d := a - b;
    assert d * d == a * a + b * b - 2 * (a * b);
    if d > 0 { assert d * d > 0; } else if d < 0 { assert (-d) * (-d) > 0; }
  }

  lemma GapAt(g: seq<int>, s: int, i: int)
    ensures At(g, Gap(s), i) == At(g, Corr(0), i) + At(g, Before(s), i) - 2 * At(g, Corr(s), i)
    ensures At(g, Gap(s), i) >= 0
    ensures G(g, i) != G(g, i - s) ==> At(g, Gap(s), i) > 0
  {
    hide G, Times;
    assert i - 0 == i;
    SquareOfGap(G(g, i), G(g, i - s));
  }

  lemma {:induction false} GapSum(g: seq<int>, s: int, lo: int, hi: int)
    ensures Sum(g, Gap(s), lo, hi) == Sum(g, Corr(0), lo, hi) + Sum(g, Before(s), lo, hi) - 2 * Sum(g, Corr(s), lo, hi)
    ensures Sum(g, Gap(s), lo, hi) >= 0
    decreases hi - lo
  {
    hide At;
    if lo < hi {
      GapSum(g, s, lo, hi - 1);
      GapAt(g, s, hi - 1);
    }
  }

  lemma {:induction false} GapPositive(g: seq<int>, s: int, lo: int, hi: int, at: int)
    requires lo <= at < hi && G(g, at) != G(g, at - s)
    ensures Sum(g, Gap(s), lo, hi) > 0
    decreases hi - lo
  {
    hide At, G;
    GapAt(g, s, hi - 1);
    if at == hi - 1 {
      GapSum(g, s, lo, hi - 1);
    } else {
      GapPositive(g, s, lo, hi - 1, at);
    }
  }

  lemma {:induction false} FirstNonZero(g: seq<int>, i: nat) returns (at: nat)
    requires i < |g| && g[i] != 0
    ensures at <= i && g[at] != 0 && forall j :: 0 <= j < at ==> g[j] == 0
    decreases i
  {
    if forall j :: 0 <= j < i ==> g[j] == 0 {
      at := i;
    } else {
      var k :| 0 <= k < i && g[k] != 0;
      at := FirstNonZero(g, k);
    }
  }

  lemma BeforeAt(g: seq<int>, s: int, i: int)
    ensures At(g, Corr(0), i) == At(g, Before(s), i + s)
  {
    assert i + s - s == i && i - 0 == i;
  }

  lemma BeforeSum(g: seq<int>, s: int)
    requires s >= 0
    ensures Sum(g, Before(s), 0, |g| + s) == Energy(g)
  {
    hide Sum, At;
    forall i | 0 <= i < |g|
      ensures At(g, Corr(0), i) == At(g, Before(s), i + s)
    {
      BeforeAt(g, s, i);
    }
    SumShift(g, Corr(0), Before(s), 0, |g|, s);
    SumSplit(g, Before(s), 0, s, |g| + s);
    forall i | 0 <= i < s
      ensures At(g, Before(s), i) == 0
    {
      OutsideZero(g, Before(s), i);
    }
    SumZero(g, Before(s), 0, s);
  }

  /** A window correlates with itself strictly less once shifted. */
  lemma ShiftedLess(g: seq<int>, s: int, i: nat)
    requires s > 0 && i < |g| && g[i] != 0
    ensures Sum(g, Corr(s), 0, |g|) < Energy(g)
  {
    hide Sum, At;
    var at := FirstNonZero(g, i);
    GapPositive(g, s, 0, |g| + s, at);
    GapSum(g, s, 0, |g| + s);
    CorrSupport(g, 0, 0, |g| + s);
    CorrSupport(g, s, 0, |g| + s);
    BeforeSum(g, s);
  }

  /** The theorem behind the index: on a non-zero window symmetric about c / 2 the autoconvolution at every
      other lag is strictly below its value at c. */
  lemma OnePeak(g: seq<int>, c: int, k: int, i: nat)
    requires Symmetric(g, c) && i < |g| && g[i] != 0 && k != c
    ensures AC(g, k) < AC(g, c) == Energy(g)
  {
    hide Symmetric, Sum, AC, G;
    ConvIsCorr(g, c, 0);
    if k > c {
      ConvIsCorr(g, c, k - c);
      ShiftedLess(g, k - c, i);
    } else {
      PeakIsBalanced(g, c, c - k);
      ConvIsCorr(g, c, c - k);
      ShiftedLess(g, c - k, i);
    }
  }

  // ─── The second difference ─────────────────────────────────────────────────

  lemma ProductOfGaps(a: int, b: int, c: int, e: int)
    ensures Times(a - b, c - e) == Times(a, c) + Times(b, e) - Times(a, e) - Times(b, c)
  {
    assert (a - b) * (c - e) == a * (c - e) - b * (c - e);
  }

  lemma EdgeAt(g: seq<int>, k: int, i: int)
    ensures At(g, Edge(k), i)
         == At(g, Conv(k), i) + At(g, Conv(k), i - 1) - At(g, Conv(k + 1), i) - At(g, Conv(k - 1), i - 1)
  {
    hide G, Times;
    assert k - (i - 1) == k + 1 - i && k - 1 - (i - 1) == k - i;
    ProductOfGaps(G(g, i), G(g, i - 1), G(g, k - i), G(g, k + 1 - i));
  }

  lemma {:induction false} EdgeSum(g: seq<int>, k: int, lo: int, hi: int)
    ensures Sum(g, Edge(k), lo, hi)
         == Sum(g, Conv(k), lo, hi) + Sum(g, Conv(k), lo - 1, hi - 1)
            - Sum(g, Conv(k + 1), lo, hi) - Sum(g, Conv(k - 1), lo - 1, hi - 1)
    decreases hi - lo
  {
    hide At;
    if lo < hi {
      EdgeSum(g, k, lo, hi - 1);
      EdgeAt(g, k, hi - 1);
    }
  }

  lemma ConvSupport(g: seq<int>, k: int, lo: int, hi: int)
    requires lo <= 0 && |g| <= hi
    ensures Sum(g, Conv(k), lo, hi) == AC(g, k)
  {
    hide At, Sum;
    forall i | i < 0 || |g| <= i
      ensures At(g, Conv(k), i) == 0
    {
      OutsideZero(g, Conv(k), i);
    }
    SumSupport(g, Conv(k), |g|, lo, hi);
  }

  /** Summation by parts: the second difference of the autoconvolution pairs the window's edges with its mirror's. */
  lemma SecondDifference(g: seq<int>, k: int)
    ensures Sum(g, Edge(k), 0, |g| + 1) == 2 * AC(g, k) - AC(g, k - 1) - AC(g, k + 1)
  {
    hide Sum, AC;
    EdgeSum(g, k, 0, |g| + 1);
    ConvSupport(g, k, 0, |g| + 1);
    ConvSupport(g, k, -1, |g|);
    ConvSupport(g, k + 1, 0, |g| + 1);
    ConvSupport(g, k - 1, -1, |g|);
  }
}
