/** The resolve as the firmware runs it: an in-place pass over the window, then the lags in slices of about
    2048 multiply-accumulates (src/node/types/stepper/hall_index.cpp). */
module HallResolver {
  import opened Autoconvolution
  import opened HallConstants
  import opened HallResolve
  import opened HallVertex

  const INT32_MIN: int := -0x8000_0000
  const FAR: int := 0x4000_0000   // positions stay well inside int32

  datatype Stage = Idle | Run | Done

  datatype Cause = None | Ok | NotFound | Overflow | Degenerate | Slip

  datatype Crossing = Crossing(enterPos: int, exitPos: int, minPos: int)

  /** What the sweep leaves behind for the resolve. */
  datatype Sweep = Sweep(overflow: bool, crossed: seq<Crossing>, exiting: bool, post: nat, preN: nat, nwin: nat,
                         baseline: int, winStart: int, decim: nat, sign: int)

  predicate SweepOk(s: Sweep) {
    && |s.crossed| <= CROSSINGS && s.nwin <= HOME_WIN && 0 <= s.baseline <= 8191
    && (forall i :: 0 <= i < |s.crossed| ==> -FAR < s.crossed[i].minPos < FAR)
  }

  predicate Complete(s: Sweep) { !s.overflow && |s.crossed| == CROSSINGS && s.exiting && s.post >= s.preN }

  function Lap(s: Sweep, i: nat): nat
    requires 1 <= i < |s.crossed|
  {
    var d := s.crossed[i].minPos - s.crossed[i - 1].minPos;
    if d < 0 then -d else d
  }

  /** How far a sample lies under the baseline, in units of four counts; nothing for one above it. */
  function Depth(baseline: int, v: int): int { if baseline < v then 0 else (baseline - v) / 4 }

  predicate Samples(w: seq<int>) { forall i :: 0 <= i < |w| ==> 0 <= w[i] <= 8191 }

  function DepthsOf(baseline: int, w: seq<int>): seq<int> { seq(|w|, i requires 0 <= i < |w| => Depth(baseline, w[i])) }

  /** The number of lags, narrowed to 16 bits: 2n - 1, but 65535 for an empty window. */
  function LagCount(n: nat): nat { (2 * n - 1) % WORD }

  function Verdict(p: Peak, spread: nat, perRev: nat): Cause {
    if p.best <= 0 then Degenerate else if spread > perRev / 8 then Slip else Ok
  }

  /** An answer is given exactly where something was found, and taken exactly where the laps agree to an eighth of one. */
  lemma VerdictExactly(p: Peak, spread: nat, perRev: nat)
    ensures Verdict(p, spread, perRev) == Degenerate <==> p.best <= 0
    ensures Verdict(p, spread, perRev) == Ok <==> p.best > 0 && 8 * spread <= perRev
    ensures Verdict(p, spread, perRev) == Slip <==> p.best > 0 && 8 * spread > perRev
  {
  }

  /** The depth is the drop below the baseline, rounded down to fours; no sample above it has any. */
  lemma DepthIs(baseline: int, v: int)
    ensures var drop := if v < baseline then baseline - v else 0; 0 <= drop - 4 * Depth(baseline, v) < 4
  {
  }

  /** Every partial sum of every lag stays inside int32. */
  lemma PartialSumFits(g: seq<int>, k: nat, j: int)
    requires Depths(g) && |g| <= HOME_WIN && k < 2 * |g| - 1 && Lo(|g|, k) <= j <= Hi(|g|, k) + 1
    ensures 0 <= Sum(g, Conv(k), Lo(|g|, k), j) <= INT32_MAX
  {
    hide Sum;
    SumAtMost(g, k, j, MAX_DEPTH);
  }

  lemma DepthsInRange(baseline: int, w: seq<int>)
    requires 0 <= baseline <= 8191 && Samples(w)
    ensures Depths(DepthsOf(baseline, w))
  {
  }

  /** The one-pass search after k lags, with every slice so far having done its budget. */
  ghost predicate Progress(g: seq<int>, k: nat, p: Peak, slices: nat) {
    && 1 <= |g| && k <= 2 * |g| - 1 && Depths(g)
    && p == Scan(g, k)
    && RESOLVE_MACS * slices <= Work(|g|, k)
  }

  lemma NoLag(g: seq<int>)
    requires 1 <= |g| && Depths(g)
    ensures Progress(g, 0, Peak(0, 0, -1, 0, 0, 0, 0), 0)
  {
  }

  lemma SoFar(g: seq<int>, k: nat, p: Peak, slices: nat)
    requires Progress(g, k, p, slices)
    ensures 1 <= |g| && k <= 2 * |g| - 1 && Depths(g) && p == Scan(g, k) && RESOLVE_MACS * slices <= Work(|g|, k)
  {
  }

  lemma NextLag(g: seq<int>, k: nat, p: Peak, slices: nat)
    requires Progress(g, k, p, slices) && k < 2 * |g| - 1
    ensures Progress(g, k + 1, Take(p, k, AC(g, k)), slices)
    ensures Work(|g|, k + 1) == Work(|g|, k) + Width(|g|, k) && 1 <= Width(|g|, k) <= |g|
  {
    hide Depths, AC, Take;
  }

  lemma NextSlice(g: seq<int>, from: nat, k: nat, p: Peak, slices: nat)
    requires Progress(g, k, p, slices) && from <= k && RESOLVE_MACS * slices <= Work(|g|, from)
    requires Work(|g|, k) - Work(|g|, from) >= RESOLVE_MACS
    ensures Progress(g, k, p, slices + 1)
  {
  }

  // ─── The vertex in int32 ───────────────────────────────────────────────────

  predicate Int32(x: int) { INT32_MIN <= x <= INT32_MAX }

  function Wrap32(x: int): (r: int)
    ensures Int32(r)
  {
    (x - INT32_MIN) % 0x1_0000_0000 + INT32_MIN
  }

  lemma WrapShift(x: int, y: int)
    ensures Wrap32(Wrap32(x) + y) == Wrap32(x + y)
  {
    var m, q := 0x1_0000_0000, (x - INT32_MIN) / 0x1_0000_0000;
    assert Wrap32(x) == x - q * m;
    assert (x + y - INT32_MIN - q * m) % m == (x + y - INT32_MIN) % m;
  }

  lemma WrapsMinus(x: int, y: int)
    ensures Wrap32(x - Wrap32(y)) == Wrap32(x - y)
  {
    var m, q := 0x1_0000_0000, (y - INT32_MIN) / 0x1_0000_0000;
    assert Wrap32(y) == y - q * m;
    assert (x - y - INT32_MIN + q * m) % m == (x - y - INT32_MIN) % m;
  }

  /** Wrapped step by step, a sum that itself fits comes out exact. */
  lemma WrapsAdd(ba: int, bb: int, bc: int)
    requires Int32(ba - 2 * bb + bc)
    ensures Wrap32(Wrap32(ba - Wrap32(2 * bb)) + bc) == ba - 2 * bb + bc
  {
    hide Wrap32;
    WrapsMinus(ba, 2 * bb);
    WrapShift(ba - 2 * bb, bc);
    WrapFits(ba - 2 * bb + bc);
  }

  lemma WrapFits(x: int)
    requires Int32(x)
    ensures Wrap32(x) == x
  {
  }

  predicate DenFits(p: Peak) { Int32(p.ba - 2 * p.bb + p.bc) }

  /** On any window of depths the vertex denominator itself is an int32, however deep the dip. */
  lemma VertexInt32(g: seq<int>)
    requires Depths(g) && 1 <= |g| <= HOME_WIN
    ensures DenFits(Scan(g, 2 * |g| - 1))
  {
    hide AC, Scan;
    ScanFinds(g, 2 * |g| - 1);
    if |g| > 1 { SecondDifferenceAtMost(g, Scan(g, 2 * |g| - 1).bk, MAX_DEPTH); } else { OneLag(g); }
  }

  lemma OneLag(g: seq<int>)
    ensures var p := Scan(g, 1); p.ba == 0 && p.bb == 0 && p.bc == 0
  {
  }

  /** Every step of the vertex denominator stays inside int32. */
  predicate VertexFits(p: Peak) { Int32(2 * p.bb) && Int32(p.ba - 2 * p.bb) && Int32(p.ba - 2 * p.bb + p.bc) }

  ghost predicate AllFit(n: nat, d: nat)
    requires n >= 1
  {
    forall g: seq<int> :: |g| == n && AtMost(g, d) ==> VertexFits(Scan(g, 2 * n - 1))
  }

  lemma WindowFits(g: seq<int>, d: nat)
    requires AtMost(g, d) && 1 <= |g| <= HOME_WIN && d <= MAX_DEPTH && 2 * (|g| * (d * d)) <= INT32_MAX
    ensures VertexFits(Scan(g, 2 * |g| - 1))
  {
    hide AC, Scan;
    var p := Scan(g, 2 * |g| - 1);
    ScanFinds(g, 2 * |g| - 1);
    VertexInt32(g);
    if |g| == 1 {
      OneLag(g);
    } else {
      ACAtMost(g, p.bk - 1, d);
      ACAtMost(g, p.bk, d);
      WidthTimes(|g|, p.bk, d);
      WidthTimes(|g|, p.bk - 1, d);
    }
  }

  lemma WidthTimes(n: nat, k: nat, d: nat)
    requires k < 2 * n - 1
    ensures Width(n, k) * (d * d) <= n * (d * d)
  {
    assert d * d >= 0;
  }

  lemma FlatAt(g: seq<int>, k: nat, i: int, d: nat)
    requires (forall i :: 0 <= i < |g| ==> g[i] == d) && k < 2 * |g| - 1 && Lo(|g|, k) <= i <= Hi(|g|, k)
    ensures At(g, Conv(k), i) == d * d
  {
  }

  lemma OneTimesMore(n: int, q: int)
    ensures n * q == (n - 1) * q + q
  {
  }

  lemma {:induction false} FlatSum(g: seq<int>, k: nat, j: int, d: nat)
    requires (forall i :: 0 <= i < |g| ==> g[i] == d) && k < 2 * |g| - 1 && Lo(|g|, k) <= j <= Hi(|g|, k) + 1
    ensures Sum(g, Conv(k), Lo(|g|, k), j) == (j - Lo(|g|, k)) * (d * d)
    decreases j
  {
    hide At;
    if j > Lo(|g|, k) {
      FlatSum(g, k, j - 1, d);
      FlatAt(g, k, j - 1, d);
      OneTimesMore(j - Lo(|g|, k), d * d);
    }
  }

  lemma FlatOverflows(n: nat, d: nat)
    requires 1 <= n <= HOME_WIN && d <= MAX_DEPTH && 2 * (n * (d * d)) > INT32_MAX
    ensures !AllFit(n, d)
  {
    hide AC, Scan, Sum;
    var g := seq(n, i => d);
    if n == 1 {
      ProductAtMost(d, d, MAX_DEPTH);
      assert false;
    } else {
      ScanFinds(g, 2 * n - 1);
      LagIsAC(g, n - 1);
      FlatSum(g, n - 1, n, d);
      assert AC(g, n - 1) <= Scan(g, 2 * n - 1).best;
      assert AtMost(g, d) && !VertexFits(Scan(g, 2 * n - 1));
    }
  }

  /** Known before the correlation: every window of n samples at most d deep keeps every step inside int32 if and only
      if 2nd² does. */
  lemma FitsExactly(n: nat, d: nat)
    requires 1 <= n <= HOME_WIN && d <= MAX_DEPTH
    ensures AllFit(n, d) <==> 2 * (n * (d * d)) <= INT32_MAX
  {
    hide VertexFits, Scan, AtMost;
    if 2 * (n * (d * d)) <= INT32_MAX {
      forall g: seq<int> | |g| == n && AtMost(g, d)
        ensures VertexFits(Scan(g, 2 * n - 1))
      {
        WindowFits(g, d);
      }
    } else {
      FlatOverflows(n, d);
    }
  }

  // ─── The lag loop in 16 bits ───────────────────────────────────────────────

  function Lo16(n: nat, k: nat): int { if k >= n then (k - n + 1) % WORD else 0 }

  function Hi16(n: nat, k: nat): int { if k < n then k else (n - 1) % WORD }

  /** The loop variable after j passes. */
  function LagIndex(n: nat, k: nat, j: nat): int { (Lo16(n, k) + j) % WORD }

  /** The loop over one lag ends if and only if the window holds a sample; the first product of an empty window's lag k is
      of samples k + 1 and 65535, neither of them in it. */
  lemma LagEnds(n: nat, k: nat)
    requires n <= HOME_WIN && k < LagCount(n)
    ensures (exists j :: LagIndex(n, k, j) > Hi16(n, k)) <==> n >= 1
    ensures n >= 1 ==> Lo16(n, k) == Lo(n, k) && Hi16(n, k) == Hi(n, k)
    ensures n == 0 ==> LagIndex(n, k, 0) == k + 1 && (k - LagIndex(n, k, 0)) % WORD == 0xffff
  {
    if n >= 1 { assert LagIndex(n, k, Hi(n, k) - Lo(n, k) + 1) == Hi(n, k) + 1; }
  }

  class Resolver {
    const win: array<int>
    var sweep: Sweep
    var stage: Stage
    var k: nat
    var kmax: nat
    var h0: int
    var h1: int
    var best: int
    var bk: nat
    var ba: int
    var bb: int
    var bc: int
    var index: int
    var stepsPerRev: nat
    var lapSpread: nat
    var cause: Cause
    ghost var slices: nat   // calls so far that returned with lags still to do

    constructor (win: array<int>)
      requires win.Length == HOME_WIN
      ensures this.win == win && stage == Idle && cause == None && Valid()
    {
      this.win := win;
      sweep := Sweep(false, [], false, 0, 0, 0, 0, 0, 1, 1);
      stage, k, kmax := Idle, 0, 0;
      h0, h1, best, bk, ba, bb, bc := 0, 0, -1, 0, 0, 0, 0;
      index, stepsPerRev, lapSpread, cause, slices := 0, 0, 0, None, 0;
    }

    ghost function Window(): seq<int>
      reads this`sweep, win
      requires win.Length == HOME_WIN && sweep.nwin <= HOME_WIN
    {
      win[..sweep.nwin]
    }

    function AsPeak(): Peak
      reads this`h0, this`h1, this`best, this`bk, this`ba, this`bb, this`bc
    {
      Peak(h0, h1, best, bk, ba, bb, bc)
    }

    /** While it runs, the fields are the one-pass search's after k lags, and every slice has done its budget. */
    ghost predicate Valid()
      reads this, win
    {
      && win.Length == HOME_WIN && SweepOk(sweep)
      && (stage.Run? ==> kmax == LagCount(sweep.nwin) && (sweep.nwin >= 1 ==> Progress(Window(), k, AsPeak(), slices)))
    }

    static method LapLengths(s: Sweep) returns (mean: nat, spread: nat)
      requires SweepOk(s) && |s.crossed| == CROSSINGS
      ensures mean == (Lap(s, 1) + Lap(s, 2)) / 2
      ensures spread == (if Lap(s, 1) < Lap(s, 2) then Lap(s, 2) - Lap(s, 1) else Lap(s, 1) - Lap(s, 2))
    {
      var sum, dmin, dmax := 0, INT32_MAX, INT32_MIN;
      for i := 1 to CROSSINGS
        invariant i == 1 ==> sum == 0 && dmin == INT32_MAX && dmax == INT32_MIN
        invariant i == 2 ==> sum == dmin == dmax == Lap(s, 1)
        invariant i == 3 ==> sum == Lap(s, 1) + Lap(s, 2)
        invariant i == 3 ==> dmin == (if Lap(s, 1) < Lap(s, 2) then Lap(s, 1) else Lap(s, 2))
        invariant i == 3 ==> dmax == (if Lap(s, 1) < Lap(s, 2) then Lap(s, 2) else Lap(s, 1))
      {
        var d := s.crossed[i].minPos - s.crossed[i - 1].minPos;
        if d < 0 { d := -d; }
        sum := sum + d;
        if d < dmin { dmin := d; }
        if d > dmax { dmax := d; }
      }
      mean, spread := sum / (CROSSINGS - 1), dmax - dmin;
    }

    method ToDepths(baseline: int, n: nat)
      requires win.Length == HOME_WIN && n <= HOME_WIN
      modifies win
      ensures win[..n] == DepthsOf(baseline, old(win[..n]))
      ensures win[n..] == old(win[n..])
    {
      for i := 0 to n
        invariant forall j :: 0 <= j < i ==> win[j] == Depth(baseline, old(win[j]))
        invariant forall j :: i <= j < HOME_WIN ==> win[j] == old(win[j])
      {
        var d := baseline - win[i];
        if d < 0 { d := 0; }
        win[i] := d / 4;
      }
    }

    /** The cheap refusals, the lap lengths, and the in-place depth pass. */
    method Begin(s: Sweep)
      requires win.Length == HOME_WIN && SweepOk(s)
      requires Samples(win[..s.nwin])
      modifies this, win
      ensures Valid() && sweep == s
      ensures s.overflow ==> stage == Done && cause == Overflow && win[..] == old(win[..])
      ensures !s.overflow && !Complete(s) ==> stage == Done && cause == NotFound && win[..] == old(win[..])
      ensures Complete(s) ==>
        && stage == Run && k == 0 && kmax == LagCount(s.nwin) && slices == 0 && cause == old(cause)
        && stepsPerRev == (Lap(s, 1) + Lap(s, 2)) / 2
        && lapSpread == (if Lap(s, 1) < Lap(s, 2) then Lap(s, 2) - Lap(s, 1) else Lap(s, 1) - Lap(s, 2))
        && Window() == DepthsOf(s.baseline, old(win[..s.nwin]))
        && win[s.nwin..] == old(win[s.nwin..])
    {
      hide Progress, DepthsOf, Depths, Lap, Samples, AsPeak;
      stage, sweep := Done, s;
      if s.overflow {
        cause := Overflow;
        return;
      }
      if |s.crossed| < CROSSINGS || !s.exiting || s.post < s.preN {
        cause := NotFound;
        return;
      }
      stepsPerRev, lapSpread := LapLengths(s);
      ToDepths(s.baseline, s.nwin);
      DepthsInRange(s.baseline, old(win[..s.nwin]));
      StartLags();
    }

    method StartLags()
      requires win.Length == HOME_WIN && SweepOk(sweep) && Depths(Window())
      modifies this`stage, this`k, this`kmax, this`h0, this`h1, this`best, this`bk, this`ba, this`bb, this`bc, this`slices
      ensures Valid() && stage == Run && k == 0 && kmax == LagCount(sweep.nwin) && slices == 0
    {
      hide Progress, Depths;
      k, kmax := 0, (2 * sweep.nwin - 1) % WORD;
      h0, h1, best, bk, ba, bb, bc := 0, 0, -1, 0, 0, 0, 0;
      stage, slices := Run, 0;
      if sweep.nwin >= 1 { NoLag(Window()); }
    }

    /** One lag's sum, over the indices where both factors are in the window. */
    method Lag() returns (acc: int)
      requires Valid() && stage.Run? && k < kmax && sweep.nwin >= 1
      ensures acc == AC(Window(), k)
    {
      ghost var g := Window();
      var n := sweep.nwin;
      var lo := if k >= n then k - n + 1 else 0;
      var hi := if k < n then k else n - 1;
      acc := 0;
      for i := lo to hi + 1
        invariant acc == Sum(g, Conv(k), lo, i)
      {
        acc := acc + win[i] * win[k - i];
        PartialSumFits(g, k, i + 1);
        assert acc == Sum(g, Conv(k), lo, i + 1);
        assert 0 <= acc <= INT32_MAX;
      }
      LagIsAC(g, k);
    }

    /** One lag into the history and the best so far. */
    method Record(acc: int)
      modifies this`h0, this`h1, this`best, this`bk, this`ba, this`bb, this`bc, this`k
      ensures AsPeak() == Take(old(AsPeak()), old(k), acc) && k == old(k) + 1
    {
      if k >= 2 && h1 > best {
        best, bk := h1, k - 1;
        ba, bb, bc := h0, h1, acc;
      }
      h0, h1 := h1, acc;
      k := k + 1;
    }

    /** One lag, and what it is charged: its multiply-accumulates. */
    method NextLagDone() returns (charge: nat)
      requires Valid() && stage.Run? && k < kmax && sweep.nwin >= 1
      modifies this`h0, this`h1, this`best, this`bk, this`ba, this`bb, this`bc, this`k
      ensures Valid() && k == old(k) + 1
      ensures Work(sweep.nwin, k) == Work(sweep.nwin, old(k)) + charge && 1 <= charge <= sweep.nwin
    {
      hide AC, Depths, Scan, Take, Progress, Work, AsPeak;
      NextLag(Window(), k, AsPeak(), slices);
      var lo := if k >= sweep.nwin then k - sweep.nwin + 1 else 0;
      var hi := if k < sweep.nwin then k else sweep.nwin - 1;
      var acc := Lag();
      Record(acc);
      charge := hi - lo + 1;
    }

    /** One slice. A slice that leaves work behind has done at least 2048 multiply-accumulates and none does more
        than 2047 + n; the last one leaves exactly the one-pass search's answer. */
    method Step() returns (final: bool)
      requires Valid() && (stage.Run? ==> sweep.nwin >= 1)
      modifies this`stage, this`k, this`h0, this`h1, this`best, this`bk, this`ba, this`bb, this`bc
      modifies this`cause, this`index, this`slices
      ensures Valid()
      ensures final <==> !stage.Run?
      ensures !old(stage).Run? ==>
        final && stage == old(stage) && cause == old(cause) && index == old(index) && slices == old(slices)
      ensures old(stage).Run? ==>
        && old(k) <= k <= 2 * sweep.nwin - 1 && AsPeak() == Scan(Window(), k)
        && Work(sweep.nwin, k) - Work(sweep.nwin, old(k)) < RESOLVE_MACS + sweep.nwin
      ensures !final ==>
        && slices == old(slices) + 1 && Work(sweep.nwin, k) - Work(sweep.nwin, old(k)) >= RESOLVE_MACS
        && index == old(index) && cause == old(cause)
      ensures old(stage).Run? && final ==>
        && stage == Done && k == 2 * sweep.nwin - 1 && slices == old(slices)
        && RESOLVE_MACS * slices <= sweep.nwin * sweep.nwin
        && cause == Verdict(AsPeak(), lapSpread, stepsPerRev)
        && (cause != Degenerate ==> index == IndexAt(AsPeak(), sweep.winStart, sweep.decim, sweep.sign))
        && (cause != Degenerate && Tops(AsPeak()) ==> AtVertex(AsPeak(), sweep.winStart, sweep.decim, sweep.sign, index))
    {
      hide AC, Verdict, IndexAt, Depths, Scan, Take, Progress, Work, AsPeak, DenFits, Tops, AtVertex;
      if stage != Run { return true; }
      var budget := RESOLVE_MACS;
      ghost var n, from := sweep.nwin, k;
      SoFar(Window(), k, AsPeak(), slices);
      while k < kmax
        invariant Valid() && stage.Run? && from <= k <= kmax
        invariant slices == old(slices) && index == old(index) && cause == old(cause)
        invariant 0 < budget == RESOLVE_MACS - (Work(n, k) - Work(n, from))
      {
        var charge := NextLagDone();
        budget := budget - charge;
        if budget <= 0 {
          NextSlice(Window(), from, k, AsPeak(), slices);
          slices := slices + 1;
          SoFar(Window(), k, AsPeak(), slices);
          return false;
        }
      }
      SoFar(Window(), k, AsPeak(), slices);
      TotalWork(n);
      VertexInt32(Window());
      Answer();
      if Tops(AsPeak()) { IndexAtVertex(AsPeak(), sweep.winStart, sweep.decim, sweep.sign); }
      return true;
    }

    method Denominator() returns (den: int)
      requires DenFits(AsPeak())
      ensures den == ba - 2 * bb + bc
    {
      hide Wrap32;
      den := Wrap32(Wrap32(ba - Wrap32(2 * bb)) + bc);
      WrapsAdd(ba, bb, bc);
    }

    /** The vertex, back in absolute steps, and the verdict. */
    method Answer()
      requires DenFits(AsPeak())
      modifies this`stage, this`cause, this`index
      ensures stage == Done && cause == Verdict(AsPeak(), lapSpread, stepsPerRev)
      ensures cause != Degenerate ==> index == IndexAt(AsPeak(), sweep.winStart, sweep.decim, sweep.sign)
    {
      stage := Done;
      if best <= 0 {
        cause := Degenerate;
        return;
      }
      var den := Denominator();
      var delta := if den != 0 then 0.5 * (ba - bc) as real / den as real else 0.0;
      var c := (bk as real + delta) * 0.5;
      index := Round(sweep.winStart as real + c * (sweep.decim * sweep.sign) as real);
      cause := if lapSpread > stepsPerRev / 8 then Slip else Ok;
    }

    /** The caller's loop, one slice a pass: the sliced resolve equals the one-pass search, in at most
        n * n / 2048 + 1 calls. */
    method Finish() returns (calls: nat)
      requires Valid() && stage.Run? && k == 0 && slices == 0 && sweep.nwin >= 1
      modifies this`stage, this`k, this`h0, this`h1, this`best, this`bk, this`ba, this`bb, this`bc
      modifies this`cause, this`index, this`slices
      ensures Valid() && stage == Done
      ensures AsPeak() == Scan(Window(), 2 * sweep.nwin - 1)
      ensures cause == Verdict(Scan(Window(), 2 * sweep.nwin - 1), lapSpread, stepsPerRev)
      ensures cause != Degenerate ==>
        index == IndexAt(Scan(Window(), 2 * sweep.nwin - 1), sweep.winStart, sweep.decim, sweep.sign)
      ensures cause != Degenerate && Tops(AsPeak()) ==>
        AtVertex(AsPeak(), sweep.winStart, sweep.decim, sweep.sign, index)
      ensures calls <= sweep.nwin * sweep.nwin / RESOLVE_MACS + 1
    {
      hide AC, Verdict, IndexAt, Scan, Depths, Tops, AtVertex;
      var final := false;
      calls := 0;
      while !final
        invariant Valid()
        invariant !final ==> stage.Run? && calls == slices
        invariant final ==>
          && stage == Done && AsPeak() == Scan(Window(), 2 * sweep.nwin - 1) && calls == slices + 1
          && RESOLVE_MACS * slices <= sweep.nwin * sweep.nwin
          && cause == Verdict(AsPeak(), lapSpread, stepsPerRev)
          && (cause != Degenerate ==> index == IndexAt(AsPeak(), sweep.winStart, sweep.decim, sweep.sign))
          && (cause != Degenerate && Tops(AsPeak()) ==> AtVertex(AsPeak(), sweep.winStart, sweep.decim, sweep.sign, index))
        decreases if final then 0 else 1, if stage.Run? then kmax - k else 0
      {
        final := Step();
        calls := calls + 1;
      }
    }
  }
}
