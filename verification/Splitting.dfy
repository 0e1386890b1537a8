/** The host's splitting of curves (web/src/toolpath/annotate.ts): whatever the tests pick, the pieces tile the curve. */
module Splitting {
  import opened Curves

  /** The pieces are the stretches of c between consecutive parameters. */
  ghost predicate Tiles(c: Cubic, pieces: seq<Cubic>, ts: seq<real>) {
    && |ts| == |pieces| + 1 && |pieces| >= 1
    && (forall k :: 0 <= k < |pieces| ==> ts[k] < ts[k + 1])
    && (forall k :: 0 <= k < |pieces| ==> pieces[k] == Sub(c, ts[k], ts[k + 1]))
  }

  lemma SubEnds(c: Cubic, r: real, s: real)
    ensures Sub(c, r, s).p0 == BezierPoint(c, r) && Sub(c, r, s).p3 == BezierPoint(c, s)
  {
    hide BezierPoint, Blossom;
    OnDiagonal(c, r);
    OnDiagonal(c, s);
  }

  /** What tiling means: piece k at u is the curve at t_k + u (t_k+1 - t_k), and neighbours share their joint exactly. */
  lemma TilesRetrace(c: Cubic, pieces: seq<Cubic>, ts: seq<real>, k: nat, u: real)
    requires Tiles(c, pieces, ts) && k < |pieces|
    ensures BezierPoint(pieces[k], u) == BezierPoint(c, ts[k] + (ts[k + 1] - ts[k]) * u)
    ensures pieces[k].p0 == BezierPoint(c, ts[k]) && pieces[k].p3 == BezierPoint(c, ts[k + 1])
    ensures k + 1 < |pieces| ==> pieces[k].p3 == pieces[k + 1].p0
  {
    hide BezierPoint, Sub;
    SubRetraces(c, ts[k], ts[k + 1], u);
    SubEnds(c, ts[k], ts[k + 1]);
    if k + 1 < |pieces| { SubEnds(c, ts[k + 1], ts[k + 2]); }
  }

  lemma {:induction false} PieceAt(c: Cubic, pieces: seq<Cubic>, ts: seq<real>, x: real, n: nat) returns (k: nat)
    requires Tiles(c, pieces, ts) && 1 <= n <= |pieces| && ts[0] <= x <= ts[n]
    ensures k < n && ts[k] <= x <= ts[k + 1]
  {
    if x >= ts[n - 1] {
      k := n - 1;
    } else {
      k := PieceAt(c, pieces, ts, x, n - 1);
    }
  }

  /** No point of the curve is missed: every parameter lies on some piece. */
  lemma TilesCover(c: Cubic, pieces: seq<Cubic>, ts: seq<real>, x: real) returns (k: nat, u: real)
    requires Tiles(c, pieces, ts) && ts[0] <= x <= ts[|pieces|]
    ensures k < |pieces| && 0.0 <= u <= 1.0 && BezierPoint(pieces[k], u) == BezierPoint(c, x)
  {
    hide BezierPoint, Sub, Lerp;
    k := PieceAt(c, pieces, ts, x, |pieces|);
    u := (x - ts[k]) / (ts[k + 1] - ts[k]);
    LerpFraction(ts[k], ts[k + 1], x);
    SubRetraces(c, ts[k], ts[k + 1], u);
  }

  lemma LerpFraction(a: real, b: real, x: real)
    requires a <= x <= b && a < b
    ensures 0.0 <= (x - a) / (b - a) <= 1.0 && Lerp(a, b, (x - a) / (b - a)) == x
  {
    Fraction(x - a, b - a);
  }

  lemma Fraction(d: real, w: real)
    requires 0.0 <= d <= w && w > 0.0
    ensures 0.0 <= d / w <= 1.0 && w * (d / w) == d
  {
  }

  // ─── splitMany ─────────────────────────────────────────────────────────────

  predicate Sorted(ts: seq<real>) {
    && (forall k :: 0 <= k < |ts| ==> 0.0 < ts[k] < 1.0)
    && (forall k :: 0 <= k < |ts| - 1 ==> ts[k] < ts[k + 1])
  }

  lemma Rescaled(done: real, t: real)
    requires done < 1.0
    ensures Lerp(done, 1.0, (t - done) / (1.0 - done)) == t
  {
    assert (1.0 - done) * ((t - done) / (1.0 - done)) == t - done;
  }

  /** Split at sorted parameters, each rescaled to the part still to be cut. */
  method SplitMany(c: Cubic, ts: seq<real>) returns (out: seq<Cubic>)
    requires Sorted(ts)
    ensures Tiles(c, out, [0.0] + ts + [1.0])
  {
    hide SplitAt, Sub, Lerp;
    ghost var all := [0.0] + ts + [1.0];
    var rest, done := c, 0.0;
    out := [];
    WholeIsSub(c);
    for k := 0 to |ts|
      invariant |out| == k && done == all[k] < 1.0 && rest == Sub(c, done, 1.0)
      invariant forall j :: 0 <= j < k ==> out[j] == Sub(c, all[j], all[j + 1])
    {
      var u := (ts[k] - done) / (1.0 - done);
      Rescaled(done, ts[k]);
      SplitSub(c, done, 1.0, u);
      var halves := SplitAt(rest, u);
      out := out + [halves.0];
      rest, done := halves.1, ts[k];
    }
    out := out + [rest];
  }

  // ─── The recursive splitters ───────────────────────────────────────────────

  /** What the numeric tests would answer. */
  datatype Oracle = Oracle(even: Cubic -> bool,        // the curvature ratio is low enough
                           balance: Cubic -> real,     // the parameter that balances it
                           long: Cubic -> bool,        // a piece is long enough to keep
                           grade: Cubic -> Grade,      // the fit's verdict
                           maxDepth: nat)

  datatype Grade = Good | NonMonotonic | Loose | Bad

  datatype Outcome = Pieces(list: seq<Cubic>) | Refused

  function SplitPoint(o: Oracle, c: Cubic): (t: real)
    ensures 0.0 < t < 1.0
  {
    var t := o.balance(c);
    if t <= 0.001 || t >= 0.999 then 0.5 else t
  }

  /** Both halves, if both are long enough. */
  function Halves(o: Oracle, c: Cubic, t: real): seq<Cubic> {
    var h := SplitAt(c, t);
    if o.long(h.0) && o.long(h.1) then [h.0, h.1] else []
  }

  /** A half would be too short to keep. */
  predicate TooShort(o: Oracle, c: Cubic, t: real) { !o.long(SplitAt(c, t).0) || !o.long(SplitAt(c, t).1) }

  lemma HalvesExactly(o: Oracle, c: Cubic, t: real)
    ensures Halves(o, c, t) == [] <==> TooShort(o, c, t)
    ensures Halves(o, c, t) != [] ==> Halves(o, c, t) == [SplitAt(c, t).0, SplitAt(c, t).1]
  {
    hide SplitAt;
  }

  function ByKappaRatio(o: Oracle, c: Cubic, depth: nat): seq<Cubic>
    decreases o.maxDepth - depth
  {
    if o.even(c) || depth >= o.maxDepth then [c] else
      var h := Halves(o, c, SplitPoint(o, c));
      if h == [] then [c] else ByKappaRatio(o, h[0], depth + 1) + ByKappaRatio(o, h[1], depth + 1)
  }

  function ByFit(o: Oracle, c: Cubic, depth: nat): Outcome
    decreases o.maxDepth - depth
  {
    var g := o.grade(c);
    if g.Good? then Pieces([c]) else
      var h := if depth < o.maxDepth then Halves(o, c, 0.5) else [];
      if (g.NonMonotonic? || g.Loose?) && h != [] then
        var a, b := ByFit(o, h[0], depth + 1), ByFit(o, h[1], depth + 1);
        if a.Refused? || b.Refused? then Refused else Pieces(a.list + b.list)
      else if g.Loose? then Pieces([c])
      else Refused
  }

  function Power2(n: nat): nat { if n == 0 then 1 else 2 * Power2(n - 1) }

  lemma Power2Positive(n: nat)
    ensures Power2(n) >= 1
  {
  }

  /** Tilings of [r, m] and [m, s] join into one of [r, s]. */
  lemma TilesJoin(c: Cubic, a: seq<Cubic>, ta: seq<real>, b: seq<Cubic>, tb: seq<real>) returns (ts: seq<real>)
    requires Tiles(c, a, ta) && Tiles(c, b, tb) && ta[|a|] == tb[0]
    ensures Tiles(c, a + b, ts) && ts[0] == ta[0] && ts[|a + b|] == tb[|b|] && ts == ta + tb[1..]
  {
    hide Sub;
    ts := ta + tb[1..];
    forall k | 0 <= k < |a + b|
      ensures ts[k] < ts[k + 1] && (a + b)[k] == Sub(c, ts[k], ts[k + 1])
    {
      if k >= |a| {
        assert ts[k] == tb[k - |a|] && ts[k + 1] == tb[k - |a| + 1];
      }
    }
  }

  function Part(w: real, u: real): real { w * u }

  lemma PartPositive(w: real, u: real)
    requires w > 0.0 && u > 0.0
    ensures Part(w, u) > 0.0
  {
  }

  lemma PartRest(w: real, u: real)
    ensures Part(w, 1.0 - u) == w - Part(w, u)
  {
  }

  lemma Scaled(w: real, u: real)
    requires w > 0.0 && 0.0 < u < 1.0
    ensures 0.0 < Part(w, u) < w
  {
    hide Part;
    PartPositive(w, u);
    PartPositive(w, 1.0 - u);
    PartRest(w, u);
  }

  lemma LerpIs(r: real, s: real, u: real)
    ensures Lerp(r, s, u) == r + Part(s - r, u)
  {
  }

  lemma Inside(r: real, s: real, u: real)
    requires r < s && 0.0 < u < 1.0
    ensures r < Lerp(r, s, u) < s
  {
    hide Lerp, Part;
    LerpIs(r, s, u);
    Scaled(s - r, u);
  }

  /** The halves of a piece are pieces. */
  lemma HalvesAre(o: Oracle, c: Cubic, r: real, s: real, u: real) returns (m: real)
    requires r < s && 0.0 < u < 1.0
    ensures r < m < s && m == Lerp(r, s, u)
    ensures Halves(o, Sub(c, r, s), u) == [] || Halves(o, Sub(c, r, s), u) == [Sub(c, r, m), Sub(c, m, s)]
  {
    hide Lerp, Sub, SplitAt;
    m := Lerp(r, s, u);
    Inside(r, s, u);
    SplitSub(c, r, s, u);
  }

  lemma OneTile(c: Cubic, r: real, s: real)
    requires r < s
    ensures Tiles(c, [Sub(c, r, s)], [r, s])
  {
    hide Sub;
  }

  /** Whether the curvature splitter goes on. */
  predicate RatioSplits(o: Oracle, c: Cubic, depth: nat) {
    !o.even(c) && depth < o.maxDepth && Halves(o, c, SplitPoint(o, c)) != []
  }

  lemma RatioGoesOn(o: Oracle, c: Cubic, a: Cubic, b: Cubic, depth: nat)
    requires RatioSplits(o, c, depth) && Halves(o, c, SplitPoint(o, c)) == [a, b]
    ensures ByKappaRatio(o, c, depth) == ByKappaRatio(o, a, depth + 1) + ByKappaRatio(o, b, depth + 1)
  {
    hide Halves, SplitPoint;
  }

  lemma RatioStops(o: Oracle, c: Cubic, depth: nat)
    requires !RatioSplits(o, c, depth)
    ensures ByKappaRatio(o, c, depth) == [c]
  {
    hide Halves, SplitPoint;
  }

  /** The curvature splitter tiles any piece it is given, with at most 2 ^ (levels left) pieces. */
  lemma {:induction false} ByKappaRatioTiles(o: Oracle, c: Cubic, r: real, s: real, depth: nat) returns (ts: seq<real>)
    requires r < s && depth <= o.maxDepth
    ensures var out := ByKappaRatio(o, Sub(c, r, s), depth);
      Tiles(c, out, ts) && ts[0] == r && ts[|out|] == s && |out| <= Power2(o.maxDepth - depth)
    decreases o.maxDepth - depth
  {
    hide Sub, Tiles, Halves, SplitPoint, ByKappaRatio;
    var q := Sub(c, r, s);
    Power2Positive(o.maxDepth - depth);
    if RatioSplits(o, q, depth) {
      var m := HalvesAre(o, c, r, s, SplitPoint(o, q));
      RatioGoesOn(o, q, Sub(c, r, m), Sub(c, m, s), depth);
      var ta := ByKappaRatioTiles(o, c, r, m, depth + 1);
      var tb := ByKappaRatioTiles(o, c, m, s, depth + 1);
      ts := TilesJoin(c, ByKappaRatio(o, Sub(c, r, m), depth + 1), ta, ByKappaRatio(o, Sub(c, m, s), depth + 1), tb);
    } else {
      RatioStops(o, q, depth);
      OneTile(c, r, s);
      ts := [r, s];
    }
  }

  /** w halved n times. */
  function Halved(w: real, n: nat): real
    decreases n
  {
    if n == 0 then w else Halved(w / 2.0, n - 1)
  }

  /** A piece of that width is good, or a loose fit with no split left: the finest there is, or too short to halve. */
  predicate KeptAt(o: Oracle, piece: Cubic, width: real, finest: real) {
    || o.grade(piece).Good?
    || (o.grade(piece).Loose? && (width == finest || TooShort(o, piece, 0.5)))
  }

  ghost predicate Kept(o: Oracle, out: seq<Cubic>, ts: seq<real>, finest: real)
    requires |ts| == |out| + 1
  {
    forall k :: 0 <= k < |out| ==> KeptAt(o, out[k], ts[k + 1] - ts[k], finest)
  }

  lemma KeptJoin(o: Oracle, a: seq<Cubic>, ta: seq<real>, b: seq<Cubic>, tb: seq<real>, finest: real)
    requires |ta| == |a| + 1 && |tb| == |b| + 1 && ta[|a|] == tb[0]
    requires Kept(o, a, ta, finest) && Kept(o, b, tb, finest)
    ensures Kept(o, a + b, ta + tb[1..], finest)
  {
    hide KeptAt;
    var out, ts := a + b, ta + tb[1..];
    forall k | 0 <= k < |out|
      ensures KeptAt(o, out[k], ts[k + 1] - ts[k], finest)
    {
      if k >= |a| {
        assert ts[k] == tb[k - |a|] && ts[k + 1] == tb[k - |a| + 1] && out[k] == b[k - |a|];
      } else {
        assert ts[k] == ta[k] && ts[k + 1] == ta[k + 1] && out[k] == a[k];
      }
    }
  }

  lemma Middle(r: real, s: real)
    ensures Lerp(r, s, 0.5) - r == (s - r) / 2.0 == s - Lerp(r, s, 0.5)
  {
  }

  /** Whether the fit splitter goes on: the piece is not good, there is depth left and both halves are long enough. */
  predicate FitSplits(o: Oracle, c: Cubic, depth: nat) {
    !o.grade(c).Good? && depth < o.maxDepth && Halves(o, c, 0.5) != []
  }

  lemma FitGoesOn(o: Oracle, c: Cubic, a: Cubic, b: Cubic, depth: nat)
    requires ByFit(o, c, depth).Pieces? && FitSplits(o, c, depth) && Halves(o, c, 0.5) == [a, b]
    ensures ByFit(o, a, depth + 1).Pieces? && ByFit(o, b, depth + 1).Pieces?
    ensures ByFit(o, c, depth).list == ByFit(o, a, depth + 1).list + ByFit(o, b, depth + 1).list
  {
    hide Halves;
  }

  lemma FitStops(o: Oracle, c: Cubic, depth: nat)
    requires ByFit(o, c, depth).Pieces? && !FitSplits(o, c, depth)
    ensures ByFit(o, c, depth).list == [c]
    ensures o.grade(c).Good? || (o.grade(c).Loose? && (depth >= o.maxDepth || Halves(o, c, 0.5) == []))
  {
    hide Halves;
  }

  /** So does the fit splitter, unless it refuses; and every piece it keeps is good, or a loose fit at the last depth or
      with a half too short to keep. */
  lemma {:induction false} ByFitTiles(o: Oracle, c: Cubic, r: real, s: real, depth: nat) returns (ts: seq<real>)
    requires r < s && depth <= o.maxDepth && ByFit(o, Sub(c, r, s), depth).Pieces?
    ensures var out := ByFit(o, Sub(c, r, s), depth).list;
      && Tiles(c, out, ts) && ts[0] == r && ts[|out|] == s && |out| <= Power2(o.maxDepth - depth)
      && Kept(o, out, ts, Halved(s - r, o.maxDepth - depth))
    decreases o.maxDepth - depth
  {
    hide Sub, Tiles, Halves, Kept, ByFit, Lerp;
    var q := Sub(c, r, s);
    Power2Positive(o.maxDepth - depth);
    if FitSplits(o, q, depth) {
      var m := HalvesAre(o, c, r, s, 0.5);
      Middle(r, s);
      FitGoesOn(o, q, Sub(c, r, m), Sub(c, m, s), depth);
      var ta := ByFitTiles(o, c, r, m, depth + 1);
      var tb := ByFitTiles(o, c, m, s, depth + 1);
      var a, b := ByFit(o, Sub(c, r, m), depth + 1).list, ByFit(o, Sub(c, m, s), depth + 1).list;
      ts := TilesJoin(c, a, ta, b, tb);
      TileCuts(c, a, ta);
      TileCuts(c, b, tb);
      KeptJoin(o, a, ta, b, tb, Halved(s - r, o.maxDepth - depth));
    } else {
      FitStops(o, q, depth);
      OneTile(c, r, s);
      ts := [r, s];
      KeptOne(o, q, ts, depth);
    }
  }

  lemma TileCuts(c: Cubic, out: seq<Cubic>, ts: seq<real>)
    requires Tiles(c, out, ts)
    ensures |ts| == |out| + 1
  {
    hide Sub;
  }

  lemma KeptOne(o: Oracle, q: Cubic, ts: seq<real>, depth: nat)
    requires |ts| == 2 && depth <= o.maxDepth
    requires o.grade(q).Good? || (o.grade(q).Loose? && (depth >= o.maxDepth || Halves(o, q, 0.5) == []))
    ensures Kept(o, [q], ts, Halved(ts[1] - ts[0], o.maxDepth - depth))
  {
    hide Halves;
    HalvesExactly(o, q, 0.5);
  }

  /** From the top: both splitters tile the whole curve, in order, from 0 to 1. */
  lemma SplittersTile(o: Oracle, c: Cubic) returns (ts: seq<real>, us: seq<real>)
    ensures var out := ByKappaRatio(o, c, 0);
      Tiles(c, out, ts) && ts[0] == 0.0 && ts[|out|] == 1.0 && |out| <= Power2(o.maxDepth)
    ensures ByFit(o, c, 0).Pieces? ==>
      var out := ByFit(o, c, 0).list;
      Tiles(c, out, us) && us[0] == 0.0 && us[|out|] == 1.0 && |out| <= Power2(o.maxDepth)
  {
    hide Sub, Tiles, ByKappaRatio, ByFit;
    WholeIsSub(c);
    ts := ByKappaRatioTiles(o, c, 0.0, 1.0, 0);
    us := ts;
    if ByFit(o, c, 0).Pieces? { us := ByFitTiles(o, c, 0.0, 1.0, 0); }
  }

  // ─── What is kept, and what is refused ─────────────────────────────────────

  /** Every piece is the whole or long enough to keep. */
  predicate LongOrWhole(o: Oracle, c: Cubic, out: seq<Cubic>) { forall k :: 0 <= k < |out| ==> out[k] == c || o.long(out[k]) }

  lemma LongJoin(o: Oracle, c: Cubic, a: Cubic, b: Cubic, left: seq<Cubic>, right: seq<Cubic>)
    requires o.long(a) && o.long(b) && LongOrWhole(o, a, left) && LongOrWhole(o, b, right)
    ensures LongOrWhole(o, c, left + right)
  {
  }

  lemma {:induction false} RatioKeepsLong(o: Oracle, c: Cubic, depth: nat)
    requires depth <= o.maxDepth
    ensures LongOrWhole(o, c, ByKappaRatio(o, c, depth))
    decreases o.maxDepth - depth
  {
    hide Halves, SplitPoint, SplitAt, ByKappaRatio, LongOrWhole;
    if RatioSplits(o, c, depth) {
      var h := SplitAt(c, SplitPoint(o, c));
      HalvesExactly(o, c, SplitPoint(o, c));
      RatioGoesOn(o, c, h.0, h.1, depth);
      RatioKeepsLong(o, h.0, depth + 1);
      RatioKeepsLong(o, h.1, depth + 1);
      LongJoin(o, c, h.0, h.1, ByKappaRatio(o, h.0, depth + 1), ByKappaRatio(o, h.1, depth + 1));
    } else {
      RatioStops(o, c, depth);
      OneIsWhole(o, c);
    }
  }

  lemma OneIsWhole(o: Oracle, c: Cubic)
    ensures LongOrWhole(o, c, [c])
  {
  }

  lemma {:induction false} FitKeepsLong(o: Oracle, c: Cubic, depth: nat)
    requires depth <= o.maxDepth && ByFit(o, c, depth).Pieces?
    ensures LongOrWhole(o, c, ByFit(o, c, depth).list)
    decreases o.maxDepth - depth
  {
    hide Halves, SplitAt, ByFit, LongOrWhole;
    if FitSplits(o, c, depth) {
      var h := SplitAt(c, 0.5);
      HalvesExactly(o, c, 0.5);
      FitGoesOn(o, c, h.0, h.1, depth);
      FitKeepsLong(o, h.0, depth + 1);
      FitKeepsLong(o, h.1, depth + 1);
      LongJoin(o, c, h.0, h.1, ByFit(o, h.0, depth + 1).list, ByFit(o, h.1, depth + 1).list);
    } else {
      FitStops(o, c, depth);
      OneIsWhole(o, c);
    }
  }

  /** The piece reached from c by splitting, `down` one side or the other. */
  function DescendAt(o: Oracle, c: Cubic, down: seq<bool>): Cubic
    decreases |down|
  {
    if down == [] then c else DescendAt(o, Side(c, SplitPoint(o, c), down[0]), down[1..])
  }

  function Side(c: Cubic, t: real, far: bool): Cubic { if far then SplitAt(c, t).1 else SplitAt(c, t).0 }

  /** Every piece on the way down is uneven and can be split. */
  predicate UnevenDown(o: Oracle, c: Cubic, down: seq<bool>)
    decreases |down|
  {
    down == [] || (!o.even(c) && !TooShort(o, c, SplitPoint(o, c)) && UnevenDown(o, Side(c, SplitPoint(o, c), down[0]), down[1..]))
  }

  /** Reached by splitting only what is uneven, and done with: even, split as often as may be, or unable to be split. */
  predicate DoneAt(o: Oracle, c: Cubic, levels: nat, down: seq<bool>, piece: Cubic) {
    && |down| <= levels && UnevenDown(o, c, down) && piece == DescendAt(o, c, down)
    && (o.even(piece) || |down| == levels || TooShort(o, piece, SplitPoint(o, piece)))
  }

  ghost predicate Done(o: Oracle, c: Cubic, levels: nat, piece: Cubic) { exists down: seq<bool> :: DoneAt(o, c, levels, down, piece) }

  ghost predicate AllDone(o: Oracle, c: Cubic, levels: nat, out: seq<Cubic>) {
    forall k :: 0 <= k < |out| ==> Done(o, c, levels, out[k])
  }

  lemma SideDone(o: Oracle, c: Cubic, levels: nat, far: bool, out: seq<Cubic>)
    requires !o.even(c) && !TooShort(o, c, SplitPoint(o, c)) && AllDone(o, Side(c, SplitPoint(o, c), far), levels, out)
    ensures AllDone(o, c, levels + 1, out)
  {
    hide SplitPoint, SplitAt, TooShort, Side;
    forall k | 0 <= k < |out|
      ensures Done(o, c, levels + 1, out[k])
    {
      var down: seq<bool> :| DoneAt(o, Side(c, SplitPoint(o, c), far), levels, down, out[k]);
      assert ([far] + down)[1..] == down;
      assert DoneAt(o, c, levels + 1, [far] + down, out[k]);
    }
  }

  lemma {:induction false} RatioKeepsDone(o: Oracle, c: Cubic, depth: nat)
    requires depth <= o.maxDepth
    ensures AllDone(o, c, o.maxDepth - depth, ByKappaRatio(o, c, depth))
    decreases o.maxDepth - depth
  {
    hide Halves, SplitPoint, SplitAt, ByKappaRatio, Done;
    if RatioSplits(o, c, depth) {
      var h := SplitAt(c, SplitPoint(o, c));
      HalvesExactly(o, c, SplitPoint(o, c));
      RatioGoesOn(o, c, h.0, h.1, depth);
      RatioKeepsDone(o, h.0, depth + 1);
      RatioKeepsDone(o, h.1, depth + 1);
      SideDone(o, c, o.maxDepth - depth - 1, false, ByKappaRatio(o, h.0, depth + 1));
      SideDone(o, c, o.maxDepth - depth - 1, true, ByKappaRatio(o, h.1, depth + 1));
    } else {
      RatioStops(o, c, depth);
      DoneHere(o, c, depth);
    }
  }

  lemma DoneHere(o: Oracle, c: Cubic, depth: nat)
    requires depth <= o.maxDepth && !RatioSplits(o, c, depth)
    ensures Done(o, c, o.maxDepth - depth, c)
  {
    hide SplitAt, SplitPoint, Halves;
    HalvesExactly(o, c, SplitPoint(o, c));
    assert DescendAt(o, c, []) == c;
    assert DoneAt(o, c, o.maxDepth - depth, [], c);
  }

  /** Halving c down one side or the other, `down` deep. */
  function Descend(c: Cubic, down: seq<bool>): Cubic
    decreases |down|
  {
    if down == [] then c else Descend(Side(c, 0.5, down[0]), down[1..])
  }

  /** A piece that is only too loose or not monotonic is halved, if there is depth and length left to. */
  predicate Halvable(o: Oracle, c: Cubic, depth: nat) {
    (o.grade(c).NonMonotonic? || o.grade(c).Loose?) && depth < o.maxDepth && !TooShort(o, c, 0.5)
  }

  /** One that cannot be halved and is neither good nor merely loose is refused. */
  predicate Unfit(o: Oracle, c: Cubic, depth: nat) {
    !Halvable(o, c, depth) && (o.grade(c).Bad? || o.grade(c).NonMonotonic?)
  }

  /** Every piece on the way down is halved. */
  predicate HalvedDown(o: Oracle, c: Cubic, down: seq<bool>, depth: nat)
    decreases |down|
  {
    down == [] || (Halvable(o, c, depth) && HalvedDown(o, Side(c, 0.5, down[0]), down[1..], depth + 1))
  }

  lemma FitCases(o: Oracle, c: Cubic, depth: nat)
    ensures Halvable(o, c, depth) ==>
      (ByFit(o, c, depth).Refused? <==>
         ByFit(o, Side(c, 0.5, false), depth + 1).Refused? || ByFit(o, Side(c, 0.5, true), depth + 1).Refused?)
    ensures !Halvable(o, c, depth) ==> (ByFit(o, c, depth).Refused? <==> Unfit(o, c, depth))
  {
    hide SplitAt, Halves;
    HalvesExactly(o, c, 0.5);
  }

  /** Reached by halving only what is to be halved, and kept as it is: good, or loose and not to be halved. */
  predicate FitAt(o: Oracle, c: Cubic, depth: nat, down: seq<bool>, piece: Cubic) {
    && HalvedDown(o, c, down, depth) && piece == Descend(c, down) && !Halvable(o, piece, depth + |down|)
    && (o.grade(piece).Good? || o.grade(piece).Loose?)
  }

  ghost predicate Fit(o: Oracle, c: Cubic, depth: nat, piece: Cubic) { exists down: seq<bool> :: FitAt(o, c, depth, down, piece) }

  ghost predicate AllFit(o: Oracle, c: Cubic, depth: nat, out: seq<Cubic>) {
    forall k :: 0 <= k < |out| ==> Fit(o, c, depth, out[k])
  }

  lemma FitBelow(o: Oracle, c: Cubic, depth: nat, far: bool, down: seq<bool>, piece: Cubic)
    requires Halvable(o, c, depth) && FitAt(o, Side(c, 0.5, far), depth + 1, down, piece)
    ensures FitAt(o, c, depth, [far] + down, piece)
  {
    hide Side, Halvable;
    var d := [far] + down;
    assert d[0] == far && d[1..] == down;
    assert Descend(c, d) == Descend(Side(c, 0.5, far), down);
  }

  lemma FitHere(o: Oracle, c: Cubic, depth: nat)
    requires !Halvable(o, c, depth) && (o.grade(c).Good? || o.grade(c).Loose?)
    ensures Fit(o, c, depth, c)
  {
    hide Halvable;
    assert Descend(c, []) == c;
    assert FitAt(o, c, depth, [], c);
  }

  lemma SideFit(o: Oracle, c: Cubic, depth: nat, far: bool, out: seq<Cubic>)
    requires Halvable(o, c, depth) && AllFit(o, Side(c, 0.5, far), depth + 1, out)
    ensures AllFit(o, c, depth, out)
  {
    hide Side, Halvable;
    forall k | 0 <= k < |out|
      ensures Fit(o, c, depth, out[k])
    {
      var down: seq<bool> :| FitAt(o, Side(c, 0.5, far), depth + 1, down, out[k]);
      FitBelow(o, c, depth, far, down, out[k]);
    }
  }

  lemma FitPieces(o: Oracle, c: Cubic, depth: nat)
    requires ByFit(o, c, depth).Pieces?
    ensures Halvable(o, c, depth) ==>
      var a, b := ByFit(o, Side(c, 0.5, false), depth + 1), ByFit(o, Side(c, 0.5, true), depth + 1);
      a.Pieces? && b.Pieces? && ByFit(o, c, depth).list == a.list + b.list
    ensures !Halvable(o, c, depth) ==> ByFit(o, c, depth).list == [c] && (o.grade(c).Good? || o.grade(c).Loose?)
  {
    hide SplitAt, Halves;
    HalvesExactly(o, c, 0.5);
  }

  /** The fit splitter keeps exactly what halving leads to: it halves a piece if and only if it is to be halved. */
  lemma {:induction false} FitKeepsFit(o: Oracle, c: Cubic, depth: nat)
    requires depth <= o.maxDepth && ByFit(o, c, depth).Pieces?
    ensures AllFit(o, c, depth, ByFit(o, c, depth).list)
    decreases o.maxDepth - depth
  {
    hide Side, ByFit, Halvable, Fit;
    FitPieces(o, c, depth);
    if Halvable(o, c, depth) {
      DepthLeft(o, c, depth);
      var a, b := Side(c, 0.5, false), Side(c, 0.5, true);
      FitKeepsFit(o, a, depth + 1);
      FitKeepsFit(o, b, depth + 1);
      SideFit(o, c, depth, false, ByFit(o, a, depth + 1).list);
      SideFit(o, c, depth, true, ByFit(o, b, depth + 1).list);
    } else {
      FitHere(o, c, depth);
    }
  }

  /** The way down leads to a piece that is unfit. */
  predicate LeadsToUnfit(o: Oracle, c: Cubic, down: seq<bool>, depth: nat) {
    HalvedDown(o, c, down, depth) && Unfit(o, Descend(c, down), depth + |down|)
  }

  lemma LeadsOn(o: Oracle, c: Cubic, far: bool, down: seq<bool>, depth: nat)
    requires Halvable(o, c, depth)
    ensures LeadsToUnfit(o, c, [far] + down, depth) <==> LeadsToUnfit(o, Side(c, 0.5, far), down, depth + 1)
  {
    hide Side, Unfit, Halvable;
    assert ([far] + down)[1..] == down;
  }

  lemma {:induction false} RefusedLeads(o: Oracle, c: Cubic, depth: nat) returns (down: seq<bool>)
    requires depth <= o.maxDepth && ByFit(o, c, depth).Refused?
    ensures LeadsToUnfit(o, c, down, depth)
    decreases o.maxDepth - depth
  {
    hide Side, ByFit, Unfit, Halvable;
    FitCases(o, c, depth);
    if Halvable(o, c, depth) {
      DepthLeft(o, c, depth);
      var far := !ByFit(o, Side(c, 0.5, false), depth + 1).Refused?;
      down := RefusedLeads(o, Side(c, 0.5, far), depth + 1);
      LeadsOn(o, c, far, down, depth);
      down := [far] + down;
    } else {
      down := [];
    }
  }

  lemma {:induction false} LeadsRefused(o: Oracle, c: Cubic, down: seq<bool>, depth: nat)
    requires LeadsToUnfit(o, c, down, depth)
    ensures ByFit(o, c, depth).Refused?
    decreases |down|
  {
    hide Side, ByFit, Unfit, Halvable;
    FitCases(o, c, depth);
    if down == [] {
      NotBoth(o, c, depth);
    } else {
      assert [down[0]] + down[1..] == down;
      LeadsOn(o, c, down[0], down[1..], depth);
      LeadsRefused(o, Side(c, 0.5, down[0]), down[1..], depth + 1);
    }
  }

  /** The fit splitter refuses a curve if and only if halving leads to a piece that is unfit. */
  lemma RefusedExactly(o: Oracle, c: Cubic)
    ensures ByFit(o, c, 0).Refused? <==> exists down: seq<bool> :: LeadsToUnfit(o, c, down, 0)
  {
    hide ByFit, LeadsToUnfit;
    if ByFit(o, c, 0).Refused? {
      var down := RefusedLeads(o, c, 0);
    }
    if exists down: seq<bool> :: LeadsToUnfit(o, c, down, 0) {
      var down: seq<bool> :| LeadsToUnfit(o, c, down, 0);
      LeadsRefused(o, c, down, 0);
    }
  }

  lemma NotBoth(o: Oracle, c: Cubic, depth: nat)
    requires Unfit(o, c, depth)
    ensures !Halvable(o, c, depth)
  {
  }

  lemma DepthLeft(o: Oracle, c: Cubic, depth: nat)
    ensures Halvable(o, c, depth) ==> depth < o.maxDepth
  {
  }
}
