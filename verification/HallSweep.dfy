/** What a Hall sweep should see, as functions of the whole trace of samples: the dips, and which steps the
    capture window holds (src/node/types/stepper/hall_index.cpp). */
module HallSweep {
  import opened HallConstants

  // ─── The detector ──────────────────────────────────────────────────────────

  /** A dip by sample index: where it was declared, where it ended, its first lowest sample. */
  datatype Dip = Dip(enter: nat, exit: nat, low: nat)

  /** Clear samples since the last dip, the dip under way (if any) and the dips completed. */
  datatype Detect = Detect(clear: nat, inDip: bool, enter: nat, low: nat, dips: seq<Dip>)

  /** The largest sample up to index i. */
  function Baseline(t: seq<int>, i: nat): int
    requires i < |t|
  {
    if i == 0 then t[0] else
      var b := Baseline(t, i - 1);
      if t[i] > b then t[i] else b
  }

  function Below(t: seq<int>, i: nat): int
    requires i < |t|
  {
    Baseline(t, i) - t[i]
  }

  function Notice(d: Detect, t: seq<int>): Detect
    requires |t| > 0 && (d.inDip ==> d.low < |t|)
  {
    var i := |t| - 1;
    if |d.dips| == CROSSINGS then d
    else if d.inDip then
      var low := if t[i] < t[d.low] then i else d.low;
      if Below(t, i) < HOME_EXIT then Detect(0, false, 0, 0, d.dips + [Dip(d.enter, i, low)]) else d.(low := low)
    else
      var clear := if Below(t, i) < HOME_EXIT && d.clear < 0xffff then d.clear + 1 else d.clear;
      if Below(t, i) > HOME_ENTER && clear >= CLEAR_MIN then Detect(clear, true, i, i, d.dips) else d.(clear := clear)
  }

  function Watch(t: seq<int>): (d: Detect)
    ensures d.inDip ==> d.enter <= d.low < |t|
    decreases |t|
  {
    if t == [] then Detect(0, false, 0, 0, []) else Notice(Watch(t[..|t| - 1]), t)
  }

  /** What a completed dip is: it opens more than 400 below the baseline of its moment, stays at least 300 below,
      closes on the first sample that is not, and `low` is its first minimum. */
  ghost predicate IsDip(t: seq<int>, d: Dip) {
    && d.enter <= d.low <= d.exit && d.enter < d.exit < |t|
    && Below(t, d.enter) > HOME_ENTER && Below(t, d.exit) < HOME_EXIT
    && Deep(t, d.enter, d.exit)
    && Lowest(t, d.enter, d.exit + 1, d.low)
  }

  ghost predicate Deep(t: seq<int>, from: nat, to: nat)
    requires to <= |t|
  {
    forall i :: from <= i < to ==> Below(t, i) >= HOME_EXIT
  }

  ghost predicate Lowest(t: seq<int>, from: nat, to: nat, low: nat)
    requires from <= low < to <= |t|
  {
    && (forall i :: from <= i < to ==> t[low] <= t[i])
    && (forall i :: from <= i < low ==> t[low] < t[i])
  }

  /** First sample after the last completed dip. */
  function Since(d: Detect): nat { if d.dips == [] then 0 else d.dips[|d.dips| - 1].exit + 1 }

  /** The dips found are dips, at least 40 steps apart, in order; and so is the one under way, so far. */
  ghost predicate Seen(t: seq<int>, d: Detect) {
    && |d.dips| <= CROSSINGS && Since(d) <= |t|
    && (forall i :: 0 <= i < |d.dips| ==> IsDip(t, d.dips[i]))
    && (forall i :: 0 < i < |d.dips| ==> d.dips[i - 1].exit + CLEAR_MIN < d.dips[i].enter)
    && (d.inDip ==>
          && |d.dips| < CROSSINGS && Since(d) + CLEAR_MIN <= d.enter <= d.low < |t|
          && Below(t, d.enter) > HOME_ENTER && Deep(t, d.enter, |t|) && Lowest(t, d.enter, |t|, d.low))
    && (!d.inDip ==> d.clear <= |t| - Since(d))
    && (|d.dips| == CROSSINGS ==> !d.inDip)
  }

  lemma {:induction false} BaselineKept(u: seq<int>, t: seq<int>, i: nat)
    requires |u| <= |t| && u == t[..|u|] && i < |u|
    ensures Baseline(u, i) == Baseline(t, i) && Below(u, i) == Below(t, i)
  {
    if i > 0 { BaselineKept(u, t, i - 1); }
  }

  lemma DeepKept(u: seq<int>, t: seq<int>, from: nat, to: nat)
    requires |u| <= |t| && u == t[..|u|] && to <= |u| && Deep(u, from, to)
    ensures Deep(t, from, to)
  {
    hide Below;
    forall i | from <= i < to
      ensures Below(t, i) >= HOME_EXIT
    {
      BaselineKept(u, t, i);
    }
  }

  lemma DipKept(u: seq<int>, t: seq<int>, d: Dip)
    requires |u| <= |t| && u == t[..|u|] && IsDip(u, d)
    ensures IsDip(t, d)
  {
    hide Below, Deep;
    BaselineKept(u, t, d.enter);
    BaselineKept(u, t, d.exit);
    DeepKept(u, t, d.enter, d.exit);
  }

  lemma SeenKept(u: seq<int>, t: seq<int>, d: Detect)
    requires |t| > 0 && u == t[..|t| - 1] && Seen(u, d)
    ensures forall i :: 0 <= i < |d.dips| ==> IsDip(t, d.dips[i])
    ensures d.inDip ==> Below(t, d.enter) > HOME_ENTER && Deep(t, d.enter, |u|) && Lowest(t, d.enter, |u|, d.low)
  {
    hide Below, Deep, IsDip;
    forall i | 0 <= i < |d.dips|
      ensures IsDip(t, d.dips[i])
    {
      DipKept(u, t, d.dips[i]);
    }
    if d.inDip {
      BaselineKept(u, t, d.enter);
      DeepKept(u, t, d.enter, |u|);
    }
  }

  /** One more sample of the dip under way. */
  lemma DipGoesOn(u: seq<int>, t: seq<int>, d: Detect)
    requires |t| > 0 && u == t[..|t| - 1] && Seen(u, d) && d.inDip
    ensures var i, low := |u|, if t[|u|] < t[d.low] then |u| else d.low;
      && Lowest(t, d.enter, |t|, low)
      && (Below(t, i) >= HOME_EXIT ==> Deep(t, d.enter, |t|))
      && (Below(t, i) < HOME_EXIT ==> IsDip(t, Dip(d.enter, i, low)))
  {
    hide Below;
    SeenKept(u, t, d);
  }

  lemma NoticeSeen(u: seq<int>, t: seq<int>, d: Detect)
    requires |t| > 0 && u == t[..|t| - 1] && Seen(u, d)
    ensures Seen(t, Notice(d, t))
  {
    hide Below, IsDip, Deep;
    SeenKept(u, t, d);
    if d.inDip {
      DipGoesOn(u, t, d);
    } else {
      OpensDeep(t);
    }
  }

  lemma OpensDeep(t: seq<int>)
    requires |t| > 0
    ensures Below(t, |t| - 1) > HOME_ENTER ==> Deep(t, |t| - 1, |t|)
  {
  }

  /** The detector finds only dips, whatever the samples. */
  lemma {:induction false} WatchSeen(t: seq<int>)
    ensures Seen(t, Watch(t))
    decreases |t|
  {
    hide Notice, Seen;
    if t == [] {
      NothingSeen();
    } else {
      WatchSeen(t[..|t| - 1]);
      NoticeSeen(t[..|t| - 1], t, Watch(t[..|t| - 1]));
    }
  }

  lemma NothingSeen()
    ensures Seen([], Watch([]))
  {
  }

  // ─── The clear run is a count, not a run ───────────────────────────────────

  predicate IsClear(t: seq<int>, i: nat)
    requires i < |t|
  {
    Below(t, i) < HOME_EXIT
  }

  /** How many samples of from..to are clear. */
  function CountClear(t: seq<int>, from: nat, to: nat): (n: nat)
    requires to <= |t|
  {
    if to <= from then 0 else CountClear(t, from, to - 1) + if IsClear(t, to - 1) then 1 else 0
  }

  /** Where the search for dip k began: after the dip before. */
  function GapStart(d: Detect, k: nat): nat
    requires k <= |d.dips|
  {
    if k == 0 then 0 else d.dips[k - 1].exit + 1
  }

  function Capped(n: nat): nat { if n < 0xffff then n else 0xffff }

  ghost predicate LetIn(t: seq<int>, from: nat, enter: nat) { enter < |t| && CountClear(t, from, enter) >= CLEAR_MIN }

  /** The counter is the number of clear samples since the last dip; 40 of them let in every dip. */
  ghost predicate Counted(t: seq<int>, d: Detect) {
    && (|d.dips| < CROSSINGS && !d.inDip ==> d.clear == Capped(CountClear(t, Since(d), |t|)))
    && (d.inDip ==> LetIn(t, Since(d), d.enter))
    && (forall k :: 0 <= k < |d.dips| ==> LetIn(t, GapStart(d, k), d.dips[k].enter))
  }

  lemma {:induction false} CountKept(u: seq<int>, t: seq<int>, from: nat, to: nat)
    requires |u| <= |t| && u == t[..|u|] && to <= |u|
    ensures CountClear(u, from, to) == CountClear(t, from, to)
  {
    hide Below;
    if from < to {
      CountKept(u, t, from, to - 1);
      BaselineKept(u, t, to - 1);
    }
  }

  lemma LetInKept(u: seq<int>, t: seq<int>, d: Detect)
    requires |t| > 0 && u == t[..|t| - 1] && Counted(u, d)
    ensures d.inDip ==> LetIn(t, Since(d), d.enter)
    ensures forall k :: 0 <= k < |d.dips| ==> LetIn(t, GapStart(d, k), d.dips[k].enter)
  {
    hide CountClear, Since, GapStart;
    if d.inDip { CountKept(u, t, Since(d), d.enter); }
    forall k | 0 <= k < |d.dips|
      ensures LetIn(t, GapStart(d, k), d.dips[k].enter)
    {
      CountKept(u, t, GapStart(d, k), d.dips[k].enter);
    }
  }

  lemma NoticeCounted(u: seq<int>, t: seq<int>, d: Detect)
    requires |t| > 0 && u == t[..|t| - 1] && Counted(u, d) && Since(d) <= |u| && (d.inDip ==> d.low < |u|)
    requires |d.dips| <= CROSSINGS
    ensures Counted(t, Notice(d, t))
  {
    hide Below, LetIn;
    LetInKept(u, t, d);
    if |d.dips| < CROSSINGS && !d.inDip {
      ClearCounted(u, t, d);
      SameGaps(d, Notice(d, t));
    } else if |d.dips| < CROSSINGS {
      DipCounted(t, d);
    }
  }

  lemma SameGaps(d: Detect, d1: Detect)
    requires d1.dips == d.dips
    ensures forall k :: 0 <= k < |d.dips| ==> GapStart(d1, k) == GapStart(d, k)
    ensures Since(d1) == Since(d)
  {
  }

  lemma DipCounted(t: seq<int>, d: Detect)
    requires |t| > 0 && |d.dips| < CROSSINGS && d.inDip && d.low < |t|
    requires LetIn(t, Since(d), d.enter) && forall k :: 0 <= k < |d.dips| ==> LetIn(t, GapStart(d, k), d.dips[k].enter)
    ensures Counted(t, Notice(d, t))
  {
    hide Below, LetIn;
    var d1 := Notice(d, t);
    assert d1.dips[..|d.dips|] == d.dips;
    forall k | 0 <= k < |d1.dips|
      ensures LetIn(t, GapStart(d1, k), d1.dips[k].enter)
    {
      if k < |d.dips| { assert GapStart(d1, k) == GapStart(d, k); } else { assert GapStart(d1, k) == Since(d); }
    }
  }

  lemma ClearCounted(u: seq<int>, t: seq<int>, d: Detect)
    requires |t| > 0 && u == t[..|t| - 1] && Counted(u, d) && Since(d) <= |u| && |d.dips| < CROSSINGS && !d.inDip
    ensures var d1 := Notice(d, t);
      && (!d1.inDip ==> d1.clear == Capped(CountClear(t, Since(d), |t|)))
      && (d1.inDip ==> LetIn(t, Since(d), |u|))
  {
    hide Below, Since;
    CountKept(u, t, Since(d), |u|);
  }

  /** What the counter is, whatever the samples. */
  lemma {:induction false} WatchCounted(t: seq<int>)
    ensures Counted(t, Watch(t))
    decreases |t|
  {
    hide Notice, Counted, Since, Seen;
    if t == [] {
      NothingCounted();
    } else {
      var u := t[..|t| - 1];
      WatchCounted(u);
      WatchSeen(u);
      AfterDips(u, Watch(u));
      NoticeCounted(u, t, Watch(u));
    }
  }

  lemma NothingCounted()
    ensures Counted([], Watch([]))
  {
  }

  lemma AfterDips(t: seq<int>, d: Detect)
    requires Seen(t, d)
    ensures Since(d) <= |t| && |d.dips| <= CROSSINGS
  {
  }

  /** So a dip is declared on exactly the first sample more than 400 below, once 40 clear samples have been counted. */
  lemma DeclaredExactly(t: seq<int>, v: int)
    requires !Watch(t).inDip && |Watch(t).dips| < CROSSINGS
    ensures var u := t + [v];
      Watch(u).inDip <==> Below(u, |t|) > HOME_ENTER && CountClear(t, Since(Watch(t)), |t|) >= CLEAR_MIN
  {
    hide Below, Since, Seen;
    WatchSeen(t);
    AfterDips(t, Watch(t));
    WatchCounted(t);
    assert (t + [v])[..|t|] == t;
  }

  /** The counter as a run: back to nothing on a sample that is not clear. */
  function ClearRun(t: seq<int>, from: nat, to: nat): (n: nat)
    requires to <= |t|
  {
    if to <= from || !IsClear(t, to - 1) then 0 else ClearRun(t, from, to - 1) + 1
  }

  ghost predicate AllClear(t: seq<int>, from: nat, to: nat)
    requires to <= |t|
  {
    forall i :: from <= i < to ==> IsClear(t, i)
  }

  /** The n-th clear sample of from..to: the first with n before and including it. */
  function NthClear(t: seq<int>, from: nat, to: nat, n: nat): (g: nat)
    requires to <= |t| && 1 <= n <= CountClear(t, from, to)
    ensures from <= g < to && IsClear(t, g) && CountClear(t, from, g + 1) == n
  {
    if CountClear(t, from, to - 1) >= n then NthClear(t, from, to - 1, n) else to - 1
  }

  lemma {:induction false} CountSplits(t: seq<int>, from: nat, mid: nat, to: nat)
    requires from <= mid <= to <= |t|
    ensures CountClear(t, from, to) == CountClear(t, from, mid) + CountClear(t, mid, to)
  {
    hide IsClear;
    if mid < to { CountSplits(t, from, mid, to - 1); }
  }

  lemma {:induction false} CountAll(t: seq<int>, from: nat, to: nat)
    requires from <= to <= |t|
    ensures CountClear(t, from, to) <= to - from
    ensures CountClear(t, from, to) == to - from <==> AllClear(t, from, to)
    ensures ClearRun(t, from, to) == to - from <==> AllClear(t, from, to)
  {
    hide IsClear;
    if from < to { CountAll(t, from, to - 1); }
  }

  /** Samples that are not clear do not matter to a run that starts after them. */
  lemma {:induction false} RunFrom(t: seq<int>, from: nat, first: nat, to: nat)
    requires from <= first <= to <= |t| && CountClear(t, from, first) == 0
    ensures ClearRun(t, from, to) == ClearRun(t, first, to)
  {
    hide IsClear;
    if first < to { RunFrom(t, from, first, to - 1); }
  }

  /** The first n clear samples of a gap are consecutive, and a counter that is reset reaches n on the same sample,
      exactly when no sample between the first of them and the last is not clear. */
  lemma RunOfClear(t: seq<int>, from: nat, f: nat, g: nat, n: nat)
    requires from <= f < |t| && from <= g < |t| && IsClear(t, f) && CountClear(t, from, f + 1) == 1
    requires CountClear(t, from, g + 1) == n > 1
    ensures f < g
    ensures g + 1 - f == n <==> AllClear(t, f, g + 1)
    ensures ClearRun(t, from, g + 1) >= n <==> AllClear(t, f, g + 1)
  {
    hide IsClear, AllClear, CountClear, ClearRun;
    NthOrder(t, from, f, g);
    CountSplits(t, from, f, g + 1);
    CountAll(t, f, g + 1);
    RunFrom(t, from, f, g + 1);
    RunMisses(t, f, g + 1);
  }

  lemma NthOrder(t: seq<int>, from: nat, f: nat, g: nat)
    requires from <= f < |t| && from <= g < |t| && IsClear(t, f) && CountClear(t, from, f + 1) == 1
    requires CountClear(t, from, g + 1) > 1
    ensures f < g && CountClear(t, from, f) == 0
  {
    hide IsClear;
    if g <= f { CountSplits(t, from, g + 1, f + 1); }
  }

  /** A run that does not reach back to a clear first sample misses it. */
  lemma {:induction false} RunMisses(t: seq<int>, first: nat, to: nat)
    requires first < to <= |t| && IsClear(t, first)
    ensures 1 <= CountClear(t, first, to) && ClearRun(t, first, to) <= CountClear(t, first, to)
    ensures ClearRun(t, first, to) < to - first ==> ClearRun(t, first, to) < CountClear(t, first, to)
  {
    hide IsClear;
    if first < to - 1 { RunMisses(t, first, to - 1); }
  }

  /** Every dip is let in by 40 clear samples counted since the one before; they are consecutive under exactly that
      condition. */
  lemma DipLetIn(t: seq<int>, k: nat)
    requires k < |Watch(t).dips|
    ensures var from, enter := GapStart(Watch(t), k), Watch(t).dips[k].enter;
      && enter < |t| && CountClear(t, from, enter) >= CLEAR_MIN
      && var f, g := NthClear(t, from, enter, 1), NthClear(t, from, enter, CLEAR_MIN);
      && (g + 1 - f == CLEAR_MIN <==> AllClear(t, f, g + 1))
      && (ClearRun(t, from, g + 1) >= CLEAR_MIN <==> AllClear(t, f, g + 1))
  {
    hide AllClear, NthClear, ClearRun, IsClear, CountClear;
    WatchCounted(t);
    var from, enter := GapStart(Watch(t), k), Watch(t).dips[k].enter;
    assert LetIn(t, from, enter);
    RunOfClear(t, from, NthClear(t, from, enter, 1), NthClear(t, from, enter, CLEAR_MIN), CLEAR_MIN);
  }

  // ─── Stretches of one value ────────────────────────────────────────────────

  function Flat(v: int, n: nat): seq<int> { seq(n, i => v) }

  ghost predicate Topped(t: seq<int>, top: int) { forall i :: 0 <= i < |t| ==> t[i] <= top }

  lemma FlatNext(t: seq<int>, v: int, n: nat)
    requires n > 0
    ensures t + Flat(v, n) == (t + Flat(v, n - 1)) + [v]
  {
  }

  lemma FlatNone(t: seq<int>, v: int)
    ensures t + Flat(v, 0) == t
  {
  }

  lemma WatchNext(t: seq<int>, v: int)
    ensures Watch(t + [v]) == Notice(Watch(t), t + [v])
  {
    hide Notice;
    assert (t + [v])[..|t|] == t;
  }

  lemma {:induction false} BaselineTopped(t: seq<int>, i: nat, top: int)
    requires i < |t| && Topped(t, top)
    ensures Baseline(t, i) <= top
  {
    if i > 0 { BaselineTopped(t, i - 1, top); }
  }

  /** A sample as high as any before is the baseline; a lower one leaves the baseline where it was. */
  lemma BaselineNext(t: seq<int>, v: int, top: int)
    requires Topped(t, top) && v <= top
    ensures v == top ==> Baseline(t + [v], |t|) == top
    ensures t != [] && Baseline(t, |t| - 1) == top ==> Baseline(t + [v], |t|) == top
    ensures Topped(t + [v], top)
  {
    if t != [] {
      assert (t + [v])[..|t|] == t;
      BaselineKept(t, t + [v], |t| - 1);
      BaselineTopped(t, |t| - 1, top);
    }
  }

  /** What a trace has come to: its baseline is `top` and the detector is at d. */
  ghost predicate Sees(t: seq<int>, top: int, d: Detect) {
    Topped(t, top) && t != [] && Baseline(t, |t| - 1) == top && Watch(t) == d
  }

  lemma ClearStep(t: seq<int>, top: int, d: Detect)
    requires Topped(t, top) && Watch(t) == d && !d.inDip && |d.dips| < CROSSINGS && d.clear < 0xffff
    ensures Sees(t + [top], top, d.(clear := d.clear + 1))
  {
    hide Watch, Baseline;
    WatchNext(t, top);
    BaselineNext(t, top, top);
  }

  /** n samples at the baseline count as n clear ones. */
  lemma {:induction false} ClearStretch(t: seq<int>, top: int, n: nat, d: Detect)
    requires Topped(t, top) && Watch(t) == d && !d.inDip && |d.dips| < CROSSINGS && n > 0 && d.clear + n <= 0xffff
    ensures Sees(t + Flat(top, n), top, d.(clear := d.clear + n))
  {
    hide Watch, Baseline, Notice;
    FlatNext(t, top, n);
    if n == 1 {
      FlatNone(t, top);
      ClearStep(t, top, d);
    } else {
      ClearStretch(t, top, n - 1, d);
      ClearStep(t + Flat(top, n - 1), top, d.(clear := d.clear + n - 1));
    }
  }

  /** A deep sample after 40 clear ones opens a dip. */
  lemma OpenStep(t: seq<int>, top: int, v: int, d: Detect)
    requires Sees(t, top, d) && !d.inDip && |d.dips| < CROSSINGS && d.clear >= CLEAR_MIN && top - v > HOME_ENTER
    ensures Sees(t + [v], top, Detect(d.clear, true, |t|, |t|, d.dips))
  {
    hide Watch, Baseline;
    WatchNext(t, v);
    BaselineNext(t, v, top);
  }

  lemma {:induction false} DipStretch(t: seq<int>, top: int, v: int, n: nat, d: Detect)
    requires Sees(t, top, d) && d.inDip && |d.dips| < CROSSINGS && d.low < |t| && t[d.low] <= v && top - v >= HOME_EXIT
    ensures Sees(t + Flat(v, n), top, d)
  {
    hide Watch, Baseline;
    if n == 0 {
      FlatNone(t, v);
    } else {
      DipStretch(t, top, v, n - 1, d);
      FlatNext(t, v, n);
      WatchNext(t + Flat(v, n - 1), v);
      BaselineNext(t + Flat(v, n - 1), v, top);
    }
  }

  lemma CloseStep(t: seq<int>, top: int, v: int, d: Detect)
    requires Sees(t, top, d) && d.inDip && |d.dips| < CROSSINGS && d.low < |t| && t[d.low] <= v
    requires 0 <= top - v < HOME_EXIT
    ensures Sees(t + [v], top, Detect(0, false, 0, 0, d.dips + [Dip(d.enter, |t|, d.low)]))
  {
    hide Watch, Baseline;
    WatchNext(t, v);
    BaselineNext(t, v, top);
  }

  /** A sample that neither counts nor opens a dip. */
  lemma FlankStep(t: seq<int>, top: int, v: int, d: Detect)
    requires Sees(t, top, d) && !d.inDip && |d.dips| < CROSSINGS && HOME_EXIT <= top - v <= HOME_ENTER
    ensures Sees(t + [v], top, d)
  {
    hide Watch, Baseline;
    WatchNext(t, v);
    BaselineNext(t, v, top);
  }

  lemma {:induction false} DoneStretch(t: seq<int>, top: int, n: nat, d: Detect)
    requires Sees(t, top, d) && |d.dips| == CROSSINGS
    ensures Sees(t + Flat(top, n), top, d)
  {
    hide Watch, Baseline;
    if n == 0 {
      FlatNone(t, top);
    } else {
      DoneStretch(t, top, n - 1, d);
      FlatNext(t, top, n);
      WatchNext(t + Flat(top, n - 1), top);
      BaselineNext(t + Flat(top, n - 1), top, top);
    }
  }

  lemma NothingWatched()
    ensures Watch([]) == Detect(0, false, 0, 0, [])
  {
  }

  ghost predicate RunAt(t: seq<int>, from: nat, n: nat) { from + n <= |t| && AllClear(t, from, from + n) }

  /** Twenty clear samples, one that is not, twenty clear again: the next low sample is taken for a dip although no
      40 clear samples ever followed each other. */
  lemma ClearNotConsecutive()
    ensures var t := Flat(1000, 20) + [650] + Flat(1000, 20) + [500];
      && Watch(t).inDip && Watch(t).enter == 41
      && forall from :: !RunAt(t, from, CLEAR_MIN)
  {
    hide Watch, Baseline;
    NothingWatched();
    var t1 := Flat(1000, 20);
    assert [] + t1 == t1;
    ClearStretch([], 1000, 20, Watch([]));
    FlankStep(t1, 1000, 650, Detect(20, false, 0, 0, []));
    var t2 := t1 + [650];
    ClearStretch(t2, 1000, 20, Detect(20, false, 0, 0, []));
    OpenStep(t2 + Flat(1000, 20), 1000, 500, Detect(40, false, 0, 0, []));
    var t := t2 + Flat(1000, 20) + [500];
    assert t[..21] == t2;
    BaselineKept(t2, t, 20);
    assert !IsClear(t, 20);
  }

  // ─── The capture ───────────────────────────────────────────────────────────

  function Steps(n: int, decim: int): int { n * decim }

  lemma StepsNext(n: int, decim: int)
    ensures Steps(n + 1, decim) == Steps(n, decim) + decim
  {
  }

  lemma StepsGrow(m: int, n: int, decim: int)
    requires decim >= 1
    ensures m <= n ==> Steps(n, decim) >= Steps(m, decim) + (n - m)
  {
    if m <= n { assert (n - m) * decim >= n - m; }
  }

  /** Steps covered by one sample, from the width of the dip surveyed; narrowed to 16 bits, at least 1. */
  function DecimOf(width: nat): (d: nat)
    ensures d >= 1
  {
    var d := ((width + ROOM - 1) / ROOM) % WORD;
    if d < 1 then 1 else d
  }

  /** Up to this width the 16-bit narrowing loses nothing. */
  const WIDEST: nat := 0xffff * ROOM

  lemma DecimCovers(width: nat)
    requires width <= WIDEST
    ensures Steps(ROOM, DecimOf(width)) >= width
  {
  }

  /** The decimation is the least that lets a dip as wide as the one surveyed into the room for it. */
  lemma DecimLeast(width: nat, d: nat)
    requires width <= WIDEST
    ensures d >= DecimOf(width) <==> d >= 1 && Steps(ROOM, d) >= width
  {
    var k := DecimOf(width);
    DecimCovers(width);
    assert ROOM * (k - 1) < width || k == 1;
    if d >= k { assert ROOM * d >= ROOM * k; } else { assert ROOM * d <= ROOM * (k - 1); }
  }

  /** The capture: armed at step `a`, `r` samples offered to the ring before the dip was declared at step `e`, `m`
      samples of the dip, which ended at step `x`. */
  datatype Shape = Shape(a: nat, decim: nat, r: nat, e: nat, m: nat, x: nat)

  function Head(r: nat): nat { if r < HOME_PRE then r else HOME_PRE }

  /** The step whose sample window slot j holds. */
  function Slot(s: Shape, j: int): int {
    if j < Head(s.r) then s.a + Steps(s.r - Head(s.r) + 1 + j, s.decim) - 1
    else if j < Head(s.r) + s.m then s.e + Steps(j - Head(s.r) + 1, s.decim)
    else s.x + Steps(j - Head(s.r) - s.m + 1, s.decim)
  }

  /** The ring after r samples were offered: the last 40 of them, sample q in cell (q - 1) mod 40. */
  ghost predicate RingHolds(ring: seq<int>, t: seq<int>, a: nat, decim: nat, r: nat) {
    && |ring| == HOME_PRE
    && forall q :: r - Head(r) < q <= r ==>
                     0 <= a + Steps(q, decim) - 1 < |t| && ring[(q - 1) % HOME_PRE] == t[a + Steps(q, decim) - 1]
  }

  ghost predicate WindowHolds(w: seq<int>, t: seq<int>, s: Shape) {
    forall j :: 0 <= j < |w| ==> 0 <= Slot(s, j) < |t| && w[j] == t[Slot(s, j)]
  }

  lemma RingNext(ring: seq<int>, t: seq<int>, a: nat, decim: nat, r: nat)
    requires RingHolds(ring, t, a, decim, r) && 0 < |t| == a + Steps(r + 1, decim)
    ensures RingHolds(ring[r % HOME_PRE := t[|t| - 1]], t, a, decim, r + 1)
  {
    hide Steps;
    var ring' := ring[r % HOME_PRE := t[|t| - 1]];
    forall q | r + 1 - Head(r + 1) < q <= r + 1
      ensures 0 <= a + Steps(q, decim) - 1 < |t| && ring'[(q - 1) % HOME_PRE] == t[a + Steps(q, decim) - 1]
    {
      if q <= r { assert (q - 1) % HOME_PRE != r % HOME_PRE; }
    }
  }

  lemma RingKept(ring: seq<int>, u: seq<int>, t: seq<int>, a: nat, decim: nat, r: nat)
    requires RingHolds(ring, u, a, decim, r) && |u| <= |t| && u == t[..|u|]
    ensures RingHolds(ring, t, a, decim, r)
  {
  }

  lemma WindowKept(w: seq<int>, u: seq<int>, t: seq<int>, s: Shape)
    requires WindowHolds(w, u, s) && |u| <= |t| && u == t[..|u|]
    ensures WindowHolds(w, t, s)
  {
  }

  /** A sample of the dip joins the window. */
  lemma DipSample(w: seq<int>, t: seq<int>, s: Shape)
    requires WindowHolds(w, t, s) && |w| == Head(s.r) + s.m && 0 < |t| == s.e + Steps(s.m + 1, s.decim) + 1
    ensures WindowHolds(w + [t[|t| - 1]], t, s.(m := s.m + 1))
  {
    hide Steps;
    var w', s' := w + [t[|t| - 1]], s.(m := s.m + 1);
    forall j | 0 <= j < |w'|
      ensures 0 <= Slot(s', j) < |t| && w'[j] == t[Slot(s', j)]
    {
      if j < |w| { assert Slot(s', j) == Slot(s, j); }
    }
  }

  /** A sample of the tail joins the window. */
  lemma TailSample(w: seq<int>, t: seq<int>, s: Shape, post: nat)
    requires WindowHolds(w, t, s) && |w| == Head(s.r) + s.m + post && 0 < |t| == s.x + Steps(post + 1, s.decim) + 1
    ensures WindowHolds(w + [t[|t| - 1]], t, s)
  {
    hide Steps;
  }

  /** Where the dip ends does not matter to a window without a tail. */
  lemma SetExit(w: seq<int>, t: seq<int>, s: Shape, x: nat)
    requires WindowHolds(w, t, s) && |w| == Head(s.r) + s.m
    ensures WindowHolds(w, t, s.(x := x))
  {
    hide Steps;
    forall j | 0 <= j < |w|
      ensures Slot(s.(x := x), j) == Slot(s, j)
    {
    }
  }

  // ─── What the window is ────────────────────────────────────────────────────

  /** Whole periods in a number of steps, and the steps left over. */
  function Periods(total: nat, decim: nat): nat
    requires decim >= 1
  {
    total / decim
  }

  function Rest(total: nat, decim: nat): nat
    requires decim >= 1
  {
    total % decim
  }

  lemma PeriodsAre(total: nat, decim: nat)
    requires decim >= 1
    ensures total == Steps(Periods(total, decim), decim) + Rest(total, decim) && Rest(total, decim) < decim
  {
  }

  lemma SameQuotient(n: int, q: int, total: int, decim: nat)
    requires decim >= 1 && 0 <= total - Steps(n, decim) < decim && 0 <= total - Steps(q, decim) < decim
    ensures n == q
  {
    hide Steps;
    StepsGrow(n + 1, q, decim);
    StepsGrow(q + 1, n, decim);
    StepsNext(n, decim);
    StepsNext(q, decim);
  }

  /** A counter restarted at every period counts the remainder. */
  lemma PeriodNext(total: nat, decim: nat)
    requires decim >= 1
    ensures Rest(total, decim) < decim
    ensures Rest(total, decim) + 1 >= decim ==>
      && Periods(total + 1, decim) == Periods(total, decim) + 1 && Rest(total + 1, decim) == 0
      && total + 1 == Steps(Periods(total, decim) + 1, decim)
    ensures Rest(total, decim) + 1 < decim ==>
      Periods(total + 1, decim) == Periods(total, decim) && Rest(total + 1, decim) == Rest(total, decim) + 1
  {
    hide Steps, Periods, Rest;
    var q := Periods(total, decim);
    PeriodsAre(total, decim);
    PeriodsAre(total + 1, decim);
    StepsNext(q, decim);
    SameQuotient(Periods(total + 1, decim), if Rest(total, decim) + 1 < decim then q else q + 1, total + 1, decim);
  }

  lemma PeriodsZero(decim: nat)
    requires decim >= 1
    ensures Periods(0, decim) == 0 && Rest(0, decim) == 0
  {
  }

  /** The counts are the whole periods from arming to the entry and from the entry to the exit. */
  predicate Shaped(s: Shape) {
    && s.decim >= 1 && s.a <= s.e + 1 && s.e <= s.x
    && s.r == Periods(s.e + 1 - s.a, s.decim) && s.m == Periods(s.x - s.e, s.decim)
  }

  /** The head is full exactly when 40 periods have passed since arming. */
  lemma HeadFull(s: Shape)
    requires Shaped(s)
    ensures Head(s.r) == HOME_PRE <==> s.e + 1 - s.a >= Steps(HOME_PRE, s.decim)
  {
    hide Steps, Periods;
    PeriodsAre(s.e + 1 - s.a, s.decim);
    StepsGrow(HOME_PRE, s.r, s.decim);
    StepsGrow(s.r + 1, HOME_PRE, s.decim);
    StepsNext(s.r, s.decim);
  }

  /** The step the resolve takes slot j to hold, the window starting Head(r) periods before the entry. */
  function Tag(s: Shape, j: int): int { s.e - Steps(Head(s.r), s.decim) + Steps(j, s.decim) }

  lemma StepsAdd(m: int, n: int, decim: int)
    ensures Steps(m + n, decim) == Steps(m, decim) + Steps(n, decim)
  {
  }

  /** Every slot holds a sample taken after its tag: by 1 to decim steps in the head, by exactly decim in the dip,
      by decim to 2 decim - 1 in the tail. */
  lemma TagsLag(s: Shape, j: nat)
    requires Shaped(s)
    ensures j < Head(s.r) ==> 1 <= Slot(s, j) - Tag(s, j) <= s.decim
    ensures Head(s.r) <= j < Head(s.r) + s.m ==> Slot(s, j) - Tag(s, j) == s.decim
    ensures Head(s.r) + s.m <= j ==> s.decim <= Slot(s, j) - Tag(s, j) < 2 * s.decim
  {
    hide Steps, Periods, Rest;
    var h := Head(s.r);
    PeriodsAre(s.e + 1 - s.a, s.decim);
    PeriodsAre(s.x - s.e, s.decim);
    if j < h {
      StepsAdd(s.r - h + 1, j, s.decim);
      StepsAdd(s.r - h, h, s.decim);
      StepsNext(s.r - h, s.decim);
    } else if j < h + s.m {
      StepsAdd(j - h, h, s.decim);
      StepsNext(j - h, s.decim);
    } else {
      StepsAdd(j - h - s.m, h + s.m, s.decim);
      StepsAdd(s.m, h, s.decim);
      StepsNext(j - h - s.m, s.decim);
    }
  }

  /** A dip no wider than the one surveyed leaves room for a full tail. */
  lemma DipFits(s: Shape, width: nat)
    requires Shaped(s) && width <= WIDEST && s.decim == DecimOf(width) && s.x - s.e <= width
    ensures s.m <= ROOM && Head(s.r) + s.m + Head(s.r) <= HOME_WIN
  {
    hide Steps, DecimOf, Periods, Rest;
    PeriodsAre(s.x - s.e, s.decim);
    DecimCovers(width);
    StepsGrow(ROOM + 1, s.m, s.decim);
    StepsNext(ROOM, s.decim);
  }
}
