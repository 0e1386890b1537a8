/** Whole sweeps: when one is over, what index a symmetric trace is given, and the traces on which the code's comments
    fail (src/node/types/stepper/hall_index.cpp). */
module HallTraces {
  import opened HallConstants
  import opened HallSweep
  import opened HallSampling
  import R = HallResolver
  import S = HallResolve
  import A = Autoconvolution

  // ─── A sweep is not over before its tail is complete ───────────────────────

  /** Tail samples wanted after the final dip. */
  function TailNeed(d: Detect): nat
    requires |d.dips| == 3
  {
    if d.dips[2].enter < d.dips[1].exit then 1 else
      var h := Head(Periods(d.dips[2].enter - d.dips[1].exit, DecimOf(Width(d))));
      if h == 0 then 1 else h
  }

  /** The final dip is no wider than the one surveyed, and its tail is not complete. */
  ghost predicate Unfinished(t: seq<int>, d: Detect) {
    && |d.dips| <= 3
    && (|d.dips| == 2 && d.inDip ==> Width(d) <= WIDEST && |t| - 1 - d.enter <= Width(d))
    && (|d.dips| == 3 ==>
          && Width(d) <= WIDEST && d.dips[2].exit - d.dips[2].enter <= Width(d) && d.dips[2].exit < |t|
          && Periods(|t| - 1 - d.dips[2].exit, DecimOf(Width(d))) < TailNeed(d))
  }

  lemma UnfinishedBefore(t: seq<int>, v: int, d: Detect)
    requires Seen(t, d) && Unfinished(t + [v], Notice(d, t + [v]))
    ensures Unfinished(t, d)
  {
    hide Below, IsDip, Deep, Lowest, Periods, DecimOf, Head;
    if |d.dips| == 3 {
      assert IsDip(t, d.dips[2]);
      DipSpan(t, d.dips[2]);
      PeriodNext(|t| - 1 - d.dips[2].exit, DecimOf(Width(d)));
    }
  }

  /** Such a sweep goes on, and is what its trace says. */
  lemma {:induction false} GoesOn(sign: int, origin: int, ring: seq<int>, t: seq<int>)
    requires (sign == 1 || sign == -1) && |ring| == HOME_PRE && Unfinished(t, Watch(t))
    ensures var (s, over) := Run(sign, origin, ring, t); s.det.sign == sign && !over && Told(s, false, t, origin)
    decreases |t|
  {
    hide Run, Told, Spilt, Unfinished, Watch, Notice, Seen;
    if t == [] {
      RunNone(sign, origin, ring);
      NothingTold(sign, ring, origin);
    } else {
      var u, v := t[..|t| - 1], t[|t| - 1];
      assert u + [v] == t;
      WatchNext(u, v);
      WatchSeen(u);
      UnfinishedBefore(u, v, Watch(u));
      GoesOn(sign, origin, ring, u);
      RunTells(sign, origin, ring, t);
      StillGoing(Run(sign, origin, ring, t).0, Run(sign, origin, ring, t).1, u, v, origin);
    }
  }

  lemma StillGoing(s: State, over: bool, u: seq<int>, v: int, origin: int)
    requires Unfinished(u + [v], Watch(u + [v])) && (Told(s, over, u + [v], origin) || Spilt(s, over, u + [v]))
    ensures !over && Told(s, false, u + [v], origin)
  {
    hide Watch, Periods, DecimOf;
    NoSpill(s, over, u, v);
  }

  lemma NoSpill(s: State, over: bool, u: seq<int>, v: int)
    requires Unfinished(u + [v], Watch(u + [v]))
    ensures !Spilt(s, over, u + [v])
  {
    hide Watch, Periods, DecimOf, Below, TailNeed, IsDip, Deep, Lowest;
    assert (u + [v])[..|u|] == u;
    WatchSeen(u);
    WatchNext(u, v);
    var d, d1 := Watch(u), Watch(u + [v]);
    if |d.dips| == 2 && d.inDip {
      assert d1.dips[..2] == d.dips;
      assert Width(d1) == Width(d);
    }
  }

  /** It is over on the very sample that completes the tail. */
  lemma OverExactly(sign: int, origin: int, ring: seq<int>, t: seq<int>, v: int)
    requires (sign == 1 || sign == -1) && |ring| == HOME_PRE && Unfinished(t, Watch(t)) && |Watch(t).dips| == 3
    ensures var d, (s, over) := Watch(t), Run(sign, origin, ring, t + [v]);
      && Watch(t + [v]) == d && s.det.sign == sign && Told(s, over, t + [v], origin)
      && (over <==> Periods(|t| - d.dips[2].exit, DecimOf(Width(d))) == TailNeed(d))
  {
    hide Run, Told, Spilt, Unfinished, Watch, Notice, TailNeed, Periods, DecimOf;
    var u := t + [v];
    assert u[..|t|] == t;
    GoesOn(sign, origin, ring, t);
    RunTells(sign, origin, ring, u);
    DoneStays(t, v);
    var (s, over) := Run(sign, origin, ring, u);
    TailTold(s, over, t, v, origin);
  }

  lemma DoneStays(t: seq<int>, v: int)
    requires |Watch(t).dips| == CROSSINGS
    ensures Watch(t + [v]) == Watch(t)
  {
    hide Watch;
    WatchNext(t, v);
  }

  lemma TailTold(s: State, over: bool, t: seq<int>, v: int, origin: int)
    requires Unfinished(t, Watch(t)) && |Watch(t).dips| == 3 && Watch(t + [v]) == Watch(t)
    requires Told(s, over, t + [v], origin) || Spilt(s, over, t + [v])
    ensures var d := Watch(t);
      && Told(s, over, t + [v], origin)
      && (over <==> Periods(|t| - d.dips[2].exit, DecimOf(Width(d))) == TailNeed(d))
  {
    hide Watch, Periods, DecimOf, Below, IsDip;
    assert (t + [v])[..|t|] == t;
    WatchSeen(t);
  }

  // ─── Square dips ───────────────────────────────────────────────────────────

  const TOP: int := 8191   // the highest 13-bit reading

  /** 40 clear samples, w at nothing, one clear. */
  function Lap(w: nat): seq<int> { Flat(TOP, CLEAR_MIN) + Flat(0, w) + [TOP] }

  function Square(enter: nat, w: nat): Dip { Dip(enter, enter + w, enter) }

  lemma Opens(t: seq<int>, d: Detect)
    requires Topped(t, TOP) && Watch(t) == d && !d.inDip && |d.dips| < CROSSINGS && d.clear == 0
    ensures Sees(t + Flat(TOP, CLEAR_MIN) + [0], TOP, Detect(CLEAR_MIN, true, |t| + 40, |t| + 40, d.dips))
  {
    hide Watch, Sees;
    ClearStretch(t, TOP, CLEAR_MIN, d);
    OpenStep(t + Flat(TOP, CLEAR_MIN), TOP, 0, d.(clear := CLEAR_MIN));
  }

  lemma LapSeen(t: seq<int>, w: nat, dips: seq<Dip>)
    requires Topped(t, TOP) && Watch(t) == Detect(0, false, 0, 0, dips) && |dips| < CROSSINGS && w >= 1
    ensures Sees(t + Lap(w), TOP, Detect(0, false, 0, 0, dips + [Square(|t| + 40, w)]))
  {
    hide Watch, Sees;
    Opens(t, Watch(t));
    var u, d := t + Flat(TOP, CLEAR_MIN) + [0], Detect(CLEAR_MIN, true, |t| + 40, |t| + 40, dips);
    DipStretch(u, TOP, 0, w - 1, d);
    CloseStep(u + Flat(0, w - 1), TOP, TOP, d);
    assert u + Flat(0, w - 1) + [TOP] == t + Lap(w);
  }

  function Two(w0: nat, w1: nat): seq<int> { Lap(w0) + Lap(w1) }

  lemma TwoSeen(w0: nat, w1: nat)
    requires w0 >= 1 && w1 >= 1
    ensures |Two(w0, w1)| == w0 + w1 + 82
    ensures Sees(Two(w0, w1), TOP, Detect(0, false, 0, 0, [Square(40, w0), Square(w0 + 81, w1)]))
  {
    hide Watch;
    NothingWatched();
    LapSeen([], w0, []);
    assert [] + Lap(w0) == Lap(w0);
    LapSeen(Lap(w0), w1, [Square(40, w0)]);
    assert [Square(40, w0)] + [Square(w0 + 81, w1)] == [Square(40, w0), Square(w0 + 81, w1)];
  }

  lemma ThreeSeen(w0: nat, w1: nat, w2: nat)
    requires w0 >= 1 && w1 >= 1 && w2 >= 1
    ensures |Two(w0, w1) + Lap(w2)| == w0 + w1 + w2 + 123
    ensures var dips := [Square(40, w0), Square(w0 + 81, w1), Square(w0 + w1 + 122, w2)];
      Sees(Two(w0, w1) + Lap(w2), TOP, Detect(0, false, 0, 0, dips))
  {
    hide Watch;
    TwoSeen(w0, w1);
    LapSeen(Two(w0, w1), w2, Watch(Two(w0, w1)).dips);
  }

  /** A surveyed dip so wide that a sample covers 42 steps, and a final one a single step wide: stopped at its exit,
      the sweep looks complete and its window is empty. */
  lemma EmptyWindowReached(sign: int, origin: int, ring: seq<int>)
    requires (sign == 1 || sign == -1) && |ring| == HOME_PRE
    ensures var t := Two(1, 13300) + Lap(1);
      var (s, over) := Run(sign, origin, ring, t);
      Sampled(t) && !over && R.Complete(Report(s)) && |s.cap.w| == 0
  {
    hide Run, Watch, Told, Two, Lap, Periods;
    var t := Two(1, 13300) + Lap(1);
    ThreeSeen(1, 13300, 1);
    PeriodsZero(DecimOf(13300));
    LapsSampled(1, 13300, 1);
    assert Unfinished(t, Watch(t));
    GoesOn(sign, origin, ring, t);
    var s := Run(sign, origin, ring, t).0;
    DecimTold(s, false, t, origin);
    EmptyWindow(s, t, origin);
  }

  lemma LapsSampled(w0: nat, w1: nat, w2: nat)
    ensures Sampled(Two(w0, w1) + Lap(w2))
  {
  }

  lemma DecimTold(s: State, over: bool, t: seq<int>, origin: int)
    requires Told(s, over, t, origin) && |Watch(t).dips| == 3
    ensures s.cap.exiting && s.cap.decim == DecimOf(Width(Watch(t)))
  {
    hide Watch, Periods, DecimOf;
  }

  /** With one sample every two steps, 40 clear samples straight after the second dip declare the third with a head of
      20 samples, not 40. */
  lemma ShortHead(sign: int, origin: int, ring: seq<int>)
    requires (sign == 1 || sign == -1) && |ring| == HOME_PRE
    ensures var t := Two(1, 400) + Flat(TOP, CLEAR_MIN) + [0];
      var (s, over) := Run(sign, origin, ring, t);
      Sampled(t) && !over && s.cap.capturing && s.det.inDip && s.cap.decim == 2 && s.cap.preN == 20
  {
    hide Run, Watch, Told, Two;
    TwoSeen(1, 400);
    var u := Two(1, 400);
    var t := u + Flat(TOP, CLEAR_MIN) + [0];
    Opens(u, Watch(u));
    TwoSampled(1, 400);
    assert Unfinished(t, Watch(t));
    GoesOn(sign, origin, ring, t);
    HeadIs(Run(sign, origin, ring, t).0, t, origin);
  }

  lemma TwoSampled(w0: nat, w1: nat)
    ensures Sampled(Two(w0, w1))
  {
  }

  lemma HeadIs(s: State, t: seq<int>, origin: int)
    requires Told(s, false, t, origin) && |Watch(t).dips| == 2 && Watch(t).inDip
    ensures var d := Watch(t);
      && s.cap.capturing && s.det.inDip && s.cap.decim == DecimOf(Width(d)) && d.dips[1].exit <= d.enter
      && s.cap.preN == Head(Periods(d.enter - d.dips[1].exit, s.cap.decim))
  {
    hide Watch, Periods, DecimOf;
  }

  // ─── The index of a symmetric trace ────────────────────────────────────────

  lemma PeriodsOne(n: nat)
    ensures Periods(n, 1) == n && Steps(n, 1) == n
  {
  }

  /** At one sample a step the finished window is the stretch of the trace from 39 steps before the entry to 40 after
      the exit. */
  lemma UnitWindow(s: State, t: seq<int>, origin: int)
    requires Told(s, true, t, origin) && s.cap.decim == 1
    ensures |Watch(t).dips| == 3
    ensures var dip := Watch(t).dips[2];
      && HOME_PRE < dip.enter < dip.exit && |t| == dip.exit + HOME_PRE + 1
      && s.cap.w == t[dip.enter - 39..]
      && s.cap.winStart == PosAt(origin, s.det.sign, dip.enter - HOME_PRE)
  {
    hide Watch, Rest, DecimOf, Periods, Steps, WindowHolds, Below, Deep, Lowest, Slot;
    WatchSeen(t);
    var d := Watch(t);
    var dip := d.dips[2];
    assert IsDip(t, dip);
    DipSpan(t, dip);
    var sh := ShapeOf(d, dip.enter, dip.exit);
    PeriodsOne(dip.enter - d.dips[1].exit);
    PeriodsOne(dip.exit - dip.enter);
    PeriodsOne(|t| - 1 - dip.exit);
    UnitSlots(s.cap.w, t, sh);
    PosBack(origin, s.det.sign, dip.enter);
  }

  lemma PosBack(origin: int, sign: int, e: int)
    ensures PosAt(origin, sign, e) - HOME_PRE * 1 * sign == PosAt(origin, sign, e - HOME_PRE)
  {
  }

  lemma UnitSlots(w: seq<int>, t: seq<int>, sh: Shape)
    requires sh.decim == 1 && sh.r >= HOME_PRE && sh.r == sh.e + 1 - sh.a && sh.m == sh.x - sh.e
    requires WindowHolds(w, t, sh) && HOME_PRE <= sh.e && |t| == sh.x + HOME_PRE + 1 && |w| == HOME_PRE + sh.m + HOME_PRE
    ensures w == t[sh.e - 39..]
  {
    forall j | 0 <= j < |w|
      ensures w[j] == t[sh.e - 39 + j]
    {
      assert Slot(sh, j) == sh.e - 39 + j;
    }
  }

  /** Depth at step i, of the steps from lo on; none outside. */
  function DepthAt(t: seq<int>, baseline: int, lo: nat, i: int): int {
    if lo <= i < |t| then R.Depth(baseline, t[i]) else 0
  }

  /** Mirror image about step c / 2. */
  ghost predicate Mirrored(t: seq<int>, baseline: int, lo: nat, c: int) {
    forall i: int :: DepthAt(t, baseline, lo, i) == DepthAt(t, baseline, lo, c - i)
  }

  lemma SlotDepth(t: seq<int>, baseline: int, lo: nat, j: int)
    requires lo <= |t|
    ensures A.G(R.DepthsOf(baseline, t[lo..]), j) == DepthAt(t, baseline, lo, lo + j)
  {
  }

  lemma DepthSymmetric(t: seq<int>, baseline: int, lo: nat, c: int)
    requires lo <= |t| && Mirrored(t, baseline, lo, c)
    ensures A.Symmetric(R.DepthsOf(baseline, t[lo..]), c - 2 * lo)
  {
    hide R.Depth, DepthAt, A.G;
    var g := R.DepthsOf(baseline, t[lo..]);
    forall j: int
      ensures A.G(g, j) == A.G(g, c - 2 * lo - j)
    {
      SlotDepth(t, baseline, lo, j);
      SlotDepth(t, baseline, lo, c - 2 * lo - j);
      assert DepthAt(t, baseline, lo, lo + j) == DepthAt(t, baseline, lo, c - (lo + j));
      assert lo + (c - 2 * lo - j) == c - (lo + j);
    }
  }

  /** End to end: at one sample a step, a finished sweep over a trace symmetric about step c / 2 reports the position
      one step short of it. */
  lemma SymmetricIndex(s: State, t: seq<int>, origin: int, c: int)
    requires Told(s, true, t, origin) && Sampled(t) && s.cap.decim == 1
    requires |Watch(t).dips| == 3 && 39 <= Watch(t).dips[2].enter <= |t|
    requires Mirrored(t, s.det.baseline, Watch(t).dips[2].enter - 39, c)
    ensures R.Complete(Report(s))
    ensures var g := R.DepthsOf(s.det.baseline, s.cap.w);
      var p := S.Scan(g, 2 * |g| - 1);
      && 1 <= |g| && p.best > 0
      && S.IndexAt(p, s.cap.winStart, s.cap.decim, s.det.sign)
         == S.Round(origin as real + (0.5 * c as real - 1.0) * s.det.sign as real)
  {
    hide Watch, Phase, R.Complete, S.Scan, S.IndexAt, S.Round, Mirrored, R.Depth, PosAt, A.Symmetric, Told;
    OverIsComplete(s, t, origin);
    UnitWindow(s, t, origin);
    EntryDepth(s, t, origin);
    var e := Watch(t).dips[2].enter;
    var g := R.DepthsOf(s.det.baseline, s.cap.w);
    BaselineInRange(s, t, origin);
    R.DepthsInRange(s.det.baseline, s.cap.w);
    DepthSymmetric(t, s.det.baseline, e - 39, c);
    CentreInside(g, c - 2 * (e - 39));
    S.SymmetricCentre(g, c - 2 * (e - 39), 39, s.cap.winStart, 1, s.det.sign);
    A.OnePeak(g, c - 2 * (e - 39), -1, 39);
    S.ACNonNegative(g, -1);
    OneStepShort(origin, s.det.sign, e, c);
  }

  lemma CentreInside(g: seq<int>, c: int)
    requires A.Symmetric(g, c) && |g| > 80 && g[39] != 0
    ensures 1 <= c <= 2 * |g| - 3
  {
    assert A.G(g, 39) == A.G(g, c - 39);
  }

  /** The sample that declared the dip is deep. */
  lemma EntryDepth(s: State, t: seq<int>, origin: int)
    requires Told(s, true, t, origin) && s.cap.decim == 1
    ensures |Watch(t).dips| == 3 && Watch(t).dips[2].enter < |t| && (s.det.sign == 1 || s.det.sign == -1)
    ensures R.Depth(s.det.baseline, t[Watch(t).dips[2].enter]) > 0
  {
    hide Watch, Deep, Lowest, Baseline;
    WatchSeen(t);
    var dip := Watch(t).dips[2];
    assert IsDip(t, dip);
    BaselineGrows(t, dip.enter, |t| - 1);
  }

  lemma {:induction false} BaselineGrows(t: seq<int>, i: nat, j: nat)
    requires i <= j < |t|
    ensures Baseline(t, i) <= Baseline(t, j)
  {
    if i < j { BaselineGrows(t, i, j - 1); }
  }

  lemma BaselineInRange(s: State, t: seq<int>, origin: int)
    requires Told(s, true, t, origin) && Sampled(t)
    ensures 0 <= s.det.baseline <= 8191
  {
    hide Watch, Phase, Fields;
    if t != [] {
      BaselineGrows(t, 0, |t| - 1);
      BaselineTopped(t, |t| - 1, 8191);
    } else {
      NothingWatched();
      NotOverYet(s, t, origin);
      assert false;
    }
  }

  lemma NotOverYet(s: State, t: seq<int>, origin: int)
    requires Told(s, true, t, origin)
    ensures |Watch(t).dips| == 3
  {
    hide Watch;
  }

  lemma OneStepShort(origin: int, sign: int, e: int, c: int)
    requires sign == 1 || sign == -1
    ensures PosAt(origin, sign, e - HOME_PRE) as real + 0.5 * (c - 2 * (e - 39)) as real * (1 * sign) as real
         == origin as real + (0.5 * c as real - 1.0) * sign as real
  {
  }

  // ─── A dip too deep for the vertex ─────────────────────────────────────────

  /** Three dips of 300 steps from the highest reading to the lowest, and the tail. */
  function DeepTrace(): seq<int> { Two(300, 300) + Lap(300) + Flat(TOP, HOME_PRE) }

  function DeepDips(): seq<Dip> { [Square(40, 300), Square(381, 300), Square(722, 300)] }

  lemma DeepSeen(n: nat)
    ensures var t, dips := Two(300, 300) + Lap(300), DeepDips();
      && |t| == 1023 && Sees(t + Flat(TOP, n), TOP, Detect(0, false, 0, 0, dips))
  {
    hide Watch, Sees;
    ThreeSeen(300, 300, 300);
    DoneStretch(Two(300, 300) + Lap(300), TOP, n, Detect(0, false, 0, 0, DeepDips()));
  }

  lemma DeepUnfinished(t: seq<int>)
    requires |t| == 1062
    ensures var d := Detect(0, false, 0, 0, DeepDips());
      && Unfinished(t, d) && Width(d) == 300 && DecimOf(Width(d)) == 1
      && Periods(|t| - d.dips[2].exit, 1) == HOME_PRE == TailNeed(d)
  {
    PeriodsOne(341);
    PeriodsOne(39);
    PeriodsOne(40);
  }

  lemma DeepRuns(ring: seq<int>)
    requires |ring| == HOME_PRE
    ensures var (s, over) := Run(1, 0, ring, DeepTrace());
      over && s.det.sign == 1 && Told(s, true, DeepTrace(), 0) && s.cap.decim == 1
  {
    hide Run, Told, Watch, Two, Lap, Unfinished, Width, DecimOf, Periods, TailNeed, DeepDips;
    var t := Two(300, 300) + Lap(300) + Flat(TOP, 39);
    DeepSeen(39);
    DeepUnfinished(t);
    ThreeDips();
    OverExactly(1, 0, ring, t, TOP);
    assert t + [TOP] == DeepTrace();
    DecimTold(Run(1, 0, ring, DeepTrace()).0, true, DeepTrace(), 0);
  }

  lemma ThreeDips()
    ensures |DeepDips()| == 3
  {
  }

  lemma DeepShape()
    ensures var t := DeepTrace();
      && |t| == 1063 && Sampled(t)
      && forall i :: 683 <= i < 1063 ==> t[i] == if 722 <= i < 1022 then 0 else TOP
  {
    DeepSeen(0);
    forall i | 683 <= i < 1063
      ensures DeepTrace()[i] == if 722 <= i < 1022 then 0 else TOP
    {
      if i < 1023 { assert DeepTrace()[i] == Lap(300)[i - 682]; }
    }
  }

  /** A window a finished sweep leaves, symmetric about its dip, on which twice the peak does not fit int32. */
  lemma DeepOverflows(ring: seq<int>)
    requires |ring| == HOME_PRE
    ensures var (s, over) := Run(1, 0, ring, DeepTrace());
      && over && Told(s, true, DeepTrace(), 0) && Sampled(DeepTrace()) && s.cap.decim == 1
      && Mirrored(DeepTrace(), s.det.baseline, 683, 1743)
      && var g := R.DepthsOf(s.det.baseline, s.cap.w);
      && |g| == 380 && S.Depths(g) && !R.VertexFits(S.Scan(g, 2 * |g| - 1))
  {
    hide Run, Told, Watch, DeepTrace, S.Scan, R.VertexFits, Mirrored, S.Depths;
    DeepRuns(ring);
    DeepShape();
    var s := Run(1, 0, ring, DeepTrace()).0;
    DeepBaseline(s);
    DeepMirrored();
    DeepWindow(s);
    BoxOverflows(R.DepthsOf(s.det.baseline, s.cap.w));
  }

  lemma DeepBaseline(s: State)
    requires Told(s, true, DeepTrace(), 0)
    ensures s.det.baseline == TOP
  {
    hide Watch, Fields, Phase;
    DeepSeen(HOME_PRE);
  }

  lemma DeepMirrored()
    ensures Mirrored(DeepTrace(), TOP, 683, 1743)
  {
    hide DeepTrace;
    DeepShape();
  }

  lemma DeepWindow(s: State)
    requires Told(s, true, DeepTrace(), 0) && s.cap.decim == 1 && s.det.baseline == TOP
    ensures var g := R.DepthsOf(s.det.baseline, s.cap.w);
      |g| == 380 && forall j :: 0 <= j < 380 ==> g[j] == if 39 <= j < 339 then 2047 else 0
  {
    hide Told, Watch, DeepTrace;
    UnitWindow(s, DeepTrace(), 0);
    DeepShape();
    assert Watch(DeepTrace()).dips[2].enter == 722 by { DeepEntry(); }
  }

  lemma DeepEntry()
    ensures |Watch(DeepTrace()).dips| == 3 && Watch(DeepTrace()).dips[2].enter == 722
  {
    hide Watch;
    DeepSeen(HOME_PRE);
  }

  lemma {:induction false} BoxSum(g: seq<int>, j: int)
    requires |g| == 380 && (forall j :: 0 <= j < 380 ==> g[j] == if 39 <= j < 339 then 2047 else 0)
    requires 39 <= j <= 339
    ensures A.Sum(g, A.Conv(377), 39, j) == (j - 39) * 4190209
    decreases j
  {
    if j > 39 { BoxSum(g, j - 1); }
  }

  lemma BoxOverflows(g: seq<int>)
    requires |g| == 380 && forall j :: 0 <= j < 380 ==> g[j] == if 39 <= j < 339 then 2047 else 0
    ensures S.Depths(g) && !R.VertexFits(S.Scan(g, 759))
  {
    hide A.Sum, S.Scan;
    S.ScanFinds(g, 759);
    BoxSum(g, 339);
    A.SumSplit(g, A.Conv(377), 0, 39, 380);
    A.SumSplit(g, A.Conv(377), 39, 339, 380);
    S.SumNonNegative(g, 377, 0, 39);
    S.SumNonNegative(g, 377, 339, 380);
    assert A.AC(g, 377) <= S.Scan(g, 759).best;
  }
}
