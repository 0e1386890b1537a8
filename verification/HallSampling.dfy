/** One Hall sample at a time: the detector and the capture as a step function, and the proof that after any trace
    every field is what the whole trace says (src/node/types/stepper/hall_index.cpp). */
module HallSampling {
  import opened HallConstants
  import opened HallSweep
  import R = HallResolver

  datatype Detector = Detector(seeded: bool, baseline: int, clearRun: nat, inDip: bool, crossed: seq<R.Crossing>,
                               enterPos: int, minPos: int, minVal: int, sign: int)

  datatype Capture = Capture(capturing: bool, decim: nat, dcnt: nat, preN: nat, post: nat, exiting: bool, overflow: bool,
                             winStart: int, rn: nat, rhead: nat, ring: seq<int>, w: seq<int>)

  datatype State = State(det: Detector, cap: Capture)

  function Armed(sign: int, ring: seq<int>): State {
    State(Detector(false, 0, 0, false, [], 0, 0, 0, sign), Capture(false, 1, 0, 0, 0, false, false, 0, 0, 0, ring, []))
  }

  function Track(d: Detector, v: int): Detector {
    d.(baseline := if !d.seeded || v > d.baseline then v else d.baseline, seeded := true)
  }

  /** One more sample against the decimation: due, or counted. */
  function Due(c: Capture): bool { c.dcnt + 1 >= c.decim }

  function PostRoll(c: Capture, v: int): (Capture, bool) {
    if !Due(c) then (c.(dcnt := c.dcnt + 1), false)
    else if |c.w| >= HOME_WIN then (c.(dcnt := 0, overflow := true), true)
    else (c.(dcnt := 0, w := c.w + [v], post := c.post + 1), c.post + 1 >= c.preN)
  }

  function Lowered(d: Detector, v: int, pos: int): Detector { if v < d.minVal then d.(minVal := v, minPos := pos) else d }

  function DipCapture(c: Capture, v: int): (Capture, bool) {
    if !c.capturing then (c, false)
    else if !Due(c) then (c.(dcnt := c.dcnt + 1), false)
    else if |c.w| >= HOME_WIN then (c.(dcnt := 0, overflow := true), true)
    else (c.(dcnt := 0, w := c.w + [v]), false)
  }

  function Arm(c: Capture, last: R.Crossing): Capture {
    var w := last.exitPos - last.enterPos;
    c.(decim := DecimOf(if w < 0 then -w else w), dcnt := 0, rn := 0, rhead := 0, w := [], preN := 0, post := 0,
       exiting := false, capturing := true)
  }

  function Leave(d: Detector, pos: int): Detector {
    d.(crossed := d.crossed + [R.Crossing(d.enterPos, pos, d.minPos)], inDip := false, clearRun := 0)
  }

  /** What a completed dip does to the capture: ends it, or the last but one arms it. */
  function Closed(c: Capture, crossed: seq<R.Crossing>): (Capture, bool) {
    if c.capturing then (c.(exiting := true, post := 0, dcnt := 0), false)
    else if |crossed| >= CROSSINGS then (c, true)
    else if |crossed| == CROSSINGS - 1 then (Arm(c, crossed[|crossed| - 1]), false)
    else (c, false)
  }

  function InDip(s: State, v: int, pos: int): (State, bool) {
    var d := Lowered(s.det, v, pos);
    var (c, full) := DipCapture(s.cap, v);
    if full then (State(d, c), true)
    else if d.baseline - v < HOME_EXIT then
      var d1 := Leave(d, pos);
      var (c1, done) := Closed(c, d1.crossed);
      (State(d1, c1), done)
    else (State(d, c), false)
  }

  predicate RingOk(c: Capture) { |c.ring| == HOME_PRE && c.rhead < HOME_PRE && c.rn <= HOME_PRE }

  function RingPush(c: Capture, v: int): Capture
    requires RingOk(c)
  {
    if !c.capturing then c
    else if !Due(c) then c.(dcnt := c.dcnt + 1)
    else c.(dcnt := 0, ring := c.ring[c.rhead := v], rhead := (c.rhead + 1) % HOME_PRE,
            rn := if c.rn < HOME_PRE then c.rn + 1 else c.rn)
  }

  /** The ring's content, oldest first. */
  function Unrolled(ring: seq<int>, rhead: nat, rn: nat): seq<int>
    requires |ring| == HOME_PRE && rn <= HOME_PRE && rhead < HOME_PRE
  {
    seq(rn, k requires 0 <= k < rn => ring[(rhead + HOME_PRE - rn + k) % HOME_PRE])
  }

  /** The ring becomes the window's head. */
  function Freeze(c: Capture, pos: int, sign: int): Capture
    requires RingOk(c)
  {
    if !c.capturing then c
    else c.(preN := c.rn, winStart := pos - c.rn * c.decim * sign, w := Unrolled(c.ring, c.rhead, c.rn), dcnt := 0)
  }

  function Cleared(d: Detector, v: int): Detector {
    if d.baseline - v < HOME_EXIT && d.clearRun < 0xffff then d.(clearRun := d.clearRun + 1) else d
  }

  function Declares(d: Detector, v: int): bool { d.baseline - v > HOME_ENTER && d.clearRun >= CLEAR_MIN }

  function Clear(s: State, v: int, pos: int): State
    requires RingOk(s.cap)
  {
    var d, c := Cleared(s.det, v), RingPush(s.cap, v);
    if Declares(d, v)
    then State(d.(inDip := true, enterPos := pos, minVal := v, minPos := pos), Freeze(c, pos, d.sign))
    else State(d, c)
  }

  function Sample(s: State, v: int, pos: int): (r: (State, bool))
    requires RingOk(s.cap)
    ensures RingOk(r.0.cap)
  {
    var s1 := s.(det := Track(s.det, v));
    if s1.cap.exiting then
      var (c, done) := PostRoll(s1.cap, v);
      (s1.(cap := c), done)
    else if s1.det.inDip then InDip(s1, v, pos)
    else (Clear(s1, v, pos), false)
  }

  /** The sweep over a trace, one step a sample; nothing is sampled once it has reported itself over. */
  function Run(sign: int, origin: int, ring: seq<int>, t: seq<int>): (r: (State, bool))
    requires |ring| == HOME_PRE
    ensures RingOk(r.0.cap)
    decreases |t|
  {
    if t == [] then (Armed(sign, ring), false) else
      var r := Run(sign, origin, ring, t[..|t| - 1]);
      if r.1 then r else Sample(r.0, t[|t| - 1], PosAt(origin, sign, |t| - 1))
  }

  lemma RunNone(sign: int, origin: int, ring: seq<int>)
    requires |ring| == HOME_PRE
    ensures Run(sign, origin, ring, []) == (Armed(sign, ring), false)
  {
  }

  lemma RunNext(sign: int, origin: int, ring: seq<int>, t: seq<int>, v: int)
    requires |ring| == HOME_PRE && !Run(sign, origin, ring, t).1
    ensures Run(sign, origin, ring, t + [v]) == Sample(Run(sign, origin, ring, t).0, v, PosAt(origin, sign, |t|))
  {
    hide Sample;
    assert (t + [v])[..|t|] == t;
  }

  // ─── What the whole trace says ─────────────────────────────────────────────

  /** Where the axis stood at sample i. */
  function PosAt(origin: int, sign: int, i: int): int { origin + sign * i }

  function Crossed(origin: int, sign: int, d: Dip): R.Crossing {
    R.Crossing(PosAt(origin, sign, d.enter), PosAt(origin, sign, d.exit), PosAt(origin, sign, d.low))
  }

  /** The detector's fields are the reference detector's. */
  ghost predicate Fields(s: Detector, t: seq<int>, d: Detect, origin: int) {
    && s.clearRun == d.clear && s.inDip == d.inDip && |s.crossed| == |d.dips| <= CROSSINGS
    && (forall i :: 0 <= i < |d.dips| ==> s.crossed[i] == Crossed(origin, s.sign, d.dips[i]))
    && (d.inDip ==>
          && |d.dips| < 3 && d.enter <= d.low < |t| && s.enterPos == PosAt(origin, s.sign, d.enter)
          && s.minPos == PosAt(origin, s.sign, d.low) && s.minVal == t[d.low])
    && (s.sign == 1 || s.sign == -1)
  }

  function Width(d: Detect): nat
    requires |d.dips| >= 2
  {
    if d.dips[1].exit >= d.dips[1].enter then d.dips[1].exit - d.dips[1].enter else 0
  }

  /** The capture's shape, entered at e and (so far) out at x. */
  function ShapeOf(d: Detect, e: nat, x: nat): Shape
    requires |d.dips| >= 2 && d.dips[1].exit + 1 <= e + 1 && e <= x
  {
    var a, decim := d.dips[1].exit + 1, DecimOf(Width(d));
    Shape(a, decim, Periods(e + 1 - a, decim), e, Periods(x - e, decim), x)
  }

  ghost predicate Gap(c: Capture, t: seq<int>, d: Detect)
    requires |d.dips| >= 2
  {
    var a := d.dips[1].exit + 1;
    && a <= |t| && c.decim == DecimOf(Width(d))
    && var r := Periods(|t| - a, c.decim);
    && c.dcnt == Rest(|t| - a, c.decim)
    && c.rn == Head(r) && c.rhead == r % HOME_PRE && RingHolds(c.ring, t, a, c.decim, r)
  }

  ghost predicate Entered(c: Capture, sh: Shape, origin: int, sign: int) {
    && c.decim == sh.decim && c.preN == Head(sh.r)
    && c.winStart == PosAt(origin, sign, sh.e) - c.preN * c.decim * sign
  }

  ghost predicate FinalDip(c: Capture, t: seq<int>, d: Detect, origin: int, sign: int)
    requires |d.dips| >= 2
  {
    && d.dips[1].exit <= d.enter < |t|
    && var sh := ShapeOf(d, d.enter, |t| - 1);
    && Entered(c, sh, origin, sign) && c.dcnt == Rest(|t| - 1 - sh.e, c.decim)
    && |c.w| == Head(sh.r) + sh.m <= HOME_WIN && WindowHolds(c.w, t, sh)
  }

  ghost predicate Tail(c: Capture, t: seq<int>, d: Detect, origin: int, sign: int)
    requires |d.dips| >= 3
  {
    && d.dips[1].exit <= d.dips[2].enter <= d.dips[2].exit < |t|
    && var sh := ShapeOf(d, d.dips[2].enter, d.dips[2].exit);
    && Entered(c, sh, origin, sign)
    && c.dcnt == Rest(|t| - 1 - sh.x, c.decim) && c.post == Periods(|t| - 1 - sh.x, c.decim)
    && |c.w| == Head(sh.r) + sh.m + c.post <= HOME_WIN && WindowHolds(c.w, t, sh)
  }

  function TailLength(c: Capture): nat { if c.preN == 0 then 1 else c.preN }

  /** The capture, by the number of dips completed. */
  ghost predicate Phase(c: Capture, t: seq<int>, d: Detect, origin: int, sign: int) {
    && !c.overflow && RingOk(c) && c.capturing == (|d.dips| >= 2) && c.exiting == (|d.dips| == 3)
    && (|d.dips| == 2 && !d.inDip ==> Gap(c, t, d))
    && (|d.dips| == 2 && d.inDip ==> FinalDip(c, t, d, origin, sign))
    && (|d.dips| == 3 ==> Tail(c, t, d, origin, sign) && c.post <= TailLength(c))
  }

  predicate Over(c: Capture) { c.exiting && c.post == TailLength(c) }

  /** Everything the state holds, from the trace alone; `over` as the sweep reports it. */
  ghost predicate Told(s: State, over: bool, t: seq<int>, origin: int) {
    var d := Watch(t);
    && s.det.seeded == (t != []) && (t != [] ==> s.det.baseline == Baseline(t, |t| - 1))
    && Fields(s.det, t, d, origin) && Phase(s.cap, t, d, origin, s.det.sign) && over == Over(s.cap)
  }

  /** The window filled up: the final dip has run on for more steps than the one surveyed (unless that one was too
      wide for a 16-bit decimation). */
  ghost predicate Spilt(s: State, over: bool, t: seq<int>) {
    && s.cap.overflow && over && |s.cap.w| == HOME_WIN && t != []
    && var d := Watch(t[..|t| - 1]);
    && |d.dips| >= 2 && (d.inDip || |d.dips| == 3)
    && (Width(d) <= WIDEST ==>
          if d.inDip then |t| - 1 - d.enter > Width(d) else |d.dips| == 3 && d.dips[2].exit - d.dips[2].enter > Width(d))
  }

  // ─── The capture keeps its shape ───────────────────────────────────────────

  lemma TailDue(c: Capture, u: seq<int>, v: int, sh: Shape)
    requires sh.decim >= 1 && sh.x < |u| && c.decim == sh.decim && |c.w| == Head(sh.r) + sh.m + c.post
    requires c.dcnt == Rest(|u| - 1 - sh.x, sh.decim) && c.post == Periods(|u| - 1 - sh.x, sh.decim)
    requires WindowHolds(c.w, u, sh)
    ensures WindowHolds(c.w, u + [v], sh)
    ensures !Due(c) ==> Rest(|u| - sh.x, sh.decim) == c.dcnt + 1 && Periods(|u| - sh.x, sh.decim) == c.post
    ensures Due(c) ==>
      && Rest(|u| - sh.x, sh.decim) == 0 && Periods(|u| - sh.x, sh.decim) == c.post + 1
      && WindowHolds(c.w + [v], u + [v], sh)
  {
    hide Steps, Periods, Rest, WindowHolds;
    var t := u + [v];
    assert t[..|u|] == u;
    WindowKept(c.w, u, t, sh);
    PeriodNext(|u| - 1 - sh.x, sh.decim);
    if Due(c) { TailSample(c.w, t, sh, c.post); }
  }

  lemma TailSpills(d: Detect, sh: Shape, post: nat)
    requires |d.dips| == 3 && d.dips[1].exit <= d.dips[2].enter <= d.dips[2].exit
    requires sh == ShapeOf(d, d.dips[2].enter, d.dips[2].exit)
    requires Head(sh.r) + sh.m + post >= HOME_WIN && post < (if Head(sh.r) == 0 then 1 else Head(sh.r))
    ensures Width(d) <= WIDEST ==> d.dips[2].exit - d.dips[2].enter > Width(d)
  {
    hide DecimOf, Periods;
    if Width(d) <= WIDEST && sh.x - sh.e <= Width(d) { DipFits(sh, Width(d)); }
  }

  ghost predicate TailSpilt(c: Capture, d: Detect) {
    && |c.w| == HOME_WIN && |d.dips| == 3
    && (Width(d) <= WIDEST ==> d.dips[2].exit - d.dips[2].enter > Width(d))
  }

  /** The tail grows, is complete, or spills. */
  lemma TailTells(c: Capture, u: seq<int>, v: int, d: Detect, origin: int, sign: int)
    requires |d.dips| == 3 && Tail(c, u, d, origin, sign) && c.post < TailLength(c) && !c.overflow
    ensures var (c1, over) := PostRoll(c, v);
      && c1 == c.(dcnt := c1.dcnt, w := c1.w, post := c1.post, overflow := c1.overflow)
      && (!c1.overflow ==>
            Tail(c1, u + [v], d, origin, sign) && c1.post <= TailLength(c1) && over == (c1.post == TailLength(c1)))
      && (c1.overflow ==> over && TailSpilt(c1, d))
  {
    hide DecimOf, Periods, Rest, WindowHolds, Steps, PosAt, Width;
    var sh := ShapeOf(d, d.dips[2].enter, d.dips[2].exit);
    TailDue(c, u, v, sh);
    if Due(c) && |c.w| >= HOME_WIN { TailSpills(d, sh, c.post); }
  }

  /** A sample of the final dip: counted, kept, or one too many. */
  lemma DipDue(c: Capture, u: seq<int>, v: int, sh: Shape, sh': Shape)
    requires sh.decim >= 1 && sh.e < |u| && sh.x == |u| - 1 && c.decim == sh.decim
    requires sh.m == Periods(|u| - 1 - sh.e, sh.decim) && c.dcnt == Rest(|u| - 1 - sh.e, sh.decim)
    requires |c.w| == Head(sh.r) + sh.m && WindowHolds(c.w, u, sh)
    requires sh' == sh.(m := Periods(|u| - sh.e, sh.decim), x := |u|)
    ensures !Due(c) ==>
      Rest(|u| - sh.e, sh.decim) == c.dcnt + 1 && sh'.m == sh.m && WindowHolds(c.w, u + [v], sh')
    ensures Due(c) ==>
      Rest(|u| - sh.e, sh.decim) == 0 && sh'.m == sh.m + 1 && WindowHolds(c.w + [v], u + [v], sh')
  {
    hide Steps, Periods, Rest, WindowHolds;
    var t := u + [v];
    assert t[..|u|] == u;
    WindowKept(c.w, u, t, sh);
    PeriodNext(|u| - 1 - sh.e, sh.decim);
    if Due(c) {
      DipSample(c.w, t, sh);
      SetExit(c.w + [v], t, sh.(m := sh.m + 1), |u|);
    } else {
      SetExit(c.w, t, sh, |u|);
    }
  }

  lemma DipSpills(d: Detect, sh: Shape, e: nat, x: nat)
    requires |d.dips| == 2 && d.dips[1].exit <= e <= x
    requires sh == ShapeOf(d, e, x) && Head(sh.r) + sh.m > HOME_WIN
    ensures Width(d) <= WIDEST ==> x - e > Width(d)
  {
    hide DecimOf, Periods;
    if Width(d) <= WIDEST && x - e <= Width(d) { DipFits(sh, Width(d)); }
  }

  ghost predicate DipSpilt(c: Capture, u: seq<int>, d: Detect) {
    && |c.w| == HOME_WIN && |d.dips| == 2 && d.inDip && (Width(d) <= WIDEST ==> |u| - d.enter > Width(d))
  }

  lemma DipTells(c: Capture, u: seq<int>, v: int, d: Detect, low: nat, origin: int, sign: int)
    requires |d.dips| == 2 && d.inDip && c.capturing && FinalDip(c, u, d, origin, sign) && !c.overflow
    ensures var (c1, over) := DipCapture(c, v);
      && over == c1.overflow && c1 == c.(dcnt := c1.dcnt, w := c1.w, overflow := c1.overflow)
      && (!over ==> FinalDip(c1, u + [v], d.(low := low), origin, sign))
      && (over ==> DipSpilt(c1, u, d))
  {
    hide DecimOf, Periods, Rest, WindowHolds, Steps, PosAt;
    var sh, sh' := ShapeOf(d, d.enter, |u| - 1), ShapeOf(d, d.enter, |u|);
    DipDue(c, u, v, sh, sh');
    if Due(c) && |c.w| >= HOME_WIN { DipSpills(d, sh', d.enter, |u|); }
  }

  /** The exit turns the dip's shape into the tail's. */
  lemma ExitTells(c: Capture, t: seq<int>, d: Detect, d': Detect, origin: int, sign: int)
    requires |d.dips| == 2 && FinalDip(c, t, d, origin, sign)
    requires |d'.dips| == 3 && d'.dips[..2] == d.dips && d'.dips[2].enter == d.enter && d'.dips[2].exit == |t| - 1
    ensures Tail(c.(exiting := true, post := 0, dcnt := 0), t, d', origin, sign)
  {
    hide DecimOf, Periods, Rest, WindowHolds, Steps, PosAt;
    assert d'.dips[1] == d.dips[1];
    PeriodsZero(DecimOf(Width(d)));
  }

  /** Arming starts the gap: nothing offered yet, the decimation sized by the dip just surveyed. */
  lemma ArmTells(c: Capture, t: seq<int>, d: Detect, origin: int, sign: int)
    requires |d.dips| == 2 && (sign == 1 || sign == -1) && |c.ring| == HOME_PRE
    requires d.dips[1].enter <= d.dips[1].exit == |t| - 1
    ensures Gap(Arm(c, Crossed(origin, sign, d.dips[1])), t, d)
  {
    hide DecimOf, Periods, Rest;
    PeriodsZero(DecimOf(Width(d)));
  }

  lemma GapDue(c: Capture, u: seq<int>, v: int, a: nat)
    requires RingOk(c) && c.decim >= 1 && a <= |u| && c.dcnt == Rest(|u| - a, c.decim)
    requires var r := Periods(|u| - a, c.decim);
      c.rn == Head(r) && c.rhead == r % HOME_PRE && RingHolds(c.ring, u, a, c.decim, r)
    ensures var r := Periods(|u| - a, c.decim);
      && (!Due(c) ==>
            && Rest(|u| + 1 - a, c.decim) == c.dcnt + 1 && Periods(|u| + 1 - a, c.decim) == r
            && RingHolds(c.ring, u + [v], a, c.decim, r))
      && (Due(c) ==>
            && Rest(|u| + 1 - a, c.decim) == 0 && Periods(|u| + 1 - a, c.decim) == r + 1
            && RingHolds(c.ring[c.rhead := v], u + [v], a, c.decim, r + 1))
  {
    hide Steps, Periods, Rest, RingHolds;
    var t, r := u + [v], Periods(|u| - a, c.decim);
    assert t[..|u|] == u;
    RingKept(c.ring, u, t, a, c.decim, r);
    PeriodNext(|u| - a, c.decim);
    if Due(c) { RingNext(c.ring, t, a, c.decim, r); }
  }

  lemma GapTells(c: Capture, u: seq<int>, v: int, d: Detect, d': Detect)
    requires |d.dips| == 2 && c.capturing && RingOk(c) && Gap(c, u, d) && d'.dips == d.dips
    ensures var c1 := RingPush(c, v);
      c1 == c.(dcnt := c1.dcnt, ring := c1.ring, rhead := c1.rhead, rn := c1.rn) && RingOk(c1) && Gap(c1, u + [v], d')
  {
    hide DecimOf, Periods, Rest, RingHolds;
    GapDue(c, u, v, d.dips[1].exit + 1);
  }

  lemma UnrolledHolds(ring: seq<int>, t: seq<int>, sh: Shape)
    requires RingHolds(ring, t, sh.a, sh.decim, sh.r) && sh.m == 0
    ensures WindowHolds(Unrolled(ring, sh.r % HOME_PRE, Head(sh.r)), t, sh)
  {
    hide Steps;
    var h := Head(sh.r);
    var w := Unrolled(ring, sh.r % HOME_PRE, h);
    forall j | 0 <= j < |w|
      ensures 0 <= Slot(sh, j) < |t| && w[j] == t[Slot(sh, j)]
    {
      var q := sh.r - h + 1 + j;
      assert (sh.r % HOME_PRE + HOME_PRE - h + j) % HOME_PRE == (q - 1) % HOME_PRE;
    }
  }

  lemma UnrolledLength(ring: seq<int>, rhead: nat, rn: nat)
    requires |ring| == HOME_PRE && rn <= HOME_PRE && rhead < HOME_PRE
    ensures |Unrolled(ring, rhead, rn)| == rn
  {
  }

  /** The declaration freezes the ring as the window's head. */
  lemma DeclareTells(c: Capture, t: seq<int>, d: Detect, origin: int, sign: int)
    requires t != [] && |d.dips| == 2 && c.capturing && RingOk(c) && Gap(c, t, d) && d.dips[1].exit < |t| - 1
    requires d.inDip && d.enter == |t| - 1
    ensures FinalDip(Freeze(c, PosAt(origin, sign, |t| - 1), sign), t, d, origin, sign)
  {
    hide DecimOf, Periods, Rest, RingHolds, WindowHolds, Unrolled, PosAt;
    PeriodsZero(c.decim);
    UnrolledHolds(c.ring, t, ShapeOf(d, |t| - 1, |t| - 1));
    UnrolledLength(c.ring, c.rhead, c.rn);
  }

  // ─── One sample keeps it all ───────────────────────────────────────────────

  /** Mid-step: the baseline already counts the new sample, nothing else does. */
  ghost predicate Tracked(s: State, u: seq<int>, v: int, d: Detect, origin: int) {
    && s.det.seeded && s.det.baseline == Baseline(u + [v], |u|)
    && Seen(u, d) && Seen(u + [v], Notice(d, u + [v]))
    && Fields(s.det, u, d, origin) && Phase(s.cap, u, d, origin, s.det.sign) && !Over(s.cap)
  }

  lemma TrackTells(s: State, u: seq<int>, v: int, origin: int)
    requires Told(s, false, u, origin)
    ensures Tracked(s.(det := Track(s.det, v)), u, v, Watch(u), origin)
  {
    hide Phase, Watch, Notice, Seen, Crossed, PosAt;
    var t := u + [v];
    WatchSeen(u);
    WatchSeen(t);
    WatchNext(u, v);
    if u != [] { BaselineKept(u, t, |u| - 1); }
  }

  /** A step's outcome: the state the longer trace tells, or a spilt window. */
  ghost predicate Outcome(s: State, s1: State, over: bool, u: seq<int>, t: seq<int>, d: Detect, d1: Detect, origin: int) {
    && s1.det.sign == s.det.sign && s1.det.seeded == s.det.seeded && s1.det.baseline == s.det.baseline
    && (!s1.cap.overflow ==>
          Fields(s1.det, t, d1, origin) && Phase(s1.cap, t, d1, origin, s1.det.sign) && over == Over(s1.cap))
    && (s1.cap.overflow ==> over && (DipSpilt(s1.cap, u, d) || TailSpilt(s1.cap, d)))
  }

  lemma LoweredFields(s: Detector, u: seq<int>, v: int, d: Detect, origin: int)
    requires Fields(s, u, d, origin) && d.inDip
    ensures var i, low := |u|, if v < u[d.low] then |u| else d.low;
      Fields(Lowered(s, v, PosAt(origin, s.sign, i)), u + [v], d.(low := low), origin)
  {
    hide Crossed, PosAt;
  }

  lemma LeaveFields(s: Detector, t: seq<int>, d: Detect, origin: int)
    requires t != [] && Fields(s, t, d, origin) && d.inDip
    ensures var i := |t| - 1;
      var s1 := Leave(s, PosAt(origin, s.sign, i));
      Fields(s1, t, Detect(0, false, 0, 0, d.dips + [Dip(d.enter, i, d.low)]), origin)
  {
    hide PosAt;
  }

  /** The first two dips are only surveyed, the second sizes the capture, the third is the window's. */
  lemma ClosedTells(c: Capture, crossed: seq<R.Crossing>, t: seq<int>, d: Detect, d1: Detect, origin: int, sign: int)
    requires t != [] && Phase(c, t, d, origin, sign) && d.inDip && |d.dips| < 3 && d.enter <= |t| - 1
    requires d1 == Detect(0, false, 0, 0, d.dips + [Dip(d.enter, |t| - 1, d.low)])
    requires |crossed| == |d1.dips| && crossed[|d.dips|] == Crossed(origin, sign, d1.dips[|d.dips|])
    requires sign == 1 || sign == -1
    ensures var (c1, over) := Closed(c, crossed);
      !over && Phase(c1, t, d1, origin, sign) && !Over(c1)
  {
    hide Gap, FinalDip, Tail, PosAt, Crossed;
    if |d.dips| == 2 {
      ExitTells(c, t, d, d1, origin, sign);
    } else if |d.dips| == 1 {
      ArmTells(c, t, d1, origin, sign);
    }
  }

  lemma DipPhase(c: Capture, u: seq<int>, v: int, d: Detect, low: nat, origin: int, sign: int)
    requires Phase(c, u, d, origin, sign) && d.inDip && |d.dips| < 3
    ensures var (c1, over) := DipCapture(c, v);
      && over == c1.overflow
      && (!over ==> Phase(c1, u + [v], d.(low := low), origin, sign))
      && (over ==> DipSpilt(c1, u, d))
  {
    hide Gap, FinalDip, Tail, DipSpilt;
    if |d.dips| == 2 { DipTells(c, u, v, d, low, origin, sign); }
  }

  /** A step that starts inside a dip. */
  lemma InDipTells(s: State, u: seq<int>, v: int, d: Detect, origin: int)
    requires Tracked(s, u, v, d, origin) && d.inDip
    ensures var (s1, over) := InDip(s, v, PosAt(origin, s.det.sign, |u|));
      Outcome(s, s1, over, u, u + [v], d, Notice(d, u + [v]), origin)
  {
    hide Gap, FinalDip, Tail, PosAt, Crossed, Seen, DipSpilt, TailSpilt, Baseline, Closed, DipCapture;
    var t, low, pos := u + [v], if v < u[d.low] then |u| else d.low, PosAt(origin, s.det.sign, |u|);
    var d0 := d.(low := low);
    LoweredFields(s.det, u, v, d, origin);
    DipPhase(s.cap, u, v, d, low, origin, s.det.sign);
    var det, cap := Lowered(s.det, v, pos), DipCapture(s.cap, v).0;
    if !cap.overflow && s.det.baseline - v < HOME_EXIT {
      LeaveFields(det, t, d0, origin);
      ClosedTells(cap, Leave(det, pos).crossed, t, d0, Notice(d, t), origin, s.det.sign);
    }
  }

  lemma DeclaredFields(s: Detector, u: seq<int>, v: int, d: Detect, origin: int)
    requires Fields(s, u, d, origin) && !d.inDip && |d.dips| < 3
    ensures var i, d1 := |u|, Detect(d.clear, true, |u|, |u|, d.dips);
      var pos := PosAt(origin, s.sign, i);
      Fields(s.(inDip := true, enterPos := pos, minVal := v, minPos := pos), u + [v], d1, origin)
  {
    hide Crossed, PosAt;
  }

  lemma ClearPhase(c: Capture, u: seq<int>, v: int, d: Detect, d1: Detect, origin: int, sign: int)
    requires Phase(c, u, d, origin, sign) && !d.inDip && |d.dips| < 3 && d1.dips == d.dips
    requires d1.inDip ==> d1.enter == |u| && (|d.dips| == 2 ==> d.dips[1].exit < |u|)
    ensures var c1 := RingPush(c, v);
      && RingOk(c1)
      && (!d1.inDip ==> Phase(c1, u + [v], d1, origin, sign))
      && (d1.inDip ==> Phase(Freeze(c1, PosAt(origin, sign, |u|), sign), u + [v], d1, origin, sign))
  {
    hide Gap, FinalDip, Tail, PosAt, Unrolled;
    if |d.dips| == 2 {
      GapTells(c, u, v, d, d1);
      if d1.inDip { DeclareTells(RingPush(c, v), u + [v], d1, origin, sign); }
    }
  }

  /** A step that starts clear of a dip. */
  lemma ClearTells(s: State, u: seq<int>, v: int, d: Detect, origin: int)
    requires Tracked(s, u, v, d, origin) && !d.inDip && |d.dips| < 3
    ensures Outcome(s, Clear(s, v, PosAt(origin, s.det.sign, |u|)), false, u, u + [v], d, Notice(d, u + [v]), origin)
  {
    hide Gap, FinalDip, Tail, PosAt, Crossed, Baseline, Unrolled, DipSpilt, TailSpilt;
    var t := u + [v];
    DeclaredFields(Cleared(s.det, v), u, v, d.(clear := Cleared(s.det, v).clearRun), origin);
    ClearPhase(s.cap, u, v, d, Notice(d, t), origin, s.det.sign);
  }

  /** A step after the final dip. */
  lemma PostTells(s: State, u: seq<int>, v: int, d: Detect, origin: int)
    requires Tracked(s, u, v, d, origin) && |d.dips| == 3
    ensures var (c, over) := PostRoll(s.cap, v);
      Outcome(s, s.(cap := c), over, u, u + [v], d, Notice(d, u + [v]), origin)
  {
    hide Gap, FinalDip, Tail, PosAt, Crossed, Baseline, Seen, DipSpilt, TailSpilt;
    TailTells(s.cap, u, v, d, origin, s.det.sign);
  }

  lemma SpiltOf(s: State, u: seq<int>, v: int)
    requires s.cap.overflow && (DipSpilt(s.cap, u, Watch(u)) || TailSpilt(s.cap, Watch(u)))
    ensures Spilt(s, true, u + [v])
  {
    hide Watch, Width;
    WatchSeen(u);
    assert (u + [v])[..|u|] == u;
  }

  lemma OutcomeTells(s: State, s1: State, over: bool, u: seq<int>, v: int, origin: int)
    requires var d := Watch(u); Tracked(s, u, v, d, origin) && Outcome(s, s1, over, u, u + [v], d, Notice(d, u + [v]), origin)
    ensures s1.det.sign == s.det.sign && (Told(s1, over, u + [v], origin) || Spilt(s1, over, u + [v]))
  {
    hide Fields, Phase, Watch, Notice, Seen, Spilt, DipSpilt, TailSpilt, Over;
    WatchNext(u, v);
    if s1.cap.overflow { SpiltOf(s1, u, v); }
  }

  /** One sample from a state that the trace tells leaves a state that the longer trace tells, or a spilt window. */
  lemma SampleTells(s: State, u: seq<int>, v: int, origin: int)
    requires Told(s, false, u, origin)
    ensures var (s1, over) := Sample(s, v, PosAt(origin, s.det.sign, |u|));
      s1.det.sign == s.det.sign && (Told(s1, over, u + [v], origin) || Spilt(s1, over, u + [v]))
  {
    hide Watch, Notice, Seen, PosAt, Crossed, Gap, FinalDip, Tail, Spilt, InDip, Clear, PostRoll, Outcome, Over;
    var d, s0 := Watch(u), s.(det := Track(s.det, v));
    TrackTells(s, u, v, origin);
    var (s1, over) := Sample(s, v, PosAt(origin, s.det.sign, |u|));
    if |d.dips| == 3 {
      PostTells(s0, u, v, d, origin);
    } else if d.inDip {
      InDipTells(s0, u, v, d, origin);
    } else {
      ClearTells(s0, u, v, d, origin);
    }
    OutcomeTells(s0, s1, over, u, v, origin);
  }

  lemma NothingTold(sign: int, ring: seq<int>, origin: int)
    requires (sign == 1 || sign == -1) && |ring| == HOME_PRE
    ensures Armed(sign, ring).det.sign == sign && Told(Armed(sign, ring), false, [], origin)
  {
  }

  /** After any trace not already answered, every field is what the whole trace says: the detector's what the
      reference detector sees, the window the samples of its slots. Otherwise the window has spilt. */
  lemma {:induction false} RunTells(sign: int, origin: int, ring: seq<int>, t: seq<int>)
    requires (sign == 1 || sign == -1) && |ring| == HOME_PRE
    requires t != [] ==> !Run(sign, origin, ring, t[..|t| - 1]).1
    ensures var (s, over) := Run(sign, origin, ring, t);
      s.det.sign == sign && (Told(s, over, t, origin) || Spilt(s, over, t))
    decreases |t|
  {
    hide Told, Spilt, Sample, PosAt, Armed;
    if t == [] {
      NothingTold(sign, ring, origin);
    } else {
      var u := t[..|t| - 1];
      if u != [] { AnsweredStays(sign, origin, ring, u); }
      RunTells(sign, origin, ring, u);
      NotSpilt(Run(sign, origin, ring, u).0, u);
      SampleTells(Run(sign, origin, ring, u).0, u, t[|t| - 1], origin);
      assert u + [t[|t| - 1]] == t;
    }
  }

  lemma NotSpilt(s: State, t: seq<int>)
    ensures !Spilt(s, false, t)
  {
  }

  lemma AnsweredStays(sign: int, origin: int, ring: seq<int>, t: seq<int>)
    requires |ring| == HOME_PRE && t != [] && !Run(sign, origin, ring, t).1
    ensures !Run(sign, origin, ring, t[..|t| - 1]).1
  {
    hide Sample;
  }

  // ─── What the resolve is handed ────────────────────────────────────────────

  function Report(s: State): R.Sweep {
    R.Sweep(s.cap.overflow, s.det.crossed, s.cap.exiting, s.cap.post, s.cap.preN, |s.cap.w|, s.det.baseline,
            s.cap.winStart, s.cap.decim, s.det.sign)
  }

  predicate Sampled(t: seq<int>) { forall i :: 0 <= i < |t| ==> 0 <= t[i] <= 8191 }

  /** A sweep that reports itself over hands the resolve a complete, non-empty window with a tail as long as its head,
      and laps measured between the lowest samples of neighbouring dips. */
  lemma OverIsComplete(s: State, t: seq<int>, origin: int)
    requires Told(s, true, t, origin) && Sampled(t)
    ensures R.Complete(Report(s)) && 1 <= |s.cap.w| <= HOME_WIN && R.Samples(s.cap.w)
    ensures s.cap.post == (if s.cap.preN == 0 then 1 else s.cap.preN)
    ensures |Watch(t).dips| == 3 && R.Lap(Report(s), 1) == Watch(t).dips[1].low - Watch(t).dips[0].low
    ensures R.Lap(Report(s), 2) == Watch(t).dips[2].low - Watch(t).dips[1].low
  {
    hide Watch, Periods, Rest, DecimOf;
    WatchSeen(t);
    LapIs(s, t, Watch(t), origin, 1);
    LapIs(s, t, Watch(t), origin, 2);
  }

  lemma LapIs(s: State, t: seq<int>, d: Detect, origin: int, i: nat)
    requires Fields(s.det, t, d, origin) && 1 <= i < |d.dips| && Seen(t, d)
    ensures R.Lap(Report(s), i) == d.dips[i].low - d.dips[i - 1].low
  {
    hide PosAt, Below, Deep, Lowest;
    assert IsDip(t, d.dips[i]) && IsDip(t, d.dips[i - 1]);
    assert d.dips[i - 1].exit + CLEAR_MIN < d.dips[i].enter;
    PosGap(origin, s.det.sign, d.dips[i - 1].low, d.dips[i].low);
  }

  lemma PosGap(origin: int, sign: int, i: nat, j: nat)
    requires (sign == 1 || sign == -1) && i <= j
    ensures PosAt(origin, sign, j) - PosAt(origin, sign, i) == (if sign == 1 then j - i else i - j)
  {
  }

  /** Only a sweep stopped early can look complete with an empty window: exactly when arming to entry, entry to exit
      and exit to the end were all shorter than one sampling period. */
  lemma EmptyWindow(s: State, t: seq<int>, origin: int)
    requires Told(s, false, t, origin) && s.cap.exiting
    ensures var d := Watch(t);
      && |d.dips| == 3
      && (R.Complete(Report(s)) && |s.cap.w| == 0 <==>
            && d.dips[2].enter - d.dips[1].exit < s.cap.decim && d.dips[2].exit - d.dips[2].enter < s.cap.decim
            && |t| - 1 - d.dips[2].exit < s.cap.decim)
  {
    hide Watch, Rest, DecimOf, Seen, WindowHolds, Periods;
    var d := Watch(t);
    NoPeriod(d.dips[2].enter - d.dips[1].exit, s.cap.decim);
    NoPeriod(d.dips[2].exit - d.dips[2].enter, s.cap.decim);
    NoPeriod(|t| - 1 - d.dips[2].exit, s.cap.decim);
  }

  lemma NoPeriod(n: nat, decim: nat)
    requires decim >= 1
    ensures Periods(n, decim) == 0 <==> n < decim
  {
    hide Steps;
    PeriodsAre(n, decim);
    StepsGrow(1, Periods(n, decim), decim);
    StepsNext(0, decim);
    assert Steps(0, decim) == 0 by { StepsZero(decim); }
    assert Rest(n, decim) < decim;
  }

  lemma StepsZero(decim: int)
    ensures Steps(0, decim) == 0
  {
  }

  /** The final dip is entered with a whole head exactly when 40 sampling periods have passed since the exit of the
      dip before; at one sample a step, always. */
  lemma HeadAtEntry(s: State, t: seq<int>, origin: int)
    requires Told(s, false, t, origin) && s.cap.capturing && s.det.inDip
    ensures var d := Watch(t);
      && |d.dips| == 2
      && (s.cap.preN == HOME_PRE <==> d.enter - d.dips[1].exit >= Steps(HOME_PRE, s.cap.decim))
    ensures s.cap.decim == 1 ==> s.cap.preN == HOME_PRE
  {
    hide Watch, Rest, DecimOf, WindowHolds, Periods, Steps;
    WatchSeen(t);
    var d := Watch(t);
    HeadFull(ShapeOf(d, d.enter, d.enter));
    if s.cap.decim == 1 { StepsOne(HOME_PRE); }
  }

  lemma StepsOne(n: int)
    ensures Steps(n, 1) == n
  {
  }

  lemma TagAt(origin: int, sign: int, sh: Shape, j: nat)
    requires sign == 1 || sign == -1
    ensures PosAt(origin, sign, sh.e) - Head(sh.r) * sh.decim * sign + Steps(j, sh.decim) * sign
         == PosAt(origin, sign, Tag(sh, j))
  {
  }

  /** In the window the resolve is handed, slot j holds the sample of step Slot(j); the position the resolve takes it
      for, winStart + j decim sign, is that of an earlier step: by 1 to decim steps in the head, decim in the dip, and
      decim to 2 decim - 1 in the tail. */
  lemma WindowTags(s: State, over: bool, t: seq<int>, origin: int, j: nat)
    requires Told(s, over, t, origin) && s.cap.exiting && j < |s.cap.w|
    ensures |Watch(t).dips| == 3 && Watch(t).dips[1].exit < Watch(t).dips[2].enter < Watch(t).dips[2].exit
    ensures var sh := ShapeOf(Watch(t), Watch(t).dips[2].enter, Watch(t).dips[2].exit);
      && sh.decim == s.cap.decim && 0 <= Slot(sh, j) < |t| && s.cap.w[j] == t[Slot(sh, j)]
      && s.cap.winStart + Steps(j, s.cap.decim) * s.det.sign == PosAt(origin, s.det.sign, Tag(sh, j))
      && (j < s.cap.preN ==> 1 <= Slot(sh, j) - Tag(sh, j) <= sh.decim)
      && (s.cap.preN <= j < s.cap.preN + sh.m ==> Slot(sh, j) - Tag(sh, j) == sh.decim)
      && (s.cap.preN + sh.m <= j ==> sh.decim <= Slot(sh, j) - Tag(sh, j) < 2 * sh.decim)
  {
    hide Watch, Rest, DecimOf, Periods, Steps, PosAt, Slot, Tag, IsDip;
    WatchSeen(t);
    var d := Watch(t);
    assert IsDip(t, d.dips[2]);
    DipSpan(t, d.dips[2]);
    var sh := ShapeOf(d, d.dips[2].enter, d.dips[2].exit);
    TagAt(origin, s.det.sign, sh, j);
    TagsLag(sh, j);
  }

  lemma DipSpan(t: seq<int>, d: Dip)
    requires IsDip(t, d)
    ensures d.enter <= d.low <= d.exit && d.enter < d.exit < |t|
  {
  }
}
