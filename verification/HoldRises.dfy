/** Exactly which queued accelerations let a hold come to rest after the run it replaces (lib/planner/executor.cpp):
    those that rise somewhere before the next event. */
module HoldRises {
  import opened Arithmetic
  import opened Trapezoids
  import opened Kinematics
  import opened Paths
  import opened LookAhead
  import opened PlanStates
  import opened ExecStates
  import opened ExecSafety
  import opened RingLock
  import opened Systems
  import opened Holds
  import opened HoldLag
  import opened MotionTheorems

  // ─── The speeds ────────────────────────────────────────────────────────────

  /** Accelerations that rise from block i to the next. */
  datatype Rise = Rise(accs: seq<real>, i: nat)

  predicate RiseOk(w: Rise) {
    && |w.accs| <= RING_SIZE && (forall j :: 0 <= j < |w.accs| ==> w.accs[j] > 0.0)
    && w.i + 1 < |w.accs| && w.accs[w.i] < w.accs[w.i + 1]
  }

  function Ratio(w: Rise): real
    requires RiseOk(w)
  {
    w.accs[w.i] / w.accs[w.i + 1]
  }

  lemma RatioIs(w: Rise)
    requires RiseOk(w)
    ensures 0.0 < Ratio(w) < 1.0 && Prod(Ratio(w), w.accs[w.i + 1]) == w.accs[w.i]
  {
    var a, b := w.accs[w.i], w.accs[w.i + 1];
    Divides(a, b);
    SignOf(b, a / b);
    SignOf(b, 1.0 - a / b);
  }

  /** Half the gap between the two speeds below. */
  function Edge(r: real): real { (1.0 - r) / 2.0 }

  /** The speed at the rise, and the one the gentle block peaks at. */
  function Slow(r: real): real
    requires r < 1.0
  {
    1.0 / Edge(r) - Edge(r) / 2.0
  }

  function Fast(r: real): real
    requires r < 1.0
  {
    1.0 / Edge(r) + Edge(r) / 2.0
  }

  lemma Speeds(r: real)
    requires 0.0 < r < 1.0
    ensures 1.75 < Slow(r) < Fast(r) && Fast(r) > 2.0 && Prod(Fast(r), Fast(r)) == Prod(Slow(r), Slow(r)) + 2.0
    ensures 2.0 * Fast(r) - 2.0 * Slow(r) == 1.0 - r
  {
    var e := Edge(r);
    var k := 1.0 / e;
    Divides(1.0, e);
    SignOf(e, k - 2.0);
    assert (k + e / 2.0) * (k + e / 2.0) == (k - e / 2.0) * (k - e / 2.0) + 2.0 * (e * k);
  }

  /** The speed at which leg j is entered, when it is; a leg is a block up to and including the one after the rise. */
  function Entering(w: Rise, j: nat): real
    requires RiseOk(w)
  {
    RatioIs(w);
    if j <= w.i then Slow(Ratio(w)) + (w.i - j) as real else if j == w.i + 1 then 2.0 else 0.0
  }

  /** The speed it is planned to be entered at: the first starts from rest. */
  function Entry(w: Rise, j: nat): real
    requires RiseOk(w)
  {
    if j == 0 then 0.0 else Entering(w, j)
  }

  /** The speed it peaks at. */
  function Top(w: Rise, j: nat): real
    requires RiseOk(w)
  {
    RatioIs(w);
    if j == w.i then Fast(Ratio(w)) else Entering(w, j)
  }

  lemma LegSpeeds(w: Rise, j: nat)
    requires RiseOk(w) && j <= w.i + 1
    ensures 0.0 <= Entry(w, j) <= Entering(w, j) <= Top(w, j) && 0.0 <= Entering(w, j + 1) <= Top(w, j) && Top(w, j) > 1.0
    ensures j <= w.i ==> Entering(w, j + 1) > 0.0 && Entering(w, j) > 1.75
    ensures j < w.i ==> Top(w, j) == Entering(w, j) == Entering(w, j + 1) + 1.0
    ensures Top(w, j) < Limit(w)
  {
    hide Ratio, Slow, Fast;
    RatioIs(w);
    Speeds(Ratio(w));
  }

  /** Above them all: what every block may run at. */
  function Limit(w: Rise): real
    requires RiseOk(w)
  {
    RatioIs(w);
    Fast(Ratio(w)) + w.i as real + 2.0
  }

  // ─── The blocks ────────────────────────────────────────────────────────────

  /** From v0 up to the peak and down to v1. */
  function RampLengths(v0: real, top: real, v1: real, a: real): real
    requires a > 0.0
  {
    (2.0 * Sqr(top) - Sqr(v0) - Sqr(v1)) / (2.0 * a)
  }

  lemma RampLengthsIs(v0: real, top: real, v1: real, a: real)
    requires a > 0.0 && 0.0 <= v0 <= top && 0.0 <= v1 <= top
    ensures 2.0 * a * RampLengths(v0, top, v1, a) == 2.0 * Sqr(top) - Sqr(v0) - Sqr(v1)
    ensures RampLengths(v0, top, v1, a) >= 0.0 && (v0 < top || v1 < top ==> RampLengths(v0, top, v1, a) > 0.0)
  {
    hide Sqr;
    SqrGrows(v0, top);
    SqrGrows(v1, top);
    Divides(2.0 * Sqr(top) - Sqr(v0) - Sqr(v1), 2.0 * a);
    SignOf(2.0 * a, RampLengths(v0, top, v1, a));
  }

  const EAST := Vec2(1.0, 0.0)

  /** The legs run straight on, with a kink of A before the rise; the blocks behind them are on another axis, so that the
      legs end at rest. */
  function PathOf(w: Rise, j: nat): Path
    requires RiseOk(w) && j < |w.accs|
  {
    var kink := j == w.i && j > 0;
    Path(if j <= w.i + 1 then XY else Z,
         if j <= w.i + 1 then RampLengths(Entry(w, j), Top(w, j), Entering(w, j + 1), w.accs[j]) else 1.0,
         w.accs[j], Sqr(Limit(w)), EAST, EAST, if kink then 1.0 else 0.0, 0.0,
         if kink then Some(Entering(w, j)) else None)
  }

  lemma PathIsOk(w: Rise, j: nat)
    requires RiseOk(w) && j < |w.accs|
    ensures PathOk(PathOf(w, j))
  {
    hide Entering, Top, Limit, Sqr;
    if j <= w.i + 1 {
      LegSpeeds(w, j);
      RampLengthsIs(Entry(w, j), Top(w, j), Entering(w, j + 1), w.accs[j]);
      SomeRoom(w, j);
    }
    LegSpeeds(w, 0);
    SqrGrows(0.0, Limit(w));
    SqrZero();
  }

  lemma SomeRoom(w: Rise, j: nat)
    requires RiseOk(w) && j <= w.i + 1
    ensures Entry(w, j) < Top(w, j) || Entering(w, j + 1) < Top(w, j)
  {
    hide Ratio, Slow, Fast;
    RatioIs(w);
    Speeds(Ratio(w));
  }

  /** A profile that is all ramps lasts as long as they do. */
  lemma PeakProfile(sq: real -> real, v0: real, top: real, v1: real, a: real, vMax: real)
    requires IsSqrt(sq) && a > 0.0 && 0.0 <= v0 <= top && 0.0 <= v1 <= top <= vMax
    ensures var tr := Make(sq, RampLengths(v0, top, v1, a), a, Sqr(v0), Sqr(vMax), Sqr(v1));
      && tr.vEntry == v0 && tr.vCruise == top && tr.vExit == v1 && tr.accel == a && tr.length == RampLengths(v0, top, v1, a)
      && a * tr.tAcc == top - v0 && tr.tCruise == 0.0 && a * tr.tDec == top - v1
  {
    hide Sqr, RampLengths;
    var length := RampLengths(v0, top, v1, a);
    RampLengthsIs(v0, top, v1, a);
    SqrGrows(v0, top);
    SqrGrows(v1, top);
    SqrGrows(top, vMax);
    SqrGrows(v0, vMax);
    SqrGrows(v1, vMax);
    assert 2.0 * a * length == 2.0 * (a * length);
    Rooted(sq, v0);
    Rooted(sq, v1);
    Rooted(sq, top);
    Divides(top - v0, a);
    Divides(top - v1, a);
    RampsOnly(length, a, v0, top, v1);
  }

  lemma Rooted(sq: real -> real, v: real)
    requires IsSqrt(sq) && v >= 0.0
    ensures sq(Sqr(v)) == v
  {
    SqrtOfSquare(sq, v);
  }

  lemma RampsOnly(length: real, a: real, v0: real, top: real, v1: real)
    requires a > 0.0 && 2.0 * a * length == 2.0 * Sqr(top) - Sqr(v0) - Sqr(v1)
    ensures var tr := Phases(length, a, v0, top, v1, Sqr(v0), Sqr(top), Sqr(v1));
      && tr.length == length && tr.accel == a && tr.vEntry == v0 && tr.vCruise == top && tr.vExit == v1
      && tr.tAcc == (top - v0) / a && tr.tCruise == 0.0 && tr.tDec == (top - v1) / a
  {
    hide Sqr;
    var acc, dec := (Sqr(top) - Sqr(v0)) / (2.0 * a), (Sqr(top) - Sqr(v1)) / (2.0 * a);
    Divides(Sqr(top) - Sqr(v0), 2.0 * a);
    Divides(Sqr(top) - Sqr(v1), 2.0 * a);
    assert 2.0 * a * (length - acc - dec) == 0.0;
    SignOf(2.0 * a, length - acc - dec);
  }

  // ─── Pushed and planned ────────────────────────────────────────────────────

  const IDLE := Piece(0.0, 0.0, Trapezoid(0.0, 1.0, 0.0, 0.0, 0.0, 0.0, 0.0, 0.0, 0.0, 0.0))

  function Ring(q: seq<Block>, guard: real): PlanState { PlanState(q, false, 0.0, 0.0, guard, IDLE, None, None, None) }

  function ItemOf(w: Rise, j: nat): Item
    requires RiseOk(w) && j < |w.accs|
    ensures ItemOk(ItemOf(w, j))
  {
    PathIsOk(w, j);
    LineItem(j, PathOf(w, j), 0.0)
  }

  function Pushed(sq: real -> real, w: Rise, guard: real, n: nat): PlanState
    requires RiseOk(w) && n <= |w.accs|
  {
    if n == 0 then Ring([], guard) else PushItem(sq, Pushed(sq, w, guard, n - 1), ItemOf(w, n - 1))
  }

  function Junction(sq: real -> real, w: Rise, j: nat): real
    requires RiseOk(w) && j < |w.accs|
  {
    if j == 0 then 0.0 else JunctionMaxSqr(sq, PathOf(w, j - 1), PathOf(w, j), 0.0)
  }

  /** The queue's blocks, whatever their speeds. */
  predicate Laid(sq: real -> real, w: Rise, q: seq<Block>)
    requires RiseOk(w)
  {
    |q| <= |w.accs| && forall j :: 0 <= j < |q| ==>
      && q[j].path == PathOf(w, j) && q[j].kind.Line?
      && q[j].maxEntry == Junction(sq, w, j)
  }

  lemma {:induction false} PushedIs(sq: real -> real, w: Rise, guard: real, n: nat)
    requires RiseOk(w) && n <= |w.accs|
    ensures var p := Pushed(sq, w, guard, n); p == Ring(p.q, guard) && |p.q| == n && Laid(sq, w, p.q)
  {
    hide PathOf, Junction, RiseOk, PathOk, ItemOf, PushItem;
    if n > 0 {
      PushedIs(sq, w, guard, n - 1);
      OnePushed(sq, w, guard, Pushed(sq, w, guard, n - 1).q);
    }
  }

  lemma OnePushed(sq: real -> real, w: Rise, guard: real, q: seq<Block>)
    requires RiseOk(w) && Laid(sq, w, q) && |q| < |w.accs|
    ensures var p := PushItem(sq, Ring(q, guard), ItemOf(w, |q|));
      p == Ring(p.q, guard) && |p.q| == |q| + 1 && Laid(sq, w, p.q)
  {
    hide PathOf, JunctionMaxSqr, ProfileOf, RiseOk, PathOk;
    AccelIs(w, |q|);
    RingRoom(w);
  }

  lemma AccelIs(w: Rise, j: nat)
    requires RiseOk(w) && j < |w.accs|
    ensures PathOf(w, j).accel == w.accs[j] > 0.0
  {
  }

  lemma RingRoom(w: Rise)
    requires RiseOk(w)
    ensures |w.accs| <= RING_SIZE
  {
  }

  /** The junctions let every leg be entered as it is meant to be, the one at the rise no faster, and stop behind them. */
  lemma Junctions(sq: real -> real, w: Rise, j: nat)
    requires RiseOk(w) && 0 < j < |w.accs| && j <= w.i + 2
    ensures var cap := Junction(sq, w, j);
      && (j <= w.i + 1 ==> cap == if j == w.i then Sqr(Entering(w, j)) else Sqr(Limit(w)))
      && (j == w.i + 2 ==> cap == 0.0)
  {
    hide Entering, Top, Limit, Sqr, RampLengths;
    if j <= w.i + 1 {
      LegSpeeds(w, j);
      SqrGrows(Entering(w, j), Limit(w));
      StraightOn();
    }
  }

  lemma StraightOn()
    ensures -(EAST.x * EAST.x + EAST.y * EAST.y) == -1.0
  {
  }

  /** What the reverse pass allows at leg j. */
  lemma {:induction false} LegReverse(sq: real -> real, w: Rise, q: seq<Block>, j: nat)
    requires RiseOk(w) && Laid(sq, w, q) && RouteOk(q) && |q| == |w.accs| && 0 < j <= w.i + 2
    ensures ReverseEntry(q[j..]) == Sqr(Entering(w, j))
    decreases w.i + 2 - j
  {
    hide Entering, Top, Limit, Sqr, JunctionMaxSqr, RampLengths, RouteOk;
    if j == w.i + 2 {
      SqrZero();
      LegsEnd(sq, w, q);
    } else {
      LegReverse(sq, w, q, j + 1);
      assert q[j..][0] == q[j] && q[j..][1..] == q[j + 1..];
      Junctions(sq, w, j);
      LegSpeeds(w, j);
      LegReach(w, j);
      SqrGrows(Entering(w, j), Limit(w));
    }
  }

  lemma LegsEnd(sq: real -> real, w: Rise, q: seq<Block>)
    requires RiseOk(w) && Laid(sq, w, q) && RouteOk(q) && |q| == |w.accs|
    ensures ReverseEntry(q[w.i + 2..]) == 0.0 && Entering(w, w.i + 2) == 0.0
  {
    hide JunctionMaxSqr, RampLengths, Sqr, Limit;
    var r := q[w.i + 2..];
    if r != [] {
      Junctions(sq, w, w.i + 2);
      TailRoute(q, w.i + 2);
      ReverseInRange(r);
      assert r[0] == q[w.i + 2];
    }
  }

  lemma {:induction false} TailRoute(q: seq<Block>, n: nat)
    requires RouteOk(q) && n <= |q|
    ensures RouteOk(q[n..])
  {
    hide RouteOk;
    if n > 0 {
      TailRoute(q, n - 1);
      RouteTail(q[n - 1..]);
      assert q[n - 1..][1..] == q[n..];
    } else {
      assert q[0..] == q;
    }
  }

  /** Backwards from its exit a leg reaches its entering speed, exactly so where it only brakes; forwards from its entry
      its exit. */
  lemma LegReach(w: Rise, j: nat)
    requires RiseOk(w) && j <= w.i + 1
    ensures var a, len := w.accs[j], PathOf(w, j).length;
      && (j > 0 && j != w.i ==> Reach(Sqr(Entering(w, j + 1)), a, len) == Sqr(Entering(w, j)))
      && (j > 0 ==> Reach(Sqr(Entering(w, j + 1)), a, len) >= Sqr(Entering(w, j)))
      && Reach(Sqr(Entry(w, j)), a, len) >= Sqr(Entering(w, j + 1))
  {
    hide Entering, Top, RampLengths, Sqr, Reach, Limit;
    LegSpeeds(w, j);
    var v0, top, v1, a := Entry(w, j), Top(w, j), Entering(w, j + 1), w.accs[j];
    RampLengthsIs(v0, top, v1, a);
    SqrGrows(v0, top);
    SqrGrows(v1, top);
    ReachAlong(v0, top, v1, a, PathOf(w, j).length);
    if j == w.i + 1 { LastLeg(w); }
  }

  lemma ReachAlong(v0: real, top: real, v1: real, a: real, len: real)
    requires 2.0 * a * len == 2.0 * Sqr(top) - Sqr(v0) - Sqr(v1)
    ensures Reach(Sqr(v1), a, len) == 2.0 * Sqr(top) - Sqr(v0)
    ensures Reach(Sqr(v0), a, len) == 2.0 * Sqr(top) - Sqr(v1)
  {
    hide Sqr;
  }

  lemma LastLeg(w: Rise)
    requires RiseOk(w)
    ensures Entering(w, w.i + 1) == Top(w, w.i + 1) == 2.0 && Entering(w, w.i + 2) == 0.0
  {
  }

  /** The queue as planned from rest. */
  predicate Laden(w: Rise, q: seq<Block>)
    requires RiseOk(w)
  {
    |q| == |w.accs| && forall j :: 0 <= j < |q| ==> q[j].path == PathOf(w, j) && q[j].kind.Line?
  }

  /** A leg's committed speeds are the ones it is meant to have. */
  predicate LegPlanned(sq: real -> real, w: Rise, q: seq<Block>, j: nat)
    requires RiseOk(w) && j <= w.i + 1
  {
    && j < |q| && q[j].path.accel > 0.0
    && q[j].entrySqr == Sqr(Entry(w, j)) && q[j].exitSqr == Sqr(Entering(w, j + 1))
    && q[j].profile == ProfileOf(sq, q[j].path, Sqr(Entry(w, j)), Sqr(Entering(w, j + 1)))
  }

  lemma RoutePositive(q: seq<Block>)
    requires RouteOk(q)
    ensures forall i :: 0 <= i < |q| ==> q[i].path.accel > 0.0
  {
  }

  /** Planning from leg j on is one step of planning the whole. */
  lemma PlanStep(sq: real -> real, w: Rise, q: seq<Block>, j: nat)
    requires RiseOk(w) && Laid(sq, w, q) && RouteOk(q) && |q| == |w.accs| && j <= w.i + 1
    requires forall i :: 0 <= i < |q| ==> q[i].path.accel > 0.0
    ensures var e := Sqr(Entering(w, j + 1));
      Planned(sq, q[j..], Sqr(Entry(w, j))) == [WithSpeeds(sq, q[j], Sqr(Entry(w, j)), e)] + Planned(sq, q[j + 1..], e)
  {
    hide Entering, Entry, Limit, Sqr, JunctionMaxSqr, RampLengths, RouteOk, ProfileOf, Reach;
    LegReverse(sq, w, q, j + 1);
    LegReach(w, j);
    assert q[j..][0] == q[j] && q[j..][1..] == q[j + 1..];
  }

  lemma {:induction false} PlanFrom(sq: real -> real, w: Rise, q: seq<Block>, j: nat)
    requires RiseOk(w) && Laid(sq, w, q) && RouteOk(q) && |q| == |w.accs| && j <= w.i + 2
    requires forall i :: 0 <= i < |q| ==> q[i].path.accel > 0.0
    ensures Planned(sq, q, 0.0)[j..] == Planned(sq, q[j..], Sqr(Entry(w, j)))
  {
    hide Entering, Sqr, Laid, RouteOk, ProfileOf, Planned, WithSpeeds;
    if j == 0 {
      SqrZero();
      assert q[0..] == q;
    } else {
      PlanFrom(sq, w, q, j - 1);
      PlanStep(sq, w, q, j - 1);
      assert Planned(sq, q, 0.0)[j - 1..][1..] == Planned(sq, q, 0.0)[j..];
    }
  }

  lemma PlannedLegs(sq: real -> real, w: Rise, q: seq<Block>, j: nat)
    requires RiseOk(w) && Laid(sq, w, q) && RouteOk(q) && |q| == |w.accs| && j <= w.i + 1
    requires forall i :: 0 <= i < |q| ==> q[i].path.accel > 0.0
    ensures LegPlanned(sq, w, Planned(sq, q, 0.0), j)
  {
    hide Entering, Entry, Sqr, Laid, RouteOk, ProfileOf, Planned;
    PlanFrom(sq, w, q, j);
    PlanStep(sq, w, q, j);
    assert Planned(sq, q, 0.0)[j..][0] == Planned(sq, q, 0.0)[j];
  }

  lemma {:induction false} PlannedPaths(sq: real -> real, q: seq<Block>, entry: real)
    requires forall i :: 0 <= i < |q| ==> q[i].path.accel > 0.0
    ensures forall i :: 0 <= i < |q| ==> Planned(sq, q, entry)[i].path == q[i].path && Planned(sq, q, entry)[i].kind == q[i].kind
  {
    hide ProfileOf;
    if q != [] { PlannedPaths(sq, q[1..], Min(ReverseEntry(q[1..]), ReachBlock(q[0], entry))); }
  }

  // ─── The ride ──────────────────────────────────────────────────────────────

  /** In leg j, at its entering speed, with just its way up and down ahead. */
  predicate OnLeg(w: Rise, q: seq<Block>, j: nat, m: Machine)
    requires RiseOk(w)
  {
    && j <= w.i + 1 && j < |q| && m.e.cur && m.p.q == q[j..] && m.e.next.None? && m.p.staged.None?
    && m.p.q[0].path == PathOf(w, j) && m.p.q[0].kind.Line? && m.e.v == Entering(w, j)
    && m.e.piece.profile.vExit == Entering(w, j + 1)
    && Prod(w.accs[j], m.e.piece.End() - m.e.t) == 2.0 * Top(w, j) - Entering(w, j) - Entering(w, j + 1)
    && 2.0 * Prod(w.accs[j], m.p.q[0].path.length - m.e.s)
       == 2.0 * Sqr(Top(w, j)) - Sqr(Entering(w, j)) - Sqr(Entering(w, j + 1))
  }

  lemma LegProfile(sq: real -> real, w: Rise, q: seq<Block>, j: nat)
    requires IsSqrt(sq) && RiseOk(w) && Laden(w, q) && j <= w.i + 1 && LegPlanned(sq, w, q, j)
    ensures var tr := q[j].profile;
      && tr.vEntry == Entry(w, j) && tr.vCruise == Top(w, j) && tr.vExit == Entering(w, j + 1) && tr.accel == w.accs[j]
      && Prod(w.accs[j], tr.tAcc) == Top(w, j) - Entry(w, j) && tr.tCruise == 0.0
      && Prod(w.accs[j], tr.Duration()) == 2.0 * Top(w, j) - Entry(w, j) - Entering(w, j + 1)
    ensures var v0, v1 := Entry(w, j), Entering(w, j + 1);
      2.0 * Prod(w.accs[j], q[j].path.length) == 2.0 * Sqr(Top(w, j)) - Sqr(v0) - Sqr(v1)
  {
    hide Entering, Entry, Top, Limit, Sqr, RampLengths, Make;
    LegSpeeds(w, j);
    var v0, top, v1, a := Entry(w, j), Top(w, j), Entering(w, j + 1), w.accs[j];
    PeakProfile(sq, v0, top, v1, a, Limit(w));
    RampLengthsIs(v0, top, v1, a);
    var tr := q[j].profile;
    assert a * tr.Duration() == a * tr.tAcc + a * tr.tDec;
  }

  /** A leg begun is a leg ridden, but the first, which starts from rest. */
  lemma BegunLeg(sq: real -> real, w: Rise, q: seq<Block>, j: nat, m: Machine)
    requires IsSqrt(sq) && RiseOk(w) && Laden(w, q) && 0 < j <= w.i + 1 && LegPlanned(sq, w, q, j)
    requires !m.e.cur && !m.p.claimed && m.p.q == q[j..] && m.e.v == Entering(w, j)
    ensures OnLeg(w, q, j, BeginBlock(m))
  {
    hide Entering, Top, Limit, Sqr, Prod, PathOf, ProfileOf;
    LegProfile(sq, w, q, j);
    assert q[j..][0] == q[j];
  }

  /** Speed after accelerating from rest for the time it takes. */
  lemma FromRest(a: real, v: real, t: real)
    requires a > 0.0 && a * t == v
    ensures Speed(0.0, a, t) == v && 2.0 * Prod(a, Travel(0.0, a, t)) == Sqr(v)
  {
    assert 2.0 * (a * (0.0 * t + 0.5 * a * t * t)) == (a * t) * (a * t);
  }

  lemma Quicker(a: real, t: real, u: real)
    requires a > 0.0 && Prod(a, t) <= Prod(a, u)
    ensures t <= u && (Prod(a, t) < Prod(a, u) ==> t < u)
  {
    if u < t { SignOf(a, t - u); }
  }

  /** The time to the first leg's entering speed. */
  function Launch(w: Rise): real
    requires RiseOk(w)
  {
    Entering(w, 0) / w.accs[0]
  }

  lemma LaunchIs(w: Rise)
    requires RiseOk(w)
    ensures Launch(w) > 0.0 && Prod(w.accs[0], Launch(w)) == Entering(w, 0)
  {
    hide Entering;
    LegSpeeds(w, 0);
    Divides(Entering(w, 0), w.accs[0]);
    SignOf(w.accs[0], Launch(w));
  }

  /** Where the first leg stands then. */
  lemma Launched(sq: real -> real, w: Rise, q: seq<Block>)
    requires IsSqrt(sq) && RiseOk(w) && Laden(w, q) && LegPlanned(sq, w, q, 0) && Sound(q[0].profile)
    ensures var tr, t := q[0].profile, Launch(w);
      && 0.0 < t < tr.Duration() && tr.Velocity(t) == Entering(w, 0)
      && 2.0 * Prod(w.accs[0], tr.Position(t)) == Sqr(Entering(w, 0))
  {
    hide Entering, Top, Limit, Sqr, PathOf, ProfileOf, Travel, Speed, Trapezoid.Position, Trapezoid.Velocity;
    var tr, t, a := q[0].profile, Launch(w), w.accs[0];
    LegProfile(sq, w, q, 0);
    LegSpeeds(w, 0);
    LaunchIs(w);
    Quicker(a, t, tr.tAcc);
    SomeRoom(w, 0);
    FromRest(a, Entering(w, 0), t);
    InAcc(tr, t);
    Onward(w, t, tr.Duration());
  }

  lemma Onward(w: Rise, t: real, d: real)
    requires RiseOk(w) && Prod(w.accs[0], t) == Entering(w, 0)
    requires Prod(w.accs[0], d) == 2.0 * Top(w, 0) - Entering(w, 1)
    ensures t < d
  {
    hide Ratio, Slow, Fast;
    RatioIs(w);
    Speeds(Ratio(w));
    Quicker(w.accs[0], t, d);
  }

  function Standing(): ExecState { ExecState(Running, false, false, IDLE, None, false, 0.0, 0.0, 0.0, 0.0, 0) }

  lemma FirstTick(sq: real -> real, w: Rise, q: seq<Block>)
    requires IsSqrt(sq) && RiseOk(w) && Laden(w, q) && LegPlanned(sq, w, q, 0) && Sound(q[0].profile)
    ensures var m := Machine(Ring(q, Launch(w)), Standing());
      && Shape(m)
      && var r := Tick(sq, m, Launch(w)); Shape(r) && OnLeg(w, q, 0, r) && r.e.mode.Running?
  {
    hide Entering, Top, Limit, Sqr, PathOf, ProfileOf, Trapezoid.Position, Trapezoid.Velocity, Prod, Launch;
    var m, t := Machine(Ring(q, Launch(w)), Standing()), Launch(w);
    Accels(w, q);
    Launched(sq, w, q);
    LegProfile(sq, w, q, 0);
    LaunchIs(w);
    StopsHere(sq, m, t);
    var r := Tick(sq, m, t);
    assert r.e.t == t && r.e.s == q[0].profile.Position(t) && r.e.v == q[0].profile.Velocity(t);
    assert r.e.piece.End() - r.e.t == q[0].profile.Duration() - t;
    LegLeft(w, q, 0, q[0].profile.Duration(), t, q[0].path.length, q[0].profile.Position(t));
    assert q[0..] == q;
    assert t - 0.0 == t;
    SqrZero();
  }

  lemma Accels(w: Rise, q: seq<Block>)
    requires RiseOk(w) && Laden(w, q)
    ensures forall j :: 0 <= j < |q| ==> q[j].path.accel == w.accs[j] > 0.0
  {
  }

  lemma LegLeft(w: Rise, q: seq<Block>, j: nat, d: real, t: real, len: real, s: real)
    requires RiseOk(w) && j <= w.i + 1
    ensures Prod(w.accs[j], d - t) == Prod(w.accs[j], d) - Prod(w.accs[j], t)
    ensures Prod(w.accs[j], len - s) == Prod(w.accs[j], len) - Prod(w.accs[j], s)
  {
  }

  // ─── It is reached ─────────────────────────────────────────────────────────

  function With(p: PlanState, adopted: bool): System { System(Machine(p, Standing()), false, adopted, None) }

  lemma {:induction false} OneMore(sq: real -> real, y: System, a: Action, acts: seq<Action>)
    requires Shape(y.m) && Enabled(y, a)
    requires var z := Perform(sq, y, a); Shape(z.m) && ValidRun(sq, z, acts)
    ensures ValidRun(sq, y, [a] + acts) && Final(sq, y, [a] + acts) == Final(sq, Perform(sq, y, a), acts)
  {
    hide Perform, Enabled;
    assert ([a] + acts)[1..] == acts;
  }

  lemma PushedShape(sq: real -> real, w: Rise, guard: real, n: nat)
    requires RiseOk(w) && n <= |w.accs|
    ensures Shape(With(Pushed(sq, w, guard, n), false).m)
  {
    hide PathOf, JunctionMaxSqr;
    PushedIs(sq, w, guard, n);
    forall j | 0 <= j < n
      ensures PathOf(w, j).accel > 0.0
    {
      AccelIs(w, j);
    }
  }

  /** All the pushes, before whatever follows. */
  lemma {:induction false} Pushes(sq: real -> real, w: Rise, guard: real, n: nat, acts: seq<Action>) returns (all: seq<Action>)
    requires RiseOk(w) && n <= |w.accs|
    requires Shape(With(Pushed(sq, w, guard, n), false).m) && ValidRun(sq, With(Pushed(sq, w, guard, n), false), acts)
    ensures Shape(With(Ring([], guard), false).m) && ValidRun(sq, With(Ring([], guard), false), all)
    ensures Final(sq, With(Ring([], guard), false), all) == Final(sq, With(Pushed(sq, w, guard, n), false), acts)
    decreases n
  {
    hide ValidRun, Final, PushItem, RiseOk, Shape;
    if n == 0 {
      all := acts;
    } else {
      PushedShape(sq, w, guard, n - 1);
      OneMore(sq, With(Pushed(sq, w, guard, n - 1), false), Push(ItemOf(w, n - 1)), acts);
      all := Pushes(sq, w, guard, n - 1, [Push(ItemOf(w, n - 1))] + acts);
    }
  }

  lemma CommittedIs(sq: real -> real, w: Rise, guard: real)
    requires IsSqrt(sq) && RiseOk(w) && guard >= 0.0
    ensures var p := Pushed(sq, w, guard, |w.accs|);
      && Shape(With(p, false).m) && Shape(With(Replan(sq, p, 0.0), false).m) && p.offer.None?
      && Accepts(Replan(sq, p, 0.0), 0.0)
      && Commit(Replan(sq, p, 0.0), 0.0) == Ring(Planned(sq, p.q, 0.0), guard)
  {
    hide PathOf, JunctionMaxSqr, Planned;
    PushedIs(sq, w, guard, |w.accs|);
    PushedShape(sq, w, guard, |w.accs|);
  }

  lemma LaidRoute(sq: real -> real, w: Rise, q: seq<Block>)
    requires IsSqrt(sq) && RiseOk(w) && Laid(sq, w, q)
    ensures RouteOk(q)
  {
    hide PathOf, JunctionMaxSqr, PathOk;
    forall j | 0 <= j < |q|
      ensures BlockOk(q[j]) && (j > 0 ==> q[j].maxEntry <= q[j - 1].path.vMaxSqr)
    {
      PathIsOk(w, j);
      PathParts(PathOf(w, j));
      if j > 0 {
        PathIsOk(w, j - 1);
        PathParts(PathOf(w, j - 1));
        JunctionInRange(sq, PathOf(w, j - 1), PathOf(w, j), 0.0);
      }
      assert q[j].path == PathOf(w, j) && q[j].kind.Line?;
    }
  }

  lemma PathParts(p: Path)
    requires PathOk(p)
    ensures p.accel > 0.0 && p.vMaxSqr > 0.0
  {
  }

  /** The whole queue, planned: its legs at their speeds, the first with a sound profile. */
  lemma PlannedQueue(sq: real -> real, w: Rise, q: seq<Block>)
    requires IsSqrt(sq) && RiseOk(w) && Laid(sq, w, q) && |q| == |w.accs|
    ensures RouteOk(q) && forall i :: 0 <= i < |q| ==> q[i].path.accel > 0.0
    ensures var r := Planned(sq, q, 0.0);
      Laden(w, r) && (forall j :: 0 <= j <= w.i + 1 ==> LegPlanned(sq, w, r, j)) && Sound(r[0].profile)
  {
    hide Entering, Top, Limit, Sqr, PathOf, ProfileOf, JunctionMaxSqr, Planned, RouteOk, LegPlanned;
    LaidRoute(sq, w, q);
    RoutePositive(q);
    PlannedPaths(sq, q, 0.0);
    forall j | 0 <= j <= w.i + 1
      ensures LegPlanned(sq, w, Planned(sq, q, 0.0), j)
    {
      PlannedLegs(sq, w, q, j);
    }
    FirstSound(sq, w, q);
  }

  lemma FirstSound(sq: real -> real, w: Rise, q: seq<Block>)
    requires IsSqrt(sq) && RiseOk(w) && Laid(sq, w, q) && |q| == |w.accs| && RouteOk(q)
    requires forall i :: 0 <= i < |q| ==> q[i].path.accel > 0.0
    ensures Sound(Planned(sq, q, 0.0)[0].profile)
  {
    hide Entering, Top, Limit, PathOf, JunctionMaxSqr, Sound, RampLengths, Make, Planned, RouteOk, Reach;
    ReverseInRange(q);
    PlannedChain(sq, q, 0.0);
    var b := Planned(sq, q, 0.0)[0];
    PlannedLegs(sq, w, q, 0);
    MakeExact(sq, b.path.length, b.path.accel, b.entrySqr, b.path.vMaxSqr, b.exitSqr);
  }

  predicate LegsPlanned(sq: real -> real, w: Rise, q: seq<Block>)
    requires RiseOk(w)
  {
    Laden(w, q) && forall j :: 0 <= j <= w.i + 1 ==> LegPlanned(sq, w, q, j)
  }

  lemma LastActs(sq: real -> real, w: Rise, q: seq<Block>) returns (y: System)
    requires IsSqrt(sq) && RiseOk(w) && LegsPlanned(sq, w, q) && Sound(q[0].profile)
    ensures var y4, acts := With(Ring(q, Launch(w)), false), [DoAdopt] + ([DoTick(Launch(w))] + []);
      Shape(y4.m) && ValidRun(sq, y4, acts) && y == Final(sq, y4, acts)
    ensures !y.dirty && y.m.e.mode.Running? && OnLeg(w, q, 0, y.m)
  {
    hide Launch, LegPlanned, OnLeg, Tick, NeedsRing, Laden, ValidRun, Final, Sound;
    var g := Launch(w);
    LaunchIs(w);
    FirstTick(sq, w, q);
    var y4, y5 := With(Ring(q, g), false), With(Ring(q, g), true);
    assert Perform(sq, y4, DoAdopt) == y5;
    y := Perform(sq, y5, DoTick(g));
    NothingLeft(sq, y);
    OneMore(sq, y5, DoTick(g), []);
    OneMore(sq, y4, DoAdopt, [DoTick(g)] + []);
  }

  /** A clean running state, reached, with the whole queue ahead and the first leg at its entering speed. */
  lemma Reaches(sq: real -> real, w: Rise) returns (y: System, q: seq<Block>)
    requires IsSqrt(sq) && RiseOk(w)
    ensures Reached(sq, y) && !y.dirty && y.m.e.mode.Running? && LegsPlanned(sq, w, q) && OnLeg(w, q, 0, y.m)
  {
    hide PushItem, Replan, Commit, Planned, ValidRun, Final, Launch, LegPlanned, OnLeg, Laid, Laden, RouteOk, RiseOk,
         Accepts, Pushed, Sound;
    var g, p := Launch(w), Pushed(sq, w, Launch(w), |w.accs|);
    LaunchIs(w);
    PushedIs(sq, w, g, |w.accs|);
    PlannedQueue(sq, w, p.q);
    CommittedIs(sq, w, g);
    q := Planned(sq, p.q, 0.0);
    y := LastActs(sq, w, q);
    var acts := [DoAdopt] + ([DoTick(g)] + []);
    OneMore(sq, With(Replan(sq, p, 0.0), false), DoCommit(0.0), acts);
    OneMore(sq, With(p, false), DoReplan(0.0), [DoCommit(0.0)] + acts);
    var all := Pushes(sq, w, g, |w.accs|, [DoReplan(0.0)] + ([DoCommit(0.0)] + acts));
    assert Initial(0.0, g, IDLE) == With(Ring([], g), false);
  }

  lemma NothingLeft(sq: real -> real, y: System)
    requires Shape(y.m)
    ensures ValidRun(sq, y, []) && Final(sq, y, []) == y
  {
  }

  // ─── And the hold is late ──────────────────────────────────────────────────

  /** The time from leg j's entering speed to rest, run as planned. */
  function Left(w: Rise, j: nat): real
    requires RiseOk(w) && j <= w.i
    decreases w.i - j
  {
    if j == w.i then (2.0 * Top(w, j) - Entering(w, j) - 2.0) / w.accs[j] + 2.0 / w.accs[j + 1]
    else 1.0 / w.accs[j] + Left(w, j + 1)
  }

  lemma LastLeft(w: Rise)
    requires RiseOk(w)
    ensures var a, b, v, top := w.accs[w.i], w.accs[w.i + 1], Entering(w, w.i), Top(w, w.i);
      && Prod(a, Left(w, w.i) - 2.0 / b) == 2.0 * top - v - 2.0 && Prod(b, 2.0 / b) == 2.0
      && Left(w, w.i) - 2.0 / b > 0.0 && Left(w, w.i) > 0.0
      && 0.0 < Prod(a, Left(w, w.i)) < v
  {
    hide Slow, Fast, Ratio;
    var a, b, v, top := w.accs[w.i], w.accs[w.i + 1], Entering(w, w.i), Top(w, w.i);
    RatioIs(w);
    Speeds(Ratio(w));
    Divides(2.0 * top - v - 2.0, a);
    Divides(2.0, b);
    SignOf(a, Left(w, w.i) - 2.0 / b);
    SignOf(b, 2.0 / b);
    Shares(a, b, Ratio(w), 2.0 / b);
    assert a * Left(w, w.i) == a * (Left(w, w.i) - 2.0 / b) + a * (2.0 / b);
  }

  lemma Shares(a: real, b: real, r: real, t: real)
    requires a == Prod(r, b) && Prod(b, t) == 2.0
    ensures Prod(a, t) == 2.0 * r
  {
    assert r * b * t == r * (b * t);
  }

  lemma {:induction false} LeftPositive(w: Rise, j: nat)
    requires RiseOk(w) && j <= w.i
    ensures Left(w, j) > 0.0
    decreases w.i - j
  {
    hide Entering, Top;
    if j == w.i {
      LastLeft(w);
    } else {
      LeftPositive(w, j + 1);
      Divides(1.0, w.accs[j]);
      SignOf(w.accs[j], 1.0 / w.accs[j]);
    }
  }

  lemma SameTime(a: real, t: real, u: real)
    requires a > 0.0 && Prod(a, t) == Prod(a, u)
    ensures t == u
  {
    SignOf(a, t - u);
    SignOf(a, u - t);
  }

  /** A hold leaves a leg it enters at v with w left. */
  lemma HoldLeavesLeg(sq: real -> real, v: real, w: real, a: real, rem: real)
    requires IsSqrt(sq) && a > 0.0 && 0.0 < w <= v && 2.0 * Prod(a, rem) == Sqr(v) - Sqr(w)
    ensures StopDistance(v, a) > rem && EndSpeed(sq, v, a, rem) == w && Prod(a, EndTime(v, w, a)) == v - w
  {
    Divides(v - w, a);
    SquarePositive(w);
    TooFar(v, w, a, rem);
    Rooted(sq, w);
    assert v * v - 2.0 * a * rem == Sqr(w);
  }

  lemma SquarePositive(w: real)
    requires w > 0.0
    ensures Sqr(w) > 0.0
  {
    SignOf(w, w);
  }

  lemma TooFar(v: real, w: real, a: real, rem: real)
    requires a > 0.0 && Sqr(w) > 0.0 && 2.0 * Prod(a, rem) == Sqr(v) - Sqr(w)
    ensures StopDistance(v, a) > rem
  {
    hide Sqr;
    Divides(v * v, 2.0 * a);
    Apart(a, StopDistance(v, a), rem);
    assert Sqr(v) == v * v by { SqrTimes(v); }
    SignOf(2.0 * a, StopDistance(v, a) - rem);
  }

  lemma Apart(a: real, x: real, y: real)
    ensures 2.0 * a * (x - y) == 2.0 * a * x - 2.0 * Prod(a, y)
  {
  }

  lemma SqrTimes(v: real)
    ensures Sqr(v) == v * v
  {
  }

  /** The hold and the run in the same leg. */
  predicate Together(sq: real -> real, w: Rise, q: seq<Block>, j: nat, h: Machine, r: Machine)
    requires RiseOk(w)
  {
    Paired(sq, h, r) && OnLeg(w, q, j, h) && OnLeg(w, q, j, r) && h.e.s == r.e.s
  }

  lemma LegParts(sq: real -> real, w: Rise, q: seq<Block>, j: nat, m: Machine)
    requires RiseOk(w) && Laden(w, q) && OnLeg(w, q, j, m)
    ensures m.p.q != [] && m.p.q[0] == q[j] && m.p.q[1..] == q[j + 1..] && !m.p.q[0].kind.Event?
    ensures m.p.q[0].path.accel == w.accs[j] > 0.0
  {
    hide Entering, Top, Prod, Sqr, PathOf;
    Accels(w, q);
  }

  lemma BudgetOf(m: Machine, dt: real)
    requires m.p.staged.None? && dt >= 0.0
    ensures Budget(m, dt)
  {
  }

  /** Where the run only brakes, the hold does just that: both enter the next leg at once, at the same speed. */
  lemma BrakesAlike(sq: real -> real, w: Rise, q: seq<Block>, j: nat, h: Machine, r: Machine, dt: real)
    requires IsSqrt(sq) && RiseOk(w) && LegsPlanned(sq, w, q) && Together(sq, w, q, j, h, r) && j < w.i
    requires dt - 1.0 / w.accs[j] > 0.0
    ensures var v, d := Entering(w, j + 1), dt - 1.0 / w.accs[j];
      var h1, r1 := FinishBlock(h, v), Finished(r);
      && Shape(h1) && Shape(r1) && Good(sq, h1) && Good(sq, r1) && h1.p == r1.p == Release(h.p)
      && Advance(sq, h, dt) == Advance(sq, h1, d) && Advance(sq, r, dt) == Advance(sq, r1, d)
  {
    hide Entering, Top, Prod, Sqr, PathOf, PlanInv, ExecInv, Advance, Budget, StopDistance, EndTime, EndSpeed, Laden,
         LegPlanned, Trapezoid.Position, Trapezoid.Velocity, Limit;
    var a, v, v1, rem, t := w.accs[j], Entering(w, j), Entering(w, j + 1), h.p.q[0].path.length - h.e.s, 1.0 / w.accs[j];
    LegParts(sq, w, q, j, h);
    LegSpeeds(w, j);
    SqrGrows(v1, v);
    HoldLeavesLeg(sq, v, v1, a, rem);
    Whole(a);
    SameTime(a, EndTime(v, v1, a), t);
    SameTime(a, r.e.piece.End() - r.e.t, t);
    BudgetOf(r, dt);
    HoldLeavesAt(sq, h, dt);
    RunThrough(sq, r, dt);
    FinishedGood(sq, r, dt);
  }

  lemma Whole(a: real)
    requires a > 0.0
    ensures Prod(a, 1.0 / a) == 1.0 && 1.0 / a > 0.0
  {
    Divides(1.0, a);
    SignOf(a, 1.0 / a);
  }

  lemma NextTogether(sq: real -> real, w: Rise, q: seq<Block>, j: nat, h: Machine, r: Machine, dt: real)
    requires IsSqrt(sq) && RiseOk(w) && LegsPlanned(sq, w, q) && 0 < j <= w.i && dt > 0.0
    requires Shape(h) && Shape(r) && Good(sq, h) && Good(sq, r) && h.p == r.p && !h.p.claimed && h.p.q == q[j..]
    requires h.e.mode.Holding? && r.e.mode.Running? && h.e.v == r.e.v == Entering(w, j)
    ensures Together(sq, w, q, j, BeginBlock(h), BeginBlock(r))
    ensures Advance(sq, h, dt) == Advance(sq, BeginBlock(h), dt) && Advance(sq, r, dt) == Advance(sq, BeginBlock(r), dt)
  {
    hide Entering, Top, Prod, Sqr, PathOf, PlanInv, ExecInv, Advance, Laden, LegPlanned, OnLeg, Limit;
    LegSpeeds(w, j);
    assert LegPlanned(sq, w, q, j);
    LadenMore(w, q, j);
    BegunLeg(sq, w, q, j, h);
    BegunLeg(sq, w, q, j, r);
    BeginsWith(sq, h, dt);
    BeginsWith(sq, r, dt);
    BeginKeeps(sq, h, 0.0, 0.0);
    BeginKeeps(sq, r, 0.0, 0.0);
  }

  lemma LadenMore(w: Rise, q: seq<Block>, j: nat)
    requires RiseOk(w) && Laden(w, q) && j <= w.i + 1
    ensures j < |q| && q[j..] != []
  {
  }

  lemma {:induction false} Ride(sq: real -> real, w: Rise, q: seq<Block>, j: nat, h: Machine, r: Machine)
    requires IsSqrt(sq) && RiseOk(w) && LegsPlanned(sq, w, q) && Together(sq, w, q, j, h, r) && j <= w.i
    ensures Advance(sq, r, Left(w, j)).e.v == 0.0 && Advance(sq, h, Left(w, j)).e.v > 0.0
    decreases w.i - j
  {
    hide Entering, Top, Prod, Sqr, PathOf, PlanInv, ExecInv, Advance, LegsPlanned, Limit, LastPiece;
    if j == w.i {
      LastRide(sq, w, q, h, r);
    } else {
      var dt, v := Left(w, j + 1), Entering(w, j + 1);
      LeftPositive(w, j + 1);
      LadenOf(sq, w, q);
      LegParts(sq, w, q, j, h);
      BrakesAlike(sq, w, q, j, h, r, Left(w, j));
      assert Left(w, j) - 1.0 / w.accs[j] == dt;
      FinishedSpeed(r);
      NextTogether(sq, w, q, j + 1, FinishBlock(h, v), Finished(r), dt);
      Ride(sq, w, q, j + 1, BeginBlock(FinishBlock(h, v)), BeginBlock(Finished(r)));
    }
  }

  lemma LadenOf(sq: real -> real, w: Rise, q: seq<Block>)
    requires RiseOk(w) && LegsPlanned(sq, w, q)
    ensures Laden(w, q)
  {
  }

  lemma FinishedSpeed(m: Machine)
    requires m.e.next.None?
    ensures Finished(m).e.v == m.e.piece.profile.vExit && !Finished(m).e.cur && Finished(m).e.mode == m.e.mode
  {
  }

  /** The gentle leg and the hard one: the run speeds up and brakes late, the hold brakes gently all the way. */
  lemma LastRide(sq: real -> real, w: Rise, q: seq<Block>, h: Machine, r: Machine)
    requires IsSqrt(sq) && RiseOk(w) && LegsPlanned(sq, w, q) && Together(sq, w, q, w.i, h, r)
    ensures Advance(sq, r, Left(w, w.i)).e.v == 0.0 && Advance(sq, h, Left(w, w.i)).e.v > 0.0
  {
    hide Together, LegsPlanned, Left, Advance, RiseOk;
    RunEnds(sq, w, q, h, r);
    HoldGoesOn(sq, w, q, h, r);
  }

  lemma RunEnds(sq: real -> real, w: Rise, q: seq<Block>, h: Machine, r: Machine)
    requires IsSqrt(sq) && RiseOk(w) && LegsPlanned(sq, w, q) && Together(sq, w, q, w.i, h, r)
    ensures Advance(sq, r, Left(w, w.i)).e.v == 0.0
  {
    hide Entering, Top, Prod, Sqr, PathOf, PlanInv, ExecInv, Advance, Budget, LegPlanned, Left, Limit, Laden,
         Trapezoid.Position, Trapezoid.Velocity;
    var i := w.i;
    var a, b, dt, d := w.accs[i], w.accs[i + 1], Left(w, i), 2.0 / w.accs[i + 1];
    LegParts(sq, w, q, i, r);
    LastLeg(w);
    LastLeft(w);
    SameTime(a, r.e.piece.End() - r.e.t, dt - d);
    BudgetOf(r, dt);
    RunThrough(sq, r, dt);
    FinishedGood(sq, r, dt);
    var k := Finished(r);
    LadenMore(w, q, i + 1);
    assert LegPlanned(sq, w, q, i + 1);
    BegunLeg(sq, w, q, i + 1, k);
    assert dt - (r.e.piece.End() - r.e.t) == d;
    HardLeg(sq, w, q, k, d);
  }

  lemma HardLeg(sq: real -> real, w: Rise, q: seq<Block>, k: Machine, d: real)
    requires IsSqrt(sq) && RiseOk(w) && Laden(w, q) && LegPlanned(sq, w, q, w.i + 1)
    requires Shape(k) && Good(sq, k) && !k.e.cur && k.e.mode.Running? && k.p.q == q[w.i + 1..]
    requires k.e.v == Entering(w, w.i + 1) && d > 0.0 && Prod(w.accs[w.i + 1], d) == 2.0
    ensures Advance(sq, k, d).e.v == 0.0
  {
    hide Entering, Top, Prod, Sqr, PathOf, PlanInv, ExecInv, Advance, Budget, LegPlanned, Limit, Laden,
         Trapezoid.Position, Trapezoid.Velocity;
    LastLeg(w);
    LadenMore(w, q, w.i + 1);
    BegunLeg(sq, w, q, w.i + 1, k);
    BeginsWith(sq, k, d);
    BeginKeeps(sq, k, 0.0, 0.0);
    var m := BeginBlock(k);
    LegParts(sq, w, q, w.i + 1, m);
    SameTime(w.accs[w.i + 1], m.e.piece.End() - m.e.t, d);
    BudgetOf(m, d);
    RunThrough(sq, m, d);
    StandsStill(sq, Finished(m), 0.0);
    FinishedSpeed(m);
  }

  lemma HoldGoesOn(sq: real -> real, w: Rise, q: seq<Block>, h: Machine, r: Machine)
    requires IsSqrt(sq) && RiseOk(w) && LegsPlanned(sq, w, q) && Together(sq, w, q, w.i, h, r)
    ensures Advance(sq, h, Left(w, w.i)).e.v > 0.0
  {
    hide Entering, Top, Prod, Sqr, PathOf, PlanInv, ExecInv, Advance, LegPlanned, Left, Limit, Laden, StopDistance, StopTime,
         Stays, Speed;
    var i := w.i;
    var a, v, dt := w.accs[i], Entering(w, i), Left(w, i);
    LegParts(sq, w, q, i, h);
    LegSpeeds(w, i);
    LastLeft(w);
    PeakSquared(w);
    BrakesToEnd(v, a, h.p.q[0].path.length - h.e.s, dt);
    StaysHere(sq, h, dt);
    StaysAtSpeed(sq, h, dt);
    SpeedIs(v, a, dt);
  }

  lemma PeakSquared(w: Rise)
    requires RiseOk(w)
    ensures 2.0 * Sqr(Top(w, w.i)) - Sqr(Entering(w, w.i)) - Sqr(Entering(w, w.i + 1)) == Sqr(Entering(w, w.i))
  {
    hide Slow, Fast, Ratio;
    RatioIs(w);
    Speeds(Ratio(w));
  }

  lemma BrakesToEnd(v: real, a: real, rem: real, dt: real)
    requires a > 0.0 && 2.0 * Prod(a, rem) == Sqr(v) && Prod(a, dt) < v
    ensures StopDistance(v, a) == rem && StopTime(v, a) > dt
  {
    Divides(v * v, 2.0 * a);
    Divides(v, a);
    SameTime(a, StopDistance(v, a), rem);
    Quicker(a, dt, StopTime(v, a));
  }

  lemma StaysHere(sq: real -> real, h: Machine, dt: real)
    requires Shape(h) && h.e.cur && StopDistance(h.e.v, h.p.q[0].path.accel) <= h.p.q[0].path.length - h.e.s
    ensures Stays(sq, h, dt)
  {
  }

  // ─── Exactly when ──────────────────────────────────────────────────────────

  /** The queue up to its first event, or its end, is blocks of these accelerations. */
  predicate Queued(q: seq<Block>, accs: seq<real>) {
    && |accs| <= |q| && (|accs| == |q| || q[|accs|].kind.Event?)
    && forall j :: 0 <= j < |accs| ==> !q[j].kind.Event? && q[j].path.accel == accs[j]
  }

  predicate NeverRises(accs: seq<real>) { forall j :: 0 < j < |accs| ==> accs[j] <= accs[j - 1] }

  /** With dt gone and no offer come due, the run is at rest and a hold begun with it is not. */
  predicate HoldLate(sq: real -> real, y: System, dt: real)
    requires Shape(y.m)
  {
    && y.m.e.mode.Running? && Budget(y.m, dt) && Advance(sq, y.m, dt).e.v == 0.0
    && Advance(sq, y.m.(e := HoldExec(y.m.e)), dt).e.v > 0.0
  }

  /** Some clean reachable state with this queue, and some instant after it, at which it is. */
  ghost predicate CanBeLate(sq: real -> real, accs: seq<real>) {
    exists y: System, dt: real ::
      Reached(sq, y) && !y.dirty && Shape(y.m) && Queued(y.m.p.q, accs) && HoldLate(sq, y, dt)
  }

  lemma {:induction false} FallsIsEasing(q: seq<Block>, accs: seq<real>, a: real)
    requires Queued(q, accs) && NeverRises(accs) && (accs != [] ==> accs[0] <= a)
    ensures Easing(q, a)
    decreases |q|
  {
    if accs != [] { FallsIsEasing(q[1..], accs[1..], accs[0]); }
  }

  lemma FallsNotLate(sq: real -> real, accs: seq<real>)
    requires IsSqrt(sq) && NeverRises(accs) && forall j :: 0 <= j < |accs| ==> accs[j] > 0.0
    ensures !CanBeLate(sq, accs)
  {
    hide Reached, HoldLate, NeverRises, Queued, Easing;
    forall y: System, dt: real | Reached(sq, y) && !y.dirty && Shape(y.m) && Queued(y.m.p.q, accs)
      ensures !HoldLate(sq, y, dt)
    {
      var a := if accs == [] then 0.0 else accs[0];
      FallsIsEasing(y.m.p.q, accs, a);
      NotLate(sq, y, dt, a);
    }
  }

  lemma NotLate(sq: real -> real, y: System, dt: real, a: real)
    requires IsSqrt(sq) && Reached(sq, y) && !y.dirty && Shape(y.m) && a >= 0.0 && Easing(y.m.p.q, a)
    ensures !HoldLate(sq, y, dt)
  {
    hide Reached, Advance, Easing, Budget;
    HoldNoFaster(sq, y, dt, a);
  }

  lemma RiseIsLate(sq: real -> real, w: Rise)
    requires IsSqrt(sq) && RiseOk(w)
    ensures CanBeLate(sq, w.accs)
  {
    hide Reached, OnLeg, LegsPlanned, Advance, Left, Good, Budget, Entering, Top, Laden;
    var y, q := Reaches(sq, w);
    var h := y.m.(e := HoldExec(y.m.e));
    ReachedSafe(sq, y);
    HoldIsGood(sq, y);
    RunIsGood(sq, y);
    InHoldGood(sq, h);
    AtTheStart(sq, w, q, y.m);
    LeftPositive(w, 0);
    BudgetOf(y.m, Left(w, 0));
    Ride(sq, w, q, 0, h, y.m);
    assert HoldLate(sq, y, Left(w, 0));
  }

  lemma AtTheStart(sq: real -> real, w: Rise, q: seq<Block>, m: Machine)
    requires RiseOk(w) && LegsPlanned(sq, w, q) && OnLeg(w, q, 0, m) && m.e.mode.Running?
    ensures Queued(m.p.q, w.accs) && OnLeg(w, q, 0, m.(e := HoldExec(m.e))) && m.e.cur && m.p.staged.None?
  {
    hide Entering, Top, Prod, Sqr, PathOf;
    Accels(w, q);
    assert q[0..] == q;
  }

  /** A hold can come to rest after the run it replaces if and only if the accelerations queued up to the next event rise
      somewhere. */
  lemma LateExactly(sq: real -> real, accs: seq<real>)
    requires IsSqrt(sq) && |accs| <= RING_SIZE && forall j :: 0 <= j < |accs| ==> accs[j] > 0.0
    ensures CanBeLate(sq, accs) <==> !NeverRises(accs)
  {
    hide CanBeLate;
    if NeverRises(accs) {
      FallsNotLate(sq, accs);
    } else {
      var j :| 0 < j < |accs| && accs[j] > accs[j - 1];
      RiseIsLate(sq, Rise(accs, j - 1));
    }
  }
}
