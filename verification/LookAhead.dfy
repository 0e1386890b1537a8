/** The two passes over squared speeds (lib/planner/planner.cpp, Planner::replan), as functions of the queue. */
module LookAhead {
  import opened Arithmetic
  import opened Trapezoids
  import opened Kinematics
  import opened Paths

  datatype Kind = Line | Curve | Event

  /** `tag` stands for everything that names the block: its record, event code, end points. */
  datatype Block = Block(
    kind: Kind, tag: int, path: Path, s0: real,
    maxEntry: real, entrySqr: real, exitSqr: real, profile: Trapezoid)

  function ProfileOf(sq: real -> real, p: Path, entrySqr: real, exitSqr: real): Trapezoid
    requires p.accel > 0.0
  {
    Make(sq, p.length, p.accel, entrySqr, p.vMaxSqr, exitSqr)
  }

  predicate BlockOk(b: Block) {
    && b.path.accel > 0.0 && b.maxEntry >= 0.0
    && (if b.kind.Event? then b.path.length == 0.0 && b.path.vMaxSqr == 0.0 else PathOk(b.path))
  }

  /** Every block can be planned, and no junction asks more than the block before it may run. */
  predicate RouteOk(q: seq<Block>) {
    && (forall i :: 0 <= i < |q| ==> BlockOk(q[i]))
    && (forall i :: 0 < i < |q| ==> q[i].maxEntry <= q[i - 1].path.vMaxSqr)
  }

  function ReachBlock(b: Block, sqr: real): real { Reach(sqr, b.path.accel, b.path.length) }

  /** Reverse pass: the fastest entry of `q` that can still stop by its end. */
  function ReverseEntry(q: seq<Block>): real {
    if q == [] then 0.0
    else Min(Min(q[0].maxEntry, q[0].path.vMaxSqr), ReachBlock(q[0], ReverseEntry(q[1..])))
  }

  function WithSpeeds(sq: real -> real, b: Block, entrySqr: real, exitSqr: real): Block
    requires b.path.accel > 0.0
  {
    b.(entrySqr := entrySqr, exitSqr := exitSqr, profile := ProfileOf(sq, b.path, entrySqr, exitSqr))
  }

  /** Forward pass: each exit is what the reverse pass allows and the entry can reach. */
  function Planned(sq: real -> real, q: seq<Block>, entry: real): (r: seq<Block>)
    requires forall i :: 0 <= i < |q| ==> q[i].path.accel > 0.0
    ensures |r| == |q|
  {
    if q == [] then []
    else
      var exit := Min(ReverseEntry(q[1..]), ReachBlock(q[0], entry));
      [WithSpeeds(sq, q[0], entry, exit)] + Planned(sq, q[1..], exit)
  }

  /** The committed speeds of `q` join up from `entry` to rest, each block feasible and within its junction cap. */
  predicate Chain(q: seq<Block>, entry: real) {
    if q == [] then entry == 0.0
    else
      && q[0].entrySqr == entry && entry <= q[0].maxEntry
      && Feasible(q[0].path.length, q[0].path.accel, entry, q[0].path.vMaxSqr, q[0].exitSqr)
      && Chain(q[1..], q[0].exitSqr)
  }

  /** The profiles are those of the committed speeds. */
  predicate Profiled(sq: real -> real, q: seq<Block>) {
    forall i :: 0 <= i < |q| ==>
      q[i].path.accel > 0.0 && q[i].profile == ProfileOf(sq, q[i].path, q[i].entrySqr, q[i].exitSqr)
  }

  /** How long the blocks take to run as planned. */
  function TotalTime(q: seq<Block>): real {
    if q == [] then 0.0 else q[0].profile.Duration() + TotalTime(q[1..])
  }

  /** The same blocks, whatever their committed speeds. */
  predicate SameRoute(q: seq<Block>, r: seq<Block>) {
    |q| == |r| && forall i :: 0 <= i < |q| ==>
      q[i].kind == r[i].kind && q[i].tag == r[i].tag && q[i].path == r[i].path && q[i].s0 == r[i].s0
      && q[i].maxEntry == r[i].maxEntry
  }

  lemma RouteTail(q: seq<Block>)
    requires q != [] && RouteOk(q)
    ensures RouteOk(q[1..]) && BlockOk(q[0])
  {
    assert forall i :: 0 < i < |q| - 1 ==> q[1..][i].maxEntry <= q[1..][i - 1].path.vMaxSqr;
  }

  lemma ReachMono(b: Block, x: real, y: real)
    requires x <= y
    ensures ReachBlock(b, x) <= ReachBlock(b, y)
  {
  }

  lemma ReachUp(b: Block, x: real)
    requires BlockOk(b)
    ensures x <= ReachBlock(b, x)
    ensures ReachBlock(b, x) <= ReachBlock(b, ReachBlock(b, x))
  {
    Monotone(b.path.accel, b.path.accel, 0.0, b.path.length);
  }

  lemma {:induction false} ReverseInRange(q: seq<Block>)
    requires RouteOk(q)
    ensures ReverseEntry(q) >= 0.0
  {
    hide ReachBlock;
    if q != [] {
      RouteTail(q);
      ReverseInRange(q[1..]);
      ReachUp(q[0], ReverseEntry(q[1..]));
    }
  }

  /** Any feasible plan enters no faster than the reverse pass allows. */
  lemma {:induction false} ChainBelowReverse(q: seq<Block>, entry: real)
    requires Chain(q, entry)
    ensures entry <= ReverseEntry(q)
  {
    hide Reach;
    if q != [] {
      ChainBelowReverse(q[1..], q[0].exitSqr);
      ReachMono(q[0], q[0].exitSqr, ReverseEntry(q[1..]));
    }
  }

  /** From any entry the reverse pass allows, the two passes give a feasible plan: no profile is ever clamped. */
  lemma {:induction false} PlannedChain(sq: real -> real, q: seq<Block>, entry: real)
    requires RouteOk(q) && 0.0 <= entry <= ReverseEntry(q)
    ensures Chain(Planned(sq, q, entry), entry)
    ensures Profiled(sq, Planned(sq, q, entry)) && SameRoute(q, Planned(sq, q, entry))
  {
    hide Reach, ProfileOf;
    if q != [] {
      RouteTail(q);
      var next := ReverseEntry(q[1..]);
      var exit := Min(next, ReachBlock(q[0], entry));
      ReverseInRange(q[1..]);
      ReachUp(q[0], entry);
      PlannedChain(sq, q[1..], exit);
      var p := Planned(sq, q, entry);
      assert p[1..] == Planned(sq, q[1..], exit);
      if |q| > 1 { assert next <= q[1].maxEntry; }
    }
  }

  /** The plan is the pointwise greatest: no feasible speeds over the same blocks, from no faster an
      entry, are anywhere above it. */
  lemma {:induction false} PlannedGreatest(sq: real -> real, q: seq<Block>, entry: real, other: seq<Block>, otherEntry: real)
    requires RouteOk(q) && SameRoute(q, other) && Chain(other, otherEntry) && otherEntry <= entry
    ensures forall i :: 0 <= i < |q| ==>
      other[i].entrySqr <= Planned(sq, q, entry)[i].entrySqr && other[i].exitSqr <= Planned(sq, q, entry)[i].exitSqr
  {
    hide Reach, ProfileOf;
    if q != [] {
      RouteTail(q);
      var exit := Min(ReverseEntry(q[1..]), ReachBlock(q[0], entry));
      SameReverse(q[1..], other[1..]);
      ChainBelowReverse(other[1..], other[0].exitSqr);
      ReachMono(q[0], otherEntry, entry);
      PlannedGreatest(sq, q[1..], exit, other[1..], other[0].exitSqr);
      var p := Planned(sq, q, entry);
      assert p[1..] == Planned(sq, q[1..], exit);
      forall i | 0 <= i < |q|
        ensures other[i].entrySqr <= p[i].entrySqr && other[i].exitSqr <= p[i].exitSqr
      {
        if i > 0 { assert p[i] == p[1..][i - 1] && other[i] == other[1..][i - 1]; }
      }
    }
  }

  lemma {:induction false} SameReverse(q: seq<Block>, r: seq<Block>)
    requires SameRoute(q, r)
    ensures ReverseEntry(q) == ReverseEntry(r)
  {
    if q != [] { SameReverse(q[1..], r[1..]); }
  }

  /** A block queued at rest joins any plan, which ended at rest. */
  lemma {:induction false} PushKeepsChain(q: seq<Block>, entry: real, b: Block)
    requires Chain(q, entry) && BlockOk(b) && b.entrySqr == 0.0 && b.exitSqr == 0.0
    ensures Chain(q + [b], entry)
  {
    if q == [] {
      ReachUp(b, 0.0);
      assert (q + [b])[1..] == [];
    } else {
      PushKeepsChain(q[1..], q[0].exitSqr, b);
      assert (q + [b])[1..] == q[1..] + [b];
    }
  }

  function EntryAfter(q: seq<Block>, i: nat): real {
    if i + 1 < |q| then q[i + 1].entrySqr else 0.0
  }

  /** What a chain says block by block: each exit is the next entry, and the newest block ends at rest. */
  lemma {:induction false} ChainJoins(q: seq<Block>, entry: real)
    requires Chain(q, entry)
    ensures entry >= 0.0
    ensures forall i :: 0 <= i < |q| ==>
      && 0.0 <= q[i].entrySqr <= q[i].maxEntry
      && Feasible(q[i].path.length, q[i].path.accel, q[i].entrySqr, q[i].path.vMaxSqr, q[i].exitSqr)
      && q[i].exitSqr == EntryAfter(q, i)
    ensures (if q == [] then 0.0 else q[0].entrySqr) == entry
  {
    if q != [] {
      var t := q[1..];
      ChainJoins(t, q[0].exitSqr);
      forall i | 0 < i < |q|
        ensures q[i] == t[i - 1] && EntryAfter(q, i) == EntryAfter(t, i - 1)
      {
      }
    }
  }

  lemma {:induction false} ReverseGrows(q: seq<Block>, b: Block)
    requires RouteOk(q + [b])
    ensures ReverseEntry(q) <= ReverseEntry(q + [b])
  {
    if q == [] {
      assert q + [b] == [b];
      ReverseInRange([b]);
    } else {
      assert (q + [b])[1..] == q[1..] + [b];
      RouteTail(q + [b]);
      ReverseGrows(q[1..], b);
      ReachMono(q[0], ReverseEntry(q[1..]), ReverseEntry(q[1..] + [b]));
    }
  }

  /** Planning again after a push lowers no committed speed. */
  lemma PushOnlyRaises(sq: real -> real, q: seq<Block>, entry: real, b: Block)
    requires Chain(q, entry) && RouteOk(q + [b]) && b.entrySqr == 0.0 && b.exitSqr == 0.0
    ensures forall i :: 0 <= i < |q| ==>
      q[i].entrySqr <= Planned(sq, q + [b], entry)[i].entrySqr && q[i].exitSqr <= Planned(sq, q + [b], entry)[i].exitSqr
  {
    assert BlockOk((q + [b])[|q|]);
    PushKeepsChain(q, entry, b);
    PlannedGreatest(sq, q + [b], entry, q + [b], entry);
    forall i | 0 <= i < |q|
      ensures q[i].entrySqr <= Planned(sq, q + [b], entry)[i].entrySqr
      ensures q[i].exitSqr <= Planned(sq, q + [b], entry)[i].exitSqr
    {
      assert (q + [b])[i] == q[i];
    }
  }
}
