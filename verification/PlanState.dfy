/** The planner's state as a value, and what each of its operations does to it (lib/planner/planner.cpp).
    A plan whose epoch is stale is no plan: every operation that bumps the source's epoch drops it here. */
module PlanStates {
  import opened Arithmetic
  import opened Trapezoids
  import opened Kinematics
  import opened Paths
  import opened LookAhead

  const RING_SIZE: nat := 64

  /** A profile from `t0` seconds after the claim, starting `s0` into the block. */
  datatype Piece = Piece(t0: real, s0: real, profile: Trapezoid) {
    function End(): real { t0 + profile.Duration() }
    /** Position in the block, and speed, at block time `t`. */
    function At(t: real): real { s0 + profile.Position(t - t0) }
    function SpeedAt(t: real): real { profile.Velocity(t - t0) }
  }

  /** An offer to the claimed block: the piece, and the exit it raises the block to. */
  datatype Raise = Raise(piece: Piece, exitSqr: real)

  /** replan()'s output: refused near a switch, or speeds for the unclaimed blocks. */
  datatype Plan = Wait | Ready(raise: Option<Raise>, blocks: seq<Block>)

  datatype PlanState = PlanState(
    q: seq<Block>, claimed: bool, pinned: real, ahead: real, guard: real,
    run: Piece, offer: Option<Piece>, staged: Option<Piece>, plan: Option<Plan>)
  {
    function Unclaimed(): seq<Block> { if claimed && q != [] then q[1..] else q }
    /** The piece the claimed block will end on. */
    function Effective(): Piece { if offer.Some? then offer.value else run }
    function Full(): bool { |q| == RING_SIZE }
  }

  // ─── The operations ────────────────────────────────────────────────────────

  function Reset(p: PlanState): PlanState {
    p.(q := [], claimed := false, pinned := 0.0, offer := None, staged := None, plan := None)
  }

  function NewBlock(sq: real -> real, p: PlanState, kind: Kind, tag: int, path: Path, s0: real, deviation: real): Block
    requires path.accel > 0.0
  {
    var rest := kind.Event? || p.q == [] || p.q[|p.q| - 1].kind.Event?;
    var maxEntry := if rest then 0.0 else JunctionMaxSqr(sq, p.q[|p.q| - 1].path, path, deviation);
    Block(kind, tag, path, s0, maxEntry, 0.0, 0.0, ProfileOf(sq, path, 0.0, 0.0))
  }

  function PushBlock(sq: real -> real, p: PlanState, kind: Kind, tag: int, path: Path, s0: real, deviation: real): PlanState
    requires path.accel > 0.0
  {
    p.(q := p.q + [NewBlock(sq, p, kind, tag, path, s0, deviation)], plan := None)
  }

  function PushLine(sq: real -> real, p: PlanState, tag: int, path: Path, deviation: real): (PlanState, bool)
    requires path.accel > 0.0
  {
    if p.Full() then (p, false) else (PushBlock(sq, p, Line, tag, path, 0.0, deviation), true)
  }

  /** What a target comes to from where the queue ends: nothing to move, axes that cannot move together, a line without
      length, a turn of A its limits do not allow, or a path. */
  datatype Move = NoAxis | MixedAxes | NoLength | Unlimited | Along(path: Path)

  function PushMove(sq: real -> real, p: PlanState, tag: int, move: Move, deviation: real): (PlanState, bool)
    requires move.Along? ==> move.path.accel > 0.0
  {
    match move
    case NoAxis => (p, true)
    case MixedAxes => (p, false)
    case NoLength => (p, !p.Full())
    case Unlimited => (p, false)
    case Along(path) => PushLine(sq, p, tag, path, deviation)
  }

  /** A curve from `from` along it; `dir` is its tangent there. */
  function PushCurve(sq: real -> real, p: PlanState, tag: int, path: Path, from: real, dir: Vec2, deviation: real): (PlanState, bool)
    requires path.accel > 0.0
  {
    if p.Full() then (p, false)
    else if from <= 0.0 then (PushBlock(sq, p, Curve, tag, path, 0.0, deviation), true)
    else if from >= path.length then (p, true)
    else (PushBlock(sq, p, Curve, tag, path.(length := path.length - from, dirStart := dir), from, deviation), true)
  }

  /** An event takes no room; its acceleration is never used. */
  const EVENT_PATH := Path(NoAxes, 0.0, 1.0, 0.0, Vec2(0.0, 0.0), Vec2(0.0, 0.0), 0.0, 0.0, None)

  function PushEvent(sq: real -> real, p: PlanState, tag: int): (PlanState, bool) {
    if p.Full() then (p, false) else (PushBlock(sq, p, Event, tag, EVENT_PATH, 0.0, 0.0), true)
  }

  /** Where in the claimed block a new plan may take over. */
  datatype Horizon = NoHorizon | TooClose | At(t: real, s: real, vSqr: real)

  function HorizonAt(p: PlanState, t: real): Horizon {
    if !p.claimed then NoHorizon
    else if p.offer.Some? && t < p.offer.value.t0 then
      var o := p.offer.value;
      if t + p.guard >= o.t0 then TooClose else At(o.t0, o.s0, Sqr(o.profile.vEntry))
    else
      var base := p.Effective();
      var th := t + p.ahead;
      if th < base.End() then At(th, base.At(th), Sqr(base.SpeedAt(th))) else NoHorizon
  }

  /** The offer, if the rest of the claimed block can end faster than it is committed to. */
  function RaiseAt(sq: real -> real, p: PlanState, h: Horizon): Option<Raise>
    requires h.At? ==> p.claimed && p.q != [] && p.q[0].path.accel > 0.0
  {
    if !h.At? then None
    else
      var c := p.q[0];
      var rest := c.path.length - h.s;
      var exitSqr := Min(Min(ReverseEntry(p.Unclaimed()), c.path.vMaxSqr), Reach(h.vSqr, c.path.accel, Max(rest, 0.0)));
      if rest > 0.0 && exitSqr > c.exitSqr * 1.00001 + 0.000001
      then Some(Raise(Piece(h.t, h.s, Make(sq, rest, c.path.accel, h.vSqr, c.path.vMaxSqr, exitSqr)), exitSqr))
      else None
  }

  function Replan(sq: real -> real, p: PlanState, t: real): PlanState
    requires p.claimed ==> p.q != []
    requires forall i :: 0 <= i < |p.q| ==> p.q[i].path.accel > 0.0
  {
    var h := HorizonAt(p, t);
    if h.TooClose? then p.(plan := Some(Wait))
    else
      var raise := RaiseAt(sq, p, h);
      var entry := if raise.Some? then raise.value.exitSqr else p.pinned;
      p.(plan := Some(Ready(raise, Planned(sq, p.Unclaimed(), entry))))
  }

  function Accepts(p: PlanState, t: real): bool {
    p.plan.Some? && p.plan.value.Ready? &&
    (p.plan.value.raise.Some? ==> p.staged.None? && t + p.guard < p.plan.value.raise.value.piece.t0)
  }

  function Commit(p: PlanState, t: real): PlanState
    requires p.claimed ==> p.q != []
  {
    if !Accepts(p, t) then p.(plan := None)
    else
      var plan := p.plan.value;
      if plan.raise.Some? && p.claimed then
        var r := plan.raise.value;
        p.(q := [p.q[0].(exitSqr := r.exitSqr)] + plan.blocks, pinned := r.exitSqr,
           offer := Some(r.piece), staged := Some(r.piece), plan := None)
      else
        p.(q := (if p.claimed then [p.q[0]] else []) + plan.blocks, plan := None)
  }

  function Claim(p: PlanState): PlanState {
    if p.claimed || p.q == [] then p
    else p.(claimed := true, pinned := p.q[0].exitSqr, run := Piece(0.0, 0.0, p.q[0].profile),
            offer := None, staged := None, plan := None)
  }

  function Release(p: PlanState): PlanState {
    if !p.claimed || p.q == [] then p
    else p.(q := p.q[1..], claimed := false, offer := None, staged := None, plan := None)
  }

  function TakeStaged(p: PlanState): PlanState { p.(staged := None) }

  /** The blocks pushed since `mark` go before the oldest. */
  function EndFront(p: PlanState, mark: nat): PlanState
    requires mark <= |p.q|
  {
    if mark == |p.q| then p.(plan := None)
    else p.(q := [p.q[mark].(maxEntry := 0.0)] + p.q[mark + 1..] + p.q[..mark], plan := None)
  }

  /** The claimed block, `s` into it, after a stop: kept whole, dropped when done, or trimmed. */
  function Trimmed(p: PlanState, s: real): seq<Block> {
    if !p.claimed || p.q == [] || p.q[0].kind.Event? then p.q
    else if s >= p.q[0].path.length then p.q[1..]
    else if s > 0.0 then
      [p.q[0].(s0 := p.q[0].s0 + s, path := p.q[0].path.(length := p.q[0].path.length - s))] + p.q[1..]
    else p.q
  }

  function Restart(sq: real -> real, p: PlanState, s: real): PlanState
    requires forall i :: 0 <= i < |p.q| ==> p.q[i].path.accel > 0.0
  {
    var q := Trimmed(p, s);
    p.(q := (if q == [] then [] else [WithSpeeds(sq, q[0].(maxEntry := 0.0), 0.0, 0.0)] + q[1..]),
       claimed := false, pinned := 0.0, offer := None, staged := None, plan := None)
  }

  // ─── The invariant ─────────────────────────────────────────────────────────

  /** A sound profile over the rest of the block. */
  predicate PieceOn(b: Block, x: Piece) {
    && Sound(x.profile) && x.t0 >= 0.0 && x.s0 >= 0.0
    && x.s0 + x.profile.length == b.path.length
    && x.profile.accel == b.path.accel
    && Sqr(x.profile.vCruise) <= b.path.vMaxSqr
  }

  predicate SameStart(x: Piece, y: Piece) {
    x.t0 == y.t0 && x.s0 == y.s0 && x.profile.vEntry == y.profile.vEntry
  }

  /** `y` takes over from `x` while `x` still runs, exactly where and as fast as `x` then is. */
  predicate TakesOver(x: Piece, y: Piece) {
    x.t0 <= y.t0 < x.End() && y.s0 == x.At(y.t0) && y.profile.vEntry == x.SpeedAt(y.t0)
  }

  predicate RaiseOk(p: PlanState, r: Raise) {
    && p.claimed && p.q != [] && !p.q[0].kind.Event?
    && PieceOn(p.q[0], r.piece) && r.piece.profile.length > 0.0
    && Sqr(r.piece.profile.vExit) == r.exitSqr
    && p.q[0].exitSqr <= r.exitSqr <= ReverseEntry(p.Unclaimed())
    && (if p.offer.Some? && SameStart(p.offer.value, r.piece) then true else TakesOver(p.Effective(), r.piece))
  }

  predicate PlanOk(sq: real -> real, p: PlanState)
    requires RouteOk(p.q)
  {
    p.plan.Some? && p.plan.value.Ready? ==>
      var Ready(raise, blocks) := p.plan.value;
      && (raise.Some? ==> RaiseOk(p, raise.value))
      && RouteOk(p.Unclaimed())
      && blocks == Planned(sq, p.Unclaimed(), if raise.Some? then raise.value.exitSqr else p.pinned)
  }

  /** The running block: its effective piece ends at the speed the next block enters at. */
  predicate ClaimOk(p: PlanState) {
    && p.q != []
    && p.run.t0 == 0.0 && p.run.s0 == 0.0
    && PieceOn(p.q[0], p.Effective())
    && Sqr(p.Effective().profile.vExit) == p.pinned == p.q[0].exitSqr
    && (p.q[0].kind.Event? ==> p.offer.None? && p.run.profile.Duration() == 0.0)
    && (!p.q[0].kind.Event? ==> p.Effective().profile.length > 0.0)
  }

  /** planner.h's invariants. Between a restart and the next commit (`dirty`) the chain of committed
      speeds may be broken, with nothing claimed and the machine at rest. */
  predicate PlanInv(sq: real -> real, p: PlanState, dirty: bool) {
    && |p.q| <= RING_SIZE && RouteOk(p.q) && p.ahead >= 0.0 && p.guard >= 0.0
    && (p.claimed ==> ClaimOk(p))
    && (!p.claimed ==> p.offer.None?)
    && (p.staged.Some? ==> p.staged == p.offer)
    && (if dirty then !p.claimed && p.pinned == 0.0 && (p.q != [] ==> p.q[0].maxEntry == 0.0)
        else Chain(p.Unclaimed(), p.pinned) && Profiled(sq, p.Unclaimed()))
    && PlanOk(sq, p)
  }

  // ─── Every operation keeps it ──────────────────────────────────────────────

  lemma RouteUnclaimed(p: PlanState)
    requires RouteOk(p.q)
    ensures RouteOk(p.Unclaimed())
  {
    if p.claimed && p.q != [] { RouteTail(p.q); }
  }

  /** The entry the next plan starts from is one the unclaimed blocks can stop from. */
  lemma PinnedCanStop(sq: real -> real, p: PlanState, dirty: bool)
    requires PlanInv(sq, p, dirty)
    ensures 0.0 <= p.pinned <= ReverseEntry(p.Unclaimed())
  {
    hide Profiled, PlanOk, PieceOn;
    RouteUnclaimed(p);
    ReverseInRange(p.Unclaimed());
    if !dirty {
      ChainJoins(p.Unclaimed(), p.pinned);
      ChainBelowReverse(p.Unclaimed(), p.pinned);
    }
  }

  lemma ResetKeeps(sq: real -> real, p: PlanState, dirty: bool)
    requires PlanInv(sq, p, dirty)
    ensures PlanInv(sq, Reset(p), false)
  {
    hide PieceOn, Sqr, Planned, ReverseEntry;
  }

  lemma PushKeepsRoute(q: seq<Block>, b: Block)
    requires RouteOk(q) && BlockOk(b) && (q != [] ==> b.maxEntry <= q[|q| - 1].path.vMaxSqr)
    ensures RouteOk(q + [b])
  {
  }

  predicate Queueable(kind: Kind, path: Path) {
    if kind.Event? then path == EVENT_PATH else PathOk(path)
  }

  lemma NewBlockOk(sq: real -> real, p: PlanState, kind: Kind, tag: int, path: Path, s0: real, deviation: real)
    requires IsSqrt(sq) && RouteOk(p.q) && Queueable(kind, path) && deviation >= 0.0
    ensures var b := NewBlock(sq, p, kind, tag, path, s0, deviation);
      && BlockOk(b) && (p.q != [] ==> b.maxEntry <= p.q[|p.q| - 1].path.vMaxSqr)
      && b.entrySqr == 0.0 && b.exitSqr == 0.0 && b.profile == ProfileOf(sq, path, 0.0, 0.0) && b.path == path
      && (p.q == [] ==> b.maxEntry == 0.0)
  {
    hide ProfileOf, JunctionMaxSqr;
    if p.q != [] && !kind.Event? { JunctionInRange(sq, p.q[|p.q| - 1].path, path, deviation); }
  }

  lemma PushKeeps(sq: real -> real, p: PlanState, dirty: bool, kind: Kind, tag: int, path: Path, s0: real, deviation: real)
    requires IsSqrt(sq) && PlanInv(sq, p, dirty) && !p.Full()
    requires Queueable(kind, path) && deviation >= 0.0
    ensures PlanInv(sq, PushBlock(sq, p, kind, tag, path, s0, deviation), dirty)
  {
    hide PlanInv, NewBlock, RouteOk, BlockOk;
    PlanRoute(sq, p, dirty);
    NewBlockOk(sq, p, kind, tag, path, s0, deviation);
    Appended(sq, p, dirty, NewBlock(sq, p, kind, tag, path, s0, deviation));
  }

  lemma PlanRoute(sq: real -> real, p: PlanState, dirty: bool)
    requires PlanInv(sq, p, dirty)
    ensures RouteOk(p.q)
  {
    hide RouteOk, ClaimOk, Chain, Profiled, PlanOk;
  }

  /** A block at rest, appended, leaves a plan that was committed still one, and drops one that was not. */
  lemma Appended(sq: real -> real, p: PlanState, dirty: bool, b: Block)
    requires PlanInv(sq, p, dirty) && !p.Full() && BlockOk(b) && (p.q != [] ==> b.maxEntry <= p.q[|p.q| - 1].path.vMaxSqr)
    requires b.entrySqr == 0.0 && b.exitSqr == 0.0 && b.profile == ProfileOf(sq, b.path, 0.0, 0.0)
    requires p.q == [] ==> b.maxEntry == 0.0
    ensures PlanInv(sq, p.(q := p.q + [b], plan := None), dirty)
  {
    hide ProfileOf, RouteOk, Chain, Profiled, ClaimOk, BlockOk, RaiseOk, Planned;
    var r := p.(q := p.q + [b], plan := None);
    PushKeepsRoute(p.q, b);
    BlockAccel(b);
    if p.claimed {
      ClaimQueue(p);
      ClaimFrame(p, r);
    }
    assert r.Unclaimed() == p.Unclaimed() + [b];
    if !dirty {
      ProfiledSnoc(sq, p.Unclaimed(), b);
      PushKeepsChain(p.Unclaimed(), p.pinned, b);
    }
  }

  lemma BlockAccel(b: Block)
    requires BlockOk(b)
    ensures b.path.accel > 0.0
  {
  }

  lemma ClaimQueue(p: PlanState)
    requires ClaimOk(p)
    ensures p.q != []
  {
  }

  lemma ClaimFrame(p: PlanState, r: PlanState)
    requires ClaimOk(p) && r.q != [] && r.q[0] == p.q[0]
    requires r.run == p.run && r.offer == p.offer && r.pinned == p.pinned
    ensures ClaimOk(r)
  {
  }

  lemma ProfiledSnoc(sq: real -> real, q: seq<Block>, b: Block)
    requires Profiled(sq, q) && b.path.accel > 0.0 && b.profile == ProfileOf(sq, b.path, b.entrySqr, b.exitSqr)
    ensures Profiled(sq, q + [b])
  {
    hide ProfileOf;
  }

  /** An event's profile takes no time. */
  lemma EventStill(sq: real -> real, a: real)
    requires IsSqrt(sq) && a > 0.0
    ensures Make(sq, 0.0, a, 0.0, 0.0, 0.0).Duration() == 0.0
  {
    SqrtOfSquare(sq, 0.0);
    assert a * 0.0 == 0.0;
  }

  lemma FreshPiece(sq: real -> real, b: Block)
    requires IsSqrt(sq) && BlockOk(b)
    requires Feasible(b.path.length, b.path.accel, b.entrySqr, b.path.vMaxSqr, b.exitSqr)
    requires b.profile == ProfileOf(sq, b.path, b.entrySqr, b.exitSqr)
    ensures PieceOn(b, Piece(0.0, 0.0, b.profile))
    ensures Sqr(b.profile.vExit) == b.exitSqr && Sqr(b.profile.vEntry) == b.entrySqr
    ensures b.profile.vExit == sq(b.exitSqr) && b.profile.vEntry == sq(b.entrySqr)
    ensures b.kind.Event? ==> b.profile.Duration() == 0.0
  {
    MakeExact(sq, b.path.length, b.path.accel, b.entrySqr, b.path.vMaxSqr, b.exitSqr);
    EventStill(sq, b.path.accel);
    hide Make, Sound, Sqr, Reach;
  }

  lemma ClaimKeeps(sq: real -> real, p: PlanState)
    requires IsSqrt(sq) && PlanInv(sq, p, false)
    ensures PlanInv(sq, Claim(p), false)
  {
    if !p.claimed && p.q != [] {
      FreshPiece(sq, p.q[0]);
      hide PieceOn, Sqr, Planned, ReverseEntry, ProfileOf;
      assert p.Unclaimed() == p.q;
      assert Claim(p).Unclaimed() == p.q[1..];
    }
  }

  lemma ReleaseKeeps(sq: real -> real, p: PlanState)
    requires PlanInv(sq, p, false) && p.claimed
    ensures PlanInv(sq, Release(p), false)
  {
    hide PieceOn, Sqr, Planned, ReverseEntry, ProfileOf, Chain, BlockOk;
    RouteTail(p.q);
    assert Release(p).Unclaimed() == p.Unclaimed() == p.q[1..];
  }

  lemma TakeKeeps(sq: real -> real, p: PlanState, dirty: bool)
    requires PlanInv(sq, p, dirty)
    ensures PlanInv(sq, TakeStaged(p), dirty)
  {
    hide PieceOn, Sqr, Planned, ReverseEntry, ProfileOf, Chain, BlockOk, RouteOk, SameStart, TakesOver;
    assert TakeStaged(p).Unclaimed() == p.Unclaimed();
  }

  lemma EndFrontKeeps(sq: real -> real, p: PlanState, mark: nat)
    requires PlanInv(sq, p, true) && mark <= |p.q|
    ensures PlanInv(sq, EndFront(p, mark), true)
  {
    hide Planned, ReverseEntry, ProfileOf, Chain;
  }

  lemma RestartRoute(sq: real -> real, p: PlanState, s: real)
    requires RouteOk(p.q)
    ensures RouteOk(Trimmed(p, s)) && |Trimmed(p, s)| <= |p.q|
  {
    if p.q != [] { RouteTail(p.q); }
  }

  lemma RestRoute(sq: real -> real, q: seq<Block>)
    requires RouteOk(q) && q != []
    ensures RouteOk([WithSpeeds(sq, q[0].(maxEntry := 0.0), 0.0, 0.0)] + q[1..])
  {
    hide ProfileOf;
  }

  lemma RestartKeeps(sq: real -> real, p: PlanState, dirty: bool, s: real)
    requires PlanInv(sq, p, dirty)
    ensures PlanInv(sq, Restart(sq, p, s), true)
  {
    RestartRoute(sq, p, s);
    if Trimmed(p, s) != [] { RestRoute(sq, Trimmed(p, s)); }
    hide Planned, ReverseEntry, ProfileOf, Chain, PieceOn, RouteOk, Trimmed, BlockOk, Profiled, Sqr;
  }

  /** Every surviving block keeps its end: what a restart trims is what was run. */
  lemma RestartKeepsEnds(sq: real -> real, p: PlanState, dirty: bool, s: real)
    requires PlanInv(sq, p, dirty) && s >= 0.0
    ensures var q := Restart(sq, p, s).q; var gone := |p.q| - |q|;
      && 0 <= gone <= 1
      && (gone == 1 ==> p.claimed && !p.q[0].kind.Event? && s >= p.q[0].path.length)
      && forall i :: 0 <= i < |q| ==>
           && q[i].tag == p.q[gone + i].tag && q[i].kind == p.q[gone + i].kind
           && q[i].s0 + q[i].path.length == p.q[gone + i].s0 + p.q[gone + i].path.length
           && q[i].s0 == p.q[gone + i].s0 + (if i == 0 && gone == 0 && p.claimed && !p.q[0].kind.Event? then s else 0.0)
  {
    hide Planned, ReverseEntry, ProfileOf, Chain, PieceOn;
  }

  // ─── Replan and commit ─────────────────────────────────────────────────────

  lemma ReachGrowsSqr(x: real, y: real, a: real, s: real)
    requires x <= y
    ensures Reach(x, a, s) <= Reach(y, a, s)
  {
  }

  /** A horizon is a point of the running block's motion, no faster than the block can still brake from. */
  lemma HorizonOk(p: PlanState, t: real)
    requires RouteOk(p.q) && p.claimed && ClaimOk(p) && !p.q[0].kind.Event? && p.ahead >= 0.0 && t >= 0.0
    requires HorizonAt(p, t).At?
    ensures var h := HorizonAt(p, t); var v := if p.offer.Some? && t < p.offer.value.t0 then p.offer.value.profile.vEntry
                                               else p.Effective().SpeedAt(h.t);
      && h.t >= 0.0 && 0.0 <= h.s && v >= 0.0 && h.vSqr == Sqr(v) && 0.0 <= h.vSqr <= p.q[0].path.vMaxSqr
      && h.vSqr <= Reach(p.pinned, p.q[0].path.accel, p.q[0].path.length - h.s)
      && (p.offer.Some? && t < p.offer.value.t0 ==> h.t == p.offer.value.t0 && h.s == p.offer.value.s0)
      && (!(p.offer.Some? && t < p.offer.value.t0) ==>
            p.Effective().t0 <= h.t < p.Effective().End() && h.s == p.Effective().At(h.t))
  {
    hide Sqr, Reach, Trapezoid.Position, Trapezoid.Velocity;
    var h := HorizonAt(p, t);
    var base := p.Effective();
    SoundParts(base.profile);
    var u := if p.offer.Some? && t < p.offer.value.t0 then 0.0 else h.t - base.t0;
    Ends(base.profile);
    InRange(base.profile, u);
    Energy(base.profile, u);
    SqrGrows(base.profile.Velocity(u), base.profile.vCruise);
  }

  lemma RaiseSound(sq: real -> real, p: PlanState, t: real)
    requires IsSqrt(sq) && PlanInv(sq, p, false) && p.claimed && t >= 0.0
    requires var h := HorizonAt(p, t); h.At? && RaiseAt(sq, p, h).Some?
    ensures RaiseOk(p, RaiseAt(sq, p, HorizonAt(p, t)).value)
    ensures p.offer.Some? && t < p.offer.value.t0 ==>
      SameStart(p.offer.value, RaiseAt(sq, p, HorizonAt(p, t)).value.piece)
  {
    var h := HorizonAt(p, t);
    var c := p.q[0];
    if c.kind.Event? {
      assert false;
    }
    HorizonOk(p, t);
    hide Sqr, Reach, Trapezoid.Position, Trapezoid.Velocity, Make, Sound, Chain, Profiled, PlanOk;
    RouteUnclaimed(p);
    var r := RaiseAt(sq, p, h).value;
    var rest := c.path.length - h.s;
    ReachGrowsSqr(p.pinned, r.exitSqr, c.path.accel, rest);
    MakeExact(sq, rest, c.path.accel, h.vSqr, c.path.vMaxSqr, r.exitSqr);
    RootOf(sq, h.vSqr, if p.offer.Some? && t < p.offer.value.t0 then p.offer.value.profile.vEntry
                       else p.Effective().SpeedAt(h.t));
  }

  lemma RootOf(sq: real -> real, sqr: real, v: real)
    requires IsSqrt(sq) && v >= 0.0 && sqr == Sqr(v)
    ensures sq(sqr) == v
  {
    SqrtOfSquare(sq, v);
  }

  lemma ReplanKeeps(sq: real -> real, p: PlanState, dirty: bool, t: real)
    requires IsSqrt(sq) && PlanInv(sq, p, dirty) && t >= 0.0
    ensures PlanInv(sq, Replan(sq, p, t), dirty)
  {
    var h := HorizonAt(p, t);
    RouteUnclaimed(p);
    if h.At? && RaiseAt(sq, p, h).Some? { RaiseSound(sq, p, t); }
    hide Planned, ReverseEntry, ProfileOf, Chain, PieceOn, Sqr, RaiseAt, HorizonAt, SameStart, TakesOver;
    assert Replan(sq, p, t).Unclaimed() == p.Unclaimed();
  }

  lemma PlannedRoute(q: seq<Block>, claimed: bool, exitSqr: real, blocks: seq<Block>)
    requires RouteOk(q) && (claimed ==> q != [])
    requires SameRoute(if claimed then q[1..] else q, blocks)
    ensures RouteOk((if claimed then [q[0].(exitSqr := exitSqr)] else []) + blocks)
  {
    hide PathOk;
    var r := (if claimed then [q[0].(exitSqr := exitSqr)] else []) + blocks;
    forall i | 0 <= i < |q|
      ensures r[i].kind == q[i].kind && r[i].path == q[i].path && r[i].maxEntry == q[i].maxEntry
    {
      if claimed && i > 0 { assert q[i] == q[1..][i - 1] && r[i] == blocks[i - 1]; }
    }
  }

  /** What a plan that may be committed holds. */
  lemma PlanParts(sq: real -> real, p: PlanState, dirty: bool)
    requires PlanInv(sq, p, dirty) && p.plan.Some? && p.plan.value.Ready?
    ensures var Ready(raise, blocks) := p.plan.value;
      var entry := if raise.Some? then raise.value.exitSqr else p.pinned;
      && RouteOk(p.q) && RouteOk(p.Unclaimed()) && blocks == Planned(sq, p.Unclaimed(), entry)
      && 0.0 <= entry <= ReverseEntry(p.Unclaimed())
      && (raise.Some? ==> RaiseOk(p, raise.value))
  {
    hide Planned, ReverseEntry, Chain, Profiled, ClaimOk, PieceOn, Sqr, TakesOver, SameStart, BlockOk;
    PinnedCanStop(sq, p, dirty);
    if p.claimed { ClaimExit(p); }
  }

  lemma ClaimExit(p: PlanState)
    requires ClaimOk(p)
    ensures p.q != [] && p.pinned == p.q[0].exitSqr
  {
  }

  /** After any commit the committed speeds are a feasible plan again, joined to the block that runs. */
  lemma CommitKeeps(sq: real -> real, p: PlanState, dirty: bool, t: real)
    requires IsSqrt(sq) && PlanInv(sq, p, dirty)
    ensures PlanInv(sq, Commit(p, t), dirty && !Accepts(p, t))
  {
    hide Planned, ReverseEntry, ProfileOf, Chain, Sqr, RouteOk, SameRoute, Sound, SameStart, TakesOver, Profiled, PieceOn, BlockOk;
    if Accepts(p, t) {
      var Ready(raise, blocks) := p.plan.value;
      PlanParts(sq, p, dirty);
      PlannedChain(sq, p.Unclaimed(), if raise.Some? then raise.value.exitSqr else p.pinned);
      var r := Commit(p, t);
      PlannedRoute(p.q, p.claimed, if p.claimed then r.q[0].exitSqr else 0.0, blocks);
      assert r.Unclaimed() == blocks;
      if p.claimed { PieceFrame(p.q[0], r.q[0], r.Effective()); }
    }
  }

  lemma PieceFrame(b: Block, c: Block, x: Piece)
    requires b.path == c.path
    ensures PieceOn(b, x) == PieceOn(c, x)
  {
  }
}
