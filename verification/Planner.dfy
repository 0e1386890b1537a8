/** The planner's ring, mutated in place (lib/planner/planner.cpp), each operation proved against PlanStates. */
module PlannerRing {
  import opened Arithmetic
  import opened Trapezoids
  import opened Kinematics
  import opened Paths
  import opened LookAhead
  import opened PlanStates

  function Slot(tail: nat, i: nat): (slot: nat)
    ensures slot < RING_SIZE
  {
    (tail + i) % RING_SIZE
  }

  lemma SlotValue(tail: nat, i: nat)
    requires tail < RING_SIZE && i <= RING_SIZE
    ensures Slot(tail, i) == if tail + i < RING_SIZE then tail + i else tail + i - RING_SIZE
  {
  }

  /** No two positions of the queue share a slot. */
  lemma SlotsDiffer(tail: nat, i: nat, j: nat)
    requires tail < RING_SIZE && i < RING_SIZE && j < RING_SIZE && i != j
    ensures Slot(tail, i) != Slot(tail, j)
  {
    SlotValue(tail, i);
    SlotValue(tail, j);
  }

  lemma SlotNext(tail: nat, i: nat)
    requires tail < RING_SIZE && i < RING_SIZE
    ensures Slot(Slot(tail, 1), i) == Slot(tail, i + 1)
  {
    SlotValue(tail, 1);
    SlotValue(tail, i + 1);
    SlotValue(Slot(tail, 1), i);
  }

  /** The ring read from `tail`. */
  function Unrolled(ring: seq<Block>, tail: nat, count: nat): (q: seq<Block>)
    requires |ring| == RING_SIZE
    ensures |q| == count
  {
    seq(count, i requires 0 <= i < count => ring[Slot(tail, i)])
  }

  /** replan()'s output read back for the unclaimed blocks. */
  function ReadPlan(q: seq<Block>, first: nat, entry: seq<real>, exit: seq<real>, profile: seq<Trapezoid>): (r: seq<Block>)
    requires first <= |q| <= RING_SIZE && |entry| == |exit| == |profile| == RING_SIZE
    ensures |r| == |q| - first
  {
    seq(|q| - first, i requires 0 <= i < |q| - first =>
      SetSpeeds(q[first + i], entry[first + i], exit[first + i], profile[first + i]))
  }

  function SetSpeeds(b: Block, entry: real, exit: real, profile: Trapezoid): Block {
    b.(entrySqr := entry, exitSqr := exit, profile := profile)
  }

  lemma ReadBack(q: seq<Block>, first: nat, entry: seq<real>, exit: seq<real>, profile: seq<Trapezoid>, p: seq<Block>)
    requires first <= |q| <= RING_SIZE && |entry| == |exit| == |profile| == RING_SIZE && |p| == |q| - first
    requires forall j :: first <= j < |q| ==> p[j - first] == SetSpeeds(q[j], entry[j], exit[j], profile[j])
    ensures ReadPlan(q, first, entry, exit, profile) == p
  {
    var r := ReadPlan(q, first, entry, exit, profile);
    forall k | 0 <= k < |p|
      ensures r[k] == p[k]
    {
      assert p[(first + k) - first] == SetSpeeds(q[first + k], entry[first + k], exit[first + k], profile[first + k]);
    }
  }

  lemma ReadPlanAt(q: seq<Block>, first: nat, entry: seq<real>, exit: seq<real>, profile: seq<Trapezoid>)
    requires first <= |q| <= RING_SIZE && |entry| == |exit| == |profile| == RING_SIZE
    ensures forall i :: first <= i < |q| ==>
      var b := ReadPlan(q, first, entry, exit, profile)[i - first];
      b == SetSpeeds(q[i], entry[i], exit[i], profile[i]) && b.path == q[i].path
  {
    forall i | first <= i < |q|
      ensures ReadPlan(q, first, entry, exit, profile)[i - first] == SetSpeeds(q[i], entry[i], exit[i], profile[i])
    {
      assert first + (i - first) == i;
    }
  }

  /** The reverse pass's exits, from block i on. */
  ghost predicate Reversed(q: seq<Block>, i: nat, exit: seq<real>) {
    |q| <= |exit| && forall j :: i <= j < |q| ==> exit[j] == ReverseEntry(q[j + 1..])
  }

  /** The scratch arrays hold the plan p of the blocks before i. */
  ghost predicate Filled(q: seq<Block>, first: nat, i: nat, p: seq<Block>, entry: seq<real>, exit: seq<real>, profile: seq<Trapezoid>) {
    && first <= i <= |q| <= RING_SIZE && |p| == |q| - first && |entry| == |exit| == |profile| == RING_SIZE
    && forall j :: first <= j < i ==> p[j - first] == SetSpeeds(q[j], entry[j], exit[j], profile[j])
  }

  lemma FilledNext(q: seq<Block>, first: nat, i: nat, p: seq<Block>, e: seq<real>, x: seq<real>, t: seq<Trapezoid>,
                   e': seq<real>, x': seq<real>, t': seq<Trapezoid>)
    requires Filled(q, first, i, p, e, x, t) && Reversed(q, i, x) && i < |q|
    requires |e'| == |x'| == |t'| == RING_SIZE
    requires forall j :: 0 <= j < RING_SIZE && j != i ==> e'[j] == e[j] && x'[j] == x[j] && t'[j] == t[j]
    requires p[i - first] == SetSpeeds(q[i], e'[i], x'[i], t'[i])
    ensures Filled(q, first, i + 1, p, e', x', t') && Reversed(q, i + 1, x')
  {
    hide SetSpeeds, ReverseEntry;
  }

  lemma FilledRead(q: seq<Block>, first: nat, p: seq<Block>, e: seq<real>, x: seq<real>, t: seq<Trapezoid>)
    requires first <= |q| && Filled(q, first, |q|, p, e, x, t)
    ensures ReadPlan(q, first, e, x, t) == p
  {
    hide SetSpeeds, ReadPlan;
    ReadBack(q, first, e, x, t, p);
  }

  lemma ReversedAt(q: seq<Block>, i: nat, x: seq<real>)
    requires Reversed(q, i, x) && i < |q|
    ensures x[i] == ReverseEntry(q[i + 1..])
  {
  }

  lemma PlannedStep(sq: real -> real, q: seq<Block>, i: nat, entry: real)
    requires i < |q| && forall j :: 0 <= j < |q| ==> q[j].path.accel > 0.0
    ensures var exit := Min(ReverseEntry(q[i + 1..]), ReachBlock(q[i], entry));
      var p := Planned(sq, q[i..], entry);
      p[0] == SetSpeeds(q[i], entry, exit, ProfileOf(sq, q[i].path, entry, exit)) && p[1..] == Planned(sq, q[i + 1..], exit)
  {
    hide ReachBlock, ReverseEntry, ProfileOf;
    assert q[i..][1..] == q[i + 1..];
  }

  lemma HorizonIgnoresPlan(p: PlanState, plan: Option<Plan>, t: real)
    ensures HorizonAt(p.(plan := plan), t) == HorizonAt(p, t)
  {
    hide Sqr, Trapezoid.Position, Trapezoid.Velocity;
  }

  lemma RaiseIgnoresPlan(sq: real -> real, p: PlanState, plan: Option<Plan>, h: PlanStates.Horizon)
    requires h.At? ==> p.claimed && p.q != [] && p.q[0].path.accel > 0.0
    ensures RaiseAt(sq, p.(plan := plan), h) == RaiseAt(sq, p, h)
  {
    hide ReverseEntry, Make, Reach;
  }

  lemma TrimIgnoresPlan(p: PlanState, s: real)
    ensures Trimmed(p.(plan := None), s) == Trimmed(p, s)
  {
  }

  lemma WaitValue(sq: real -> real, p: PlanState, t: real)
    requires (p.claimed ==> p.q != []) && forall i :: 0 <= i < |p.q| ==> p.q[i].path.accel > 0.0
    requires HorizonAt(p, t).TooClose?
    ensures Replan(sq, p, t) == p.(plan := Some(Wait))
  {
    hide HorizonAt, Planned, RaiseAt;
  }

  lemma ReadyValue(sq: real -> real, p: PlanState, t: real, raise: Option<Raise>, entry: real)
    requires (p.claimed ==> p.q != []) && forall i :: 0 <= i < |p.q| ==> p.q[i].path.accel > 0.0
    requires var h := HorizonAt(p, t); !h.TooClose? && (h.At? ==> p.claimed) && raise == RaiseAt(sq, p, h)
    requires entry == if raise.Some? then raise.value.exitSqr else p.pinned
    ensures Replan(sq, p, t) == p.(plan := Some(Ready(raise, Planned(sq, p.Unclaimed(), entry))))
  {
    hide HorizonAt, Planned, RaiseAt;
  }

  class Planner {
    const sq: real -> real
    const ring: array<Block>
    var tail: nat
    var count: nat
    var claimed: bool
    var frontMark: nat
    var pinnedEntrySqr: real
    var epoch: nat
    var ahead: real
    var guard: real
    var run: Piece
    var offer: Piece
    var hasOffer: bool
    var staged: Piece
    var stagedFlag: bool
    const planEntry: array<real>
    const planExit: array<real>
    const planProfile: array<Trapezoid>
    var planEpoch: nat
    var planValid: bool
    var planWait: bool
    var planOffer: bool
    var planPiece: Piece

    ghost predicate Valid()
      reads this, ring
    {
      && ring.Length == RING_SIZE && planEntry.Length == RING_SIZE && planExit.Length == RING_SIZE
      && planProfile.Length == RING_SIZE && planEntry != planExit
      && tail < RING_SIZE && count <= RING_SIZE && (claimed ==> count > 0)
      && planEpoch <= epoch && (planValid && planEpoch == epoch && planOffer ==> claimed)
      && forall i :: 0 <= i < count ==> ring[Slot(tail, i)].path.accel > 0.0
    }

    ghost function Queue(): (q: seq<Block>)
      requires Valid()
      reads this, ring
      ensures |q| == count
      ensures forall i :: 0 <= i < count ==> q[i].path.accel > 0.0
    {
      Unrolled(ring[..], tail, count)
    }

    function FirstUnclaimed(): nat
      reads this
    {
      if claimed then 1 else 0
    }

    ghost function PlanView(): Option<Plan>
      requires Valid()
      reads this, ring, planEntry, planExit, planProfile
    {
      if !planValid || planEpoch != epoch then None
      else if planWait then Some(Wait)
      else Some(Ready(if planOffer then Some(Raise(planPiece, planExit[0])) else None,
                      ReadPlan(Queue(), FirstUnclaimed(), planEntry[..], planExit[..], planProfile[..])))
    }

    ghost function View(): PlanState
      requires Valid()
      reads this, ring, planEntry, planExit, planProfile
    {
      PlanState(Queue(), claimed, pinnedEntrySqr, ahead, guard, run,
                if hasOffer then Some(offer) else None,
                if stagedFlag then Some(staged) else None,
                PlanView())
    }

    constructor (sq: real -> real, idle: Block, ahead: real, guard: real)
      ensures Valid() && this.sq == sq && this.ahead == ahead && this.guard == guard
      ensures Queue() == [] && !claimed && !hasOffer && !stagedFlag && PlanView() == None && pinnedEntrySqr == 0.0
      ensures fresh(ring) && fresh(planEntry) && fresh(planExit) && fresh(planProfile)
    {
      this.sq := sq;
      ring := new Block[RING_SIZE](_ => idle);
      planEntry := new real[RING_SIZE](_ => 0.0);
      planExit := new real[RING_SIZE](_ => 0.0);
      planProfile := new Trapezoid[RING_SIZE](_ => idle.profile);
      tail, count, claimed, frontMark := 0, 0, false, 0;
      pinnedEntrySqr, epoch := 0.0, 0;
      this.ahead, this.guard := ahead, guard;
      run := Piece(0.0, 0.0, idle.profile);
      offer, staged, planPiece := Piece(0.0, 0.0, idle.profile), Piece(0.0, 0.0, idle.profile), Piece(0.0, 0.0, idle.profile);
      hasOffer, stagedFlag := false, false;
      planEpoch, planValid, planWait, planOffer := 0, false, false, false;
    }

    method ClearOffer()
      requires Valid()
      modifies this`hasOffer, this`stagedFlag
      ensures Valid() && !hasOffer && !stagedFlag
    {
      hasOffer := false;
      stagedFlag := false;
    }

    method Reset()
      requires Valid()
      modifies this
      ensures Valid() && View() == PlanStates.Reset(old(View()))
    {
      tail := 0;
      count := 0;
      claimed := false;
      pinnedEntrySqr := 0.0;
      planValid := false;
      ClearOffer();
      assert Queue() == [];
    }

    method PushBlock(kind: Kind, tag: int, path: Path, deviation: real)
      requires Valid() && count < RING_SIZE && path.accel > 0.0
      modifies this, ring
      ensures Valid() && View() == PlanStates.PushBlock(sq, old(View()), kind, tag, path, 0.0, deviation)
      ensures count == old(count) + 1 && tail == old(tail)
    {
      hide JunctionMaxSqr, ProfileOf, ReadPlan, BlockOk, PathOk;
      ghost var q := Queue();
      var rest := kind.Event? || count == 0 || ring[Slot(tail, count - 1)].kind.Event?;
      var maxEntry := 0.0;
      if !rest { maxEntry := JunctionMaxSqr(sq, ring[Slot(tail, count - 1)].path, path, deviation); }
      var b := Block(kind, tag, path, 0.0, maxEntry, 0.0, 0.0, ProfileOf(sq, path, 0.0, 0.0));
      forall i | 0 <= i < count ensures Slot(tail, i) != Slot(tail, count) { SlotsDiffer(tail, i, count); }
      ring[Slot(tail, count)] := b;
      count := count + 1;
      epoch := epoch + 1;
      assert Queue() == q + [b];
    }

    method PushLine(tag: int, path: Path, deviation: real) returns (ok: bool)
      requires Valid() && path.accel > 0.0
      modifies this, ring
      ensures Valid() && (View(), ok) == PlanStates.PushLine(sq, old(View()), tag, path, deviation)
    {
      if count == RING_SIZE { return false; }
      PushBlock(Line, tag, path, deviation);
      return true;
    }

    /** A move refused, or with nothing in it, leaves the ring alone; only a full ring refuses a path. */
    method PushMove(tag: int, move: Move, deviation: real) returns (ok: bool)
      requires Valid() && (move.Along? ==> move.path.accel > 0.0)
      modifies this, ring
      ensures Valid() && (View(), ok) == PlanStates.PushMove(sq, old(View()), tag, move, deviation)
    {
      hide JunctionMaxSqr, ProfileOf, ReadPlan, BlockOk, PathOk, PlanStates.PushBlock;
      if move.NoAxis? { return true; }
      if move.MixedAxes? || count == RING_SIZE { return false; }
      if move.NoLength? { return true; }
      if move.Unlimited? { return false; }
      ok := PushLine(tag, move.path, deviation);
    }

    method PushCurve(tag: int, path: Path, from: real, dir: Vec2, deviation: real) returns (ok: bool)
      requires Valid() && path.accel > 0.0
      modifies this, ring
      ensures Valid() && (View(), ok) == PlanStates.PushCurve(sq, old(View()), tag, path, from, dir, deviation)
    {
      hide JunctionMaxSqr, ProfileOf, ReadPlan, BlockOk, PathOk;
      if count == RING_SIZE { return false; }
      var trimmed, s0 := path, 0.0;
      if from > 0.0 {
        if from >= path.length { return true; }
        trimmed := path.(length := path.length - from, dirStart := dir);
        s0 := from;
      }
      PushBlock(Curve, tag, trimmed, deviation);
      SetStart(s0);
      return true;
    }

    /** The newest block starts `s0` into its geometry. */
    method SetStart(s0: real)
      requires Valid() && count > 0
      modifies ring
      ensures Valid()
      ensures var p := old(View());
        View().(plan := p.plan) == p.(q := p.q[..count - 1] + [p.q[count - 1].(s0 := s0)])
      ensures old(PlanView()) == None ==> PlanView() == None
    {
      hide ReadPlan;
      ghost var q := Queue();
      var i := Slot(tail, count - 1);
      forall j | 0 <= j < count - 1 ensures Slot(tail, j) != i { SlotsDiffer(tail, j, count - 1); }
      ring[i] := ring[i].(s0 := s0);
      assert Queue() == q[..count - 1] + [q[count - 1].(s0 := s0)];
    }

    method PushEvent(tag: int) returns (ok: bool)
      requires Valid()
      modifies this, ring
      ensures Valid() && (View(), ok) == PlanStates.PushEvent(sq, old(View()), tag)
    {
      if count == RING_SIZE { return false; }
      PushBlock(Event, tag, EVENT_PATH, 0.0);
      return true;
    }

    method Claim() returns (slot: int)
      requires Valid()
      modifies this
      ensures Valid() && View() == PlanStates.Claim(old(View()))
      ensures slot == if !old(claimed) && count > 0 then tail else -1
      ensures tail == old(tail) && count == old(count)
    {
      hide ReadPlan, Slot, Unrolled;
      if claimed || count == 0 { return -1; }
      FirstIsOldest();
      claimed := true;
      epoch := epoch + 1;
      pinnedEntrySqr := ring[tail].exitSqr;
      run := Piece(0.0, 0.0, ring[tail].profile);
      ClearOffer();
      return tail;
    }

    method Release()
      requires Valid()
      modifies this
      ensures Valid() && View() == PlanStates.Release(old(View()))
    {
      hide ReadPlan, Slot, Unrolled;
      if !claimed { return; }
      epoch := epoch + 1;
      claimed := false;
      DropOldest();
      ClearOffer();
    }

    method TakeStaged() returns (found: bool, out: Piece)
      requires Valid()
      modifies this`stagedFlag
      ensures Valid() && View() == PlanStates.TakeStaged(old(View()))
      ensures found == old(View()).staged.Some? && (found ==> out == old(View()).staged.value)
    {
      if !stagedFlag { return false, staged; }
      out := staged;
      stagedFlag := false;
      return true, out;
    }

    method BeginFront()
      requires Valid()
      modifies this`frontMark
      ensures Valid() && View() == old(View()) && frontMark == count
    {
      frontMark := count;
    }

    /** Rotates the blocks pushed since the mark ahead of the oldest. */
    method EndFront()
      requires Valid() && frontMark <= count
      modifies this, ring
      ensures Valid() && View() == PlanStates.EndFront(old(View()), old(frontMark))
    {
      hide ReadPlan, Slot, Unrolled, View, PlanView, Queue, Valid;
      ViewParts();
      var n := count - frontMark;
      if n > 0 { ToFront(n); }
      Invalidate();
      ViewParts();
    }

    method ToFront(n: nat)
      requires Valid() && frontMark + n == count && n > 0
      modifies ring, this`tail
      ensures Valid() && frontMark < |old(Queue())|
      ensures Queue() == [old(Queue())[frontMark].(maxEntry := 0.0)] + old(Queue())[frontMark + 1..] + old(Queue())[..frontMark]
    {
      hide Slot, Unrolled;
      ghost var q := Queue();
      MoveFront(n);
      FirstIsOldest();
      SetOldest(ring[tail].(maxEntry := 0.0));
      FrontFirst(q, frontMark);
    }

    method Invalidate()
      requires Valid()
      modifies this`planValid, this`epoch
      ensures Valid() && Queue() == old(Queue()) && !planValid
    {
      hide Slot, Unrolled;
      planValid := false;
      epoch := epoch + 1;
    }

    /** The block furthest from the tail goes first, so that no write lands on a block still waiting to be moved. */
    method SlideBack(n: nat, to: nat)
      requires Valid() && frontMark + n == count && n > 0 && to == Slot(tail, RING_SIZE - n)
      modifies ring
      ensures forall j :: 0 <= j < n ==> ring[Slot(to, j)] == old(Queue())[frontMark + j]
      ensures forall k :: 0 <= k < frontMark ==> ring[Slot(tail, k)] == old(Queue())[k]
    {
      hide Slot;
      ghost var q := Queue();
      var i := n;
      while i > 0
        invariant 0 <= i <= n
        invariant forall j :: i <= j < n ==> ring[Slot(to, j)] == q[frontMark + j]
        invariant forall k :: 0 <= k < frontMark + i ==> ring[Slot(tail, k)] == q[k]
      {
        i := i - 1;
        forall j | i < j < n ensures Slot(to, j) != Slot(to, i) { SlotsDiffer(to, j, i); }
        forall k | 0 <= k < frontMark + i ensures Slot(tail, k) != Slot(to, i) { FrontSlots(tail, frontMark, n, to, i, k); }
        ring[Slot(to, i)] := ring[Slot(tail, frontMark + i)];
      }
    }

    method MoveFront(n: nat)
      requires Valid() && frontMark + n == count && n > 0
      modifies ring, this`tail
      ensures Valid() && Queue() == old(Queue())[frontMark..] + old(Queue())[..frontMark]
    {
      hide Slot;
      ghost var q := Queue();
      var to := Slot(tail, RING_SIZE - n);
      SlideBack(n, to);
      FrontQueue(ring[..], tail, to, n, q, frontMark);
      assert forall k :: 0 <= k < count ==> ring[..][Slot(to, k)] == ring[Slot(to, k)];
      tail := to;
    }

    method RestartFrom(s: real)
      requires Valid()
      modifies this, ring
      ensures Valid() && View() == PlanStates.Restart(sq, old(View()), s)
    {
      hide ReadPlan, ProfileOf, Slot, Unrolled, Trimmed, View, PlanView, Queue;
      ViewParts();
      ghost var p := View();
      Invalidate();
      ViewParts();
      TrimIgnoresPlan(p, s);
      Trim(s);
      RestOldest();
      AtRest();
      ViewParts();
    }

    method RestOldest()
      requires Valid()
      modifies ring
      ensures Valid() && Queue() == (if old(Queue()) == [] then []
                                     else [WithSpeeds(sq, old(Queue())[0].(maxEntry := 0.0), 0.0, 0.0)] + old(Queue())[1..])
    {
      hide ReadPlan, ProfileOf, Slot, Unrolled;
      if count > 0 {
        FirstIsOldest();
        SetOldest(WithSpeeds(sq, ring[tail].(maxEntry := 0.0), 0.0, 0.0));
      }
    }

    method AtRest()
      requires Valid()
      modifies this`pinnedEntrySqr, this`hasOffer, this`stagedFlag
      ensures Valid() && Queue() == old(Queue()) && pinnedEntrySqr == 0.0 && !hasOffer && !stagedFlag
    {
      hide Slot, Unrolled;
      pinnedEntrySqr := 0.0;
      ClearOffer();
    }

    lemma FirstIsOldest()
      requires Valid() && count > 0
      ensures Queue()[0] == ring[tail] && ring[tail].path.accel > 0.0
    {
      SlotValue(tail, 0);
    }

    /** The claimed block after a stop `s` into it. */
    method Trim(s: real)
      requires Valid() && !planValid
      modifies ring, this`tail, this`count, this`claimed
      ensures Valid() && !claimed && Queue() == Trimmed(old(View()), s)
    {
      hide ReadPlan, Slot, Unrolled;
      if claimed {
        FirstIsOldest();
        claimed := false;
        var b := ring[tail];
        if b.kind.Event? {
        } else if s >= b.path.length {
          DropOldest();
        } else if s > 0.0 {
          SetOldest(b.(s0 := b.s0 + s, path := b.path.(length := b.path.length - s)));
        }
      }
    }

    method DropOldest()
      requires Valid() && count > 0 && !claimed
      modifies this`tail, this`count
      ensures Valid() && Queue() == old(Queue())[1..]
    {
      hide Slot;
      forall i | 0 <= i < count - 1 ensures Slot(Slot(tail, 1), i) == Slot(tail, i + 1) { SlotNext(tail, i); }
      tail := Slot(tail, 1);
      count := count - 1;
    }

    method SetOldest(b: Block)
      requires Valid() && count > 0 && b.path.accel > 0.0
      modifies ring
      ensures Valid() && Queue() == [b] + old(Queue())[1..]
    {
      hide Slot;
      ghost var q := Queue();
      SlotValue(tail, 0);
      forall j | 0 < j < count ensures Slot(tail, j) != tail { SlotsDiffer(tail, j, 0); }
      ring[tail] := b;
    }

    /** The point of the running motion that a raised exit may be planned from. */
    method Horizon(t: real) returns (h: PlanStates.Horizon)
      requires Valid()
      ensures h == HorizonAt(View(), t) && (!h.NoHorizon? ==> claimed)
    {
      hide ReadPlan, Slot, Unrolled, Trapezoid.Position, Trapezoid.Velocity, Sqr;
      if !claimed { return NoHorizon; }
      if hasOffer && t < offer.t0 {
        if t + guard >= offer.t0 { return TooClose; }
        return At(offer.t0, offer.s0, Sqr(offer.profile.vEntry));
      }
      var base := if hasOffer then offer else run;
      var th := t + ahead;
      if th < base.End() { return At(th, base.At(th), Sqr(base.SpeedAt(th))); }
      return NoHorizon;
    }

    lemma Sizes()
      requires Valid()
      ensures planEntry.Length == RING_SIZE && planExit.Length == RING_SIZE && planProfile.Length == RING_SIZE
      ensures count <= RING_SIZE && FirstUnclaimed() <= count && |Queue()| == count
    {
      hide Slot, Unrolled;
    }

    lemma QueueAt(i: nat)
      requires Valid() && i < count
      ensures Slot(tail, i) < ring.Length && Queue()[i] == ring[Slot(tail, i)]
    {
      hide Slot;
    }

    /** The reverse pass has left each block's exit in planExit. */
    ghost predicate ExitsReversed()
      requires Valid()
      reads this, ring, planExit
    {
      forall j :: FirstUnclaimed() <= j < count ==> planExit[j] == ReverseEntry(Queue()[j + 1..])
    }

    /** Newest to oldest, with a stop behind the newest: leaves every unclaimed block its highest safe exit. */
    method ReversePass() returns (nextEntry: real)
      requires Valid()
      modifies planEntry, planExit
      ensures Valid() && nextEntry == ReverseEntry(Queue()[FirstUnclaimed()..])
      ensures ExitsReversed()
    {
      hide Slot, ReachBlock, Unrolled;
      ghost var q := Queue();
      nextEntry := 0.0;
      var i := count;
      assert q[count..] == [];
      while i > FirstUnclaimed()
        invariant FirstUnclaimed() <= i <= count
        invariant nextEntry == ReverseEntry(q[i..])
        invariant forall j :: i <= j < count ==> planExit[j] == ReverseEntry(q[j + 1..])
      {
        i := i - 1;
        QueueAt(i);
        var b := ring[Slot(tail, i)];
        assert q[i..][1..] == q[i + 1..];
        planExit[i] := nextEntry;
        planEntry[i] := Min(Min(b.maxEntry, b.path.vMaxSqr), ReachBlock(b, nextEntry));
        nextEntry := planEntry[i];
      }
    }

    /** Oldest to newest, from entry speed `start`: what acceleration makes of those exits. */
    method ForwardPass(start: real)
      requires Valid() && ExitsReversed()
      modifies planEntry, planExit, planProfile
      ensures Valid() && (claimed ==> planExit[0] == old(planExit[0]))
      ensures ReadPlan(Queue(), FirstUnclaimed(), planEntry[..], planExit[..], planProfile[..])
        == Planned(sq, Queue()[FirstUnclaimed()..], start)
    {
      hide Slot, ReachBlock, ReverseEntry, ProfileOf, Planned, WithSpeeds, Unrolled, ReadPlan, SetSpeeds, BlockOk, Valid,
           Queue, Filled, Reversed;
      Sizes();
      ghost var q, first := Queue(), FirstUnclaimed();
      ghost var p := Planned(sq, q[first..], start);
      StartForward(q, first, p);
      var entry := start;
      var i := FirstUnclaimed();
      while i < count
        invariant Valid() && first <= i <= count
        invariant claimed ==> planExit[0] == old(planExit[0])
        invariant Reversed(q, i, planExit[..])
        invariant p[i - first..] == Planned(sq, q[i..], entry)
        invariant Filled(q, first, i, p, planEntry[..], planExit[..], planProfile[..])
      {
        PlannedStep(sq, q, i, entry);
        ReversedAt(q, i, planExit[..]);
        ghost var e, x, t := planEntry[..], planExit[..], planProfile[..];
        entry := ForwardStep(i, entry);
        assert p[i - first] == p[i - first..][0] && p[i - first..][1..] == p[i + 1 - first..];
        FilledNext(q, first, i, p, e, x, t, planEntry[..], planExit[..], planProfile[..]);
        i := i + 1;
      }
      FilledRead(q, first, p, planEntry[..], planExit[..], planProfile[..]);
    }

    lemma StartForward(q: seq<Block>, first: nat, p: seq<Block>)
      requires Valid() && ExitsReversed() && q == Queue() && first == FirstUnclaimed() && |p| == |q| - first
      ensures Reversed(q, first, planExit[..]) && Filled(q, first, first, p, planEntry[..], planExit[..], planProfile[..])
    {
      hide Slot, Unrolled, ReverseEntry;
    }

    method ForwardStep(i: nat, entry: real) returns (exit: real)
      requires Valid() && i < count
      modifies planEntry, planExit, planProfile
      ensures Valid() && exit == Min(old(planExit[i]), ReachBlock(Queue()[i], entry))
      ensures planEntry[i] == entry && planExit[i] == exit && planProfile[i] == ProfileOf(sq, Queue()[i].path, entry, exit)
      ensures forall j :: 0 <= j < RING_SIZE && j != i ==>
        planEntry[j] == old(planEntry[j]) && planExit[j] == old(planExit[j]) && planProfile[j] == old(planProfile[j])
    {
      hide Slot, ReachBlock, ProfileOf, ReadPlan, Unrolled;
      QueueAt(i);
      var b := ring[Slot(tail, i)];
      planEntry[i] := entry;
      exit := Min(planExit[i], ReachBlock(b, entry));
      planExit[i] := exit;
      planProfile[i] := ProfileOf(sq, b.path, entry, exit);
    }

    /** Plans an offer to the running block when the passes leave it room to end faster. */
    method RaiseExit(h: PlanStates.Horizon, nextEntry: real) returns (entry: real)
      requires Valid() && (h.At? ==> claimed) && !planOffer && ExitsReversed()
      requires nextEntry == ReverseEntry(View().Unclaimed())
      modifies this`planOffer, this`planPiece, planExit
      ensures Valid() && planOffer == RaiseAt(sq, old(View()), h).Some?
      ensures planOffer ==> claimed && RaiseAt(sq, old(View()), h) == Some(Raise(planPiece, planExit[0])) && entry == planExit[0]
      ensures !planOffer ==> entry == pinnedEntrySqr
      ensures ExitsReversed()
      ensures View() == old(View()).(plan := View().plan)
    {
      hide Slot, ReverseEntry, ReadPlan, Unrolled, Make, Reach;
      entry := pinnedEntrySqr;
      if h.At? {
        FirstIsOldest();
        var c := ring[tail];
        var rest := c.path.length - h.s;
        var exitSqr := Min(Min(nextEntry, c.path.vMaxSqr), Reach(h.vSqr, c.path.accel, Max(rest, 0.0)));
        if rest > 0.0 && exitSqr > c.exitSqr * 1.00001 + 0.000001 {
          planOffer := true;
          planExit[0] := exitSqr;
          planPiece := Piece(h.t, h.s, Make(sq, rest, c.path.accel, h.vSqr, c.path.vMaxSqr, exitSqr));
          entry := exitSqr;
        }
      }
    }

    method StartPlan()
      requires Valid()
      modifies this`planEpoch, this`planValid, this`planWait, this`planOffer
      ensures Valid() && View() == old(View()).(plan := View().plan)
      ensures planValid && planEpoch == epoch && !planWait && !planOffer
    {
      hide Slot, ReadPlan, Unrolled;
      planEpoch := epoch;
      planValid := true;
      planWait := false;
      planOffer := false;
    }

    method Refuse()
      requires Valid() && planValid && planEpoch == epoch
      modifies this`planWait
      ensures Valid() && View() == old(View()).(plan := Some(Wait))
    {
      hide Slot, ReadPlan, Unrolled;
      planWait := true;
    }

    lemma PlanNow()
      requires Valid() && planValid && planEpoch == epoch && !planWait
      ensures View().plan == Some(Ready(if planOffer then Some(Raise(planPiece, planExit[0])) else None,
                                        ReadPlan(Queue(), FirstUnclaimed(), planEntry[..], planExit[..], planProfile[..])))
      ensures View().Unclaimed() == Queue()[FirstUnclaimed()..] && View().claimed == claimed && View().pinned == pinnedEntrySqr
      ensures (claimed ==> View().q != []) && forall i :: 0 <= i < |View().q| ==> View().q[i].path.accel > 0.0
    {
      hide Slot, ReadPlan, Unrolled;
    }

    method Replan(t: real)
      requires Valid()
      modifies this`planEpoch, this`planValid, this`planWait, this`planOffer, this`planPiece, planEntry, planExit, planProfile
      ensures Valid() && View() == PlanStates.Replan(sq, old(View()), t)
    {
      hide Slot, ReachBlock, ReverseEntry, Planned, ReadPlan, Unrolled, HorizonAt, RaiseAt, Make, Reach, PlanStates.Replan,
           Valid, View, PlanView, Queue, ExitsReversed;
      ghost var p := View();
      StartPlan();
      PlanNow();
      var h := Horizon(t);
      HorizonIgnoresPlan(p, View().plan, t);
      if h.TooClose? {
        Refuse();
        WaitValue(sq, p, t);
        return;
      }
      ViewParts();
      var nextEntry := ReversePass();
      PlanNow();
      ViewParts();
      RaiseIgnoresPlan(sq, p, View().plan, h);
      var entry := RaiseExit(h, nextEntry);
      ViewParts();
      ForwardPass(entry);
      ViewParts();
      PlanNow();
      ReadyValue(sq, p, t, View().plan.value.raise, entry);
    }

    /** The planned speeds and profiles, over the committed ones. */
    method CopyPlan()
      requires Valid()
      modifies ring
      ensures Valid() && Queue() == old(Queue())[..FirstUnclaimed()]
        + ReadPlan(old(Queue()), FirstUnclaimed(), planEntry[..], planExit[..], planProfile[..])
    {
      hide Slot, ReadPlan, SetSpeeds;
      ghost var q, first := Queue(), FirstUnclaimed();
      ghost var p := ReadPlan(q, first, planEntry[..], planExit[..], planProfile[..]);
      ReadPlanAt(q, first, planEntry[..], planExit[..], planProfile[..]);
      var i := FirstUnclaimed();
      while i < count
        invariant first <= i <= count
        invariant forall j :: 0 <= j < count ==>
          ring[Slot(tail, j)] == if first <= j < i then p[j - first] else q[j]
      {
        var b := ring[Slot(tail, i)];
        forall j | 0 <= j < count && j != i ensures Slot(tail, j) != Slot(tail, i) { SlotsDiffer(tail, j, i); }
        ring[Slot(tail, i)] := SetSpeeds(b, planEntry[i], planExit[i], planProfile[i]);
        assert p[i - first] == SetSpeeds(q[i], planEntry[i], planExit[i], planProfile[i]);
        i := i + 1;
      }
    }

    /** Fills the mailbox with the planned piece; the block running commits to its exit. */
    method StageOffer()
      requires Valid() && claimed
      modifies this`stagedFlag, this`staged, this`offer, this`hasOffer, this`pinnedEntrySqr, ring
      ensures Valid() && Queue() == [old(Queue())[0].(exitSqr := planExit[0])] + old(Queue())[1..]
      ensures hasOffer && stagedFlag && offer == staged == planPiece && pinnedEntrySqr == planExit[0]
    {
      hide Slot, Unrolled;
      staged := planPiece;
      stagedFlag := true;
      offer := planPiece;
      hasOffer := true;
      FirstIsOldest();
      SetOldest(ring[tail].(exitSqr := planExit[0]));
      pinnedEntrySqr := planExit[0];
    }

    method DropPlan()
      requires Valid()
      modifies this`planValid
      ensures Valid() && View() == old(View()).(plan := None)
    {
      hide Slot, Unrolled;
      planValid := false;
    }

    lemma ViewParts()
      requires Valid()
      ensures View() == PlanState(Queue(), claimed, pinnedEntrySqr, ahead, guard, run, if hasOffer then Some(offer) else None,
                                  if stagedFlag then Some(staged) else None, PlanView())
      ensures PlanView() == if !planValid || planEpoch != epoch then None else if planWait then Some(Wait)
        else Some(Ready(if planOffer then Some(Raise(planPiece, planExit[0])) else None,
                        ReadPlan(Queue(), FirstUnclaimed(), planEntry[..], planExit[..], planProfile[..])))
      ensures |Queue()| == count && (claimed ==> count > 0)
    {
      hide Slot, ReadPlan, Unrolled;
    }

    method Commit(t: real) returns (ok: bool)
      requires Valid()
      modifies this`stagedFlag, this`staged, this`offer, this`hasOffer, this`pinnedEntrySqr, this`planValid, ring
      ensures Valid() && View() == PlanStates.Commit(old(View()), t)
      ensures ok == Accepts(old(View()), t)
    {
      hide Slot, ReadPlan, Unrolled, Queue, View, PlanView;
      ViewParts();
      if !planValid || planEpoch != epoch { return false; }
      if planWait || (planOffer && (stagedFlag || !(t + guard < planPiece.t0))) {
        DropPlan();
        return false;
      }
      CopyPlan();
      if planOffer { StageOffer(); }
      ViewParts();
      DropPlan();
      return true;
    }

    /** How long the unclaimed part of the queue will take to run. */
    method QueuedTime() returns (t: real)
      requires Valid()
      ensures t == TotalTime(View().Unclaimed())
    {
      hide Slot, ReadPlan;
      t := 0.0;
      ghost var q := Queue();
      var i := FirstUnclaimed();
      assert q[i..] == View().Unclaimed();
      while i < count
        invariant i <= count
        invariant t + TotalTime(q[i..]) == TotalTime(View().Unclaimed())
      {
        assert q[i..][1..] == q[i + 1..] && q[i] == ring[Slot(tail, i)];
        t := t + ring[Slot(tail, i)].profile.Duration();
        i := i + 1;
      }
    }
  }

  lemma FrontFirst(q: seq<Block>, mark: nat)
    requires mark < |q|
    ensures var r := q[mark..] + q[..mark];
      r[0] == q[mark] && r[1..] == q[mark + 1..] + q[..mark]
  {
  }

  /** The slot a front block moves into is not one still to be read. */
  lemma FrontSlots(tail: nat, mark: nat, n: nat, to: nat, i: nat, k: nat)
    requires tail < RING_SIZE && n > 0 && mark + n <= RING_SIZE && to == Slot(tail, RING_SIZE - n)
    requires i < n && k < mark + i
    ensures Slot(tail, k) != Slot(to, i)
  {
    SlotValue(tail, RING_SIZE - n);
    SlotValue(to, i);
    SlotValue(tail, k);
  }

  lemma BackSlots(tail: nat, n: nat, to: nat, j: nat)
    requires tail < RING_SIZE && 0 < n && n + j < RING_SIZE && to == Slot(tail, RING_SIZE - n)
    ensures Slot(to, n + j) == Slot(tail, j)
  {
    SlotValue(tail, RING_SIZE - n);
    SlotValue(to, n + j);
    SlotValue(tail, j);
  }

  lemma FrontQueue(ring: seq<Block>, tail: nat, to: nat, n: nat, q: seq<Block>, mark: nat)
    requires |ring| == RING_SIZE && tail < RING_SIZE && n > 0 && mark + n == |q| <= RING_SIZE
    requires to == Slot(tail, RING_SIZE - n)
    requires forall j :: 0 <= j < n ==> ring[Slot(to, j)] == q[mark + j]
    requires forall k :: 0 <= k < mark ==> ring[Slot(tail, k)] == q[k]
    requires forall k :: 0 <= k < |q| ==> q[k].path.accel > 0.0
    ensures Unrolled(ring, to, |q|) == q[mark..] + q[..mark]
    ensures forall k :: 0 <= k < |q| ==> ring[Slot(to, k)].path.accel > 0.0
  {
    hide Slot;
    forall k | n <= k < |q|
      ensures ring[Slot(to, k)] == q[k - n]
    {
      BackSlots(tail, n, to, k - n);
    }
    forall k | 0 <= k < |q|
      ensures ring[Slot(to, k)].path.accel > 0.0
    {
      if k < n { assert ring[Slot(to, k)] == q[mark + k]; }
    }
  }
}
