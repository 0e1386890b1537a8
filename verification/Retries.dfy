/** When the producer's loop of replan and commit ends (src/rp2350/core0/planner/queue.cpp with
    lib/planner/planner.cpp). */
module Retries {
  import opened Arithmetic
  import opened Trapezoids
  import opened Kinematics
  import opened Paths
  import opened LookAhead
  import opened PlanStates
  import opened ExecStates
  import opened ExecSafety
  import opened RingLock
  import opened Holds
  import opened HoldLag
  import opened Systems
  import opened MotionTheorems
  import opened HoldRises
  import opened Horizons

  /** An offer is to take over within the guard of the clock. */
  predicate SwitchNear(p: PlanState, t: real) {
    p.claimed && p.offer.Some? && t < p.offer.value.t0 <= t + p.guard
  }

  /** From the instant a plan made at that clock takes over, some faster exit of the running block is worth it. */
  ghost predicate Raises(p: PlanState, t: real)
    requires p.claimed ==> p.q != []
  {
    var tau, base := TakeOver(p, t), p.Effective();
    p.claimed && tau < base.End()
    && exists x: real :: Attainable(p, base.SpeedAt(tau), p.q[0].path.length - base.At(tau), x) && WorthIt(p.q[0].exitSqr, x)
  }

  /** A pass of the loop, its clock read once, commits if and only if no switch is near, and a faster exit, if one is worth
      it, finds the mailbox empty and takes over later than the guard. */
  lemma CommitsExactly(sq: real -> real, y: System, t: real)
    requires IsSqrt(sq) && Reached(sq, y) && Enabled(y, DoReplan(t))
    ensures Shape(y.m)
    ensures Accepts(Perform(sq, y, DoReplan(t)).m.p, t) <==>
            !SwitchNear(y.m.p, t) && (Raises(y.m.p, t) ==> y.m.p.staged.None? && t + y.m.p.guard < TakeOver(y.m.p, t))
  {
    hide Reached, SystemInv, Planned, RaiseAt, Attainable, WorthIt, Piece.End, Piece.At, Piece.SpeedAt, Fastest, Replan;
    ReachedSafe(sq, y);
    CommitsWhen(sq, y.m.p, t);
    ReplanHas(sq, y.m.p, t);
    if y.m.p.claimed {
      ReplanIsFastest(sq, y, t);
      assert Perform(sq, y, DoReplan(t)).m.p == Replan(sq, y.m.p, t);
    }
  }

  /** As the planner finds it. */
  lemma CommitsWhen(sq: real -> real, p: PlanState, t: real)
    requires p.claimed ==> p.q != []
    requires forall i :: 0 <= i < |p.q| ==> p.q[i].path.accel > 0.0
    ensures Accepts(Replan(sq, p, t), t) <==>
            !SwitchNear(p, t) && (RaiseAt(sq, p, HorizonAt(p, t)).Some? ==> p.staged.None? && t + p.guard < TakeOver(p, t))
  {
    hide Planned, Make, ReverseEntry;
  }

  /** Nothing running, or nothing to raise: the loop ends on its first pass. */
  lemma QuietCommits(sq: real -> real, p: PlanState, t: real)
    requires p.claimed ==> p.q != []
    requires forall i :: 0 <= i < |p.q| ==> p.q[i].path.accel > 0.0
    requires !p.claimed || (p.offer.None? && t + p.ahead >= p.run.End())
    ensures Accepts(Replan(sq, p, t), t)
  {
    hide Planned, Make, ReverseEntry;
    CommitsWhen(sq, p, t);
  }

  // ─── In a hold ─────────────────────────────────────────────────────────────

  /** A hold that will stop in its block, which an offer was about to switch. */
  predicate Stuck(m: Machine) {
    && Shape(m) && m.e.cur && !m.e.mode.Running? && !m.e.aborting && !m.p.q[0].kind.Event?
    && m.e.v >= 0.0 && m.e.clock == m.e.t && SwitchNear(m.p, m.e.clock)
    && StopDistance(m.e.v, m.p.q[0].path.accel) <= m.p.q[0].path.length - m.e.s
  }

  /** What either core does while the producer retries. */
  datatype Step = Ticks(dt: real) | Takes | Replans | Commits

  function Take(sq: real -> real, m: Machine, a: Step): Machine
    requires Shape(m)
  {
    match a
    case Ticks(dt) => Tick(sq, m, dt)
    case Takes => Adopt(m)
    case Replans => m.(p := Replan(sq, m.p, m.e.clock))
    case Commits => m.(p := Commit(m.p, m.e.clock))
  }

  lemma BrakeShorter(v: real, a: real, dt: real)
    requires a > 0.0 && v >= 0.0 && 0.0 <= dt < StopTime(v, a)
    ensures Speed(v, -a, dt) >= 0.0
    ensures StopDistance(Speed(v, -a, dt), a) == StopDistance(v, a) - Travel(v, -a, dt)
  {
    Divides(v, a);
    SignOf(a, StopTime(v, a) - dt);
    Divides(v * v, 2.0 * a);
    var w := v - a * dt;
    Divides(w * w, 2.0 * a);
    assert w * w == v * v - 2.0 * a * (v * dt - 0.5 * a * dt * dt);
    var x := w * w / (2.0 * a) - (v * v / (2.0 * a) - (v * dt - 0.5 * a * dt * dt));
    assert 2.0 * a * x == 0.0;
    SignOf(2.0 * a, x);
  }

  lemma StuckTick(sq: real -> real, m: Machine, dt: real)
    requires Stuck(m)
    ensures Stuck(Tick(sq, m, dt)) && Tick(sq, m, dt).p == m.p && Tick(sq, m, dt).e.clock == m.e.clock
  {
    hide StopDistance, StopTime, EndSpeed, EndTime, Travel, Speed;
    if dt > 0.0 && !m.e.mode.Held? {
      StopsHere(sq, m, dt);
      var a := m.p.q[0].path.accel;
      if StopTime(m.e.v, a) <= dt {
        AtRest(a);
      } else {
        BrakeShorter(m.e.v, a, dt);
      }
    }
  }

  lemma AtRest(a: real)
    requires a > 0.0
    ensures StopDistance(0.0, a) == 0.0
  {
  }

  predicate NothingPlanned(p: PlanState) { p.plan.None? || p.plan.value.Wait? }

  lemma StuckStep(sq: real -> real, m: Machine, a: Step)
    requires Stuck(m) && NothingPlanned(m.p)
    ensures Shape(m) && Stuck(Take(sq, m, a)) && NothingPlanned(Take(sq, m, a).p) && Take(sq, m, a).e.clock == m.e.clock
  {
    hide StopDistance, Planned, Tick;
    if a.Ticks? { StuckTick(sq, m, a.dt); }
  }

  function After(sq: real -> real, m: Machine, steps: seq<Step>): Machine
    requires Stuck(m) && NothingPlanned(m.p)
    decreases |steps|
  {
    if steps == [] then m else
      StuckStep(sq, m, steps[0]);
      After(sq, Take(sq, m, steps[0]), steps[1..])
  }

  /** From there no pass of the loop ever commits, whatever ticks and take-overs go by: the hold has stopped the clock
      that the switch is waited out by. */
  lemma {:induction false} NeverCommits(sq: real -> real, m: Machine, steps: seq<Step>)
    requires Stuck(m) && NothingPlanned(m.p)
    ensures var r := After(sq, m, steps);
      Shape(r) && r.e.clock == m.e.clock && !Accepts(r.p, r.e.clock) && !Accepts(Replan(sq, r.p, r.e.clock), r.e.clock)
    decreases |steps|
  {
    hide Stuck, Take;
    if steps == [] {
      StuckRefuses(sq, m);
    } else {
      StuckStep(sq, m, steps[0]);
      NeverCommits(sq, Take(sq, m, steps[0]), steps[1..]);
    }
  }

  lemma StuckRefuses(sq: real -> real, m: Machine)
    requires Stuck(m) && NothingPlanned(m.p)
    ensures Shape(m) && !Accepts(m.p, m.e.clock) && !Accepts(Replan(sq, m.p, m.e.clock), m.e.clock)
  {
    hide StopDistance, Planned, Make, ReverseEntry;
  }

  // ─── It is reached ─────────────────────────────────────────────────────────

  const LONG := Path(XY, 25.0, 1.0, 25.0, EAST, EAST, 0.0, 0.0, None)
  const SHORT := Path(XY, 0.125, 100.0, 25.0, EAST, EAST, 0.0, 0.0, None)

  lemma Roots(sq: real -> real)
    requires IsSqrt(sq)
    ensures sq(0.0) == 0.0 && sq(2.25) == 1.5 && sq(25.0) == 5.0
  {
    SqrtOfSquare(sq, 0.0);
    SqrtOfSquare(sq, 1.5);
    SqrtOfSquare(sq, 5.0);
  }

  function LongProfile(): Trapezoid { Trapezoid(25.0, 1.0, 0.0, 5.0, 0.0, 5.0, 0.0, 5.0, 12.5, 12.5) }

  lemma LongIs(sq: real -> real)
    requires IsSqrt(sq)
    ensures ProfileOf(sq, LONG, 0.0, 0.0) == LongProfile()
  {
    Roots(sq);
  }

  function LongBlock(): Block { Block(Line, 0, LONG, 0.0, 0.0, 0.0, 0.0, LongProfile()) }

  function Planning(q: seq<Block>): PlanState { PlanState(q, false, 0.0, 1.0, 0.5, IDLE, None, None, None) }

  /** Half a second into the long block, and its faster end from 1.5 s on. */
  function OnLong(q: seq<Block>, pinned: real): PlanState {
    Planning(q).(claimed := true, pinned := pinned, run := Piece(0.0, 0.0, LongProfile()))
  }

  function Moving(t: real, s: real, v: real): ExecState {
    Standing().(cur := true, piece := Piece(0.0, 0.0, LongProfile()), t := t, s := s, v := v, clock := t)
  }

  function Faster(sq: real -> real): Piece { Piece(1.5, 1.125, Make(sq, 23.875, 1.0, 2.25, 25.0, 25.0)) }

  lemma LongCommitted(sq: real -> real)
    requires IsSqrt(sq)
    ensures var p := PushItem(sq, Planning([]), LineItem(0, LONG, 0.0));
      && |p.q| == 1 && p.q[0].path == LONG && p.offer.None? && Accepts(Replan(sq, p, 0.0), 0.0)
      && Commit(Replan(sq, p, 0.0), 0.0) == Planning([LongBlock()])
  {
    hide ProfileOf;
    LongIs(sq);
    var q := PushItem(sq, Planning([]), LineItem(0, LONG, 0.0)).q;
    assert q[1..] == [];
  }

  lemma FirstTicked(sq: real -> real)
    requires IsSqrt(sq)
    ensures var m := Machine(Planning([LongBlock()]), Standing());
      Shape(m) && Tick(sq, m, 0.5) == Machine(OnLong([LongBlock()], 0.0), Moving(0.5, 0.125, 0.5))
  {
    StopsHere(sq, Machine(Planning([LongBlock()]), Standing()), 0.5);
  }

  function ShortBlock(sq: real -> real): Block { Block(Line, 1, SHORT, 0.0, 25.0, 0.0, 0.0, ProfileOf(sq, SHORT, 0.0, 0.0)) }

  lemma ShortPushed(sq: real -> real)
    requires IsSqrt(sq)
    ensures PushItem(sq, OnLong([LongBlock()], 0.0), LineItem(1, SHORT, 0.0)) == OnLong([LongBlock(), ShortBlock(sq)], 0.0)
  {
    hide ProfileOf;
  }

  /** The commit that raises the long block's exit. */
  function Raised(sq: real -> real): PlanState {
    OnLong([LongBlock().(exitSqr := 25.0), WithSpeeds(sq, ShortBlock(sq), 25.0, 0.0)], 25.0)
      .(offer := Some(Faster(sq)), staged := Some(Faster(sq)))
  }

  lemma ShortRaises(sq: real -> real)
    requires IsSqrt(sq)
    ensures var p := OnLong([LongBlock(), ShortBlock(sq)], 0.0);
      && (forall i :: 0 <= i < |p.q| ==> p.q[i].path.accel > 0.0)
      && Accepts(Replan(sq, p, 0.5), 0.5) && Commit(Replan(sq, p, 0.5), 0.5) == Raised(sq)
  {
    hide ProfileOf, Make;
    var q := [LongBlock(), ShortBlock(sq)];
    assert q[1..] == [ShortBlock(sq)] && [ShortBlock(sq)][1..] == [];
    assert ReverseEntry([ShortBlock(sq)]) == 25.0;
    assert Planned(sq, [ShortBlock(sq)], 25.0) == [WithSpeeds(sq, ShortBlock(sq), 25.0, 0.0)];
    var h := HorizonAt(OnLong(q, 0.0), 0.5);
    assert h == Horizon.At(1.5, 1.125, 2.25);
  }

  lemma SecondTicked(sq: real -> real)
    requires IsSqrt(sq)
    ensures var m := Machine(Raised(sq).(staged := None), Moving(0.5, 0.125, 0.5).(next := Some(Faster(sq))));
      && Shape(m)
      && Tick(sq, m, 0.5) == Machine(m.p, Moving(1.0, 0.5, 1.0).(next := Some(Faster(sq))))
  {
    hide ProfileOf, Make;
    StopsHere(sq, Machine(Raised(sq).(staged := None), Moving(0.5, 0.125, 0.5).(next := Some(Faster(sq)))), 0.5);
  }

  function Sys(m: Machine, adopted: bool, prev: Option<real>): System { System(m, false, adopted, prev) }

  function CaughtHolding(sq: real -> real): Machine {
    Machine(Raised(sq).(staged := None), Moving(1.0, 0.5, 1.0).(next := Some(Faster(sq)), mode := Mode.Holding))
  }

  lemma CaughtStuck(sq: real -> real)
    ensures Stuck(CaughtHolding(sq)) && NothingPlanned(CaughtHolding(sq).p)
  {
    hide ProfileOf, Make;
  }

  /** From half a second in: the raise taken, half a second more, and the hold. */
  lemma SecondHalf(sq: real -> real) returns (y: System, acts: seq<Action>)
    requires IsSqrt(sq)
    ensures var y8 := Sys(Machine(Raised(sq), Moving(0.5, 0.125, 0.5)), false, None);
      Shape(y8.m) && ValidRun(sq, y8, acts) && y == Final(sq, y8, acts)
    ensures !y.dirty && y.m == CaughtHolding(sq)
  {
    hide Tick, NeedsRing, ProfileOf, Make, ValidRun, Final;
    SecondTicked(sq);
    var y8 := Sys(Machine(Raised(sq), Moving(0.5, 0.125, 0.5)), false, None);
    var y9 := Perform(sq, y8, DoAdopt);
    var y10 := Perform(sq, y9, DoTick(0.5));
    y := Perform(sq, y10, Hold);
    CaughtStuck(sq);
    NothingLeft(sq, y);
    OneMore(sq, y10, Hold, []);
    OneMore(sq, y9, DoTick(0.5), [Hold] + []);
    OneMore(sq, y8, DoAdopt, [DoTick(0.5)] + ([Hold] + []));
    acts := [DoAdopt] + ([DoTick(0.5)] + ([Hold] + []));
  }

  lemma PushAndRaise(sq: real -> real) returns (y: System, acts: seq<Action>)
    requires IsSqrt(sq)
    ensures var y5 := Sys(Machine(OnLong([LongBlock()], 0.0), Moving(0.5, 0.125, 0.5)), false, None);
      Shape(y5.m) && ValidRun(sq, y5, acts) && y == Final(sq, y5, acts)
    ensures !y.dirty && y.m == CaughtHolding(sq)
  {
    hide ProfileOf, Make, ValidRun, Final, PushItem, Replan, Commit, Accepts;
    y, acts := SecondHalf(sq);
    ShortPushed(sq);
    ShortRaises(sq);
    var e, p := Moving(0.5, 0.125, 0.5), OnLong([LongBlock(), ShortBlock(sq)], 0.0);
    var y5, y6 := Sys(Machine(OnLong([LongBlock()], 0.0), e), false, None), Sys(Machine(p, e), false, None);
    var y7 := Perform(sq, y6, DoReplan(0.5));
    ReplanShape(sq, y6.m, 0.5);
    assert Perform(sq, y7, DoCommit(0.5)) == Sys(Machine(Raised(sq), e), false, None);
    OneMore(sq, y7, DoCommit(0.5), acts);
    OneMore(sq, y6, DoReplan(0.5), [DoCommit(0.5)] + acts);
    OneMore(sq, y5, Push(LineItem(1, SHORT, 0.0)), [DoReplan(0.5)] + ([DoCommit(0.5)] + acts));
    acts := [Push(LineItem(1, SHORT, 0.0))] + ([DoReplan(0.5)] + ([DoCommit(0.5)] + acts));
  }

  lemma ReplanShape(sq: real -> real, m: Machine, t: real)
    requires Shape(m)
    ensures Shape(m.(p := Replan(sq, m.p, t)))
  {
    hide Planned, RaiseAt, HorizonAt;
  }

  lemma StartsOff(sq: real -> real, more: seq<Action>) returns (acts: seq<Action>)
    requires IsSqrt(sq)
    requires var y5 := Sys(Machine(OnLong([LongBlock()], 0.0), Moving(0.5, 0.125, 0.5)), false, None);
      Shape(y5.m) && ValidRun(sq, y5, more)
    ensures ValidRun(sq, Initial(1.0, 0.5, IDLE), acts)
    ensures Final(sq, Initial(1.0, 0.5, IDLE), acts)
         == Final(sq, Sys(Machine(OnLong([LongBlock()], 0.0), Moving(0.5, 0.125, 0.5)), false, None), more)
  {
    hide Tick, ProfileOf, Make, ValidRun, Final, PushItem, Replan, Commit, Accepts;
    LongCommitted(sq);
    FirstTicked(sq);
    var e, p := Standing(), PushItem(sq, Planning([]), LineItem(0, LONG, 0.0));
    var y3, y4 := Sys(Machine(Planning([LongBlock()]), e), false, None), Sys(Machine(Planning([LongBlock()]), e), true, None);
    var y1 := Sys(Machine(p, e), false, None);
    LongShape(sq);
    ReplanShape(sq, y1.m, 0.0);
    var y2 := Perform(sq, y1, DoReplan(0.0));
    assert Perform(sq, y2, DoCommit(0.0)) == y3;
    OneMore(sq, y4, DoTick(0.5), more);
    OneMore(sq, y3, DoAdopt, [DoTick(0.5)] + more);
    OneMore(sq, y2, DoCommit(0.0), [DoAdopt] + ([DoTick(0.5)] + more));
    acts := [DoCommit(0.0)] + ([DoAdopt] + ([DoTick(0.5)] + more));
    OneMore(sq, y1, DoReplan(0.0), acts);
    OneMore(sq, Initial(1.0, 0.5, IDLE), Push(LineItem(0, LONG, 0.0)), [DoReplan(0.0)] + acts);
    acts := [Push(LineItem(0, LONG, 0.0))] + ([DoReplan(0.0)] + acts);
  }

  lemma LongShape(sq: real -> real)
    ensures Shape(Machine(PushItem(sq, Planning([]), LineItem(0, LONG, 0.0)), Standing()))
  {
    hide ProfileOf;
  }

  /** Such a state is reached: a block raised half a second before the hold, within the guard of its switch. */
  lemma StuckReached(sq: real -> real) returns (y: System)
    requires IsSqrt(sq)
    ensures Reached(sq, y) && !y.dirty && Stuck(y.m) && NothingPlanned(y.m.p)
  {
    hide ValidRun, Final, Stuck, NothingPlanned;
    var acts;
    y, acts := PushAndRaise(sq);
    acts := StartsOff(sq, acts);
    CaughtStuck(sq);
  }
}
