/** A plan on which a hold comes to rest later than the run would: gentle now, hard braking ahead. */
module HoldExample {
  import opened Arithmetic
  import opened Trapezoids
  import opened Kinematics
  import opened Paths
  import opened LookAhead
  import opened PlanStates
  import opened ExecStates
  import opened ExecSafety
  import opened RingLock
  import opened Systems
  import opened MotionTheorems
  import opened HoldRises

  /** 17 mm at 1 mm/s^2, then an eighth of a millimetre at 100, both up to 5 mm/s. */
  const GENTLE := Path(XY, 17.0, 1.0, 25.0, EAST, EAST, 0.0, 0.0, None)
  const HARD := Path(XY, 0.125, 100.0, 25.0, EAST, EAST, 0.0, 0.0, None)

  lemma Roots(sq: real -> real)
    requires IsSqrt(sq)
    ensures sq(0.0) == 0.0 && sq(16.0) == 4.0 && sq(25.0) == 5.0
  {
    SqrtOfSquare(sq, 0.0);
    SqrtOfSquare(sq, 4.0);
    SqrtOfSquare(sq, 5.0);
  }

  function GentleProfile(): Trapezoid { Trapezoid(17.0, 1.0, 0.0, 5.0, 5.0, 5.0, 0.9, 0.0, 12.5, 0.0) }

  function HardProfile(): Trapezoid { Trapezoid(0.125, 100.0, 5.0, 5.0, 0.0, 0.0, 0.0, 0.05, 0.0, 0.125) }

  lemma Profiles(sq: real -> real)
    requires IsSqrt(sq)
    ensures ProfileOf(sq, GENTLE, 0.0, 25.0) == GentleProfile()
    ensures ProfileOf(sq, HARD, 25.0, 0.0) == HardProfile()
  {
    Roots(sq);
  }

  /** The queue once planned and committed. */
  function Gentle(): Block { Block(Line, 0, GENTLE, 0.0, 0.0, 0.0, 25.0, GentleProfile()) }

  function Hard(): Block { Block(Line, 1, HARD, 0.0, 25.0, 25.0, 0.0, HardProfile()) }

  lemma PlansTwo(sq: real -> real, b: Block, c: Block)
    requires IsSqrt(sq) && b == Gentle().(exitSqr := b.exitSqr, profile := b.profile)
    requires c == Hard().(entrySqr := c.entrySqr, profile := c.profile)
    ensures Planned(sq, [b, c], 0.0) == [Gentle(), Hard()]
  {
    hide ProfileOf;
    Profiles(sq);
    assert [b, c][1..] == [c] && [c][1..] == [];
    assert ReverseEntry([c]) == 25.0;
  }

  function Pushed(sq: real -> real): PlanState {
    PushItem(sq, PushItem(sq, Ring([], 5.0), LineItem(0, GENTLE, 0.0)), LineItem(1, HARD, 0.0))
  }

  lemma PushedIs(sq: real -> real)
    requires IsSqrt(sq)
    ensures var p := Pushed(sq);
      && p == Ring(p.q, 5.0) && |p.q| == 2
      && p.q[0] == Gentle().(exitSqr := p.q[0].exitSqr, profile := p.q[0].profile)
      && p.q[1] == Hard().(entrySqr := p.q[1].entrySqr, profile := p.q[1].profile)
  {
    hide ProfileOf;
  }

  lemma CommittedIs(sq: real -> real)
    requires IsSqrt(sq)
    ensures Commit(Replan(sq, Pushed(sq), 0.0), 0.0) == Ring([Gentle(), Hard()], 5.0)
  {
    hide ProfileOf, Pushed, Planned;
    PushedIs(sq);
    var p := Pushed(sq);
    assert p.q == [p.q[0], p.q[1]];
    PlansTwo(sq, p.q[0], p.q[1]);
  }

  /** Five seconds on: up to speed, 4.5 mm before the hard block. */
  function Cruising(): Machine {
    Machine(Ring([Gentle(), Hard()], 5.0).(claimed := true, pinned := 25.0, run := Piece(0.0, 0.0, GentleProfile())),
            Standing().(cur := true, piece := Piece(0.0, 0.0, GentleProfile()), t := 5.0, s := 12.5, v := 5.0, clock := 5.0))
  }

  lemma Ticked(sq: real -> real)
    requires IsSqrt(sq)
    ensures var m := Machine(Ring([Gentle(), Hard()], 5.0), Standing()); Shape(m) && Tick(sq, m, 5.0) == Cruising()
  {
    var m := Machine(Ring([Gentle(), Hard()], 5.0), Standing());
    StopsHere(sq, m, 5.0);
  }

  lemma PushedShape(sq: real -> real)
    requires IsSqrt(sq)
    ensures Shape(Machine(PushItem(sq, Ring([], 5.0), LineItem(0, GENTLE, 0.0)), Standing()))
    ensures Shape(Machine(Pushed(sq), Standing())) && Shape(Machine(Replan(sq, Pushed(sq), 0.0), Standing()))
  {
    hide ProfileOf, Planned;
  }

  /** From the planned queue to cruising: an adopt and a tick. */
  lemma LastActs(sq: real -> real) returns (y: System)
    requires IsSqrt(sq)
    ensures var y4, acts := With(Ring([Gentle(), Hard()], 5.0), false), [DoAdopt] + ([DoTick(5.0)] + []);
      Shape(y4.m) && ValidRun(sq, y4, acts) && y == Final(sq, y4, acts)
    ensures y.m == Cruising() && !y.dirty
  {
    hide Tick, NeedsRing;
    Ticked(sq);
    var y4 := With(Ring([Gentle(), Hard()], 5.0), false);
    var y5 := With(Ring([Gentle(), Hard()], 5.0), true);
    assert Perform(sq, y4, DoAdopt) == y5;
    y := Perform(sq, y5, DoTick(5.0));
    OneMore(sq, y5, DoTick(5.0), []);
    OneMore(sq, y4, DoAdopt, [DoTick(5.0)] + []);
  }

  lemma Reaches(sq: real -> real) returns (y: System)
    requires IsSqrt(sq)
    ensures Reached(sq, y) && y.m == Cruising() && !y.dirty
  {
    hide PushItem, Replan, Commit, Planned, ValidRun, Final;
    y := LastActs(sq);
    var acts := [DoAdopt] + ([DoTick(5.0)] + []);
    PushedShape(sq);
    CommittedIs(sq);
    var p1 := PushItem(sq, Ring([], 5.0), LineItem(0, GENTLE, 0.0));
    var p3 := Replan(sq, Pushed(sq), 0.0);
    assert Initial(0.0, 5.0, IDLE) == With(Ring([], 5.0), false);
    Replanned(sq);
    OneMore(sq, With(p3, false), DoCommit(0.0), acts);
    OneMore(sq, With(Pushed(sq), false), DoReplan(0.0), [DoCommit(0.0)] + acts);
    OneMore(sq, With(p1, false), Push(LineItem(1, HARD, 0.0)), [DoReplan(0.0)] + ([DoCommit(0.0)] + acts));
    OneMore(sq, With(Ring([], 5.0), false), Push(LineItem(0, GENTLE, 0.0)),
            [Push(LineItem(1, HARD, 0.0))] + ([DoReplan(0.0)] + ([DoCommit(0.0)] + acts)));
  }

  lemma Replanned(sq: real -> real)
    requires IsSqrt(sq)
    ensures Accepts(Replan(sq, Pushed(sq), 0.0), 0.0) && Pushed(sq).offer.None?
  {
    hide ProfileOf, Planned;
  }

  lemma RunStops(sq: real -> real)
    requires IsSqrt(sq)
    ensures Shape(Cruising()) && Advance(sq, Cruising(), 0.96).e.v == 0.0
  {
    var m := Cruising();
    TurnShrinks(sq, m, 0.96);
    var k := TurnOnce(sq, m, 0.96).m;
    assert TurnOnce(sq, m, 0.96).left == 0.06;
    TurnShrinks(sq, k, 0.06);
    var l := TurnOnce(sq, k, 0.06).m;
    assert TurnOnce(sq, k, 0.06).left == 0.01;
    StopsHere(sq, l, 0.01);
  }

  lemma HoldGoesOn(sq: real -> real)
    requires IsSqrt(sq)
    ensures var h := Cruising().(e := HoldExec(Cruising().e)); Shape(h) && Advance(sq, h, 0.96).e.v == 4.04
  {
    Roots(sq);
    var h := Cruising().(e := HoldExec(Cruising().e));
    StopsHere(sq, h, 0.96);
  }

  /** After 0.96 s the run is at rest at the end of its queue; a hold begun at the same instant still moves. */
  lemma HoldTakesLonger(sq: real -> real) returns (y: System)
    requires IsSqrt(sq)
    ensures Reached(sq, y) && !y.dirty && Shape(y.m) && y.m.e.mode.Running? && Budget(y.m, 0.96)
    ensures Advance(sq, y.m, 0.96).e.v == 0.0
    ensures var h := y.m.(e := HoldExec(y.m.e)); Shape(h) && Advance(sq, h, 0.96).e.v > 0.0
  {
    hide Reached, Advance;
    y := Reaches(sq);
    RunStops(sq);
    HoldGoesOn(sq);
  }
}
