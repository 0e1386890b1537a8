/** How long the queue takes to run (lib/planner/planner/planner.h, queuedTime). */
module QueueTime {
  import opened Trapezoids
  import opened Kinematics
  import opened Paths
  import opened LookAhead
  import opened PlanStates
  import opened ExecStates
  import opened ExecSafety
  import opened RingLock
  import opened Systems
  import opened Holds
  import opened HoldLag
  import opened MotionTheorems

  predicate NoEvents(q: seq<Block>) { forall i :: 0 <= i < |q| ==> !q[i].kind.Event? }

  /** About to claim the oldest block. */
  predicate Between(sq: real -> real, m: Machine) { Good(sq, m) && Shape(m) && !m.e.cur && m.e.mode.Running? }

  lemma Begun(sq: real -> real, m: Machine)
    requires IsSqrt(sq) && Between(sq, m) && m.p.q != [] && NoEvents(m.p.q)
    ensures var b := BeginBlock(m);
      && Good(sq, b) && Shape(b) && b.e.cur && b.e.mode.Running? && b.p.q == m.p.q && b.p.staged.None? && b.e.next.None?
      && b.e.t == 0.0 && LastPiece(b.e).End() == m.p.q[0].profile.Duration() > 0.0
  {
    hide PlanInv, OnPiece, CanBrake, Trapezoid.Duration;
    BeginKeeps(sq, m, 0.0, 0.0);
    GoodShape(sq, BeginBlock(m));
    TakesTime(sq, BeginBlock(m));
  }

  lemma TakesTime(sq: real -> real, m: Machine)
    requires Good(sq, m) && m.e.cur && m.e.mode.Running? && !m.p.q[0].kind.Event?
    ensures m.e.piece.profile.Duration() > 0.0
  {
    hide PlanInv, Trapezoid.Position, Trapezoid.Velocity, CanBrake;
    Ends(m.e.piece.profile);
  }

  lemma {:induction false} TimePositive(sq: real -> real, m: Machine)
    requires IsSqrt(sq) && Between(sq, m) && NoEvents(m.p.q)
    ensures m.p.q != [] ==> TotalTime(m.p.q) > 0.0
    ensures TotalTime(m.p.q) >= 0.0
    decreases |m.p.q|
  {
    hide Good, BeginBlock, Budget, Shape;
    if m.p.q != [] {
      Begun(sq, m);
      var b, left := BeginBlock(m), m.p.q[0].profile.Duration();
      NoOffer(b, left);
      Next(sq, b, left);
      TimePositive(sq, Finished(b));
    }
  }

  lemma NoOffer(m: Machine, dt: real)
    requires m.p.staged.None? && dt >= 0.0
    ensures Budget(m, dt)
  {
  }

  /** The block run out, the next is up. */
  lemma Next(sq: real -> real, m: Machine, dt: real)
    requires IsSqrt(sq) && Good(sq, m) && Shape(m) && m.e.cur && m.e.mode.Running? && !m.p.q[0].kind.Event? && Budget(m, dt)
    requires m.p.q != [] && dt >= LastPiece(m.e).End() - m.e.t && NoEvents(m.p.q)
    ensures Between(sq, Finished(m)) && Finished(m).p.q == m.p.q[1..] && NoEvents(m.p.q[1..])
  {
    hide PlanInv, ExecInv;
    FinishedGood(sq, m, dt);
    GoodShape(sq, Finished(m));
  }

  /** Between blocks and with no event queued, the queue is run out at exactly the sum of its profiles' times. */
  lemma {:induction false} RunsOut(sq: real -> real, m: Machine, dt: real)
    requires IsSqrt(sq) && Between(sq, m) && NoEvents(m.p.q) && dt >= 0.0
    ensures Advance(sq, m, dt).p.q == [] <==> dt >= TotalTime(m.p.q)
    decreases |m.p.q|
  {
    hide Good, BeginBlock, Budget, Shape, Advance, Trapezoid.Duration, LastPiece;
    TimePositive(sq, m);
    if m.p.q == [] {
      IsShape(sq, m);
      AdvanceShrinks(sq, m, dt);
    } else if dt == 0.0 {
      IsShape(sq, m);
      StandsStill(sq, m, dt);
    } else {
      IsShape(sq, m);
      Begun(sq, m);
      var b, left := BeginBlock(m), m.p.q[0].profile.Duration();
      Starts(sq, m, dt);
      NoOffer(b, dt);
      RunThrough(sq, b, dt);
      NoOffer(b, left);
      Next(sq, b, left);
      TimePositive(sq, Finished(b));
      if dt >= left { RunsOut(sq, Finished(b), dt - left); }
    }
  }

  lemma IsShape(sq: real -> real, m: Machine)
    requires Between(sq, m)
    ensures Shape(m)
  {
  }

  lemma Starts(sq: real -> real, m: Machine, dt: real)
    requires Between(sq, m) && m.p.q != [] && dt > 0.0
    ensures Shape(BeginBlock(m)) && Advance(sq, m, dt) == Advance(sq, BeginBlock(m), dt)
  {
    hide Good, Shape, BeginBlock;
    BeginsWith(sq, m, dt);
  }

  /** In every reachable state: what the queue is said to take, with nothing claimed and no event in it, is the time after
      which, and not before, nothing is left. */
  lemma QueuedTimeExact(sq: real -> real, y: System, dt: real)
    requires IsSqrt(sq) && Reached(sq, y) && !y.dirty && dt >= 0.0
    ensures Shape(y.m)
    ensures !y.m.e.cur && y.m.e.mode.Running? && NoEvents(y.m.p.q) ==>
      y.m.p.Unclaimed() == y.m.p.q && (Advance(sq, y.m, dt).p.q == [] <==> dt >= TotalTime(y.m.p.Unclaimed()))
  {
    hide Reached, SystemInv, Good, Advance, TotalTime;
    ReachedSafe(sq, y);
    RunIsGood(sq, y);
    if !y.m.e.cur && y.m.e.mode.Running? && NoEvents(y.m.p.q) { RunsOut(sq, y.m, dt); }
  }
}
